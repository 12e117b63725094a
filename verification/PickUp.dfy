/** Who gets to start: the 29 seconds in which every operator can pick up the start, and what happens to one that misses them. */
module PickUp {
  import opened Statuses
  import opened Server
  import opened Protocol
  import opened Invariant
  import opened Safety

  ghost predicate NothingAborted(rows: seq<Status>) {
    forall k | 0 <= k < |rows| :: rows[k] != Failed && rows[k] != Canceled
  }

  /** Everything but operator `i`'s own reconcile pass; its igniter's goroutines are included. */
  predicate Foreign(e: Event, i: nat) {
    !(e.Step? && e.i == i)
  }

  ghost predicate AllForeign(es: seq<Event>, i: nat) {
    forall k | 0 <= k < |es| :: Foreign(es[k], i)
  }

  /** The same igniters as before as far as the reconcile pass decides: none is new, and none was stopped since. */
  ghost predicate SameContexts(igniters: seq<Igniter>, before: seq<Igniter>) {
    |igniters| == |before| && forall g | 0 <= g < |before| :: igniters[g].canceled == before[g].canceled
  }

  lemma ForeignEventKeepsThePass(s: State, e: Event, i: nat)
    requires WellFormed(s) && i < |s.ops| && Foreign(e, i)
    ensures var op := Apply(s, e).ops[i];
            op.pc == s.ops[i].pc && op.slot == s.ops[i].slot && op.known == s.ops[i].known && op.log == s.ops[i].log &&
            SameContexts(op.igniters, s.ops[i].igniters)
  {
  }

  lemma {:induction false} ForeignEventsKeepThePass(s: State, es: seq<Event>, i: nat)
    requires WellFormed(s) && i < |s.ops| && AllForeign(es, i)
    ensures var op := Exec(s, es).ops[i];
            op.pc == s.ops[i].pc && op.slot == s.ops[i].slot && op.known == s.ops[i].known && op.log == s.ops[i].log &&
            SameContexts(op.igniters, s.ops[i].igniters)
  {
    if es != [] {
      ForeignEventsKeepThePass(s, es[..|es| - 1], i);
      assert Foreign(es[|es| - 1], i);
      ForeignEventKeepsThePass(Exec(s, es[..|es| - 1]), es[|es| - 1], i);
    }
  }

  /** Before the agreed instant, and as long as nothing failed or was canceled, every location is still ready. */
  lemma StillReadyBeforeTheStart(s: State)
    requires Reachable(s) && s.server.startedAt.Some? && s.now < s.server.startedAt.value && NothingAborted(s.server.rows)
    ensures AllAre(s.server.rows, Ready)
  {
    ReachableHasInv(s);
  }

  ghost predicate Healthy(found: ReadReply) {
    found.Found? && !found.obj.deleting && JobFailed !in found.obj.conditions
  }

  /** A pass of operator `i` up to its igniter, with any events of the others between its accesses. */
  function IgnitionPass(i: nat, before: seq<Event>, found: ReadReply, between: seq<Event>, pods: seq<Pod>): seq<Event> {
    ((([Step(i, Fetch(true))] + before) + [Step(i, Read(found))]) + between) + [Step(i, Ignite(Some(pods)))]
  }

  ghost predicate HoldsStart(job: Job) {
    job.status == Ready && job.ready && job.startAt.Some?
  }

  lemma FetchStep(s: State, i: nat)
    requires WellFormed(s) && i < |s.ops| && s.ops[i].pc == Idle && AllAre(s.server.rows, Ready)
    ensures var t := Apply(s, Step(i, Fetch(true)));
            && t.ops[i].pc == Fetched(Job(Ready, true, s.server.startedAt))
            && t.ops[i].igniters == s.ops[i].igniters && t.server == s.server
  {
  }

  lemma ReadStep(s: State, i: nat, found: ReadReply)
    requires WellFormed(s) && i < |s.ops| && s.ops[i].pc.Fetched? && HoldsStart(s.ops[i].pc.job)
    requires Healthy(found) && Observable(s.clusters[i], found)
    ensures var t := Apply(s, Step(i, Read(found)));
            && t.ops[i].pc == Igniting(s.ops[i].pc.job, found.obj) && t.workers == s.workers
            && t.ops[i].slot == s.ops[i].slot && WellFormed(t)
  {
  }

  lemma IgniteStep(s: State, i: nat, pods: seq<Pod>)
    requires WellFormed(s) && i < |s.ops| && s.ops[i].pc.Igniting? && HoldsStart(s.ops[i].pc.job) && |pods| == s.workers[i]
    ensures Apply(s, Step(i, Ignite(Some(pods)))).ops[i].slot.Some?
    ensures s.ops[i].slot.None? ==> Apply(s, Step(i, Ignite(Some(pods)))).ops[i].igniters != []
  {
  }

  lemma SlotHoldsTheStart(s: State, i: nat)
    requires Reachable(s) && i < |s.ops| && s.ops[i].slot.Some?
    ensures s.ops[i].slot == Some(0) && |s.ops[i].igniters| == 1 && s.server.startedAt == Some(s.ops[i].igniters[0].startAt)
  {
    ReachableHasInv(s);
    assert OpInv(s.server, s.now, i, s.workers[i], s.clusters[i], s.ops[i]);
    assert IgniterOk(s.server.startedAt, s.now, s.workers[i], s.ops[i].igniters[0]);
  }

  /** What a pass that starts from an all-ready snapshot gets, whatever the others do meanwhile. */
  lemma PassFromReadySnapshotIgnites(s: State, i: nat, before: seq<Event>, found: ReadReply, between: seq<Event>, pods: seq<Pod>)
    requires Reachable(s) && i < |s.ops| && s.ops[i].pc == Idle
    requires AllAre(s.server.rows, Ready)
    requires AllForeign(before, i) && AllForeign(between, i)
    requires Healthy(found) && Observable(Exec(s, [Step(i, Fetch(true))] + before).clusters[i], found)
    requires |pods| == s.workers[i]
    ensures var op := Exec(s, IgnitionPass(i, before, found, between, pods)).ops[i];
            op.slot == Some(0) && |op.igniters| == 1 && s.server.startedAt == Some(op.igniters[0].startAt)
  {
    BarrierAlwaysOpens(s);
    var fetch, read, ignite := Step(i, Fetch(true)), Step(i, Read(found)), Step(i, Ignite(Some(pods)));
    ReachableHasInv(s);
    FetchStep(s, i);
    ExecOne(s, fetch);
    ExecConcat(s, [fetch], before);
    ForeignEventsKeepThePass(Exec(s, [fetch]), before, i);
    var es2 := [fetch] + before;
    ReadStep(Exec(s, es2), i, found);
    ExecSnoc(s, es2, read);
    ExecConcat(s, es2 + [read], between);
    ForeignEventsKeepThePass(Exec(s, es2 + [read]), between, i);
    var es4 := (es2 + [read]) + between;
    IgniteStep(Exec(s, es4), i, pods);
    ExecSnoc(s, es4, ignite);
    ReachableOn(s, es4 + [ignite]);
    SlotHoldsTheStart(Exec(s, es4 + [ignite]), i);
    StartNeverChanges(s, es4 + [ignite]);
  }

  /** The start was stamped at the instant `at`, and here is a state since then. */
  ghost predicate StampedAt(s: State, at: int) {
    Reachable(s) && s.server.startedAt.Some? && at + 29 * SECOND < s.server.startedAt.value
  }

  lemma StampIsLate(s0: State, stamp: Event)
    requires Reachable(s0) && s0.server.startedAt == None && Apply(s0, stamp).server.startedAt.Some?
    ensures StampedAt(Apply(s0, stamp), s0.now)
  {
    OnlyTheLastReadyStamps(s0, stamp);
    ExecOne(s0, stamp);
    ReachableOn(s0, [stamp]);
  }

  /** Up to 29 seconds after the stamp, if nothing has failed or been canceled, no location has left READY. */
  lemma ReadyForTheDelay(s: State, at: int, es: seq<Event>)
    requires StampedAt(s, at) && Exec(s, es).now <= at + 29 * SECOND && NothingAborted(Exec(s, es).server.rows)
    ensures Reachable(Exec(s, es)) && AllAre(Exec(s, es).server.rows, Ready)
    ensures Exec(s, es).server.startedAt == s.server.startedAt
  {
    ReachableHasInv(s);
    ReachableOn(s, es);
    StartNeverChanges(s, es);
    StillReadyBeforeTheStart(Exec(s, es));
  }

  /**
   * Timed pick-up. The start is stamped at `s0.now`. Up to 29 seconds later, if nothing has failed or been canceled, no
   * location has left READY, and every operator whose pass begins then and finds its Job healthy and its pods complete
   * holds an igniter for the agreed instant, whatever the others do during the pass.
   */
  lemma TimedPickUp(s0: State, stamp: Event, es: seq<Event>, i: nat,
                    before: seq<Event>, found: ReadReply, between: seq<Event>, pods: seq<Pod>)
    requires Reachable(s0) && s0.server.startedAt == None && Apply(s0, stamp).server.startedAt.Some?
    requires var s := Exec(Apply(s0, stamp), es);
             && s.now <= s0.now + 29 * SECOND && NothingAborted(s.server.rows)
             && i < |s.ops| && s.ops[i].pc == Idle
             && Observable(Exec(s, [Step(i, Fetch(true))] + before).clusters[i], found)
    requires Healthy(found) && AllForeign(before, i) && AllForeign(between, i) && |pods| == s0.workers[i]
    ensures AllAre(Exec(Apply(s0, stamp), es).server.rows, Ready)
    ensures var op := Exec(Exec(Apply(s0, stamp), es), IgnitionPass(i, before, found, between, pods)).ops[i];
            op.slot == Some(0) && |op.igniters| == 1 && Apply(s0, stamp).server.startedAt == Some(op.igniters[0].startAt)
  {
    StampIsLate(s0, stamp);
    ReadyForTheDelay(Apply(s0, stamp), s0.now, es);
    PassFromReadySnapshotIgnites(Exec(Apply(s0, stamp), es), i, before, found, between, pods);
  }

  // ----- Missing the pick-up

  /** The operator still sees the run ready, or holds a snapshot that did. */
  ghost predicate CanStillIgnite(s: State, i: nat)
    requires WellFormed(s) && i < |s.ops|
  {
    || AllAre(s.server.rows, Ready)
    || (s.ops[i].pc.Fetched? && HoldsStart(s.ops[i].pc.job))
    || (s.ops[i].pc.Igniting? && HoldsStart(s.ops[i].pc.job))
  }

  ghost predicate Stranded(s: State, i: nat)
    requires WellFormed(s) && i < |s.ops|
  {
    s.server.startedAt.Some? && s.ops[i].igniters == [] && !CanStillIgnite(s, i)
  }

  lemma NotReadyAnyMore(s: State, e: Event)
    requires Inv(s) && s.server.startedAt.Some? && !AllAre(s.server.rows, Ready)
    ensures Apply(s, e).server.startedAt.Some? && !AllAre(Apply(s, e).server.rows, Ready)
  {
    var k :| 0 <= k < |s.server.rows| && s.server.rows[k] != Ready;
    EveryChangeRaisesTheRank(s, e, k);
  }

  ghost predicate NeverRan(row: Status) {
    row == Ready || row == Canceled || row == Failed
  }

  lemma StrandedStays(s: State, e: Event, i: nat)
    requires Inv(s) && i < |s.ops| && Stranded(s, i)
    ensures Stranded(Apply(s, e), i)
    ensures NeverRan(s.server.rows[i]) ==> NeverRan(Apply(s, e).server.rows[i])
  {
    NotReadyAnyMore(s, e);
    EveryChangeRaisesTheRank(s, e, i);
    assert OpInv(s.server, s.now, i, s.workers[i], s.clusters[i], s.ops[i]);
    if e.Step? && e.i < |s.ops| && e.i != i {
      DoKeepsInv(LocalOf(s, e.i), s.now, e.i, s.workers[e.i], e.call);
      assert Rely(s.server, s.now, Do(LocalOf(s, e.i), s.now, e.i, s.workers[e.i], e.call).server, s.now, i);
    } else if e.Step? && e.i == i {
      StrandedPass(LocalOf(s, i), s.now, i, s.workers[i], e.call);
    }
  }

  lemma StrandedPass(l: Local, now: int, i: nat, n: nat, call: Call)
    requires i < |l.server.rows| && OpInv(l.server, now, i, n, l.cluster, l.op)
    requires l.server.startedAt.Some? && l.op.igniters == [] && !AllAre(l.server.rows, Ready)
    requires l.op.pc.Fetched? ==> !HoldsStart(l.op.pc.job)
    requires l.op.pc.Igniting? ==> !HoldsStart(l.op.pc.job)
    requires !AllAre(Do(l, now, i, n, call).server.rows, Ready)
    ensures var r := Do(l, now, i, n, call);
            && r.op.igniters == []
            && (r.op.pc.Fetched? ==> !HoldsStart(r.op.pc.job))
            && (r.op.pc.Igniting? ==> !HoldsStart(r.op.pc.job))
            && (NeverRan(l.server.rows[i]) ==> NeverRan(r.server.rows[i]))
  {
  }

  /** A stranded operator never gets an igniter, and its location, if ready, never runs: it ends canceled or failed, or not at all. */
  lemma {:induction false} StrandedForever(s: State, es: seq<Event>, i: nat)
    requires Reachable(s) && i < |s.ops| && Stranded(s, i)
    ensures Stranded(Exec(s, es), i)
    ensures NeverRan(s.server.rows[i]) ==> NeverRan(Exec(s, es).server.rows[i])
  {
    ReachableHasInv(s);
    if es != [] {
      StrandedForever(s, es[..|es| - 1], i);
      ExecKeepsInv(s, es[..|es| - 1]);
      StrandedStays(Exec(s, es[..|es| - 1]), es[|es| - 1], i);
    }
  }

  // ----- Every operator in time

  /**
   * How an operator comes to ask for its igniter: in a pass that begins after the stamp, or, if its own write stamped the
   * start, in that same pass.
   */
  datatype Turn =
    | Later(pre: seq<Event>, before: seq<Event>, found: ReadReply, between: seq<Event>, pods: seq<Pod>, post: seq<Event>)
    | Stamping(between: seq<Event>, pods: seq<Pod>, post: seq<Event>)

  function TurnPass(i: nat, turn: Turn): seq<Event>
    requires turn.Later?
  {
    IgnitionPass(i, turn.before, turn.found, turn.between, turn.pods)
  }

  function StampingPass(i: nat, turn: Turn): seq<Event> {
    turn.between + [Step(i, Ignite(Some(turn.pods)))]
  }

  /**
   * In the run `es` from `s`, which is right after the event `stamp`, operator `i` has such a pass; it finds its Job healthy
   * and its pods complete.
   */
  ghost predicate HasTurn(s: State, stamp: Event, es: seq<Event>, i: nat, turn: Turn)
    requires WellFormed(s) && i < |s.ops|
  {
    && |turn.pods| == s.workers[i] && AllForeign(turn.between, i)
    && match turn
       case Later(pre, before, found, between, pods, post) =>
         && es == pre + (TurnPass(i, turn) + post)
         && Exec(s, pre).ops[i].pc == Idle && AllForeign(before, i)
         && Healthy(found) && Observable(Exec(Exec(s, pre), [Step(i, Fetch(true))] + before).clusters[i], found)
       case Stamping(between, pods, post) =>
         stamp == Step(i, Send(Delivered)) && es == StampingPass(i, turn) + post
  }

  /** The operator that stamped the start got it with the response, and its pass goes on to the igniter. */
  lemma StampLeadsToIgniter(s0: State, i: nat)
    requires Reachable(s0) && s0.server.startedAt == None && Apply(s0, Step(i, Send(Delivered))).server.startedAt.Some?
    ensures i < |s0.ops|
    ensures var op := Apply(s0, Step(i, Send(Delivered))).ops[i]; op.pc.Igniting? && HoldsStart(op.pc.job)
  {
    OnlyTheLastReadyStamps(s0, Step(i, Send(Delivered)));
  }

  lemma {:induction false} IgnitersStay(s: State, es: seq<Event>, i: nat)
    requires WellFormed(s) && i < |s.ops|
    ensures |Exec(s, es).ops[i].igniters| >= |s.ops[i].igniters|
  {
    if es != [] {
      IgnitersStay(s, es[..|es| - 1], i);
      IgniterStays(Exec(s, es[..|es| - 1]), es[|es| - 1], i);
    }
  }

  lemma IgniterStays(s: State, e: Event, i: nat)
    requires WellFormed(s) && i < |s.ops|
    ensures |Apply(s, e).ops[i].igniters| >= |s.ops[i].igniters|
  {
  }

  lemma NeverStranded(s: State, es: seq<Event>, i: nat)
    requires WellFormed(s) && i < |s.ops| && s.ops[i].igniters != []
    ensures !Stranded(Exec(s, es), i)
  {
    IgnitersStay(s, es, i);
  }

  /** What is not aborted in the end was not aborted before. */
  lemma NotAbortedBefore(s: State, es: seq<Event>)
    requires Inv(s) && NothingAborted(Exec(s, es).server.rows)
    ensures NothingAborted(s.server.rows)
  {
    forall k | 0 <= k < |s.server.rows| ensures s.server.rows[k] != Failed && s.server.rows[k] != Canceled {
      RanksNeverFall(s, es, k);
      assert Exec(s, es).server.rows[k] != Failed && Exec(s, es).server.rows[k] != Canceled;
    }
  }

  lemma LaterTurnIgnites(s: State, stamp: Event, at: int, es: seq<Event>, i: nat, turn: Turn)
    requires StampedAt(s, at) && Exec(s, es).now <= at + 29 * SECOND && NothingAborted(Exec(s, es).server.rows)
    requires i < |s.ops| && HasTurn(s, stamp, es, i, turn) && turn.Later?
    ensures Exec(s, es).ops[i].igniters != []
  {
    var rest, u := TurnPass(i, turn) + turn.post, Exec(s, turn.pre);
    ReachableOn(s, turn.pre);
    ReachableHasInv(u);
    ExecConcat(s, turn.pre, rest);
    NotAbortedBefore(u, rest);
    ReadyForTheDelay(s, at, turn.pre);
    PassFromReadySnapshotIgnites(u, i, turn.before, turn.found, turn.between, turn.pods);
    ExecConcat(u, TurnPass(i, turn), turn.post);
    IgnitersStay(Exec(u, TurnPass(i, turn)), turn.post, i);
  }

  lemma IgnitingGoesOn(s: State, i: nat, between: seq<Event>, pods: seq<Pod>)
    requires Reachable(s) && i < |s.ops| && s.ops[i].pc.Igniting? && HoldsStart(s.ops[i].pc.job)
    requires AllForeign(between, i) && |pods| == s.workers[i]
    ensures Exec(s, between + [Step(i, Ignite(Some(pods)))]).ops[i].igniters != []
  {
    var ignite := Step(i, Ignite(Some(pods)));
    ForeignEventsKeepThePass(s, between, i);
    IgniteStep(Exec(s, between), i, pods);
    ExecSnoc(s, between, ignite);
    ReachableOn(s, between + [ignite]);
    SlotHoldsTheStart(Exec(s, between + [ignite]), i);
  }

  lemma StampingTurnIgnites(s: State, stamp: Event, es: seq<Event>, i: nat, turn: Turn)
    requires Reachable(s) && i < |s.ops| && HasTurn(s, stamp, es, i, turn) && turn.Stamping?
    requires s.ops[i].pc.Igniting? && HoldsStart(s.ops[i].pc.job)
    ensures Exec(s, es).ops[i].igniters != []
  {
    IgnitingGoesOn(s, i, turn.between, turn.pods);
    ExecConcat(s, StampingPass(i, turn), turn.post);
    IgnitersStay(Exec(s, StampingPass(i, turn)), turn.post, i);
  }

  /** A ready location that ever had an igniter has it in the map. */
  lemma ReadyHoldsIgniter(t: State, i: nat)
    requires Reachable(t) && i < |t.ops| && t.server.rows[i] == Ready && t.ops[i].igniters != []
    ensures t.ops[i].slot == Some(0) && |t.ops[i].igniters| == 1
    ensures t.server.startedAt == Some(t.ops[i].igniters[0].startAt)
  {
    ReachableHasInv(t);
    assert OpInv(t.server, t.now, i, t.workers[i], t.clusters[i], t.ops[i]);
    SlotHoldsTheStart(t, i);
  }

  /** The operator holds one igniter, for the given start. */
  ghost predicate Holds(op: Op, startAt: Option<int>) {
    op.slot == Some(0) && |op.igniters| == 1 && startAt == Some(op.igniters[0].startAt)
  }

  lemma TurnHolds(s: State, stamp: Event, at: int, es: seq<Event>, i: nat, turn: Turn)
    requires StampedAt(s, at) && Exec(s, es).now <= at + 29 * SECOND && NothingAborted(Exec(s, es).server.rows)
    requires i < |s.ops| && HasTurn(s, stamp, es, i, turn)
    requires turn.Stamping? ==> s.ops[i].pc.Igniting? && HoldsStart(s.ops[i].pc.job)
    ensures Holds(Exec(s, es).ops[i], s.server.startedAt)
  {
    ReadyForTheDelay(s, at, es);
    if turn.Later? {
      LaterTurnIgnites(s, stamp, at, es, i, turn);
    } else {
      StampingTurnIgnites(s, stamp, es, i, turn);
    }
    ReadyHoldsIgniter(Exec(s, es), i);
  }

  /**
   * The whole run picks up the start: if within 29 seconds of the stamp nothing is aborted and every operator has a pass
   * that finds its Job healthy and its pods complete, which for the one that stamped the start can be the stamping pass
   * itself, then all hold the agreed igniter while all rows are ready, and in no continuation is any of them stranded.
   */
  lemma EveryOperatorPicksUp(s0: State, stamp: Event, es: seq<Event>, turns: seq<Turn>)
    requires Reachable(s0) && s0.server.startedAt == None && Apply(s0, stamp).server.startedAt.Some?
    requires Exec(Apply(s0, stamp), es).now <= s0.now + 29 * SECOND && NothingAborted(Exec(Apply(s0, stamp), es).server.rows)
    requires |turns| == |s0.ops| && forall i | 0 <= i < |s0.ops| :: HasTurn(Apply(s0, stamp), stamp, es, i, turns[i])
    ensures var t := Exec(Apply(s0, stamp), es);
            && AllAre(t.server.rows, Ready)
            && t.server.startedAt == Apply(s0, stamp).server.startedAt
            && forall i | 0 <= i < |t.ops| :: Holds(t.ops[i], t.server.startedAt)
    ensures forall fs: seq<Event>, i | 0 <= i < |s0.ops| :: !Stranded(Exec(Exec(Apply(s0, stamp), es), fs), i)
  {
    StampIsLate(s0, stamp);
    forall i | 0 <= i < |s0.ops| && turns[i].Stamping?
      ensures var op := Apply(s0, stamp).ops[i]; op.pc.Igniting? && HoldsStart(op.pc.job)
    {
      assert HasTurn(Apply(s0, stamp), stamp, es, i, turns[i]);
      StampLeadsToIgniter(s0, i);
    }
    EveryTurnHolds(Apply(s0, stamp), stamp, s0.now, es, turns);
  }

  lemma EveryTurnHolds(s: State, stamp: Event, at: int, es: seq<Event>, turns: seq<Turn>)
    requires StampedAt(s, at) && Exec(s, es).now <= at + 29 * SECOND && NothingAborted(Exec(s, es).server.rows)
    requires |turns| == |s.ops| && forall i | 0 <= i < |s.ops| :: HasTurn(s, stamp, es, i, turns[i])
    requires forall i | 0 <= i < |s.ops| && turns[i].Stamping? :: s.ops[i].pc.Igniting? && HoldsStart(s.ops[i].pc.job)
    ensures var t := Exec(s, es);
            && AllAre(t.server.rows, Ready) && t.server.startedAt == s.server.startedAt
            && forall i | 0 <= i < |t.ops| :: Holds(t.ops[i], t.server.startedAt)
    ensures forall fs: seq<Event>, i | 0 <= i < |s.ops| :: !Stranded(Exec(Exec(s, es), fs), i)
  {
    var t := Exec(s, es);
    ReadyForTheDelay(s, at, es);
    forall i | 0 <= i < |t.ops| ensures Holds(t.ops[i], t.server.startedAt) {
      TurnHolds(s, stamp, at, es, i, turns[i]);
    }
    forall fs: seq<Event>, i | 0 <= i < |s.ops| ensures !Stranded(Exec(t, fs), i) {
      assert Holds(t.ops[i], t.server.startedAt);
      NeverStranded(t, fs, i);
    }
  }

  // ----- Who can still get an igniter

  /** The access that ends a pass at once without a write reaching the server. */
  function GiveUp(pc: PC): Call {
    match pc
    case Fetched(_) => Read(ReadError)
    case Igniting(_, _) => Ignite(None)
    case _ => Send(RequestLost)
  }

  function SomePods(n: nat): seq<Pod> {
    seq(n, _ => Pod("", []))
  }

  lemma GiveUpStep(s: State, i: nat)
    requires Inv(s) && i < |s.ops| && s.ops[i].igniters == [] && s.ops[i].pc != Idle && AllAre(s.server.rows, Ready)
    ensures var t := Apply(s, Step(i, GiveUp(s.ops[i].pc)));
            t.ops[i].pc == Idle && t.ops[i].igniters == [] && t.server == s.server
  {
    assert OpInv(s.server, s.now, i, s.workers[i], s.clusters[i], s.ops[i]);
    assert s.server.rows[i] == Ready;
  }

  lemma ReadThenIgnite(s: State, i: nat)
    requires Inv(s) && i < |s.ops| && s.ops[i].igniters == [] && s.ops[i].pc.Fetched? && HoldsStart(s.ops[i].pc.job)
    ensures Exec(s, [Step(i, Read(Found(NEW_JOB)))] + [Step(i, Ignite(Some(SomePods(s.workers[i]))))]).ops[i].igniters != []
  {
    var read, ignite := Step(i, Read(Found(NEW_JOB))), Step(i, Ignite(Some(SomePods(s.workers[i]))));
    assert OpInv(s.server, s.now, i, s.workers[i], s.clusters[i], s.ops[i]);
    ExecOne(s, read);
    ReadStep(s, i, Found(NEW_JOB));
    IgniteStep(Apply(s, read), i, SomePods(s.workers[i]));
    ExecSnoc(s, [read], ignite);
  }

  lemma IgniteFromIdle(s: State, i: nat)
    requires Inv(s) && i < |s.ops| && s.server.startedAt.Some?
    requires s.ops[i].igniters == [] && s.ops[i].pc == Idle && AllAre(s.server.rows, Ready)
    ensures exists es :: Exec(s, es).ops[i].igniters != []
  {
    var fetch := Step(i, Fetch(true));
    FetchStep(s, i);
    ApplyKeepsInv(s, fetch);
    ReadThenIgnite(Apply(s, fetch), i);
    ExecOne(s, fetch);
    var es := [Step(i, Read(Found(NEW_JOB)))] + [Step(i, Ignite(Some(SomePods(s.workers[i]))))];
    ExecConcat(s, [fetch], es);
    assert Exec(s, [fetch] + es).ops[i].igniters != [];
  }

  lemma IgniteAfterGivingUp(s: State, i: nat)
    requires Inv(s) && i < |s.ops| && s.server.startedAt.Some? && s.ops[i].igniters == []
    requires s.ops[i].pc != Idle && AllAre(s.server.rows, Ready)
    ensures exists es :: Exec(s, es).ops[i].igniters != []
  {
    var e := Step(i, GiveUp(s.ops[i].pc));
    GiveUpStep(s, i);
    ExecOne(s, e);
    ApplyKeepsInv(s, e);
    IgniteLater(s, [e], i);
  }

  lemma IgniteLater(s: State, es: seq<Event>, i: nat)
    requires Inv(s) && i < |s.ops|
    requires var t := Exec(s, es);
             t.server.startedAt.Some? && t.ops[i].igniters == [] && t.ops[i].pc == Idle && AllAre(t.server.rows, Ready)
    ensures exists fs :: Exec(s, fs).ops[i].igniters != []
  {
    ExecKeepsInv(s, es);
    IgniteFromIdle(Exec(s, es), i);
    var fs :| Exec(Exec(s, es), fs).ops[i].igniters != [];
    ExecConcat(s, es, fs);
    assert Exec(s, es + fs).ops[i].igniters != [];
  }

  lemma IgniteNow(s: State, i: nat)
    requires Inv(s) && i < |s.ops| && s.ops[i].igniters == [] && s.ops[i].pc.Igniting? && HoldsStart(s.ops[i].pc.job)
    ensures exists es :: Exec(s, es).ops[i].igniters != []
  {
    assert OpInv(s.server, s.now, i, s.workers[i], s.clusters[i], s.ops[i]);
    var e := Step(i, Ignite(Some(SomePods(s.workers[i]))));
    IgniteStep(s, i, SomePods(s.workers[i]));
    ExecOne(s, e);
    assert Exec(s, [e]).ops[i].igniters != [];
  }

  lemma CanStillIgniteSuffices(s: State, i: nat)
    requires Inv(s) && i < |s.ops| && s.server.startedAt.Some? && s.ops[i].igniters == [] && CanStillIgnite(s, i)
    ensures exists es :: Exec(s, es).ops[i].igniters != []
  {
    var pc := s.ops[i].pc;
    if pc.Fetched? && HoldsStart(pc.job) {
      ReadThenIgnite(s, i);
    } else if pc.Igniting? && HoldsStart(pc.job) {
      IgniteNow(s, i);
    } else if pc == Idle {
      IgniteFromIdle(s, i);
    } else {
      IgniteAfterGivingUp(s, i);
    }
  }

  /**
   * Once the start is stamped, an operator without an igniter can still get one exactly when every location is ready or
   * its current pass began while that was so. Otherwise `createIgniter` refuses it for good.
   */
  lemma CanIgniteExactlyWhen(s: State, i: nat)
    requires Reachable(s) && i < |s.ops| && s.server.startedAt.Some? && s.ops[i].igniters == []
    ensures (exists es :: Exec(s, es).ops[i].igniters != []) <==> CanStillIgnite(s, i)
  {
    ReachableHasInv(s);
    if CanStillIgnite(s, i) {
      CanStillIgniteSuffices(s, i);
    } else {
      forall es ensures Exec(s, es).ops[i].igniters == [] {
        StrandedForever(s, es, i);
      }
    }
  }
}
