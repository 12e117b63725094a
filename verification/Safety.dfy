/** What the start and abort protocol guarantees in every reachable state and over every continuation of a run. */
module Safety {
  import opened Statuses
  import opened Server
  import opened Protocol
  import opened Invariant

  /** States of runs that start fresh with at least one location, under every interleaving. */
  ghost predicate Reachable(s: State) {
    exists workers: seq<nat>, now: int, es: seq<Event> :: |workers| > 0 && s == Exec(Init(workers, now), es)
  }

  lemma ReachableHasInv(s: State)
    requires Reachable(s)
    ensures Inv(s)
  {
    var workers: seq<nat>, now: int, es: seq<Event> :| |workers| > 0 && s == Exec(Init(workers, now), es);
    EveryRunHasInv(workers, now, es);
  }

  // ----- The start barrier

  /** No location is running before the agreed instant, and none then is still on its way to the barrier. */
  lemma StartBarrier(s: State, i: nat)
    requires Reachable(s) && i < |s.server.rows|
    requires s.server.rows[i] == Running || s.server.rows[i] == Completed
    ensures s.server.startedAt.Some? && s.server.startedAt.value <= s.now
    ensures forall k | 0 <= k < |s.server.rows| :: s.server.rows[k] != Pending && s.server.rows[k] != Queued
  {
    ReachableHasInv(s);
  }

  /** No pod is told to start, and so none finishes, before the agreed instant. */
  lemma NoWorkBeforeTheStart(s: State, i: nat)
    requires Reachable(s) && i < |s.clusters|
    requires s.clusters[i].unpaused != multiset{} || s.clusters[i].done != {}
    ensures s.server.startedAt.Some? && s.server.startedAt.value <= s.now
  {
    ReachableHasInv(s);
    var op, c := s.ops[i], s.clusters[i];
    assert OpInv(s.server, s.now, i, s.workers[i], c, op);
    if c.done != {} {
      var k :| k in c.done;
      assert k in c.unpaused;
    }
    assert op.igniters != [] && c.unpaused == multiset(op.igniters[0].landed);
    var g := op.igniters[0];
    assert IgniterOk(s.server.startedAt, s.now, s.workers[i], g);
    var k :| k in c.unpaused;
    assert k in g.landed;
    assert k in g.sent;
  }

  /** When every location is ready the start is already agreed. */
  lemma BarrierAlwaysOpens(s: State)
    requires Reachable(s) && AllAre(s.server.rows, Ready)
    ensures s.server.startedAt.Some?
  {
    ReachableHasInv(s);
  }

  /** Only one event stamps the start: the write that makes the last location ready. */
  lemma OnlyTheLastReadyStamps(s: State, e: Event)
    requires Reachable(s) && s.server.startedAt == None && Apply(s, e).server.startedAt.Some?
    ensures e.Step? && e.call.Send? && e.i < |s.ops| && s.ops[e.i].pc.Putting? && s.ops[e.i].pc.target == Ready
    ensures s.server.rows[e.i] == Queued
    ensures forall k | 0 <= k < |s.server.rows| && k != e.i :: s.server.rows[k] == Ready
    ensures AllAre(Apply(s, e).server.rows, Ready)
    ensures s.now + 29 * SECOND < Apply(s, e).server.startedAt.value <= s.now + 30 * SECOND
  {
    ReachableHasInv(s);
    var i := e.i;
    assert OpInv(s.server, s.now, i, s.workers[i], s.clusters[i], s.ops[i]);
    var target := s.ops[i].pc.target;
    StampIsAhead(s.server, s.now, i, target);
    var rows := s.server.rows[i := target];
    forall k | 0 <= k < |rows| && k != i ensures s.server.rows[k] == Ready {
      assert rows[k] == Ready;
    }
  }

  lemma StartKept(s: State, e: Event)
    requires WellFormed(s) && s.server.startedAt.Some?
    ensures Apply(s, e).server.startedAt == s.server.startedAt
  {
  }

  /** The start is written once: no continuation of a run changes it. */
  lemma {:induction false} StartNeverChanges(s: State, es: seq<Event>)
    requires WellFormed(s) && s.server.startedAt.Some?
    ensures Exec(s, es).server.startedAt == s.server.startedAt
  {
    if es != [] {
      StartNeverChanges(s, es[..|es| - 1]);
      StartKept(Exec(s, es[..|es| - 1]), es[|es| - 1]);
    }
  }

  /** All igniters of a run, of whichever operator and whether or not removed since, carry the one agreed instant. */
  lemma StartAgreement(s: State, i: nat, j: nat, g: Igniter, h: Igniter)
    requires Reachable(s) && i < |s.ops| && j < |s.ops| && g in s.ops[i].igniters && h in s.ops[j].igniters
    ensures s.server.startedAt == Some(g.startAt) && g.startAt == h.startAt
  {
    ReachableHasInv(s);
    assert OpInv(s.server, s.now, i, s.workers[i], s.clusters[i], s.ops[i]);
    assert OpInv(s.server, s.now, j, s.workers[j], s.clusters[j], s.ops[j]);
    assert IgniterOk(s.server.startedAt, s.now, s.workers[i], g);
    assert IgniterOk(s.server.startedAt, s.now, s.workers[j], h);
  }

  /** An operator makes at most one igniter in a whole run, although it forgets it; so no pod is told to start twice. */
  lemma SingleIgnition(s: State, i: nat)
    requires Reachable(s) && i < |s.ops|
    ensures |s.ops[i].igniters| <= 1
    ensures forall k: nat :: s.clusters[i].unpaused[k] <= 1
  {
    ReachableHasInv(s);
    assert OpInv(s.server, s.now, i, s.workers[i], s.clusters[i], s.ops[i]);
  }

  /** An igniter that came to its end without an error has sent every pod of its location a request. */
  lemma IgnitionIsComplete(s: State, i: nat, g: Igniter)
    requires Reachable(s) && i < |s.ops| && g in s.ops[i].igniters && g.phase.Joined? && !g.error
    ensures g.sent == Indexes(s.workers[i])
  {
    ReachableHasInv(s);
    assert OpInv(s.server, s.now, i, s.workers[i], s.clusters[i], s.ops[i]);
    assert IgniterOk(s.server.startedAt, s.now, s.workers[i], g);
  }

  // ----- Snapshots and writes

  /**
   * During a pass the server holds a status the operator's own exchanges allow, or the location was canceled. What the
   * pass itself holds is the server's status, with one more exception: it takes for running a location that is still ready.
   */
  lemma SingleWriter(s: State, i: nat)
    requires Reachable(s) && i < |s.ops| && s.ops[i].pc != Idle
    ensures s.server.rows[i] in s.ops[i].known || s.server.rows[i] == Canceled
    ensures JobOf(s.ops[i].pc).Some? ==>
              var row, st := s.server.rows[i], JobOf(s.ops[i].pc).value.status;
              row == st || row == Canceled || (row == Ready && st == Running)
  {
    ReachableHasInv(s);
    assert OpInv(s.server, s.now, i, s.workers[i], s.clusters[i], s.ops[i]);
  }

  /**
   * A write that reaches the server is refused exactly when the location was canceled meanwhile, with one exception: a
   * completion of a location that is still ready. A failure is never refused. No write is a retry or a cancel. There is
   * no exception either when the status the operator holds is the only one its exchanges leave possible.
   */
  lemma WriteIsAcceptedExactlyWhen(s: State, i: nat)
    requires Reachable(s) && i < |s.ops| && s.ops[i].pc.Putting?
    ensures var target := s.ops[i].pc.target;
            && target != Pending && target != Canceled
            && (Put(s.server, s.now, i, target).Accepted? <==>
                  target == Failed || (s.server.rows[i] != Canceled && !(target == Completed && s.server.rows[i] == Ready)))
    ensures s.ops[i].known == {s.ops[i].pc.job.status} && s.ops[i].pc.target != Failed ==>
              (Put(s.server, s.now, i, s.ops[i].pc.target).Accepted? <==> s.server.rows[i] != Canceled)
  {
    ReachableHasInv(s);
    assert OpInv(s.server, s.now, i, s.workers[i], s.clusters[i], s.ops[i]);
  }

  // ----- Runs that lose no write and no response to one

  ghost predicate NoneLost(es: seq<Event>) {
    forall k | 0 <= k < |es| && es[k].Step? && es[k].call.Send? :: es[k].call.delivery == Delivered
  }

  /** The status an operator holds is the one the webapp has, or the location was canceled meanwhile. */
  ghost predicate Truthful(row: Status, op: Op) {
    JobOf(op.pc).Some? ==> row == JobOf(op.pc).value.status || row == Canceled
  }

  lemma OthersOnlyCancel(s: State, e: Event, i: nat)
    requires Inv(s) && i < |s.ops| && !(e.Step? && e.i == i)
    ensures Apply(s, e).server.rows[i] == s.server.rows[i] || Apply(s, e).server.rows[i] == Canceled
    ensures Apply(s, e).ops[i].pc == s.ops[i].pc
  {
    if e.Step? && e.i < |s.ops| {
      var l := LocalOf(s, e.i);
      assert OpInv(s.server, s.now, e.i, s.workers[e.i], l.cluster, l.op);
      DoKeepsInv(l, s.now, e.i, s.workers[e.i], e.call);
      assert Rely(s.server, s.now, Do(l, s.now, e.i, s.workers[e.i], e.call).server, s.now, i);
    } else if e.Cancel? {
      AdminCancelKeepsServerInv(s.server, s.now);
    }
  }

  lemma OwnSendIsTruthful(l: Local, now: int, i: nat, n: nat)
    requires i < |l.server.rows| && OpInv(l.server, now, i, n, l.cluster, l.op) && l.op.pc.Putting?
    ensures var r := DoSend(l, now, i, n, Delivered); i < |r.server.rows| && Truthful(r.server.rows[i], r.op)
  {
  }

  lemma OwnStepIsTruthful(l: Local, now: int, i: nat, n: nat, call: Call)
    requires i < |l.server.rows| && OpInv(l.server, now, i, n, l.cluster, l.op) && Truthful(l.server.rows[i], l.op)
    requires call.Send? ==> call.delivery == Delivered
    ensures var r := Do(l, now, i, n, call); i < |r.server.rows| && Truthful(r.server.rows[i], r.op)
  {
    if l.op.pc.Putting? {
      OwnSendIsTruthful(l, now, i, n);
    }
  }

  lemma {:induction false} AlwaysTruthful(s: State, es: seq<Event>, i: nat)
    requires Inv(s) && i < |s.ops| && NoneLost(es) && Truthful(s.server.rows[i], s.ops[i])
    ensures Truthful(Exec(s, es).server.rows[i], Exec(s, es).ops[i])
  {
    if es != [] {
      var e, t := es[|es| - 1], Exec(s, es[..|es| - 1]);
      AlwaysTruthful(s, es[..|es| - 1], i);
      ExecKeepsInv(s, es[..|es| - 1]);
      if e.Step? && e.i == i {
        assert OpInv(t.server, t.now, i, t.workers[i], t.clusters[i], t.ops[i]);
        OwnStepIsTruthful(LocalOf(t, i), t.now, i, t.workers[i], e.call);
      } else {
        OthersOnlyCancel(t, e, i);
      }
    }
  }

  /**
   * In a run that loses no write and no response, whatever a pass holds for its location's status is what the webapp has,
   * at every moment of the pass, unless the location was canceled.
   */
  lemma SnapshotIsTrue(workers: seq<nat>, now: int, es: seq<Event>, i: nat)
    requires i < |workers| && NoneLost(es) && JobOf(Exec(Init(workers, now), es).ops[i].pc).Some?
    ensures var s := Exec(Init(workers, now), es);
            s.server.rows[i] == JobOf(s.ops[i].pc).value.status || s.server.rows[i] == Canceled
  {
    InitHasInv(workers, now);
    AlwaysTruthful(Init(workers, now), es, i);
  }

  /** In a run that loses no write and no response, a write is refused exactly when the row was canceled; a failure never. */
  lemma WithoutLossOnlyCanceledRefuse(workers: seq<nat>, now: int, es: seq<Event>, i: nat)
    requires i < |workers| && NoneLost(es) && Exec(Init(workers, now), es).ops[i].pc.Putting?
    ensures var s := Exec(Init(workers, now), es);
            Put(s.server, s.now, i, s.ops[i].pc.target).Accepted? <==>
              s.ops[i].pc.target == Failed || s.server.rows[i] != Canceled
  {
    var s := Exec(Init(workers, now), es);
    SnapshotIsTrue(workers, now, es, i);
    assert Reachable(s);
    WriteIsAcceptedExactlyWhen(s, i);
    ReachableHasInv(s);
    assert OpInv(s.server, s.now, i, s.workers[i], s.clusters[i], s.ops[i]);
  }

  lemma OwnStepOnTerminalRow(l: Local, now: int, i: nat, n: nat, call: Call)
    requires i < |l.server.rows| && OpInv(l.server, now, i, n, l.cluster, l.op)
    requires l.server.rows[i].Terminal() && Do(l, now, i, n, call).server.rows[i] != l.server.rows[i]
    ensures l.server.rows[i] == Canceled && Do(l, now, i, n, call).server.rows[i] == Failed
    ensures call.Send? && l.op.pc.Putting? && l.op.pc.target == Failed
  {
    if !l.op.pc.Putting? {
      DoKeepsOpInv(l, now, i, n, call);
    }
  }

  lemma AnothersStepOnTerminalRow(s: State, k: nat, call: Call, i: nat)
    requires Inv(s) && i < |s.server.rows| && k < |s.ops| && k != i && s.server.rows[i].Terminal()
    ensures Apply(s, Step(k, call)).server.rows[i] == s.server.rows[i]
  {
    var l := LocalOf(s, k);
    assert OpInv(s.server, s.now, k, s.workers[k], l.cluster, l.op);
    DoKeepsInv(l, s.now, k, s.workers[k], call);
    assert Rely(s.server, s.now, Do(l, s.now, k, s.workers[k], call).server, s.now, i);
  }

  /** Finished locations stay as they are, except that a stale failure report overwrites a cancellation. */
  lemma TerminalRowsChangeOneWay(s: State, e: Event, i: nat)
    requires Reachable(s) && i < |s.server.rows|
    requires s.server.rows[i].Terminal() && Apply(s, e).server.rows[i] != s.server.rows[i]
    ensures s.server.rows[i] == Canceled && Apply(s, e).server.rows[i] == Failed
    ensures e.Step? && e.i == i && e.call.Send? && s.ops[i].pc.Putting? && s.ops[i].pc.target == Failed
  {
    ReachableHasInv(s);
    assert OpInv(s.server, s.now, i, s.workers[i], s.clusters[i], s.ops[i]);
    if e.Step? && e.i == i {
      OwnStepOnTerminalRow(LocalOf(s, i), s.now, i, s.workers[i], e.call);
    } else if e.Step? && e.i < |s.ops| {
      AnothersStepOnTerminalRow(s, e.i, e.call, i);
    } else if e.Cancel? {
      AdminCancelKeepsServerInv(s.server, s.now);
    }
  }

  // ----- Ranks

  /** Every event, bulk updates included, leaves each row alone or raises its rank. */
  lemma EveryChangeRaisesTheRank(s: State, e: Event, i: nat)
    requires Inv(s) && i < |s.server.rows|
    ensures Apply(s, e).server.rows[i] == s.server.rows[i] || Apply(s, e).server.rows[i].Rank() > s.server.rows[i].Rank()
  {
    if e.Step? && e.i < |s.ops| {
      assert OpInv(s.server, s.now, e.i, s.workers[e.i], s.clusters[e.i], s.ops[e.i]);
    }
  }

  function RankSum(rows: seq<Status>): nat {
    if rows == [] then 0 else RankSum(rows[1..]) + rows[0].Rank()
  }

  function CountChanges(before: seq<Status>, after: seq<Status>): nat
    requires |before| == |after|
  {
    if before == [] then 0 else CountChanges(before[1..], after[1..]) + if before[0] == after[0] then 0 else 1
  }

  /** The number of times a row takes a new status along a run. */
  ghost function StatusChanges(s: State, es: seq<Event>): nat
    requires WellFormed(s)
  {
    if es == [] then 0
    else
      var before := Exec(s, es[..|es| - 1]);
      StatusChanges(s, es[..|es| - 1]) + CountChanges(before.server.rows, Apply(before, es[|es| - 1]).server.rows)
  }

  lemma {:induction false} ChangesAreRanked(before: seq<Status>, after: seq<Status>)
    requires |before| == |after|
    requires forall k | 0 <= k < |before| :: after[k] == before[k] || after[k].Rank() > before[k].Rank()
    ensures RankSum(before) + CountChanges(before, after) <= RankSum(after) <= 5 * |after|
  {
    if before != [] {
      ChangesAreRanked(before[1..], after[1..]);
    }
  }

  lemma StepIsRanked(s: State, e: Event)
    requires Inv(s)
    ensures RankSum(s.server.rows) + CountChanges(s.server.rows, Apply(s, e).server.rows) <= RankSum(Apply(s, e).server.rows)
  {
    var after := Apply(s, e).server.rows;
    forall k | 0 <= k < |after| ensures after[k] == s.server.rows[k] || after[k].Rank() > s.server.rows[k].Rank() {
      EveryChangeRaisesTheRank(s, e, k);
    }
    ChangesAreRanked(s.server.rows, after);
  }

  lemma {:induction false} ChangesAreBoundedByRank(s: State, es: seq<Event>)
    requires Inv(s)
    ensures RankSum(s.server.rows) + StatusChanges(s, es) <= RankSum(Exec(s, es).server.rows)
  {
    if es != [] {
      var before := Exec(s, es[..|es| - 1]);
      ChangesAreBoundedByRank(s, es[..|es| - 1]);
      ExecKeepsInv(s, es[..|es| - 1]);
      StepIsRanked(before, es[|es| - 1]);
    }
  }

  /** A run of any length over N locations changes statuses at most 5N times. */
  lemma AtMostFiveChangesPerLocation(workers: seq<nat>, now: int, es: seq<Event>)
    requires |workers| > 0
    ensures StatusChanges(Init(workers, now), es) <= 5 * |workers|
  {
    var s := Init(workers, now);
    InitHasInv(workers, now);
    ChangesAreBoundedByRank(s, es);
    var rows := Exec(s, es).server.rows;
    ChangesAreRanked(rows, rows);
  }

  /** Ranks never fall over any continuation, so what has been left is never returned to. */
  lemma {:induction false} RanksNeverFall(s: State, es: seq<Event>, i: nat)
    requires Inv(s) && i < |s.server.rows|
    ensures Exec(s, es).server.rows[i] == s.server.rows[i] || Exec(s, es).server.rows[i].Rank() > s.server.rows[i].Rank()
  {
    if es != [] {
      RanksNeverFall(s, es[..|es| - 1], i);
      ExecKeepsInv(s, es[..|es| - 1]);
      EveryChangeRaisesTheRank(Exec(s, es[..|es| - 1]), es[|es| - 1], i);
    }
  }

  // ----- Failure

  /** One failure makes every location terminal at once, and the run stays so whatever stale operators still send. */
  lemma FailFastForever(s: State, es: seq<Event>, f: nat)
    requires Reachable(s) && f < |s.server.rows| && s.server.rows[f] == Failed
    ensures forall k | 0 <= k < |s.server.rows| :: s.server.rows[k].Terminal()
    ensures Exec(s, es).server.rows[f] == Failed
    ensures forall k | 0 <= k < |s.server.rows| :: Exec(s, es).server.rows[k].Terminal()
  {
    ReachableHasInv(s);
    ExecKeepsInv(s, es);
    RanksNeverFall(s, es, f);
    assert Failed in s.server.rows && Failed in Exec(s, es).server.rows;
  }

  /** A location given up before any start request left it: its row is final and its operator has forgotten the igniter. */
  ghost predicate Aborted(row: Status, op: Op) {
    && row.Terminal()
    && op.slot == None
    && (forall g | g in op.igniters :: g.canceled && g.sent == {})
    && (op.pc == Idle || op.pc == Suspending || op.pc == Forgetting || (op.pc.Fetched? && op.pc.job.status == Canceled))
  }

  lemma AbortedPass(l: Local, now: int, i: nat, n: nat, call: Call)
    requires i < |l.server.rows| && Aborted(l.server.rows[i], l.op)
    ensures var r := Do(l, now, i, n, call); r.server == l.server && Aborted(l.server.rows[i], r.op)
  {
  }

  lemma AbortedSparks(l: Local, now: int, g: nat, spark: Spark, row: Status)
    requires Aborted(row, l.op)
    ensures Aborted(row, DoSpark(l, now, g, spark).op)
  {
    var r := DoSpark(l, now, g, spark);
    if r != l {
      assert l.op.igniters[g] in l.op.igniters;
    }
  }

  lemma AbortedStays(s: State, e: Event, j: nat)
    requires Inv(s) && j < |s.ops| && Aborted(s.server.rows[j], s.ops[j])
    ensures Aborted(Apply(s, e).server.rows[j], Apply(s, e).ops[j])
  {
    EveryChangeRaisesTheRank(s, e, j);
    if e.Step? && e.i == j {
      AbortedPass(LocalOf(s, j), s.now, j, s.workers[j], e.call);
    } else if e.Ignition? && e.i == j {
      AbortedSparks(LocalOf(s, j), s.now, e.g, e.spark, s.server.rows[j]);
    }
  }

  lemma {:induction false} AbortedForever(s: State, es: seq<Event>, j: nat)
    requires Inv(s) && j < |s.ops| && Aborted(s.server.rows[j], s.ops[j])
    ensures Inv(Exec(s, es)) && Aborted(Exec(s, es).server.rows[j], Exec(s, es).ops[j])
  {
    ExecKeepsInv(s, es);
    if es != [] {
      AbortedForever(s, es[..|es| - 1], j);
      AbortedStays(Exec(s, es[..|es| - 1]), es[|es| - 1], j);
    }
  }

  /** The operator is between passes, and has forgotten the igniter of its final location. */
  ghost predicate TookIn(row: Status, op: Op) {
    row.Terminal() && op.pc == Idle && op.slot == None
  }

  ghost predicate NothingSent(op: Op) {
    forall g | g in op.igniters :: g.sent == {}
  }

  predicate BeforeTheStart(s: State) {
    s.server.startedAt.Some? ==> s.now < s.server.startedAt.value
  }

  /** In no continuation is a pod of the location told to start, or any of its work done. */
  ghost predicate NeverRuns(s: State, j: nat)
    requires WellFormed(s) && j < |s.ops|
  {
    forall es :: Exec(s, es).clusters[j].unpaused == multiset{} && Exec(s, es).clusters[j].done == {}
  }

  lemma NothingSentBeforeTheStart(s: State, j: nat)
    requires Reachable(s) && j < |s.ops| && BeforeTheStart(s)
    ensures NothingSent(s.ops[j])
  {
    ReachableHasInv(s);
    assert OpInv(s.server, s.now, j, s.workers[j], s.clusters[j], s.ops[j]);
    forall g | g in s.ops[j].igniters ensures g.sent == {} {
      assert IgniterOk(s.server.startedAt, s.now, s.workers[j], g);
    }
  }

  /**
   * Once a pass that read a final status has removed the igniter, and it had not sent anything, that location's pods are
   * never told to start and none of its work is ever done, in any continuation of the run.
   */
  lemma AbortBeforeSending(s: State, es: seq<Event>, j: nat)
    requires Reachable(s) && j < |s.ops| && TookIn(s.server.rows[j], s.ops[j]) && NothingSent(s.ops[j])
    ensures Exec(s, es).clusters[j].unpaused == multiset{} && Exec(s, es).clusters[j].done == {}
  {
    ReachableHasInv(s);
    assert OpInv(s.server, s.now, j, s.workers[j], s.clusters[j], s.ops[j]);
    AbortedForever(s, es, j);
    var r := Exec(s, es);
    assert OpInv(r.server, r.now, j, r.workers[j], r.clusters[j], r.ops[j]);
    if r.ops[j].igniters != [] {
      assert IgniterOk(r.server.startedAt, r.now, r.workers[j], r.ops[j].igniters[0]);
    }
    assert forall k | k in r.clusters[j].done :: k in r.clusters[j].unpaused;
  }

  lemma LandStep(s: State, j: nat, k: nat)
    requires WellFormed(s) && j < |s.ops| && s.ops[j].igniters != []
    requires k in s.ops[j].igniters[0].sent && k !in s.ops[j].igniters[0].landed
    ensures k in Apply(s, Ignition(j, 0, Land(k))).clusters[j].unpaused
  {
  }

  /** A request that was sent can take effect whatever its operator does. */
  lemma SentCanLand(s: State, j: nat)
    requires Inv(s) && j < |s.ops| && !NothingSent(s.ops[j])
    ensures exists es :: Exec(s, es).clusters[j].unpaused != multiset{}
  {
    var op := s.ops[j];
    assert OpInv(s.server, s.now, j, s.workers[j], s.clusters[j], op);
    var g := op.igniters[0];
    assert g.sent != {};
    var k :| k in g.sent;
    if k in g.landed {
      assert k in s.clusters[j].unpaused;
      assert Exec(s, []).clusters[j].unpaused != multiset{};
    } else {
      LandStep(s, j, k);
      ExecOne(s, Ignition(j, 0, Land(k)));
      assert k in Exec(s, [Ignition(j, 0, Land(k))]).clusters[j].unpaused;
    }
  }

  /** After such a pass the pods can be told to start in some continuation exactly when some request was sent before it. */
  lemma AbortIsFinalExactlyWhen(s: State, j: nat)
    requires Reachable(s) && j < |s.ops| && TookIn(s.server.rows[j], s.ops[j])
    ensures NeverRuns(s, j) <==> NothingSent(s.ops[j])
  {
    if NothingSent(s.ops[j]) {
      forall es ensures Exec(s, es).clusters[j].unpaused == multiset{} && Exec(s, es).clusters[j].done == {} {
        AbortBeforeSending(s, es, j);
      }
    } else {
      ReachableHasInv(s);
      SentCanLand(s, j);
    }
  }

  lemma StepKeepsSent(s: State, e: Event, j: nat)
    requires WellFormed(s) && j < |s.ops| && !NothingSent(s.ops[j])
    ensures !NothingSent(Apply(s, e).ops[j])
  {
    var g :| 0 <= g < |s.ops[j].igniters| && s.ops[j].igniters[g].sent != {};
    var after := Apply(s, e).ops[j].igniters;
    assert g < |after| && s.ops[j].igniters[g].sent <= after[g].sent;
    assert after[g] in after;
  }

  lemma {:induction false} SentStays(s: State, es: seq<Event>, j: nat)
    requires WellFormed(s) && j < |s.ops| && !NothingSent(s.ops[j])
    ensures !NothingSent(Exec(s, es).ops[j])
  {
    if es != [] {
      SentStays(s, es[..|es| - 1], j);
      StepKeepsSent(Exec(s, es[..|es| - 1]), es[|es| - 1], j);
    }
  }

  lemma {:induction false} ReachableOn(s: State, es: seq<Event>)
    requires Reachable(s)
    ensures Reachable(Exec(s, es))
  {
    var workers: seq<nat>, now: int, fs: seq<Event> :| |workers| > 0 && s == Exec(Init(workers, now), fs);
    ExecConcat(Init(workers, now), fs, es);
    assert Exec(s, es) == Exec(Init(workers, now), fs + es);
  }

  lemma NeverRunsLater(s: State, es: seq<Event>, j: nat)
    requires WellFormed(s) && j < |s.ops| && NeverRuns(s, j)
    ensures NeverRuns(Exec(s, es), j)
  {
    forall fs ensures Exec(Exec(s, es), fs).clusters[j].unpaused == multiset{} && Exec(Exec(s, es), fs).clusters[j].done == {} {
      ExecConcat(s, es, fs);
    }
  }

  /** The same of an operator that took the final status in at some earlier moment, whatever has happened since. */
  lemma AbortLater(s: State, es: seq<Event>, j: nat)
    requires Reachable(s) && j < |s.ops| && TookIn(s.server.rows[j], s.ops[j])
    ensures NeverRuns(Exec(s, es), j) <==> NothingSent(s.ops[j])
  {
    AbortIsFinalExactlyWhen(s, j);
    if NothingSent(s.ops[j]) {
      NeverRunsLater(s, es, j);
    } else {
      SentStays(s, es, j);
      ReachableHasInv(s);
      ExecKeepsInv(s, es);
      SentCanLand(Exec(s, es), j);
    }
  }

  /** Between passes, with the entry gone from the map. */
  ghost predicate AtRest(op: Op) {
    op.pc == Idle && op.slot == None
  }

  lemma FailureIsTakenIn(s: State, pre: seq<Event>, f: nat, j: nat)
    requires Reachable(s) && f < |s.ops| && s.server.rows[f] == Failed && j < |s.ops| && AtRest(Exec(s, pre).ops[j])
    ensures Reachable(Exec(s, pre)) && TookIn(Exec(s, pre).server.rows[j], Exec(s, pre).ops[j])
  {
    FailFastForever(s, pre, f);
    ReachableOn(s, pre);
  }

  lemma AbortInARun(s: State, pre: seq<Event>, es: seq<Event>, f: nat, j: nat)
    requires Reachable(s) && f < |s.ops| && s.server.rows[f] == Failed
    requires j < |s.ops| && pre <= es && AtRest(Exec(s, pre).ops[j])
    ensures NeverRuns(Exec(s, es), j) <==> NothingSent(Exec(s, pre).ops[j])
    ensures BeforeTheStart(Exec(s, pre)) ==> NeverRuns(Exec(s, es), j)
  {
    var t, rest := Exec(s, pre), es[|pre|..];
    FailureIsTakenIn(s, pre, f, j);
    assert pre + rest == es;
    ExecConcat(s, pre, rest);
    AbortLater(t, rest, j);
    if BeforeTheStart(t) {
      NothingSentBeforeTheStart(t, j);
    }
  }

  /**
   * A location has failed, and each other operator has taken its own cancellation in at some moment of its own: after the
   * prefix `cuts[j]` of the run. From then on a pod of another location can still be told to start exactly when its
   * igniter had sent a request by that moment; in particular none can where that moment was before the start.
   */
  lemma FailureStopsTheOthersExactlyWhen(s: State, es: seq<Event>, f: nat, cuts: seq<seq<Event>>)
    requires Reachable(s) && f < |s.ops| && s.server.rows[f] == Failed && |cuts| == |s.ops|
    requires forall j | 0 <= j < |s.ops| && j != f :: cuts[j] <= es && AtRest(Exec(s, cuts[j]).ops[j])
    ensures forall j | 0 <= j < |s.ops| && j != f ::
              && (NeverRuns(Exec(s, es), j) <==> NothingSent(Exec(s, cuts[j]).ops[j]))
              && (BeforeTheStart(Exec(s, cuts[j])) ==> NeverRuns(Exec(s, es), j))
  {
    forall j | 0 <= j < |s.ops| && j != f
      ensures NeverRuns(Exec(s, es), j) <==> NothingSent(Exec(s, cuts[j]).ops[j])
      ensures BeforeTheStart(Exec(s, cuts[j])) ==> NeverRuns(Exec(s, es), j)
    {
      AbortInARun(s, cuts[j], es, f, j);
    }
  }

  ghost predicate HasQuit(l: Local, i: nat)
    requires i < |l.server.rows|
  {
    |l.op.igniters| == 1 && l.op.igniters[0].phase == Quit && l.server.rows[i].Terminal()
  }

  lemma QuitSurvivesPass(l: Local, now: int, i: nat, n: nat, call: Call)
    requires i < |l.server.rows| && ServerInv(l.server, now) && OpInv(l.server, now, i, n, l.cluster, l.op) && HasQuit(l, i)
    ensures var r := Do(l, now, i, n, call); i < |r.server.rows| && HasQuit(r, i)
  {
    if !l.op.pc.Putting? {
      DoKeepsOpInv(l, now, i, n, call);
    }
  }

  lemma QuitStays(s: State, e: Event, j: nat)
    requires Inv(s) && j < |s.ops| && HasQuit(LocalOf(s, j), j)
    ensures HasQuit(LocalOf(Apply(s, e), j), j)
  {
    assert OpInv(s.server, s.now, j, s.workers[j], s.clusters[j], s.ops[j]);
    if e.Step? && e.i == j {
      QuitSurvivesPass(LocalOf(s, j), s.now, j, s.workers[j], e.call);
    } else {
      EveryChangeRaisesTheRank(s, e, j);
    }
  }

  lemma {:induction false} QuitForever(s: State, es: seq<Event>, j: nat)
    requires Inv(s) && j < |s.ops| && HasQuit(LocalOf(s, j), j)
    ensures Inv(Exec(s, es)) && HasQuit(LocalOf(Exec(s, es), j), j)
  {
    ExecKeepsInv(s, es);
    if es != [] {
      QuitForever(s, es[..|es| - 1], j);
      QuitStays(Exec(s, es[..|es| - 1]), es[|es| - 1], j);
    }
  }

  /** An igniter stopped while its goroutine is blocked and the start is ahead never fires, however the select is scheduled. */
  lemma StoppedIgniterNeverFires(s: State, es: seq<Event>, j: nat)
    requires Reachable(s) && j < |s.ops| && s.ops[j].pc == Forgetting && s.ops[j].slot == Some(0) && |s.ops[j].igniters| == 1
    requires s.ops[j].igniters[0].phase == Waiting && s.now < s.ops[j].igniters[0].startAt
    ensures var r := Exec(Apply(s, Step(j, Forget)), es);
            |r.ops[j].igniters| == 1 && r.ops[j].igniters[0].phase == Quit
  {
    ReachableHasInv(s);
    assert OpInv(s.server, s.now, j, s.workers[j], s.clusters[j], s.ops[j]);
    ApplyKeepsInv(s, Step(j, Forget));
    QuitForever(Apply(s, Step(j, Forget)), es, j);
  }

  /** After the admin's cancel no location of a started run is active, although runs with a failure are skipped. */
  lemma CancelIsComplete(s: State)
    requires Reachable(s)
    ensures forall k | 0 <= k < |s.server.rows| :: Apply(s, Cancel).server.rows[k].Terminal()
    ensures forall k | 0 <= k < |s.server.rows| && s.server.rows[k].Terminal() ::
              Apply(s, Cancel).server.rows[k] == s.server.rows[k]
  {
    ReachableHasInv(s);
    AdminCancelLeavesNothingActive(s.server);
  }

  // ----- Completion

  /** The completion stamp means that every location completed, every index of every Job succeeded, and time is in order. */
  lemma CompletionIsExact(s: State)
    requires Reachable(s)
    ensures s.server.completedAt.Some? <==> AllAre(s.server.rows, Completed)
    ensures s.server.completedAt.Some? ==>
              && s.server.startedAt.Some?
              && s.server.startedAt.value <= s.server.completedAt.value <= s.now
              && forall i | 0 <= i < |s.clusters| :: s.clusters[i].done == Indexes(s.workers[i])
  {
    ReachableHasInv(s);
    if s.server.completedAt.Some? {
      forall i | 0 <= i < |s.clusters| ensures s.clusters[i].done == Indexes(s.workers[i]) {
        assert OpInv(s.server, s.now, i, s.workers[i], s.clusters[i], s.ops[i]);
        DoneIsFull(s.clusters[i], s.workers[i], |s.clusters[i].done|);
      }
    }
  }
}
