/** What an undisturbed pass writes, read off the row, the Job, the pods and the igniter, for all of them. */
module Decisions {
  import opened Statuses
  import opened Server
  import opened Protocol
  import opened LevelTriggered

  // ----- What the reconciler asks of a pod

  /** The pod has been ready, in the first ready condition of more than five seconds ago. */
  ghost predicate HeldReady(conditions: seq<PodCondition>, now: int) {
    exists k | 0 <= k < |conditions| ::
      && conditions[k].isReadyCondition && conditions[k].isTrue && conditions[k].lastTransition + 5_000_000 < now
      && forall j | 0 <= j < k :: !(conditions[j].isReadyCondition && conditions[j].lastTransition + 5_000_000 < now)
  }

  lemma {:induction false} StableReadyExactlyWhen(conditions: seq<PodCondition>, now: int)
    ensures StableReady(conditions, now) <==> HeldReady(conditions, now)
  {
    if conditions != [] {
      var first, rest := conditions[0], conditions[1..];
      StableReadyExactlyWhen(rest, now);
      if first.isReadyCondition && first.lastTransition + 5_000_000 < now {
        if HeldReady(conditions, now) {
          var k :| 0 <= k < |conditions| && conditions[k].isTrue &&
                   forall j | 0 <= j < k :: !(conditions[j].isReadyCondition && conditions[j].lastTransition + 5_000_000 < now);
          assert k == 0;
        }
      } else {
        LaterConditionsDecide(conditions, now);
      }
    }
  }

  lemma LaterConditionsDecide(conditions: seq<PodCondition>, now: int)
    requires conditions != []
    requires !(conditions[0].isReadyCondition && conditions[0].lastTransition + 5_000_000 < now)
    ensures HeldReady(conditions, now) <==> HeldReady(conditions[1..], now)
  {
    var rest := conditions[1..];
    if k :| 0 <= k < |conditions|
            && conditions[k].isReadyCondition && conditions[k].isTrue && conditions[k].lastTransition + 5_000_000 < now
            && forall j | 0 <= j < k :: !(conditions[j].isReadyCondition && conditions[j].lastTransition + 5_000_000 < now) {
      assert k > 0 && rest[k - 1] == conditions[k];
      forall j | 0 <= j < k - 1 ensures !(rest[j].isReadyCondition && rest[j].lastTransition + 5_000_000 < now) {
        assert rest[j] == conditions[j + 1];
      }
    }
    if k :| 0 <= k < |rest|
            && rest[k].isReadyCondition && rest[k].isTrue && rest[k].lastTransition + 5_000_000 < now
            && forall j | 0 <= j < k :: !(rest[j].isReadyCondition && rest[j].lastTransition + 5_000_000 < now) {
      assert conditions[k + 1] == rest[k];
      forall j | 0 <= j < k + 1
        ensures !(conditions[j].isReadyCondition && conditions[j].lastTransition + 5_000_000 < now)
      {
        assert j > 0 ==> conditions[j] == rest[j - 1];
      }
    }
  }

  ghost predicate AllHeldReady(pods: seq<Pod>, now: int) {
    forall k | 0 <= k < |pods| :: HeldReady(pods[k].conditions, now)
  }

  lemma AllStableExactlyWhen(pods: seq<Pod>, now: int)
    ensures AllStable(pods, now) <==> AllHeldReady(pods, now)
  {
    forall k | 0 <= k < |pods| ensures StableReady(pods[k].conditions, now) <==> HeldReady(pods[k].conditions, now) {
      StableReadyExactlyWhen(pods[k].conditions, now);
    }
  }

  // ----- What a pass writes

  /** A running job whose pods are gone has completed or failed. */
  function FinishWrites(obj: KubeJob, n: nat): seq<Write> {
    if obj.active != 0 then [] else if obj.succeeded == n then [PutStatus(Completed)] else [PutStatus(Failed)]
  }

  /** A ready job runs once its igniter has started, and fails with it. */
  function IgniterWrites(op: Op, obj: KubeJob, n: nat): seq<Write> {
    if op.slot.None? || op.slot.value >= |op.igniters| then []
    else
      var g := op.igniters[op.slot.value];
      if g.error then [PutStatus(Failed)]
      else if g.phase == Fired || g.phase == Joined then [PutStatus(Running)] + FinishWrites(obj, n)
      else []
  }

  /** A queued job is ready when as many pods are ready as there are workers, and all listed ones have been for a while. */
  ghost function QueuedWrites(op: Op, obj: KubeJob, pods: seq<Pod>, n: nat, now: int): seq<Write> {
    if obj.ready == Some(n) && AllHeldReady(pods, now) then [PutStatus(Ready)] + IgniterWrites(op, obj, n) else []
  }

  /** All writes of an undisturbed pass, in order. */
  ghost function Writes(row: Status, job: Option<KubeJob>, pods: seq<Pod>, op: Op, n: nat, now: int): seq<Write> {
    if row == Completed || row == Failed then []
    else if job == None then
      if row == Canceled then [] else if row == Pending then [CreateJob, PutStatus(Queued)] else [PutStatus(Failed)]
    else
      var obj := job.value;
      if obj.deleting then []
      else if row == Canceled then (if obj.suspended then [] else [SuspendJob])
      else if JobFailed in obj.conditions then [PutStatus(Failed)]
      else if row == Running then FinishWrites(obj, n)
      else if row == Ready then IgniterWrites(op, obj, n)
      else if row == Queued then QueuedWrites(op, obj, pods, n, now)
      else [PutStatus(Queued)] + QueuedWrites(op, obj, pods, n, now)
  }

  ghost function WritesOf(l: Local, now: int, i: nat, n: nat): seq<Write>
    requires i < |l.server.rows|
  {
    Writes(l.server.rows[i], l.cluster.job, l.cluster.pods, l.op, n, now)
  }

  /** The webapp after the status writes among `ws`, one after the other. */
  function Told(sv: Server, now: int, i: nat, ws: seq<Write>): (r: Server)
    requires i < |sv.rows|
    ensures |r.rows| == |sv.rows|
    decreases |ws|
  {
    if ws == [] then sv
    else
      var put := if ws[0].PutStatus? then Put(sv, now, i, ws[0].status) else Rejected;
      Told(if put.Accepted? then put.server else sv, now, i, ws[1..])
  }

  /** From `l` to `r` exactly the writes `ws` were made, and the webapp has taken them. */
  ghost predicate Does(l: Local, r: Local, ws: seq<Write>, now: int, i: nat) {
    i < |l.server.rows| && r.op.log == l.op.log + ws && r.server == Told(l.server, now, i, ws)
  }

  lemma ToldOne(sv: Server, now: int, i: nat, w: Write, ws: seq<Write>)
    requires i < |sv.rows|
    ensures Told(sv, now, i, [w] + ws) ==
            Told(if w.PutStatus? && Put(sv, now, i, w.status).Accepted? then Put(sv, now, i, w.status).server else sv, now, i, ws)
  {
    assert ([w] + ws)[1..] == ws;
  }

  lemma LookComposes(l: Local, m: Local, r: Local, ws: seq<Write>, now: int, i: nat)
    requires m.op.log == l.op.log && m.server == l.server && Does(m, r, ws, now, i)
    ensures Does(l, r, ws, now, i)
  {
  }

  lemma WriteComposes(l: Local, m: Local, r: Local, w: Write, ws: seq<Write>, now: int, i: nat)
    requires i < |l.server.rows| && m.op.log == l.op.log + [w] && Does(m, r, ws, now, i)
    requires m.server == if w.PutStatus? && Put(l.server, now, i, w.status).Accepted? then Put(l.server, now, i, w.status).server
                         else l.server
    ensures Does(l, r, [w] + ws, now, i)
  {
    ToldOne(l.server, now, i, w, ws);
    assert l.op.log + [w] + ws == l.op.log + ([w] + ws);
  }

  /** An access that writes nothing, and the rest of the pass. */
  lemma ThenLook(l: Local, m: Local, ws: seq<Write>, now: int, i: nat, n: nat)
    requires Calm(l, i) && l.op.pc != Idle && m == Do(l, now, i, n, NextCall(l))
    requires m.op.log == l.op.log && m.server == l.server
    requires Calm(m, i) && Does(m, Finish(m, now, i, n), ws, now, i)
    ensures Does(l, Finish(l, now, i, n), ws, now, i)
  {
    FinishStep(l, m, now, i, n);
    LookComposes(l, m, Finish(m, now, i, n), ws, now, i);
  }

  /** An access that makes one write, and the rest of the pass. */
  lemma ThenWrite(l: Local, m: Local, w: Write, ws: seq<Write>, now: int, i: nat, n: nat)
    requires Calm(l, i) && l.op.pc != Idle && m == Do(l, now, i, n, NextCall(l))
    requires m.op.log == l.op.log + [w]
    requires m.server == if w.PutStatus? && Put(l.server, now, i, w.status).Accepted? then Put(l.server, now, i, w.status).server
                         else l.server
    requires Calm(m, i) && Does(m, Finish(m, now, i, n), ws, now, i)
    ensures Does(l, Finish(l, now, i, n), [w] + ws, now, i)
  {
    FinishStep(l, m, now, i, n);
    WriteComposes(l, m, Finish(m, now, i, n), w, ws, now, i);
  }

  lemma Nothing(l: Local, now: int, i: nat, n: nat)
    requires Calm(l, i) && l.op.pc == Idle
    ensures Does(l, Finish(l, now, i, n), [], now, i)
  {
  }

  // ----- The rest of a pass, from its end backwards

  /** A final report ends the pass. */
  lemma FromLastReport(l: Local, now: int, i: nat, n: nat)
    requires Calm(l, i) && l.op.pc.Putting? && (l.op.pc.target == Failed || l.op.pc.target == Completed)
    ensures Does(l, Finish(l, now, i, n), [PutStatus(l.op.pc.target)], now, i)
  {
    var m := Do(l, now, i, n, NextCall(l));
    PassAdvances(l, now, i, n);
    Nothing(m, now, i, n);
    ThenWrite(l, m, PutStatus(l.op.pc.target), [], now, i, n);
  }

  lemma FromInspecting(l: Local, now: int, i: nat, n: nat)
    requires Calm(l, i) && l.op.pc.Inspecting?
    ensures var g := l.op.igniters[l.op.slot.value];
            Does(l, Finish(l, now, i, n),
                 if g.error then [PutStatus(Failed)]
                 else if l.op.pc.job.status == Running then FinishWrites(l.op.pc.obj, n) else [], now, i)
  {
    var m := Do(l, now, i, n, NextCall(l));
    PassAdvances(l, now, i, n);
    if m.op.pc == Idle {
      Nothing(m, now, i, n);
      ThenLook(l, m, [], now, i, n);
    } else {
      FromLastReport(m, now, i, n);
      ThenLook(l, m, [PutStatus(m.op.pc.target)], now, i, n);
    }
  }

  lemma FromRunning(l: Local, now: int, i: nat, n: nat)
    requires Calm(l, i) && l.op.pc.Putting? && l.op.pc.target == Running && l.server.rows[i] == Ready
    requires !l.op.igniters[l.op.slot.value].error
    ensures Does(l, Finish(l, now, i, n), [PutStatus(Running)] + FinishWrites(l.op.pc.obj, n), now, i)
  {
    var m := Do(l, now, i, n, NextCall(l));
    PassAdvances(l, now, i, n);
    FromInspecting(m, now, i, n);
    ThenWrite(l, m, PutStatus(Running), FinishWrites(l.op.pc.obj, n), now, i, n);
  }

  lemma FromPolling(l: Local, now: int, i: nat, n: nat)
    requires Calm(l, i) && l.op.pc.Polling? && l.op.pc.job.status == Ready && l.server.rows[i] == Ready
    ensures Does(l, Finish(l, now, i, n), IgniterWrites(l.op, l.op.pc.obj, n), now, i)
  {
    var m := Do(l, now, i, n, NextCall(l));
    PassAdvances(l, now, i, n);
    if m.op.pc.Putting? {
      FromRunning(m, now, i, n);
    } else {
      FromInspecting(m, now, i, n);
    }
    ThenLook(l, m, IgniterWrites(l.op, l.op.pc.obj, n), now, i, n);
  }

  lemma FromIgniting(l: Local, now: int, i: nat, n: nat)
    requires Calm(l, i) && l.op.pc.Igniting? && l.op.pc.job.status == Ready && l.server.rows[i] == Ready
    ensures Does(l, Finish(l, now, i, n), IgniterWrites(l.op, l.op.pc.obj, n), now, i)
  {
    var m := Do(l, now, i, n, NextCall(l));
    PassAdvances(l, now, i, n);
    if m.op.pc == Idle {
      Nothing(m, now, i, n);
    } else {
      FromPolling(m, now, i, n);
    }
    ThenLook(l, m, IgniterWrites(l.op, l.op.pc.obj, n), now, i, n);
  }

  lemma FromReady(l: Local, now: int, i: nat, n: nat)
    requires Calm(l, i) && l.op.pc.Putting? && l.op.pc.target == Ready && l.server.rows[i] == Queued
    ensures Does(l, Finish(l, now, i, n), [PutStatus(Ready)] + IgniterWrites(l.op, l.op.pc.obj, n), now, i)
  {
    var m := Do(l, now, i, n, NextCall(l));
    PassAdvances(l, now, i, n);
    FromIgniting(m, now, i, n);
    ThenWrite(l, m, PutStatus(Ready), IgniterWrites(l.op, l.op.pc.obj, n), now, i, n);
  }

  lemma FromListing(l: Local, now: int, i: nat, n: nat)
    requires Calm(l, i) && l.op.pc.Listing? && l.server.rows[i] == Queued && l.op.pc.obj.ready == Some(n)
    ensures Does(l, Finish(l, now, i, n), QueuedWrites(l.op, l.op.pc.obj, l.cluster.pods, n, now), now, i)
  {
    var m := Do(l, now, i, n, NextCall(l));
    PassAdvances(l, now, i, n);
    AllStableExactlyWhen(l.cluster.pods, now);
    if m.op.pc == Idle {
      Nothing(m, now, i, n);
    } else {
      FromReady(m, now, i, n);
    }
    ThenLook(l, m, QueuedWrites(l.op, l.op.pc.obj, l.cluster.pods, n, now), now, i, n);
  }

  lemma FromQueued(l: Local, now: int, i: nat, n: nat)
    requires Calm(l, i) && l.op.pc.Putting? && l.op.pc.target == Queued && l.server.rows[i] == Pending
    ensures Does(l, Finish(l, now, i, n),
                 [PutStatus(Queued)] + QueuedWrites(l.op, l.op.pc.obj, l.cluster.pods, n, now), now, i)
  {
    var m := Do(l, now, i, n, NextCall(l));
    PassAdvances(l, now, i, n);
    if m.op.pc == Idle {
      Nothing(m, now, i, n);
    } else {
      FromListing(m, now, i, n);
    }
    ThenWrite(l, m, PutStatus(Queued), QueuedWrites(l.op, l.op.pc.obj, l.cluster.pods, n, now), now, i, n);
  }

  lemma FromForgetting(l: Local, now: int, i: nat, n: nat)
    requires Calm(l, i) && l.op.pc == Forgetting
    ensures Does(l, Finish(l, now, i, n), [], now, i)
  {
    var m := Do(l, now, i, n, NextCall(l));
    PassAdvances(l, now, i, n);
    Nothing(m, now, i, n);
    ThenLook(l, m, [], now, i, n);
  }

  lemma FromSuspending(l: Local, now: int, i: nat, n: nat)
    requires Calm(l, i) && l.op.pc == Suspending
    ensures Does(l, Finish(l, now, i, n), [SuspendJob], now, i)
  {
    var m := Do(l, now, i, n, NextCall(l));
    PassAdvances(l, now, i, n);
    FromForgetting(m, now, i, n);
    ThenWrite(l, m, SuspendJob, [], now, i, n);
  }

  lemma FromCreating(l: Local, now: int, i: nat, n: nat)
    requires Calm(l, i) && l.op.pc.Creating? && l.op.pc.job.status == Pending
    requires l.server.rows[i] == Pending && l.cluster.job == None
    ensures Does(l, Finish(l, now, i, n), [CreateJob, PutStatus(Queued)], now, i)
  {
    var m := Do(l, now, i, n, NextCall(l));
    PassAdvances(l, now, i, n);
    FromQueued(m, now, i, n);
    assert [PutStatus(Queued)] + [] == [PutStatus(Queued)];
    ThenWrite(l, m, CreateJob, [PutStatus(Queued)], now, i, n);
    assert [CreateJob] + [PutStatus(Queued)] == [CreateJob, PutStatus(Queued)];
  }

  /** The branches after the Kubernetes Job was read. */
  lemma FromRead(m: Local, now: int, i: nat, n: nat, job: Job)
    requires Calm(m, i) && job.status == m.server.rows[i] && job.status != Completed && job.status != Failed
    requires m.op.pc == AfterRead(job, if m.cluster.job.None? then Missing else Found(m.cluster.job.value), n)
    ensures Does(m, Finish(m, now, i, n), Writes(job.status, m.cluster.job, m.cluster.pods, m.op, n, now), now, i)
  {
    match m.op.pc
    case Idle => Nothing(m, now, i, n);
    case Forgetting => FromForgetting(m, now, i, n);
    case Suspending => FromSuspending(m, now, i, n);
    case Creating(_) => FromCreating(m, now, i, n);
    case Listing(_, _) => FromListing(m, now, i, n);
    case Igniting(_, _) => FromIgniting(m, now, i, n);
    case Putting(_, _, target) =>
      if target == Queued {
        FromQueued(m, now, i, n);
      } else {
        FromLastReport(m, now, i, n);
      }
    case _ => assert false;
  }

  lemma FromFetched(f: Local, now: int, i: nat, n: nat)
    requires Calm(f, i) && f.op.pc.Fetched?
    requires f.op.pc.job.status == f.server.rows[i] && f.server.rows[i] != Completed && f.server.rows[i] != Failed
    ensures Does(f, Finish(f, now, i, n), WritesOf(f, now, i, n), now, i)
  {
    var m := Do(f, now, i, n, NextCall(f));
    PassAdvances(f, now, i, n);
    FromRead(m, now, i, n, f.op.pc.job);
    ThenLook(f, m, WritesOf(f, now, i, n), now, i, n);
  }

  /**
   * For every row, Job, pods and igniter: the writes of an undisturbed pass are these, in this order, and the webapp is
   * left as they leave it.
   */
  lemma PassDoes(l: Local, now: int, i: nat, n: nat)
    requires Calm(l, i) && l.op.pc == Idle
    ensures Does(l, Pass(l, now, i, n), WritesOf(l, now, i, n), now, i)
  {
    var f, ws := DoFetch(l, i), WritesOf(l, now, i, n);
    if f.op.pc == Forgetting {
      FromForgetting(f, now, i, n);
    } else {
      FromFetched(f, now, i, n);
    }
    LookComposes(l, f, Finish(f, now, i, n), ws, now, i);
  }

  lemma RowWithoutJob(l: Local, now: int, i: nat, n: nat)
    requires Calm(l, i) && l.op.pc == Idle && l.cluster.job == None
    ensures var row := l.server.rows[i];
            Pass(l, now, i, n).server.rows[i] == if row == Pending then Queued else if row.Terminal() then row else Failed
  {
    PassDoes(l, now, i, n);
    RowTold(l.server, now, i, WritesOf(l, now, i, n));
  }

  lemma RowFollows(l: Local, now: int, i: nat, n: nat, ws: seq<Write>)
    requires Calm(l, i) && l.op.pc == Idle && ws == WritesOf(l, now, i, n) && |ws| <= 4
    ensures Pass(l, now, i, n).server.rows[i] == Next(Next(Next(Next(l.server.rows[i], ws, 0), ws, 1), ws, 2), ws, 3)
  {
    PassDoes(l, now, i, n);
    RowTold(l.server, now, i, ws);
  }

  /**
   * Where an undisturbed pass leaves a location, for every Job, pods and igniter, in one table: the report of a running job,
   * the start or failure of a ready one, the barrier of a queued one.
   */
  lemma RowAfterPass(l: Local, now: int, i: nat, n: nat)
    requires Calm(l, i) && l.op.pc == Idle
    ensures var row, after := l.server.rows[i], Pass(l, now, i, n).server.rows[i];
            match l.cluster.job
            case None => after == (if row == Pending then Queued else if row.Terminal() then row else Failed)
            case Some(obj) =>
              if row.Terminal() || obj.deleting then after == row
              else if JobFailed in obj.conditions then after == Failed
              else match row
                case Running =>
                  after == (if obj.active != 0 then Running else if obj.succeeded == n then Completed else Failed)
                case Ready =>
                  after == (if l.op.slot == None then Ready else
                            var g := l.op.igniters[l.op.slot.value];
                            if g.error then Failed
                            else if g.phase != Fired && g.phase != Joined then Ready
                            else if obj.active != 0 then Running
                            else if obj.succeeded == n then Completed else Failed)
                case _ =>
                  if obj.ready != Some(n) || !AllHeldReady(l.cluster.pods, now) then after == Queued
                  else l.op.slot == None ==> after == Ready
  {
    if l.cluster.job == None {
      RowWithoutJob(l, now, i, n);
    } else {
      RowFollows(l, now, i, n, WritesOf(l, now, i, n));
    }
  }

  /** The row after one write: a report is followed if the webapp accepts it. */
  function Next(row: Status, ws: seq<Write>, k: nat): Status {
    if k < |ws| && ws[k].PutStatus? && Accepts(row, ws[k].status) then ws[k].status else row
  }

  lemma {:induction false} RowTold(sv: Server, now: int, i: nat, ws: seq<Write>)
    requires i < |sv.rows| && |ws| <= 4
    ensures Told(sv, now, i, ws).rows[i] == Next(Next(Next(Next(sv.rows[i], ws, 0), ws, 1), ws, 2), ws, 3)
    decreases |ws|
  {
    if ws != [] {
      var put := if ws[0].PutStatus? then Put(sv, now, i, ws[0].status) else Rejected;
      var after := if put.Accepted? then put.server else sv;
      assert after.rows[i] == Next(sv.rows[i], ws, 0);
      RowTold(after, now, i, ws[1..]);
      forall row, k: nat ensures Next(row, ws[1..], k) == Next(row, ws, k + 1) {
      }
    }
  }

  // ----- What an access does whatever happens around the pass

  /** The snapshot says that the run is ready and since when its start is known. */
  predicate MayIgnite(job: Job) {
    job.ready && job.startAt.Some?
  }

  /**
   * Igniters are made by one access only, and by it exactly when the map has no entry, the snapshot has the start, and just
   * as many pods are listed as there are workers. The new one has that start and those pods, and is the entry.
   */
  lemma IgniterIsMadeExactlyWhen(s: State, e: Event, i: nat)
    requires WellFormed(s) && i < |s.ops|
    ensures var op, after := s.ops[i], Apply(s, e).ops[i];
            |after.igniters| != |op.igniters| <==>
              && op.pc.Igniting? && MayIgnite(op.pc.job) && op.slot == None
              && e.Step? && e.i == i && e.call.Ignite? && e.call.targets.Some? && |e.call.targets.value| == s.workers[i]
    ensures var op, after := s.ops[i], Apply(s, e).ops[i];
            |after.igniters| != |op.igniters| ==>
              && after.igniters == op.igniters + [Igniter(op.pc.job.startAt.value, s.workers[i], Spawned, false, false, {}, {})]
              && after.slot == Some(|op.igniters|)
  {
  }

  /** Creating finds the Job that is there already, and leaves it as it is; a new one has nothing to report. */
  lemma CreateKeepsTheJob(l: Local, now: int, i: nat, n: nat, created: CreateReply)
    requires i < |l.server.rows| && l.op.pc.Creating?
    ensures var r := Do(l, now, i, n, Create(created));
            && r.op.log == l.op.log + [CreateJob] && r.server == l.server
            && r.cluster == (if created != CreateError && l.cluster.job == None
                             then l.cluster.(job := Some(KubeJob(false, false, [], None, 0, 0))) else l.cluster)
            && (created == CreateError ==> r.op.pc == Putting(l.op.pc.job, NEW_JOB, Failed))
            && (created == CreatedOnly ==> r.op.pc == Idle)
  {
  }

  /** An access of a pass to which the outside answers with an error, other than a status write. */
  predicate IsError(op: Op, call: Call) {
    || (op.pc.Fetched? && call == Read(ReadError))
    || (op.pc.Listing? && call == List(None))
    || (op.pc.Igniting? && op.slot == None && call == Ignite(None))
  }

  /** Such an error ends the pass, and changes nothing: no write, no igniter, no entry. */
  lemma ErrorsEndThePass(l: Local, now: int, i: nat, n: nat, call: Call)
    requires i < |l.server.rows| && IsError(l.op, call)
    ensures Do(l, now, i, n, call) == l.(op := l.op.(pc := Idle))
  {
  }

  /** A status write without a good answer ends the pass, too, unless it was RUNNING: then the pass goes on as if it was. */
  lemma UnansweredWrites(l: Local, now: int, i: nat, n: nat, delivery: Delivery)
    requires i < |l.server.rows| && l.op.pc.Putting?
    requires delivery != Delivered || Put(l.server, now, i, l.op.pc.target) == Rejected
    ensures var r, Putting(job, obj, target) := Do(l, now, i, n, Send(delivery)), l.op.pc;
            && r.op.pc == (if target == Running then Inspecting(job.(status := Running), obj) else Idle)
            && r.op.log == l.op.log + [PutStatus(target)]
            && r.op.igniters == l.op.igniters && r.op.slot == l.op.slot && r.cluster == l.cluster
            && (delivery == RequestLost ==> r.server == l.server)
  {
  }

  /** A suspension suspends when it succeeds; either way the igniter is forgotten next. */
  lemma SuspendThenForget(l: Local, now: int, i: nat, n: nat, reply: SuspendReply)
    requires i < |l.server.rows| && l.op.pc == Suspending && l.cluster.job.Some?
    ensures var r := Do(l, now, i, n, Suspend(reply));
            && r.op.pc == Forgetting && r.server == l.server
            && r.cluster == l.cluster.(job := Some(l.cluster.job.value.(suspended := reply == Suspended || l.cluster.job.value.suspended)))
  {
  }
}
