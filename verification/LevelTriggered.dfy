/** One reconcile pass with nothing else moving and every call succeeding, and why a second one changes nothing. */
module LevelTriggered {
  import opened Statuses
  import opened Protocol

  /** A local state a pass can start in: the cluster reports no index that never succeeded, and the map entry exists. */
  ghost predicate Calm(l: Local, i: nat) {
    && i < |l.server.rows|
    && (l.cluster.job.Some? ==> l.cluster.job.value.succeeded <= |l.cluster.done|)
    && (l.op.slot.Some? ==> l.op.slot.value < |l.op.igniters|)
    && (l.op.pc.Polling? || l.op.pc.Inspecting? || (l.op.pc.Putting? && l.op.pc.target == Running) ==> l.op.slot.Some?)
  }

  /** The next access of the pass, answered by the cluster as it is. */
  function NextCall(l: Local): Call {
    match l.op.pc
    case Idle => Fetch(true)
    case Fetched(_) => Read(if l.cluster.job.None? then Missing else Found(l.cluster.job.value))
    case Suspending => Suspend(Suspended)
    case Forgetting => Forget
    case Creating(_) => Create(CreatedAll)
    case Putting(_, _, _) => Send(Delivered)
    case Listing(_, _) => List(Some(l.cluster.pods))
    case Igniting(_, _) => Ignite(Some(l.cluster.pods))
    case Polling(_, _) => Poll
    case Inspecting(_, _) => Inspect
  }

  /** How much of a pass is left at most. */
  function Remaining(pc: PC): nat {
    match pc
    case Idle => 0
    case Fetched(_) => 11
    case Creating(_) => 10
    case Suspending => 2
    case Forgetting => 1
    case Putting(_, _, target) => (match target case Queued => 9 case Ready => 7 case Running => 4 case _ => 1)
    case Listing(_, _) => 8
    case Igniting(_, _) => 6
    case Polling(_, _) => 5
    case Inspecting(_, _) => 2
  }

  lemma PassAdvances(l: Local, now: int, i: nat, n: nat)
    requires Calm(l, i) && l.op.pc != Idle
    ensures var r := Do(l, now, i, n, NextCall(l));
            Calm(r, i) && |r.server.rows| == |l.server.rows| && Remaining(r.op.pc) < Remaining(l.op.pc)
  {
  }

  ghost function Finish(l: Local, now: int, i: nat, n: nat): (r: Local)
    requires Calm(l, i)
    ensures Calm(r, i) && |r.server.rows| == |l.server.rows| && r.op.pc == Idle
    decreases Remaining(l.op.pc)
  {
    if l.op.pc == Idle then l
    else
      PassAdvances(l, now, i, n);
      Finish(Do(l, now, i, n, NextCall(l)), now, i, n)
  }

  lemma FinishStep(l: Local, r: Local, now: int, i: nat, n: nat)
    requires Calm(l, i) && l.op.pc != Idle && r == Do(l, now, i, n, NextCall(l))
    ensures Calm(r, i) && Finish(l, now, i, n) == Finish(r, now, i, n)
  {
    PassAdvances(l, now, i, n);
  }

  /** A whole pass from its fetch to its return. */
  ghost function Pass(l: Local, now: int, i: nat, n: nat): (r: Local)
    requires Calm(l, i) && l.op.pc == Idle
    ensures Calm(r, i) && |r.server.rows| == |l.server.rows| && r.op.pc == Idle
  {
    Finish(DoFetch(l, i), now, i, n)
  }

  /** The states in which there is nothing left to do, read off the row, the Job, the pods and the igniter. */
  predicate Settled(l: Local, now: int, i: nat, n: nat)
    requires i < |l.server.rows|
  {
    var row, job := l.server.rows[i], l.cluster.job;
    if row == Completed || row == Failed then true
    else if job.Some? && job.value.deleting then true
    else if row == Canceled then job.None? || job.value.suspended
    else if job.None? || JobFailed in job.value.conditions then false
    else match row
      case Queued => job.value.ready != Some(n) || !AllStable(l.cluster.pods, now)
      case Ready =>
        l.op.slot.Some? && l.op.slot.value < |l.op.igniters| ==>
          var g := l.op.igniters[l.op.slot.value]; !g.Started() && !g.error
      case Running => job.value.active != 0
      case _ => false
  }

  ghost predicate Same(l: Local, r: Local) {
    r.op.log == l.op.log && r.server == l.server && r.cluster == l.cluster
  }

  predicate Writing(pc: PC) {
    pc.Putting? || pc.Creating? || pc.Suspending?
  }

  ghost predicate Live(l: Local, obj: KubeJob) {
    l.cluster.job == Some(obj) && !obj.deleting && JobFailed !in obj.conditions
  }

  /** Where an undisturbed pass is: its snapshot, its view of the Job and its next write agree with what is there. */
  ghost predicate OnTrack(l: Local, now: int, i: nat, n: nat) {
    Calm(l, i) &&
    var row := l.server.rows[i];
    match l.op.pc
    case Idle => Settled(l, now, i, n)
    case Fetched(job) => job.status == row && row != Completed && row != Failed
    case Suspending => row == Canceled && l.cluster.job.Some? && !l.cluster.job.value.deleting && !l.cluster.job.value.suspended
    case Forgetting => row.Terminal() && Settled(l, now, i, n)
    case Creating(job) => row == Pending && job.status == Pending && l.cluster.job.None?
    case Putting(job, obj, target) =>
      && !Settled(l, now, i, n)
      && match target {
           case Queued => row == Pending && Live(l, obj)
           case Ready => row == Queued && Live(l, obj)
           case Running => row == Ready && Live(l, obj) && !l.op.igniters[l.op.slot.value].error
           case Completed => row == Running
           case Failed => true
           case _ => false
         }
    case Listing(job, obj) => row == Queued && job.status == Queued && Live(l, obj) && obj.ready == Some(n)
    case Igniting(job, obj) => row == Ready && job.status == Ready && Live(l, obj)
    case Polling(job, obj) => row == Ready && job.status == Ready && Live(l, obj)
    case Inspecting(job, obj) =>
      && job.status == row && Live(l, obj) &&
      var g := l.op.igniters[l.op.slot.value];
      (row == Running && !g.error) || (row == Ready && (g.Started() ==> g.error))
  }

  lemma FetchIsOnTrack(l: Local, now: int, i: nat, n: nat)
    requires Calm(l, i) && l.op.pc == Idle
    ensures var r := DoFetch(l, i);
            OnTrack(r, now, i, n) && Same(l, r) && !Writing(r.op.pc) && Settled(r, now, i, n) == Settled(l, now, i, n)
  {
  }

  ghost predicate LooksOnly(l: Local, r: Local, now: int, i: nat, n: nat)
    requires i < |l.server.rows| && i < |r.server.rows|
  {
    && OnTrack(r, now, i, n)
    && Same(l, r)
    && Settled(r, now, i, n) == Settled(l, now, i, n)
    && (Settled(l, now, i, n) ==> !Writing(r.op.pc))
  }

  lemma ReadIsOnTrack(l: Local, now: int, i: nat, n: nat)
    requires OnTrack(l, now, i, n) && (l.op.pc.Fetched? || l.op.pc.Forgetting?)
    ensures var r := Do(l, now, i, n, NextCall(l)); i < |r.server.rows| && LooksOnly(l, r, now, i, n)
  {
  }

  lemma ListIsOnTrack(l: Local, now: int, i: nat, n: nat)
    requires OnTrack(l, now, i, n) && (l.op.pc.Listing? || l.op.pc.Igniting?)
    ensures var r := Do(l, now, i, n, NextCall(l)); i < |r.server.rows| && LooksOnly(l, r, now, i, n)
  {
  }

  lemma PollIsOnTrack(l: Local, now: int, i: nat, n: nat)
    requires OnTrack(l, now, i, n) && (l.op.pc.Polling? || l.op.pc.Inspecting?)
    ensures var r := Do(l, now, i, n, NextCall(l)); i < |r.server.rows| && LooksOnly(l, r, now, i, n)
  {
  }

  /** A step that only looks changes nothing outside and does not settle anything; a write always leads on. */
  lemma LookingStepIsOnTrack(l: Local, now: int, i: nat, n: nat)
    requires OnTrack(l, now, i, n) && l.op.pc != Idle && !Writing(l.op.pc)
    ensures var r := Do(l, now, i, n, NextCall(l)); i < |r.server.rows| && LooksOnly(l, r, now, i, n)
  {
    match l.op.pc
    case Listing(_, _) => ListIsOnTrack(l, now, i, n);
    case Igniting(_, _) => ListIsOnTrack(l, now, i, n);
    case Polling(_, _) => PollIsOnTrack(l, now, i, n);
    case Inspecting(_, _) => PollIsOnTrack(l, now, i, n);
    case _ => ReadIsOnTrack(l, now, i, n);
  }

  lemma WritingStepIsOnTrack(l: Local, now: int, i: nat, n: nat)
    requires OnTrack(l, now, i, n) && Writing(l.op.pc)
    ensures var r := Do(l, now, i, n, NextCall(l)); OnTrack(r, now, i, n) && |r.op.log| > |l.op.log|
    ensures !Settled(l, now, i, n)
  {
  }

  lemma {:induction false} FinishSettles(l: Local, now: int, i: nat, n: nat)
    requires OnTrack(l, now, i, n)
    ensures var r := Finish(l, now, i, n);
            && Settled(r, now, i, n)
            && |r.op.log| >= |l.op.log|
            && (|r.op.log| == |l.op.log| <==> Settled(l, now, i, n) && !Writing(l.op.pc))
            && (|r.op.log| == |l.op.log| ==> Same(l, r))
    decreases Remaining(l.op.pc)
  {
    if l.op.pc != Idle {
      PassAdvances(l, now, i, n);
      if Writing(l.op.pc) {
        WritingStepIsOnTrack(l, now, i, n);
      } else {
        LookingStepIsOnTrack(l, now, i, n);
      }
      FinishSettles(Do(l, now, i, n, NextCall(l)), now, i, n);
    }
  }

  /** A pass writes nothing, to the webapp or to Kubernetes, exactly in the settled states; and it always settles. */
  lemma QuietExactlyWhenSettled(l: Local, now: int, i: nat, n: nat)
    requires Calm(l, i) && l.op.pc == Idle
    ensures var r := Pass(l, now, i, n);
            && Settled(r, now, i, n)
            && (r.op.log == l.op.log <==> Settled(l, now, i, n))
            && (r.op.log == l.op.log ==> Same(l, r))
  {
    FetchIsOnTrack(l, now, i, n);
    FinishSettles(DoFetch(l, i), now, i, n);
  }

  /** Level-triggered: right after a pass, another one writes no status and touches no Kubernetes object. */
  lemma SecondPassWritesNothing(l: Local, now: int, i: nat, n: nat)
    requires Calm(l, i) && l.op.pc == Idle
    ensures var once := Pass(l, now, i, n); Same(once, Pass(once, now, i, n))
  {
    QuietExactlyWhenSettled(l, now, i, n);
    QuietExactlyWhenSettled(Pass(l, now, i, n), now, i, n);
  }
}
