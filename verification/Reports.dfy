/** What becomes of an igniter's error: when its operator still looks at it and reports a failure, and that it may never. */
module Reports {
  import opened Statuses
  import opened Server
  import opened Protocol
  import opened Invariant
  import opened Safety
  import opened Runs
  import LevelTriggered
  import PickUp

  /** The igniter in the map has come to its end, with an error. */
  ghost predicate HasFailed(op: Op) {
    op.slot == Some(0) && |op.igniters| == 1 && op.igniters[0].phase.Joined? && op.igniters[0].error
  }

  /** The pass is about to look at that error. */
  ghost predicate LooksAtError(op: Op) {
    op.pc.Inspecting? && HasFailed(op)
  }

  /** The pass is on the branch for a ready job, or will take it. */
  predicate OnReadyBranch(pc: PC) {
    || (pc.Fetched? && pc.job.status == Ready)
    || pc.Igniting? || pc.Polling? || pc.Inspecting?
    || (pc.Putting? && pc.target == Running)
  }

  /** The location is still ready for the webapp, or the current pass began, or went on, as for a ready one. */
  predicate CanNotice(row: Status, pc: PC) {
    row == Ready || OnReadyBranch(pc)
  }

  ghost predicate WillNotice(s: State, i: nat)
    requires WellFormed(s) && i < |s.ops|
  {
    exists es :: LooksAtError(Exec(s, es).ops[i])
  }

  // ----- An error that is looked at is reported

  lemma LookLeadsToReport(s: State, i: nat)
    requires WellFormed(s) && i < |s.ops| && LooksAtError(s.ops[i])
    ensures var t := Apply(s, Step(i, Inspect));
            WellFormed(t) && i < |t.ops| && t.ops[i].pc.Putting? && t.ops[i].pc.target == Failed
  {
  }

  lemma FailureIsAccepted(s: State, i: nat)
    requires WellFormed(s) && i < |s.ops| && s.ops[i].pc.Putting? && s.ops[i].pc.target == Failed
    ensures Apply(s, Step(i, Send(Delivered))).server.rows[i] == Failed
  {
  }

  /** The look at the error leads to a failure report, and the webapp never refuses one. */
  lemma NoticedErrorIsReported(s: State, i: nat)
    requires WellFormed(s) && i < |s.ops| && LooksAtError(s.ops[i])
    ensures Exec(s, [Step(i, Inspect)] + [Step(i, Send(Delivered))]).server.rows[i] == Failed
  {
    var look, send := Step(i, Inspect), Step(i, Send(Delivered));
    ExecOne(s, look);
    ExecSnoc(s, [look], send);
    LookLeadsToReport(s, i);
    FailureIsAccepted(Apply(s, look), i);
  }

  lemma ReachesInspecting(l: Local, now: int, i: nat, n: nat, job: Job, obj: KubeJob)
    requires LevelTriggered.Calm(l, i) && l.op.pc == Igniting(job, obj) && HasFailed(l.op)
    ensures var r := l.(op := l.op.(pc := Inspecting(job, obj)));
            LevelTriggered.Calm(r, i) && LevelTriggered.Finish(l, now, i, n) == LevelTriggered.Finish(r, now, i, n)
  {
    var polling, inspecting := l.(op := l.op.(pc := Polling(job, obj))), l.(op := l.op.(pc := Inspecting(job, obj)));
    LevelTriggered.FinishStep(l, polling, now, i, n);
    LevelTriggered.FinishStep(polling, inspecting, now, i, n);
  }

  lemma ReportsFailure(l: Local, now: int, i: nat, n: nat, job: Job, obj: KubeJob)
    requires LevelTriggered.Calm(l, i) && l.op.pc == Inspecting(job, obj) && HasFailed(l.op)
    ensures LevelTriggered.Finish(l, now, i, n).server.rows[i] == Failed
  {
    var putting := l.(op := l.op.(pc := Putting(job, obj, Failed)));
    LevelTriggered.FinishStep(l, putting, now, i, n);
    LevelTriggered.FinishStep(putting, DoSend(putting, now, i, n, Delivered), now, i, n);
  }

  /** An undisturbed pass over a ready location with a healthy Job reports the error. */
  lemma PassReportsTheError(l: Local, now: int, i: nat, n: nat, obj: KubeJob)
    requires LevelTriggered.Calm(l, i) && l.op.pc == Idle && HasFailed(l.op)
    requires l.server.rows[i] == Ready && LevelTriggered.Live(l, obj)
    ensures LevelTriggered.Pass(l, now, i, n).server.rows[i] == Failed
  {
    var fetched := DoFetch(l, i);
    var job := Serialize(l.server, i);
    var igniting := fetched.(op := fetched.op.(pc := Igniting(job, obj)));
    LevelTriggered.FinishStep(fetched, igniting, now, i, n);
    ReachesInspecting(igniting, now, i, n, job, obj);
    ReportsFailure(igniting.(op := igniting.op.(pc := Inspecting(job, obj))), now, i, n, job, obj);
  }

  // ----- Who can still look at it

  lemma NoticeLater(s: State, e: Event, i: nat)
    requires WellFormed(s) && i < |s.ops| && WellFormed(Apply(s, e)) && i < |Apply(s, e).ops| && WillNotice(Apply(s, e), i)
    ensures WillNotice(s, i)
  {
    var es :| LooksAtError(Exec(Apply(s, e), es).ops[i]);
    ExecOne(s, e);
    ExecConcat(s, [e], es);
    assert LooksAtError(Exec(s, [e] + es).ops[i]);
  }

  lemma InspectingNotices(s: State, i: nat)
    requires WellFormed(s) && i < |s.ops| && LooksAtError(s.ops[i])
    ensures WillNotice(s, i)
  {
    assert LooksAtError(Exec(s, []).ops[i]);
  }

  lemma PollingNotices(s: State, i: nat)
    requires Inv(s) && i < |s.ops| && HasFailed(s.ops[i]) && s.ops[i].pc.Polling?
    ensures WillNotice(s, i)
  {
    ApplyKeepsWellFormed(s, Step(i, Poll));
    InspectingNotices(Apply(s, Step(i, Poll)), i);
    NoticeLater(s, Step(i, Poll), i);
  }

  lemma IgnitingNotices(s: State, i: nat)
    requires Inv(s) && i < |s.ops| && HasFailed(s.ops[i]) && s.ops[i].pc.Igniting?
    ensures WillNotice(s, i)
  {
    var e := Step(i, Ignite(None));
    ApplyKeepsInv(s, e);
    PollingNotices(Apply(s, e), i);
    NoticeLater(s, e, i);
  }

  lemma FetchedNotices(s: State, i: nat)
    requires Inv(s) && i < |s.ops| && HasFailed(s.ops[i]) && s.ops[i].pc.Fetched? && s.ops[i].pc.job.status == Ready
    ensures WillNotice(s, i)
  {
    var e := Step(i, Read(Found(NEW_JOB)));
    assert OpInv(s.server, s.now, i, s.workers[i], s.clusters[i], s.ops[i]);
    ApplyKeepsInv(s, e);
    IgnitingNotices(Apply(s, e), i);
    NoticeLater(s, e, i);
  }

  lemma LosingRunningNotices(s: State, i: nat)
    requires Inv(s) && i < |s.ops| && HasFailed(s.ops[i]) && s.ops[i].pc.Putting? && s.ops[i].pc.target == Running
    ensures WillNotice(s, i)
  {
    var e := Step(i, Send(RequestLost));
    ApplyKeepsWellFormed(s, e);
    InspectingNotices(Apply(s, e), i);
    NoticeLater(s, e, i);
  }

  lemma IdleNotices(s: State, i: nat)
    requires Inv(s) && i < |s.ops| && HasFailed(s.ops[i]) && s.ops[i].pc == Idle && s.server.rows[i] == Ready
    ensures WillNotice(s, i)
  {
    var e := Step(i, Fetch(true));
    ApplyKeepsInv(s, e);
    FetchedNotices(Apply(s, e), i);
    NoticeLater(s, e, i);
  }

  /** A pass over a ready location that is not on the ready branch is about to write, and can fail to. */
  lemma NextPassNotices(s: State, i: nat)
    requires Inv(s) && i < |s.ops| && HasFailed(s.ops[i]) && s.server.rows[i] == Ready
    requires s.ops[i].pc != Idle && !OnReadyBranch(s.ops[i].pc)
    ensures WillNotice(s, i)
  {
    var e := Step(i, Send(RequestLost));
    assert OpInv(s.server, s.now, i, s.workers[i], s.clusters[i], s.ops[i]);
    ApplyKeepsInv(s, e);
    IdleNotices(Apply(s, e), i);
    NoticeLater(s, e, i);
  }

  lemma CanNoticeSuffices(s: State, i: nat)
    requires Inv(s) && i < |s.ops| && HasFailed(s.ops[i]) && CanNotice(s.server.rows[i], s.ops[i].pc)
    ensures WillNotice(s, i)
  {
    var pc := s.ops[i].pc;
    if pc.Inspecting? {
      InspectingNotices(s, i);
    } else if pc.Polling? {
      PollingNotices(s, i);
    } else if pc.Igniting? {
      IgnitingNotices(s, i);
    } else if pc.Idle? {
      IdleNotices(s, i);
    } else if !OnReadyBranch(pc) {
      NextPassNotices(s, i);
    } else if pc.Fetched? {
      FetchedNotices(s, i);
    } else {
      LosingRunningNotices(s, i);
    }
  }

  // ----- Who never will

  /** Once the start is stamped a pass that is past the ready branch, over a location past READY, never gets back. */
  ghost predicate Past(row: Status, pc: PC) {
    row != Pending && row != Queued && !CanNotice(row, pc)
  }

  lemma PastPass(l: Local, now: int, i: nat, n: nat, call: Call)
    requires i < |l.server.rows| && OpInv(l.server, now, i, n, l.cluster, l.op) && Past(l.server.rows[i], l.op.pc)
    ensures !OnReadyBranch(Do(l, now, i, n, call).op.pc)
  {
  }

  lemma PastStays(s: State, e: Event, i: nat)
    requires Inv(s) && i < |s.ops| && Past(s.server.rows[i], s.ops[i].pc)
    ensures Past(Apply(s, e).server.rows[i], Apply(s, e).ops[i].pc)
  {
    EveryChangeRaisesTheRank(s, e, i);
    if e.Step? && e.i == i {
      assert OpInv(s.server, s.now, i, s.workers[i], s.clusters[i], s.ops[i]);
      PastPass(LocalOf(s, i), s.now, i, s.workers[i], e.call);
    } else {
      OthersOnlyCancel(s, e, i);
    }
  }

  lemma {:induction false} PastForever(s: State, es: seq<Event>, i: nat)
    requires Inv(s) && i < |s.ops| && Past(s.server.rows[i], s.ops[i].pc)
    ensures Past(Exec(s, es).server.rows[i], Exec(s, es).ops[i].pc)
  {
    if es != [] {
      PastForever(s, es[..|es| - 1], i);
      ExecKeepsInv(s, es[..|es| - 1]);
      PastStays(Exec(s, es[..|es| - 1]), es[|es| - 1], i);
    }
  }

  /**
   * An igniter's error is looked at in some continuation, and then reported, exactly when the location is still READY for
   * the webapp or the current pass is on the branch for ready jobs. Once RUNNING was accepted and that pass is over, never.
   */
  lemma ErrorIsNoticedExactlyWhen(s: State, i: nat)
    requires Reachable(s) && i < |s.ops| && HasFailed(s.ops[i])
    ensures WillNotice(s, i) <==> CanNotice(s.server.rows[i], s.ops[i].pc)
  {
    ReachableHasInv(s);
    if CanNotice(s.server.rows[i], s.ops[i].pc) {
      CanNoticeSuffices(s, i);
    } else {
      assert OpInv(s.server, s.now, i, s.workers[i], s.clusters[i], s.ops[i]);
      assert IgniterOk(s.server.startedAt, s.now, s.workers[i], s.ops[i].igniters[0]);
      forall es ensures !LooksAtError(Exec(s, es).ops[i]) {
        PastForever(s, es, i);
      }
    }
  }

  // ----- That it happens

  function FailMoves(n: nat, now: int): seq<Move> {
    [Goroutine(Patch(0)), Goroutine(Join(true)), Report(UpJob(n), UpPods(n, now))]
  }

  lemma FailTheRequests(l: Local, now: int, i: nat, n: nat, startAt: int)
    requires i < |l.server.rows| && n > 0 && l.op.pc == Idle && Lit(l.op, n, startAt, Fired, {}) && l.cluster.job.Some?
    ensures var r := PlayAll(l, now, i, n, FailMoves(n, now));
            r.server == l.server && r.op.pc == Idle && HasFailed(r.op) && r.op.igniters[0].landed == {}
            && r.cluster.job == Some(UpJob(n))
  {
    var m := FailMoves(n, now);
    var l1 := Play(l, now, i, n, m[0]);
    var l2 := Play(l1, now, i, n, m[1]);
    PlayThree(l, now, i, n, m[0], m[1], m[2], l1, l2);
    var g := l.op.igniters[0];
    assert SparkEnabled(g, now, Patch(0)) && l1.op.igniters == [Sparked(g, Patch(0))];
    assert l2.op.igniters == [Sparked(Sparked(g, Patch(0)), Join(true))];
  }

  /** The request fails after a pass has seen the igniter started, and before anything looks at its error. */
  lemma FailAfterRunning(s: State, i: nat, startAt: int) returns (es: seq<Event>)
    requires WellFormed(s) && i < |s.ops| && PickedAt(s, i, startAt) && startAt <= s.now && s.workers[i] > 0
    ensures var t := Exec(s, es);
            && t.server.rows == s.server.rows[i := Running] && t.ops[i].pc == Idle && HasFailed(t.ops[i])
            && t.ops[i].igniters[0].landed == {} && t.clusters[i].job == Some(UpJob(s.workers[i]))
  {
    var fs := RunAt(s, i, startAt);
    var t := Exec(s, fs);
    FailTheRequests(LocalOf(t, i), t.now, i, s.workers[i], startAt);
    var gs := MovesAreARun(t, i, FailMoves(s.workers[i], t.now));
    ExecConcat(s, fs, gs);
    es := fs + gs;
  }

  /** Running for the webapp with no pod told to start, settled, and with an error that no continuation looks at. */
  ghost predicate SilentlyFailed(t: State, i: nat)
    requires WellFormed(t) && i < |t.ops|
  {
    && PickUp.NothingAborted(t.server.rows) && t.server.rows[i] == Running
    && t.ops[i].pc == Idle && HasFailed(t.ops[i]) && t.clusters[i].unpaused == multiset{}
    && LevelTriggered.Settled(LocalOf(t, i), t.now, i, t.workers[i])
    && !WillNotice(t, i)
  }

  /**
   * A failed ignition that nobody reports: in every run every location that has workers can end up running for the webapp
   * although no pod was told to start, with an operator that will never look at the error and whose passes, while the
   * paused pods are up, do nothing.
   */
  lemma ErrorCanGoUnreported(workers: seq<nat>, now: int, i: nat) returns (es: seq<Event>)
    requires i < |workers| && workers[i] > 0
    ensures SilentlyFailed(Exec(Init(workers, now), es), i)
  {
    var s, startAt := Init(workers, now), FloorSecond(now + START_DELAY);
    StartIsReached(now);
    var es1 := AllReady(workers, now);
    var s1 := Exec(s, es1);
    AllRowsReady(s1, 0, startAt);
    assert ReadyAt(s1, i);
    var es2 := PickUpAt(s1, i, startAt);
    var s2 := Exec(s1, es2);
    TickTo(s2, START_DELAY);
    var s3 := Exec(s2, [Tick(START_DELAY)]);
    assert PickedAt(s3, i, startAt);
    var es4 := FailAfterRunning(s3, i, startAt);
    ExecConcat(s2, [Tick(START_DELAY)], es4);
    ExecConcat(s1, es2, [Tick(START_DELAY)] + es4);
    ExecConcat(s, es1, es2 + ([Tick(START_DELAY)] + es4));
    es := es1 + (es2 + ([Tick(START_DELAY)] + es4));
    FailedSilently(Exec(s3, es4), i, workers, now, es);
  }

  lemma FailedSilently(t: State, i: nat, workers: seq<nat>, now: int, es: seq<Event>)
    requires i < |workers| && workers[i] > 0 && t == Exec(Init(workers, now), es)
    requires forall k | 0 <= k < |t.server.rows| && k != i :: t.server.rows[k] == Ready
    requires t.server.rows[i] == Running && t.ops[i].pc == Idle && HasFailed(t.ops[i])
    requires t.ops[i].igniters[0].landed == {} && t.clusters[i].job == Some(UpJob(workers[i]))
    ensures SilentlyFailed(t, i)
  {
    assert Reachable(t);
    ReachableHasInv(t);
    assert OpInv(t.server, t.now, i, t.workers[i], t.clusters[i], t.ops[i]);
    ErrorIsNoticedExactlyWhen(t, i);
  }
}
