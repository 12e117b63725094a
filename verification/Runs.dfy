/** What runs can do: every fresh run can complete, and in every run with company any location can be left behind. */
module Runs {
  import opened Statuses
  import opened Server
  import opened Protocol
  import opened Invariant
  import opened PickUp
  import Decimal

  // ----- Events at one location

  datatype Move = Access(call: Call) | Goroutine(spark: Spark) | Index(k: nat) | Report(obj: KubeJob, pods: seq<Pod>)

  function EventOf(i: nat, m: Move): Event {
    match m
    case Access(call) => Step(i, call)
    case Goroutine(spark) => Ignition(i, 0, spark)
    case Index(k) => PodDone(i, k)
    case Report(obj, pods) => Kube(i, obj, pods)
  }

  function Play(l: Local, now: int, i: nat, n: nat, m: Move): Local
    requires i < |l.server.rows|
  {
    match m
    case Access(call) => Do(l, now, i, n, call)
    case Goroutine(spark) => DoSpark(l, now, 0, spark)
    case Index(k) => l.(cluster := DoPodDone(l.cluster, n, k))
    case Report(obj, pods) => l.(cluster := DoKube(l.cluster, obj, pods))
  }

  function PlayAll(l: Local, now: int, i: nat, n: nat, moves: seq<Move>): (r: Local)
    requires i < |l.server.rows|
    ensures |r.server.rows| == |l.server.rows|
    decreases |moves|
  {
    if moves == [] then l else PlayAll(Play(l, now, i, n, moves[0]), now, i, n, moves[1..])
  }

  /** Moves at one location, one after the other, are a run of the whole system that touches only this location. */
  lemma {:induction false} MovesAreARun(s: State, i: nat, moves: seq<Move>) returns (es: seq<Event>)
    requires WellFormed(s) && i < |s.ops|
    ensures Exec(s, es) == WithLocal(s, i, PlayAll(LocalOf(s, i), s.now, i, s.workers[i], moves))
    decreases |moves|
  {
    if moves == [] {
      es := [];
      assert s == WithLocal(s, i, LocalOf(s, i));
    } else {
      var e := EventOf(i, moves[0]);
      ApplyKeepsWellFormed(s, e);
      var l := Play(LocalOf(s, i), s.now, i, s.workers[i], moves[0]);
      assert Apply(s, e) == WithLocal(s, i, l);
      var fs := MovesAreARun(Apply(s, e), i, moves[1..]);
      ExecOne(s, e);
      ExecConcat(s, [e], fs);
      es := [e] + fs;
      var r := PlayAll(l, s.now, i, s.workers[i], moves[1..]);
      assert LocalOf(Apply(s, e), i) == l;
      assert WithLocal(Apply(s, e), i, r) == WithLocal(s, i, r);
    }
  }

  lemma PlayOne(l: Local, now: int, i: nat, n: nat, m: Move, rest: seq<Move>)
    requires i < |l.server.rows|
    ensures |Play(l, now, i, n, m).server.rows| == |l.server.rows|
    ensures PlayAll(l, now, i, n, [m] + rest) == PlayAll(Play(l, now, i, n, m), now, i, n, rest)
  {
    assert ([m] + rest)[1..] == rest;
  }

  lemma PlayFour(l: Local, now: int, i: nat, n: nat, a: Move, b: Move, c: Move, d: Move, l1: Local, l2: Local, l3: Local)
    requires i < |l.server.rows| && l1 == Play(l, now, i, n, a)
    requires i < |l1.server.rows| && l2 == Play(l1, now, i, n, b)
    requires i < |l2.server.rows| && l3 == Play(l2, now, i, n, c)
    requires i < |l3.server.rows|
    ensures PlayAll(l, now, i, n, [a, b, c, d]) == Play(l3, now, i, n, d)
  {
    PlayOne(l, now, i, n, a, [b, c, d]);
    PlayOne(l1, now, i, n, b, [c, d]);
    PlayOne(l2, now, i, n, c, [d]);
    PlayOne(l3, now, i, n, d, []);
    assert [a] + [b, c, d] == [a, b, c, d] && [b] + [c, d] == [b, c, d] && [c] + [d] == [c, d] && [d] + [] == [d];
  }

  lemma PlayThree(l: Local, now: int, i: nat, n: nat, a: Move, b: Move, c: Move, l1: Local, l2: Local)
    requires i < |l.server.rows| && l1 == Play(l, now, i, n, a)
    requires i < |l1.server.rows| && l2 == Play(l1, now, i, n, b)
    requires i < |l2.server.rows|
    ensures PlayAll(l, now, i, n, [a, b, c]) == Play(l2, now, i, n, c)
  {
    PlayOne(l, now, i, n, a, [b, c]);
    PlayOne(l1, now, i, n, b, [c]);
    PlayOne(l2, now, i, n, c, []);
    assert [a] + [b, c] == [a, b, c] && [b] + [c] == [b, c] && [c] + [] == [c];
  }

  // ----- The stages of a location

  ghost predicate Unlit(op: Op) {
    op.pc == Idle && op.igniters == [] && op.slot == None
  }

  function CreateMoves(): seq<Move> {
    [Access(Fetch(true)), Access(Read(Missing)), Access(Create(CreatedAll)), Access(Send(Delivered))]
  }

  lemma Queue(l: Local, now: int, i: nat, n: nat)
    requires i < |l.server.rows| && l.server.rows[i] == Pending && l.cluster.job == None && Unlit(l.op)
    ensures var r := PlayAll(l, now, i, n, CreateMoves());
            && r.server == l.server.(rows := l.server.rows[i := Queued])
            && r.cluster == l.cluster.(job := Some(NEW_JOB))
            && Unlit(r.op)
  {
    var m := CreateMoves();
    var l1 := Play(l, now, i, n, m[0]);
    var l2 := Play(l1, now, i, n, m[1]);
    var l3 := Play(l2, now, i, n, m[2]);
    PlayFour(l, now, i, n, m[0], m[1], m[2], m[3], l1, l2, l3);
    assert l3.op.pc.Putting? && l3.op.pc.target == Queued;
  }

  // A Job whose pods are up, and one whose pods have all succeeded.
  function UpJob(n: nat): KubeJob { KubeJob(false, false, [], Some(n), n, 0) }

  function SucceededJob(n: nat): KubeJob { KubeJob(false, false, [], Some(0), 0, n) }

  /** The pods of a location: their ready condition, and since when it has been so. */
  function PodsOf(n: nat, ready: bool, since: int): seq<Pod> {
    seq(n, k requires 0 <= k => Pod("k6-" + Decimal.Render(k), [PodCondition(true, ready, since)]))
  }

  // Pods that have been ready for long enough, and pods that have just succeeded.
  function UpPods(n: nat, now: int): seq<Pod> { PodsOf(n, true, now - 2 * STABILITY_PERIOD) }

  function DonePods(n: nat, now: int): seq<Pod> { PodsOf(n, false, now) }

  lemma UpPodsAreStable(n: nat, now: int)
    ensures |UpPods(n, now)| == n && AllStable(UpPods(n, now), now)
  {
  }

  function SeeMoves(n: nat, now: int): seq<Move> {
    [Report(UpJob(n), UpPods(n, now)), Access(Fetch(true)), Access(Read(Found(UpJob(n)))), Access(List(Some(UpPods(n, now))))]
  }

  lemma SeePods(l: Local, now: int, i: nat, n: nat)
    requires i < |l.server.rows| && l.server.rows[i] == Queued && l.cluster.job.Some? && Unlit(l.op)
    ensures var r := PlayAll(l, now, i, n, SeeMoves(n, now));
            && r.server == l.server
            && r.cluster == l.cluster.(job := Some(UpJob(n)), pods := UpPods(n, now))
            && r.op.igniters == [] && r.op.slot == None
            && r.op.pc == Putting(Job(Queued, false, l.server.startedAt), UpJob(n), Ready)
  {
    UpPodsAreStable(n, now);
    var m := SeeMoves(n, now);
    var l1 := Play(l, now, i, n, m[0]);
    var l2 := Play(l1, now, i, n, m[1]);
    var l3 := Play(l2, now, i, n, m[2]);
    PlayFour(l, now, i, n, m[0], m[1], m[2], m[3], l1, l2, l3);
    assert !AllAre(l.server.rows, Ready);
  }

  // The two accesses after the pods were seen; the operator then fails to list them for the igniter, and is idle.
  function ReadyMoves(): seq<Move> {
    [Access(Send(Delivered)), Access(Ignite(None))]
  }

  lemma ReportReady(l: Local, now: int, i: nat, n: nat)
    requires i < |l.server.rows| && l.server.rows[i] == Queued && l.op.igniters == [] && l.op.slot == None
    requires l.op.pc.Putting? && l.op.pc.target == Ready
    ensures var r := PlayAll(l, now, i, n, ReadyMoves());
            Put(l.server, now, i, Ready) == Accepted(r.server) && r.cluster == l.cluster && Unlit(r.op)
  {
    var send, ignite := Access(Send(Delivered)), Access(Ignite(None));
    PlayOne(l, now, i, n, send, [ignite]);
    var l1 := Play(l, now, i, n, send);
    PlayOne(l1, now, i, n, ignite, []);
    assert [send] + [ignite] == ReadyMoves() && [ignite] + [] == [ignite];
    assert l1.op.pc.Igniting?;
  }

  ghost predicate Lit(op: Op, n: nat, startAt: int, phase: Phase, sent: set<nat>) {
    op.slot == Some(0) && op.igniters == [Igniter(startAt, n, phase, false, false, sent, sent)]
  }

  function PickMoves(n: nat, now: int): seq<Move> {
    [Access(Fetch(true)), Access(Read(Found(UpJob(n)))), Access(Ignite(Some(UpPods(n, now))))]
  }

  lemma PickUpStart(l: Local, now: int, i: nat, n: nat)
    requires i < |l.server.rows| && AllAre(l.server.rows, Ready) && l.server.startedAt.Some?
    requires l.cluster.job.Some? && Unlit(l.op)
    ensures var r := PlayAll(l, now, i, n, PickMoves(n, now));
            && r.server == l.server && r.cluster == l.cluster
            && Lit(r.op, n, l.server.startedAt.value, Spawned, {})
            && r.op.pc == Polling(Job(Ready, true, l.server.startedAt), UpJob(n))
  {
    UpPodsAreStable(n, now);
    var m := PickMoves(n, now);
    var l1 := Play(l, now, i, n, m[0]);
    var l2 := Play(l1, now, i, n, m[1]);
    PlayThree(l, now, i, n, m[0], m[1], m[2], l1, l2);
    assert Play(l2, now, i, n, m[2]).op.igniters == [NewIgniter(l.server.startedAt.value, n)];
  }

  function RunMoves(): seq<Move> {
    [Goroutine(Fire), Access(Poll), Access(Send(Delivered)), Access(Inspect)]
  }

  /** A location without workers has nothing to wait for: its pass goes straight on to the completion. */
  ghost predicate AfterStart(pc: PC, n: nat) {
    if n == 0 then pc.Putting? && pc.target == Completed else pc == Idle
  }

  lemma StartRunning(l: Local, now: int, i: nat, n: nat, startAt: int, job: Job)
    requires i < |l.server.rows| && l.server.rows[i] == Ready && startAt <= now
    requires Lit(l.op, n, startAt, Spawned, {}) && l.op.pc == Polling(job, UpJob(n))
    ensures var r := PlayAll(l, now, i, n, RunMoves());
            && r.server == l.server.(rows := l.server.rows[i := Running]) && r.cluster == l.cluster
            && Lit(r.op, n, startAt, Fired, {}) && AfterStart(r.op.pc, n)
  {
    var m := RunMoves();
    var l1 := Play(l, now, i, n, m[0]);
    var l2 := Play(l1, now, i, n, m[1]);
    var l3 := Play(l2, now, i, n, m[2]);
    PlayFour(l, now, i, n, m[0], m[1], m[2], m[3], l1, l2, l3);
    assert l1.op.igniters == [Igniter(startAt, n, Fired, false, false, {}, {})];
    assert l2.op.pc == Putting(job, UpJob(n), Running);
    assert l3.op.pc.Inspecting? && l3.op.pc.job.status == Running;
  }

  function PodMoves(k: nat): seq<Move> {
    [Goroutine(Patch(k)), Goroutine(Land(k)), Index(k)]
  }

  lemma OnePodDone(l: Local, now: int, i: nat, n: nat, startAt: int, k: nat)
    requires i < |l.server.rows| && k < n && l.op.pc == Idle && Lit(l.op, n, startAt, Fired, Indexes(k))
    requires l.cluster.job.Some? && l.cluster.done == Indexes(k)
    ensures var r := PlayAll(l, now, i, n, PodMoves(k));
            && r.server == l.server && r.op.pc == Idle && Lit(r.op, n, startAt, Fired, Indexes(k + 1))
            && r.cluster.job == l.cluster.job && r.cluster.done == Indexes(k + 1)
  {
    var m := PodMoves(k);
    var l1 := Play(l, now, i, n, m[0]);
    var l2 := Play(l1, now, i, n, m[1]);
    PlayThree(l, now, i, n, m[0], m[1], m[2], l1, l2);
    assert l1.op.igniters == [Igniter(startAt, n, Fired, false, false, Indexes(k) + {k}, Indexes(k))];
    assert l2.op.igniters == [Igniter(startAt, n, Fired, false, false, Indexes(k) + {k}, Indexes(k) + {k})];
    assert Indexes(k) + {k} == Indexes(k + 1);
    assert k in l2.cluster.unpaused;
  }

  function CompleteMoves(n: nat, now: int): seq<Move> {
    [Report(SucceededJob(n), DonePods(n, now)), Access(Fetch(true)), Access(Read(Found(SucceededJob(n)))), Access(Send(Delivered))]
  }

  lemma ReportCompleted(l: Local, now: int, i: nat, n: nat)
    requires i < |l.server.rows| && l.server.rows[i] == Running && l.op.pc == Idle
    requires l.cluster.job.Some? && l.cluster.done == Indexes(n)
    ensures var r := PlayAll(l, now, i, n, CompleteMoves(n, now));
            Put(l.server, now, i, Completed) == Accepted(r.server)
  {
    var m := CompleteMoves(n, now);
    var l1 := Play(l, now, i, n, m[0]);
    var l2 := Play(l1, now, i, n, m[1]);
    var l3 := Play(l2, now, i, n, m[2]);
    PlayFour(l, now, i, n, m[0], m[1], m[2], m[3], l1, l2, l3);
    assert l3.op.pc.Putting? && l3.op.pc.target == Completed;
  }

  // ----- The stages in the whole system

  ghost predicate QueuedAt(s: State, k: nat)
    requires WellFormed(s) && k < |s.ops|
  {
    s.server.rows[k] == Queued && s.clusters[k].job.Some? && s.clusters[k].done == {} && Unlit(s.ops[k])
  }

  ghost predicate FreshAt(s: State, k: nat)
    requires WellFormed(s) && k < |s.ops|
  {
    s.server.rows[k] == Pending && s.clusters[k].job == None && s.clusters[k].done == {} && Unlit(s.ops[k])
  }

  ghost predicate ReadyAt(s: State, k: nat)
    requires WellFormed(s) && k < |s.ops|
  {
    s.server.rows[k] == Ready && s.clusters[k].job.Some? && s.clusters[k].done == {} && Unlit(s.ops[k])
  }

  ghost predicate PickedAt(s: State, k: nat, startAt: int)
    requires WellFormed(s) && k < |s.ops|
  {
    && s.server.rows[k] == Ready && s.clusters[k].job.Some? && s.clusters[k].done == {}
    && Lit(s.ops[k], s.workers[k], startAt, Spawned, {})
    && s.ops[k].pc == Polling(Job(Ready, true, Some(startAt)), UpJob(s.workers[k]))
  }

  /** Only location `i` differs. */
  ghost predicate OnlyAt(s: State, t: State, i: nat) {
    && WellFormed(s) && WellFormed(t) && t.workers == s.workers && t.now == s.now
    && forall k | 0 <= k < |s.ops| && k != i ::
         t.server.rows[k] == s.server.rows[k] && t.clusters[k] == s.clusters[k] && t.ops[k] == s.ops[k]
  }

  lemma QueueAt(s: State, i: nat) returns (es: seq<Event>)
    requires WellFormed(s) && i < |s.ops| && FreshAt(s, i)
    ensures var t := Exec(s, es);
            OnlyAt(s, t, i) && QueuedAt(t, i) && t.server == s.server.(rows := s.server.rows[i := Queued])
  {
    Queue(LocalOf(s, i), s.now, i, s.workers[i]);
    es := MovesAreARun(s, i, CreateMoves());
  }

  lemma {:induction false} AllQueue(s: State, m: nat) returns (es: seq<Event>)
    requires WellFormed(s) && m <= |s.ops| && s.server.startedAt == None && s.server.completedAt == None
    requires forall k | 0 <= k < m :: QueuedAt(s, k)
    requires forall k | m <= k < |s.ops| :: FreshAt(s, k)
    ensures var t := Exec(s, es);
            && t.now == s.now && t.server.startedAt == None && t.server.completedAt == None
            && forall k | 0 <= k < |t.ops| :: QueuedAt(t, k)
    decreases |s.ops| - m
  {
    es := [];
    if m < |s.ops| {
      var fs := QueueAt(s, m);
      var t := Exec(s, fs);
      forall k | 0 <= k < m ensures QueuedAt(t, k) { assert QueuedAt(s, k); }
      forall k | m < k < |s.ops| ensures FreshAt(t, k) { assert FreshAt(s, k); }
      var gs := AllQueue(t, m + 1);
      ExecConcat(s, fs, gs);
      es := fs + gs;
    }
  }

  lemma GetReadyAt(s: State, i: nat) returns (es: seq<Event>)
    requires WellFormed(s) && i < |s.ops| && QueuedAt(s, i)
    ensures var t := Exec(s, es);
            OnlyAt(s, t, i) && ReadyAt(t, i) && Put(s.server, s.now, i, Ready) == Accepted(t.server)
  {
    var n := s.workers[i];
    SeePods(LocalOf(s, i), s.now, i, n);
    var fs := MovesAreARun(s, i, SeeMoves(n, s.now));
    var t := Exec(s, fs);
    ReportReady(LocalOf(t, i), t.now, i, n);
    var gs := MovesAreARun(t, i, ReadyMoves());
    ExecConcat(s, fs, gs);
    es := fs + gs;
  }

  lemma LastOneStamps(s: State, m: nat)
    requires WellFormed(s) && m < |s.ops|
    requires forall k | 0 <= k < m :: ReadyAt(s, k)
    requires forall k | m <= k < |s.ops| :: QueuedAt(s, k)
    ensures AllAre(s.server.rows[m := Ready], Ready) <==> m + 1 == |s.ops|
  {
    var rows := s.server.rows[m := Ready];
    if m + 1 < |s.ops| {
      assert QueuedAt(s, m + 1);
      assert rows[m + 1] == Queued;
    } else {
      forall k | 0 <= k < |rows| ensures rows[k] == Ready {
        assert k < m ==> ReadyAt(s, k);
      }
    }
  }

  lemma OneMoreReady(s: State, m: nat) returns (es: seq<Event>)
    requires WellFormed(s) && m < |s.ops| && s.server.completedAt == None && s.server.startedAt == None
    requires forall k | 0 <= k < m :: ReadyAt(s, k)
    requires forall k | m <= k < |s.ops| :: QueuedAt(s, k)
    ensures var t := Exec(s, es);
            && t.now == s.now && t.server.completedAt == None
            && t.server.startedAt == (if m + 1 < |s.ops| then None else Some(FloorSecond(s.now + START_DELAY)))
            && (forall k | 0 <= k <= m :: ReadyAt(t, k))
            && (forall k | m < k < |s.ops| :: QueuedAt(t, k))
  {
    es := GetReadyAt(s, m);
    var t := Exec(s, es);
    LastOneStamps(s, m);
    forall k | 0 <= k <= m ensures ReadyAt(t, k) { assert k < m ==> ReadyAt(s, k); }
    forall k | m < k < |s.ops| ensures QueuedAt(t, k) { assert QueuedAt(s, k); }
  }

  lemma {:induction false} AllGetReady(s: State, m: nat) returns (es: seq<Event>)
    requires WellFormed(s) && m <= |s.ops| && s.server.completedAt == None
    requires s.server.startedAt == if m < |s.ops| then None else Some(FloorSecond(s.now + START_DELAY))
    requires forall k | 0 <= k < m :: ReadyAt(s, k)
    requires forall k | m <= k < |s.ops| :: QueuedAt(s, k)
    ensures var t := Exec(s, es);
            && t.now == s.now && t.server.startedAt == Some(FloorSecond(s.now + START_DELAY)) && t.server.completedAt == None
            && forall k | 0 <= k < |t.ops| :: ReadyAt(t, k)
    decreases |s.ops| - m
  {
    es := [];
    if m < |s.ops| {
      var fs := OneMoreReady(s, m);
      var gs := AllGetReady(Exec(s, fs), m + 1);
      ExecConcat(s, fs, gs);
      es := fs + gs;
    }
  }

  lemma PickUpAt(s: State, i: nat, startAt: int) returns (es: seq<Event>)
    requires WellFormed(s) && i < |s.ops| && ReadyAt(s, i) && AllAre(s.server.rows, Ready) && s.server.startedAt == Some(startAt)
    ensures var t := Exec(s, es); OnlyAt(s, t, i) && PickedAt(t, i, startAt) && t.server == s.server
  {
    PickUpStart(LocalOf(s, i), s.now, i, s.workers[i]);
    es := MovesAreARun(s, i, PickMoves(s.workers[i], s.now));
  }

  lemma AllRowsReady(s: State, m: nat, startAt: int)
    requires WellFormed(s) && m <= |s.ops|
    requires forall k | 0 <= k < m :: PickedAt(s, k, startAt)
    requires forall k | m <= k < |s.ops| :: ReadyAt(s, k)
    ensures AllAre(s.server.rows, Ready)
  {
    forall k | 0 <= k < |s.ops| ensures s.server.rows[k] == Ready {
      assert if k < m then PickedAt(s, k, startAt) else ReadyAt(s, k);
    }
  }

  lemma {:induction false} AllPickUp(s: State, m: nat, startAt: int) returns (es: seq<Event>)
    requires WellFormed(s) && m <= |s.ops| && s.server.startedAt == Some(startAt)
    requires forall k | 0 <= k < m :: PickedAt(s, k, startAt)
    requires forall k | m <= k < |s.ops| :: ReadyAt(s, k)
    ensures var t := Exec(s, es); t.now == s.now && t.server == s.server && forall k | 0 <= k < |t.ops| :: PickedAt(t, k, startAt)
    decreases |s.ops| - m
  {
    es := [];
    if m < |s.ops| {
      AllRowsReady(s, m, startAt);
      var fs := PickUpAt(s, m, startAt);
      var t := Exec(s, fs);
      forall k | 0 <= k < m ensures PickedAt(t, k, startAt) { assert PickedAt(s, k, startAt); }
      forall k | m < k < |s.ops| ensures ReadyAt(t, k) { assert ReadyAt(s, k); }
      var gs := AllPickUp(t, m + 1, startAt);
      ExecConcat(s, fs, gs);
      es := fs + gs;
    }
  }

  lemma RunAt(s: State, i: nat, startAt: int) returns (es: seq<Event>)
    requires WellFormed(s) && i < |s.ops| && PickedAt(s, i, startAt) && startAt <= s.now
    ensures var t := Exec(s, es);
            && OnlyAt(s, t, i) && t.server == s.server.(rows := s.server.rows[i := Running])
            && t.clusters[i] == s.clusters[i] && Lit(t.ops[i], s.workers[i], startAt, Fired, {})
            && AfterStart(t.ops[i].pc, s.workers[i])
  {
    StartRunning(LocalOf(s, i), s.now, i, s.workers[i], startAt, Job(Ready, true, Some(startAt)));
    es := MovesAreARun(s, i, RunMoves());
  }

  /** A location at work: its igniter has fired, and the first `k` pods were told to start and have succeeded. */
  ghost predicate WorkingAt(s: State, i: nat, startAt: int, k: nat)
    requires WellFormed(s) && i < |s.ops|
  {
    && s.ops[i].pc == Idle && Lit(s.ops[i], s.workers[i], startAt, Fired, Indexes(k))
    && s.clusters[i].job.Some? && s.clusters[i].done == Indexes(k)
  }

  lemma OnePodAt(s: State, i: nat, startAt: int, k: nat) returns (es: seq<Event>)
    requires WellFormed(s) && i < |s.ops| && k < s.workers[i] && WorkingAt(s, i, startAt, k)
    ensures var t := Exec(s, es); OnlyAt(s, t, i) && t.server == s.server && WorkingAt(t, i, startAt, k + 1)
  {
    OnePodDone(LocalOf(s, i), s.now, i, s.workers[i], startAt, k);
    es := MovesAreARun(s, i, PodMoves(k));
  }

  lemma {:induction false} PodsAt(s: State, i: nat, startAt: int, k: nat) returns (es: seq<Event>)
    requires WellFormed(s) && i < |s.ops| && k <= s.workers[i] && WorkingAt(s, i, startAt, k)
    ensures var t := Exec(s, es); OnlyAt(s, t, i) && t.server == s.server && WorkingAt(t, i, startAt, s.workers[i])
    decreases s.workers[i] - k
  {
    es := [];
    if k < s.workers[i] {
      var fs := OnePodAt(s, i, startAt, k);
      var gs := PodsAt(Exec(s, fs), i, startAt, k + 1);
      ExecConcat(s, fs, gs);
      es := fs + gs;
    }
  }

  /** What the report of a completion leaves of the run. */
  ghost predicate CompletedAt(s: State, t: State, i: nat) {
    && OnlyAt(s, t, i) && i < |t.server.rows| && t.server.rows[i] == Completed && t.server.startedAt == s.server.startedAt
    && t.server.completedAt == (if s.server.completedAt == None && AllAre(t.server.rows, Completed)
                                then Some(FloorSecond(s.now)) else s.server.completedAt)
  }

  lemma NothingToDoAt(s: State, i: nat) returns (es: seq<Event>)
    requires WellFormed(s) && i < |s.ops| && s.server.rows[i] == Running
    requires s.ops[i].pc.Putting? && s.ops[i].pc.target == Completed
    ensures CompletedAt(s, Exec(s, es), i)
  {
    var send := Access(Send(Delivered));
    PlayOne(LocalOf(s, i), s.now, i, s.workers[i], send, []);
    assert [send] + [] == [send];
    es := MovesAreARun(s, i, [send]);
  }

  lemma WorkDoneAt(s: State, i: nat, startAt: int) returns (es: seq<Event>)
    requires WellFormed(s) && i < |s.ops| && s.server.rows[i] == Running && WorkingAt(s, i, startAt, 0)
    ensures CompletedAt(s, Exec(s, es), i)
  {
    var fs := PodsAt(s, i, startAt, 0);
    var t := Exec(s, fs);
    ReportCompleted(LocalOf(t, i), t.now, i, s.workers[i]);
    var gs := MovesAreARun(t, i, CompleteMoves(s.workers[i], t.now));
    ExecConcat(s, fs, gs);
    es := fs + gs;
  }

  lemma FinishAt(s: State, i: nat, startAt: int) returns (es: seq<Event>)
    requires WellFormed(s) && i < |s.ops| && PickedAt(s, i, startAt) && startAt <= s.now
    ensures CompletedAt(s, Exec(s, es), i)
  {
    var fs := RunAt(s, i, startAt);
    var t := Exec(s, fs);
    var gs: seq<Event>;
    if s.workers[i] == 0 {
      gs := NothingToDoAt(t, i);
    } else {
      gs := WorkDoneAt(t, i, startAt);
    }
    ExecConcat(s, fs, gs);
    es := fs + gs;
  }

  lemma {:induction false} AllFinish(s: State, m: nat, startAt: int) returns (es: seq<Event>)
    requires WellFormed(s) && m <= |s.ops| && startAt <= s.now
    requires m < |s.ops| ==> s.server.completedAt == None
    requires forall k | 0 <= k < m :: s.server.rows[k] == Completed
    requires forall k | m <= k < |s.ops| :: PickedAt(s, k, startAt)
    ensures var t := Exec(s, es);
            AllAre(t.server.rows, Completed) && (m < |s.ops| ==> t.server.completedAt.Some?) &&
            (m == |s.ops| ==> t.server.completedAt == s.server.completedAt)
    decreases |s.ops| - m
  {
    es := [];
    if m < |s.ops| {
      var fs := FinishAt(s, m, startAt);
      var t := Exec(s, fs);
      forall k | m < k < |s.ops| ensures PickedAt(t, k, startAt) { assert PickedAt(s, k, startAt); }
      if m + 1 < |s.ops| {
        assert PickedAt(t, m + 1, startAt);
        assert t.server.rows[m + 1] != Completed;
      }
      var gs := AllFinish(t, m + 1, startAt);
      ExecConcat(s, fs, gs);
      es := fs + gs;
    }
  }

  // ----- Whole runs

  lemma AllReady(workers: seq<nat>, now: int) returns (es: seq<Event>)
    requires |workers| > 0
    ensures var t := Exec(Init(workers, now), es);
            && t.now == now && t.server.startedAt == Some(FloorSecond(now + START_DELAY)) && t.server.completedAt == None
            && forall k | 0 <= k < |t.ops| :: ReadyAt(t, k)
  {
    var s := Init(workers, now);
    assert forall k | 0 <= k < |s.ops| :: FreshAt(s, k);
    var fs := AllQueue(s, 0);
    var gs := AllGetReady(Exec(s, fs), 0);
    ExecConcat(s, fs, gs);
    es := fs + gs;
  }

  lemma StartIsReached(now: int)
    ensures FloorSecond(now + START_DELAY) <= now + START_DELAY
  {
    FloorSecondIsClose(now + START_DELAY);
  }

  lemma TickTo(s: State, d: nat)
    requires WellFormed(s)
    ensures Exec(s, [Tick(d)]) == s.(now := s.now + d)
  {
    ExecOne(s, Tick(d));
  }

  /** Whatever the number of locations and the workers of each, none included, a fresh run can complete. */
  lemma EveryRunCanComplete(workers: seq<nat>, now: int) returns (es: seq<Event>)
    requires |workers| > 0
    ensures Exec(Init(workers, now), es).server.completedAt.Some?
  {
    var s := Init(workers, now);
    var startAt := FloorSecond(now + START_DELAY);
    StartIsReached(now);
    var fs := AllReady(workers, now);
    var t := Exec(s, fs);
    var gs := AllPickUp(t, 0, startAt);
    var u := Exec(t, gs);
    TickTo(u, START_DELAY);
    var v := Exec(u, [Tick(START_DELAY)]);
    forall k | 0 <= k < |v.ops| ensures PickedAt(v, k, startAt) { assert PickedAt(u, k, startAt); }
    var hs := AllFinish(v, 0, startAt);
    ExecConcat(u, [Tick(START_DELAY)], hs);
    ExecConcat(t, gs, [Tick(START_DELAY)] + hs);
    ExecConcat(s, fs, gs + ([Tick(START_DELAY)] + hs));
    es := fs + (gs + ([Tick(START_DELAY)] + hs));
  }

  /**
   * In every run with at least two locations any one of them can be left behind for good, although nothing fails, nothing
   * is canceled and its own operator is idle: it is enough that another picks up the start and it does not.
   */
  lemma AnyLocationCanBeStranded(workers: seq<nat>, now: int, j: nat) returns (es: seq<Event>)
    requires |workers| >= 2 && j < |workers|
    ensures var t := Exec(Init(workers, now), es);
            NothingAborted(t.server.rows) && t.server.rows[j] == Ready && t.ops[j].pc == Idle && Stranded(t, j)
  {
    var s := Init(workers, now);
    var i := if j == 0 then 1 else 0;
    StartIsReached(now);
    var fs := AllReady(workers, now);
    var t := Exec(s, fs);
    var gs := OnlyOneStarts(t, i, j, FloorSecond(now + START_DELAY));
    ExecConcat(s, fs, gs);
    es := fs + gs;
  }

  lemma OnlyOneStarts(s: State, i: nat, j: nat, startAt: int) returns (es: seq<Event>)
    requires WellFormed(s) && i < |s.ops| && j < |s.ops| && i != j
    requires s.server.startedAt == Some(startAt) && startAt <= s.now + START_DELAY
    requires forall k | 0 <= k < |s.ops| :: ReadyAt(s, k)
    ensures var t := Exec(s, es);
            NothingAborted(t.server.rows) && t.server.rows[j] == Ready && t.ops[j].pc == Idle && Stranded(t, j)
  {
    assert ReadyAt(s, i) && ReadyAt(s, j);
    AllRowsReady(s, 0, startAt);
    var gs := PickUpAt(s, i, startAt);
    var u := Exec(s, gs);
    TickTo(u, START_DELAY);
    var v := Exec(u, [Tick(START_DELAY)]);
    assert PickedAt(v, i, startAt);
    var hs := RunAt(v, i, startAt);
    ExecConcat(u, [Tick(START_DELAY)], hs);
    ExecConcat(s, gs, [Tick(START_DELAY)] + hs);
    es := gs + ([Tick(START_DELAY)] + hs);
    LeftBehind(s, Exec(v, hs), i, j);
  }

  lemma LeftBehind(s: State, t: State, i: nat, j: nat)
    requires WellFormed(s) && WellFormed(t) && |t.ops| == |s.ops| && i < |s.ops| && j < |s.ops| && i != j
    requires forall k | 0 <= k < |s.ops| :: ReadyAt(s, k)
    requires t.server.rows == s.server.rows[i := Running] && t.server.startedAt.Some? && t.ops[j] == s.ops[j]
    ensures NothingAborted(t.server.rows) && t.server.rows[j] == Ready && t.ops[j].pc == Idle && Stranded(t, j)
  {
    forall k | 0 <= k < |s.ops| ensures t.server.rows[k] == Running || t.server.rows[k] == Ready {
      assert ReadyAt(s, k);
    }
    assert ReadyAt(s, j);
    assert t.server.rows[i] == Running;
  }

  // ----- A completion that is refused although nothing was canceled

  function WaitMoves(): seq<Move> {
    [Goroutine(Arm), Access(Poll), Access(Inspect)]
  }

  lemma WaitForTheStart(l: Local, now: int, i: nat, n: nat, startAt: int, job: Job)
    requires i < |l.server.rows| && job.status == Ready
    requires Lit(l.op, n, startAt, Spawned, {}) && l.op.pc == Polling(job, UpJob(n))
    ensures var r := PlayAll(l, now, i, n, WaitMoves());
            r.server == l.server && r.cluster == l.cluster && Lit(r.op, n, startAt, Waiting, {}) && r.op.pc == Idle
  {
    var m := WaitMoves();
    var l1 := Play(l, now, i, n, m[0]);
    var l2 := Play(l1, now, i, n, m[1]);
    PlayThree(l, now, i, n, m[0], m[1], m[2], l1, l2);
    assert l1.op.igniters == [Igniter(startAt, n, Waiting, false, false, {}, {})];
    assert l2.op.pc == Inspecting(job, UpJob(n));
  }

  lemma WaitAt(s: State, i: nat, startAt: int) returns (es: seq<Event>)
    requires WellFormed(s) && i < |s.ops| && PickedAt(s, i, startAt)
    ensures var t := Exec(s, es);
            && OnlyAt(s, t, i) && t.server == s.server && t.clusters[i] == s.clusters[i]
            && Lit(t.ops[i], s.workers[i], startAt, Waiting, {}) && t.ops[i].pc == Idle
  {
    WaitForTheStart(LocalOf(s, i), s.now, i, s.workers[i], startAt, Job(Ready, true, Some(startAt)));
    es := MovesAreARun(s, i, WaitMoves());
  }

  lemma FireAt(s: State, i: nat, startAt: int) returns (es: seq<Event>)
    requires WellFormed(s) && i < |s.ops| && s.ops[i].pc == Idle && startAt <= s.now
    requires Lit(s.ops[i], s.workers[i], startAt, Waiting, {}) && s.clusters[i].job.Some? && s.clusters[i].done == {}
    ensures var t := Exec(s, es); OnlyAt(s, t, i) && t.server == s.server && WorkingAt(t, i, startAt, 0)
  {
    es := [Ignition(i, 0, Fire)];
    ExecOne(s, es[0]);
    assert Apply(s, es[0]).ops[i].igniters == [Igniter(startAt, s.workers[i], Fired, false, false, {}, {})];
  }

  function LateMoves(n: nat, now: int): seq<Move> {
    [Report(SucceededJob(n), DonePods(n, now)), Access(Fetch(true)), Access(Read(Found(SucceededJob(n)))),
     Access(Ignite(Some(DonePods(n, now))))]
  }

  lemma LookLate(l: Local, now: int, i: nat, n: nat, startAt: int)
    requires i < |l.server.rows| && l.server.rows[i] == Ready && l.op.pc == Idle && Lit(l.op, n, startAt, Fired, Indexes(n))
    requires l.cluster.job.Some? && l.cluster.done == Indexes(n)
    ensures var r := PlayAll(l, now, i, n, LateMoves(n, now));
            && r.server == l.server && Lit(r.op, n, startAt, Fired, Indexes(n))
            && r.op.pc == Polling(Serialize(l.server, i), SucceededJob(n))
  {
    var m := LateMoves(n, now);
    var l1 := Play(l, now, i, n, m[0]);
    var l2 := Play(l1, now, i, n, m[1]);
    var l3 := Play(l2, now, i, n, m[2]);
    PlayFour(l, now, i, n, m[0], m[1], m[2], m[3], l1, l2, l3);
    assert l3.op.pc == Igniting(Serialize(l.server, i), SucceededJob(n));
  }

  function LostMoves(): seq<Move> {
    [Access(Poll), Access(Send(RequestLost)), Access(Inspect)]
  }

  lemma LoseRunning(l: Local, now: int, i: nat, n: nat, startAt: int, job: Job)
    requires i < |l.server.rows| && Lit(l.op, n, startAt, Fired, Indexes(n)) && l.op.pc == Polling(job, SucceededJob(n))
    ensures var r := PlayAll(l, now, i, n, LostMoves());
            r.server == l.server && r.op.pc == Putting(job.(status := Running), SucceededJob(n), Completed)
  {
    var m := LostMoves();
    var l1 := Play(l, now, i, n, m[0]);
    var l2 := Play(l1, now, i, n, m[1]);
    PlayThree(l, now, i, n, m[0], m[1], m[2], l1, l2);
    assert l1.op.pc == Putting(job, SucceededJob(n), Running);
    assert l2.op.pc == Inspecting(job.(status := Running), SucceededJob(n));
  }

  lemma CompleteLate(s: State, i: nat, startAt: int) returns (es: seq<Event>)
    requires WellFormed(s) && i < |s.ops| && s.server.rows[i] == Ready && WorkingAt(s, i, startAt, s.workers[i])
    ensures var t := Exec(s, es); t.server == s.server && t.ops[i].pc.Putting? && t.ops[i].pc.target == Completed
  {
    var n := s.workers[i];
    LookLate(LocalOf(s, i), s.now, i, n, startAt);
    var fs := MovesAreARun(s, i, LateMoves(n, s.now));
    var t := Exec(s, fs);
    LoseRunning(LocalOf(t, i), t.now, i, n, startAt, Serialize(s.server, i));
    var gs := MovesAreARun(t, i, LostMoves());
    ExecConcat(s, fs, gs);
    es := fs + gs;
  }

  lemma WorkBehindTheRow(s: State, i: nat, startAt: int) returns (es: seq<Event>)
    requires WellFormed(s) && i < |s.ops| && PickedAt(s, i, startAt) && startAt <= s.now + START_DELAY
    ensures var t := Exec(s, es); t.server == s.server && t.ops[i].pc.Putting? && t.ops[i].pc.target == Completed
  {
    var es0 := WaitAt(s, i, startAt);
    var s1 := Exec(s, es0);
    TickTo(s1, START_DELAY);
    var s2 := Exec(s1, [Tick(START_DELAY)]);
    var es2 := FireAt(s2, i, startAt);
    var s3 := Exec(s2, es2);
    var es3 := PodsAt(s3, i, startAt, 0);
    var s4 := Exec(s3, es3);
    var es4 := CompleteLate(s4, i, startAt);
    ExecConcat(s3, es3, es4);
    ExecConcat(s2, es2, es3 + es4);
    ExecConcat(s1, [Tick(START_DELAY)], es2 + (es3 + es4));
    ExecConcat(s, es0, [Tick(START_DELAY)] + (es2 + (es3 + es4)));
    es := es0 + ([Tick(START_DELAY)] + (es2 + (es3 + es4)));
  }

  /**
   * In every run any location can have its completion refused although nothing failed or was canceled: its pods were all
   * done before the first pass after the start, and that pass lost the request that reports it running.
   */
  lemma AnyCompletionCanBeRefused(workers: seq<nat>, now: int, i: nat) returns (es: seq<Event>)
    requires i < |workers|
    ensures var t := Exec(Init(workers, now), es);
            && NothingAborted(t.server.rows) && t.server.rows[i] == Ready
            && t.ops[i].pc.Putting? && t.ops[i].pc.target == Completed && Put(t.server, t.now, i, Completed) == Rejected
  {
    var s, startAt := Init(workers, now), FloorSecond(now + START_DELAY);
    StartIsReached(now);
    var fs := AllReady(workers, now);
    var t := Exec(s, fs);
    AllRowsReady(t, 0, startAt);
    assert ReadyAt(t, i);
    var gs := PickUpAt(t, i, startAt);
    var u := Exec(t, gs);
    var hs := WorkBehindTheRow(u, i, startAt);
    ExecConcat(t, gs, hs);
    ExecConcat(s, fs, gs + hs);
    es := fs + (gs + hs);
  }

  // ----- Two failures, and what a retry would then do

  function CreateFailsMoves(): seq<Move> {
    [Access(Fetch(true)), Access(Read(Missing)), Access(Create(CreateError))]
  }

  lemma FailToCreate(l: Local, now: int, i: nat, n: nat)
    requires i < |l.server.rows| && l.server.rows[i] == Pending && l.op.pc == Idle
    ensures var r := PlayAll(l, now, i, n, CreateFailsMoves());
            r.server == l.server && r.op.pc.Putting? && r.op.pc.target == Failed
  {
    var m := CreateFailsMoves();
    var l1 := Play(l, now, i, n, m[0]);
    var l2 := Play(l1, now, i, n, m[1]);
    PlayThree(l, now, i, n, m[0], m[1], m[2], l1, l2);
    assert l2.op.pc.Creating?;
  }

  ghost predicate AboutToFail(s: State, i: nat)
    requires WellFormed(s) && i < |s.ops|
  {
    s.ops[i].pc.Putting? && s.ops[i].pc.target == Failed
  }

  lemma AboutToFailAt(s: State, i: nat) returns (es: seq<Event>)
    requires WellFormed(s) && i < |s.ops| && s.server.rows[i] == Pending && s.ops[i].pc == Idle
    ensures var t := Exec(s, es); OnlyAt(s, t, i) && t.server == s.server && AboutToFail(t, i)
  {
    FailToCreate(LocalOf(s, i), s.now, i, s.workers[i]);
    es := MovesAreARun(s, i, CreateFailsMoves());
  }

  /** A failure report is accepted from every status, so a second one overwrites the cancellation that the first one caused. */
  lemma BothFail(s: State, i: nat, j: nat) returns (es: seq<Event>)
    requires WellFormed(s) && i < |s.ops| && j < |s.ops| && i != j && AboutToFail(s, i) && AboutToFail(s, j)
    ensures var rows := Exec(s, es).server.rows; rows[i] == Failed && rows[j] == Failed
    ensures forall k | 0 <= k < |s.ops| :: !Active(Exec(s, es).server.rows[k])
  {
    var first, second := Step(i, Send(Delivered)), Step(j, Send(Delivered));
    ExecOne(s, first);
    var t := Apply(s, first);
    assert t.server.rows == Cascade(s.server.rows[i := Failed]);
    ExecSnoc(s, [first], second);
    assert Apply(t, second).server.rows == Cascade(t.server.rows[j := Failed]);
    es := [first] + [second];
  }

  /** Any two locations of any run can both fail, the second by a stale report; from there an accepted retry breaks fail-fast. */
  lemma RetryCanBreakFailFast(workers: seq<nat>, now: int, i: nat, j: nat) returns (es: seq<Event>)
    requires i < |workers| && j < |workers| && i != j
    ensures var t := Exec(Init(workers, now), es);
            && t.server.rows[i] == Failed && t.server.rows[j] == Failed && FailFast(t.server.rows)
            && Put(t.server, t.now, i, Pending).Accepted? && !FailFast(Put(t.server, t.now, i, Pending).server.rows)
  {
    var s := Init(workers, now);
    var fs := AboutToFailAt(s, i);
    var t := Exec(s, fs);
    var gs := AboutToFailAt(t, j);
    var u := Exec(t, gs);
    var hs := BothFail(u, i, j);
    ExecConcat(t, gs, hs);
    ExecConcat(s, fs, gs + hs);
    es := fs + (gs + hs);
    var v := Exec(s, es);
    PutKeepsFailFastUnlessRetried(v.server, v.now, i, Pending);
  }
}
