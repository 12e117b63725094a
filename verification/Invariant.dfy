/** The global invariant of the step machine, kept by every event, and its consequence for every run. */
module Invariant {
  import opened Statuses
  import opened Server
  import opened Protocol

  // ----- What holds of the webapp's rows and stamps

  ghost predicate StartOk(sv: Server, now: int) {
    && BarrierOpen(sv)
    && (sv.startedAt.Some? ==>
          && sv.startedAt.value % SECOND == 0
          && forall k | 0 <= k < |sv.rows| :: sv.rows[k] != Pending && sv.rows[k] != Queued)
    && (forall k | 0 <= k < |sv.rows| :: sv.rows[k] == Running || sv.rows[k] == Completed ==>
          sv.startedAt.Some? && sv.startedAt.value <= now)
  }

  ghost predicate CompletionOk(sv: Server, now: int) {
    && (sv.completedAt.Some? <==> AllAre(sv.rows, Completed))
    && (sv.completedAt.Some? ==>
          sv.startedAt.Some? && sv.startedAt.value <= sv.completedAt.value <= now && sv.completedAt.value % SECOND == 0)
  }

  ghost predicate ServerInv(sv: Server, now: int) {
    |sv.rows| > 0 && StartOk(sv, now) && CompletionOk(sv, now) && FailFast(sv.rows)
  }

  // ----- What holds of one location's operator and cluster

  /** An igniter carries the agreed start, fires no earlier, and only then sends requests. */
  ghost predicate IgniterOk(startedAt: Option<int>, now: int, n: nat, g: Igniter) {
    && startedAt == Some(g.startAt)
    && g.pods == n
    && (g.Started() ==> g.startAt <= now)
    && (g.sent != {} ==> g.Started())
    && (forall k | k in g.sent :: k < n)
    && g.landed <= g.sent
    && (g.error ==> g.Started())
    && (g.phase.Joined? && !g.error ==> forall k | 0 <= k < g.pods :: k in g.sent)
  }

  ghost predicate IgnitersOk(startedAt: Option<int>, now: int, n: nat, op: Op) {
    && |op.igniters| <= 1
    && (op.slot.Some? ==> op.slot.value == 0 && |op.igniters| == 1)
    && (forall g | g in op.igniters :: IgniterOk(startedAt, now, n, g))
    && (op.slot.None? ==> forall g | g in op.igniters :: g.canceled)
  }

  ghost predicate ClusterOk(n: nat, c: Cluster, op: Op) {
    && (forall k | k in c.done :: k < n && k in c.unpaused)
    && (c.job.Some? ==> c.job.value.succeeded <= |c.done|)
    && (op.igniters == [] ==> c.unpaused == multiset{})
    && (op.igniters != [] ==> c.unpaused == multiset(op.igniters[0].landed))
  }

  ghost predicate RowOk(row: Status, n: nat, c: Cluster, op: Op) {
    && (op.pc != Idle ==> row in op.known || row == Canceled)
    && (op.pc != Idle && (Queued in op.known || Ready in op.known || Running in op.known) ==> c.job.Some?)
    && (row == Completed ==> |c.done| == n)
    && (op.igniters != [] && op.slot.None? ==> row.Terminal())
    && (row == Queued || row == Ready || row == Running || row == Completed ==> c.job.Some?)
  }

  ghost predicate JobOk(startedAt: Option<int>, job: Job) {
    job.startAt.Some? ==> startedAt == job.startAt
  }

  /** An igniter once made is still in the map. */
  ghost predicate Linked(op: Op) {
    op.igniters != [] ==> op.slot.Some?
  }

  ghost predicate PutOk(n: nat, c: Cluster, op: Op, obj: KubeJob, target: Status) {
    match target
    case Queued => op.known == {Pending} && c.job.Some?
    case Ready => op.known == {Queued}
    case Running => op.known == {Ready} && op.slot == Some(0) && |op.igniters| == 1 && op.igniters[0].Started()
    case Completed => op.known <= {Ready, Running} && op.known != {} && obj.succeeded == n
    case Failed => op.known <= {Pending, Queued, Ready, Running} && op.known != {}
    case _ => false
  }

  /** What the pass holds for the status is all its exchanges leave possible, unless it went on from a lost RUNNING. */
  ghost predicate SnapshotOk(op: Op) {
    JobOf(op.pc).Some? ==>
      var st := JobOf(op.pc).value.status; op.known == {st} || (st == Running && op.known <= {Ready, Running})
  }

  ghost predicate PcOk(startedAt: Option<int>, n: nat, c: Cluster, op: Op) {
    SnapshotOk(op) &&
    match op.pc
    case Idle => true
    case Fetched(job) => JobOk(startedAt, job) && op.known == {job.status} && (job.status != Canceled ==> Linked(op) && !job.status.Terminal())
    case Suspending => op.known == {Canceled}
    case Forgetting => op.known == {Canceled} || op.known == {Completed} || op.known == {Failed}
    case Creating(job) => JobOk(startedAt, job) && Linked(op) && job.status == Pending && op.known == {Pending}
    case Putting(job, obj, target) =>
      && JobOk(startedAt, job) && Linked(op) && obj.succeeded <= |c.done| && PutOk(n, c, op, obj, target)
      && (target == Completed ==> job.status == Running)
    case Listing(job, obj) => JobOk(startedAt, job) && Linked(op) && obj.succeeded <= |c.done| && op.known == {Queued}
    case Igniting(job, obj) =>
      JobOk(startedAt, job) && Linked(op) && obj.succeeded <= |c.done| && job.status == Ready && op.known == {Ready}
    case Polling(job, obj) =>
      JobOk(startedAt, job) && op.slot.Some? && obj.succeeded <= |c.done| && job.status == Ready && op.known == {Ready}
    case Inspecting(job, obj) =>
      && JobOk(startedAt, job) && op.slot.Some? && obj.succeeded <= |c.done|
      && op.known != {}
      && (job.status == Ready ==> op.known == {Ready})
      && (job.status == Running || job.status == Ready)
      && op.known <= {Ready, Running}
  }

  ghost predicate OpInv(sv: Server, now: int, i: nat, n: nat, c: Cluster, op: Op)
    requires i < |sv.rows|
  {
    && IgnitersOk(sv.startedAt, now, n, op)
    && ClusterOk(n, c, op)
    && RowOk(sv.rows[i], n, c, op)
    && PcOk(sv.startedAt, n, c, op)
  }

  ghost predicate Inv(s: State) {
    && WellFormed(s)
    && ServerInv(s.server, s.now)
    && forall i | 0 <= i < |s.ops| :: OpInv(s.server, s.now, i, s.workers[i], s.clusters[i], s.ops[i])
  }

  // ----- What one location may rely on while something else moves

  ghost predicate Rely(sv: Server, now: int, sv': Server, now': int, j: nat)
    requires j < |sv.rows|
  {
    && now <= now'
    && |sv'.rows| == |sv.rows|
    && (sv.startedAt.Some? ==> sv'.startedAt == sv.startedAt)
    && (sv'.rows[j] == sv.rows[j] || (sv'.rows[j] == Canceled && sv.rows[j] != Completed && sv.rows[j] != Failed))
  }

  lemma OpInvIsStable(sv: Server, now: int, sv': Server, now': int, i: nat, n: nat, c: Cluster, op: Op)
    requires i < |sv.rows| && Rely(sv, now, sv', now', i)
    requires OpInv(sv, now, i, n, c, op)
    ensures OpInv(sv', now', i, n, c, op)
  {
    forall g | g in op.igniters ensures IgniterOk(sv'.startedAt, now', n, g) {
      assert IgniterOk(sv.startedAt, now, n, g);
    }
  }

  // ----- The webapp's side: requests within the discipline of the operators and the admin

  /** The requests an operator makes: never a retry or a cancel, never on a finished row, and RUNNING only once it is time. */
  ghost predicate Disciplined(sv: Server, now: int, i: nat, st: Status)
    requires i < |sv.rows|
  {
    && st != Pending && st != Canceled
    && sv.rows[i] != Completed && sv.rows[i] != Failed
    && (st == Running ==> sv.startedAt.Some? && sv.startedAt.value <= now)
  }

  lemma PutKeepsStartOk(sv: Server, now: int, i: nat, st: Status)
    requires i < |sv.rows| && ServerInv(sv, now) && Disciplined(sv, now, i, st)
    requires Put(sv, now, i, st).Accepted?
    ensures StartOk(Put(sv, now, i, st).server, now)
  {
    var sv' := Put(sv, now, i, st).server;
    PutKeepsBarrierOpen(sv, now, i, st);
    if sv'.startedAt.Some? && sv.startedAt.None? {
      StampIsAhead(sv, now, i, st);
    }
    if sv.startedAt.Some? {
      assert sv.rows[i] != Pending;
    }
  }

  lemma PutKeepsCompletionOk(sv: Server, now: int, i: nat, st: Status)
    requires i < |sv.rows| && ServerInv(sv, now) && Disciplined(sv, now, i, st)
    requires Put(sv, now, i, st).Accepted?
    ensures CompletionOk(Put(sv, now, i, st).server, now)
  {
    var rows := sv.rows[i := st];
    var sv' := Put(sv, now, i, st).server;
    assert !AllAre(sv.rows, Completed) by { assert sv.rows[i] != Completed; }
    if st == Completed {
      assert sv.rows[i] == Running;
      FloorSecondIsClose(now);
    }
  }

  lemma PutKeepsServerInv(sv: Server, now: int, i: nat, st: Status)
    requires i < |sv.rows| && ServerInv(sv, now) && Disciplined(sv, now, i, st)
    requires Put(sv, now, i, st).Accepted?
    ensures ServerInv(Put(sv, now, i, st).server, now)
    ensures forall j | 0 <= j < |sv.rows| && j != i :: Rely(sv, now, Put(sv, now, i, st).server, now, j)
  {
    PutKeepsStartOk(sv, now, i, st);
    PutKeepsCompletionOk(sv, now, i, st);
    PutKeepsFailFastUnlessRetried(sv, now, i, st);
  }

  lemma AdminCancelKeepsServerInv(sv: Server, now: int)
    requires ServerInv(sv, now)
    ensures ServerInv(AdminCancel(sv), now)
    ensures forall j | 0 <= j < |sv.rows| :: Rely(sv, now, AdminCancel(sv), now, j)
  {
    var sv' := AdminCancel(sv);
    if sv' != sv {
      assert Failed !in sv'.rows;
      if k :| 0 <= k < |sv.rows| && sv.rows[k] != Completed {
        assert sv'.rows[k] != Completed;
      }
      assert sv'.rows[0] != Ready;
    }
  }

  // ----- The operator's side

  lemma OwnPutIsDisciplined(l: Local, now: int, i: nat, n: nat)
    requires i < |l.server.rows| && l.op.pc.Putting? && OpInv(l.server, now, i, n, l.cluster, l.op)
    ensures Disciplined(l.server, now, i, l.op.pc.target)
  {
    if l.op.pc.target == Running {
      assert IgniterOk(l.server.startedAt, now, n, l.op.igniters[0]);
    }
  }

  lemma SendKeepsInv(l: Local, now: int, i: nat, n: nat, delivery: Delivery)
    requires i < |l.server.rows| && l.op.pc.Putting?
    requires ServerInv(l.server, now) && OpInv(l.server, now, i, n, l.cluster, l.op)
    ensures var r := DoSend(l, now, i, n, delivery);
            && ServerInv(r.server, now)
            && |r.server.rows| == |l.server.rows|
            && OpInv(r.server, now, i, n, r.cluster, r.op)
            && forall j | 0 <= j < |l.server.rows| && j != i :: Rely(l.server, now, r.server, now, j)
  {
    var target := l.op.pc.target;
    var r := DoSend(l, now, i, n, delivery);
    OwnPutIsDisciplined(l, now, i, n);
    if delivery != RequestLost && Put(l.server, now, i, target).Accepted? {
      PutKeepsServerInv(l.server, now, i, target);
    }
    forall g | g in r.op.igniters ensures IgniterOk(r.server.startedAt, now, n, g) {
      assert IgniterOk(l.server.startedAt, now, n, g);
    }
    if target == Completed && r.server.rows[i] == Completed {
      DoneIsFull(l.cluster, n, l.op.pc.obj.succeeded);
    }
  }

  /** The completion indexes of a Job with `n` completions. */
  ghost function Indexes(n: nat): (r: set<nat>)
    ensures forall k: nat :: k in r <==> k < n
    ensures |r| == n
  {
    if n == 0 then {} else Indexes(n - 1) + {n - 1}
  }

  /** A Job that reports as many succeeded pods as it has indexes has seen every index succeed. */
  lemma DoneIsFull(c: Cluster, n: nat, succeeded: nat)
    requires succeeded == n && succeeded <= |c.done| && forall k | k in c.done :: k < n
    ensures |c.done| == n && c.done == Indexes(n)
  {
    SubsetIsSmaller(c.done, Indexes(n));
  }

  lemma {:induction false} SubsetIsSmaller<T>(a: set<T>, b: set<T>)
    requires a <= b
    ensures |a| <= |b| && (|a| == |b| ==> a == b)
  {
    if a != {} {
      var x :| x in a;
      SubsetIsSmaller(a - {x}, b - {x});
    }
  }

  lemma RouteIsOk(startedAt: Option<int>, row: Status, n: nat, c: Cluster, op: Op, job: Job, obj: KubeJob)
    requires JobOk(startedAt, job) && Linked(op) && obj.succeeded <= |c.done| && c.job.Some?
    requires op.known == {job.status} && !job.status.Terminal()
    ensures PcOk(startedAt, n, c, op.(pc := Route(job, obj, n)))
  {
  }

  lemma FetchKeepsInv(l: Local, now: int, i: nat, n: nat)
    requires i < |l.server.rows| && OpInv(l.server, now, i, n, l.cluster, l.op)
    ensures OpInv(l.server, now, i, n, l.cluster, DoFetch(l, i).op)
  {
  }

  lemma ReadKeepsInv(l: Local, now: int, i: nat, n: nat, found: ReadReply)
    requires i < |l.server.rows| && OpInv(l.server, now, i, n, l.cluster, l.op)
    requires l.op.pc.Fetched? && Observable(l.cluster, found)
    ensures OpInv(l.server, now, i, n, l.cluster, l.op.(pc := AfterRead(l.op.pc.job, found, n)))
  {
    var job := l.op.pc.job;
    if found.Found? && job.status != Canceled {
      RouteIsOk(l.server.startedAt, l.server.rows[i], n, l.cluster, l.op, job, found.obj);
    }
  }

  lemma CreateKeepsInv(l: Local, now: int, i: nat, n: nat, created: CreateReply)
    requires i < |l.server.rows| && OpInv(l.server, now, i, n, l.cluster, l.op)
    requires l.op.pc.Creating?
    ensures var r := DoCreate(l, l.op.pc.job, created, n); OpInv(l.server, now, i, n, r.cluster, r.op)
  {
    var r := DoCreate(l, l.op.pc.job, created, n);
    if created == CreatedAll {
      RouteIsOk(l.server.startedAt, l.server.rows[i], n, r.cluster, l.op.(log := l.op.log + [CreateJob]), l.op.pc.job,
                r.cluster.job.value);
    }
  }

  lemma ForgetKeepsInv(l: Local, now: int, i: nat, n: nat)
    requires i < |l.server.rows| && OpInv(l.server, now, i, n, l.cluster, l.op)
    requires l.op.pc.Forgetting?
    ensures OpInv(l.server, now, i, n, l.cluster, DoForget(l, now).op)
  {
    if l.op.slot.Some? {
      assert IgniterOk(l.server.startedAt, now, n, l.op.igniters[0]);
      assert DoForget(l, now).op.igniters == [l.op.igniters[0].Stop(now)];
    }
  }

  lemma IgniteKeepsInv(l: Local, now: int, i: nat, n: nat, targets: Option<seq<Pod>>)
    requires i < |l.server.rows| && OpInv(l.server, now, i, n, l.cluster, l.op)
    requires l.op.pc.Igniting?
    ensures OpInv(l.server, now, i, n, l.cluster, DoIgnite(l, n, targets).op)
  {
    var op := DoIgnite(l, n, targets).op;
    if op.igniters != l.op.igniters {
      assert l.op.igniters == [];
      var g := NewIgniter(l.op.pc.job.startAt.value, n);
      assert op.igniters == [g];
      assert IgniterOk(l.server.startedAt, now, n, g);
      assert multiset(g.landed) == multiset{};
    }
  }

  lemma SuspendKeepsInv(l: Local, now: int, i: nat, n: nat, reply: SuspendReply)
    requires i < |l.server.rows| && OpInv(l.server, now, i, n, l.cluster, l.op)
    requires l.op.pc.Suspending?
    ensures var r := Do(l, now, i, n, Suspend(reply)); r.server == l.server && OpInv(l.server, now, i, n, r.cluster, r.op)
  {
  }

  lemma LookKeepsInv(l: Local, now: int, i: nat, n: nat, call: Call)
    requires i < |l.server.rows| && OpInv(l.server, now, i, n, l.cluster, l.op)
    requires l.op.pc.Listing? || l.op.pc.Polling? || l.op.pc.Inspecting?
    ensures var r := Do(l, now, i, n, call);
            r.server == l.server && r.cluster == l.cluster && OpInv(l.server, now, i, n, l.cluster, r.op)
  {
    if l.op.slot.Some? {
      assert IgniterOk(l.server.startedAt, now, n, l.op.igniters[0]);
    }
  }

  lemma DoKeepsOpInv(l: Local, now: int, i: nat, n: nat, call: Call)
    requires i < |l.server.rows| && OpInv(l.server, now, i, n, l.cluster, l.op)
    requires !l.op.pc.Putting?
    ensures var r := Do(l, now, i, n, call); r.server == l.server && OpInv(l.server, now, i, n, r.cluster, r.op)
  {
    match l.op.pc
    case Idle => FetchKeepsInv(l, now, i, n);
    case Fetched(_) => if call.Read? && Observable(l.cluster, call.found) { ReadKeepsInv(l, now, i, n, call.found); }
    case Forgetting => ForgetKeepsInv(l, now, i, n);
    case Suspending => if call.Suspend? { SuspendKeepsInv(l, now, i, n, call.suspended); }
    case Creating(_) => if call.Create? { CreateKeepsInv(l, now, i, n, call.created); }
    case Igniting(_, _) => if call.Ignite? { IgniteKeepsInv(l, now, i, n, call.targets); }
    case _ => LookKeepsInv(l, now, i, n, call);
  }

  lemma DoKeepsInv(l: Local, now: int, i: nat, n: nat, call: Call)
    requires i < |l.server.rows|
    requires ServerInv(l.server, now) && OpInv(l.server, now, i, n, l.cluster, l.op)
    ensures var r := Do(l, now, i, n, call);
            && ServerInv(r.server, now)
            && |r.server.rows| == |l.server.rows|
            && OpInv(r.server, now, i, n, r.cluster, r.op)
            && forall j | 0 <= j < |l.server.rows| && j != i :: Rely(l.server, now, r.server, now, j)
  {
    if l.op.pc.Putting? {
      if call.Send? { SendKeepsInv(l, now, i, n, call.delivery); }
    } else {
      DoKeepsOpInv(l, now, i, n, call);
    }
  }

  lemma SparkedIsOk(startedAt: Option<int>, now: int, n: nat, g: Igniter, spark: Spark)
    requires IgniterOk(startedAt, now, n, g) && SparkEnabled(g, now, spark)
    ensures IgniterOk(startedAt, now, n, Sparked(g, spark)) && Sparked(g, spark).canceled == g.canceled
    ensures Sparked(g, spark).landed == if spark.Land? then g.landed + {spark.landing} else g.landed
  {
  }

  lemma SparkKeepsInv(l: Local, now: int, i: nat, n: nat, g: nat, spark: Spark)
    requires i < |l.server.rows|
    requires OpInv(l.server, now, i, n, l.cluster, l.op)
    ensures var r := DoSpark(l, now, g, spark);
            r.server == l.server && OpInv(l.server, now, i, n, r.cluster, r.op)
  {
    var r := DoSpark(l, now, g, spark);
    if r != l {
      var g0 := l.op.igniters[0];
      assert IgniterOk(l.server.startedAt, now, n, g0);
      SparkedIsOk(l.server.startedAt, now, n, g0, spark);
      assert r.op.igniters == [Sparked(g0, spark)];
      if spark.Land? {
        assert r.cluster.unpaused == multiset(r.op.igniters[0].landed);
      }
    }
  }

  lemma PodDoneKeepsInv(sv: Server, now: int, i: nat, n: nat, c: Cluster, op: Op, k: nat)
    requires i < |sv.rows| && OpInv(sv, now, i, n, c, op)
    ensures OpInv(sv, now, i, n, DoPodDone(c, n, k), op)
  {
    var c' := DoPodDone(c, n, k);
    if c' != c {
      assert c.done <= c'.done;
      SubsetIsSmaller(c.done, c'.done);
      assert k !in c.done;
      if sv.rows[i] == Completed {
        DoneIsFull(c, n, n);
      }
    }
  }

  // ----- Every event, every run

  lemma LocalChangeKeepsInv(s: State, i: nat, l: Local)
    requires Inv(s) && i < |s.ops|
    requires ServerInv(l.server, s.now) && |l.server.rows| == |s.server.rows|
    requires OpInv(l.server, s.now, i, s.workers[i], l.cluster, l.op)
    requires forall j | 0 <= j < |s.server.rows| && j != i :: Rely(s.server, s.now, l.server, s.now, j)
    ensures Inv(WithLocal(s, i, l))
  {
    forall j | 0 <= j < |s.ops| && j != i
      ensures OpInv(l.server, s.now, j, s.workers[j], s.clusters[j], s.ops[j])
    {
      OpInvIsStable(s.server, s.now, l.server, s.now, j, s.workers[j], s.clusters[j], s.ops[j]);
    }
  }

  lemma ClusterChangeKeepsInv(s: State, i: nat, c: Cluster)
    requires Inv(s) && i < |s.ops|
    requires OpInv(s.server, s.now, i, s.workers[i], c, s.ops[i])
    ensures Inv(s.(clusters := s.clusters[i := c]))
  {
  }

  lemma GlobalChangeKeepsInv(s: State, sv: Server, now: int)
    requires Inv(s) && ServerInv(sv, now) && |sv.rows| == |s.server.rows|
    requires forall j | 0 <= j < |s.server.rows| :: Rely(s.server, s.now, sv, now, j)
    ensures Inv(s.(server := sv, now := now))
  {
    forall j | 0 <= j < |s.ops|
      ensures OpInv(sv, now, j, s.workers[j], s.clusters[j], s.ops[j])
    {
      OpInvIsStable(s.server, s.now, sv, now, j, s.workers[j], s.clusters[j], s.ops[j]);
    }
  }

  lemma StepKeepsInv(s: State, i: nat, call: Call)
    requires Inv(s) && i < |s.ops|
    ensures Inv(WithLocal(s, i, Do(LocalOf(s, i), s.now, i, s.workers[i], call)))
  {
    DoKeepsInv(LocalOf(s, i), s.now, i, s.workers[i], call);
    LocalChangeKeepsInv(s, i, Do(LocalOf(s, i), s.now, i, s.workers[i], call));
  }

  lemma IgnitionKeepsInv(s: State, i: nat, g: nat, spark: Spark)
    requires Inv(s) && i < |s.ops|
    ensures Inv(WithLocal(s, i, DoSpark(LocalOf(s, i), s.now, g, spark)))
  {
    SparkKeepsInv(LocalOf(s, i), s.now, i, s.workers[i], g, spark);
    LocalChangeKeepsInv(s, i, DoSpark(LocalOf(s, i), s.now, g, spark));
  }

  /** Every event keeps the invariant. */
  lemma ApplyKeepsInv(s: State, e: Event)
    requires Inv(s)
    ensures Inv(Apply(s, e))
  {
    match e
    case Step(i, call) => if i < |s.ops| { StepKeepsInv(s, i, call); }
    case Ignition(i, g, spark) => if i < |s.ops| { IgnitionKeepsInv(s, i, g, spark); }
    case PodDone(i, k) =>
      if i < |s.ops| {
        PodDoneKeepsInv(s.server, s.now, i, s.workers[i], s.clusters[i], s.ops[i], k);
        ClusterChangeKeepsInv(s, i, DoPodDone(s.clusters[i], s.workers[i], k));
      }
    case Kube(i, obj, pods) =>
      if i < |s.ops| {
        assert OpInv(s.server, s.now, i, s.workers[i], s.clusters[i], s.ops[i]);
        ClusterChangeKeepsInv(s, i, DoKube(s.clusters[i], obj, pods));
      }
    case Cancel =>
      AdminCancelKeepsServerInv(s.server, s.now);
      GlobalChangeKeepsInv(s, AdminCancel(s.server), s.now);
    case Tick(d) =>
      GlobalChangeKeepsInv(s, s.server, s.now + d);
  }

  lemma InitHasInv(workers: seq<nat>, now: int)
    requires |workers| > 0
    ensures Inv(Init(workers, now))
  {
    var s := Init(workers, now);
    assert s.server.rows[0] == Pending;
  }

  lemma {:induction false} ExecKeepsInv(s: State, es: seq<Event>)
    requires Inv(s)
    ensures Inv(Exec(s, es))
  {
    if es != [] {
      ExecKeepsInv(s, es[..|es| - 1]);
      ApplyKeepsInv(Exec(s, es[..|es| - 1]), es[|es| - 1]);
    }
  }

  /** Every state of every run that starts fresh, with at least one location, satisfies the invariant. */
  lemma EveryRunHasInv(workers: seq<nat>, now: int, es: seq<Event>)
    requires |workers| > 0
    ensures Inv(Exec(Init(workers, now), es))
  {
    InitHasInv(workers, now);
    ExecKeepsInv(Init(workers, now), es);
  }
}
