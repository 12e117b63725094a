/**
 * The closed system as a step machine: one webapp, one operator per location, and each operator's cluster.
 *
 * A reconcile pass is cut at every access to state that something else can change meanwhile (an API call, a cluster
 * call, the igniter). What happens between two such points is folded into the step before it. An event that is not
 * enabled leaves the state alone, so every sequence of events is an interleaving and every interleaving is one.
 */
module Protocol {
  import opened Statuses
  import opened Server

  // ----- What an operator sees

  /** The fields of the serialized job that the reconciler branches on. */
  datatype Job = Job(status: Status, ready: bool, startAt: Option<int>)

  function Serialize(sv: Server, i: nat): Job
    requires i < |sv.rows|
  {
    Job(sv.rows[i], AllAre(sv.rows, Ready), sv.startedAt)
  }

  datatype JobCondition = JobSuspended | JobComplete | JobFailed | JobFailureTarget

  /** A Kubernetes Job; `ready` is the optional count of ready pods in its status. */
  datatype KubeJob = KubeJob(deleting: bool, suspended: bool, conditions: seq<JobCondition>,
                             ready: Option<nat>, active: nat, succeeded: nat)

  /** What the create call returns, and what the reconciler holds before it has read anything. */
  const NEW_JOB := KubeJob(false, false, [], None, 0, 0)

  const STABILITY_PERIOD: int := 5 * SECOND

  datatype PodCondition = PodCondition(isReadyCondition: bool, isTrue: bool, lastTransition: int)

  datatype Pod = Pod(name: string, conditions: seq<PodCondition>)

  /** The first ready condition that is older than the stability period decides. */
  predicate StableReady(conditions: seq<PodCondition>, now: int) {
    if conditions == [] then false
    else if conditions[0].isReadyCondition && conditions[0].lastTransition + STABILITY_PERIOD < now then conditions[0].isTrue
    else StableReady(conditions[1..], now)
  }

  predicate AllStable(pods: seq<Pod>, now: int) {
    forall k | 0 <= k < |pods| :: StableReady(pods[k].conditions, now)
  }

  /**
   * One location's cluster. `done` are the completion indexes that have ever succeeded and `unpaused` counts, per
   * pod, the requests that told it to start; both are history. Pod k is the pod of completion index k.
   */
  datatype Cluster = Cluster(job: Option<KubeJob>, pods: seq<Pod>, unpaused: multiset<nat>, done: set<nat>)

  // ----- The igniter

  /** Where the goroutine of `Start` is: not yet at its select, blocked in it, gone, past it, or finished. */
  datatype Phase = Spawned | Waiting | Quit | Fired | Joined

  /** `sent` are the pods whose request has left, `landed` those whose request has taken effect. */
  datatype Igniter = Igniter(startAt: int, pods: nat, phase: Phase, canceled: bool, error: bool,
                             sent: set<nat>, landed: set<nat>) {
    predicate Started() {
      phase.Fired? || phase.Joined?
    }

    /** Cancels the context. A goroutine blocked in the select before the start can only take the `Done` case. */
    function Stop(now: int): Igniter {
      this.(canceled := true, phase := if phase.Waiting? && now < startAt then Quit else phase)
    }
  }

  function NewIgniter(startAt: int, pods: nat): Igniter {
    Igniter(startAt, pods, Spawned, false, false, {}, {})
  }

  datatype Spark = Arm | Fire | Patch(pod: nat) | Land(landing: nat) | Join(failed: bool)

  // ----- The operator

  /** Changes an operator asks of the outside: status writes it sends, and writes to Kubernetes objects. */
  datatype Write = PutStatus(status: Status) | CreateJob | SuspendJob

  datatype PC =
    | Idle
    | Fetched(job: Job)
    | Suspending
    | Forgetting
    | Creating(job: Job)
    | Putting(job: Job, obj: KubeJob, target: Status)
    | Listing(job: Job, obj: KubeJob)
    | Igniting(job: Job, obj: KubeJob)
    | Polling(job: Job, obj: KubeJob)
    | Inspecting(job: Job, obj: KubeJob)

  /**
   * `igniters` are all igniters ever made and `slot` is the map entry of the job's name. `known` (history) is what the
   * operator's own exchanges with the server leave possible for its row, cancellation apart; `log` (history) are its writes.
   */
  datatype Op = Op(pc: PC, igniters: seq<Igniter>, slot: Option<nat>, known: set<Status>, log: seq<Write>)

  datatype ReadReply = ReadError | Missing | Found(obj: KubeJob)
  datatype SuspendReply = Suspended | Gone | Refused
  datatype CreateReply = CreateError | CreatedOnly | CreatedAll
  datatype Delivery = Delivered | RequestLost | ResponseLost

  /** One access of a reconcile pass, with what the outside chooses for it. */
  datatype Call =
    | Fetch(ok: bool)
    | Read(found: ReadReply)
    | Suspend(suspended: SuspendReply)
    | Forget
    | Create(created: CreateReply)
    | Send(delivery: Delivery)
    | List(listed: Option<seq<Pod>>)
    | Ignite(targets: Option<seq<Pod>>)
    | Poll
    | Inspect

  /** The snapshot of the job that a pass carries with it. */
  function JobOf(pc: PC): Option<Job> {
    match pc
    case Fetched(job) => Some(job)
    case Creating(job) => Some(job)
    case Putting(job, _, _) => Some(job)
    case Listing(job, _) => Some(job)
    case Igniting(job, _) => Some(job)
    case Polling(job, _) => Some(job)
    case Inspecting(job, _) => Some(job)
    case _ => None
  }

  // ----- Local control flow between two accesses

  /** The tail of a pass for a running job. */
  function AfterReady(job: Job, obj: KubeJob, n: nat): PC {
    if job.status == Running && obj.active == 0
    then Putting(job, obj, if obj.succeeded == n then Completed else Failed)
    else Idle
  }

  function AfterPending(job: Job, obj: KubeJob, n: nat): PC {
    match job.status
    case Queued => if obj.ready == Some(n) then Listing(job, obj) else Idle
    case Ready => Igniting(job, obj)
    case _ => AfterReady(job, obj, n)
  }

  function Route(job: Job, obj: KubeJob, n: nat): PC {
    if JobFailed in obj.conditions then Putting(job, obj, Failed)
    else if job.status == Pending then Putting(job, obj, Queued)
    else AfterPending(job, obj, n)
  }

  function AfterRead(job: Job, found: ReadReply, n: nat): PC {
    match found
    case ReadError => Idle
    case Missing =>
      if job.status == Canceled then Forgetting
      else if job.status == Pending then Creating(job)
      else Putting(job, NEW_JOB, Failed)
    case Found(obj) =>
      if obj.deleting then Idle
      else if job.status == Canceled then (if obj.suspended then Forgetting else Suspending)
      else Route(job, obj, n)
  }

  /** `job` is the response when the server answered, and the locally changed job otherwise. */
  function AfterPut(job: Job, obj: KubeJob, target: Status, ok: bool, n: nat): PC {
    match target
    case Running => Inspecting(job, obj)
    case Queued => if ok then AfterPending(job, obj, n) else Idle
    case Ready => if ok then AfterPending(job, obj, n) else Idle
    case _ => Idle
  }

  // ----- Steps of one operator

  /** The part of the state one operator's steps touch. */
  datatype Local = Local(server: Server, cluster: Cluster, op: Op)

  function DoFetch(l: Local, i: nat): Local
    requires i < |l.server.rows|
  {
    var job := Serialize(l.server, i);
    var pc := if job.status == Completed || job.status == Failed then Forgetting else Fetched(job);
    l.(op := l.op.(pc := pc, known := {job.status}))
  }

  predicate Observable(c: Cluster, found: ReadReply) {
    found.Found? ==> c.job.Some? && found.obj.succeeded <= |c.done|
  }

  function DoForget(l: Local, now: int): Local {
    var op := l.op;
    var igniters := if op.slot.Some? && op.slot.value < |op.igniters|
                    then op.igniters[op.slot.value := op.igniters[op.slot.value].Stop(now)] else op.igniters;
    l.(op := op.(pc := Idle, igniters := igniters, slot := None))
  }

  function DoCreate(l: Local, job: Job, created: CreateReply, n: nat): Local {
    var op := l.op.(log := l.op.log + [CreateJob]);
    if created == CreateError then l.(op := op.(pc := Putting(job, NEW_JOB, Failed)))
    else
      var obj := if l.cluster.job.Some? then l.cluster.job.value else NEW_JOB;
      l.(cluster := l.cluster.(job := Some(obj)),
         op := op.(pc := if created == CreatedOnly then Idle else Route(job, obj, n)))
  }

  function DoSend(l: Local, now: int, i: nat, n: nat, delivery: Delivery): Local
    requires i < |l.server.rows| && l.op.pc.Putting?
  {
    var Putting(job, obj, target) := l.op.pc;
    var op := l.op.(log := l.op.log + [PutStatus(target)]);
    var reply := if delivery == RequestLost then Rejected else Put(l.server, now, i, target);
    var server := if reply.Accepted? then reply.server else l.server;
    var ok := delivery == Delivered && reply.Accepted?;
    var known := if ok then {target} else if delivery == Delivered then op.known else op.known + {target};
    var after := if ok && i < |server.rows| then Serialize(server, i) else job.(status := target);
    Local(server, l.cluster, op.(pc := AfterPut(after, obj, target, ok, n), known := known))
  }

  function DoIgnite(l: Local, n: nat, targets: Option<seq<Pod>>): Local
    requires l.op.pc.Igniting?
  {
    var Igniting(job, obj) := l.op.pc;
    var op := l.op;
    if op.slot.Some? then l.(op := op.(pc := Polling(job, obj)))
    else if !job.ready || job.startAt.None? || targets.None? || |targets.value| != n then l.(op := op.(pc := Idle))
    else
      l.(op := op.(pc := Polling(job, obj),
                   igniters := op.igniters + [NewIgniter(job.startAt.value, n)], slot := Some(|op.igniters|)))
  }

  /** One access of operator `i`, whose location has `n` workers, at time `now`. */
  function Do(l: Local, now: int, i: nat, n: nat, call: Call): Local
    requires i < |l.server.rows|
  {
    var op := l.op;
    match op.pc
    case Idle => if call.Fetch? && call.ok then DoFetch(l, i) else l
    case Fetched(job) =>
      if call.Read? && Observable(l.cluster, call.found) then l.(op := op.(pc := AfterRead(job, call.found, n))) else l
    case Suspending =>
      if !call.Suspend? then l
      else
        var cluster := if call.suspended == Suspended && l.cluster.job.Some?
                       then l.cluster.(job := Some(l.cluster.job.value.(suspended := true))) else l.cluster;
        l.(cluster := cluster, op := op.(pc := Forgetting, log := op.log + [SuspendJob]))
    case Forgetting => if call.Forget? then DoForget(l, now) else l
    case Creating(job) => if call.Create? then DoCreate(l, job, call.created, n) else l
    case Putting(_, _, _) => if call.Send? then DoSend(l, now, i, n, call.delivery) else l
    case Listing(job, obj) =>
      if !call.List? then l
      else if call.listed.Some? && AllStable(call.listed.value, now) then l.(op := op.(pc := Putting(job, obj, Ready)))
      else l.(op := op.(pc := Idle))
    case Igniting(_, _) => if call.Ignite? then DoIgnite(l, n, call.targets) else l
    case Polling(job, obj) =>
      if !call.Poll? || op.slot.None? || op.slot.value >= |op.igniters| then l
      else
        var g := op.igniters[op.slot.value];
        l.(op := op.(pc := if g.Started() && !g.error then Putting(job, obj, Running) else Inspecting(job, obj)))
    case Inspecting(job, obj) =>
      if !call.Inspect? || op.slot.None? || op.slot.value >= |op.igniters| then l
      else
        var g := op.igniters[op.slot.value];
        l.(op := op.(pc := if g.error then Putting(job, obj, Failed) else AfterReady(job, obj, n)))
  }

  // ----- Steps of an igniter's goroutines

  /**
   * After a cancel the select can take its timer case once that is ready too, and its `Done` case at any time. A request is
   * sent only under a live context; once sent it may reach its pod at any later time. Waiting for the group succeeds only
   * when all were sent.
   */
  predicate SparkEnabled(g: Igniter, now: int, spark: Spark) {
    match spark
    case Arm => g.phase.Spawned? || (g.phase.Waiting? && g.canceled)
    case Fire => (g.phase.Spawned? || g.phase.Waiting?) && g.startAt <= now
    case Patch(k) => g.phase.Fired? && !g.canceled && k < g.pods && k !in g.sent
    case Land(k) => k in g.sent && k !in g.landed
    case Join(failed) => g.phase.Fired? && (failed || forall k | 0 <= k < g.pods :: k in g.sent)
  }

  function Sparked(g: Igniter, spark: Spark): Igniter {
    match spark
    case Arm => g.(phase := if g.canceled then Quit else Waiting)
    case Fire => g.(phase := Fired)
    case Patch(k) => g.(sent := g.sent + {k})
    case Land(k) => g.(landed := g.landed + {k})
    case Join(failed) => g.(phase := Joined, error := failed)
  }

  function DoSpark(l: Local, now: int, g: nat, spark: Spark): Local {
    if g < |l.op.igniters| && SparkEnabled(l.op.igniters[g], now, spark) then
      var op := l.op.(igniters := l.op.igniters[g := Sparked(l.op.igniters[g], spark)]);
      var cluster := if spark.Land? then l.cluster.(unpaused := l.cluster.unpaused + multiset{spark.landing}) else l.cluster;
      l.(op := op, cluster := cluster)
    else l
  }

  // ----- The whole system

  datatype State = State(workers: seq<nat>, now: int, server: Server, clusters: seq<Cluster>, ops: seq<Op>)

  datatype Event =
    | Step(i: nat, call: Call)
    | Ignition(i: nat, g: nat, spark: Spark)
    | PodDone(i: nat, index: nat)
    | Kube(i: nat, obj: KubeJob, pods: seq<Pod>)
    | Cancel
    | Tick(elapsed: nat)

  ghost predicate WellFormed(s: State) {
    |s.workers| == |s.server.rows| == |s.clusters| == |s.ops|
  }

  function LocalOf(s: State, i: nat): Local
    requires i < |s.clusters| && i < |s.ops|
  {
    Local(s.server, s.clusters[i], s.ops[i])
  }

  function WithLocal(s: State, i: nat, l: Local): State
    requires i < |s.clusters| && i < |s.ops|
  {
    s.(server := l.server, clusters := s.clusters[i := l.cluster], ops := s.ops[i := l.op])
  }

  /** A paused pod does not finish, and an index succeeds only in a Job that has it. */
  function DoPodDone(c: Cluster, n: nat, k: nat): Cluster {
    if c.job.Some? && k < n && k in c.unpaused then c.(done := c.done + {k}) else c
  }

  /** The cluster reports anything about the Job and its pods, except indexes that never succeeded. */
  function DoKube(c: Cluster, obj: KubeJob, pods: seq<Pod>): Cluster {
    if c.job.Some? && obj.succeeded <= |c.done| then c.(job := Some(obj), pods := pods) else c
  }

  function Apply(s: State, e: Event): State
    requires WellFormed(s)
  {
    match e
    case Step(i, call) =>
      if i < |s.ops| then WithLocal(s, i, Do(LocalOf(s, i), s.now, i, s.workers[i], call)) else s
    case Ignition(i, g, spark) =>
      if i < |s.ops| then WithLocal(s, i, DoSpark(LocalOf(s, i), s.now, g, spark)) else s
    case PodDone(i, k) =>
      if i < |s.ops| then s.(clusters := s.clusters[i := DoPodDone(s.clusters[i], s.workers[i], k)]) else s
    case Kube(i, obj, pods) =>
      if i < |s.ops| then s.(clusters := s.clusters[i := DoKube(s.clusters[i], obj, pods)]) else s
    case Cancel => s.(server := AdminCancel(s.server))
    case Tick(d) => s.(now := s.now + d)
  }

  lemma ApplyKeepsWellFormed(s: State, e: Event)
    requires WellFormed(s)
    ensures WellFormed(Apply(s, e)) && Apply(s, e).workers == s.workers && s.now <= Apply(s, e).now
  {
  }

  /** The state after the events, in order. */
  function Exec(s: State, es: seq<Event>): (r: State)
    requires WellFormed(s)
    ensures WellFormed(r) && r.workers == s.workers && s.now <= r.now
  {
    if es == [] then s
    else
      var before := Exec(s, es[..|es| - 1]);
      ApplyKeepsWellFormed(before, es[|es| - 1]);
      Apply(before, es[|es| - 1])
  }

  /** A started, fresh run: every location pending, no stamps, nothing in any cluster. */
  function Init(workers: seq<nat>, now: int): (s: State)
    ensures WellFormed(s)
  {
    State(workers, now,
          Server(seq(|workers|, _ => Pending), None, None),
          seq(|workers|, _ => Cluster(None, [], multiset{}, {})),
          seq(|workers|, _ => Op(Idle, [], None, {}, [])))
  }

  lemma ExecSnoc(s: State, es: seq<Event>, e: Event)
    requires WellFormed(s)
    ensures Exec(s, es + [e]) == Apply(Exec(s, es), e)
  {
    assert (es + [e])[..|es|] == es;
  }

  lemma ExecOne(s: State, e: Event)
    requires WellFormed(s)
    ensures Exec(s, [e]) == Apply(s, e)
  {
    assert [] + [e] == [e];
    ExecSnoc(s, [], e);
  }

  lemma {:induction false} ExecConcat(s: State, es: seq<Event>, fs: seq<Event>)
    requires WellFormed(s)
    ensures Exec(s, es + fs) == Exec(Exec(s, es), fs)
  {
    if fs == [] {
      assert es + fs == es;
    } else {
      var last := |fs| - 1;
      assert es + fs == (es + fs[..last]) + [fs[last]];
      ExecSnoc(s, es + fs[..last], fs[last]);
      ExecConcat(s, es, fs[..last]);
    }
  }
}
