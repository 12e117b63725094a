/**
 * The operator's reconcile loop as code. Before each of its accesses to shared state any number of steps of everything
 * else may happen; each access is one event of the machine, and the code's position and locals agree with its `pc`.
 */
module Reconciler {
  import opened Statuses
  import opened Server
  import opened Protocol
  import opened Invariant
  import opened Safety
  import opened PickUp
  import opened LevelTriggered
  import Decisions
  import World

  /** How many passes of operator `i` have begun: its fetches, answered or not. */
  ghost function Fetches(es: seq<Event>, i: nat): nat {
    if es == [] then 0
    else Fetches(es[..|es| - 1], i) + if es[|es| - 1].Step? && es[|es| - 1].i == i && es[|es| - 1].call.Fetch? then 1 else 0
  }

  /** The last access of operator `i`. */
  ghost function LastCall(es: seq<Event>, i: nat): Option<Call> {
    if es == [] then None
    else if es[|es| - 1].Step? && es[|es| - 1].i == i then Some(es[|es| - 1].call)
    else LastCall(es[..|es| - 1], i)
  }

  /** Its access before that. */
  ghost function PrevCall(es: seq<Event>, i: nat): Option<Call> {
    if es == [] then None
    else if es[|es| - 1].Step? && es[|es| - 1].i == i then LastCall(es[..|es| - 1], i)
    else PrevCall(es[..|es| - 1], i)
  }

  lemma OneMoreEvent(es: seq<Event>, e: Event, i: nat)
    ensures Fetches(es + [e], i) == Fetches(es, i) + if e.Step? && e.i == i && e.call.Fetch? then 1 else 0
    ensures LastCall(es + [e], i) == if e.Step? && e.i == i then Some(e.call) else LastCall(es, i)
    ensures PrevCall(es + [e], i) == if e.Step? && e.i == i then LastCall(es, i) else PrevCall(es, i)
  {
    assert (es + [e])[..|es|] == es;
  }

  lemma {:induction false} OthersDoNotFetch(es: seq<Event>, fs: seq<Event>, i: nat)
    requires World.OthersOnly(World.PassOf(i), fs)
    ensures Fetches(es + fs, i) == Fetches(es, i) && LastCall(es + fs, i) == LastCall(es, i)
    ensures PrevCall(es + fs, i) == PrevCall(es, i)
  {
    if fs == [] {
      assert es + fs == es;
    } else {
      var last := |fs| - 1;
      assert !World.OwnStep(World.PassOf(i), fs[last]);
      OthersDoNotFetch(es, fs[..last], i);
      assert es + fs == (es + fs[..last]) + [fs[last]];
      OneMoreEvent(es + fs[..last], fs[last], i);
    }
  }

  /** The history has gone on, with `n` fetches of operator `i`. */
  ghost predicate Grew(before: seq<Event>, after: seq<Event>, i: nat, n: nat) {
    before <= after && Fetches(after, i) == Fetches(before, i) + n
  }

  /** A row that is final at some point of a run is final from then on. */
  lemma FinalStaysFinal(workers: seq<nat>, now: int, before: seq<Event>, after: seq<Event>, i: nat)
    requires i < |workers| && before <= after
    requires Exec(Init(workers, now), before).server.rows[i].Terminal()
    ensures Exec(Init(workers, now), after).server.rows[i].Terminal()
  {
    var s, es := Exec(Init(workers, now), before), after[|before|..];
    EveryRunHasInv(workers, now, before);
    assert before + es == after;
    ExecConcat(Init(workers, now), before, es);
    RanksNeverFall(s, es, i);
  }

  /** The operator after an exchange: `ok` if it got a response, which `after` then is. */
  function AfterExchange(op: Op, obj: KubeJob, target: Status, delivery: Delivery, ok: bool, after: Job, n: nat): Op {
    var known := if ok then {target} else if delivery == Delivered then op.known else op.known + {target};
    op.(pc := AfterPut(after, obj, target, ok, n), known := known, log := op.log + [PutStatus(target)])
  }

  /** What the machine's send step comes to, given what the webapp did with the request. */
  lemma SendOutcome(l: Local, now: int, i: nat, n: nat, delivery: Delivery, server: Server, ok: bool, after: Job)
    requires i < |l.server.rows| && l.op.pc.Putting?
    requires var put := Put(l.server, now, i, l.op.pc.target);
             && server == (if delivery != RequestLost && put.Accepted? then put.server else l.server)
             && (ok <==> delivery == Delivered && put.Accepted?)
    requires i < |server.rows| && after == if ok then Serialize(server, i) else l.op.pc.job.(status := l.op.pc.target)
    ensures Do(l, now, i, n, Send(delivery)) ==
            Local(server, l.cluster, AfterExchange(l.op, l.op.pc.obj, l.op.pc.target, delivery, ok, after, n))
  {
  }

  lemma StepIsLocal(s: State, i: nat, call: Call)
    requires WellFormed(s) && i < |s.ops|
    ensures var t := Apply(s, Step(i, call));
            && LocalOf(t, i) == Do(LocalOf(s, i), s.now, i, s.workers[i], call) && t.workers == s.workers && t.now == s.now
            && t == WithLocal(s, i, LocalOf(t, i))
  {
  }

  lemma PollStep(l: Local, now: int, i: nat, n: nat, g: Igniter)
    requires Calm(l, i) && l.op.pc.Polling? && g == l.op.igniters[l.op.slot.value]
    ensures var r := Do(l, now, i, n, Poll);
            && r.op.slot == l.op.slot
            && r.op.pc == if g.Started() && !g.error then Putting(l.op.pc.job, l.op.pc.obj, Running)
                          else Inspecting(l.op.pc.job, l.op.pc.obj)
    ensures NextCall(l) == Poll
  {
  }

  lemma InspectStep(l: Local, now: int, i: nat, n: nat, g: Igniter)
    requires Calm(l, i) && l.op.pc.Inspecting? && g == l.op.igniters[l.op.slot.value]
    ensures Do(l, now, i, n, Inspect).op.pc ==
            if g.error then Putting(l.op.pc.job, l.op.pc.obj, Failed) else AfterReady(l.op.pc.job, l.op.pc.obj, n)
    ensures NextCall(l) == Inspect
  {
  }

  class Reconciler {
    const world: World.World
    const me: nat

    constructor (world: World.World, me: nat)
      ensures this.world == world && this.me == me
    {
      this.world, this.me := world, me;
    }

    ghost predicate At(pc: PC)
      reads world, world.run
    {
      world.Valid() && me < |world.workers| && world.ops[me].pc == pc
    }

    /** The length of the job's assigned segments. */
    function Workers(): nat
      requires me < |world.workers|
    {
      world.workers[me]
    }

    ghost function Log(): seq<Write>
      reads world
    {
      if me < |world.ops| then world.ops[me].log else []
    }

    ghost function Known(): set<Status>
      reads world
    {
      if me < |world.ops| then world.ops[me].known else {}
    }

    /**
     * What the pass returns, judged by its last access: an error if that was not answered, if the igniter was refused, if
     * not all objects were created, if the suspension was refused by a Job that is there, or if a write other than a
     * failure report was lost or refused; otherwise none.
     */
    ghost predicate Verdict(ok: bool)
      reads world
    {
      var last := LastCall(world.history, me);
      last.Some? &&
      match last.value
      case Fetch(answered) => !answered && !ok
      case Read(found) => ok <==> !found.ReadError?
      case List(listed) => ok <==> listed.Some?
      case Create(_) => !ok
      case Ignite(_) => !ok
      case Inspect => ok
      case Send(_) =>
        Log() != [] && Log()[|Log()| - 1].PutStatus? &&
        var target := Log()[|Log()| - 1].status;
        if Known() == {target} then ok else target == Failed || !ok
      case Forget => ok <==> PrevCall(world.history, me) != Some(Suspend(Refused))
      case _ => false
    }

    ghost function Here(): Local
      requires world.Valid() && me < |world.workers|
      reads world, world.run
    {
      LocalOf(world.Model(), me)
    }

    lemma IsCalm()
      requires world.Valid() && me < |world.workers|
      ensures Calm(Here(), me)
    {
      world.HasInv();
      var s := world.Model();
      assert OpInv(s.server, s.now, me, s.workers[me], s.clusters[me], s.ops[me]);
    }

    /** Where the pass ends if nothing else moves from here on. */
    ghost function Rest(): Local
      requires world.Valid() && me < |world.workers|
      reads world, world.run
    {
      IsCalm();
      Finish(Here(), world.now, me, Workers())
    }

    // ----- Interference, and plain accesses

    method Yield()
      requires world.Valid() && me < |world.workers|
      modifies world, world.run
      ensures Grew(old(world.history), world.history, me, 0)
      ensures LastCall(world.history, me) == old(LastCall(world.history, me))
      ensures world.Valid()
      ensures var op, before := world.ops[me], old(world.ops[me]);
              op.pc == before.pc && op.slot == before.slot && op.known == before.known && op.log == before.log &&
              SameContexts(op.igniters, before.igniters)
      ensures world.quiet ==> world.Model() == old(world.Model())
    {
      ghost var s, history := world.Model(), world.history;
      ghost var es := world.Interfere(World.PassOf(me));
      OthersDoNotFetch(history, es, me);
      assert AllForeign(es, me) by {
        forall k | 0 <= k < |es| ensures Foreign(es[k], me) {
          assert !World.OwnStep(World.PassOf(me), es[k]);
        }
      }
      ForeignEventsKeepThePass(s, es, me);
    }

    method Access(call: Call)
      requires world.Valid() && me < |world.workers| && world.ops[me].pc != Idle && !call.Fetch?
      modifies world, world.run
      ensures Grew(old(world.history), world.history, me, 0)
      ensures LastCall(world.history, me) == Some(call)
      ensures world.Valid() && Here() == Do(old(Here()), old(world.now), me, Workers(), call) && world.now == old(world.now)
      ensures call == NextCall(old(Here())) ==> Rest() == old(Rest())
    {
      IsCalm();
      ghost var s, l := world.Model(), Here();
      OneMoreEvent(world.history, Step(me, call), me);
      StepIsLocal(s, me, call);
      world.Happen(Step(me, call));
      IsCalm();
      if call == NextCall(l) {
        PassAdvances(l, world.now, me, Workers());
      }
    }

    /** Stores what an access made of the operator, and enters the access, which the code has carried out itself, into the history. */
    method Store(ghost s: State, ghost l: Local, op: Op, ghost call: Call)
      requires me < |world.workers| && WellFormed(s) && s.workers == world.workers
      requires s == Exec(Init(world.workers, world.begun), world.history)
      requires world.now == s.now && world.clusters == s.clusters && world.ops == s.ops
      requires l == LocalOf(s, me) && l.op.pc != Idle && Calm(l, me) && !call.Fetch?
      requires Do(l, s.now, me, s.workers[me], call) == Local(world.run.Model(), l.cluster, op)
      modifies world`ops, world`history
      ensures Grew(old(world.history), world.history, me, 0)
      ensures PrevCall(world.history, me) == old(LastCall(world.history, me))
      ensures LastCall(world.history, me) == Some(call)
      ensures world.Valid() && world.ops[me] == op && Here() == Do(l, s.now, me, Workers(), call)
      ensures call == NextCall(l) ==> Rest() == Finish(l, s.now, me, Workers())
    {
      ExecSnoc(Init(world.workers, world.begun), world.history, Step(me, call));
      OneMoreEvent(world.history, Step(me, call), me);
      StepIsLocal(s, me, call);
      world.ops := world.ops[me := op];
      world.history := world.history + [Step(me, call)];
      assert world.Model() == Apply(s, Step(me, call));
      IsCalm();
      if call == NextCall(l) {
        PassAdvances(l, s.now, me, Workers());
      }
    }

    // ----- The webapp's API

    /** The fetch itself, answered or not. */
    method Fetch(answered: bool) returns (job: Option<Job>)
      requires At(Idle)
      modifies world, world.run
      ensures Grew(old(world.history), world.history, me, 1)
      ensures LastCall(world.history, me) == Some(Protocol.Fetch(answered))
      ensures world.Valid() && Here() == Do(old(Here()), old(world.now), me, Workers(), Protocol.Fetch(answered))
      ensures job == (if answered then Some(Serialize(world.run.Model(), me)) else None) && world.now == old(world.now)
      ensures answered ==> Calm(old(Here()), me) && Rest() == Pass(old(Here()), world.now, me, Workers())
    {
      IsCalm();
      job := if answered then Some(Serialize(world.run.Model(), me)) else None;
      OneMoreEvent(world.history, Step(me, Protocol.Fetch(answered)), me);
      world.Happen(Step(me, Protocol.Fetch(answered)));
      IsCalm();
    }

    method GetJob() returns (job: Option<Job>)
      requires At(Idle)
      modifies world, world.run
      ensures Grew(old(world.history), world.history, me, 1)
      ensures LastCall(world.history, me) == Some(Protocol.Fetch(job.Some?)) && Log() == old(Log())
      ensures job.None? ==> At(Idle) && !world.quiet
      ensures job.Some? ==>
                At(if job.value.status == Completed || job.value.status == Failed then Forgetting else Fetched(job.value))
      ensures job.Some? ==> world.Valid() && job.value.status == world.run.rows[me]
      ensures world.ops[me].slot == old(world.ops[me].slot)
      ensures SameContexts(world.ops[me].igniters, old(world.ops[me].igniters))
      ensures world.quiet ==>
                world.Valid() && world.now == old(world.now) && Calm(old(Here()), me) &&
                Rest() == Pass(old(Here()), world.now, me, Workers())
    {
      Yield();
      var answered: bool := *;
      job := Fetch(answered || world.quiet);
    }

    /** A status that the operator sets out to write is not among those it takes to be possible. */
    lemma TargetIsNew(target: Status)
      requires world.Valid() && me < |world.workers| && world.ops[me].pc.Putting? && world.ops[me].pc.target == target
      ensures target !in world.ops[me].known && world.ops[me].known != {}
    {
      world.HasInv();
      var s := world.Model();
      assert OpInv(s.server, s.now, me, s.workers[me], s.clusters[me], s.ops[me]);
    }

    /** What becomes of the request and of its response: the request may be lost, and so may the response. */
    method Request(job: Job, target: Status, delivery: Delivery) returns (ok: bool, after: Job)
      requires world.Valid() && me < |world.workers|
      modifies world.run
      ensures var put := Put(old(world.run.Model()), world.now, me, target);
              && (ok <==> delivery == Delivered && put.Accepted?)
              && world.run.Model() == (if delivery != RequestLost && put.Accepted? then put.server else old(world.run.Model()))
      ensures |world.run.rows| == |old(world.run.rows)|
      ensures after == (if ok then Serialize(world.run.Model(), me) else job.(status := target)) && after.status == target
    {
      var accepted := false;
      if delivery != RequestLost {
        accepted := world.run.HandlePut(me, target, world.now);
      }
      ok := delivery == Delivered && accepted;
      after := if ok then Serialize(world.run.Model(), me) else job.(status := target);
    }

    /** The exchange, as one step of the machine. */
    method Exchange(job: Job, obj: KubeJob, target: Status, delivery: Delivery) returns (ok: bool, after: Job)
      requires At(Putting(job, obj, target))
      modifies world, world.run
      ensures Grew(old(world.history), world.history, me, 0)
      ensures LastCall(world.history, me).Some? && LastCall(world.history, me).value.Send?
      ensures Log() == old(Log()) + [PutStatus(target)] && (ok <==> Known() == {target})
      ensures At(AfterPut(after, obj, target, ok, Workers()))
      ensures after.status == target && (!ok ==> after == job.(status := target))
      ensures Here() == Do(old(Here()), old(world.now), me, Workers(), Send(delivery)) && world.now == old(world.now)
      ensures delivery == Delivered ==> Rest() == old(Rest())
    {
      IsCalm();
      TargetIsNew(target);
      ghost var s, l := world.Model(), Here();
      assert NextCall(l) == Send(Delivered) && Rest() == Finish(l, s.now, me, Workers());
      ok, after := Request(job, target, delivery);
      var op := AfterExchange(world.ops[me], obj, target, delivery, ok, after, Workers());
      assert Do(l, s.now, me, Workers(), Send(delivery)) == Local(world.run.Model(), l.cluster, op) by {
        SendOutcome(l, s.now, me, Workers(), delivery, world.run.Model(), ok, after);
      }
      Store(s, l, op, Send(delivery));
    }

    /** Sends the job with its status changed. The job becomes the response, or keeps the changed status on an error. */
    method UpdateStatus(job: Job, obj: KubeJob, target: Status) returns (ok: bool, after: Job)
      requires At(Putting(job, obj, target))
      modifies world, world.run
      ensures Grew(old(world.history), world.history, me, 0)
      ensures LastCall(world.history, me).Some? && LastCall(world.history, me).value.Send?
      ensures Log() == old(Log()) + [PutStatus(target)] && (ok <==> Known() == {target})
      ensures At(AfterPut(after, obj, target, ok, Workers()))
      ensures after.status == target && (!ok ==> after == job.(status := target))
      ensures world.quiet ==> Rest() == old(Rest()) && world.now == old(world.now)
    {
      Yield();
      var delivery: Delivery := *;
      if world.quiet { delivery := Delivered; }
      ok, after := Exchange(job, obj, target, delivery);
    }

    // ----- The cluster's API

    method GetKubeJob(ghost job: Job) returns (found: ReadReply)
      requires At(Fetched(job))
      modifies world, world.run
      ensures Grew(old(world.history), world.history, me, 0)
      ensures LastCall(world.history, me) == Some(Read(found)) && Log() == old(Log())
      ensures At(AfterRead(job, found, Workers()))
      ensures world.ops[me].slot == old(world.ops[me].slot)
      ensures SameContexts(world.ops[me].igniters, old(world.ops[me].igniters))
      ensures world.quiet ==> Rest() == old(Rest()) && world.now == old(world.now)
    {
      Yield();
      found := *;
      if world.quiet {
        found := if world.clusters[me].job.None? then Missing else Found(world.clusters[me].job.value);
        IsCalm();
      } else if !Observable(world.clusters[me], found) {
        found := ReadError;
      }
      Access(Read(found));
    }

    /** Asks for the suspension. */
    method SuspendKubeJob() returns (reply: SuspendReply)
      requires At(Suspending)
      modifies world, world.run
      ensures Grew(old(world.history), world.history, me, 0)
      ensures LastCall(world.history, me) == Some(Suspend(reply)) && Log() == old(Log()) + [SuspendJob]
      ensures At(Forgetting)
      ensures world.quiet ==> reply == Suspended && Rest() == old(Rest()) && world.now == old(world.now)
    {
      Yield();
      reply := *;
      if world.quiet { reply := Suspended; }
      Access(Suspend(reply));
    }

    /** Creates the Job and the objects beside it. */
    method SyncKubeJob(ghost job: Job) returns (created: CreateReply, obj: KubeJob)
      requires At(Creating(job))
      modifies world, world.run
      ensures Grew(old(world.history), world.history, me, 0)
      ensures LastCall(world.history, me) == Some(Create(created)) && Log() == old(Log()) + [CreateJob]
      ensures At(match created
                 case CreateError => Putting(job, NEW_JOB, Failed)
                 case CreatedOnly => Idle
                 case CreatedAll => Route(job, obj, Workers()))
      ensures world.quiet ==> Rest() == old(Rest()) && world.now == old(world.now)
    {
      Yield();
      created := *;
      if world.quiet { created := CreatedAll; }
      obj := if world.clusters[me].job.Some? then world.clusters[me].job.value else NEW_JOB;
      Access(Create(created));
    }

    /** The list call itself: an error, or anything that bears the Job's label. */
    method ListPods() returns (pods: Option<seq<Pod>>)
      requires world.Valid() && me < |world.workers|
      ensures world.quiet ==> pods == Some(world.clusters[me].pods)
    {
      pods := *;
      if world.quiet { pods := Some(world.clusters[me].pods); }
    }

    /** Lists the pods; what they are and the time are those of the call. */
    method GetPods(ghost job: Job, ghost obj: KubeJob) returns (pods: Option<seq<Pod>>, now: int)
      requires At(Listing(job, obj))
      modifies world, world.run
      ensures Grew(old(world.history), world.history, me, 0)
      ensures LastCall(world.history, me) == Some(List(pods)) && Log() == old(Log())
      ensures At(if pods.Some? && AllStable(pods.value, now) then Putting(job, obj, Ready) else Idle)
      ensures world.quiet ==> Rest() == old(Rest()) && world.now == old(world.now)
    {
      Yield();
      pods := ListPods();
      now := world.now;
      Access(List(pods));
    }

    static method HasCondition(obj: KubeJob, condition: JobCondition) returns (found: bool)
      ensures found <==> condition in obj.conditions
    {
      for k := 0 to |obj.conditions|
        invariant forall j | 0 <= j < k :: obj.conditions[j] != condition
      {
        if obj.conditions[k] == condition {
          return true;
        }
      }
      found := false;
    }

    static method IsPodStableReady(pod: Pod, now: int) returns (stable: bool)
      ensures stable == StableReady(pod.conditions, now)
    {
      for k := 0 to |pod.conditions|
        invariant StableReady(pod.conditions, now) == StableReady(pod.conditions[k..], now)
      {
        var condition := pod.conditions[k];
        if condition.isReadyCondition && condition.lastTransition + STABILITY_PERIOD < now {
          return condition.isTrue;
        }
        assert pod.conditions[k..][1..] == pod.conditions[k + 1..];
      }
      stable := false;
    }

    static method AreStableReady(pods: seq<Pod>, now: int) returns (ready: bool)
      ensures ready <==> AllStable(pods, now)
    {
      ready := true;
      for k := 0 to |pods|
        invariant ready <==> forall j | 0 <= j < k :: StableReady(pods[j].conditions, now)
      {
        var stable := IsPodStableReady(pods[k], now);
        if !stable {
          ready := false;
        }
      }
    }

    // ----- The igniter map

    /** The map lookup and, failing that, the new entry. */
    method LookUpOrMake(job: Job, obj: KubeJob, pods: Option<seq<Pod>>) returns (igniter: Option<nat>)
      requires At(Igniting(job, obj))
      modifies world, world.run
      ensures Grew(old(world.history), world.history, me, 0)
      ensures At(if igniter.Some? then Polling(job, obj) else Idle)
      ensures world.ops[me].slot == if old(world.ops[me].slot).Some? then old(world.ops[me].slot) else igniter
      ensures igniter.Some? ==> world.ops[me].slot == igniter
      ensures Here() == DoIgnite(old(Here()), Workers(), pods) && world.now == old(world.now)
      ensures igniter.Some? <==>
                old(world.ops[me].slot).Some? || (Decisions.MayIgnite(job) && pods.Some? && |pods.value| == Workers())
      ensures world.ops[me].igniters == old(world.ops[me].igniters) +
                if old(world.ops[me].slot).Some? || igniter.None? then []
                else [Igniter(job.startAt.value, Workers(), Spawned, false, false, {}, {})]
      ensures LastCall(world.history, me) == Some(Ignite(pods)) && Log() == old(Log())
      ensures pods == Some(old(world.clusters[me].pods)) ==> Rest() == old(Rest())
    {
      IsCalm();
      ghost var s, l := world.Model(), Here();
      var op := world.ops[me];
      if op.slot.Some? {
        igniter := op.slot;
      } else if !job.ready || job.startAt.None? {
        igniter := None;
      } else if pods.None? || |pods.value| != Workers() {
        igniter := None;
      } else {
        igniter := Some(|op.igniters|);
        op := op.(igniters := op.igniters + [NewIgniter(job.startAt.value, |pods.value|)], slot := igniter);
      }
      op := op.(pc := if igniter.Some? then Polling(job, obj) else Idle);
      assert DoIgnite(l, Workers(), pods) == l.(op := op);
      Store(s, l, op, Ignite(pods));
    }

    /** Returns the igniter of the job's name, or makes one if the run is ready, its start known and its pods complete. */
    method CreateIgniter(job: Job, obj: KubeJob) returns (igniter: Option<nat>, pods: Option<seq<Pod>>)
      requires At(Igniting(job, obj))
      modifies world, world.run
      ensures Grew(old(world.history), world.history, me, 0)
      ensures At(if igniter.Some? then Polling(job, obj) else Idle)
      ensures world.ops[me].slot == if old(world.ops[me].slot).Some? then old(world.ops[me].slot) else igniter
      ensures igniter.Some? <==>
                old(world.ops[me].slot).Some? || (Decisions.MayIgnite(job) && pods.Some? && |pods.value| == Workers())
      ensures igniter.Some? ==> world.ops[me].slot == igniter
      ensures |world.ops[me].igniters| ==
                |old(world.ops[me].igniters)| + if old(world.ops[me].slot).Some? || igniter.None? then 0 else 1
      ensures LastCall(world.history, me) == Some(Ignite(pods)) && Log() == old(Log())
      ensures world.quiet ==> Rest() == old(Rest()) && world.now == old(world.now)
    {
      Yield();
      pods := ListPods();
      igniter := LookUpOrMake(job, obj, pods);
    }

    /** Stops the igniter of the job's name if there is one, and deletes the entry. */
    method StopAndForget()
      requires At(Forgetting)
      modifies world, world.run
      ensures Grew(old(world.history), world.history, me, 0)
      ensures PrevCall(world.history, me) == old(LastCall(world.history, me))
      ensures LastCall(world.history, me) == Some(Forget) && Log() == old(Log())
      ensures At(Idle)
      ensures Here() == DoForget(old(Here()), old(world.now)) && world.now == old(world.now)
      ensures Rest() == old(Rest())
    {
      IsCalm();
      ghost var s, l := world.Model(), Here();
      var op := world.ops[me];
      if op.slot.Some? {
        op := op.(igniters := op.igniters[op.slot.value := op.igniters[op.slot.value].Stop(world.now)]);
      }
      Store(s, l, op.(pc := Idle, slot := None), Forget);
    }

    method RemoveIgniter()
      requires At(Forgetting)
      modifies world, world.run
      ensures Grew(old(world.history), world.history, me, 0)
      ensures PrevCall(world.history, me) == old(LastCall(world.history, me))
      ensures LastCall(world.history, me) == Some(Forget) && Log() == old(Log())
      ensures At(Idle) && Forgotten()
      ensures world.quiet ==> Rest() == old(Rest()) && world.now == old(world.now)
    {
      Yield();
      StopAndForget();
      world.HasInv();
      assert OpInv(world.Model().server, world.now, me, Workers(), world.clusters[me], world.ops[me]);
    }

    method ReadStarted(ghost job: Job, ghost obj: KubeJob, igniter: nat) returns (started: bool)
      requires At(Polling(job, obj)) && world.ops[me].slot == Some(igniter)
      modifies world, world.run
      ensures Grew(old(world.history), world.history, me, 0)
      ensures Log() == old(Log())
      ensures At(if started then Putting(job, obj, Running) else Inspecting(job, obj)) && world.ops[me].slot == Some(igniter)
      ensures Rest() == old(Rest()) && world.now == old(world.now)
    {
      IsCalm();
      var g := world.ops[me].igniters[igniter];
      started := g.Started() && !g.error;
      PollStep(Here(), world.now, me, Workers(), g);
      Access(Poll);
    }

    /** Reads whether the igniter has started and has no error. */
    method HasStarted(ghost job: Job, ghost obj: KubeJob, igniter: nat) returns (started: bool)
      requires At(Polling(job, obj)) && world.ops[me].slot == Some(igniter)
      modifies world, world.run
      ensures Grew(old(world.history), world.history, me, 0)
      ensures Log() == old(Log())
      ensures At(if started then Putting(job, obj, Running) else Inspecting(job, obj)) && world.ops[me].slot == Some(igniter)
      ensures world.quiet ==> Rest() == old(Rest()) && world.now == old(world.now)
    {
      Yield();
      started := ReadStarted(job, obj, igniter);
    }

    method ReadIgniterError(ghost job: Job, ghost obj: KubeJob) returns (error: bool)
      requires At(Inspecting(job, obj))
      modifies world, world.run
      ensures Grew(old(world.history), world.history, me, 0)
      ensures LastCall(world.history, me) == Some(Inspect) && Log() == old(Log())
      ensures At(if error then Putting(job, obj, Failed) else AfterReady(job, obj, Workers()))
      ensures Rest() == old(Rest()) && world.now == old(world.now)
    {
      IsCalm();
      var g := world.ops[me].igniters[world.ops[me].slot.value];
      error := g.error;
      InspectStep(Here(), world.now, me, Workers(), g);
      Access(Inspect);
    }

    /** Reads the igniter's error. */
    method HasError(ghost job: Job, ghost obj: KubeJob) returns (error: bool)
      requires At(Inspecting(job, obj))
      modifies world, world.run
      ensures Grew(old(world.history), world.history, me, 0)
      ensures LastCall(world.history, me) == Some(Inspect) && Log() == old(Log())
      ensures At(if error then Putting(job, obj, Failed) else AfterReady(job, obj, Workers()))
      ensures world.quiet ==> Rest() == old(Rest()) && world.now == old(world.now)
    {
      Yield();
      error := ReadIgniterError(job, obj);
    }

    // ----- The pass

    /** The part of a pass for a job that is running. */
    method FinishRunning(job: Job, obj: KubeJob) returns (ok: bool)
      requires me < |world.workers| && At(AfterReady(job, obj, Workers()))
      requires Verdict(true)
      modifies world, world.run
      ensures Grew(old(world.history), world.history, me, 0)
      ensures job.status != Running || obj.active != 0 ==> ok
      ensures job.status == Running && obj.active == 0 ==>
                (ok <==> Known() == {if obj.succeeded == Workers() then Completed else Failed})
      ensures Verdict(ok)
      ensures Log() == old(Log()) + if job.status == Running then Decisions.FinishWrites(obj, Workers()) else []
      ensures At(Idle)
      ensures world.quiet ==> Rest() == old(Rest()) && world.now == old(world.now)
    {
      ok := true;
      if job.status == Running {
        if obj.active == 0 {
          var target := if obj.succeeded == Workers() then Completed else Failed;
          var sent, _ := UpdateStatus(job, obj, target);
          ok := sent;
        }
      }
    }

    /** The switch to running, once the igniter has started without an error. */
    method ReportRunning(ready: Job, obj: KubeJob, igniter: nat) returns (job: Job)
      requires At(Polling(ready, obj)) && world.ops[me].slot == Some(igniter)
      modifies world, world.run
      ensures Grew(old(world.history), world.history, me, 0)
      ensures At(Inspecting(job, obj))
      ensures world.quiet ==> Rest() == old(Rest()) && world.now == old(world.now)
    {
      job := ready;
      var started := HasStarted(job, obj, igniter);
      if started {
        var _, after := UpdateStatus(job, obj, Running);
        job := after;
      }
    }

    /** The failure report when the igniter has an error, and the rest of the pass otherwise. */
    method CheckIgniter(job: Job, obj: KubeJob) returns (ok: bool, ghost failed: bool)
      requires At(Inspecting(job, obj))
      modifies world, world.run
      ensures Grew(old(world.history), world.history, me, 0)
      ensures Verdict(ok) && (failed ==> ok)
      ensures Log() == old(Log()) + if failed then [PutStatus(Failed)]
                                    else if job.status == Running then Decisions.FinishWrites(obj, Workers()) else []
      ensures At(Idle)
      ensures world.quiet ==> Rest() == old(Rest()) && world.now == old(world.now)
    {
      var error := HasError(job, obj);
      if error {
        var _, _ := UpdateStatus(job, obj, Failed);
        return true, true;
      }
      ok := FinishRunning(job, obj);
      failed := false;
    }

    /** The part of a pass for a job that is ready: ignition, and what the igniter has come to. */
    method StartRunning(ready: Job, obj: KubeJob) returns (ok: bool)
      requires At(Igniting(ready, obj))
      modifies world, world.run
      ensures Grew(old(world.history), world.history, me, 0)
      ensures Verdict(ok)
      ensures At(Idle)
      ensures world.quiet ==> Rest() == old(Rest()) && world.now == old(world.now)
    {
      var igniter, _ := CreateIgniter(ready, obj);
      if igniter.None? {
        return false;
      }
      var job := ReportRunning(ready, obj, igniter.value);
      ghost var failed;
      ok, failed := CheckIgniter(job, obj);
    }

    /** The part of a pass for a queued job: it is ready when the counts agree and every listed pod is stable. */
    method CheckPods(queued: Job, obj: KubeJob) returns (ok: bool, job: Job)
      requires me < |world.workers| && At(AfterPending(queued, obj, Workers())) && queued.status == Queued
      requires Verdict(true)
      modifies world, world.run
      ensures Grew(old(world.history), world.history, me, 0)
      ensures obj.ready != Some(Workers()) ==> ok && job == queued && Log() == old(Log())
      ensures job.status == Queued && ok ==> Log() == old(Log())
      ensures job.status == Queued ==> Verdict(ok)
      ensures At(if job.status == Ready then Igniting(job, obj) else Idle)
      ensures job.status == Ready || job.status == Queued
      ensures world.quiet ==> Rest() == old(Rest()) && world.now == old(world.now)
    {
      ok, job := true, queued;
      if obj.ready == Some(Workers()) {
        var pods, now := GetPods(queued, obj);
        if pods.None? {
          return false, queued;
        }
        var ready := AreStableReady(pods.value, now);
        if ready {
          ok, job := UpdateStatus(queued, obj, Ready);
          if !ok {
            job := queued;
          }
        }
      }
    }

    /** The part of a pass for a job that is queued or further on. */
    method Proceed(accepted: Job, obj: KubeJob) returns (ok: bool)
      requires me < |world.workers| && At(AfterPending(accepted, obj, Workers()))
      requires accepted.status == Queued || accepted.status == Ready || accepted.status == Running
      requires Verdict(true)
      modifies world, world.run
      ensures Grew(old(world.history), world.history, me, 0)
      ensures Verdict(ok)
      ensures At(Idle)
      ensures world.quiet ==> Rest() == old(Rest()) && world.now == old(world.now)
    {
      var job := accepted;
      if job.status == Queued {
        ok, job := CheckPods(job, obj);
        if job.status == Queued {
          return;
        }
      }
      if job.status == Ready {
        ok := StartRunning(job, obj);
      } else {
        ok := FinishRunning(job, obj);
      }
    }

    /** The part of a pass for a job whose Kubernetes Job exists and that is neither finished nor canceled. */
    method Advance(fetched: Job, obj: KubeJob) returns (ok: bool)
      requires me < |world.workers| && At(Route(fetched, obj, Workers()))
      requires !fetched.status.Terminal()
      requires fetched.status == Pending || Verdict(true)
      modifies world, world.run
      ensures Grew(old(world.history), world.history, me, 0)
      ensures JobFailed in obj.conditions ==> ok && Log() == old(Log()) + [PutStatus(Failed)]
      ensures Verdict(ok)
      ensures At(Idle)
      ensures world.quiet ==> Rest() == old(Rest()) && world.now == old(world.now)
    {
      var job := fetched;
      var failed := HasCondition(obj, JobFailed);
      if failed {
        var _, _ := UpdateStatus(job, obj, Failed);
        return true;
      }
      if job.status == Pending {
        ok, job := UpdateStatus(job, obj, Queued);
        if !ok {
          return false;
        }
      }
      ok := Proceed(job, obj);
    }

    /** The part of a pass for a job that has no Kubernetes Job yet. */
    method Launch(job: Job) returns (ok: bool, ghost reply: CreateReply)
      requires At(Creating(job)) && job.status == Pending
      modifies world, world.run
      ensures Grew(old(world.history), world.history, me, 0)
      ensures Verdict(ok)
      ensures reply == CreateError ==>
                Log() == old(Log()) + [CreateJob, PutStatus(Failed)] && (ok <==> Known() == {Failed})
      ensures reply == CreatedOnly ==> Log() == old(Log()) + [CreateJob] && !ok
      ensures At(Idle)
      ensures world.quiet ==> Rest() == old(Rest()) && world.now == old(world.now)
    {
      var created, obj := SyncKubeJob(job);
      reply := created;
      if created == CreateError {
        var sent, _ := UpdateStatus(job, NEW_JOB, Failed);
        ok := sent;
        return;
      }
      if created == CreatedOnly {
        ok := false;
        return;
      }
      ok := Advance(job, obj);
    }

    /** The igniter is out of the map, and every igniter the operator ever made has a canceled context. */
    ghost predicate Forgotten()
      requires me < |world.ops|
      reads world
    {
      world.ops[me].slot == None && forall g | g in world.ops[me].igniters :: g.canceled
    }

    /**
     * The part of a pass for a canceled job; the igniter is removed also when the suspension fails, and that the Job is
     * gone meanwhile is no error.
     */
    method WindDown(found: ReadReply) returns (ok: bool)
      requires !found.ReadError? && (found.Found? ==> !found.obj.deleting)
      requires At(if found.Found? && !found.obj.suspended then Suspending else Forgetting)
      requires LastCall(world.history, me) == Some(Read(found))
      modifies world, world.run
      ensures Grew(old(world.history), world.history, me, 0)
      ensures Verdict(ok) && LastCall(world.history, me) == Some(Forget)
      ensures Log() == old(Log()) + if found.Found? && !found.obj.suspended then [SuspendJob] else []
      ensures At(Idle) && Forgotten()
      ensures world.quiet || found.Missing? || found.obj.suspended ==> ok
      ensures world.quiet ==> Rest() == old(Rest()) && world.now == old(world.now)
    {
      ok := true;
      if found.Found? && !found.obj.suspended {
        var reply := SuspendKubeJob();
        ok := reply != Refused;
      }
      RemoveIgniter();
    }

    /** Reading the Kubernetes Job ends the pass: it could not be read, or the Job is being deleted. */
    ghost predicate EndsPass(found: ReadReply) {
      found.ReadError? || (found.Found? && found.obj.deleting)
    }

    /** The part of a pass for a job that has neither completed nor failed. */
    method Handle(job: Job) returns (ok: bool, ghost read: ReadReply)
      requires At(Fetched(job)) && job.status != Completed && job.status != Failed
      modifies world, world.run
      ensures Grew(old(world.history), world.history, me, 0)
      ensures read.Missing? && !job.status.Terminal() && job.status != Pending ==> ok && Log() == old(Log()) + [PutStatus(Failed)]
      ensures Verdict(ok)
      ensures EndsPass(read) ==> Log() == old(Log())
      ensures At(Idle)
      ensures job.status == Canceled && !EndsPass(read) ==> Forgotten()
      ensures EndsPass(read) ==> (ok <==> read.Found?) && world.ops[me].slot == old(world.ops[me].slot)
      ensures EndsPass(read) ==> SameContexts(world.ops[me].igniters, old(world.ops[me].igniters))
      ensures world.quiet ==> Rest() == old(Rest()) && world.now == old(world.now)
    {
      var found := GetKubeJob(job);
      read := found;
      if found.ReadError? {
        ok := false;
        return;
      }
      if found.Found? && found.obj.deleting {
        ok := true;
        return;
      }
      if job.status == Canceled {
        ok := WindDown(found);
        return;
      }
      if found.Missing? && job.status != Pending {
        var _, _ := UpdateStatus(job, NEW_JOB, Failed);
        ok := true;
        return;
      }
      if found.Missing? {
        ghost var reply;
        ok, reply := Launch(job);
      } else {
        ok := Advance(job, found.obj);
      }
    }

    /**
     * A pass from its fetched job on. It takes a final status in, which is to forget the igniter, unless reading the
     * Kubernetes Job ended it; then it leaves map and igniter alone.
     */
    method Continue(job: Job) returns (ok: bool, ghost read: Option<ReadReply>)
      requires At(if job.status == Completed || job.status == Failed then Forgetting else Fetched(job))
      requires LastCall(world.history, me) == Some(Protocol.Fetch(true))
      modifies world, world.run
      ensures Grew(old(world.history), world.history, me, 0)
      ensures Verdict(ok) && (read.None? ==> ok && Log() == old(Log()))
      ensures read.Some? && EndsPass(read.value) ==> Log() == old(Log())
      ensures At(Idle)
      ensures read.None? <==> job.status == Completed || job.status == Failed
      ensures job.status.Terminal() && (read.None? || !EndsPass(read.value)) ==> Forgotten()
      ensures read.Some? && EndsPass(read.value) ==>
                && (ok <==> read.value.Found?) && world.ops[me].slot == old(world.ops[me].slot)
                && SameContexts(world.ops[me].igniters, old(world.ops[me].igniters))
      ensures world.quiet ==> Rest() == old(Rest()) && world.now == old(world.now)
    {
      read := None;
      if job.status == Completed || job.status == Failed {
        RemoveIgniter();
        ok := true;
      } else {
        ghost var found;
        ok, found := Handle(job);
        read := Some(found);
      }
    }

    /**
     * One reconcile pass. Whatever happens between its accesses, it fetches once and the world stays in a state its machine
     * reaches. A pass that fetched a final status leaves the row final, and it has forgotten its igniter unless reading the
     * Kubernetes Job ended it: then it leaves map and igniter alone. With nothing in between and every call answered, the
     * pass does what `Pass` computes.
     */
    method Reconcile() returns (ok: bool, ghost fetched: Option<Job>, ghost read: Option<ReadReply>)
      requires At(Idle)
      modifies world, world.run
      ensures Grew(old(world.history), world.history, me, 1)
      ensures Verdict(ok)
      ensures fetched.None? || read.None? || EndsPass(read.value) ==> Log() == old(Log())
      ensures At(Idle)
      ensures ok ==> fetched.Some?
      ensures fetched.Some? && fetched.value.status.Terminal() ==> world.run.rows[me].Terminal()
      ensures fetched.Some? && fetched.value.status.Terminal() && (read.None? || !EndsPass(read.value)) ==> Forgotten()
      ensures read.Some? && EndsPass(read.value) ==>
                && (ok <==> read.value.Found?) && world.ops[me].slot == old(world.ops[me].slot)
                && SameContexts(world.ops[me].igniters, old(world.ops[me].igniters))
      ensures read.None? ==> fetched.None? || fetched.value.status == Completed || fetched.value.status == Failed
      ensures world.quiet ==>
                world.now == old(world.now) && Calm(old(Here()), me) && Here() == Pass(old(Here()), world.now, me, Workers())
      ensures world.quiet ==>
                Decisions.Does(old(Here()), Here(), Decisions.WritesOf(old(Here()), world.now, me, Workers()), world.now, me)
    {
      IsCalm();
      Decisions.PassDoes(Here(), world.now, me, Workers());
      var job := GetJob();
      fetched, read := job, None;
      if job.None? {
        ok := false;
        return;
      }
      ghost var history := world.history;
      ok, read := Continue(job.value);
      if job.value.status.Terminal() {
        FinalStaysFinal(world.workers, world.begun, history, world.history, me);
      }
    }

    /**
     * After a pass that took a final status in, the location's pods can be told to start in some continuation of the run
     * exactly when the igniter had sent a request by then; before the agreed start it had not.
     */
    method ReconcileAborts() returns (ok: bool, ghost fetched: Option<Job>, ghost read: Option<ReadReply>)
      requires At(Idle)
      modifies world, world.run
      ensures At(Idle)
      ensures fetched.Some? && fetched.value.status.Terminal() && (read.None? || !EndsPass(read.value)) ==>
                && (NeverRuns(world.Model(), me) <==> NothingSent(world.ops[me]))
                && (BeforeTheStart(world.Model()) ==> NeverRuns(world.Model(), me))
    {
      ok, fetched, read := Reconcile();
      world.HasInv();
      if fetched.Some? && fetched.value.status.Terminal() && (read.None? || !EndsPass(read.value)) {
        AbortIsFinalExactlyWhen(world.Model(), me);
        if BeforeTheStart(world.Model()) {
          NothingSentBeforeTheStart(world.Model(), me);
        }
      }
    }

    /** In a quiet world a second pass right after a first writes nothing, and leaves the webapp and the cluster as they are. */
    method ReconcileTwice() returns (writes: seq<Write>, server: Server, cluster: Cluster)
      requires At(Idle) && world.quiet
      modifies world, world.run
      ensures Grew(old(world.history), world.history, me, 2)
      ensures At(Idle)
      ensures world.ops[me].log == writes && world.run.Model() == server && world.clusters[me] == cluster
      ensures Calm(old(Here()), me) && writes == Pass(old(Here()), old(world.now), me, Workers()).op.log
    {
      IsCalm();
      ghost var l := Here();
      var _, _, _ := Reconcile();
      writes, server, cluster := world.ops[me].log, world.run.Model(), world.clusters[me];
      IsCalm();
      SecondPassWritesNothing(l, world.now, me, Workers());
      var _, _, _ := Reconcile();
    }
  }
}
