/** The shared world that the operators' code runs in: every step it takes is an event of the machine. */
module World {
  import opened Statuses
  import opened Protocol
  import opened Invariant
  import opened Safety
  import Webapp

  /** A thread of control: an operator's reconcile loop, or the goroutine of one of its igniters. */
  datatype Thread = PassOf(i: nat) | IgniterOf(i: nat, g: nat)

  /** Steps taken by the thread itself; a request that reaches its pod is the network's step. */
  predicate OwnStep(t: Thread, e: Event) {
    match t
    case PassOf(i) => e.Step? && e.i == i
    case IgniterOf(i, g) => e.Ignition? && e.i == i && e.g == g && !e.spark.Land?
  }

  ghost predicate OthersOnly(t: Thread, es: seq<Event>) {
    forall k | 0 <= k < |es| :: !OwnStep(t, es[k])
  }

  class World {
    const workers: seq<nat>
    const begun: int
    // A quiet world answers every call and does nothing of its own accord.
    const quiet: bool
    const run: Webapp.TestRun
    var now: int
    var clusters: seq<Cluster>
    var ops: seq<Op>
    ghost var history: seq<Event>

    function Model(): State
      reads this, run
    {
      State(workers, now, run.Model(), clusters, ops)
    }

    /** The world is in the state that its history leads to from a fresh run. */
    ghost predicate Valid()
      reads this, run
    {
      |workers| > 0 && Model() == Exec(Init(workers, begun), history)
    }

    constructor (workers: seq<nat>, begun: int, quiet: bool)
      requires |workers| > 0
      ensures Valid() && fresh(run) && Model() == Init(workers, begun) && this.quiet == quiet
    {
      this.workers, this.begun, this.quiet := workers, begun, quiet;
      var testRun := new Webapp.TestRun(|workers|);
      testRun.Start();
      run := testRun;
      now := begun;
      clusters := seq(|workers|, _ => Cluster(None, [], multiset{}, {}));
      ops := seq(|workers|, _ => Op(Idle, [], None, {}, []));
      history := [];
    }

    lemma HasInv()
      requires Valid()
      ensures Reachable(Model()) && Inv(Model())
    {
      EveryRunHasInv(workers, begun, history);
    }

    lemma IsWellFormed()
      requires Valid()
      ensures WellFormed(Model())
    {
    }

    /** One event happens. */
    method Happen(e: Event)
      requires Valid()
      modifies this, run
      ensures Valid() && Model() == Apply(old(Model()), e) && history == old(history) + [e]
    {
      IsWellFormed();
      var s := Apply(Model(), e);
      ExecSnoc(Init(workers, begun), history, e);
      now, clusters, ops := s.now, s.clusters, s.ops;
      run.rows, run.startedAt, run.completedAt := s.server.rows, s.server.startedAt, s.server.completedAt;
      history := history + [e];
    }

    /** `es`, none of them a step of the thread itself, have led here from `s`, where the history was `before`. */
    ghost predicate Since(t: Thread, s: State, before: seq<Event>, es: seq<Event>)
      reads this, run
    {
      Valid() && WellFormed(s) && Model() == Exec(s, es) && OthersOnly(t, es) && history == before + es
    }

    /** One more event, unless it would be a step of the thread itself. */
    method Continue(t: Thread, e: Event, ghost s: State, ghost before: seq<Event>, ghost es: seq<Event>)
      returns (ghost fs: seq<Event>)
      requires Since(t, s, before, es)
      modifies this, run
      ensures Since(t, s, before, fs)
    {
      fs := es;
      if !OwnStep(t, e) {
        ExecSnoc(s, es, e);
        Happen(e);
        fs := es + [e];
      }
    }

    /** Any number of steps of everything else. */
    method Interfere(t: Thread) returns (ghost es: seq<Event>)
      requires Valid()
      modifies this, run
      ensures Valid() && history == old(history) + es && OthersOnly(t, es)
      ensures WellFormed(old(Model())) && Model() == Exec(old(Model()), es)
      ensures quiet ==> es == []
    {
      IsWellFormed();
      es := [];
      if quiet { return; }
      var script: seq<Event> := *;
      ghost var s, before := Model(), history;
      for k := 0 to |script|
        invariant Since(t, s, before, es)
      {
        es := Continue(t, script[k], s, before, es);
      }
    }
  }
}
