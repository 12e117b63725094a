/** The goroutine that an igniter starts: a select between cancellation and the timer, then one request per pod. */
module Ignition {
  import opened Protocol
  import opened Invariant
  import World

  /** How far the goroutine has come: stopped by its context, still blocked in the select, or done with its pods. */
  datatype Outcome = Stopped | Blocked | Done(failed: bool)

  /** What other threads can do to an igniter: stop it, and let requests that were sent take effect. */
  ghost predicate Drifts(g: Igniter, g': Igniter) {
    && g'.startAt == g.startAt && g'.pods == g.pods && g'.error == g.error && g'.sent == g.sent
    && (g.canceled ==> g'.canceled)
    && (g'.phase == g.phase || (g.phase == Waiting && g'.phase == Quit && g'.canceled))
  }

  lemma OneStepDrifts(s: State, e: Event, i: nat, g: nat)
    requires WellFormed(s) && i < |s.ops| && g < |s.ops[i].igniters| && !World.OwnStep(World.IgniterOf(i, g), e)
    ensures g < |Apply(s, e).ops[i].igniters| && Drifts(s.ops[i].igniters[g], Apply(s, e).ops[i].igniters[g])
  {
  }

  lemma {:induction false} OthersDrift(s: State, es: seq<Event>, i: nat, g: nat)
    requires WellFormed(s) && i < |s.ops| && g < |s.ops[i].igniters| && World.OthersOnly(World.IgniterOf(i, g), es)
    ensures g < |Exec(s, es).ops[i].igniters| && Drifts(s.ops[i].igniters[g], Exec(s, es).ops[i].igniters[g])
  {
    if es != [] {
      OthersDrift(s, es[..|es| - 1], i, g);
      assert !World.OwnStep(World.IgniterOf(i, g), es[|es| - 1]);
      OneStepDrifts(Exec(s, es[..|es| - 1]), es[|es| - 1], i, g);
    }
  }

  /** Blocked in the select, or out of it by the `Done` case; either way nothing was sent. */
  ghost predicate InSelect(before: Igniter, g: Igniter) {
    && (g.phase == Waiting || (g.phase == Quit && g.canceled))
    && g.sent == before.sent && g.pods == before.pods
  }

  /**
   * Past the turns of the first `k` pods. Every one of them was sent its request unless the context was canceled by then,
   * and the group has failed exactly if one was not sent or one was refused. `refusing` are the pods that answer with an
   * error, or not at all.
   */
  ghost predicate Sending(before: Igniter, g: Igniter, k: nat, refusing: set<nat>, failed: bool) {
    && g.phase == Fired && g.pods == before.pods && g.startAt == before.startAt
    && g.sent <= Indexes(k)
    && (!g.canceled ==> g.sent == Indexes(k))
    && (failed <==> g.sent * refusing != {} || g.sent != Indexes(k))
    && (before.canceled ==> g.canceled && g.sent == {})
  }

  /** Which way out of its select an igniter has: by the timer from the start on, by its context once that is canceled. */
  lemma WaysOut(g: Igniter, now: int)
    requires g.phase == Waiting
    ensures SparkEnabled(g, now, Fire) <==> g.startAt <= now
    ensures SparkEnabled(g, now, Arm) <==> g.canceled
    ensures Sparked(g, Fire).phase == Fired && (g.canceled ==> Sparked(g, Arm).phase == Quit)
  {
  }

  /** After a stop an igniter can still fire at a later time if it was not yet blocked, or if its start had come by then. */
  lemma StoppedCanFireExactlyWhen(g: Igniter, now: int, later: int)
    requires now <= later && (g.phase == Spawned || g.phase == Waiting)
    ensures SparkEnabled(g.Stop(now), later, Fire) <==> g.startAt <= later && (g.phase == Spawned || g.startAt <= now)
    ensures g.Stop(now).canceled && g.Stop(now).sent == g.sent
  {
  }

  class Goroutine {
    const world: World.World
    const i: nat
    const g: nat

    constructor (world: World.World, i: nat, g: nat)
      ensures this.world == world && this.i == i && this.g == g
    {
      this.world, this.i, this.g := world, i, g;
    }

    ghost predicate Alive()
      reads world, world.run
    {
      world.Valid() && i < |world.ops| && g < |world.ops[i].igniters|
    }

    function Self(): Igniter
      requires i < |world.ops| && g < |world.ops[i].igniters|
      reads world
    {
      world.ops[i].igniters[g]
    }

    method Yield()
      requires Alive()
      modifies world, world.run
      ensures Alive() && old(world.history) <= world.history
      ensures Drifts(old(Self()), Self()) && old(world.now) <= world.now
    {
      ghost var s := world.Model();
      ghost var es := world.Interfere(World.IgniterOf(i, g));
      OthersDrift(s, es, i, g);
    }

    /** A step of the goroutine itself. */
    method Act(spark: Spark)
      requires Alive() && SparkEnabled(Self(), world.now, spark)
      modifies world, world.run
      ensures Alive() && old(world.history) <= world.history
      ensures Self() == Sparked(old(Self()), spark) && world.now == old(world.now)
    {
      world.HasInv();
      world.Happen(Ignition(i, g, spark));
    }

    /**
     * The select. Of two cases that are ready either may be taken, so a canceled igniter can still fire once it is time.
     */
    method Select() returns (fired: bool)
      requires Alive() && Self().phase == Spawned
      modifies world, world.run
      ensures Alive() && old(world.history) <= world.history
      ensures fired ==> Self().phase == Fired && Self().startAt <= world.now
      ensures !fired ==> InSelect(old(Self()), Self())
      ensures Self().phase == Waiting ==> !Self().canceled && world.now < Self().startAt
      ensures Self().sent == old(Self()).sent && Self().pods == old(Self()).pods
    {
      ghost var before := Self();
      Yield();
      var timerFirst: bool := *;
      if timerFirst && Self().startAt <= world.now {
        Act(Fire);
        return true;
      }
      Act(Arm);
      Block(before);
      fired := Choose(before);
    }

    /** Waits, for as long as the scheduler leaves it there, for the start or for a cancel. */
    method Block(ghost before: Igniter)
      requires Alive() && InSelect(before, Self())
      modifies world, world.run
      ensures Alive() && old(world.history) <= world.history
      ensures InSelect(before, Self())
    {
      var turns: nat := *;
      while turns > 0 && Self().phase == Waiting && world.now < Self().startAt
        invariant Alive() && old(world.history) <= world.history
        invariant InSelect(before, Self())
        decreases turns
      {
        Yield();
        turns := turns - 1;
      }
    }

    /** Takes one of the cases that are ready, if any is: only a live igniter whose start is ahead remains blocked. */
    method Choose(ghost before: Igniter) returns (fired: bool)
      requires Alive() && InSelect(before, Self())
      modifies world, world.run
      ensures Alive() && old(world.history) <= world.history
      ensures fired ==> Self().phase == Fired && Self().startAt <= world.now
      ensures !fired ==> InSelect(before, Self())
      ensures Self().phase == Waiting ==> !Self().canceled && world.now < Self().startAt
      ensures Self().sent == before.sent && Self().pods == before.pods
    {
      fired := false;
      if Self().phase == Waiting {
        var timerFirst: bool := *;
        if Self().startAt <= world.now && (timerFirst || !Self().canceled) {
          Act(Fire);
          fired := true;
        } else if Self().canceled {
          Act(Arm);
        }
      }
    }

    /** The turn of one pod: its request is sent, unless the context is canceled, and may be refused. */
    method SendOne(ghost before: Igniter, k: nat, refusing: set<nat>, failing: bool) returns (failed: bool)
      requires Alive() && Sending(before, Self(), k, refusing, failing) && k < Self().pods
      modifies world, world.run
      ensures Alive() && old(world.history) <= world.history && old(world.now) <= world.now
      ensures Sending(before, Self(), k + 1, refusing, failed)
    {
      Yield();
      if Self().canceled {
        failed := true;
      } else {
        Act(Patch(k));
        assert Self().sent * refusing != {} <==> old(Self()).sent * refusing != {} || k in refusing;
        failed := failing || k in refusing;
      }
    }

    /** One request per pod, whatever becomes of the others. An igniter that was canceled when it fired sends none. */
    method SendAll(refusing: set<nat>) returns (failed: bool)
      requires Alive() && Self().phase == Fired && Self().sent == {}
      modifies world, world.run
      ensures Alive() && old(world.history) <= world.history && old(world.now) <= world.now
      ensures Sending(old(Self()), Self(), Self().pods, refusing, failed)
    {
      failed := false;
      ghost var before := Self();
      var pods := Self().pods;
      for k := 0 to pods
        invariant Alive() && old(world.history) <= world.history && old(world.now) <= world.now
        invariant Self().pods == pods && Sending(before, Self(), k, refusing, failed)
      {
        failed := SendOne(before, k, refusing, failed);
      }
    }

    /**
     * The whole run of the goroutine. Past the select it sends every pod its request unless its context is canceled on the
     * way, and it ends with an error exactly if one was not sent or one was refused. Stopped by a cancel, or blocked before
     * the start, it has sent none.
     */
    method Start(refusing: set<nat>) returns (outcome: Outcome)
      requires Alive() && Self().phase == Spawned && Self().sent == {}
      modifies world, world.run
      ensures Alive() && old(world.history) <= world.history
      ensures outcome == Stopped ==> Self().phase == Quit && Self().canceled && Self().sent == {}
      ensures outcome == Blocked ==>
                Self().phase == Waiting && Self().sent == {} && !Self().canceled && world.now < Self().startAt
      ensures outcome.Done? ==> Self().phase == Joined && Self().startAt <= world.now && Self().error == outcome.failed
      ensures outcome.Done? && !Self().canceled ==> Self().sent == Indexes(Self().pods)
      ensures outcome.Done? ==> (outcome.failed <==> Self().sent * refusing != {} || Self().sent != Indexes(Self().pods))
    {
      var fired := Select();
      if !fired {
        outcome := if Self().phase == Quit then Stopped else Blocked;
        return;
      }
      var failed := SendAll(refusing);
      Yield();
      Act(Join(failed));
      outcome := Done(failed);
    }
  }
}
