/** The webapp's code for one test run: serializer, state machine bodies, save hooks, and the cancel of a whole run. */
module Webapp {
  import opened Statuses
  import opened Server

  class TestRun {
    var draft: bool
    var rows: seq<Status>
    var startedAt: Option<int>
    var completedAt: Option<int>

    function Model(): Server
      reads this
    {
      Server(rows, startedAt, completedAt)
    }

    /** A draft run with all its locations pending. */
    constructor (locations: nat)
      ensures draft && Model() == Server(seq(locations, _ => Pending), None, None)
    {
      draft := true;
      rows := seq(locations, _ => Pending);
      startedAt, completedAt := None, None;
    }

    /** `TestRun.start`. */
    method Start()
      modifies this`draft
      ensures !draft
    {
      draft := false;
    }

    /** The number of rows whose status is not `st`, as the hooks' queries count it. */
    method CountExcept(st: Status) returns (n: nat)
      ensures n == 0 <==> AllAre(rows, st)
      ensures n <= |rows|
    {
      n := 0;
      for k := 0 to |rows|
        invariant n <= k
        invariant n == 0 <==> forall j | 0 <= j < k :: rows[j] == st
      {
        if rows[k] != st {
          n := n + 1;
        }
      }
    }

    // ----- Post-save hooks

    method SetTestStartedAt(i: nat, now: int)
      requires i < |rows|
      modifies this`startedAt
      ensures startedAt == if rows[i] == Ready && old(startedAt) == None && AllAre(rows, Ready)
                           then Some(FloorSecond(now + START_DELAY)) else old(startedAt)
    {
      if rows[i] == Ready && startedAt == None {
        var others := CountExcept(Ready);
        if others == 0 {
          startedAt := Some(FloorSecond(now + START_DELAY));
        }
      }
    }

    method SetTestCompletedAt(i: nat, now: int)
      requires i < |rows|
      modifies this`completedAt
      ensures completedAt == if rows[i] == Completed && old(completedAt) == None && AllAre(rows, Completed)
                             then Some(FloorSecond(now)) else old(completedAt)
    {
      if rows[i] == Completed && completedAt == None {
        var others := CountExcept(Completed);
        if others == 0 {
          completedAt := Some(FloorSecond(now));
        }
      }
    }

    /** A bulk update: it runs no hooks for the rows it changes. */
    method CancelOnFailure(i: nat)
      requires i < |rows|
      modifies this`rows
      ensures rows == if old(rows)[i] == Failed then Cascade(old(rows)) else old(rows)
    {
      if rows[i] == Failed {
        ghost var before := rows;
        for k := 0 to |rows|
          invariant |rows| == |before|
          invariant forall j | 0 <= j < k :: rows[j] == Cascade(before)[j]
          invariant forall j | k <= j < |rows| :: rows[j] == before[j]
        {
          if rows[k] != Failed && rows[k] != Completed {
            rows := rows[k := Canceled];
          }
        }
        assert rows == Cascade(before);
      }
    }

    /** Stores one row and runs the three hooks in the order in which they are registered. */
    method Save(i: nat, st: Status, now: int)
      requires i < |rows|
      modifies this`rows, this`startedAt, this`completedAt
      ensures var saved := old(rows)[i := st];
              && rows == (if st == Failed then Cascade(saved) else saved)
              && startedAt == (if st == Ready && old(startedAt) == None && AllAre(saved, Ready)
                               then Some(FloorSecond(now + START_DELAY)) else old(startedAt))
              && completedAt == (if st == Completed && old(completedAt) == None && AllAre(saved, Completed)
                                 then Some(FloorSecond(now)) else old(completedAt))
    {
      rows := rows[i := st];
      SetTestStartedAt(i, now);
      SetTestCompletedAt(i, now);
      CancelOnFailure(i);
    }

    // ----- The serializer

    method AvailableTransitions(from: Status) returns (available: seq<Transition>)
      ensures forall t :: t in available <==> t in TRANSITIONS && t.AvailableFrom(from)
    {
      available := [];
      for k := 0 to |TRANSITIONS|
        invariant forall t :: t in available <==> t in TRANSITIONS[..k] && t.AvailableFrom(from)
      {
        if TRANSITIONS[k].AvailableFrom(from) {
          available := available + [TRANSITIONS[k]];
        }
      }
    }

    method ValidateStatus(i: nat, st: Status) returns (valid: bool)
      requires i < |rows|
      ensures valid <==> Accepts(rows[i], st)
    {
      if st == rows[i] {
        return true;
      }
      var available := AvailableTransitions(rows[i]);
      AcceptsIsTheTable(rows[i], st);
      forall j | 0 <= j < |TRANSITIONS| && TRANSITIONS[j].AvailableFrom(rows[i]) && TRANSITIONS[j].target == st
        ensures exists k | 0 <= k < |available| :: available[k].target == st
      {
        assert TRANSITIONS[j] in available;
      }
      valid := false;
      for k := 0 to |available|
        invariant valid <==> exists j | 0 <= j < k :: available[j].target == st
      {
        if available[k].target == st {
          valid := true;
        }
      }
      if valid {
        var j :| 0 <= j < |available| && available[j].target == st;
        assert available[j] in TRANSITIONS;
      }
    }

    /** The body of the `ready` transition: it would start the run at once if it found every location ready. */
    method ReadyBody(now: int)
      modifies this`startedAt
      ensures startedAt == if AllAre(rows, Ready) then Some(now) else old(startedAt)
    {
      var others := CountExcept(Ready);
      if others == 0 {
        startedAt := Some(now);
      }
    }

    /** The other transitions have bodies that change nothing but a description. */
    method TransitionBody(t: Transition, now: int)
      modifies this`startedAt
      ensures startedAt == if t.name == "ready" && AllAre(rows, Ready) then Some(now) else old(startedAt)
    {
      if t.name == "ready" {
        ReadyBody(now);
      }
    }

    /**
     * Runs the bodies of the matching transitions, which leave the row as it is, and then saves the new status. The
     * immediate start inside the `ready` body never happens: the caller's own row is still QUEUED when it counts.
     */
    method Update(i: nat, st: Status, now: int)
      requires i < |rows| && Accepts(rows[i], st)
      modifies this`rows, this`startedAt, this`completedAt
      ensures Put(old(Model()), now, i, st) == Accepted(Model())
    {
      if rows[i] != st {
        var available := AvailableTransitions(rows[i]);
        for k := 0 to |available|
          invariant rows == old(rows) && startedAt == old(startedAt) && completedAt == old(completedAt)
        {
          if available[k].target == st {
            if available[k].name == "ready" {
              ReadyComesFromQueued(available[k], rows[i]);
              ReadyBodySeesItself(rows, i);
            }
            TransitionBody(available[k], now);
          }
        }
      }
      Save(i, st, now);
    }

    lemma ReadyComesFromQueued(t: Transition, from: Status)
      requires t in TRANSITIONS && t.name == "ready" && t.AvailableFrom(from)
      ensures from == Queued
    {
      assert t.source == Some(Queued);
    }

    /** A PUT of a status to row `i`. */
    method HandlePut(i: nat, st: Status, now: int) returns (accepted: bool)
      requires i < |rows|
      modifies this`rows, this`startedAt, this`completedAt
      ensures accepted <==> Put(old(Model()), now, i, st).Accepted?
      ensures Model() == if accepted then Put(old(Model()), now, i, st).server else old(Model())
    {
      accepted := ValidateStatus(i, st);
      if accepted {
        Update(i, st, now);
      }
    }

    /** `TestRun.cancel`: every row that was active at the start of the request is canceled and saved, one at a time. */
    method CancelRun(now: int)
      modifies this`rows, this`startedAt, this`completedAt
      ensures Model() == old(Model()).(rows := CancelActive(old(rows)))
    {
      var selected := rows;
      for k := 0 to |selected|
        invariant |rows| == |selected|
        invariant forall j | 0 <= j < k :: rows[j] == CancelActive(selected)[j]
        invariant forall j | k <= j < |rows| :: rows[j] == selected[j]
        invariant startedAt == old(startedAt) && completedAt == old(completedAt)
      {
        if selected[k] != Completed && selected[k] != Canceled && selected[k] != Failed {
          Save(k, Canceled, now);
        }
      }
      assert rows == CancelActive(selected);
    }
  }
}
