/** The admin's view of a run: aggregated status and completion column, and the cancel action over selected runs. */
module Admin {
  import opened Statuses
  import opened Server
  import opened Webapp

  function CountOf(rows: seq<Status>, st: Status): nat {
    if rows == [] then 0 else CountOf(rows[..|rows| - 1], st) + if rows[|rows| - 1] == st then 1 else 0
  }

  lemma {:induction false} CountIsPositive(rows: seq<Status>, st: Status)
    ensures CountOf(rows, st) > 0 <==> st in rows
  {
    if rows != [] {
      CountIsPositive(rows[..|rows| - 1], st);
      assert rows == rows[..|rows| - 1] + [rows[|rows| - 1]];
    }
  }

  lemma {:induction false} CountIsTotal(rows: seq<Status>, st: Status)
    ensures CountOf(rows, st) <= |rows|
    ensures CountOf(rows, st) == |rows| <==> AllAre(rows, st)
  {
    if rows != [] {
      var rest := rows[..|rows| - 1];
      CountIsTotal(rest, st);
      assert AllAre(rows, st) <==> AllAre(rest, st) && rows[|rows| - 1] == st;
    }
  }

  /** `counts.get(st, 0)`. */
  function Get(counts: map<Status, nat>, st: Status): nat {
    if st in counts then counts[st] else 0
  }

  lemma {:induction false} CountsAddUp(rows: seq<Status>)
    ensures CountOf(rows, Pending) + CountOf(rows, Queued) + CountOf(rows, Ready) + CountOf(rows, Running) +
            CountOf(rows, Canceled) + CountOf(rows, Completed) + CountOf(rows, Failed) == |rows|
  {
    if rows != [] {
      var rest := rows[..|rows| - 1];
      CountsAddUp(rest);
      forall st: Status
        ensures CountOf(rows, st) == CountOf(rest, st) + if rows[|rows| - 1] == st then 1 else 0
      {
      }
    }
  }

  /** `TestRun.statuses`: the number of locations per status that occurs, and their sum as the total. */
  method CountStatuses(rows: seq<Status>) returns (counts: map<Status, nat>, total: nat)
    ensures forall st: Status :: (st in counts <==> st in rows) && Get(counts, st) == CountOf(rows, st)
    ensures total == |rows|
    ensures forall st: Status :: (Get(counts, st) > 0 <==> st in rows) && (Get(counts, st) == total <==> AllAre(rows, st))
  {
    counts := map[];
    for k := 0 to |rows|
      invariant forall st: Status :: (st in counts <==> st in rows[..k]) && Get(counts, st) == CountOf(rows[..k], st)
    {
      assert rows[..k + 1][..k] == rows[..k];
      counts := counts[rows[k] := Get(counts, rows[k]) + 1];
    }
    assert rows[..|rows|] == rows;
    CountsAddUp(rows);
    forall st: Status
      ensures (Get(counts, st) > 0 <==> st in rows) && (Get(counts, st) == |rows| <==> AllAre(rows, st))
    {
      CountIsPositive(rows, st);
      CountIsTotal(rows, st);
    }
    total := Get(counts, Pending) + Get(counts, Queued) + Get(counts, Ready) + Get(counts, Running) +
             Get(counts, Canceled) + Get(counts, Completed) + Get(counts, Failed);
  }

  // ----- Aggregated status

  datatype Label = Draft | Of(status: Status) | Unknown

  /** The status that is shown when both occur. */
  function Worse(a: Status, b: Status): Status {
    if Urgency(a) >= Urgency(b) then a else b
  }

  function Urgency(st: Status): nat {
    match st
    case Failed => 6
    case Canceled => 5
    case Pending => 4
    case Queued => 3
    case Ready => 2
    case Running => 1
    case Completed => 0
  }

  /** The most urgent status of all locations; a run without locations counts as completed. */
  function Worst(rows: seq<Status>): Status {
    if rows == [] then Completed else Worse(Worst(rows[..|rows| - 1]), rows[|rows| - 1])
  }

  lemma {:induction false} WorstIsTheMostUrgent(rows: seq<Status>)
    ensures Worst(rows) in rows || (Worst(rows) == Completed && AllAre(rows, Completed))
    ensures forall st | st in rows :: Urgency(st) <= Urgency(Worst(rows))
  {
    if rows != [] {
      WorstIsTheMostUrgent(rows[..|rows| - 1]);
      assert rows == rows[..|rows| - 1] + [rows[|rows| - 1]];
    }
  }

  /** The change list's status column: a cascade over counts, which is the fold and never "Unknown". */
  method StatusLabel(draft: bool, rows: seq<Status>) returns (shown: Label)
    ensures shown == if draft then Draft else Of(Worst(rows))
    ensures shown == if draft then Draft
                     else if Failed in rows then Of(Failed)
                     else if Canceled in rows then Of(Canceled)
                     else if Pending in rows then Of(Pending)
                     else if Queued in rows then Of(Queued)
                     else if Ready in rows then Of(Ready)
                     else if Running in rows then Of(Running)
                     else Of(Completed)
  {
    var counts, total := CountStatuses(rows);
    WorstIsTheMostUrgent(rows);
    if draft {
      shown := Draft;
    } else if Get(counts, Failed) > 0 {
      shown := Of(Failed);
    } else if Get(counts, Canceled) > 0 {
      shown := Of(Canceled);
    } else if Get(counts, Completed) == total {
      assert AllAre(rows, Completed);
      shown := Of(Completed);
    } else if Get(counts, Pending) > 0 {
      shown := Of(Pending);
    } else if Get(counts, Queued) > 0 {
      shown := Of(Queued);
    } else if Get(counts, Ready) > 0 {
      shown := Of(Ready);
    } else if Get(counts, Running) > 0 {
      shown := Of(Running);
    } else {
      shown := Unknown;
    }
  }

  /** The three notions of completion agree: the label, the column and `TestRun.completed`, an empty run included. */
  lemma CompletionNotionsAgree(rows: seq<Status>)
    ensures Worst(rows) == Completed <==> AllAre(rows, Completed)
    ensures FailFast(rows) && (Worst(rows) == Failed) ==> forall k | 0 <= k < |rows| :: rows[k].Terminal()
  {
    WorstIsTheMostUrgent(rows);
    if Worst(rows) == Completed {
      forall k | 0 <= k < |rows| ensures rows[k] == Completed {
        assert rows[k] in rows;
      }
    }
    if Worst(rows) == Failed {
      assert Failed in rows;
    }
  }

  /** Yes, no, or not yet known. */
  function Outcome(worst: Status): Option<bool> {
    if worst == Completed then Some(true) else if worst == Failed || worst == Canceled then Some(false) else None
  }

  /** The change list's completed column: a cascade over counts, which is the outcome of the most urgent status. */
  method CompletedColumn(draft: bool, rows: seq<Status>) returns (completed: Option<bool>)
    ensures completed == if draft then None else Outcome(Worst(rows))
    ensures !draft ==> (completed == Some(true) <==> forall k | 0 <= k < |rows| :: rows[k] == Completed)
    ensures !draft ==> (completed == Some(false) <==> Failed in rows || Canceled in rows)
  {
    if draft {
      return None;
    }
    var counts, total := CountStatuses(rows);
    WorstIsTheMostUrgent(rows);
    CompletionNotionsAgree(rows);
    if Get(counts, Failed) > 0 {
      completed := Some(false);
    } else if Get(counts, Canceled) > 0 {
      completed := Some(false);
    } else if Get(counts, Completed) == total {
      assert AllAre(rows, Completed);
      completed := Some(true);
    } else {
      completed := None;
    }
  }

  // ----- The cancel action

  predicate ToCancel(draft: bool, rows: seq<Status>) {
    !draft && Failed !in rows && !AllAre(rows, Completed)
  }

  function CountToCancel(runs: seq<TestRun>, m: nat): nat
    requires m <= |runs|
    reads runs
  {
    if m == 0 then 0 else CountToCancel(runs, m - 1) + if ToCancel(runs[m - 1].draft, runs[m - 1].rows) then 1 else 0
  }

  /** The selected runs that are started, have no failure, and have a location that has not completed. */
  function RunsToCancel(runs: seq<TestRun>, m: nat): set<nat>
    requires m <= |runs|
    reads runs
  {
    set j | 0 <= j < m && !runs[j].draft && Failed !in runs[j].rows &&
            exists k :: 0 <= k < |runs[j].rows| && runs[j].rows[k] != Completed
  }

  /** The count that the action reports is the number of those runs. */
  lemma {:induction false} CountIsTheirNumber(runs: seq<TestRun>, m: nat)
    requires m <= |runs|
    ensures CountToCancel(runs, m) == |RunsToCancel(runs, m)|
  {
    if m > 0 {
      CountIsTheirNumber(runs, m - 1);
      var r := runs[m - 1];
      if ToCancel(r.draft, r.rows) {
        assert RunsToCancel(runs, m) == RunsToCancel(runs, m - 1) + {m - 1};
      } else {
        assert RunsToCancel(runs, m) == RunsToCancel(runs, m - 1);
      }
    }
  }

  predicate NothingActive(rows: seq<Status>) {
    forall k | 0 <= k < |rows| :: rows[k].Terminal()
  }

  /** What the action makes of one selected run. */
  function AfterAction(draft: bool, sv: Server): Server {
    if draft then sv else AdminCancel(sv)
  }

  /** One selected run: drafts are filtered out, and the others guarded by their counts. */
  method CancelIfNeeded(r: TestRun, now: int) returns (canceled: bool)
    modifies r`rows, r`startedAt, r`completedAt
    ensures canceled == old(ToCancel(r.draft, r.rows))
    ensures r.Model() == AfterAction(r.draft, old(r.Model()))
  {
    canceled := false;
    if !r.draft {
      var counts, total := CountStatuses(r.rows);
      canceled := Get(counts, Failed) == 0 && Get(counts, Completed) != total;
      if canceled {
        r.CancelRun(now);
      }
    }
  }

  /** Whatever the guard skips, no started run keeps an active location, because a run with a failure has none. */
  lemma NothingStaysActive(draft: bool, sv: Server)
    requires !draft && FailFast(sv.rows)
    ensures NothingActive(AfterAction(draft, sv).rows)
  {
    AdminCancelLeavesNothingActive(sv);
  }

  /**
   * Cancels the selected runs that pass the guard and leaves the others alone. Whatever the guard skips, no selected run
   * that was started keeps an active location, because a run with a failure has none.
   */
  method CancelTestRuns(runs: seq<TestRun>, now: int) returns (count: nat)
    requires forall j, k | 0 <= j < k < |runs| :: runs[j] != runs[k]
    modifies runs
    ensures count == old(CountToCancel(runs, |runs|))
    ensures forall j | 0 <= j < |runs| :: runs[j].draft == old(runs[j].draft)
    ensures forall j | 0 <= j < |runs| :: runs[j].Model() == AfterAction(runs[j].draft, old(runs[j].Model()))
    ensures forall j | 0 <= j < |runs| && !runs[j].draft && FailFast(old(runs[j].rows)) :: NothingActive(runs[j].rows)
  {
    count := 0;
    for m := 0 to |runs|
      invariant count == old(CountToCancel(runs, m))
      invariant forall j | 0 <= j < |runs| :: runs[j].draft == old(runs[j].draft)
      invariant forall j | 0 <= j < m :: runs[j].Model() == AfterAction(runs[j].draft, old(runs[j].Model()))
      invariant forall j | m <= j < |runs| :: runs[j].Model() == old(runs[j].Model())
    {
      var canceled := CancelIfNeeded(runs[m], now);
      if canceled {
        count := count + 1;
      }
    }
    forall j | 0 <= j < |runs| && !runs[j].draft && FailFast(old(runs[j].rows)) ensures NothingActive(runs[j].rows) {
      NothingStaysActive(runs[j].draft, old(runs[j].Model()));
    }
  }
}
