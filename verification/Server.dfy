/** What one webapp request does to a test run: rows of `TestRunLocation`, in primary key order, and the run's two stamps. */
module Server {
  import opened Statuses

  // Times are microseconds on a clock shared by the webapp and the operators.
  const SECOND: int := 1_000_000
  const START_DELAY: int := 30 * SECOND

  datatype Server = Server(rows: seq<Status>, startedAt: Option<int>, completedAt: Option<int>)

  /** The answer to a PUT: refused by validation, or the state after the save and its hooks. */
  datatype Reply = Rejected | Accepted(server: Server)

  function FloorSecond(t: int): int {
    t - t % SECOND
  }

  predicate AllAre(rows: seq<Status>, st: Status) {
    forall k | 0 <= k < |rows| :: rows[k] == st
  }

  predicate Active(st: Status) {
    st == Pending || st == Queued || st == Ready || st == Running
  }

  /** Cancels every row that has neither failed nor completed. */
  function Cascade(rows: seq<Status>): (r: seq<Status>)
    ensures |r| == |rows|
    ensures forall k | 0 <= k < |rows| :: r[k] == if rows[k] == Failed || rows[k] == Completed then rows[k] else Canceled
  {
    seq(|rows|, k requires 0 <= k < |rows| => if rows[k] == Failed || rows[k] == Completed then rows[k] else Canceled)
  }

  /** Cancels every row that is still active. */
  function CancelActive(rows: seq<Status>): (r: seq<Status>)
    ensures |r| == |rows|
    ensures forall k | 0 <= k < |rows| :: r[k] == if Active(rows[k]) then Canceled else rows[k]
  {
    seq(|rows|, k requires 0 <= k < |rows| => if Active(rows[k]) then Canceled else rows[k])
  }

  /** A PUT of status `st` to row `i`: validation, save, then the three post-save hooks in order. */
  function Put(sv: Server, now: int, i: nat, st: Status): Reply
    requires i < |sv.rows|
  {
    if !Accepts(sv.rows[i], st) then Rejected
    else
      var rows := sv.rows[i := st];
      Accepted(Server(
        if st == Failed then Cascade(rows) else rows,
        if st == Ready && sv.startedAt == None && AllAre(rows, Ready) then Some(FloorSecond(now + START_DELAY)) else sv.startedAt,
        if st == Completed && sv.completedAt == None && AllAre(rows, Completed) then Some(FloorSecond(now)) else sv.completedAt))
  }

  /** The admin action on one started run: guarded by the status counts, then every active row is canceled. */
  function AdminCancel(sv: Server): Server {
    if Failed !in sv.rows && !AllAre(sv.rows, Completed) then sv.(rows := CancelActive(sv.rows)) else sv
  }

  /** A failed location leaves no location active. */
  ghost predicate FailFast(rows: seq<Status>) {
    Failed in rows ==> forall k | 0 <= k < |rows| :: !Active(rows[k])
  }

  /** All locations ready means that the start is agreed. */
  ghost predicate BarrierOpen(sv: Server) {
    AllAre(sv.rows, Ready) ==> sv.startedAt.Some?
  }

  // ----- What holds whatever a client sends

  /**
   * One accepted request, location by location and in microseconds: only a failure reaches other locations, the start is
   * stamped once and only by the last one to become ready, and the completion once and only by the last one to complete.
   */
  lemma PutEffect(sv: Server, now: int, i: nat, st: Status)
    requires i < |sv.rows| && Put(sv, now, i, st).Accepted?
    ensures var r := Put(sv, now, i, st).server;
            && |r.rows| == |sv.rows| && r.rows[i] == st
            && forall k | 0 <= k < |sv.rows| && k != i ::
                 r.rows[k] == if st == Failed && sv.rows[k] != Failed && sv.rows[k] != Completed then Canceled else sv.rows[k]
    ensures var r := Put(sv, now, i, st).server;
            if sv.startedAt == None && st == Ready && (forall k | 0 <= k < |sv.rows| && k != i :: sv.rows[k] == Ready)
            then r.startedAt.Some? && now + 29_000_000 < r.startedAt.value <= now + 30_000_000 && r.startedAt.value % 1_000_000 == 0
            else r.startedAt == sv.startedAt
    ensures var r := Put(sv, now, i, st).server;
            if sv.completedAt == None && st == Completed && (forall k | 0 <= k < |sv.rows| && k != i :: sv.rows[k] == Completed)
            then r.completedAt.Some? && now - 1_000_000 < r.completedAt.value <= now && r.completedAt.value % 1_000_000 == 0
            else r.completedAt == sv.completedAt
  {
    var rows := sv.rows[i := st];
    FloorSecondIsClose(now + START_DELAY);
    FloorSecondIsClose(now);
    OthersDecide(sv.rows, i, st);
  }

  lemma OthersDecide(rows: seq<Status>, i: nat, st: Status)
    requires i < |rows|
    ensures AllAre(rows[i := st], st) <==> forall k | 0 <= k < |rows| && k != i :: rows[k] == st
  {
    var after := rows[i := st];
    forall k | 0 <= k < |rows| && k != i ensures after[k] == rows[k] {
    }
  }

  /** The start is stamped more than 29 and at most 30 seconds ahead, on a whole second. */
  lemma StampIsAhead(sv: Server, now: int, i: nat, st: Status)
    requires i < |sv.rows| && sv.startedAt == None
    requires Put(sv, now, i, st).Accepted? && Put(sv, now, i, st).server.startedAt.Some?
    ensures var v := Put(sv, now, i, st).server.startedAt.value;
            now + 29 * SECOND < v <= now + 30 * SECOND && v % SECOND == 0
    ensures AllAre(Put(sv, now, i, st).server.rows, Ready)
  {
    FloorSecondIsClose(now + START_DELAY);
  }

  lemma FloorSecondIsClose(t: int)
    ensures t - SECOND < FloorSecond(t) <= t && FloorSecond(t) % SECOND == 0
    ensures forall u | u <= t && u % SECOND == 0 :: u <= FloorSecond(t)
  {
    forall u | u <= t && u % SECOND == 0 ensures u <= FloorSecond(t) {
      assert u == SECOND * (u / SECOND) && t == SECOND * (t / SECOND) + t % SECOND;
      assert u / SECOND <= t / SECOND;
    }
    assert t == SECOND * (t / SECOND) + t % SECOND;
    assert (SECOND * (t / SECOND)) % SECOND == 0;
  }

  /** The barrier opens for every client: no sequence of PUTs reaches an all-ready run without a start. */
  lemma PutKeepsBarrierOpen(sv: Server, now: int, i: nat, st: Status)
    requires i < |sv.rows| && BarrierOpen(sv)
    ensures Put(sv, now, i, st).Accepted? ==> BarrierOpen(Put(sv, now, i, st).server)
  {
    var r := Put(sv, now, i, st);
    if r.Accepted? && AllAre(r.server.rows, Ready) {
      assert r.server.rows[i] == Ready;
      assert st != Failed;
      assert st == Ready;
    }
  }

  /** While a row moves from QUEUED to READY the count of rows that are not ready is never zero. */
  lemma ReadyBodySeesItself(rows: seq<Status>, i: nat)
    requires i < |rows| && rows[i] == Queued
    ensures !AllAre(rows, Ready)
  {
    assert rows[i] != Ready;
  }

  /**
   * Exactly one kind of accepted request breaks fail-fast: a retry of a failed location while another one has failed.
   * The transition is declared, so a client could ask for it; neither the operator nor the admin does.
   */
  lemma {:induction false} PutKeepsFailFastUnlessRetried(sv: Server, now: int, i: nat, st: Status)
    requires i < |sv.rows| && FailFast(sv.rows)
    requires Put(sv, now, i, st).Accepted?
    ensures FailFast(Put(sv, now, i, st).server.rows) <==>
            !(sv.rows[i] == Failed && st == Pending && exists k | 0 <= k < |sv.rows| :: k != i && sv.rows[k] == Failed)
  {
    var rows := sv.rows[i := st];
    var after := Put(sv, now, i, st).server.rows;
    if st == Failed {
    } else {
      assert after == rows;
      if sv.rows[i] == Failed && st == Pending {
        if k :| 0 <= k < |sv.rows| && k != i && sv.rows[k] == Failed {
          assert rows[k] == Failed && rows[i] == Pending && Failed in rows;
        } else {
          assert Failed !in rows;
        }
      } else if Failed in rows {
        var k :| 0 <= k < |rows| && rows[k] == Failed;
        assert sv.rows[k] == Failed;
        assert !Active(sv.rows[i]);
      }
    }
  }

  /** Whatever the guard decides, no active row is left: a run with a failure has none by fail-fast. */
  lemma AdminCancelLeavesNothingActive(sv: Server)
    requires FailFast(sv.rows)
    ensures forall k | 0 <= k < |sv.rows| :: !Active(AdminCancel(sv).rows[k])
    ensures |AdminCancel(sv).rows| == |sv.rows|
    ensures forall k | 0 <= k < |sv.rows| :: !Active(sv.rows[k]) ==> AdminCancel(sv).rows[k] == sv.rows[k]
    ensures AdminCancel(sv).startedAt == sv.startedAt && AdminCancel(sv).completedAt == sv.completedAt
  {
  }
}
