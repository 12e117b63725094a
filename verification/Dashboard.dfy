/** The time window of the results dashboard that `TestRun.grafana_url` links to. */
module Dashboard {
  import opened Statuses
  import opened Server

  const MINUTE: int := 60 * SECOND
  const HOUR: int := 60 * MINUTE

  /** A bound relative to the viewer's present, or milliseconds since the epoch. */
  datatype Bound = Relative(expression: string) | Millis(ms: int)

  /** The job deadline as text: empty, not a duration, or a duration in microseconds. */
  datatype Deadline = Empty | Malformed | Parsed(duration: int)

  function FloorMinute(t: int): int {
    t - t % MINUTE
  }

  /** How long a run that has not completed is shown from the left edge of its window. */
  function ShownFor(deadline: Deadline): int {
    if deadline.Parsed? then deadline.duration + 5 * MINUTE else HOUR
  }

  lemma Thousands(y: int)
    ensures (1000 * y) / 1000 == y
  {
  }

  lemma Minutes(q: int)
    ensures (MINUTE * q) % MINUTE == 0
  {
  }

  lemma FloorMinuteIsClose(t: int)
    ensures t - MINUTE < FloorMinute(t) <= t && FloorMinute(t) % MINUTE == 0
    ensures 1000 * (FloorMinute(t) / 1000) == FloorMinute(t)
  {
    var q := t / MINUTE;
    assert FloorMinute(t) == MINUTE * q;
    assert MINUTE * q == 1000 * (60_000 * q);
    Thousands(60_000 * q);
    Minutes(q);
  }

  lemma FiveMinutesBefore(t: int)
    ensures (t - 5 * MINUTE) % MINUTE == t % MINUTE
  {
  }

  lemma WholeMillis(edge: int, d: int)
    requires 1000 * (edge / 1000) == edge
    ensures (edge + d) / 1000 == edge / 1000 + d / 1000
  {
  }

  /** The right edge of a running test's window, whose left edge is truncated, against the job deadline after the start. */
  lemma TruncatedDeadline(startedAt: int, duration: int)
    ensures 1000 * ((FloorMinute(startedAt - 5 * MINUTE) + ShownFor(Parsed(duration))) / 1000) ==
            startedAt + duration - startedAt % MINUTE - duration % 1000
  {
    var left := FloorMinute(startedAt - 5 * MINUTE);
    assert left == startedAt - 5 * MINUTE - startedAt % MINUTE by { FiveMinutesBefore(startedAt); }
    assert 1000 * (left / 1000) == left by { FloorMinuteIsClose(startedAt - 5 * MINUTE); }
    WholeMillis(left, duration + 5 * MINUTE);
    WholeMillis(5 * MINUTE, duration);
  }

  /**
   * In microseconds, an edge being in milliseconds: a stamped edge lies on a whole minute, the left one from 5 to less than
   * 6 minutes before the start, the right one from more than 4 to 5 minutes after the completion. Without a start the
   * window is the hour before the right edge, and without a deadline that of a running test is an hour long.
   * While a run with a deadline is going, truncation ends the window earlier than the deadline after the start, by what the
   * start exceeds a whole minute and the deadline a whole millisecond: not at all exactly when both are whole.
   */
  method Window(startedAt: Option<int>, completedAt: Option<int>, deadline: Deadline)
    returns (from: Bound, to: Bound, refresh: bool)
    ensures refresh <==> completedAt.None?
    ensures startedAt.None? && completedAt.None? ==> from == Relative("now-1h") && to == Relative("now")
    ensures startedAt.Some? ==>
              from.Millis? && startedAt.value - 360_000_000 < from.ms * 1000 <= startedAt.value - 300_000_000
    ensures completedAt.Some? ==>
              to.Millis? && completedAt.value + 240_000_000 < to.ms * 1000 <= completedAt.value + 300_000_000
    ensures startedAt.None? && completedAt.Some? ==> from.Millis? && from.ms * 1000 == to.ms * 1000 - 3_600_000_000
    ensures startedAt.Some? && completedAt.None? ==> from.Millis? && to == Millis(from.ms + ShownFor(deadline) / 1000)
    ensures startedAt.Some? && completedAt.None? && !deadline.Parsed? ==> to == Millis(from.ms + 3_600_000)
    ensures startedAt.Some? && completedAt.None? && deadline.Parsed? ==>
              var end, start, duration := startedAt.value + deadline.duration, startedAt.value, deadline.duration;
              && to.Millis? && 1000 * to.ms == end - start % 60_000_000 - duration % 1000
              && (1000 * to.ms == end <==> start % 60_000_000 == 0 && duration % 1000 == 0)
    ensures (startedAt.Some? ==> (from.ms * 1000) % 60_000_000 == 0) && (completedAt.Some? ==> (to.ms * 1000) % 60_000_000 == 0)
  {
    from, to := Relative("now-1h"), Relative("now");
    if startedAt.Some? {
      FloorMinuteIsClose(startedAt.value - 5 * MINUTE);
      var left := FloorMinute(startedAt.value - 5 * MINUTE);
      from := Millis(left / 1000);
      if completedAt.None? {
        var duration := HOUR;
        if deadline.Parsed? {
          duration := deadline.duration + 5 * MINUTE;
          TruncatedDeadline(startedAt.value, deadline.duration);
        }
        WholeMillis(left, duration);
        to := Millis((left + duration) / 1000);
      }
    }
    if completedAt.Some? {
      FloorMinuteIsClose(completedAt.value + 5 * MINUTE);
      var right := FloorMinute(completedAt.value + 5 * MINUTE);
      to := Millis(right / 1000);
      if startedAt.None? {
        WholeMillis(right, -HOUR);
        from := Millis((right - HOUR) / 1000);
      }
    }
    refresh := completedAt.None?;
  }
}
