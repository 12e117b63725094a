/** The life cycle of one test-run location, as the webapp's finite state machine declares it. */
module Statuses {

  datatype Option<+T> = None | Some(value: T)

  datatype Status = Pending | Queued | Ready | Running | Canceled | Completed | Failed {

    /** No branch of the operator works on a job in one of these statuses. */
    predicate Terminal() {
      Canceled? || Completed? || Failed?
    }

    /** Position on the way through the life cycle; every write of a running system raises it. */
    function Rank(): nat {
      match this
      case Pending => 0
      case Queued => 1
      case Ready => 2
      case Running => 3
      case Completed => 4
      case Canceled => 4
      case Failed => 5
    }
  }

  /** A declared transition; without a source it is allowed from every status. */
  datatype Transition = Transition(name: string, source: Option<Status>, target: Status) {
    predicate AvailableFrom(from: Status) {
      source.None? || source.value == from
    }
  }

  const TRANSITIONS: seq<Transition> := [
    Transition("accept", Some(Pending), Queued),
    Transition("ready", Some(Queued), Ready),
    Transition("start", Some(Ready), Running),
    Transition("finish", Some(Running), Completed),
    Transition("fail", None, Failed),
    Transition("cancel", None, Canceled),
    Transition("retry", Some(Failed), Pending)
  ]

  /** The writes the webapp accepts, by source and target. */
  predicate Accepts(from: Status, to: Status) {
    || from == to
    || to == Failed
    || to == Canceled
    || (from == Pending && to == Queued)
    || (from == Queued && to == Ready)
    || (from == Ready && to == Running)
    || (from == Running && to == Completed)
    || (from == Failed && to == Pending)
  }

  /** The acceptance predicate and the declared table are the same relation. */
  lemma AcceptsIsTheTable(from: Status, to: Status)
    ensures Accepts(from, to) <==>
            from == to || exists k | 0 <= k < |TRANSITIONS| :: TRANSITIONS[k].AvailableFrom(from) && TRANSITIONS[k].target == to
  {
    var t := TRANSITIONS;
    assert t[0].target == Queued && t[1].target == Ready && t[2].target == Running && t[3].target == Completed;
    assert t[4].target == Failed && t[5].target == Canceled && t[6].target == Pending;
  }

  /**
   * What is accepted: the same status again, a failure or a cancel from anywhere, the retry of a failure, and otherwise
   * just the next rank.
   */
  lemma AcceptedExactlyWhen(from: Status, to: Status)
    ensures Accepts(from, to) <==>
            || to == from || to == Failed || to == Canceled
            || (from == Failed && to == Pending)
            || to.Rank() == from.Rank() + 1
  {
    assert Pending.Rank() == 0 && Queued.Rank() == 1 && Ready.Rank() == 2 && Running.Rank() == 3 && Completed.Rank() == 4;
  }

  /** Of all accepted writes that change a status, only a retry and rewrites of finished locations do not raise the rank. */
  lemma OnlyRetryAndRewritesLowerTheRank(from: Status, to: Status)
    requires from != to && Accepts(from, to)
    ensures to.Rank() <= from.Rank() <==>
            (from == Failed && to == Pending) || (to == Canceled && (from == Completed || from == Failed))
  {
  }
}
