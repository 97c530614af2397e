/**
 * The order status set and the command-path state machine
 * (domain/states.py, domain/state_machine.py).
 */
module OrderLifecycle {
  import opened Basics

  datatype Status =
    | Created
    | RiskRejected
    | RiskAccepted
    | Aborted
    | Submitting
    | Acknowledged
    | PartiallyFilled
    | Filled
    | CancelPending
    | Cancelled
    | Rejected
    | Unknown
    | Reconciling
    | ManualReview

  datatype Disposition = Applied | DuplicateIgnored | StaleIgnored

  datatype Outcome = Outcome(previous: Status, current: Status, requested: Status, disposition: Disposition) {
    predicate Changed() { previous != current }
  }

  datatype TransitionError = InvalidTransition(from: Status, to: Status)

  predicate IsTerminal(s: Status) {
    s in {RiskRejected, Aborted, Filled, Cancelled, Rejected, ManualReview}
  }

  /** The three terminal states that only a broker fact can establish. */
  predicate IsBrokerTerminal(s: Status) {
    s in {Filled, Cancelled, Rejected}
  }

  /** States in which no command has been reserved for the broker. */
  predicate IsPreSubmit(s: Status) {
    s in {Created, RiskRejected, RiskAccepted, Aborted}
  }

  /** States a fresh session must not leave behind after recovery. */
  predicate IsAmbiguous(s: Status) {
    s in {Created, RiskAccepted, Submitting, CancelPending, Unknown, Reconciling}
  }

  predicate Allowed(current: Status, requested: Status) {
    match current
    case Created => requested in {RiskRejected, RiskAccepted, Aborted}
    case RiskAccepted => requested in {Submitting, Aborted}
    case Submitting => requested in {Acknowledged, Rejected, Unknown}
    case Acknowledged => requested in {PartiallyFilled, Filled, CancelPending}
    case PartiallyFilled => requested in {Filled, CancelPending, Cancelled}
    case CancelPending => requested in {Cancelled, PartiallyFilled, Filled, Unknown}
    case Unknown => requested == Reconciling
    case Reconciling =>
      requested in {Acknowledged, PartiallyFilled, Filled, Rejected, Cancelled, ManualReview}
    case _ => false
  }

  /** Requests older than the current state: recorded, never applied. */
  predicate Stale(current: Status, requested: Status) {
    match current
    case RiskAccepted => requested == Created
    case Submitting => requested in {Created, RiskAccepted}
    case Acknowledged => requested in {Created, RiskAccepted, Submitting}
    case PartiallyFilled => requested in {Created, RiskAccepted, Submitting, Acknowledged}
    case CancelPending => requested in {Created, RiskAccepted, Submitting, Acknowledged}
    case _ => false
  }

  /** One deterministic, monotone command-path step. */
  function Transition(current: Status, requested: Status): (r: Result<Outcome, TransitionError>)
    ensures r.Ok? ==> r.value.previous == current && r.value.current in {current, requested}
  {
    if current == requested then
      Ok(Outcome(current, current, requested, DuplicateIgnored))
    else if IsTerminal(current) then
      Ok(Outcome(current, current, requested, StaleIgnored))
    else if Allowed(current, requested) then
      Ok(Outcome(current, requested, requested, Applied))
    else if Stale(current, requested) then
      Ok(Outcome(current, current, requested, StaleIgnored))
    else
      Err(InvalidTransition(current, requested))
  }

  /** The status after a run of requests; one that raises leaves it. */
  function RunRequests(s: Status, requests: seq<Status>): Status
    decreases |requests|
  {
    if requests == [] then s
    else
      var r := Transition(s, requests[0]);
      RunRequests(if r.Ok? then r.value.current else s, requests[1..])
  }

  /** How far the order is on its way to the broker. */
  function Phase(s: Status): nat {
    match s
    case Created => 0
    case RiskAccepted => 1
    case Submitting => 2
    case _ => 3
  }

  /** No run of requests returns to an earlier phase; in particular no order is brought to SUBMITTING twice. */
  lemma {:induction false} RequestsOnlyGoOn(s: Status, requests: seq<Status>)
    ensures RunRequests(s, requests) == s || Phase(s) < Phase(RunRequests(s, requests)) || Phase(s) == 3
    ensures Phase(s) == 3 ==> Phase(RunRequests(s, requests)) == 3
    ensures IsTerminal(s) ==> RunRequests(s, requests) == s
    decreases |requests|
  {
    if requests != [] {
      var t := Transition(s, requests[0]);
      var n := if t.Ok? then t.value.current else s;
      RequestsOnlyGoOn(n, requests[1..]);
    }
  }

  /** The terminal statuses are exactly those that no run of requests ever leaves. */
  lemma TerminalExactlyWhenStuck(s: Status)
    ensures IsTerminal(s) <==> forall requests :: RunRequests(s, requests) == s
  {
    if IsTerminal(s) {
      forall requests ensures RunRequests(s, requests) == s {
        RequestsOnlyGoOn(s, requests);
      }
    } else {
      var next := WayOn(s);
      OneRequest(s, next);
      assert next != s && RunRequests(s, [next]) != s;
    }
  }

  lemma OneRequest(s: Status, next: Status)
    requires Allowed(s, next)
    ensures RunRequests(s, [next]) == next
  {
    assert [next][1..] == [];
  }

  /** From where a request brings an order to each status; a request for any other is never applied. */
  lemma EnteredExactlyFrom(s: Status, requested: Status)
    ensures Transition(s, requested).Ok? && Transition(s, requested).value.disposition == Applied <==>
            match requested
            case Created => false
            case RiskAccepted | RiskRejected => s == Created
            case Aborted => s in {Created, RiskAccepted}
            case Submitting => s == RiskAccepted
            case Unknown => s in {Submitting, CancelPending}
            case Reconciling => s == Unknown
            case ManualReview => s == Reconciling
            case Acknowledged | Rejected => s in {Submitting, Reconciling}
            case CancelPending => s in {Acknowledged, PartiallyFilled}
            case PartiallyFilled => s in {Acknowledged, CancelPending, Reconciling}
            case Filled => s in {Acknowledged, PartiallyFilled, CancelPending, Reconciling}
            case Cancelled => s in {PartiallyFilled, CancelPending, Reconciling}
    ensures Transition(s, requested).Ok? ==>
              (Transition(s, requested).value.Changed() <==> Transition(s, requested).value.disposition == Applied)
  {
  }

  /**
   * A request that is not applied is a repeat, comes too late or is illegal: it comes too
   * late for every ended order and for a live one that has passed the requested stage.
   */
  lemma LateExactlyWhenPassed(s: Status, requested: Status)
    requires !(Transition(s, requested).Ok? && Transition(s, requested).value.Changed())
    ensures s == requested <==> Transition(s, requested) == Ok(Outcome(s, s, requested, DuplicateIgnored))
    ensures Transition(s, requested) == Ok(Outcome(s, s, requested, StaleIgnored)) <==>
            && s != requested
            && (|| s in {RiskRejected, Aborted, Filled, Cancelled, Rejected, ManualReview}
                || (s in {RiskAccepted, Submitting, Acknowledged, PartiallyFilled, CancelPending}
                    && requested in {Created, RiskAccepted, Submitting, Acknowledged}
                    && exists requests :: RunRequests(requested, requests) == s))
  {
    if s != requested && Stale(s, requested) {
      StaleMeansPassed(s, requested);
    }
    forall requests | RunRequests(requested, requests) == s && !IsTerminal(s) && s != requested
      ensures Phase(requested) < Phase(s) || Phase(requested) == Phase(s) == 3
    {
      RequestsOnlyGoOn(requested, requests);
    }
  }

  function WayOn(s: Status): (r: Status)
    requires !IsTerminal(s)
    ensures Allowed(s, r)
  {
    match s
    case Created => RiskAccepted
    case RiskAccepted => Submitting
    case Submitting => Unknown
    case Acknowledged => Filled
    case PartiallyFilled => Filled
    case CancelPending => Cancelled
    case Unknown => Reconciling
    case Reconciling => Filled
  }

  /** A request is ignored as stale only if the order could have come through it. */
  lemma {:induction false} StaleMeansPassed(current: Status, requested: Status)
    requires Stale(current, requested)
    ensures exists requests :: RunRequests(requested, requests) == current
    decreases 3 - Phase(requested)
  {
    var next := match requested
      case Created => RiskAccepted
      case RiskAccepted => Submitting
      case Submitting => Acknowledged
      case _ => current;
    var rest: seq<Status> := [];
    if next != current {
      StaleMeansPassed(current, next);
      rest :| RunRequests(next, rest) == current;
    }
    assert ([next] + rest)[1..] == rest;
    assert RunRequests(requested, [next] + rest) == current;
  }
}
