/**
 * One row of the order table and every write the program makes to it
 * (oms/repository.py). Each write is a pure function from the row before to
 * the row after, or to the error that rolls the transaction back.
 */
module OrderRows {
  import opened Basics
  import opened OrderLifecycle

  datatype Order = Order(
    status: Status,
    brokerId: Option<string>,
    filled: int,
    quantity: int,
    submitStarted: bool,
    cancelStarted: bool,
    cancelResolved: bool)

  datatype FillError = OutsideRange | FilledMismatch | RejectedWithFill | CancelledAtQuantity | PartialWithoutFill

  datatype RowError =
    | BrokerIdMismatch
    | LifecycleConflict
    | InvalidFill(why: FillError)
    | IllegalTransition
    | AlreadyStarted

  function Max(a: int, b: int): int { if a < b then b else a }

  /** The row `create_intent` inserts. */
  function NewOrder(quantity: int): Order {
    Order(Created, None, 0, quantity, false, false, false)
  }

  /** The row inserted for a submit that is already durable in the command spool. */
  function ImportedOrder(quantity: int): Order {
    Order(Reconciling, None, 0, quantity, true, false, false)
  }

  // ---------------------------------------------------------------- broker facts

  /** Adjusts a reported status to the largest fill known so far. */
  function Normalize(target: Status, effective: int, quantity: int): Result<Status, FillError> {
    if target == Filled && effective != quantity then Err(FilledMismatch)
    else if target == Rejected && effective != 0 then Err(RejectedWithFill)
    else if target == Cancelled && effective == quantity then Err(CancelledAtQuantity)
    else if target == Acknowledged || target == PartiallyFilled then
      if effective == quantity then Ok(Filled)
      else if effective > 0 then Ok(PartiallyFilled)
      else if target == PartiallyFilled then Err(PartialWithoutFill)
      else Ok(target)
    else Ok(target)
  }

  /** Broker-fact aggregation; independent of the command-path edges. */
  function Aggregate(current: Status, target: Status): (r: Outcome)
    ensures r.previous == current && r.current in {current, target}
  {
    var next :=
      if current == ManualReview || IsBrokerTerminal(current) then current
      else if target == Acknowledged && current in {PartiallyFilled, CancelPending} then current
      else target;
    var disposition :=
      if next != current then Applied
      else if target == current then DuplicateIgnored
      else StaleIgnored;
    Outcome(current, next, target, disposition)
  }

  /** Merges one reported fact into the row; the order of the checks is the program's. */
  function MergeFact(o: Order, target: Status, brokerId: Option<string>,
                     fill: int): Result<(Order, Outcome), RowError> {
    if brokerId.Some? && o.brokerId.Some? && o.brokerId != brokerId then
      Err(BrokerIdMismatch)
    else if IsBrokerTerminal(o.status) && IsBrokerTerminal(target) && o.status != target then
      Err(LifecycleConflict)
    else if fill < 0 || fill > o.quantity then
      Err(InvalidFill(OutsideRange))
    else
      var effective := Max(o.filled, fill);
      match Normalize(target, effective, o.quantity)
      case Err(why) => Err(InvalidFill(why))
      case Ok(normalized) =>
        if IsBrokerTerminal(o.status) && IsBrokerTerminal(normalized) && o.status != normalized then
          Err(LifecycleConflict)
        else if o.status in {Cancelled, Rejected} && effective > o.filled then
          Err(LifecycleConflict)
        else
          var outcome := Aggregate(o.status, normalized);
          Ok((o.(status := outcome.current,
                 brokerId := if o.brokerId.None? then brokerId else o.brokerId,
                 filled := effective),
              outcome))
  }

  /** Fails closed after contradictory broker evidence; re-checks a supplied fill. */
  function MarkConflict(o: Order, fill: Option<int>): Result<Order, RowError> {
    if fill.Some? && (fill.value < 0 || fill.value > o.quantity) then
      Err(InvalidFill(OutsideRange))
    else
      Ok(o.(status := ManualReview, filled := if fill.Some? then Max(o.filled, fill.value) else o.filled))
  }

  // ------------------------------------------------------------- command-path writes

  /** `transition_order` as every caller uses it: no broker id and no fill. */
  function CommandTransition(o: Order, target: Status, resolved: Option<bool>): Result<(Order, Outcome), RowError> {
    match Transition(o.status, target)
    case Err(_) => Err(IllegalTransition)
    case Ok(outcome) =>
      Ok((o.(status := outcome.current,
             cancelResolved := if resolved.Some? then resolved.value else o.cancelResolved),
          outcome))
  }

  function PrepareSubmit(o: Order): Result<Order, RowError> {
    match Transition(o.status, Submitting)
    case Err(_) => Err(IllegalTransition)
    case Ok(outcome) =>
      if !outcome.Changed() || o.submitStarted then Err(AlreadyStarted)
      else Ok(o.(status := Submitting, submitStarted := true))
  }

  function PrepareCancel(o: Order): Result<Order, RowError> {
    match Transition(o.status, CancelPending)
    case Err(_) => Err(IllegalTransition)
    case Ok(outcome) =>
      if !outcome.Changed() || o.cancelStarted then Err(AlreadyStarted)
      else Ok(o.(status := CancelPending, cancelStarted := true, cancelResolved := false))
  }

  function MarkManualReview(o: Order, resolved: Option<bool>): Order {
    o.(status := ManualReview, cancelResolved := if resolved.Some? then resolved.value else o.cancelResolved)
  }

  /** A command result may start reconciliation but never selects a broker state. */
  function ExecutionTarget(s: Status, begin: bool): Status {
    if begin && s in {Submitting, CancelPending} then Unknown
    else if begin && s == Unknown then Reconciling
    else s
  }

  // ------------------------------------------------------------------- all row steps

  datatype RowStep =
    | Fact(target: Status, brokerId: Option<string>, fill: int)
    | Conflict(reported: Option<int>)
    | Review(resolved: Option<bool>)
    | Risk(accepted: bool)
    | ReserveSubmit
    | ReserveCancel
    | Abort
    | ToUnknown
    | ToReconciling
    | RestoreCancelPending
    | NotFound(resolved: Option<bool>)
    | SameStatus(resolved: Option<bool>)
    | ExecutionResult(begin: bool)

  /** Facts carry one of the five statuses the evidence schema allows. */
  predicate IsReportable(s: Status) {
    s in {Acknowledged, PartiallyFilled, Filled, Cancelled, Rejected}
  }

  predicate CancelUnresolved(o: Order) { o.cancelStarted && !o.cancelResolved }

  /** What the calling code has checked before it makes the write. */
  predicate StepGuard(o: Order, step: RowStep) {
    match step
    case Fact(target, _, _) => IsReportable(target)
    case RestoreCancelPending => CancelUnresolved(o) && o.status in {Acknowledged, PartiallyFilled}
    case SameStatus(_) => o.status != CancelPending
    case _ => true
  }

  function ApplyStep(o: Order, step: RowStep): Result<Order, RowError> {
    match step
    case Fact(target, brokerId, fill) => Committed(MergeFact(o, target, brokerId, fill))
    case Conflict(reported) => MarkConflict(o, reported)
    case Review(resolved) => Ok(MarkManualReview(o, resolved))
    case Risk(accepted) => Committed(CommandTransition(o, if accepted then RiskAccepted else RiskRejected, None))
    case ReserveSubmit => PrepareSubmit(o)
    case ReserveCancel => PrepareCancel(o)
    case Abort => Committed(CommandTransition(o, Aborted, None))
    case ToUnknown => Committed(CommandTransition(o, Unknown, None))
    case ToReconciling => Committed(CommandTransition(o, Reconciling, None))
    case RestoreCancelPending => Committed(CommandTransition(o, CancelPending, None))
    case NotFound(resolved) => Committed(CommandTransition(o, ManualReview, resolved))
    case SameStatus(resolved) => Committed(CommandTransition(o, o.status, resolved))
    case ExecutionResult(begin) => Committed(CommandTransition(o, ExecutionTarget(o.status, begin), None))
  }

  function Committed(r: Result<(Order, Outcome), RowError>): Result<Order, RowError> {
    match r
    case Ok((o, _)) => Ok(o)
    case Err(e) => Err(e)
  }

  /** A run of writes; one that raises is rolled back and leaves the row alone. */
  function RunRow(o: Order, steps: seq<RowStep>): Order
    decreases |steps|
  {
    if steps == [] then o
    else
      var next := if StepGuard(o, steps[0]) then ApplyStep(o, steps[0]) else Err(IllegalTransition);
      RunRow(if next.Ok? then next.value else o, steps[1..])
  }

  // --------------------------------------------------------------------- invariant

  /** Status determines what the fill can be. */
  predicate FillFitsStatus(o: Order) {
    match o.status
    case Created | RiskRejected | RiskAccepted | Aborted | Submitting | Acknowledged | Rejected => o.filled == 0
    case PartiallyFilled => 0 < o.filled < o.quantity
    case Cancelled | CancelPending | Unknown | Reconciling => o.filled < o.quantity
    case Filled => o.filled == o.quantity
    case ManualReview => true
  }

  /** Status determines which reservations and which identity the row can hold. */
  predicate FlagsFitStatus(o: Order) {
    && (IsPreSubmit(o.status) || o.status == Submitting ==> o.brokerId.None? && !o.cancelStarted)
    && (IsPreSubmit(o.status) ==> !o.submitStarted)
    && (o.status == Submitting ==> o.submitStarted)
    && (o.status == CancelPending ==> CancelUnresolved(o))
  }

  predicate Coupled(o: Order) {
    && 0 <= o.filled <= o.quantity
    && 0 < o.quantity
    && FillFitsStatus(o)
    && FlagsFitStatus(o)
  }

  /** What no write ever takes back. */
  predicate Advances(o: Order, p: Order) {
    && p.quantity == o.quantity
    && o.filled <= p.filled
    && (o.brokerId.Some? ==> p.brokerId == o.brokerId)
    && (o.submitStarted ==> p.submitStarted)
    && (o.cancelStarted ==> p.cancelStarted)
    && (o.status == ManualReview ==> p.status == ManualReview)
    && (IsBrokerTerminal(o.status) ==> p.status in {o.status, ManualReview})
  }

  lemma FactKeepsCoupling(o: Order, target: Status, brokerId: Option<string>, fill: int)
    requires Coupled(o) && IsReportable(target)
    requires MergeFact(o, target, brokerId, fill).Ok?
    ensures var p := MergeFact(o, target, brokerId, fill).value.0;
            Coupled(p) && Advances(o, p) && p.filled == Max(o.filled, fill)
  {
  }

  lemma StepKeepsCoupling(o: Order, step: RowStep)
    requires Coupled(o) && StepGuard(o, step) && ApplyStep(o, step).Ok?
    ensures Coupled(ApplyStep(o, step).value)
    ensures Advances(o, ApplyStep(o, step).value)
  {
    match step
    case Fact(target, brokerId, fill) => FactKeepsCoupling(o, target, brokerId, fill);
    case _ =>
  }

  /**
   * Every row reachable from a created or an imported order, through any
   * writes in any order, is coupled; along the way the fill never falls, the
   * broker id is write-once, reservations are never undone, and MANUAL_REVIEW
   * is never left.
   */
  lemma {:induction false} RunKeepsCoupling(o: Order, steps: seq<RowStep>)
    requires Coupled(o)
    ensures Coupled(RunRow(o, steps))
    ensures Advances(o, RunRow(o, steps))
    decreases |steps|
  {
    if steps != [] {
      if StepGuard(o, steps[0]) && ApplyStep(o, steps[0]).Ok? {
        StepKeepsCoupling(o, steps[0]);
        RunKeepsCoupling(ApplyStep(o, steps[0]).value, steps[1..]);
      } else {
        RunKeepsCoupling(o, steps[1..]);
      }
    }
  }

  /** Both ways of creating a row start a coupled run. */
  lemma ReachableRowsAreCoupled(quantity: int, imported: bool, steps: seq<RowStep>)
    requires 0 < quantity
    ensures var start := if imported then ImportedOrder(quantity) else NewOrder(quantity);
            Coupled(RunRow(start, steps)) && Advances(start, RunRow(start, steps))
  {
    RunKeepsCoupling(if imported then ImportedOrder(quantity) else NewOrder(quantity), steps);
  }

  /** Facts that leave a coupled row's status as it is, whatever they report. */
  ghost predicate AbsorbsFacts(s: Status) {
    forall o: Order, target, brokerId, fill ::
      Coupled(o) && o.status == s && IsReportable(target) && MergeFact(o, target, brokerId, fill).Ok?
      ==> MergeFact(o, target, brokerId, fill).value.0.status == s
  }

  /**
   * Broker facts respect only the broker's own terminal states: unlike a
   * command, a fact can revive ABORTED and RISK_REJECTED.
   */
  lemma FactsAbsorbedExactlyByBrokerTerminals(s: Status)
    ensures AbsorbsFacts(s) <==> IsBrokerTerminal(s) || s == ManualReview
  {
    if !IsBrokerTerminal(s) && s != ManualReview {
      var o := Order(s, None, if s == PartiallyFilled then 1 else 0, 2, !IsPreSubmit(s), s == CancelPending, false);
      var target, fill :=
        if s in {Acknowledged, PartiallyFilled, CancelPending} then Filled else Acknowledged,
        if s in {Acknowledged, PartiallyFilled, CancelPending} then 2 else 0;
      assert Coupled(o);
      assert MergeFact(o, target, None, fill).Ok? && MergeFact(o, target, None, fill).value.0.status == target;
    }
  }
}
