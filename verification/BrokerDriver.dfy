/**
 * The simulated broker with its crash and lost-answer modes
 * (drivers/simulated.py).
 */
module BrokerDriver {
  import opened Basics
  import opened OrderLifecycle
  import opened BrokerEvidence

  datatype DriverOrder = DriverOrder(brokerOrderId: Option<string>, status: Status, filled: int)

  datatype DriverAnswer = DriverAnswer(k: OrderKey, seen: Option<DriverOrder>)

  datatype FailureMode = NoFailure | TimeoutBeforeAccept | TimeoutAfterAccept | CrashBeforeAccept | CrashAfterAccept

  datatype DriverOutcome = Returned | OutcomeUnknown | DuplicateCall | UnknownOrder | Crashed

  /** Decimal text, padded with zeros to at least `width` digits. */
  function Decimal(n: nat, width: nat): string
    decreases n, width
  {
    if n == 0 && width == 0 then ""
    else Decimal(n / 10, if width == 0 then 0 else width - 1) + [(n % 10) as char + '0']
  }

  /** The number that decimal text stands for. */
  function Value(text: string): int {
    if text == "" then 0 else Value(text[..|text| - 1]) * 10 + (text[|text| - 1] as int - '0' as int)
  }

  lemma {:induction false} DecimalHasItsValue(n: nat, width: nat)
    ensures Value(Decimal(n, width)) == n
    decreases n, width
  {
    if n != 0 || width != 0 {
      var high := Decimal(n / 10, if width == 0 then 0 else width - 1);
      DecimalHasItsValue(n / 10, if width == 0 then 0 else width - 1);
      assert Decimal(n, width)[..|high|] == high;
    }
  }

  function SimulatedId(n: nat): string { "SIM-" + Decimal(n, 8) }

  lemma SimulatedIdsDiffer(m: nat, n: nat)
    requires SimulatedId(m) == SimulatedId(n)
    ensures m == n
  {
    DecimalHasItsValue(m, 8);
    DecimalHasItsValue(n, 8);
    assert SimulatedId(m)[4..] == Decimal(m, 8);
    assert SimulatedId(n)[4..] == Decimal(n, 8);
  }

  /** The call reaches the broker, whatever the caller then learns. */
  predicate Reaches(mode: FailureMode) { mode !in {TimeoutBeforeAccept, CrashBeforeAccept} }

  /** The in-memory broker, with a crash or a lost answer on either side of acceptance. */
  class SimulatedDriver {
    var orders: map<OrderKey, DriverOrder>
    var submitCalls: map<OrderKey, nat>
    var cancelCalls: map<OrderKey, nat>
    var nextSubmit: FailureMode
    var nextCancel: FailureMode
    var sequence: nat
    ghost var log: seq<DriverAnswer>

    constructor ()
      ensures orders == map[] && submitCalls == map[] && cancelCalls == map[] && Consistent()
    {
      orders, submitCalls, cancelCalls, log := map[], map[], map[], [];
      nextSubmit, nextCancel, sequence := NoFailure, NoFailure, 0;
    }

    ghost function Submits(k: OrderKey): nat
      reads this
    {
      if k in submitCalls then submitCalls[k] else 0
    }

    ghost function Cancels(k: OrderKey): nat
      reads this
    {
      if k in cancelCalls then cancelCalls[k] else 0
    }

    ghost predicate Consistent()
      reads this
    {
      OwnIds(orders, submitCalls, sequence)
    }

    /**
     * The first submit of an order that reaches the broker leaves it
     * acknowledged under a new id, also when the answer is lost; any other
     * call leaves the broker as it was.
     */
    method SubmitLimitOrder(k: OrderKey) returns (r: DriverOutcome)
      modifies this
      ensures submitCalls == old(submitCalls)[k := old(Submits(k)) + 1] && cancelCalls == old(cancelCalls)
      ensures r == if old(Submits(k)) > 0 then DuplicateCall
                   else if old(nextSubmit) == NoFailure then Returned
                   else if old(nextSubmit) in {TimeoutBeforeAccept, TimeoutAfterAccept} then OutcomeUnknown
                   else Crashed
      ensures orders == if r != DuplicateCall && old(nextSubmit) !in {TimeoutBeforeAccept, CrashBeforeAccept}
                        then old(orders)[k := DriverOrder(Some(SimulatedId(sequence)), Acknowledged, 0)]
                        else old(orders)
      ensures sequence == old(sequence) +
                          if r != DuplicateCall && old(nextSubmit) !in {TimeoutBeforeAccept, CrashBeforeAccept} then 1
                          else 0
      ensures nextCancel == old(nextCancel) && nextSubmit == if r == DuplicateCall then old(nextSubmit) else NoFailure
      ensures log == old(log) && (old(Consistent()) ==> Consistent())
    {
      hide SimulatedId, OwnIds;
      if OwnIds(orders, submitCalls, sequence) {
        SubmitKeepsOwnIds(orders, submitCalls, sequence, k);
      }
      submitCalls := submitCalls[k := (if k in submitCalls then submitCalls[k] else 0) + 1];
      if submitCalls[k] > 1 {
        return DuplicateCall;
      }
      var mode := nextSubmit;
      nextSubmit := NoFailure;
      if mode == TimeoutBeforeAccept {
        return OutcomeUnknown;
      }
      if mode == CrashBeforeAccept {
        return Crashed;
      }
      sequence := sequence + 1;
      orders := orders[k := DriverOrder(Some(SimulatedId(sequence)), Acknowledged, 0)];
      r := if mode == TimeoutAfterAccept then OutcomeUnknown
           else if mode == CrashAfterAccept then Crashed
           else Returned;
    }

    /**
     * The first cancel of a known order that reaches the broker ends it with the fill it
     * had; any other call changes nothing there.
     */
    method CancelOrder(k: OrderKey) returns (r: DriverOutcome)
      modifies this
      ensures cancelCalls == old(cancelCalls)[k := old(Cancels(k)) + 1] && submitCalls == old(submitCalls)
      ensures r == if old(Cancels(k)) > 0 then DuplicateCall
                   else if k !in old(orders) then UnknownOrder
                   else if old(nextCancel) == NoFailure then Returned
                   else if old(nextCancel) in {TimeoutBeforeAccept, TimeoutAfterAccept} then OutcomeUnknown
                   else Crashed
      ensures orders == if && r !in {DuplicateCall, UnknownOrder}
                           && old(nextCancel) !in {TimeoutBeforeAccept, CrashBeforeAccept}
                        then old(orders)[k := DriverOrder(old(orders)[k].brokerOrderId, Cancelled,
                                                          old(orders)[k].filled)]
                        else old(orders)
      ensures nextSubmit == old(nextSubmit) && sequence == old(sequence)
      ensures nextCancel == if r in {DuplicateCall, UnknownOrder} then old(nextCancel) else NoFailure
      ensures log == old(log) && (old(Consistent()) ==> Consistent())
    {
      hide SimulatedId, GivenOut;
      cancelCalls := cancelCalls[k := (if k in cancelCalls then cancelCalls[k] else 0) + 1];
      if cancelCalls[k] > 1 {
        return DuplicateCall;
      }
      if k !in orders {
        return UnknownOrder;
      }
      var mode := nextCancel;
      nextCancel := NoFailure;
      if mode == TimeoutBeforeAccept {
        return OutcomeUnknown;
      }
      if mode == CrashBeforeAccept {
        return Crashed;
      }
      orders := orders[k := orders[k].(status := Cancelled)];
      r := if mode == TimeoutAfterAccept then OutcomeUnknown
           else if mode == CrashAfterAccept then Crashed
           else Returned;
    }

    /** What the broker holds now; the log keeps every answer given. */
    method Query(k: OrderKey) returns (r: Option<DriverOrder>)
      modifies `log
      ensures r == if k in orders then Some(orders[k]) else None
      ensures log == old(log) + [DriverAnswer(k, r)]
    {
      r := if k in orders then Some(orders[k]) else None;
      log := log + [DriverAnswer(k, r)];
    }

    method SetOrderStatus(k: OrderKey, status: Status, filled: int)
      requires k in orders
      modifies `orders
      ensures orders == old(orders)[k := DriverOrder(old(orders)[k].brokerOrderId, status, filled)]
    {
      orders := orders[k := DriverOrder(orders[k].brokerOrderId, status, filled)];
    }

    /** Whatever the market does between two queries: statuses and fills change, the orders and their ids do not. */
    method MarketActs()
      modifies `orders
      ensures orders.Keys == old(orders.Keys)
      ensures forall k :: k in orders ==> orders[k].brokerOrderId == old(orders)[k].brokerOrderId
      ensures old(Consistent()) ==> Consistent()
    {
      var changes: seq<(OrderKey, Status, int)> := *;
      for i := 0 to |changes|
        invariant orders.Keys == old(orders.Keys)
        invariant forall k :: k in orders ==> orders[k].brokerOrderId == old(orders)[k].brokerOrderId
      {
        if changes[i].0 in orders {
          SetOrderStatus(changes[i].0, changes[i].1, changes[i].2);
        }
      }
    }
  }

  /** Every order was submitted, under a broker id of its own that was already handed out. */
  ghost predicate OwnIds(orders: map<OrderKey, DriverOrder>, submits: map<OrderKey, nat>, sequence: nat) {
    && (forall k :: k in orders ==> k in submits && submits[k] > 0 && GivenOut(orders[k].brokerOrderId, sequence))
    && (forall k, q :: k in orders && q in orders && orders[k].brokerOrderId == orders[q].brokerOrderId ==> k == q)
  }

  ghost predicate GivenOut(id: Option<string>, sequence: nat) {
    exists n: nat :: n <= sequence && id == Some(SimulatedId(n))
  }

  lemma NextId(id: Option<string>, sequence: nat)
    requires GivenOut(id, sequence)
    ensures GivenOut(id, sequence + 1) && id != Some(SimulatedId(sequence + 1))
  {
    var n: nat :| n <= sequence && id == Some(SimulatedId(n));
    if id == Some(SimulatedId(sequence + 1)) {
      SimulatedIdsDiffer(n, sequence + 1);
    }
  }

  lemma SubmitKeepsOwnIds(orders: map<OrderKey, DriverOrder>, submits: map<OrderKey, nat>, sequence: nat, k: OrderKey)
    requires OwnIds(orders, submits, sequence)
    ensures OwnIds(orders, submits[k := (if k in submits then submits[k] else 0) + 1], sequence)
    ensures OwnIds(orders[k := DriverOrder(Some(SimulatedId(sequence + 1)), Acknowledged, 0)],
                   submits[k := (if k in submits then submits[k] else 0) + 1], sequence + 1)
  {
    forall q | q in orders
      ensures GivenOut(orders[q].brokerOrderId, sequence + 1)
      ensures orders[q].brokerOrderId != Some(SimulatedId(sequence + 1))
    {
      NextId(orders[q].brokerOrderId, sequence);
    }
    assert GivenOut(Some(SimulatedId(sequence + 1)), sequence + 1);
    hide SimulatedId, GivenOut;
  }
}
