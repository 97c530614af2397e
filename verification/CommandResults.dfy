/**
 * Execution-plane command results (qmt/command_results.py,
 * record_execution_reconciliation_in_tx of oms/repository.py): each result is
 * stored once and may start reconciliation, but never states a broker fact.
 * Fingerprints are taken to be injective, so a fingerprint is the result.
 */
module CommandResults {
  import opened Basics
  import opened OrderLifecycle
  import opened OrderRows
  import opened BrokerEvidence
  import opened LeaderLease

  datatype Mode = Shadow | LiveCanary | SimulationCalibration

  datatype ResultStatus =
    | ShadowAccepted
    | SnapshotEmitted
    | RejectedExpired
    | RejectedSafetyGate
    | UnknownOrphaned
    | SubmitCallReturned(simulated: bool)
    | CancelSignalSent(simulated: bool)
    | CancelNotCancellable(simulated: bool)
    | CancelNotSent(simulated: bool)
    | MutationUnknown(simulated: bool)
    | OrphanedUnknown(simulated: bool)

  /** `client` is absent for a snapshot request; `rest` is the remaining payload. */
  datatype CommandResult = CommandResult(
    commandId: string,
    session: string,
    sequence: int,
    account: string,
    client: Option<string>,
    tokenMatches: bool,
    status: ResultStatus,
    mode: Mode,
    liveSideEffect: bool,
    rest: string)

  datatype ResultError = Unsupported | LeaseLost(why: LeaseError) | ResultConflict | MissingOrder | Promoted

  /** Statuses that mean the broker was reached, in the simulation or live. */
  predicate HasSideEffect(s: ResultStatus, simulated: bool) {
    match s
    case SubmitCallReturned(m) => m == simulated
    case CancelSignalSent(m) => m == simulated
    case CancelNotSent(m) => m == simulated
    case MutationUnknown(m) => m == simulated
    case OrphanedUnknown(m) => m == simulated
    case _ => false
  }

  /** The checks made before the transaction. */
  predicate Admissible(r: CommandResult) {
    && (match r.mode
        case Shadow => !r.liveSideEffect
        case LiveCanary => r.liveSideEffect == HasSideEffect(r.status, false)
        case SimulationCalibration => r.liveSideEffect == HasSideEffect(r.status, true))
    && r.commandId != "" && r.session != "" && r.sequence > 0
    && (r.client.Some? ==> r.client.value != "" && r.tokenMatches)
  }

  predicate Begins(r: CommandResult) {
    || r.status == ShadowAccepted
    || r.mode == SimulationCalibration
    || (r.mode == LiveCanary && r.status != RejectedSafetyGate && r.status != RejectedExpired)
  }

  function OrderOfResult(r: CommandResult): OrderKey
    requires r.client.Some?
  {
    OrderKey(r.account, r.client.value)
  }

  datatype Store = Store(results: map<string, CommandResult>, orders: map<OrderKey, Order>)

  ghost predicate SequenceTaken(results: map<string, CommandResult>, r: CommandResult) {
    exists id :: id in results && results[id].session == r.session && results[id].sequence == r.sequence
  }

  /** The row after a result: SUBMITTING and CANCEL_PENDING become UNKNOWN, UNKNOWN becomes RECONCILING. */
  function AfterResult(o: Order, r: CommandResult): Order { o.(status := ExecutionTarget(o.status, Begins(r))) }

  /** One transaction; a refused one changes nothing. */
  ghost function Accept(s: Store, r: CommandResult): Result<Store, ResultError> {
    if !Admissible(r) then Err(Unsupported)
    else if r.commandId in s.results then
      if s.results[r.commandId] != r then Err(ResultConflict)
      else if r.client.Some? && OrderOfResult(r) !in s.orders then Err(MissingOrder)
      else Ok(s)
    else if SequenceTaken(s.results, r) then Err(ResultConflict)
    else if r.client.None? then Ok(s.(results := s.results[r.commandId := r]))
    else if OrderOfResult(r) !in s.orders then Err(MissingOrder)
    else Ok(Store(s.results[r.commandId := r],
                  s.orders[OrderOfResult(r) := AfterResult(s.orders[OrderOfResult(r)], r)]))
  }

  ghost function RunResults(s: Store, rs: seq<CommandResult>): Store
    decreases |rs|
  {
    if rs == [] then s
    else
      var before := RunResults(s, rs[..|rs| - 1]);
      var next := Accept(before, rs[|rs| - 1]);
      if next.Ok? then next.value else before
  }

  /** The row write is the command-path transition the repository makes, which always succeeds. */
  lemma ResultIsExecutionStep(o: Order, r: CommandResult)
    ensures ApplyStep(o, ExecutionResult(Begins(r))) == Ok(AfterResult(o, r))
  {
  }

  /** Nothing about the broker comes from a result: no fill, no broker id, no broker status. */
  lemma ResultStatesNoFact(o: Order, r: CommandResult)
    ensures var p := AfterResult(o, r);
            && p.filled == o.filled && p.brokerId == o.brokerId
            && (IsReportable(p.status) ==> p.status == o.status)
            && (Coupled(o) ==> Coupled(p) && Advances(o, p))
  {
  }

  /**
   * A result is malformed exactly when its side-effect flag is not the one its mode and
   * status call for, an identifier is missing, or its token is not its order's.
   */
  lemma UnsupportedExactlyWhen(s: Store, r: CommandResult)
    ensures Accept(s, r) == Err(Unsupported) <==>
            || r.liveSideEffect !=
               match r.mode {
                 case Shadow => false
                 case LiveCanary =>
                   r.status in {SubmitCallReturned(false), CancelSignalSent(false), CancelNotSent(false),
                                MutationUnknown(false), OrphanedUnknown(false)}
                 case SimulationCalibration =>
                   r.status in {SubmitCallReturned(true), CancelSignalSent(true), CancelNotSent(true),
                                MutationUnknown(true), OrphanedUnknown(true)}
               }
            || r.commandId == "" || r.session == "" || r.sequence <= 0
            || (r.client.Some? && (r.client.value == "" || !r.tokenMatches))
  {
  }

  /**
   * A well-formed result conflicts exactly when its command id was used for another result
   * or, being new, its session's sequence number was; otherwise only an unknown order refuses it.
   */
  lemma ConflictsExactlyWhen(s: Store, r: CommandResult)
    requires Accept(s, r) != Err(Unsupported)
    ensures Accept(s, r) == Err(ResultConflict) <==>
            if r.commandId in s.results then s.results[r.commandId] != r
            else exists id :: id in s.results
                              && (s.results[id].session, s.results[id].sequence) == (r.session, r.sequence)
    ensures Accept(s, r) == Err(MissingOrder) <==>
            && Accept(s, r) != Err(ResultConflict)
            && r.client.Some? && OrderKey(r.account, r.client.value) !in s.orders
    ensures Accept(s, r).Ok? || Accept(s, r) in {Err(ResultConflict), Err(MissingOrder)}
  {
    hide Admissible, AfterResult;
  }

  /**
   * What accepting a result does: a result already stored changes nothing; a new one is
   * stored beside the others and moves at most its own order, from SUBMITTING or
   * CANCEL_PENDING to UNKNOWN and from UNKNOWN to RECONCILING. In simulation it always
   * does, as a canary unless the command was refused, and in shadow only when accepted.
   */
  lemma AcceptedResultMoves(s: Store, r: CommandResult)
    requires Accept(s, r).Ok?
    ensures var n := Accept(s, r).value;
            && n.results == s.results[r.commandId := r]
            && (r.commandId in s.results ==> s.results[r.commandId] == r && n == s)
            && (r.client.None? ==> n.orders == s.orders)
    ensures r.commandId !in s.results && r.client.Some? ==>
              var k := OrderKey(r.account, r.client.value);
              k in s.orders && Accept(s, r).value.orders == s.orders[k := s.orders[k].(
                status := match s.orders[k].status {
                  case Submitting => if Begins(r) then Unknown else Submitting
                  case CancelPending => if Begins(r) then Unknown else CancelPending
                  case Unknown => if Begins(r) then Reconciling else Unknown
                  case other => other
                })]
  {
    if r.commandId in s.results {
      assert s.results[r.commandId := r] == s.results;
    }
  }

  /** Which results begin reconciliation, mode by mode. */
  lemma BeginsExactlyWhen(r: CommandResult)
    ensures r.mode == SimulationCalibration ==> Begins(r)
    ensures r.mode == LiveCanary ==> (Begins(r) <==> r.status !in {RejectedSafetyGate, RejectedExpired})
    ensures r.mode == Shadow ==> (Begins(r) <==> r.status == ShadowAccepted)
  {
  }

  // ---------------------------------------------------------------------- convergence

  predicate SameSlot(a: CommandResult, b: CommandResult) {
    a.commandId == b.commandId || (a.session == b.session && a.sequence == b.sequence)
  }

  /** Results that can all be stored: one per command id and one per sequence number. */
  ghost predicate Storable(rs: seq<CommandResult>) {
    && (forall r :: r in rs ==> Admissible(r))
    && (forall a, b :: a in rs && b in rs && SameSlot(a, b) ==> a == b)
  }

  function About(rs: seq<CommandResult>, k: OrderKey): set<CommandResult> {
    set r | r in rs && r.client.Some? && OrderOfResult(r) == k && Begins(r)
  }

  /** `n` results that begin reconciliation, whichever they are. */
  function Progress(s: Status, n: nat): Status {
    if n == 0 then s else ExecutionTarget(Progress(s, n - 1), true)
  }

  ghost predicate StoredExactly(s: Store, rs: seq<CommandResult>) {
    && (forall r :: r in rs ==> r.commandId in s.results && s.results[r.commandId] == r)
    && (forall id :: id in s.results ==> s.results[id] in rs && s.results[id].commandId == id)
  }

  /** The row of `k` has moved once for every distinct result about it. */
  ghost predicate Moved(o: Order, p: Order, rs: seq<CommandResult>, k: OrderKey) {
    p == o.(status := Progress(o.status, |About(rs, k)|))
  }

  lemma AboutGrows(rs: seq<CommandResult>, r: CommandResult, k: OrderKey)
    ensures About(rs + [r], k) ==
            About(rs, k) + (if r.client.Some? && OrderOfResult(r) == k && Begins(r) then {r} else {})
  {
  }

  lemma RepeatIsAbsorbed(s: Store, rs: seq<CommandResult>, r: CommandResult)
    requires StoredExactly(s, rs) && r in rs && Admissible(r) && (r.client.Some? ==> OrderOfResult(r) in s.orders)
    ensures Accept(s, r) == Ok(s) && StoredExactly(s, rs + [r])
  {
    hide Admissible;
  }

  lemma NewIsStored(s: Store, rs: seq<CommandResult>, r: CommandResult)
    requires StoredExactly(s, rs) && r !in rs && Storable(rs + [r]) && (r.client.Some? ==> OrderOfResult(r) in s.orders)
    ensures Accept(s, r).Ok? && StoredExactly(Accept(s, r).value, rs + [r])
    ensures Accept(s, r).value.orders ==
            if r.client.Some? then s.orders[OrderOfResult(r) := AfterResult(s.orders[OrderOfResult(r)], r)]
              else s.orders
  {
    assert r in rs + [r];
    assert forall b :: b in rs ==> b in rs + [r] && !SameSlot(b, r);
    hide Admissible, Begins, Storable;
    assert r.commandId !in s.results;
    assert !SequenceTaken(s.results, r);
  }

  lemma RowMoves(o: Order, p: Order, rs: seq<CommandResult>, r: CommandResult, k: OrderKey)
    requires Moved(o, p, rs, k) && r !in rs
    ensures Moved(o, if r.client.Some? && OrderOfResult(r) == k then AfterResult(p, r) else p, rs + [r], k)
  {
    AboutGrows(rs, r, k);
    assert r !in About(rs, k);
    hide About;
  }

  /**
   * Any number of storable results, in any order and with any repetition,
   * leaves each order where its number of distinct beginning results says.
   */
  lemma {:induction false} ResultsConverge(orders: map<OrderKey, Order>, rs: seq<CommandResult>, k: OrderKey)
    requires Storable(rs) && k in orders
    requires forall r :: r in rs && r.client.Some? ==> OrderOfResult(r) in orders
    ensures var n := RunResults(Store(map[], orders), rs);
            && StoredExactly(n, rs) && n.orders.Keys == orders.Keys
            && Moved(orders[k], n.orders[k], rs, k)
    decreases |rs|
  {
    if rs == [] {
      assert About(rs, k) == {};
    } else {
      var before, r := rs[..|rs| - 1], rs[|rs| - 1];
      assert rs == before + [r];
      assert Admissible(r) && Storable(before);
      ResultsConverge(orders, before, k);
      var mid := RunResults(Store(map[], orders), before);
      assert RunResults(Store(map[], orders), rs) == if Accept(mid, r).Ok? then Accept(mid, r).value else mid;
      hide RunResults, Admissible, Begins, Storable, StoredExactly, Accept, Moved;
      if r in before {
        RepeatIsAbsorbed(mid, before, r);
        assert About(rs, k) == About(before, k);
        SameMove(orders[k], mid.orders[k], before, rs, k);
      } else {
        NewIsStored(mid, before, r);
        RowMoves(orders[k], mid.orders[k], before, r, k);
      }
    }
  }

  lemma SameMove(o: Order, p: Order, rs: seq<CommandResult>, more: seq<CommandResult>, k: OrderKey)
    requires Moved(o, p, rs, k) && About(rs, k) == About(more, k)
    ensures Moved(o, p, more, k)
  {
  }

  /**
   * Where results leave a submitted or cancelled order: as it was when none of them began
   * reconciliation, UNKNOWN after one, RECONCILING after two or more, and nothing else moves.
   */
  lemma ResultsLeaveOrder(orders: map<OrderKey, Order>, rs: seq<CommandResult>, k: OrderKey)
    requires Storable(rs) && k in orders
    requires forall r :: r in rs && r.client.Some? ==> OrderOfResult(r) in orders
    ensures var n := RunResults(Store(map[], orders), rs).orders;
            && k in n && n[k] == orders[k].(status := n[k].status)
            && (orders[k].status in {Submitting, CancelPending} ==>
                  n[k].status == match |About(rs, k)| {
                    case 0 => orders[k].status
                    case 1 => Unknown
                    case _ => Reconciling
                  })
            && (orders[k].status == Unknown ==>
                  n[k].status == if About(rs, k) == {} then Unknown else Reconciling)
            && (orders[k].status !in {Submitting, CancelPending, Unknown} ==> n[k] == orders[k])
  {
    ResultsConverge(orders, rs, k);
    ProgressEnds(orders[k].status, |About(rs, k)|);
    hide RunResults, Storable, About, Progress;
  }

  lemma {:induction false} ProgressEnds(s: Status, n: nat)
    ensures s in {Submitting, CancelPending} ==>
              Progress(s, n) == if n == 0 then s else if n == 1 then Unknown else Reconciling
    ensures s == Unknown ==> Progress(s, n) == if n == 0 then s else Reconciling
    ensures s !in {Submitting, CancelPending, Unknown} ==> Progress(s, n) == s
  {
    if n > 0 {
      ProgressEnds(s, n - 1);
    }
  }

  /** So two deliveries of the same results, however ordered and repeated, end in the same orders. */
  lemma SameResultsSameOrders(orders: map<OrderKey, Order>, first: seq<CommandResult>, second: seq<CommandResult>)
    requires Storable(first) && Storable(second) && forall r :: r in first <==> r in second
    requires forall r :: r in first && r.client.Some? ==> OrderOfResult(r) in orders
    ensures RunResults(Store(map[], orders), first).orders == RunResults(Store(map[], orders), second).orders
  {
    var a, b := RunResults(Store(map[], orders), first).orders, RunResults(Store(map[], orders), second).orders;
    hide RunResults, Storable;
    forall k | k in orders ensures k in a && k in b && a[k] == b[k] {
      ResultsConverge(orders, first, k);
      ResultsConverge(orders, second, k);
      assert About(first, k) == About(second, k);
    }
    KeysKept(orders, first);
    KeysKept(orders, second);
  }

  lemma {:induction false} KeysKept(orders: map<OrderKey, Order>, rs: seq<CommandResult>)
    ensures RunResults(Store(map[], orders), rs).orders.Keys == orders.Keys
    decreases |rs|
  {
    if rs != [] {
      KeysKept(orders, rs[..|rs| - 1]);
    }
  }

  // -------------------------------------------------------------------- implementation

  class QmtCommandResultJournal {
    var results: map<string, CommandResult>
    var orders: map<OrderKey, Order>
    const leader: LeaderCoordinator
    var lease: Lease

    constructor (orders: map<OrderKey, Order>, leader: LeaderCoordinator, lease: Lease)
      ensures Stored() == Store(map[], orders) && this.leader == leader && this.lease == lease
    {
      results, this.orders, this.leader, this.lease := map[], orders, leader, lease;
    }

    ghost function Stored(): Store
      reads this
    {
      Store(results, orders)
    }

    /**
     * Stores one result and makes the row write it calls for, or changes nothing; a
     * session that lost its lease writes nothing.
     */
    method Ingest(r: CommandResult, now: int) returns (answer: Result<(bool, Option<Status>), ResultError>)
      modifies this
      ensures lease == old(lease)
      ensures Admissible(r) && !Held(leader.row, lease, now) ==>
                answer == Err(LeaseLost(Check(leader.row, lease, now).value)) && Stored() == old(Stored())
      ensures !Admissible(r) || Held(leader.row, lease, now) ==>
              match Accept(old(Stored()), r)
              case Err(e) => answer == Err(e) && Stored() == old(Stored())
              case Ok(n) =>
                && Stored() == n
                && answer == Ok((r.commandId in old(results), if r.client.Some?
                                 then Some(orders[OrderOfResult(r)].status) else None))
    {
      if !Admissible(r) {
        return Err(Unsupported);
      }
      var failure := leader.AssertHeld(lease, now);
      if failure.Some? {
        return Err(LeaseLost(failure.value));
      }
      if r.commandId in results {
        if results[r.commandId] != r {
          return Err(ResultConflict);
        }
        if r.client.None? {
          return Ok((true, None));
        }
        return if OrderOfResult(r) in orders then Ok((true, Some(orders[OrderOfResult(r)].status)))
               else Err(MissingOrder);
      }
      var left := results.Keys;
      while left != {}
        invariant left <= results.Keys
        invariant forall id :: id in results && id !in left ==>
                    !(results[id].session == r.session && results[id].sequence == r.sequence)
      {
        var id :| id in left;
        if results[id].session == r.session && results[id].sequence == r.sequence {
          return Err(ResultConflict);
        }
        left := left - {id};
      }
      if r.client.None? {
        results := results[r.commandId := r];
        return Ok((false, None));
      }
      var k := OrderOfResult(r);
      if k !in orders {
        return Err(MissingOrder);
      }
      var row := orders[k];
      ResultIsExecutionStep(row, r);
      ResultStatesNoFact(row, r);
      var moved := CommandTransition(row, ExecutionTarget(row.status, Begins(r)), None);
      if row.status != Acknowledged && moved.value.0.status == Acknowledged {
        assert false;
        return Err(Promoted);
      }
      results := results[r.commandId := r];
      orders := orders[k := moved.value.0];
      answer := Ok((false, Some(moved.value.0.status)));
    }
  }
}
