/**
 * The abstract evidence contract, for every order quantity
 * (tools/verify_broker_evidence_contract.py checks quantity 2), and the proof
 * that ingestion refines it.
 */
module EvidenceContract {
  import opened Basics
  import opened OrderLifecycle
  import opened OrderRows
  import opened BrokerEvidence
  import opened EvidenceJournal
  import opened JournalHistory

  datatype State = State(status: Status, filled: int)

  datatype Event = Event(
    sourceKind: SourceKind,
    target: Status,
    filled: int,
    identityMatch: bool,
    exactDuplicate: bool,
    semanticConflict: bool)

  function Rank(s: Status): int {
    match s
    case Acknowledged => 1
    case PartiallyFilled => 2
    case Filled | Cancelled | Rejected => 3
    case ManualReview => 4
    case _ => 0
  }

  predicate SourceAllows(kind: SourceKind, target: Status) {
    IsReportable(target) && (kind in {DealCallback, ActiveDealQuery} ==> target in {PartiallyFilled, Filled})
  }

  predicate QuantityValid(target: Status, filled: int, quantity: int) {
    match target
    case Acknowledged | Rejected => filled == 0
    case PartiallyFilled => 0 < filled < quantity
    case Filled => filled == quantity
    case Cancelled => 0 <= filled < quantity
    case _ => false
  }

  predicate IsCandidate(e: Event, quantity: int) {
    e.identityMatch && SourceAllows(e.sourceKind, e.target) && QuantityValid(e.target, e.filled, quantity)
  }

  predicate ContractConflict(s: State, e: Event) {
    || (IsBrokerTerminal(s.status) && IsBrokerTerminal(e.target) && e.target != s.status)
    || (s.status in {Cancelled, Rejected} && e.filled > s.filled)
    || (e.target == Rejected && s.filled > 0)
  }

  function ContractApply(s: State, e: Event, quantity: int): State {
    if e.exactDuplicate then s
    else if e.semanticConflict then State(ManualReview, s.filled)
    else if !IsCandidate(e, quantity) then s
    else
      var filled := Max(s.filled, e.filled);
      if s.status == ManualReview || ContractConflict(s, e) then State(ManualReview, filled)
      else if IsBrokerTerminal(s.status) then State(s.status, filled)
      else if e.target == Acknowledged then State(if s.status == Unknown then Acknowledged else s.status, filled)
      else State(e.target, filled)
  }

  // ------------------------------------------------------------------- refinement

  /** How the contract reads a row; rows outside its vocabulary have no reading. */
  function Reading(o: Order): Option<State> {
    if o.status in {Submitting, Unknown, Reconciling} && o.filled == 0 then Some(State(Unknown, 0))
    else if IsReportable(o.status) || o.status == ManualReview then Some(State(o.status, o.filled))
    else None
  }

  /** The contract event that a piece of evidence is, given what is already stored. */
  ghost function EventFor(j: Journal, e: Evidence): Event
    requires KeyOf(e) in j.orders
  {
    var known := j.orders[KeyOf(e)].brokerId;
    Event(e.sourceKind, e.requested, e.filled,
          known.None? || e.brokerOrderId.None? || known == e.brokerOrderId,
          FingerprintOf(e) in j.keys,
          EventIdTaken(j, e))
  }

  /** The row that a merge, or the conflict it causes, leaves behind. */
  function MergedRow(o: Order, e: Evidence): Result<Order, RowError> {
    match MergeFact(o, e.requested, e.brokerOrderId, e.filled)
    case Ok((p, _)) => Ok(p)
    case Err(err) => MarkConflict(o, if err == LifecycleConflict then Some(e.filled) else None)
  }

  predicate CandidateFor(o: Order, e: Evidence) {
    && ValidEvidence(e) && Coupled(o) && Reading(o).Some?
    && (o.brokerId.None? || e.brokerOrderId.None? || o.brokerId == e.brokerOrderId)
    && QuantityValid(e.requested, e.filled, o.quantity)
  }

  function CandidateEvent(e: Evidence): Event {
    Event(e.sourceKind, e.requested, e.filled, true, false, false)
  }

  predicate RowRefines(o: Order, e: Evidence)
    requires Reading(o).Some?
  {
    var r := MergedRow(o, e);
    r.Ok? && Reading(r.value) == Some(ContractApply(Reading(o).value, CandidateEvent(e), o.quantity))
  }

  lemma OpenRowProgressRefines(o: Order, e: Evidence)
    requires CandidateFor(o, e) && !IsTerminal(o.status) && e.requested in {Acknowledged, PartiallyFilled}
    ensures RowRefines(o, e)
  {
  }

  lemma OpenRowEndRefines(o: Order, e: Evidence)
    requires CandidateFor(o, e) && !IsTerminal(o.status) && IsBrokerTerminal(e.requested)
    ensures RowRefines(o, e)
  {
  }

  lemma ReviewRowRefines(o: Order, e: Evidence)
    requires CandidateFor(o, e) && o.status == ManualReview
    ensures RowRefines(o, e)
  {
  }

  lemma SameEndRefines(o: Order, e: Evidence)
    requires CandidateFor(o, e) && IsBrokerTerminal(o.status) && e.requested == o.status
    ensures RowRefines(o, e)
  {
  }

  lemma OtherEndRefines(o: Order, e: Evidence)
    requires CandidateFor(o, e) && IsBrokerTerminal(o.status) && IsBrokerTerminal(e.requested)
             && e.requested != o.status
    ensures RowRefines(o, e)
  {
    hide Normalize, Aggregate;
  }

  lemma LateProgressRefines(o: Order, e: Evidence)
    requires CandidateFor(o, e) && IsBrokerTerminal(o.status) && !IsBrokerTerminal(e.requested)
    ensures RowRefines(o, e)
  {
  }

  lemma EndedRowRefines(o: Order, e: Evidence)
    requires CandidateFor(o, e) && IsBrokerTerminal(o.status)
    ensures RowRefines(o, e)
  {
    hide CandidateFor, RowRefines;
    if e.requested == o.status {
      SameEndRefines(o, e);
    } else if IsBrokerTerminal(e.requested) {
      OtherEndRefines(o, e);
    } else {
      LateProgressRefines(o, e);
    }
  }

  /** The row after a candidate is merged, or marked conflicting, reads as the contract says. */
  lemma MergeRefines(j: Journal, e: Evidence)
    requires KeyOf(e) in j.orders && CandidateFor(j.orders[KeyOf(e)], e)
    ensures KeyOf(e) in IngestMerged(j, e).0.orders
    ensures var o := j.orders[KeyOf(e)];
            Reading(IngestMerged(j, e).0.orders[KeyOf(e)])
            == Some(ContractApply(Reading(o).value, CandidateEvent(e), o.quantity))
  {
    var o := j.orders[KeyOf(e)];
    if o.status == ManualReview {
      ReviewRowRefines(o, e);
    } else if IsBrokerTerminal(o.status) {
      EndedRowRefines(o, e);
    } else if IsBrokerTerminal(e.requested) {
      OpenRowEndRefines(o, e);
    } else {
      OpenRowProgressRefines(o, e);
    }
    hide MergeFact, MarkConflict, Reading, ContractApply, ValidEvidence, Coupled;
  }

  lemma SuppressionRefines(o: Order, e: Evidence)
    requires ValidEvidence(e) && Coupled(o) && Reading(o).Some?
    requires Holds(o, e) && !MovesStatus(o.status, e.requested)
    requires QuantityValid(e.requested, e.filled, o.quantity)
    ensures Reading(o)
              == Some(ContractApply(Reading(o).value, Event(e.sourceKind, e.requested, e.filled, true, false, false),
                                    o.quantity))
  {
  }

  /**
   * Ingesting a contract candidate, an exact duplicate or a semantic conflict
   * moves the order's reading exactly as the contract's step function does.
   */
  lemma IngestRefinesContract(j: Journal, e: Evidence)
    requires Sound(j) && ValidEvidence(e) && KeyOf(e) in j.orders
    requires Reading(j.orders[KeyOf(e)]).Some?
    requires var event := EventFor(j, e);
             IsCandidate(event, j.orders[KeyOf(e)].quantity) || event.exactDuplicate || event.semanticConflict
    ensures KeyOf(e) in Ingest(j, e).0.orders
    ensures var o := j.orders[KeyOf(e)];
            Reading(Ingest(j, e).0.orders[KeyOf(e)])
                == Some(ContractApply(Reading(o).value, EventFor(j, e), o.quantity))
  {
    hide EventIdKeyed, KeysObserved, ReuseReviewed, FillsWitnessed, StatusesWitnessed, IngestMerged, FirstOrder;
    hide ObservationsReflected, ValidEvidence, QuantityValid, MovesStatus;
    var o := j.orders[KeyOf(e)];
    assert Coupled(o);
    if EventIdTaken(j, e) {
      var f :| f in j.keys && Clashes(f, e) && Ingest(j, e) == IngestReused(j, e, f);
      StoredKeyHasOrder(j, f);
      assert FingerprintOf(e) !in j.keys by {
        assert EventIdsUnique(j);
      }
    } else if FingerprintOf(e) !in j.keys {
      if Suppressed(j, e) {
        SuppressedFactHolds(j, e);
        hide Suppressed, Sound;
        SuppressionRefines(o, e);
      } else {
        hide Suppressed, Sound;
        MergeRefines(j, e);
      }
    }
  }

  // ------------------------------------------------------------------- divergence

  predicate SameBrokerOrder(o: Order, e: Evidence) {
    o.brokerId.None? || e.brokerOrderId.None? || o.brokerId == e.brokerOrderId
  }

  /**
   * New evidence that is not a candidate and still leaves the state alone, as
   * the contract wants. A reviewed order stays reviewed, unless a partial fill
   * of the whole quantity raises its fill. Elsewhere it takes a terminal
   * contradiction above the quantity, which rolls back, or a restated fill of
   * a filled order.
   */
  predicate KeptAnyway(o: Order, e: Evidence) {
    if o.status == ManualReview then
      !(SameBrokerOrder(o, e) && e.requested == PartiallyFilled && o.filled < e.filled == o.quantity)
    else
      && SameBrokerOrder(o, e)
      && (|| (IsBrokerTerminal(o.status) && IsBrokerTerminal(e.requested) && o.status != e.requested
              && e.filled > o.quantity)
          || (o.status == Filled && e.requested == Filled && e.filled < o.quantity)
          || (o.status == Filled && e.requested == PartiallyFilled && e.filled == o.quantity))
  }

  predicate NotCandidate(o: Order, e: Evidence) {
    && ValidEvidence(e) && Coupled(o) && Reading(o).Some?
    && !(SameBrokerOrder(o, e) && QuantityValid(e.requested, e.filled, o.quantity))
  }

  predicate LeavesReading(o: Order, e: Evidence)
    requires Reading(o).Some?
  {
    MergedRow(o, e).Err? || Reading(MergedRow(o, e).value) == Reading(o)
  }

  lemma OpenNonCandidate(o: Order, e: Evidence)
    requires NotCandidate(o, e) && !IsTerminal(o.status)
    ensures LeavesReading(o, e) <==> KeptAnyway(o, e)
  {
  }

  lemma ReviewedNonCandidate(o: Order, e: Evidence)
    requires NotCandidate(o, e) && o.status == ManualReview
    ensures LeavesReading(o, e) <==> KeptAnyway(o, e)
  {
  }

  lemma EndedNonCandidate(o: Order, e: Evidence)
    requires NotCandidate(o, e) && IsBrokerTerminal(o.status)
    ensures LeavesReading(o, e) <==> KeptAnyway(o, e)
  {
  }

  lemma NonCandidateMerge(j: Journal, e: Evidence)
    requires KeyOf(e) in j.orders && NotCandidate(j.orders[KeyOf(e)], e)
    ensures KeyOf(e) in IngestMerged(j, e).0.orders
    ensures Reading(IngestMerged(j, e).0.orders[KeyOf(e)]) == Reading(j.orders[KeyOf(e)])
            <==> KeptAnyway(j.orders[KeyOf(e)], e)
  {
    var o := j.orders[KeyOf(e)];
    if o.status == ManualReview {
      ReviewedNonCandidate(o, e);
    } else if IsBrokerTerminal(o.status) {
      EndedNonCandidate(o, e);
    } else {
      OpenNonCandidate(o, e);
    }
    hide MergeFact, MarkConflict, Reading, ValidEvidence, Coupled, QuantityValid, KeptAnyway, NotCandidate;
  }

  /**
   * For every piece of evidence about a readable order: ingestion does what
   * the contract says exactly when it is a candidate, a duplicate, a semantic
   * conflict, suppressed, or kept anyway. In all other cases the code moves an
   * order whose state the contract keeps.
   */
  lemma IngestAgreesExactlyWhen(j: Journal, e: Evidence)
    requires Sound(j) && ValidEvidence(e) && KeyOf(e) in j.orders && Reading(j.orders[KeyOf(e)]).Some?
    ensures var o, event := j.orders[KeyOf(e)], EventFor(j, e);
            && KeyOf(e) in Ingest(j, e).0.orders
            && (Reading(Ingest(j, e).0.orders[KeyOf(e)])
                == Some(ContractApply(Reading(o).value, event, o.quantity)) <==>
                  || IsCandidate(event, o.quantity) || event.exactDuplicate || event.semanticConflict
                  || Suppressed(j, e) || KeptAnyway(o, e))
  {
    hide Sound, Ingest, ContractApply, Reading, ValidEvidence, KeptAnyway, Suppressed, EventIdTaken;
    hide IngestMerged, Coupled, FingerprintOf;
    var o, event := j.orders[KeyOf(e)], EventFor(j, e);
    if IsCandidate(event, o.quantity) || event.exactDuplicate || event.semanticConflict {
      IngestRefinesContract(j, e);
    } else {
      NewNonCandidate(j, e);
    }
  }

  lemma NewNonCandidate(j: Journal, e: Evidence)
    requires Sound(j) && ValidEvidence(e) && KeyOf(e) in j.orders && Reading(j.orders[KeyOf(e)]).Some?
    requires var event := EventFor(j, e);
             !IsCandidate(event, j.orders[KeyOf(e)].quantity) && !event.exactDuplicate && !event.semanticConflict
    ensures var o := j.orders[KeyOf(e)];
            && KeyOf(e) in Ingest(j, e).0.orders
            && ContractApply(Reading(o).value, EventFor(j, e), o.quantity) == Reading(o).value
            && (Reading(Ingest(j, e).0.orders[KeyOf(e)]) == Reading(o) <==> Suppressed(j, e) || KeptAnyway(o, e))
  {
    var o := j.orders[KeyOf(e)];
    assert Coupled(o) by { assert OrdersCoupled(j); }
    EvidenceSourceAllows(e);
    hide Sound, Reading, ValidEvidence, KeptAnyway, Suppressed, IngestMerged, Coupled, FingerprintOf;
    hide SourceAllows, QuantityValid;
    if !Suppressed(j, e) {
      NonCandidateMerge(j, e);
    }
  }

  lemma EvidenceSourceAllows(e: Evidence)
    requires ValidEvidence(e)
    ensures SourceAllows(e.sourceKind, e.requested)
  {
  }

  lemma ContractRankNeverFalls(s: State, e: Event, quantity: int)
    ensures Rank(ContractApply(s, e, quantity).status) >= Rank(s.status)
  {
  }

  /** The contract's rank of an order never falls. */
  lemma RankNeverFalls(j: Journal, e: Evidence)
    requires Sound(j) && ValidEvidence(e) && KeyOf(e) in j.orders
    requires Reading(j.orders[KeyOf(e)]).Some?
    requires var event := EventFor(j, e);
             IsCandidate(event, j.orders[KeyOf(e)].quantity) || event.exactDuplicate || event.semanticConflict
    ensures KeyOf(e) in Ingest(j, e).0.orders
    ensures var after := Reading(Ingest(j, e).0.orders[KeyOf(e)]);
            after.Some? && Rank(after.value.status) >= Rank(Reading(j.orders[KeyOf(e)]).value.status)
  {
    hide Sound, Ingest, ContractApply, Rank, Reading, ValidEvidence, IsCandidate;
    IngestRefinesContract(j, e);
    ContractRankNeverFalls(Reading(j.orders[KeyOf(e)]).value, EventFor(j, e), j.orders[KeyOf(e)].quantity);
  }
}
