/**
 * Histories from the empty database that reach the corner cases the journal
 * theorems name: the rollback and the suppression that is not a no-op.
 */
module JournalWitnesses {
  import opened Basics
  import opened OrderLifecycle
  import opened OrderRows
  import opened BrokerEvidence
  import opened EvidenceJournal
  import opened JournalHistory
  import opened JournalTheorems
  import EvidenceContract

  ghost predicate Reached(j: Journal) {
    exists steps :: RunHistory(EmptyJournal, steps) == j
  }

  lemma {:induction false} RunAppend(j: Journal, steps: seq<JournalStep>, s: JournalStep)
    ensures RunHistory(j, steps + [s]) == Advance(RunHistory(j, steps), s)
    decreases |steps|
  {
    if steps == [] {
      assert ([s])[1..] == [];
      assert steps + [s] == [s];
    } else {
      assert (steps + [s])[1..] == steps[1..] + [s];
      RunAppend(Advance(j, steps[0]), steps[1..], s);
    }
  }

  /** Whatever is reached, one more transaction reaches its outcome. */
  lemma ReachOne(j: Journal, s: JournalStep)
    requires Reached(j)
    ensures Reached(Advance(j, s))
  {
    var steps :| RunHistory(EmptyJournal, steps) == j;
    RunAppend(EmptyJournal, steps, s);
  }

  lemma ReachedIsSound(j: Journal)
    requires Reached(j)
    ensures Sound(j)
  {
    var steps :| RunHistory(EmptyJournal, steps) == j;
    ReachableIsSound(steps);
  }

  lemma ReachWrite(j: Journal, k: OrderKey, step: RowStep, p: Order)
    requires Reached(j) && k in j.orders && IsCommandStep(step) && StepGuard(j.orders[k], step)
             && ApplyStep(j.orders[k], step) == Ok(p)
    ensures Reached(PutOrder(j, k, p))
  {
    ReachOne(j, Write(k, step));
  }

  /** A fact under a new event id that is not a semantic duplicate is merged. */
  lemma ReachFact(j: Journal, e: Evidence, o: Order, p: Order) returns (n: Journal)
    requires Reached(j) && ValidEvidence(e) && j.orders == map[KeyOf(e) := o] && !Suppressed(j, e)
    requires MergeFact(o, e.requested, e.brokerOrderId, e.filled).Ok?
             && MergeFact(o, e.requested, e.brokerOrderId, e.filled).value.0 == p
    requires forall f :: f in j.keys ==> !SameIdentity(f, FingerprintOf(e))
    ensures Reached(n) && n.orders == map[KeyOf(e) := p]
    ensures n.keys.Keys == j.keys.Keys + {FingerprintOf(e)} && n.observations == j.observations + [Observation(e, New)]
  {
    hide Reached, MergeFact, ValidEvidence, FingerprintOf;
    ReachOne(j, Deliver(e));
    IdentityIsReflexive(FingerprintOf(e));
    assert !EventIdTaken(j, e);
    n := IngestMerged(j, e).0;
  }

  /** An order of `quantity` whose submit is reserved, alone in the database. */
  function Reserved(k: OrderKey, quantity: int): Journal {
    Journal(map[k := Order(Submitting, None, 0, quantity, true, false, false)], map[], [])
  }

  lemma ReachCreated(k: OrderKey, quantity: int)
    requires 0 < quantity
    ensures Reached(PutOrder(EmptyJournal, k, NewOrder(quantity)))
  {
    assert RunHistory(EmptyJournal, []) == EmptyJournal;
    ReachOne(EmptyJournal, Create(k, quantity));
  }

  lemma ReachReserved(k: OrderKey, quantity: int)
    requires 0 < quantity
    ensures Reached(Reserved(k, quantity))
  {
    hide Reached;
    var created := PutOrder(EmptyJournal, k, NewOrder(quantity));
    ReachCreated(k, quantity);
    ReachWrite(created, k, Risk(true), NewOrder(quantity).(status := RiskAccepted));
    var accepted := PutOrder(created, k, NewOrder(quantity).(status := RiskAccepted));
    ReachWrite(accepted, k, ReserveSubmit, Order(Submitting, None, 0, quantity, true, false, false));
    assert PutOrder(accepted, k, Order(Submitting, None, 0, quantity, true, false, false)) == Reserved(k, quantity);
  }

  /** A callback under the given event id, for the broker's order "B". */
  function Callback(k: OrderKey, eventId: string, kind: EvidenceType, filled: int): Evidence {
    Evidence("callbacks", OrderCallback, eventId, "profile", k.account, k.clientOrderId, None, Some("B"), None, None,
             kind, StatusOf(kind), filled, 1, "ref", None, None)
  }

  lemma DistinctCallbacks(k: OrderKey, a: Evidence, b: Evidence)
    requires a.eventId != b.eventId
    ensures !SameIdentity(FingerprintOf(a), FingerprintOf(b))
  {
  }

  lemma CallbacksMerge(k: OrderKey)
    ensures MergeFact(Order(Submitting, None, 0, 2, true, false, false), Cancelled, Some("B"), 0).Ok?
    ensures MergeFact(Order(Submitting, None, 0, 2, true, false, false), Cancelled, Some("B"), 0).value.0 ==
            Order(Cancelled, Some("B"), 0, 2, true, false, false)
    ensures MergeFact(Order(Submitting, None, 0, 2, true, false, false), Acknowledged, Some("B"), 0).Ok?
    ensures MergeFact(Order(Submitting, None, 0, 2, true, false, false), Acknowledged, Some("B"), 0).value.0 ==
            Order(Acknowledged, Some("B"), 0, 2, true, false, false)
    ensures MergeFact(Order(Acknowledged, Some("B"), 0, 2, true, false, false), PartiallyFilled, Some("B"), 1).Ok?
    ensures MergeFact(Order(Acknowledged, Some("B"), 0, 2, true, false, false), PartiallyFilled, Some("B"),
                      1).value.0 ==
            Order(PartiallyFilled, Some("B"), 1, 2, true, false, false)
  {
  }

  /**
   * A reachable overfill that never reaches MANUAL_REVIEW: an order of two is
   * reported cancelled, then fully filled with three. The second report leaves
   * the database as it was.
   */
  lemma OverfillAfterCancelNeverReachesReview(k: OrderKey)
    requires k.clientOrderId != ""
    ensures exists j :: Reached(j) && k in j.orders && j.orders[k].status == Cancelled && j.orders[k].quantity == 2
                        && Ingest(j, Callback(k, "b", FullFill, 3)) == (j, RolledBack)
  {
    hide Sound, Reached, Ingest, MergeFact, Suppressed, FingerprintOf, SameIdentity;
    var cancel, fill := Callback(k, "a", OrderCancelled, 0), Callback(k, "b", FullFill, 3);
    ReachReserved(k, 2);
    NothingIsSuppressed(Reserved(k, 2), cancel);
    CallbacksMerge(k);
    var j := ReachFact(Reserved(k, 2), cancel, Order(Submitting, None, 0, 2, true, false, false),
                       Order(Cancelled, Some("B"), 0, 2, true, false, false));
    ReachedIsSound(j);
    DistinctCallbacks(k, cancel, fill);
    OverfillRefused(j, cancel, fill);
  }

  lemma NothingIsSuppressed(j: Journal, e: Evidence)
    requires KeyOf(e) in j.orders && j.observations == []
    ensures !Suppressed(j, e)
  {
  }

  lemma OverfillRefused(j: Journal, cancel: Evidence, fill: Evidence)
    requires Sound(j) && ValidEvidence(fill)
             && j.orders == map[KeyOf(fill) := Order(Cancelled, fill.brokerOrderId, 0, 2, true, false, false)]
    requires j.keys.Keys == {FingerprintOf(cancel)} && !SameIdentity(FingerprintOf(cancel), FingerprintOf(fill))
    requires fill.kind == FullFill && fill.filled == 3
    ensures Ingest(j, fill) == (j, RolledBack)
  {
    hide Sound, Ingest;
    assert !EventIdTaken(j, fill) && FingerprintOf(fill) !in j.keys;
    RollsBackExactlyWhenMarkerRefuses(j, fill);
  }

  /** An order of two, acknowledged, filled with one, whose cancel is reserved. */
  lemma ReachCancelPending(k: OrderKey) returns (j: Journal)
    requires k.clientOrderId != ""
    ensures Reached(j) && j.orders == map[k := Order(CancelPending, Some("B"), 1, 2, true, true, false)]
    ensures j.keys.Keys == {FingerprintOf(Callback(k, "a", OrderAccepted, 0)),
                            FingerprintOf(Callback(k, "b", PartialFill, 1))}
    ensures Observation(Callback(k, "a", OrderAccepted, 0), New) in j.observations
  {
    hide Reached, MergeFact, Suppressed, FingerprintOf, SameIdentity;
    var accept, part := Callback(k, "a", OrderAccepted, 0), Callback(k, "b", PartialFill, 1);
    ReachReserved(k, 2);
    NothingIsSuppressed(Reserved(k, 2), accept);
    CallbacksMerge(k);
    var known := ReachFact(Reserved(k, 2), accept, Order(Submitting, None, 0, 2, true, false, false),
                           Order(Acknowledged, Some("B"), 0, 2, true, false, false));
    DistinctCallbacks(k, accept, part);
    OtherFactIsNew(known, accept, part);
    var partly := ReachFact(known, part, Order(Acknowledged, Some("B"), 0, 2, true, false, false),
                            Order(PartiallyFilled, Some("B"), 1, 2, true, false, false));
    ReachWrite(partly, k, ReserveCancel, Order(CancelPending, Some("B"), 1, 2, true, true, false));
    j := PutOrder(partly, k, Order(CancelPending, Some("B"), 1, 2, true, true, false));
  }

  lemma OtherFactIsNew(j: Journal, first: Evidence, e: Evidence)
    requires KeyOf(e) in j.orders && j.observations == [Observation(first, New)] && first.kind != e.kind
    ensures !Suppressed(j, e)
  {
  }

  /**
   * The exception of `SuppressionLosesNothing` is reachable: the repeated
   * acknowledgement is suppressed, while merging it would have taken the order
   * out of CANCEL_PENDING.
   */
  lemma SuppressionCanLoseAStatus(k: OrderKey)
    requires k.clientOrderId != ""
    ensures exists j :: var e := Callback(k, "c", OrderAccepted, 0);
              && Reached(j) && k in j.orders && j.orders[k].status == CancelPending
              && Ingest(j, e).0.orders == j.orders && Ingest(j, e).1.Ingested?
              && IngestMerged(j, e).0.orders[k].status == PartiallyFilled
  {
    var j := ReachCancelPending(k);
    var e := Callback(k, "c", OrderAccepted, 0);
    assert SameFact(Callback(k, "a", OrderAccepted, 0), e);
    assert Suppressed(j, e);
    assert !EventIdTaken(j, e) && FingerprintOf(e) !in j.keys;
    assert Ingest(j, e) == IngestSuppressed(j, e);
    assert IngestMerged(j, e).0.orders[k].status == PartiallyFilled;
    hide Ingest, IngestMerged, Reached;
  }

  /** An order of two, acknowledged. */
  lemma ReachAcknowledged(k: OrderKey) returns (j: Journal)
    requires k.clientOrderId != ""
    ensures Reached(j) && j.orders == map[k := Order(Acknowledged, Some("B"), 0, 2, true, false, false)]
    ensures j.keys.Keys == {FingerprintOf(Callback(k, "a", OrderAccepted, 0))}
    ensures j.observations == [Observation(Callback(k, "a", OrderAccepted, 0), New)]
  {
    hide Reached, MergeFact, Suppressed, FingerprintOf, SameIdentity;
    ReachReserved(k, 2);
    NothingIsSuppressed(Reserved(k, 2), Callback(k, "a", OrderAccepted, 0));
    CallbacksMerge(k);
    j := ReachFact(Reserved(k, 2), Callback(k, "a", OrderAccepted, 0),
                   Order(Submitting, None, 0, 2, true, false, false),
                   Order(Acknowledged, Some("B"), 0, 2, true, false, false));
  }

  /**
   * Where the code departs from the evidence contract, reachably: a partial
   * fill of three for an acknowledged order of two. The contract keeps
   * ACKNOWLEDGED; the code sends the order to MANUAL_REVIEW.
   */
  lemma ContractKeepsWhatIngestReviews(k: OrderKey)
    requires k.clientOrderId != ""
    ensures exists j :: var e := Callback(k, "b", PartialFill, 3);
              && Reached(j) && k in j.orders && j.orders[k].status == Acknowledged && j.orders[k].quantity == 2
              && k in Ingest(j, e).0.orders && Ingest(j, e).0.orders[k].status == ManualReview
              && EvidenceContract.ContractApply(EvidenceContract.State(Acknowledged, 0),
                                                EvidenceContract.EventFor(j, e), 2)
                 == EvidenceContract.State(Acknowledged, 0)
  {
    hide Reached, Suppressed, FingerprintOf, SameIdentity;
    var j := ReachAcknowledged(k);
    var accept, e := Callback(k, "a", OrderAccepted, 0), Callback(k, "b", PartialFill, 3);
    DistinctCallbacks(k, accept, e);
    OtherFactIsNew(j, accept, e);
    OverfillIsReviewed(j, accept, e);
  }

  lemma OverfillIsReviewed(j: Journal, accept: Evidence, e: Evidence)
    requires j.orders == map[KeyOf(e) := Order(Acknowledged, e.brokerOrderId, 0, 2, true, false, false)]
    requires j.keys.Keys == {FingerprintOf(accept)} && !SameIdentity(FingerprintOf(accept), FingerprintOf(e))
    requires ValidEvidence(e) && e.kind == PartialFill && e.filled == 3 && !Suppressed(j, e)
    ensures KeyOf(e) in Ingest(j, e).0.orders && Ingest(j, e).0.orders[KeyOf(e)].status == ManualReview
    ensures EvidenceContract.ContractApply(EvidenceContract.State(Acknowledged, 0), EvidenceContract.EventFor(j, e), 2)
            == EvidenceContract.State(Acknowledged, 0)
  {
    hide Suppressed;
    IdentityIsReflexive(FingerprintOf(e));
    assert !EventIdTaken(j, e) && FingerprintOf(e) !in j.keys;
    assert Ingest(j, e) == IngestMerged(j, e);
  }
}
