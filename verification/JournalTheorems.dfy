/**
 * What soundness says about any reachable database: provenance, semantic
 * duplicates, replay, and exactly when evidence is rolled back.
 */
module JournalTheorems {
  import opened OrderLifecycle
  import opened OrderRows
  import opened BrokerEvidence
  import opened EvidenceJournal
  import opened JournalHistory

  // --------------------------------------------------------------------- provenance

  /** Why an accepted fact entitles an order to its broker status. */
  predicate Justifies(o: Order, e: Evidence) {
    match o.status
    case Acknowledged | Cancelled | Rejected => e.requested == o.status
    case PartiallyFilled => 0 < e.filled == o.filled
    case Filled => e.filled == o.quantity
    case _ => false
  }

  lemma FillIsMaximumCounted(j: Journal, k: OrderKey)
    requires ObservationsReflected(j) && FillsWitnessed(j) && k in j.orders
    ensures forall ob :: ob in j.observations && KeyOf(ob.e) == k && Counted(j, ob) ==>
              ob.e.filled <= j.orders[k].filled
    ensures j.orders[k].filled == 0 || FillWitnessed(j, k)
  {
    hide EventIdKeyed;
    forall ob | ob in j.observations && KeyOf(ob.e) == k && Counted(j, ob) ensures ob.e.filled <= j.orders[k].filled {
      assert Reflected(j, ob);
    }
  }

  lemma BrokerStatusJustified(j: Journal, k: OrderKey) returns (ob: Observation)
    requires OrdersCoupled(j) && ObservationsReflected(j) && FillsWitnessed(j) && StatusesWitnessed(j)
    requires k in j.orders && IsReportable(j.orders[k].status)
    ensures ob in j.observations && KeyOf(ob.e) == k && Accepted(ob) && Justifies(j.orders[k], ob.e)
  {
    hide EventIdKeyed;
    var o := j.orders[k];
    assert Coupled(o);
    if o.status in {PartiallyFilled, Filled} {
      assert FillWitnessed(j, k);
      ob :| ob in j.observations && KeyOf(ob.e) == k && Counted(j, ob) && ob.e.filled == o.filled;
      assert Reflected(j, ob);
    } else {
      assert StatusWitnessed(j, k);
      ob :| ob in j.observations && KeyOf(ob.e) == k && Accepted(ob) && ob.e.requested == o.status;
    }
  }

  /**
   * Provenance over every history: an order's fill is the largest fill among
   * its accepted facts and recorded terminal conflicts, and each broker status
   * is backed by an accepted fact that entitles the order to it.
   */
  lemma Provenance(steps: seq<JournalStep>, k: OrderKey)
    requires k in RunHistory(EmptyJournal, steps).orders
    ensures var j := RunHistory(EmptyJournal, steps);
            && (forall ob :: ob in j.observations && KeyOf(ob.e) == k && Counted(j, ob) ==>
                  ob.e.filled <= j.orders[k].filled)
            && (j.orders[k].filled == 0 || FillWitnessed(j, k))
            && (IsReportable(j.orders[k].status) ==>
                  exists ob :: ob in j.observations && KeyOf(ob.e) == k && Accepted(ob) && Justifies(j.orders[k], ob.e))
  {
    ReachableIsSound(steps);
    var j := RunHistory(EmptyJournal, steps);
    FillIsMaximumCounted(j, k);
    if IsReportable(j.orders[k].status) {
      var ob := BrokerStatusJustified(j, k);
    }
  }

  // ------------------------------------------------------------ semantic duplicates

  /**
   * A suppressed fact is already in the row: at least its fill, and its broker
   * id. Merging it would have left every row as it is, except exactly when the
   * order is CANCEL_PENDING with a positive fill.
   */
  lemma SuppressionLosesNothing(j: Journal, e: Evidence)
    requires Sound(j) && ValidEvidence(e) && KeyOf(e) in j.orders && Suppressed(j, e)
    ensures var o := j.orders[KeyOf(e)];
            && e.filled <= o.filled
            && (e.brokerOrderId.Some? ==> o.brokerId == e.brokerOrderId)
            && (IngestMerged(j, e).0.orders == j.orders <==> !(o.status == CancelPending && o.filled > 0))
  {
    hide EventIdKeyed, KeysObserved, ReuseReviewed, FillsWitnessed, StatusesWitnessed, IngestMerged;
    SuppressedFactHolds(j, e);
    SuppressedRow(j, e);
  }

  lemma SuppressedRow(j: Journal, e: Evidence)
    requires ValidEvidence(e) && KeyOf(e) in j.orders
    requires var o := j.orders[KeyOf(e)]; Coupled(o) && Holds(o, e) && !MovesStatus(o.status, e.requested)
    ensures var o := j.orders[KeyOf(e)];
            IngestMerged(j, e).0.orders == j.orders <==> !(o.status == CancelPending && o.filled > 0)
  {
    SuppressedMerge(j.orders[KeyOf(e)], e);
    hide MergeFact, Holds, Coupled, MovesStatus;
    var n := IngestMerged(j, e).0;
    assert n.orders[KeyOf(e)] == j.orders[KeyOf(e)] ==> n.orders == j.orders;
  }

  lemma SuppressedMerge(o: Order, e: Evidence)
    requires Coupled(o) && ValidEvidence(e) && Holds(o, e) && !MovesStatus(o.status, e.requested)
    ensures match MergeFact(o, e.requested, e.brokerOrderId, e.filled)
            case Ok((p, _)) => p == o <==> !(o.status == CancelPending && o.filled > 0)
            case Err(err) => o.status == ManualReview && err != LifecycleConflict
  {
  }

  // -------------------------------------------------------------------------- replay

  /** Re-ingesting any recorded evidence, conflicting evidence included, changes no row. */
  lemma ReplayChangesNoRow(j: Journal, ob: Observation, e: Evidence)
    requires Sound(j) && ob in j.observations && FingerprintOf(e) == FingerprintOf(ob.e)
    ensures Ingest(j, e).0.orders == j.orders
    ensures Ingest(j, e).1 != RolledBack
  {
    hide OrdersCoupled, EventIdsUnique, KeysObserved, ReuseReviewed, FillsWitnessed, StatusesWitnessed;
    hide IngestReused, IngestMerged, Reflected, ValidEvidence;
    assert KeyOf(e) == KeyOf(ob.e) && KeyOf(e) in j.orders;
    assert forall f :: Clashes(f, e) <==> Clashes(f, ob.e);
    if EventIdTaken(j, e) {
      var f :| f in j.keys && Clashes(f, e) && Ingest(j, e) == IngestReused(j, e, f);
      assert Clashes(f, ob.e);
      ReusedReplayChangesNoRow(j, ob, e, f);
    } else {
      assert FingerprintOf(e) in j.keys by {
        assert EventIdKeyed(j, ob.e);
        var f :| f in j.keys && SameIdentity(f, FingerprintOf(ob.e));
        assert !Clashes(f, e);
      }
    }
  }

  lemma ReusedReplayChangesNoRow(j: Journal, ob: Observation, e: Evidence, f: Fingerprint)
    requires Sound(j) && ob in j.observations && FingerprintOf(e) == FingerprintOf(ob.e)
    requires KeyOf(e) in j.orders && f in j.keys && Clashes(f, e) && Clashes(f, ob.e)
    ensures IngestReused(j, e, f).0.orders == j.orders && IngestReused(j, e, f).1 != RolledBack
  {
    hide EventIdKeyed, KeyObserved, FillsWitnessed, StatusesWitnessed, FirstOrder;
    StoredKeyHasOrder(j, f);
    assert j.orders[OrderOf(f)].status == ManualReview;
    assert FingerprintOf(ob.e) !in j.keys by {
      assert EventIdsUnique(j);
    }
    assert Reflected(j, ob);
    hide Sound, IngestReused;
    ReusedRows(j, e, f);
  }

  ghost predicate Recorded(j: Journal, e: Evidence) {
    exists ob :: ob in j.observations && FingerprintOf(e) == FingerprintOf(ob.e)
  }

  ghost predicate AllRecorded(j: Journal, es: seq<Evidence>) {
    forall e :: e in es ==> Recorded(j, e) && ValidEvidence(e)
  }

  function Deliveries(es: seq<Evidence>): seq<JournalStep> {
    seq(|es|, i requires 0 <= i < |es| => Deliver(es[i]))
  }

  /** Any number of replays, in any order, with duplicates. */
  lemma {:induction false} ReplaysChangeNoRow(j: Journal, es: seq<Evidence>)
    requires Sound(j) && AllRecorded(j, es)
    ensures RunHistory(j, Deliveries(es)).orders == j.orders
    decreases |es|
  {
    hide Sound, Advance, RowsGrow, KeysGrow, Recorded, ValidEvidence;
    if es != [] {
      var e, rest := es[0], es[1..];
      var n := Advance(j, Deliver(e));
      assert AllRecorded(j, rest);
      RecordedReplay(j, e);
      AdvanceKeepsSound(j, Deliver(e));
      RecordedPersists(j, n, rest);
      ReplaysChangeNoRow(n, rest);
      assert Deliveries(es)[1..] == Deliveries(rest);
    }
  }

  lemma RecordedReplay(j: Journal, e: Evidence)
    requires Sound(j) && Recorded(j, e) && ValidEvidence(e)
    ensures Advance(j, Deliver(e)).orders == j.orders
  {
    var ob :| ob in j.observations && FingerprintOf(e) == FingerprintOf(ob.e);
    hide Sound, Ingest;
    ReplayChangesNoRow(j, ob, e);
  }

  lemma RecordedPersists(j: Journal, n: Journal, es: seq<Evidence>)
    requires AllRecorded(j, es) && j.observations <= n.observations
    ensures AllRecorded(n, es)
  {
    forall e | e in es ensures Recorded(n, e) {
      var ob :| ob in j.observations && FingerprintOf(e) == FingerprintOf(ob.e);
      PrefixMember(j.observations, n.observations, ob);
    }
  }

  /** The replay may come after any further history of the database. */
  lemma ReplayAtAnyLaterTime(before: seq<JournalStep>, between: seq<JournalStep>, es: seq<Evidence>)
    requires AllRecorded(RunHistory(EmptyJournal, before), es)
    ensures var later := RunHistory(RunHistory(EmptyJournal, before), between);
            RunHistory(later, Deliveries(es)).orders == later.orders
  {
    var first := RunHistory(EmptyJournal, before);
    ReachableIsSound(before);
    HistoryKeepsSound(first, between);
    hide Sound;
    RecordedPersists(first, RunHistory(first, between), es);
    ReplaysChangeNoRow(RunHistory(first, between), es);
  }

  // ------------------------------------------------------------------------ rollback

  /** A contradicting terminal fact whose fill the conflict marker itself refuses. */
  ghost predicate RefusedByMarker(j: Journal, e: Evidence)
    requires KeyOf(e) in j.orders
  {
    var o := j.orders[KeyOf(e)];
    && !EventIdTaken(j, e) && FingerprintOf(e) !in j.keys
    && (e.brokerOrderId.Some? && o.brokerId.Some? ==> o.brokerId == e.brokerOrderId)
    && IsBrokerTerminal(o.status) && IsBrokerTerminal(e.requested) && o.status != e.requested
    && e.filled > o.quantity
  }

  /**
   * Contradictory evidence does not always reach MANUAL_REVIEW. Ingestion of
   * evidence for a known order commits, unless the evidence is a contradicting
   * terminal fact above the order quantity: then the whole transaction aborts.
   */
  lemma RollsBackExactlyWhenMarkerRefuses(j: Journal, e: Evidence)
    requires Sound(j) && ValidEvidence(e) && KeyOf(e) in j.orders
    ensures Ingest(j, e).1 == RolledBack <==> RefusedByMarker(j, e)
    ensures Ingest(j, e).1 == RolledBack ==> Ingest(j, e).0 == j
  {
    hide EventIdKeyed, KeysObserved, ReuseReviewed, FillsWitnessed, StatusesWitnessed, IngestMerged, FirstOrder;
    if EventIdTaken(j, e) {
      var f :| f in j.keys && Clashes(f, e) && Ingest(j, e) == IngestReused(j, e, f);
      StoredKeyHasOrder(j, f);
    } else if FingerprintOf(e) !in j.keys {
      if Suppressed(j, e) {
        SuppressedFactHolds(j, e);
        assert Coupled(j.orders[KeyOf(e)]);
      } else {
        MergeRollsBack(j, e);
      }
    }
  }

  lemma MergeRollsBack(j: Journal, e: Evidence)
    requires ValidEvidence(e) && KeyOf(e) in j.orders && Coupled(j.orders[KeyOf(e)])
    ensures var o := j.orders[KeyOf(e)];
            IngestMerged(j, e).1 == RolledBack <==>
              && (e.brokerOrderId.Some? && o.brokerId.Some? ==> o.brokerId == e.brokerOrderId)
              && IsBrokerTerminal(o.status) && IsBrokerTerminal(e.requested) && o.status != e.requested
              && e.filled > o.quantity
    ensures IngestMerged(j, e).1 == RolledBack ==> IngestMerged(j, e).0 == j
  {
  }
}
