/**
 * One OMS session: restart recovery, submission and cancellation
 * (oms/service.py) against a broker driver.
 */
module OmsService {
  import opened Basics
  import opened OrderLifecycle
  import opened OrderRows
  import opened BrokerEvidence
  import opened EvidenceJournal
  import opened JournalHistory
  import opened JournalTheorems
  import opened LeaderLease
  import opened OmsStore
  import opened BrokerDriver
  import opened Clocks

  // ------------------------------------------------------------------ query evidence

  const QuerySource := "execution-driver-active-query"

  function KindOf(s: Status): Option<EvidenceType> {
    match s
    case Acknowledged => Some(OrderAccepted)
    case PartiallyFilled => Some(PartialFill)
    case Filled => Some(FullFill)
    case Cancelled => Some(OrderCancelled)
    case Rejected => Some(OrderRejected)
    case _ => None
  }

  function QueryEventId(session: string, reason: string, k: OrderKey): string {
    session + ":" + reason + ":" + k.clientOrderId
  }

  function QueryEvidence(session: string, reason: string, k: OrderKey, seen: DriverOrder, kind: EvidenceType,
                         now: int): Evidence {
    Evidence(QuerySource, ActiveOrderQuery, QueryEventId(session, reason, k), "execution-driver-query-v1",
             k.account, k.clientOrderId, None, seen.brokerOrderId, None, None, kind, seen.status, seen.filled,
             now, "driver://active-order-query/" + k.clientOrderId, None, None)
  }

  /** What the session's evidence about this answer is stored under; the time of the query is not part of it. */
  function QueryFingerprint(session: string, reason: string, k: OrderKey, seen: DriverOrder): Fingerprint
    requires KindOf(seen.status).Some?
  {
    FingerprintOf(QueryEvidence(session, reason, k, seen, KindOf(seen.status).value, 0))
  }

  /** The session has sent exactly this evidence before. */
  predicate Repeats(keys: map<Fingerprint, KeyRow>, session: string, reason: string, k: OrderKey,
                    seen: Option<DriverOrder>) {
    seen.Some? && KindOf(seen.value.status).Some? && QueryFingerprint(session, reason, k, seen.value) in keys
  }

  lemma QueryIdsDiffer(session: string, reason: string, a: OrderKey, b: OrderKey)
    requires a.account == b.account && QueryEventId(session, reason, a) == QueryEventId(session, reason, b)
    ensures a == b
  {
    var n := |session + ":" + reason + ":"|;
    assert QueryEventId(session, reason, a)[n..] == a.clientOrderId;
    assert QueryEventId(session, reason, b)[n..] == b.clientOrderId;
  }

  /**
   * The three questions a session asks about an order have three event ids, and
   * no other order's question has one of them.
   */
  lemma QuestionsAreApart(session: string, reason: string, other: string, a: OrderKey, b: OrderKey)
    requires reason in {"startup-recovery", "post-submit", "post-cancel"}
    requires other in {"startup-recovery", "post-submit", "post-cancel"}
    ensures QueryEventId(session, reason, a) == QueryEventId(session, other, b) <==>
            reason == other && a.clientOrderId == b.clientOrderId
  {
    var n := |session| + 1;
    var x, y := QueryEventId(session, reason, a), QueryEventId(session, other, b);
    assert x[n..] == reason + ":" + a.clientOrderId && y[n..] == other + ":" + b.clientOrderId;
    if x == y {
      assert x[n] == reason[0] && y[n] == other[0];
      assert x[n + 5] == reason[5] && y[n + 5] == other[5];
      assert reason == other;
      QueryIdsDiffer(session, reason, a.(account := b.account), b);
    }
  }

  /** Fresh uuids: no stored event id starts with this session's id. */
  ghost predicate SessionUnseen(j: Journal, session: string) {
    forall f :: f in j.keys && f.source == QuerySource ==> !(session + ":" <= f.eventId)
  }

  lemma UnseenSessionNeverRepeats(j: Journal, session: string, reason: string, k: OrderKey, seen: Option<DriverOrder>)
    requires SessionUnseen(j, session)
    ensures !Repeats(j.keys, session, reason, k, seen)
  {
    assert session + ":" <= QueryEventId(session, reason, k);
  }

  /** Keys are added only under the event id this session uses for `k`. */
  ghost predicate KeysAddedFor(was: map<Fingerprint, KeyRow>, now: map<Fingerprint, KeyRow>, session: string,
                               reason: string, k: OrderKey) {
    forall f :: f in now && f !in was ==>
      f.source == QuerySource && f.account == k.account && f.eventId == QueryEventId(session, reason, k)
  }

  /** Evidence stored for one order makes no other order's answer a repeat. */
  lemma OtherAnswersUnaffected(was: map<Fingerprint, KeyRow>, now: map<Fingerprint, KeyRow>, session: string,
                               reason: string, k: OrderKey, q: OrderKey, seen: Option<DriverOrder>)
    requires KeysAddedFor(was, now, session, reason, k) && was.Keys <= now.Keys && q != k
    ensures Repeats(was, session, reason, q, seen) <==> Repeats(now, session, reason, q, seen)
  {
    if q.account == k.account && QueryEventId(session, reason, k) == QueryEventId(session, reason, q) {
      QueryIdsDiffer(session, reason, k, q);
    }
  }

  // ------------------------------------------------------------- what one query resolves

  /** A fact merged into a reconciling row decides it; manual review stays decided. */
  lemma MergeDecides(o: Order, e: Evidence)
    requires Coupled(o) && ValidEvidence(e) && o.status in {Reconciling, ManualReview}
    ensures match MergeFact(o, e.requested, e.brokerOrderId, e.filled)
            case Ok((p, _)) => !IsAmbiguous(p.status) && p.cancelStarted == o.cancelStarted
              && p.cancelResolved == o.cancelResolved
            case Err(_) => true
  {
  }

  predicate SameCancelFlags(o: Order, p: Order) {
    p.cancelStarted == o.cancelStarted && p.cancelResolved == o.cancelResolved
  }

  /** The row an ingest leaves, and the answer it gives. */
  predicate DecidesRow(was: map<OrderKey, Order>, now: map<OrderKey, Order>, k: OrderKey, answer: Answer) {
    && k in was && k in now
    && now == was[k := now[k]]
    && SameCancelFlags(was[k], now[k])
    && (answer.Ingested? ==> !IsAmbiguous(now[k].status))
  }

  /** Nothing reported moves a reviewed order, and everything moves a reconciling one. */
  lemma SuppressedMeansReviewed(s: Status, e: Evidence)
    requires ValidEvidence(e) && s in {Reconciling, ManualReview} && !MovesStatus(s, e.requested)
    ensures s == ManualReview && !IsAmbiguous(s)
  {
  }

  lemma MergedDecides(j: Journal, e: Evidence)
    requires ValidEvidence(e) && KeyOf(e) in j.orders && Coupled(j.orders[KeyOf(e)])
    requires j.orders[KeyOf(e)].status in {Reconciling, ManualReview}
    ensures DecidesRow(j.orders, IngestMerged(j, e).0.orders, KeyOf(e), IngestMerged(j, e).1)
    ensures IngestMerged(j, e).1.Ingested? ==>
              IngestMerged(j, e).1.status == IngestMerged(j, e).0.orders[KeyOf(e)].status
    ensures IngestMerged(j, e).0.keys.Keys <= j.keys.Keys + {FingerprintOf(e)}
  {
    var k := KeyOf(e);
    MergeDecides(j.orders[k], e);
    assert j.orders == j.orders[k := j.orders[k]];
    hide MergeFact, Coupled, ValidEvidence, FingerprintOf, IsAmbiguous;
  }

  /** What ingesting one query answer with a free event id does to the order. */
  lemma FreshIngestResolves(j: Journal, e: Evidence)
    requires OrdersCoupled(j) && ValidEvidence(e) && KeyOf(e) in j.orders
    requires j.orders[KeyOf(e)].status in {Reconciling, ManualReview}
    requires forall f :: f in j.keys ==> !SameIdentity(f, FingerprintOf(e))
    ensures DecidesRow(j.orders, Ingest(j, e).0.orders, KeyOf(e), Ingest(j, e).1)
  {
    hide OrdersCoupled, ValidEvidence, IngestMerged, FingerprintOf, EventIdTaken, Coupled, Suppressed;
    hide MovesStatus, IsAmbiguous;
    RowIsCoupled(j, KeyOf(e));
    MergedDecides(j, e);
    IdentityIsReflexive(FingerprintOf(e));
    NothingTaken(j, e);
    assert j.orders == j.orders[KeyOf(e) := j.orders[KeyOf(e)]];
    if Suppressed(j, e) {
      SuppressedStays(j, e);
      SuppressedMeansReviewed(j.orders[KeyOf(e)].status, e);
    }
  }

  /** The row a reported fact leaves, when nothing contradicts it. */
  function FactRow(o: Order, target: Status, brokerId: Option<string>, fill: int): Order {
    match MergeFact(o, target, brokerId, fill)
    case Ok((p, _)) => p
    case Err(_) => o
  }

  /** An answer that is taken in leaves exactly the merged row, even if it was suppressed as a duplicate. */
  lemma FreshIngestRow(j: Journal, e: Evidence)
    requires Sound(j) && ValidEvidence(e) && KeyOf(e) in j.orders
    requires j.orders[KeyOf(e)].status in {Reconciling, ManualReview}
    requires forall f :: f in j.keys ==> !SameIdentity(f, FingerprintOf(e))
    ensures Ingest(j, e).1.Ingested? ==>
              && KeyOf(e) in Ingest(j, e).0.orders
              && Ingest(j, e).0.orders[KeyOf(e)] == FactRow(j.orders[KeyOf(e)], e.requested, e.brokerOrderId, e.filled)
  {
    hide Sound, ValidEvidence, EventIdTaken, FingerprintOf, Suppressed, MovesStatus, Holds, Coupled;
    hide MergeFact, OrdersCoupled, KeysObserved, ObservationsReflected;
    IdentityIsReflexive(FingerprintOf(e));
    NothingTaken(j, e);
    SoundParts(j);
    RowIsCoupled(j, KeyOf(e));
    if Suppressed(j, e) {
      SuppressedFactHolds(j, e);
      SuppressedStays(j, e);
      SuppressedMerge(j.orders[KeyOf(e)], e);
    }
  }

  lemma SuppressedStays(j: Journal, e: Evidence)
    requires KeyOf(e) in j.orders && Suppressed(j, e)
    ensures !MovesStatus(j.orders[KeyOf(e)].status, e.requested)
  {
  }

  lemma RowIsCoupled(j: Journal, k: OrderKey)
    requires OrdersCoupled(j) && k in j.orders
    ensures Coupled(j.orders[k])
  {
  }

  lemma NothingTaken(j: Journal, e: Evidence)
    requires forall f :: f in j.keys ==> !SameIdentity(f, FingerprintOf(e))
    ensures !EventIdTaken(j, e)
  {
  }

  lemma SoundParts(j: Journal)
    requires Sound(j)
    ensures OrdersCoupled(j) && KeysObserved(j) && ObservationsReflected(j)
  {
  }

  /** The answer's status is the row's, and the row is not put back to CANCEL_PENDING. */
  predicate AnswersRow(j: Journal, n: Journal, e: Evidence, answer: Answer) {
    && n.orders.Keys == j.orders.Keys
    && n.keys.Keys <= j.keys.Keys + {FingerprintOf(e)}
    && (answer.Ingested? ==> KeyOf(e) in n.orders && answer.status == n.orders[KeyOf(e)].status != CancelPending)
  }

  lemma ReusedAnswersRow(j: Journal, e: Evidence, f: Fingerprint)
    requires KeysObserved(j) && ObservationsReflected(j) && KeyOf(e) in j.orders && f in j.keys
    ensures AnswersRow(j, IngestReused(j, e, f).0, e, IngestReused(j, e, f).1)
  {
    StoredKeyHasOrder(j, f);
    hide KeysObserved, ObservationsReflected, FirstOrder, FingerprintOf;
  }

  lemma IngestAnswersRow(j: Journal, e: Evidence)
    requires OrdersCoupled(j) && KeysObserved(j) && ObservationsReflected(j)
    requires ValidEvidence(e) && KeyOf(e) in j.orders
    requires j.orders[KeyOf(e)].status in {Reconciling, ManualReview}
    ensures AnswersRow(j, Ingest(j, e).0, e, Ingest(j, e).1)
  {
    hide KeysObserved, ObservationsReflected, ValidEvidence, Coupled, Suppressed, FingerprintOf, KeyOf, Clashes;
    assert Coupled(j.orders[KeyOf(e)]);
    MergedDecides(j, e);
    hide IngestMerged, IngestReused;
    if EventIdTaken(j, e) {
      var f :| f in j.keys && Clashes(f, e) && Ingest(j, e) == IngestReused(j, e, f);
      ReusedAnswersRow(j, e, f);
    }
  }

  /** Whatever is stored, ingesting an answer undoes no reservation. */
  lemma IngestKeepsReservations(j: Journal, e: Evidence)
    requires Sound(j) && ValidEvidence(e)
    ensures KeepsReservations(j.orders, Ingest(j, e).0.orders)
  {
    IngestKeepsSound(j, e);
    hide Sound, Ingest, ValidEvidence, OrdersCoupled, KeysGrow;
  }

  lemma StoredFactIsNotReconciling(j: Journal, e: Evidence)
    requires Sound(j) && KeyOf(e) in j.orders && j.orders[KeyOf(e)].status != ManualReview && FingerprintOf(e) in j.keys
    ensures !EventIdTaken(j, e) && Ingest(j, e) == IngestReplay(j, e) && j.keys[FingerprintOf(e)].accepted
  {
    hide OrdersCoupled, ObservationsReflected, KeyObserved, FillsWitnessed, StatusesWitnessed, ReuseReviewed;
    assert OrderOf(FingerprintOf(e)) == KeyOf(e);
    assert forall f :: SameIdentity(f, FingerprintOf(e)) ==> f in j.keys ==> f == FingerprintOf(e);
  }

  /** Every reused event id ends with the reporting order in review. */
  lemma ReuseReviews(j: Journal, e: Evidence)
    requires Sound(j) && KeyOf(e) in j.orders && EventIdTaken(j, e)
    ensures KeyOf(e) in Ingest(j, e).0.orders && Ingest(j, e).0.orders[KeyOf(e)].status == ManualReview
    ensures !Ingest(j, e).1.Ingested?
  {
    hide OrdersCoupled, ObservationsReflected, KeysObserved, EventIdsUnique, ReuseReviewed, FillsWitnessed;
    hide StatusesWitnessed;
    hide FirstOrder, FingerprintOf, IngestReused, Clashes;
    var f :| f in j.keys && Clashes(f, e) && Ingest(j, e) == IngestReused(j, e, f);
    StoredKeyHasOrder(j, f);
    ReusedRows(j, e, f);
  }

  lemma NewFactSettles(j: Journal, e: Evidence)
    requires ValidEvidence(e) && KeyOf(e) in j.orders && Coupled(j.orders[KeyOf(e)])
    requires j.orders[KeyOf(e)].status == Reconciling
    ensures KeyOf(e) in IngestMerged(j, e).0.orders && !IsAmbiguous(IngestMerged(j, e).0.orders[KeyOf(e)].status)
  {
    hide ValidEvidence, FingerprintOf;
    ReconcilingMerge(j.orders[KeyOf(e)], e);
  }

  lemma ReconcilingMerge(o: Order, e: Evidence)
    requires Coupled(o) && ValidEvidence(e) && o.status == Reconciling
    ensures match MergeFact(o, e.requested, e.brokerOrderId, e.filled)
            case Ok((p, _)) => !IsAmbiguous(p.status)
            case Err(err) => err != LifecycleConflict
  {
  }

  /**
   * Whatever answer ingestion gives: a reconciling order is still ambiguous
   * afterwards exactly when the very same evidence was already stored. The
   * event id names only session, reason and order, so a session that recovers
   * twice can send the same evidence twice.
   */
  lemma QueryDecidesExactlyWhenNew(j: Journal, e: Evidence)
    requires Sound(j) && ValidEvidence(e) && KeyOf(e) in j.orders
    requires j.orders[KeyOf(e)].status == Reconciling
    ensures KeyOf(e) in Ingest(j, e).0.orders
    ensures IsAmbiguous(Ingest(j, e).0.orders[KeyOf(e)].status) <==> FingerprintOf(e) in j.keys
  {
    hide Sound, ValidEvidence, FingerprintOf, Coupled, EventIdTaken, MovesStatus, IngestMerged;
    SoundParts(j);
    RowIsCoupled(j, KeyOf(e));
    if EventIdTaken(j, e) {
      ReuseReviews(j, e);
      if FingerprintOf(e) in j.keys {
        StoredFactIsNotReconciling(j, e);
      }
    } else if FingerprintOf(e) in j.keys {
      StoredFactIsNotReconciling(j, e);
    } else {
      NewFactSettles(j, e);
      if Suppressed(j, e) {
        SuppressedStays(j, e);
        EvidenceMovesReconciling(e);
      }
    }
  }

  lemma EvidenceMovesReconciling(e: Evidence)
    requires ValidEvidence(e)
    ensures MovesStatus(Reconciling, e.requested)
  {
  }

  /** An answer that is taken in: a repeat leaves the row, anything else merges it. */
  lemma IngestedRow(j: Journal, e: Evidence)
    requires Sound(j) && ValidEvidence(e) && KeyOf(e) in j.orders
    requires j.orders[KeyOf(e)].status in {Reconciling, ManualReview}
    requires Ingest(j, e).1.Ingested?
    ensures var k, n := KeyOf(e), Ingest(j, e).0;
            && k in n.orders && SameCancelFlags(j.orders[k], n.orders[k])
            && n.orders == j.orders[k := if FingerprintOf(e) in j.keys then j.orders[k]
                                         else FactRow(j.orders[k], e.requested, e.brokerOrderId, e.filled)]
            && (FingerprintOf(e) !in j.keys ==> !IsAmbiguous(n.orders[k].status))
  {
    hide Sound, ValidEvidence, FingerprintOf, Coupled, EventIdTaken, IngestMerged, FactRow;
    assert j.orders == j.orders[KeyOf(e) := j.orders[KeyOf(e)]];
    if EventIdTaken(j, e) {
      ReuseReviews(j, e);
    } else if FingerprintOf(e) !in j.keys {
      NoIdentityStored(j, e);
      SoundParts(j);
      FreshIngestResolves(j, e);
      FreshIngestRow(j, e);
    }
  }

  lemma NoIdentityStored(j: Journal, e: Evidence)
    requires !EventIdTaken(j, e) && FingerprintOf(e) !in j.keys
    ensures forall f :: f in j.keys ==> !SameIdentity(f, FingerprintOf(e))
  {
  }

  // -------------------------------------------------------------------------- session

  datatype SessionError =
    | StoreRefused(why: OmsError)
    | LeaseLost(lease: LeaseError)
    | FlagViolation
    | NotBrokerStatus
    | BadObservation
    | EvidenceConflict(reason: ConflictReason)
    | EvidenceRolledBack
    | NotReconciled
    | ProcessCrashed

  datatype Row = Row(k: OrderKey, o: Order)

  const StartupReason := "startup-recovery"

  /**
   * At most one submit and one cancel call per order, each made only after its
   * reservation flag is stored.
   */
  ghost predicate AtMostOnce(orders: map<OrderKey, Order>, submits: map<OrderKey, nat>, cancels: map<OrderKey, nat>) {
    && (forall k :: k in submits && submits[k] > 0 ==> submits[k] == 1 && k in orders && orders[k].submitStarted)
    && (forall k :: k in cancels && cancels[k] > 0 ==> cancels[k] == 1 && k in orders && orders[k].cancelStarted)
  }

  /** Reservations are never undone. */
  ghost predicate KeepsReservations(was: map<OrderKey, Order>, now: map<OrderKey, Order>) {
    forall k :: k in was ==> && k in now
                             && (was[k].submitStarted ==> now[k].submitStarted)
                             && (was[k].cancelStarted ==> now[k].cancelStarted)
  }

  lemma AtMostOnceKept(was: map<OrderKey, Order>, now: map<OrderKey, Order>, submits: map<OrderKey, nat>,
                       cancels: map<OrderKey, nat>)
    requires AtMostOnce(was, submits, cancels) && KeepsReservations(was, now)
    ensures AtMostOnce(now, submits, cancels)
  {
  }

  /** One reserved row: nothing was called before, and one call may follow. */
  lemma FirstCall(was: map<OrderKey, Order>, now: map<OrderKey, Order>, submits: map<OrderKey, nat>,
                  cancels: map<OrderKey, nat>, k: OrderKey)
    requires AtMostOnce(was, submits, cancels) && k in was && k in now && now == was[k := now[k]]
    requires (was[k].submitStarted ==> now[k].submitStarted) && (was[k].cancelStarted ==> now[k].cancelStarted)
    ensures AtMostOnce(now, submits, cancels)
    ensures !was[k].submitStarted ==> k !in submits || submits[k] == 0
    ensures !was[k].submitStarted && now[k].submitStarted ==> AtMostOnce(now, submits[k := 1], cancels)
    ensures !was[k].cancelStarted ==> k !in cancels || cancels[k] == 0
    ensures !was[k].cancelStarted && now[k].cancelStarted ==> AtMostOnce(now, submits, cancels[k := 1])
  {
  }

  lemma StatusMoveKeeps(was: map<OrderKey, Order>, k: OrderKey, s: Status)
    requires k in was
    ensures KeepsReservations(was, was[k := was[k].(status := s)]) && KeepsReservations(was, was)
  {
  }

  lemma StatusMoveOnce(was: map<OrderKey, Order>, k: OrderKey, s: Status, submits: map<OrderKey, nat>,
                       cancels: map<OrderKey, nat>)
    requires k in was && AtMostOnce(was, submits, cancels)
    ensures AtMostOnce(was[k := was[k].(status := s)], submits, cancels)
  {
  }

  lemma KeepsTransitive(a: map<OrderKey, Order>, b: map<OrderKey, Order>, c: map<OrderKey, Order>)
    requires KeepsReservations(a, b) && KeepsReservations(b, c)
    ensures KeepsReservations(a, c)
  {
  }

  lemma ReservationKept(was: map<OrderKey, Order>, now: map<OrderKey, Order>, k: OrderKey)
    requires KeepsReservations(was, now) && k in was
    ensures k in now && (was[k].submitStarted ==> now[k].submitStarted)
            && (was[k].cancelStarted ==> now[k].cancelStarted)
  {
  }

  lemma WriteIsStep(j: Journal, k: OrderKey, step: RowStep)
    requires k in j.orders && IsCommandStep(step) && StepGuard(j.orders[k], step) && ApplyStep(j.orders[k], step).Ok?
    ensures Advance(j, Write(k, step)) == PutOrder(j, k, ApplyStep(j.orders[k], step).value)
  {
  }

  /** Everything one query answer may change, and what it settles. */
  ghost predicate QueryEffect(j: Journal, n: Journal, session: string, reason: string, k: OrderKey, seen: DriverOrder,
                              answer: Answer) {
    && k in j.orders && k in n.orders && n.orders.Keys == j.orders.Keys
    && KeepsReservations(j.orders, n.orders)
    && KeysAddedFor(j.keys, n.keys, session, reason, k) && j.keys.Keys <= n.keys.Keys
    && (answer.Ingested? ==>
          && n.orders[k].status != CancelPending
          && SameCancelFlags(j.orders[k], n.orders[k])
          && n.orders == j.orders[k := if Repeats(j.keys, session, reason, k, Some(seen)) then j.orders[k]
                                       else FactRow(j.orders[k], seen.status, seen.brokerOrderId, seen.filled)]
          && (!Repeats(j.keys, session, reason, k, Some(seen)) ==> !IsAmbiguous(n.orders[k].status)))
  }

  lemma QueryIngest(j: Journal, session: string, reason: string, k: OrderKey, seen: DriverOrder, kind: EvidenceType,
                    now: int)
    requires Sound(j) && k in j.orders && j.orders[k].status in {Reconciling, ManualReview}
    requires var e := QueryEvidence(session, reason, k, seen, kind, now); ValidEvidence(e)
    requires KindOf(seen.status) == Some(kind)
    ensures var (n, answer) := Ingest(j, QueryEvidence(session, reason, k, seen, kind, now));
            Sound(n) && QueryEffect(j, n, session, reason, k, seen, answer)
  {
    hide Sound, Ingest, ValidEvidence, KeepsReservations, KeysObserved, ObservationsReflected, OrdersCoupled;
    hide FingerprintOf, FactRow, IsAmbiguous;
    SoundParts(j);
    var e := QueryEvidence(session, reason, k, seen, kind, now);
    IngestKeepsSound(j, e);
    IngestKeepsReservations(j, e);
    IngestAnswersRow(j, e);
    FingerprintIsTimeless(session, reason, k, seen, kind, now);
    assert forall f :: SameIdentity(f, FingerprintOf(e)) ==>
                         f.source == QuerySource && f.account == k.account
                           && f.eventId == QueryEventId(session, reason, k) by {
      FingerprintIdentity(e);
    }
    if Ingest(j, e).1.Ingested? {
      IngestedRow(j, e);
    }
  }

  lemma FingerprintIsTimeless(session: string, reason: string, k: OrderKey, seen: DriverOrder, kind: EvidenceType,
                              now: int)
    requires KindOf(seen.status) == Some(kind)
    ensures FingerprintOf(QueryEvidence(session, reason, k, seen, kind, now))
              == QueryFingerprint(session, reason, k, seen)
  {
  }

  lemma FingerprintIdentity(e: Evidence)
    ensures var f := FingerprintOf(e); f.source == e.source && f.account == e.account && f.eventId == e.eventId
  {
  }

  // ------------------------------------------------------- an answer in the broker's terms

  /** An answer that can be said as evidence at all. */
  predicate Expressible(k: OrderKey, seen: DriverOrder) {
    && k.clientOrderId != "" && seen.brokerOrderId != Some("") && 0 <= seen.filled
    && match seen.status
       case Acknowledged => seen.brokerOrderId.Some? && seen.filled == 0
       case PartiallyFilled | Filled => seen.brokerOrderId.Some? && 0 < seen.filled
       case Cancelled => seen.brokerOrderId.Some?
       case Rejected => seen.filled == 0
       case _ => false
  }

  /** An answer that contradicts nothing the row knows: its broker id, its quantity, its largest fill. */
  predicate FitsRow(o: Order, seen: DriverOrder) {
    && (o.brokerId.Some? && seen.brokerOrderId.Some? ==> o.brokerId == seen.brokerOrderId)
    && seen.filled <= o.quantity
    && (seen.status == Filled ==> Max(o.filled, seen.filled) == o.quantity)
    && (seen.status == Cancelled ==> Max(o.filled, seen.filled) < o.quantity)
    && (seen.status == Rejected ==> o.filled == 0)
  }

  /** The event id of this answer is free, or stored for exactly this answer. */
  ghost predicate NoClash(keys: map<Fingerprint, KeyRow>, session: string, reason: string, k: OrderKey,
                          seen: DriverOrder)
    requires KindOf(seen.status).Some?
  {
    forall f :: f in keys && f.source == QuerySource && f.account == k.account
                && f.eventId == QueryEventId(session, reason, k) ==>
      f == QueryFingerprint(session, reason, k, seen)
  }

  /** What it takes for an answer about a waiting order to be taken in. */
  ghost predicate Takeable(keys: map<Fingerprint, KeyRow>, o: Order, session: string, reason: string, k: OrderKey,
                           seen: DriverOrder) {
    && Expressible(k, seen)
    && NoClash(keys, session, reason, k, seen)
    && (Repeats(keys, session, reason, k, Some(seen)) || FitsRow(o, seen))
  }

  /**
   * What a waiting row must show once the broker's answer is in it: the larger
   * fill, the broker's id, and the broker's status, where a fill of the whole
   * quantity is FILLED and any other fill under a working order PARTIALLY_FILLED.
   */
  predicate ShowsAnswer(o: Order, p: Order, seen: DriverOrder) {
    && p.quantity == o.quantity && p.filled == Max(o.filled, seen.filled)
    && p.brokerId == (if o.brokerId.Some? then o.brokerId else seen.brokerOrderId)
    && (seen.brokerOrderId.Some? ==> p.brokerId == seen.brokerOrderId)
    && p.submitStarted == o.submitStarted && SameCancelFlags(o, p)
    && match seen.status
       case Filled => p.status == Filled && p.filled == p.quantity
       case Cancelled => p.status == Cancelled && p.filled < p.quantity
       case Rejected => p.status == Rejected && p.filled == 0
       case Acknowledged =>
         p.status == if p.filled == p.quantity then Filled else if p.filled == 0 then Acknowledged else PartiallyFilled
       case PartiallyFilled =>
         0 < p.filled && p.status == if p.filled == p.quantity then Filled else PartiallyFilled
       case _ => false
  }

  /** The row after an answer was taken in; one this session sent before changes nothing. */
  predicate TookAnswer(o: Order, p: Order, seen: DriverOrder, repeated: bool) {
    if repeated then p == o else ShowsAnswer(o, p, seen)
  }

  lemma QueryNow(session: string, reason: string, k: OrderKey, seen: DriverOrder, kind: EvidenceType, now: int)
    ensures QueryEvidence(session, reason, k, seen, kind, now).observedAt == now
  {
  }

  lemma ValidMeansPositive(e: Evidence)
    ensures ValidEvidence(e) ==> 0 < e.observedAt
  {
  }

  lemma ExpressibleIsReportable(k: OrderKey, seen: DriverOrder)
    requires Expressible(k, seen)
    ensures KindOf(seen.status).Some?
  {
  }

  lemma ExpressibleIsValid(session: string, reason: string, k: OrderKey, seen: DriverOrder, now: int)
    requires 0 < now
    ensures Expressible(k, seen) <==>
            KindOf(seen.status).Some?
            && ValidEvidence(QueryEvidence(session, reason, k, seen, KindOf(seen.status).value, now))
  {
    assert QueryEventId(session, reason, k)[|session|] == ':';
  }

  lemma WaitingShowsAnswer(o: Order, seen: DriverOrder)
    requires o.status == Reconciling && Coupled(o) && KindOf(seen.status).Some?
    requires !IsAmbiguous(FactRow(o, seen.status, seen.brokerOrderId, seen.filled).status)
    ensures ShowsAnswer(o, FactRow(o, seen.status, seen.brokerOrderId, seen.filled), seen)
  {
  }

  lemma FitsExactlyWhenMerged(o: Order, k: OrderKey, seen: DriverOrder)
    requires o.status in {Reconciling, ManualReview} && Coupled(o) && Expressible(k, seen)
    ensures FitsRow(o, seen) <==> MergeFact(o, seen.status, seen.brokerOrderId, seen.filled).Ok?
  {
  }

  /** An answer about a waiting order is taken in exactly when it is takeable; otherwise it goes to review. */
  lemma TakenExactlyWhenTakeable(j: Journal, session: string, reason: string, k: OrderKey, seen: DriverOrder, now: int)
    requires Sound(j) && k in j.orders && j.orders[k].status == Reconciling && Expressible(k, seen) && 0 < now
    ensures Ingest(j, QueryEvidence(session, reason, k, seen, KindOf(seen.status).value, now)).1.Ingested?
            <==> Takeable(j.keys, j.orders[k], session, reason, k, seen)
  {
    hide Sound, ValidEvidence, FingerprintOf, EventIdTaken, MergeFact, Suppressed, Expressible, FitsRow, NoClash;
    hide Coupled, MovesStatus, IngestReused;
    ExpressibleIsReportable(k, seen);
    var e := QueryEvidence(session, reason, k, seen, KindOf(seen.status).value, now);
    ExpressibleIsValid(session, reason, k, seen, now);
    FingerprintIsTimeless(session, reason, k, seen, KindOf(seen.status).value, now);
    SoundParts(j);
    RowIsCoupled(j, k);
    FitsExactlyWhenMerged(j.orders[k], k, seen);
    ClashMeansTaken(j, session, reason, k, seen, now);
    if EventIdTaken(j, e) {
      ReuseReviews(j, e);
    } else if FingerprintOf(e) in j.keys {
      StoredFactIsNotReconciling(j, e);
    } else if Suppressed(j, e) {
      SuppressedStays(j, e);
      EvidenceMovesReconciling(e);
    }
  }

  /** A first answer that fits is taken in, for an order in review as well. */
  lemma FreshIsTaken(j: Journal, session: string, reason: string, k: OrderKey, seen: DriverOrder, now: int)
    requires Sound(j) && k in j.orders && j.orders[k].status in {Reconciling, ManualReview} && 0 < now
    requires Takeable(j.keys, j.orders[k], session, reason, k, seen)
             && !Repeats(j.keys, session, reason, k, Some(seen))
    ensures KindOf(seen.status).Some?
            && Ingest(j, QueryEvidence(session, reason, k, seen, KindOf(seen.status).value, now)).1.Ingested?
  {
    hide Sound, ValidEvidence, FingerprintOf, EventIdTaken, MergeFact, Suppressed, Expressible, FitsRow, NoClash;
    hide Coupled, MovesStatus, IngestReused;
    ExpressibleIsReportable(k, seen);
    ExpressibleIsValid(session, reason, k, seen, now);
    FingerprintIsTimeless(session, reason, k, seen, KindOf(seen.status).value, now);
    SoundParts(j);
    RowIsCoupled(j, k);
    FitsExactlyWhenMerged(j.orders[k], k, seen);
    ClashMeansTaken(j, session, reason, k, seen, now);
  }

  /** The answers recovery can fail on: not to be said, clashing, not fitting, or sent before. */
  ghost predicate Unwelcome(keys: map<Fingerprint, KeyRow>, o: Order, session: string, k: OrderKey, seen: DriverOrder) {
    !Takeable(keys, o, session, StartupReason, k, seen) || Repeats(keys, session, StartupReason, k, Some(seen))
  }

  /** An answer that cannot be said as evidence is not takeable. */
  lemma UnsaidIsNotTakeable(keys: map<Fingerprint, KeyRow>, o: Order, session: string, reason: string, k: OrderKey,
                            seen: DriverOrder, now: int)
    requires KindOf(seen.status).None?
             || (0 < now
                 && !ValidEvidence(QueryEvidence(session, reason, k, seen, KindOf(seen.status).value, now)))
    ensures !Takeable(keys, o, session, reason, k, seen)
  {
    hide NoClash, FitsRow;
    if Expressible(k, seen) {
      ExpressibleIsReportable(k, seen);
      ExpressibleIsValid(session, reason, k, seen, now);
    }
  }

  /** What one answer about a waiting order does to its row, and when. */
  lemma WaitingTakesAnswer(j: Journal, session: string, reason: string, k: OrderKey, seen: DriverOrder,
                           kind: EvidenceType, now: int)
    requires Sound(j) && k in j.orders && j.orders[k].status == Reconciling && KindOf(seen.status) == Some(kind)
    requires ValidEvidence(QueryEvidence(session, reason, k, seen, kind, now)) && 0 < now
    ensures var (n, answer) := Ingest(j, QueryEvidence(session, reason, k, seen, kind, now));
            && (answer.Ingested? <==> Takeable(j.keys, j.orders[k], session, reason, k, seen))
            && (answer.Ingested? ==>
                  k in n.orders
                    && TookAnswer(j.orders[k], n.orders[k], seen, Repeats(j.keys, session, reason, k, Some(seen))))
  {
    hide Sound, Ingest, ValidEvidence, FactRow, Repeats, Takeable, Expressible, ShowsAnswer, Coupled, OrdersCoupled;
    hide IsAmbiguous, KeepsReservations, KeysAddedFor, QueryEvidence;
    ExpressibleIsValid(session, reason, k, seen, now);
    TakenExactlyWhenTakeable(j, session, reason, k, seen, now);
    QueryIngest(j, session, reason, k, seen, kind, now);
    SoundParts(j);
    RowIsCoupled(j, k);
    if Ingest(j, QueryEvidence(session, reason, k, seen, kind, now)).1.Ingested? {
      if !Repeats(j.keys, session, reason, k, Some(seen)) {
        WaitingShowsAnswer(j.orders[k], seen);
      }
    }
  }

  lemma ClashMeansTaken(j: Journal, session: string, reason: string, k: OrderKey, seen: DriverOrder, now: int)
    requires Expressible(k, seen)
    ensures NoClash(j.keys, session, reason, k, seen)
            <==> !EventIdTaken(j, QueryEvidence(session, reason, k, seen, KindOf(seen.status).value, now))
  {
    hide Expressible;
    ExpressibleIsReportable(k, seen);
    var e := QueryEvidence(session, reason, k, seen, KindOf(seen.status).value, now);
    FingerprintIdentity(e);
    FingerprintIsTimeless(session, reason, k, seen, KindOf(seen.status).value, now);
    hide FingerprintOf, QueryFingerprint;
    assert forall f :: Clashes(f, e) <==>
                 f.source == QuerySource && f.account == k.account && f.eventId == QueryEventId(session, reason, k)
                 && f != QueryFingerprint(session, reason, k, seen);
  }

  /** No stored evidence speaks about an order that does not exist yet. */
  lemma NewOrderNeverRepeats(j: Journal, session: string, reason: string, k: OrderKey, seen: Option<DriverOrder>)
    requires Sound(j) && k !in j.orders
    ensures !Repeats(j.keys, session, reason, k, seen)
  {
    SoundParts(j);
    hide Sound, OrdersCoupled, KeysObserved, ObservationsReflected;
    if Repeats(j.keys, session, reason, k, seen) {
      StoredKeyHasOrder(j, QueryFingerprint(session, reason, k, seen.value));
    }
  }

  predicate NeedsRecovery(o: Order) { IsAmbiguous(o.status) || CancelUnresolved(o) }

  /** What recovery settles without asking the broker. */
  predicate SettlesLocally(o: Order) {
    o.status in {Created, RiskAccepted} || (CancelUnresolved(o) && IsBrokerTerminal(o.status))
  }

  /** The row once it waits for the broker's answer. */
  function Asking(o: Order): Order { o.(status := if o.status == ManualReview then ManualReview else Reconciling) }

  /**
   * What recovery makes of a row, given what the broker answered and whether the
   * session had sent that answer before.
   */
  function RecoveredRow(o: Order, seen: Option<DriverOrder>, repeated: bool): Order {
    if o.status in {Created, RiskAccepted} then o.(status := Aborted)
    else if SettlesLocally(o) then o.(cancelResolved := true)
    else QueriedRow(Asking(o), seen, repeated)
  }

  /** The part of `RecoveredRow` that follows the query. */
  function QueriedRow(o: Order, seen: Option<DriverOrder>, repeated: bool): Order {
    var p := if seen.None? then o.(status := ManualReview)
             else if repeated then o
             else FactRow(o, seen.value.status, seen.value.brokerOrderId, seen.value.filled);
    if CancelUnresolved(o) then p.(cancelResolved := true) else p
  }

  /**
   * The one way a recovery that returns leaves an order ambiguous: it waits for the
   * broker, and the broker's answer is old news.
   */
  predicate StaysAmbiguous(o: Order, repeated: bool) {
    NeedsRecovery(o) && !SettlesLocally(o) && Asking(o).status == Reconciling && repeated
  }

  type Answers = map<OrderKey, Option<DriverOrder>>

  /** The broker's last answer about each order asked for. */
  function AnswersIn(log: seq<DriverAnswer>): Answers {
    if log == [] then map[]
    else
      var last := log[|log| - 1];
      AnswersIn(log[..|log| - 1])[last.k := last.seen]
  }

  function Told(answers: Answers, k: OrderKey): Option<DriverOrder> {
    if k in answers then answers[k] else None
  }

  predicate MustAsk(o: Order) { NeedsRecovery(o) && !SettlesLocally(o) }

  /** What recovery did to one row. */
  predicate Processed(o: Order, p: Order, seen: Option<DriverOrder>, repeated: bool) {
    p == RecoveredRow(o, seen, repeated) && (NeedsRecovery(p) <==> StaysAmbiguous(o, repeated))
  }

  /**
   * What a processed row reads: an order that never reached the broker is aborted; a broker
   * end only closes its cancel; any other order shows what the broker answered, goes to
   * review when the broker does not know it, and waits on when the answer is old news.
   */
  lemma RecoveredRowSays(o: Order, p: Order, seen: Option<DriverOrder>, repeated: bool)
    requires Coupled(o) && NeedsRecovery(o) && Processed(o, p, seen, repeated)
    requires seen.Some? ==> KindOf(seen.value.status).Some?
    ensures o.status in {Created, RiskAccepted} ==> p == o.(status := Aborted)
    ensures o.status in {Filled, Cancelled, Rejected} ==> p == o.(cancelResolved := true)
    ensures o.status !in {Created, RiskAccepted, Filled, Cancelled, Rejected} ==>
              var row := p.(cancelResolved := o.cancelResolved);
              && p.cancelResolved == (o.cancelResolved || o.cancelStarted)
              && if seen.None? then row == o.(status := ManualReview)
                 else if repeated then
                   row == o.(status := if o.status == ManualReview then ManualReview else Reconciling)
                 else if o.status != ManualReview then ShowsAnswer(o, row, seen.value)
                 else row.status == ManualReview && o.filled <= row.filled
  {
    hide ShowsAnswer, Coupled, FactRow;
    if MustAsk(o) && seen.Some? && !repeated {
      AskingIsCoupled(o);
      if o.status == ManualReview {
        ReviewStaysReviewed(o, seen.value);
      } else {
        WaitingShowsAnswer(Asking(o), seen.value);
        ShownAnyway(o, Asking(o), FactRow(Asking(o), seen.value.status, seen.value.brokerOrderId, seen.value.filled),
                    seen.value);
      }
    }
  }

  lemma AskingIsCoupled(o: Order)
    requires Coupled(o) && MustAsk(o)
    ensures Coupled(Asking(o))
  {
  }

  lemma ReviewStaysReviewed(o: Order, seen: DriverOrder)
    requires o.status == ManualReview && Coupled(o)
    ensures FactRow(o, seen.status, seen.brokerOrderId, seen.filled).status == ManualReview
    ensures o.filled <= FactRow(o, seen.status, seen.brokerOrderId, seen.filled).filled
    ensures var p := FactRow(o, seen.status, seen.brokerOrderId, seen.filled);
            p.cancelStarted == o.cancelStarted && p.cancelResolved == o.cancelResolved
  {
  }

  lemma ShownAnyway(o: Order, asking: Order, p: Order, seen: DriverOrder)
    requires asking == o.(status := asking.status) && ShowsAnswer(asking, p, seen)
    ensures ShowsAnswer(o, p.(cancelResolved := o.cancelResolved), seen)
    ensures p.cancelStarted == o.cancelStarted && p.cancelResolved == o.cancelResolved
    ensures p == p.(cancelResolved := o.cancelResolved)
  {
  }

  lemma SettledRow(o: Order, p: Order)
    requires NeedsRecovery(o) && SettlesLocally(o) && p == RecoveredRow(o, None, false) && !NeedsRecovery(p)
    ensures Processed(o, p, None, false) && !MustAsk(o)
  {
  }

  lemma AskedRow(o: Order, p: Order, seen: Option<DriverOrder>, repeated: bool)
    requires MustAsk(o) && p == QueriedRow(Asking(o), seen, repeated)
    requires NeedsRecovery(p) <==> Asking(o).status == Reconciling && repeated
    ensures Processed(o, p, seen, repeated)
  {
    hide QueriedRow, NeedsRecovery;
  }

  /** Rows already processed are as recovery makes them; the others are as they were. */
  ghost predicate RecoveredSoFar(was: Journal, now: map<OrderKey, Order>, session: string, answers: Answers,
                                 rows: seq<Row>, i: nat) {
    forall k :: k in was.orders ==>
      && k in now
      && if NeedsRecovery(was.orders[k]) && !Listed(rows, i, k)
         then && Processed(was.orders[k], now[k], Told(answers, k),
                           Repeats(was.keys, session, StartupReason, k, Told(answers, k)))
              && (MustAsk(was.orders[k]) ==> k in answers)
         else now[k] == was.orders[k]
  }

  lemma RecoveredOneMore(was: Journal, mid: map<OrderKey, Order>, now: map<OrderKey, Order>, session: string,
                         answers: Answers, more: Answers, rows: seq<Row>, i: nat)
    requires i < |rows| && DistinctKeys(rows) && RecoveredSoFar(was, mid, session, answers, rows, i)
    requires rows[i].k in was.orders && rows[i].o == was.orders[rows[i].k] && NeedsRecovery(rows[i].o)
    requires rows[i].k in now && now == mid[rows[i].k := now[rows[i].k]]
    requires more == if MustAsk(rows[i].o) then answers[rows[i].k := Told(more, rows[i].k)] else answers
    requires Processed(rows[i].o, now[rows[i].k], Told(more, rows[i].k),
                       Repeats(was.keys, session, StartupReason, rows[i].k, Told(more, rows[i].k)))
    ensures RecoveredSoFar(was, now, session, more, rows, i + 1)
  {
    hide NeedsRecovery, Processed, Repeats, MustAsk;
    forall k ensures Listed(rows, i, k) <==> Listed(rows, i + 1, k) || k == rows[i].k {
      if Listed(rows, i, k) && k != rows[i].k {
        var m :| i <= m < |rows| && rows[m].k == k;
      }
    }
    assert !Listed(rows, i + 1, rows[i].k);
    assert forall k :: k != rows[i].k ==> Told(more, k) == Told(answers, k);
  }

  lemma NothingRecoveredYet(was: Journal, session: string, answers: Answers, rows: seq<Row>)
    requires OnlyListedRemain(rows, 0, was.orders)
    ensures RecoveredSoFar(was, was.orders, session, answers, rows, 0)
  {
    hide NeedsRecovery, Processed, Repeats, MustAsk;
  }

  lemma OneMoreAnswer(log: seq<DriverAnswer>, answer: DriverAnswer)
    ensures AnswersIn(log + [answer]) == AnswersIn(log)[answer.k := answer.seen]
  {
    assert (log + [answer])[..|log|] == log;
  }

  /** A row that is settled without asking comes out the same whatever was heard. */
  lemma SettledUnasked(o: Order, p: Order, keys: map<Fingerprint, KeyRow>, session: string, k: OrderKey,
                       heard: Option<DriverOrder>)
    requires NeedsRecovery(o) && !MustAsk(o) && Processed(o, p, None, Repeats(keys, session, StartupReason, k, None))
    ensures Processed(o, p, heard, Repeats(keys, session, StartupReason, k, heard))
  {
    hide Repeats, QueriedRow;
  }

  /**
   * What a recovery that returns leaves of every row, and which rows it does
   * not drain; every row that must be asked for was.
   */
  ghost predicate Recovered(was: Journal, now: map<OrderKey, Order>, session: string, answers: Answers) {
    forall k :: k in was.orders ==>
      && k in now
      && (MustAsk(was.orders[k]) ==> k in answers)
      && var repeated := Repeats(was.keys, session, StartupReason, k, Told(answers, k));
         && now[k] == (if NeedsRecovery(was.orders[k]) then RecoveredRow(was.orders[k], Told(answers, k), repeated)
                       else was.orders[k])
         && (NeedsRecovery(now[k]) <==> StaysAmbiguous(was.orders[k], repeated))
  }

  lemma AllRecovered(was: Journal, now: map<OrderKey, Order>, session: string, answers: Answers, rows: seq<Row>)
    requires RecoveredSoFar(was, now, session, answers, rows, |rows|)
    ensures Recovered(was, now, session, answers)
  {
    hide NeedsRecovery, RecoveredRow, Repeats, SettlesLocally, Asking;
    assert forall k :: !Listed(rows, |rows|, k);
  }

  /** Fresh uuids: a session whose id starts no stored event id drains everything. */
  lemma UnseenSessionDrains(was: Journal, now: map<OrderKey, Order>, session: string, answers: Answers)
    requires Recovered(was, now, session, answers) && SessionUnseen(was, session) && now.Keys == was.orders.Keys
    ensures forall k :: k in now ==> !NeedsRecovery(now[k])
    ensures forall k :: k in now ==>
              && now[k].status !in {Created, RiskAccepted, Submitting, CancelPending, Unknown, Reconciling}
              && (now[k].cancelStarted ==> now[k].cancelResolved)
  {
    hide NeedsRecovery, RecoveredRow, Repeats, SettlesLocally, Asking, SessionUnseen;
    forall k | k in now ensures !NeedsRecovery(now[k]) {
      UnseenSessionNeverRepeats(was, session, StartupReason, k, Told(answers, k));
    }
    forall k | k in now
      ensures now[k].status !in {Created, RiskAccepted, Submitting, CancelPending, Unknown, Reconciling}
      ensures now[k].cancelStarted ==> now[k].cancelResolved
    {
      NeedsRecoveryExactlyWhen(now[k]);
    }
  }

  /** Every status between creation and the broker's word needs recovery, and so does an open cancel. */
  lemma NeedsRecoveryExactlyWhen(o: Order)
    ensures NeedsRecovery(o) <==>
            || o.status in {Created, RiskAccepted, Submitting, CancelPending, Unknown, Reconciling}
            || (o.cancelStarted && !o.cancelResolved)
  {
  }

  /** Rows from `i` on still read as they did when they were listed. */
  ghost predicate Untouched(rows: seq<Row>, i: nat, orders: map<OrderKey, Order>) {
    forall m :: i <= m < |rows| ==> rows[m].k in orders && orders[rows[m].k] == rows[m].o
  }

  ghost predicate Listed(rows: seq<Row>, i: nat, k: OrderKey) {
    exists m :: i <= m < |rows| && rows[m].k == k
  }

  ghost predicate DistinctKeys(rows: seq<Row>) {
    forall m, n :: 0 <= m < n < |rows| ==> rows[m].k != rows[n].k
  }

  /** Every order that still needs recovery is among the rows not yet processed. */
  ghost predicate OnlyListedRemain(rows: seq<Row>, i: nat, orders: map<OrderKey, Order>) {
    forall k :: k in orders && NeedsRecovery(orders[k]) ==> Listed(rows, i, k)
  }

  lemma OneRowDone(rows: seq<Row>, i: nat, was: map<OrderKey, Order>, now: map<OrderKey, Order>)
    requires i < |rows| && DistinctKeys(rows) && Untouched(rows, i, was)
    requires rows[i].k in now && now == was[rows[i].k := now[rows[i].k]]
    ensures Untouched(rows, i + 1, now)
  {
  }

  /** `transition_order` to `target` is this guarded step, and turns row `o` into `p`. */
  predicate Moves(o: Order, target: Status, resolved: Option<bool>, step: RowStep, p: Order) {
    && IsCommandStep(step) && StepGuard(o, step)
    && ApplyStep(o, step) == Committed(CommandTransition(o, target, resolved))
    && ApplyStep(o, step) == Ok(p)
  }

  lemma MovesForward(o: Order)
    ensures o.status in {Created, RiskAccepted} ==> Moves(o, Aborted, None, Abort, o.(status := Aborted))
    ensures o.status in {Submitting, CancelPending} ==> Moves(o, Unknown, None, ToUnknown, o.(status := Unknown))
    ensures o.status == Unknown ==> Moves(o, Reconciling, None, ToReconciling, o.(status := Reconciling))
    ensures CancelUnresolved(o) && o.status in {Acknowledged, PartiallyFilled} ==>
              Moves(o, CancelPending, None, RestoreCancelPending, o.(status := CancelPending))
  {
  }

  lemma MovesNowhere(o: Order)
    requires o.status != CancelPending
    ensures Moves(o, o.status, Some(true), SameStatus(Some(true)), o.(cancelResolved := true))
  {
  }

  lemma MovesToReview(o: Order, resolved: Option<bool>)
    requires o.status in {Reconciling, ManualReview}
    ensures Moves(o, ManualReview, resolved, NotFound(resolved), MarkManualReview(o, resolved))
  {
  }

  lemma MoveKeepsSound(j: Journal, k: OrderKey, target: Status, resolved: Option<bool>, step: RowStep, p: Order)
    requires Sound(j) && k in j.orders && Moves(j.orders[k], target, resolved, step, p)
    ensures Sound(PutOrder(j, k, p))
    ensures Refused(Committed(CommandTransition(j.orders[k], target, resolved))) == Ok(p)
  {
    hide Sound;
    WriteIsStep(j, k, step);
    AdvanceKeepsSound(j, Write(k, step));
  }

  /** The three flag checks of recovery can never fire on a reachable row. */
  lemma RecoveryFlagsHold(j: Journal, k: OrderKey)
    requires OrdersCoupled(j) && k in j.orders
    ensures var o := j.orders[k];
            && (o.status in {Created, RiskAccepted} ==> !o.submitStarted && !o.cancelStarted && o.brokerId.None?)
            && (o.status == Submitting ==> o.submitStarted && !o.cancelStarted)
            && (o.status == CancelPending ==> CancelUnresolved(o))
            && (CancelUnresolved(o) ==> !IsPreSubmit(o.status))
  {
    assert Coupled(j.orders[k]);
  }

  lemma ReserveKeepsSound(j: Journal, k: OrderKey, cancel: bool)
    requires Sound(j) && k in j.orders
    ensures var r := if cancel then OrderRows.PrepareCancel(j.orders[k]) else OrderRows.PrepareSubmit(j.orders[k]);
            r.Ok? ==> Sound(PutOrder(j, k, r.value))
  {
    hide Sound;
    var step := if cancel then ReserveCancel else ReserveSubmit;
    if ApplyStep(j.orders[k], step).Ok? {
      WriteIsStep(j, k, step);
      AdvanceKeepsSound(j, Write(k, step));
    }
  }

  lemma CreateKeepsSound(j: Journal, k: OrderKey, quantity: int)
    requires Sound(j) && k !in j.orders && 0 < quantity
    ensures Sound(PutOrder(j, k, NewOrder(quantity)))
  {
    hide Sound;
    AdvanceKeepsSound(j, Create(k, quantity));
  }

  lemma RiskMoves(o: Order, accepted: bool)
    requires o.status == Created
    ensures var target := if accepted then RiskAccepted else RiskRejected;
            Moves(o, target, None, Risk(accepted), o.(status := target))
  {
  }

  lemma OneRowAsked(row: Row, heard: seq<DriverAnswer>, asked: seq<DriverAnswer>) returns (more: seq<DriverAnswer>)
    requires |asked| == if MustAsk(row.o) then 1 else 0
    requires MustAsk(row.o) ==> asked[0].k == row.k
    ensures more == heard + asked
    ensures AnswersIn(more) == if MustAsk(row.o) then AnswersIn(heard)[row.k := asked[0].seen] else AnswersIn(heard)
  {
    hide MustAsk;
    more := heard + asked;
    if |asked| == 1 {
      OneMoreAnswer(heard, asked[0]);
      assert asked == [asked[0]];
    } else {
      assert more == heard;
    }
  }

  lemma SelfKept(orders: map<OrderKey, Order>, keys: map<Fingerprint, KeyRow>, session: string, k: OrderKey)
    ensures KeepsReservations(orders, orders) && KeysAddedFor(keys, keys, session, StartupReason, k)
  {
  }

  lemma SameFlagsKept(was: map<OrderKey, Order>, now: map<OrderKey, Order>, k: OrderKey)
    requires k in was && k in now && now == was[k := now[k]]
    requires now[k].submitStarted == was[k].submitStarted && now[k].cancelStarted == was[k].cancelStarted
    ensures KeepsReservations(was, now)
  {
  }

  lemma NotRepeated(keys: map<Fingerprint, KeyRow>, session: string, k: OrderKey)
    ensures !Repeats(keys, session, StartupReason, k, None)
  {
  }

  /** For the rows not yet processed, an answer is a repeat now exactly when it was at the start. */
  ghost predicate StillNews(was: map<Fingerprint, KeyRow>, now: map<Fingerprint, KeyRow>, session: string,
                            rows: seq<Row>, i: nat) {
    forall m, seen :: i <= m < |rows| ==>
      (Repeats(was, session, StartupReason, rows[m].k, seen) <==> Repeats(now, session, StartupReason, rows[m].k, seen))
  }

  lemma NextStillNews(was: map<Fingerprint, KeyRow>, mid: map<Fingerprint, KeyRow>, now: map<Fingerprint, KeyRow>,
                      session: string, rows: seq<Row>, i: nat)
    requires i < |rows| && DistinctKeys(rows) && StillNews(was, mid, session, rows, i)
    requires KeysAddedFor(mid, now, session, StartupReason, rows[i].k) && mid.Keys <= now.Keys
    ensures StillNews(was, now, session, rows, i + 1)
  {
    hide Repeats, KeysAddedFor;
    forall m, seen | i + 1 <= m < |rows|
      ensures Repeats(was, session, StartupReason, rows[m].k, seen)
              <==> Repeats(now, session, StartupReason, rows[m].k, seen)
    {
      OtherAnswersUnaffected(mid, now, session, StartupReason, rows[i].k, rows[m].k, seen);
    }
  }

  /** For the rows not yet processed, an answer is welcome now exactly when it was at the start. */
  ghost predicate StillWelcome(was: map<Fingerprint, KeyRow>, now: map<Fingerprint, KeyRow>, session: string,
                               rows: seq<Row>, i: nat) {
    forall m, o, seen :: i <= m < |rows| ==>
      (Unwelcome(was, o, session, rows[m].k, seen) <==> Unwelcome(now, o, session, rows[m].k, seen))
  }

  lemma NextStillWelcome(was: map<Fingerprint, KeyRow>, mid: map<Fingerprint, KeyRow>, now: map<Fingerprint, KeyRow>,
                         session: string, rows: seq<Row>, i: nat)
    requires i < |rows| && DistinctKeys(rows) && StillWelcome(was, mid, session, rows, i)
    requires KeysAddedFor(mid, now, session, StartupReason, rows[i].k) && mid.Keys <= now.Keys
    ensures StillWelcome(was, now, session, rows, i + 1)
  {
    hide Unwelcome, KeysAddedFor;
    forall m, o, seen | i + 1 <= m < |rows|
      ensures Unwelcome(was, o, session, rows[m].k, seen) <==> Unwelcome(now, o, session, rows[m].k, seen)
    {
      OthersStayWelcome(mid, now, session, rows[i].k, rows[m].k, o, seen);
    }
  }

  /** Evidence stored for one order makes no other order's answer more or less welcome. */
  lemma OthersStayWelcome(was: map<Fingerprint, KeyRow>, now: map<Fingerprint, KeyRow>, session: string, k: OrderKey,
                          q: OrderKey, o: Order, seen: DriverOrder)
    requires KeysAddedFor(was, now, session, StartupReason, k) && was.Keys <= now.Keys && q != k
    ensures Unwelcome(was, o, session, q, seen) <==> Unwelcome(now, o, session, q, seen)
  {
    hide Repeats, QueryFingerprint, FitsRow, Expressible, QueryEventId;
    OtherAnswersUnaffected(was, now, session, StartupReason, k, q, Some(seen));
    if q.account == k.account && QueryEventId(session, StartupReason, k) == QueryEventId(session, StartupReason, q) {
      QueryIdsDiffer(session, StartupReason, k, q);
    }
    if Expressible(q, seen) {
      ExpressibleIsReportable(q, seen);
      assert NoClash(was, session, StartupReason, q, seen) <==> NoClash(now, session, StartupReason, q, seen);
    }
  }

  lemma NothingStoredYet(keys: map<Fingerprint, KeyRow>, session: string, rows: seq<Row>)
    ensures StillNews(keys, keys, session, rows, 0) && StillWelcome(keys, keys, session, rows, 0)
  {
    hide Unwelcome, Repeats;
  }

  lemma AsWelcome(was: map<Fingerprint, KeyRow>, now: map<Fingerprint, KeyRow>, session: string, rows: seq<Row>, i: nat)
    requires i < |rows| && StillWelcome(was, now, session, rows, i)
    ensures forall o, seen ::
              Unwelcome(was, o, session, rows[i].k, seen) <==> Unwelcome(now, o, session, rows[i].k, seen)
  {
    hide Unwelcome;
  }

  /** A row not yet processed is still the one recovery started from. */
  lemma RowIsAsListed(was: Journal, now: map<OrderKey, Order>, session: string, answers: Answers, rows: seq<Row>,
                      i: nat)
    requires i < |rows| && RecoveredSoFar(was, now, session, answers, rows, i) && Untouched(rows, i, now)
    requires now.Keys == was.orders.Keys
    ensures rows[i].k in was.orders && was.orders[rows[i].k] == rows[i].o
  {
    hide NeedsRecovery, Processed, Repeats, MustAsk;
    assert Listed(rows, i, rows[i].k);
  }

  // -------------------------------------------------------------------- after a call

  /** What a submit or cancel returns: the row's status, and the broker id the query named. */
  datatype CallResult = CallResult(status: Status, brokerOrderId: Option<string>)

  function KnownAs(orders: map<OrderKey, DriverOrder>, k: OrderKey): Option<DriverOrder> {
    if k in orders then Some(orders[k]) else None
  }

  function KnownId(orders: map<OrderKey, DriverOrder>, k: OrderKey): Option<string> {
    if k in orders then orders[k].brokerOrderId else None
  }

  /** The market moves statuses and fills, not the orders and their ids. */
  ghost predicate SameBrokerOrders(was: map<OrderKey, DriverOrder>, now: map<OrderKey, DriverOrder>) {
    now.Keys == was.Keys && forall k :: k in now ==> now[k].brokerOrderId == was[k].brokerOrderId
  }

  /** The one question a returned call is followed by. */
  function Questions(k: OrderKey, returned: bool, orders: map<OrderKey, DriverOrder>): seq<DriverAnswer> {
    if returned then [DriverAnswer(k, KnownAs(orders, k))] else []
  }

  ghost predicate TakeableIfKnown(keys: map<Fingerprint, KeyRow>, o: Order, session: string, reason: string,
                                  k: OrderKey, orders: map<OrderKey, DriverOrder>) {
    k in orders ==> Takeable(keys, o, session, reason, k, orders[k])
  }

  /** A waiting row after the broker answered, or did not know the order. */
  predicate AnswerLeft(o: Order, p: Order, seen: Option<DriverOrder>, repeated: bool) {
    if seen.None? then p == o else TookAnswer(o, p, seen.value, repeated)
  }

  /** A row after the driver call made for it: unknown if it raised, else what the broker answered. */
  predicate CallLeft(o: Order, p: Order, returned: bool, seen: Option<DriverOrder>, repeated: bool) {
    if returned then AnswerLeft(o.(status := Reconciling), p, seen, repeated) else p == o.(status := Unknown)
  }

  /** The first cancel of an order the broker knows, when nothing fails. */
  predicate CancelComesBack(mode: FailureMode, orders: map<OrderKey, DriverOrder>, k: OrderKey) {
    mode == NoFailure && k in orders
  }

  /** Every cancel but one that crashes the process comes back, if its answer can be taken in. */
  ghost predicate CancelReturns(keys: map<Fingerprint, KeyRow>, session: string, o: Order, mode: FailureMode,
                                known: map<OrderKey, DriverOrder>, k: OrderKey, orders: map<OrderKey, DriverOrder>) {
    && (k in known ==> mode !in {CrashBeforeAccept, CrashAfterAccept})
    && (CancelComesBack(mode, known, k) ==>
          TakeableIfKnown(keys, o.(status := Reconciling, cancelStarted := true, cancelResolved := false), session,
                          "post-cancel", k, orders))
  }

  /** The same by the outcome of the driver call. */
  lemma CancelReturnsByOutcome(keys: map<Fingerprint, KeyRow>, session: string, o: Order, mode: FailureMode,
                               known: map<OrderKey, DriverOrder>, k: OrderKey, orders: map<OrderKey, DriverOrder>,
                               outcome: DriverOutcome)
    requires outcome == if k !in known then UnknownOrder
                        else if mode == NoFailure then Returned
                        else if mode in {TimeoutBeforeAccept, TimeoutAfterAccept} then OutcomeUnknown
                        else Crashed
    ensures outcome == Returned <==> CancelComesBack(mode, known, k)
    ensures CancelReturns(keys, session, o, mode, known, k, orders) <==>
            outcome != Crashed
            && (outcome == Returned ==>
                  TakeableIfKnown(keys, o.(status := Reconciling, cancelStarted := true, cancelResolved := false),
                                  session, "post-cancel", k, orders))
  {
    hide TakeableIfKnown;
  }

  lemma AcceptedReserves(o: Order)
    requires o.status == RiskAccepted && !o.submitStarted
    ensures OrderRows.PrepareSubmit(o) == Ok(o.(status := Submitting, submitStarted := true))
  {
  }

  /** Only a working order without a reserved cancel can be cancelled. */
  lemma CancelReserves(o: Order)
    ensures OrderRows.PrepareCancel(o).Ok? <==> o.status in {Acknowledged, PartiallyFilled} && !o.cancelStarted
    ensures OrderRows.PrepareCancel(o).Ok? ==>
              OrderRows.PrepareCancel(o).value
              == o.(status := CancelPending, cancelStarted := true, cancelResolved := false)
  {
  }

  /** The order after a submit that came back, and what its caller was told. */
  predicate SubmitLeft(o: Order, p: Order, result: CallResult, returned: bool, seen: Option<DriverOrder>,
                       repeated: bool) {
    && result.status == p.status
    && (!returned ==> result == CallResult(Unknown, None) && p == o.(status := Unknown))
    && (returned ==>
          && seen.Some? && result.brokerOrderId == seen.value.brokerOrderId
          && TookAnswer(o.(status := Reconciling), p, seen.value, repeated))
  }

  /** The order after a cancel that came back: still open if the call raised, else resolved with the answer in it. */
  predicate CancelLeft(o: Order, p: Order, result: CallResult, returned: bool, seen: Option<DriverOrder>,
                       repeated: bool) {
    && result.status == p.status
    && (!returned ==>
          && result == CallResult(Unknown, None)
          && p == o.(status := Unknown, cancelStarted := true, cancelResolved := false))
    && (returned ==>
          && seen.Some? && result.brokerOrderId == seen.value.brokerOrderId
          && TookAnswer(o.(status := Reconciling, cancelStarted := true, cancelResolved := true), p, seen.value,
                        repeated))
  }

  /** What the driver call left of a reserved cancel, and the closing write if the broker answered. */
  lemma CallThenCancel(o: Order, q: Order, returned: bool, seen: Option<DriverOrder>, repeated: bool)
    requires CallLeft(o.(status := CancelPending, cancelStarted := true, cancelResolved := false), q, returned, seen,
                      repeated)
    requires returned ==> seen.Some?
    ensures var p := if returned then q.(cancelResolved := true) else q;
            var id := if returned then seen.value.brokerOrderId else None;
            CancelLeft(o, p, CallResult(q.status, id), returned, seen, repeated)
  {
  }

  lemma CreatedUncalled(orders: map<OrderKey, Order>, k: OrderKey, o: Order, submits: map<OrderKey, nat>,
                        cancels: map<OrderKey, nat>)
    requires AtMostOnce(orders, submits, cancels) && k !in orders
    ensures AtMostOnce(orders[k := o], submits, cancels)
  {
  }

  class OfflineOms {
    const db: Database
    const repository: OmsRepository
    const journalist: Journalist
    const driver: SimulatedDriver
    const clock: Clock
    const session: string
    const seconds: int
    var reconciled: bool

    constructor (db: Database, driver: SimulatedDriver, clock: Clock, session: string, seconds: int, lease: Lease)
      requires Sound(db.Stored())
      ensures this.db == db && this.driver == driver && this.session == session && !reconciled
      ensures Valid() && fresh(repository)
    {
      this.db, this.driver, this.clock, this.session, this.seconds := db, driver, clock, session, seconds;
      var r := new OmsRepository(db, lease);
      repository := r;
      journalist := new Journalist(r);
      reconciled := false;
    }

    ghost predicate Valid()
      reads this, db
    {
      repository.db == db && journalist.db == db && journalist.repository == repository && Sound(db.Stored())
    }

    /** The session's lease passes the guard now. */
    ghost predicate Leads()
      reads this, db, db.leader, repository, clock
    {
      Held(db.leader.row, repository.lease, clock.now)
    }

    method AssertLeader() returns (failure: Option<LeaseError>)
      modifies clock
      ensures old(clock.now) <= clock.now
      ensures failure == Check(db.leader.row, repository.lease, clock.now)
    {
      var now := clock.Read();
      failure := db.leader.AssertHeld(repository.lease, now);
    }

    method Heartbeat() returns (failure: Option<LeaseError>)
      modifies clock, db.leader, repository
      ensures old(clock.now) <= clock.now
      ensures match RenewedRow(old(db.leader.row), old(repository.lease), seconds, clock.now)
              case Ok(row) => failure.None? && db.leader.row == Some(row) && repository.lease == LeaseOf(row)
              case Err(e) =>
                failure == Some(e) && db.leader.row == old(db.leader.row)
                && repository.lease == old(repository.lease)
      ensures failure.None? <==> 0 < seconds && Held(old(db.leader.row), old(repository.lease), clock.now)
      ensures failure.None? ==>
                forall t :: Held(db.leader.row, repository.lease, t) <==> t < clock.now + seconds
    {
      var now := clock.Read();
      var renewed := db.leader.Heartbeat(repository.lease, seconds, now);
      match renewed
      case Ok(lease) => repository.lease := lease; failure := None;
      case Err(e) => failure := Some(e);
    }

    /** A guarded row write that keeps the journal sound. */
    method Move(k: OrderKey, target: Status, resolved: Option<bool>, ghost step: RowStep, ghost p: Order)
      returns (r: Result<Order, SessionError>)
      requires Valid() && k in db.orders && Moves(db.orders[k], target, resolved, step, p)
      modifies db, clock
      ensures Valid() && db.keys == old(db.keys) && old(clock.now) <= clock.now
      ensures r.Err? ==> db.orders == old(db.orders) && r.error.StoreRefused? && r.error.why.LeaderLost? && !Leads()
      ensures r.Ok? ==> r.value == p && db.orders == old(db.orders)[k := p]
    {
      hide Moves, CommandTransition, Sound, OmsStore.Refused;
      var now := clock.Read();
      MoveKeepsSound(db.Stored(), k, target, resolved, step, p);
      var moved := repository.TransitionOrder(k, target, resolved, now);
      match moved
      case Err(e) => r := Err(StoreRefused(e));
      case Ok(o) => r := Ok(o);
    }

    method IngestQuery(k: OrderKey, seen: DriverOrder, reason: string) returns (r: Result<Status, SessionError>)
      requires Valid() && k in db.orders && db.orders[k].status in {Reconciling, ManualReview}
      modifies db, clock
      ensures Valid() && db.orders.Keys == old(db.orders.Keys) && KeepsReservations(old(db.orders), db.orders)
      ensures KeysAddedFor(old(db.keys), db.keys, session, reason, k) && old(db.keys).Keys <= db.keys.Keys
      ensures old(clock.now) <= clock.now
      ensures old(db.orders)[k].status == Reconciling ==>
                (r.Ok? ==> TookAnswer(old(db.orders)[k], db.orders[k], seen,
                                      Repeats(old(db.keys), session, reason, k, Some(seen))))
                && (Leads() && 0 < old(clock.now) ==>
                      (r.Ok? <==> Takeable(old(db.keys), old(db.orders)[k], session, reason, k, seen)))
      ensures Leads() && 0 < old(clock.now) && r.Err? ==>
                !Takeable(old(db.keys), old(db.orders)[k], session, reason, k, seen)
                || Repeats(old(db.keys), session, reason, k, Some(seen))
      ensures r.Ok? ==>
                var repeated := Repeats(old(db.keys), session, reason, k, Some(seen));
                && SameCancelFlags(old(db.orders)[k], db.orders[k])
                && db.orders == old(db.orders)[k := if repeated then old(db.orders)[k]
                                                    else FactRow(old(db.orders)[k], seen.status, seen.brokerOrderId,
                                                                 seen.filled)]
                && (!repeated ==> !IsAmbiguous(db.orders[k].status))
      ensures r.Ok? ==> r.value == db.orders[k].status != CancelPending
      ensures r.Err? ==> r.error != FlagViolation
    {
      hide Sound, Ingest, ValidEvidence, KeyOf, FingerprintOf, FactRow, Repeats, Takeable, TookAnswer, QueryEvidence;
      assert db.orders == db.orders[k := db.orders[k]];
      var kind := KindOf(seen.status);
      if kind.None? {
        UnsaidIsNotTakeable(db.keys, db.orders[k], session, reason, k, seen, 1);
        return Err(NotBrokerStatus);
      }
      var now := clock.Read();
      var e := QueryEvidence(session, reason, k, seen, kind.value, now);
      if !ValidEvidence(e) {
        if 0 < now {
          UnsaidIsNotTakeable(db.keys, db.orders[k], session, reason, k, seen, now);
        }
        return Err(BadObservation);
      }
      ValidMeansPositive(e);
      QueryNow(session, reason, k, seen, kind.value, now);
      QueryIngest(db.Stored(), session, reason, k, seen, kind.value, now);
      if Takeable(db.keys, db.orders[k], session, reason, k, seen)
        && !Repeats(db.keys, session, reason, k, Some(seen)) {
        FreshIsTaken(db.Stored(), session, reason, k, seen, now);
      }
      if db.orders[k].status == Reconciling {
        WaitingTakesAnswer(db.Stored(), session, reason, k, seen, kind.value, now);
      }
      var later := clock.Read();
      var answer := journalist.IngestEvidence(e, later);
      match answer
      case Err(why) => r := Err(StoreRefused(why));
      case Ok(Ingested(_, _, _)) => r := Ok(db.orders[k].status);
      case Ok(Conflicted(why)) => r := Err(EvidenceConflict(why));
      case Ok(RolledBack) => r := Err(EvidenceRolledBack);
    }

    /** Every row that needs recovery, once, as it reads now. */
    method ListRecoveryCandidates() returns (rows: seq<Row>)
      ensures DistinctKeys(rows) && Untouched(rows, 0, db.orders) && OnlyListedRemain(rows, 0, db.orders)
      ensures forall m :: 0 <= m < |rows| ==> NeedsRecovery(rows[m].o)
      ensures forall k :: k in db.orders && !Listed(rows, 0, k) ==>
                && db.orders[k].status !in {Created, RiskAccepted, Submitting, CancelPending, Unknown, Reconciling}
                && (db.orders[k].cancelStarted ==> db.orders[k].cancelResolved)
    {
      hide NeedsRecovery;
      rows := [];
      var left := db.orders.Keys;
      while left != {}
        invariant left <= db.orders.Keys
        invariant forall m :: 0 <= m < |rows| ==> rows[m].k in db.orders && rows[m].k !in left
        invariant DistinctKeys(rows) && Untouched(rows, 0, db.orders)
        invariant forall m :: 0 <= m < |rows| ==> NeedsRecovery(rows[m].o)
        invariant forall k :: k in db.orders && NeedsRecovery(db.orders[k]) ==> k in left || Listed(rows, 0, k)
      {
        var k :| k in left;
        left := left - {k};
        if NeedsRecovery(db.orders[k]) {
          ghost var was := rows;
          rows := rows + [Row(k, db.orders[k])];
          assert rows[|was|].k == k;
          assert forall q :: Listed(was, 0, q) ==> Listed(rows, 0, q) by {
            forall q | Listed(was, 0, q) ensures Listed(rows, 0, q) {
              var m :| 0 <= m < |was| && was[m].k == q;
              assert rows[m].k == q;
            }
          }
        }
      }
      forall k | k in db.orders && !Listed(rows, 0, k)
        ensures db.orders[k].status !in {Created, RiskAccepted, Submitting, CancelPending, Unknown, Reconciling}
        ensures db.orders[k].cancelStarted ==> db.orders[k].cancelResolved
      {
        NeedsRecoveryExactlyWhen(db.orders[k]);
      }
    }

    /**
     * The part of recovery that needs no broker: aborts orders that never left,
     * resolves cancels the broker already ended, and moves every other
     * ambiguity to RECONCILING. Answers whether the broker must be asked.
     */
    method SettleLocally(k: OrderKey, o: Order) returns (r: Result<bool, SessionError>)
      requires Valid() && k in db.orders && db.orders[k] == o && NeedsRecovery(o)
      modifies db, clock
      ensures Valid() && db.keys == old(db.keys)
      ensures k in db.orders && db.orders == old(db.orders)[k := db.orders[k]]
      ensures KeepsReservations(old(db.orders), db.orders)
      ensures r.Err? ==> r.error != FlagViolation && !Leads()
      ensures old(clock.now) <= clock.now
      ensures r.Ok? ==> (r.value <==> !SettlesLocally(o))
      ensures r.Ok? && r.value ==> db.orders[k] == Asking(o)
      ensures r.Ok? && !r.value ==> db.orders[k] == RecoveredRow(o, None, false) && !NeedsRecovery(db.orders[k])
    {
      hide Sound, Moves, OrdersCoupled, KeysObserved, ObservationsReflected;
      SoundParts(db.Stored());
      RecoveryFlagsHold(db.Stored(), k);
      assert db.orders == db.orders[k := db.orders[k]];
      MovesForward(o);
      var status, unresolved := o.status, o.cancelStarted && !o.cancelResolved;
      if status == Created || status == RiskAccepted {
        if o.submitStarted || o.cancelStarted || o.brokerId.Some? {
          return Err(FlagViolation);
        }
        var aborted := Move(k, Aborted, None, Abort, o.(status := Aborted));
        return if aborted.Ok? then Ok(false) else Err(aborted.error);
      }
      if unresolved && (status == Filled || status == Cancelled || status == Rejected) {
        MovesNowhere(o);
        var resolved := Move(k, status, Some(true), SameStatus(Some(true)), o.(cancelResolved := true));
        return if resolved.Ok? then Ok(false) else Err(resolved.error);
      }
      var begun := BeginReconciling(k, o);
      r := if begun.Ok? then Ok(true) else Err(begun.error);
    }

    /** Walks an ambiguous row to RECONCILING, one recorded step at a time. */
    method BeginReconciling(k: OrderKey, o: Order) returns (r: Result<(), SessionError>)
      requires Valid() && k in db.orders && db.orders[k] == o && NeedsRecovery(o) && !SettlesLocally(o)
      modifies db, clock
      ensures Valid() && db.keys == old(db.keys)
      ensures k in db.orders && db.orders == old(db.orders)[k := db.orders[k]]
      ensures KeepsReservations(old(db.orders), db.orders)
      ensures r.Err? ==> r.error != FlagViolation && !Leads()
      ensures old(clock.now) <= clock.now
      ensures r.Ok? ==> db.orders[k] == Asking(o)
    {
      hide Sound, Moves, OrdersCoupled, KeysObserved, ObservationsReflected, KeepsReservations;
      SoundParts(db.Stored());
      RecoveryFlagsHold(db.Stored(), k);
      assert db.orders == db.orders[k := db.orders[k]];
      forall s ensures KeepsReservations(db.orders, db.orders[k := o.(status := s)])
        && KeepsReservations(db.orders, db.orders) {
        StatusMoveKeeps(db.orders, k, s);
      }
      MovesForward(o);
      var status, unresolved := o.status, o.cancelStarted && !o.cancelResolved;
      if status == Submitting {
        if !o.submitStarted {
          return Err(FlagViolation);
        }
        var moved := Move(k, Unknown, None, ToUnknown, o.(status := Unknown));
        if moved.Err? {
          return Err(moved.error);
        }
        status := Unknown;
      }
      if unresolved && (status == Acknowledged || status == PartiallyFilled) {
        var moved := Move(k, CancelPending, None, RestoreCancelPending, o.(status := CancelPending));
        if moved.Err? {
          return Err(moved.error);
        }
        status := CancelPending;
      }
      if status == CancelPending {
        if !o.cancelStarted {
          return Err(FlagViolation);
        }
        MovesForward(o.(status := CancelPending));
        var moved := Move(k, Unknown, None, ToUnknown, o.(status := Unknown));
        if moved.Err? {
          return Err(moved.error);
        }
        status := Unknown;
      }
      if status == Unknown {
        MovesForward(o.(status := Unknown));
        var moved := Move(k, Reconciling, None, ToReconciling, o.(status := Reconciling));
        if moved.Err? {
          return Err(moved.error);
        }
        status := Reconciling;
      }
      r := Ok(());
    }

    /**
     * Asks the broker once, whatever happened there meanwhile; an order it
     * does not know goes to manual review.
     */
    method SettleByQuery(k: OrderKey, unresolved: bool) returns (r: Result<(), SessionError>)
      requires Valid() && k in db.orders && db.orders[k].status in {Reconciling, ManualReview}
      requires unresolved == CancelUnresolved(db.orders[k])
      modifies db, clock, driver`orders, driver`log
      ensures Valid() && db.orders.Keys == old(db.orders.Keys) && KeepsReservations(old(db.orders), db.orders)
      ensures KeysAddedFor(old(db.keys), db.keys, session, StartupReason, k) && old(db.keys).Keys <= db.keys.Keys
      ensures r.Err? ==> r.error != FlagViolation
      ensures old(clock.now) <= clock.now
      ensures r.Err? && Leads() && 0 < old(clock.now) ==>
                && |driver.log| > 0
                && var last := driver.log[|driver.log| - 1];
                && driver.log == old(driver.log) + [last] && last.k == k && last.seen.Some?
                && Unwelcome(old(db.keys), old(db.orders)[k], session, k, last.seen.value)
      ensures r.Ok? ==>
                && |driver.log| > 0
                && var seen := driver.log[|driver.log| - 1].seen;
                   var repeated := Repeats(old(db.keys), session, StartupReason, k, seen);
                && driver.log == old(driver.log) + [DriverAnswer(k, seen)]
                && (seen.Some? <==> k in old(driver.orders))
                && db.orders == old(db.orders)[k := QueriedRow(old(db.orders)[k], seen, repeated)]
                && (NeedsRecovery(db.orders[k]) <==> old(db.orders)[k].status == Reconciling && repeated)
    {
      hide Sound, Moves, FactRow, KeysAddedFor, KeepsReservations, Repeats, Unwelcome;
      SelfKept(db.orders, db.keys, session, k);
      var lost := AssertLeader();
      if lost.Some? {
        return Err(LeaseLost(lost.value));
      }
      driver.MarketActs();
      var answer := driver.Query(k);
      lost := AssertLeader();
      if lost.Some? {
        return Err(LeaseLost(lost.value));
      }
      if answer.None? {
        NotRepeated(db.keys, session, k);
        r := ReviewUnknown(k, unresolved);
      } else {
        r := TakeAnswer(k, unresolved, answer.value);
      }
    }

    method ReviewUnknown(k: OrderKey, unresolved: bool) returns (r: Result<(), SessionError>)
      requires Valid() && k in db.orders && db.orders[k].status in {Reconciling, ManualReview}
      requires unresolved == CancelUnresolved(db.orders[k])
      modifies db, clock
      ensures Valid() && db.keys == old(db.keys) && db.orders.Keys == old(db.orders.Keys)
              && KeepsReservations(old(db.orders), db.orders)
      ensures r.Err? ==> r.error != FlagViolation && !Leads()
      ensures old(clock.now) <= clock.now
      ensures r.Ok? ==>
                && db.orders == old(db.orders)[k := QueriedRow(old(db.orders)[k], None, false)]
                && !NeedsRecovery(db.orders[k])
    {
      hide Sound, Moves, KeepsReservations;
      SelfKept(db.orders, db.keys, session, k);
      var resolved := if unresolved then Some(true) else None;
      MovesToReview(db.orders[k], resolved);
      var moved := Move(k, ManualReview, resolved, NotFound(resolved), MarkManualReview(db.orders[k], resolved));
      if moved.Ok? {
        SameFlagsKept(old(db.orders), db.orders, k);
      }
      r := if moved.Ok? then Ok(()) else Err(moved.error);
    }

    method TakeAnswer(k: OrderKey, unresolved: bool, seen: DriverOrder) returns (r: Result<(), SessionError>)
      requires Valid() && k in db.orders && db.orders[k].status in {Reconciling, ManualReview}
      requires unresolved == CancelUnresolved(db.orders[k])
      modifies db, clock
      ensures Valid() && db.orders.Keys == old(db.orders.Keys) && KeepsReservations(old(db.orders), db.orders)
      ensures KeysAddedFor(old(db.keys), db.keys, session, StartupReason, k) && old(db.keys).Keys <= db.keys.Keys
      ensures r.Err? ==> r.error != FlagViolation
      ensures old(clock.now) <= clock.now
      ensures r.Err? && Leads() && 0 < old(clock.now) ==>
                Unwelcome(old(db.keys), old(db.orders)[k], session, k, seen)
      ensures r.Ok? ==>
                var repeated := Repeats(old(db.keys), session, StartupReason, k, Some(seen));
                && db.orders == old(db.orders)[k := QueriedRow(old(db.orders)[k], Some(seen), repeated)]
                && (NeedsRecovery(db.orders[k]) <==> old(db.orders)[k].status == Reconciling && repeated)
    {
      hide Sound, Moves, FactRow, KeysAddedFor, KeepsReservations, Repeats, Takeable, TookAnswer;
      var applied := IngestQuery(k, seen, StartupReason);
      if applied.Err? {
        return Err(applied.error);
      }
      if unresolved {
        ghost var before := db.orders;
        MovesNowhere(db.orders[k]);
        var resolved := Move(k, db.orders[k].status, Some(true), SameStatus(Some(true)),
                             db.orders[k].(cancelResolved := true));
        if resolved.Err? {
          return Err(resolved.error);
        }
        SameFlagsKept(before, db.orders, k);
        KeepsTransitive(old(db.orders), before, db.orders);
      }
      r := Ok(());
    }

    /**
     * Startup recovery, while the broker goes on working. If it returns
     * normally, every row is exactly what the broker's answer makes of it, and
     * an order is still ambiguous exactly when it waited for the broker and
     * this session had already stored the very same answer; a fresh session
     * drains everything. Whatever happens, the driver is only queried, no
     * reservation is undone, and no flag check fires.
     */
    method Recover() returns (r: Result<(), SessionError>)
      requires Valid()
      modifies this`reconciled, db, clock, db.leader, repository, driver`orders, driver`log
      ensures Valid() && db.orders.Keys == old(db.orders.Keys) && KeepsReservations(old(db.orders), db.orders)
      ensures r.Ok? ==>
                && reconciled && old(driver.log) <= driver.log
                && Recovered(old(db.Stored()), db.orders, session, AnswersIn(driver.log[|old(driver.log)|..]))
      ensures r.Ok? && old(SessionUnseen(db.Stored(), session)) ==> forall k :: k in db.orders ==>
                && db.orders[k].status !in {Created, RiskAccepted, Submitting, CancelPending, Unknown, Reconciling}
                && (db.orders[k].cancelStarted ==> db.orders[k].cancelResolved)
      ensures r.Err? ==> r.error != FlagViolation && reconciled == old(reconciled)
      ensures r.Err? && Leads() && 0 < seconds && 0 < old(clock.now) ==>
                && |old(driver.log)| < |driver.log|
                && var last := driver.log[|driver.log| - 1];
                && last.k in old(db.orders) && MustAsk(old(db.orders)[last.k]) && last.seen.Some?
                && Unwelcome(old(db.keys), Asking(old(db.orders)[last.k]), session, last.k, last.seen.value)
    {
      hide Unwelcome, Asking, StillWelcome, Listed, Check, DistinctKeys;
      hide Sound, SessionUnseen, KeysAddedFor, NeedsRecovery, OnlyListedRemain, Repeats, Processed;
      hide RecoveredSoFar, Recovered;
      hide AnswersIn, KeepsReservations, MustAsk;
      SelfKept(db.orders, db.keys, session, OrderKey("", ""));
      var lost := AssertLeader();
      if lost.Some? {
        return Err(LeaseLost(lost.value));
      }
      var rows := ListRecoveryCandidates();
      NothingRecoveredYet(db.Stored(), session, AnswersIn([]), rows);
      NothingStoredYet(db.keys, session, rows);
      ghost var heard: seq<DriverAnswer> := [];
      var i := 0;
      while i < |rows|
        invariant i <= |rows| && Valid() && reconciled == old(reconciled)
        invariant db.orders.Keys == old(db.orders.Keys) && KeepsReservations(old(db.orders), db.orders)
        invariant Untouched(rows, i, db.orders) && driver.log == old(driver.log) + heard
        invariant RecoveredSoFar(old(db.Stored()), db.orders, session, AnswersIn(heard), rows, i)
        invariant StillNews(old(db.keys), db.keys, session, rows, i)
        invariant StillWelcome(old(db.keys), db.keys, session, rows, i) && old(clock.now) <= clock.now
      {
        RowIsAsListed(old(db.Stored()), db.orders, session, AnswersIn(heard), rows, i);
        ghost var before, beforeKeys := db.orders, db.keys;
        lost := Heartbeat();
        if lost.Some? {
          return Err(LeaseLost(lost.value));
        }
        var done, asked := RecoverOne(rows[i].k, rows[i].o);
        KeepsTransitive(old(db.orders), before, db.orders);
        if done.Err? {
          AsWelcome(old(db.keys), beforeKeys, session, rows, i);
          return Err(done.error);
        }
        OneRowDone(rows, i, before, db.orders);
        ghost var more := OneRowAsked(rows[i], heard, asked);
        if !MustAsk(rows[i].o) {
          SettledUnasked(rows[i].o, db.orders[rows[i].k], beforeKeys, session, rows[i].k,
                         Told(AnswersIn(more), rows[i].k));
        }
        RecoveredOneMore(old(db.Stored()), before, db.orders, session, AnswersIn(heard), AnswersIn(more), rows, i);
        NextStillNews(old(db.keys), beforeKeys, db.keys, session, rows, i);
        NextStillWelcome(old(db.keys), beforeKeys, db.keys, session, rows, i);
        heard := more;
        i := i + 1;
      }
      AllRecovered(old(db.Stored()), db.orders, session, AnswersIn(heard), rows);
      assert driver.log[|old(driver.log)|..] == heard;
      lost := Heartbeat();
      if lost.Some? {
        return Err(LeaseLost(lost.value));
      }
      lost := AssertLeader();
      if lost.Some? {
        return Err(LeaseLost(lost.value));
      }
      reconciled := true;
      if SessionUnseen(old(db.Stored()), session) {
        UnseenSessionDrains(old(db.Stored()), db.orders, session, AnswersIn(heard));
      }
      r := Ok(());
    }

    /** One candidate; `asked` is the question the broker got, if it had to be asked. */
    method RecoverOne(k: OrderKey, o: Order) returns (r: Result<(), SessionError>, ghost asked: seq<DriverAnswer>)
      requires Valid() && k in db.orders && db.orders[k] == o && NeedsRecovery(o)
      modifies db, clock, driver`orders, driver`log
      ensures Valid() && db.orders.Keys == old(db.orders.Keys) && KeepsReservations(old(db.orders), db.orders)
      ensures KeysAddedFor(old(db.keys), db.keys, session, StartupReason, k) && old(db.keys).Keys <= db.keys.Keys
      ensures r.Err? ==> r.error != FlagViolation
      ensures old(clock.now) <= clock.now
      ensures r.Err? && Leads() && 0 < old(clock.now) ==>
                && MustAsk(o) && |driver.log| > 0
                && var last := driver.log[|driver.log| - 1];
                && driver.log == old(driver.log) + [last] && last.k == k && last.seen.Some?
                && Unwelcome(old(db.keys), Asking(o), session, k, last.seen.value)
      ensures r.Ok? ==>
                && driver.log == old(driver.log) + asked
                && |asked| == (if MustAsk(o) then 1 else 0)
                && (MustAsk(o) ==> asked[0].k == k && (asked[0].seen.Some? <==> k in old(driver.orders)))
                && db.orders == old(db.orders)[k := db.orders[k]]
                && var seen := if MustAsk(o) then asked[0].seen else None;
                   Processed(o, db.orders[k], seen, Repeats(old(db.keys), session, StartupReason, k, seen))
    {
      hide Sound, NeedsRecovery, QueriedRow, KeepsReservations, Repeats, KeysAddedFor, Unwelcome, Held, Check;
      hide Processed, RecoveredRow;
      SelfKept(db.orders, db.keys, session, k);
      asked := [];
      var ask := SettleLocally(k, o);
      if ask.Err? {
        return Err(ask.error), asked;
      }
      if !ask.value {
        NotRepeated(db.keys, session, k);
        SettledRow(o, db.orders[k]);
        return Ok(()), asked;
      }
      ghost var asking := db.orders;
      r := SettleByQuery(k, o.cancelStarted && !o.cancelResolved);
      KeepsTransitive(old(db.orders), asking, db.orders);
      if r.Ok? {
        asked := [driver.log[|driver.log| - 1]];
        AskedRow(o, db.orders[k], asked[0].seen, Repeats(old(db.keys), session, StartupReason, k, asked[0].seen));
      }
    }

    /** Asks the broker about a reconciling order and ingests the answer, if there is one. */
    method AskBroker(k: OrderKey, reason: string) returns (r: Result<CallResult, SessionError>, asked: bool)
      requires Valid() && k in db.orders && db.orders[k].status == Reconciling
      requires AtMostOnce(db.orders, driver.submitCalls, driver.cancelCalls)
      modifies db, clock, driver`orders, driver`log
      ensures Valid() && AtMostOnce(db.orders, driver.submitCalls, driver.cancelCalls)
      ensures k in db.orders && (old(db.orders)[k].submitStarted ==> db.orders[k].submitStarted)
      ensures old(clock.now) <= clock.now && SameBrokerOrders(old(driver.orders), driver.orders)
      ensures asked ==> k in driver.orders
      ensures r.Ok? ==>
                && (asked <==> k in driver.orders)
                && driver.log == old(driver.log) + [DriverAnswer(k, KnownAs(driver.orders, k))]
                && db.orders == old(db.orders)[k := db.orders[k]] && db.orders[k].status != CancelPending
                && r.value == CallResult(db.orders[k].status, KnownId(driver.orders, k))
                && AnswerLeft(old(db.orders)[k], db.orders[k], KnownAs(driver.orders, k),
                              Repeats(old(db.keys), session, reason, k, KnownAs(driver.orders, k)))
      ensures Leads() && 0 < old(clock.now) ==>
                (r.Ok? <==> TakeableIfKnown(old(db.keys), old(db.orders)[k], session, reason, k, driver.orders))
      ensures r.Err? ==> r.error != FlagViolation
    {
      hide Sound, KeysAddedFor, IsAmbiguous, SameCancelFlags, FactRow, Repeats, Takeable, TookAnswer, KeepsReservations;
      hide AtMostOnce;
      assert db.orders == db.orders[k := db.orders[k]];
      asked := false;
      var lost := AssertLeader();
      if lost.Some? {
        return Err(LeaseLost(lost.value)), false;
      }
      driver.MarketActs();
      var seen := driver.Query(k);
      lost := AssertLeader();
      if lost.Some? {
        return Err(LeaseLost(lost.value)), false;
      }
      if seen.None? {
        return Ok(CallResult(Reconciling, None)), false;
      }
      var taken := IngestQuery(k, seen.value, reason);
      AtMostOnceKept(old(db.orders), db.orders, driver.submitCalls, driver.cancelCalls);
      ReservationKept(old(db.orders), db.orders, k);
      asked := true;
      r := if taken.Ok? then Ok(CallResult(taken.value, seen.value.brokerOrderId)) else Err(taken.error);
    }

    /**
     * Records what a driver call left behind: lifecycle unknown, then one
     * query. `asked` tells whether broker evidence was ingested.
     */
    method AfterCall(k: OrderKey, outcome: DriverOutcome, reason: string)
      returns (r: Result<CallResult, SessionError>, asked: bool)
      requires Valid() && k in db.orders && db.orders[k].status in {Submitting, CancelPending}
      requires AtMostOnce(db.orders, driver.submitCalls, driver.cancelCalls)
      modifies db, clock, driver`orders, driver`log
      ensures Valid() && AtMostOnce(db.orders, driver.submitCalls, driver.cancelCalls)
      ensures k in db.orders && (old(db.orders)[k].submitStarted ==> db.orders[k].submitStarted)
      ensures old(clock.now) <= clock.now && SameBrokerOrders(old(driver.orders), driver.orders)
      ensures r.Ok? ==>
                && outcome != Crashed && (asked <==> outcome == Returned && k in driver.orders)
                && driver.log == old(driver.log) + Questions(k, outcome == Returned, driver.orders)
                && db.orders == old(db.orders)[k := db.orders[k]] && db.orders[k].status != CancelPending
                && r.value == CallResult(db.orders[k].status, if asked then KnownId(driver.orders, k) else None)
                && CallLeft(old(db.orders)[k], db.orders[k], outcome == Returned, KnownAs(driver.orders, k),
                            Repeats(old(db.keys), session, reason, k, KnownAs(driver.orders, k)))
      ensures Leads() && 0 < old(clock.now) ==>
                (r.Ok? <==>
                 outcome != Crashed
                 && (outcome == Returned ==>
                       TakeableIfKnown(old(db.keys), old(db.orders)[k].(status := Reconciling), session, reason, k,
                                       driver.orders)))
    {
      hide Sound, KeepsReservations, TakeableIfKnown, AnswerLeft, Repeats, Held, Check, KnownAs, AtMostOnce;
      asked := false;
      if outcome == Crashed {
        return Err(ProcessCrashed), false;
      }
      var failure := RecordUnknown(k);
      if failure.Some? {
        return Err(failure.value), false;
      }
      if outcome != Returned {
        return Ok(CallResult(Unknown, None)), false;
      }
      failure := BeginWaiting(k);
      if failure.Some? {
        return Err(failure.value), false;
      }
      ghost var waiting := db.orders;
      assert waiting == old(db.orders)[k := old(db.orders)[k].(status := Reconciling)];
      r, asked := AskBroker(k, reason);
    }

    /** The call was made, so the lifecycle is unknown until evidence arrives. */
    method RecordUnknown(k: OrderKey) returns (failure: Option<SessionError>)
      requires Valid() && k in db.orders && db.orders[k].status in {Submitting, CancelPending}
      requires AtMostOnce(db.orders, driver.submitCalls, driver.cancelCalls)
      modifies db, clock
      ensures Valid() && db.keys == old(db.keys) && old(clock.now) <= clock.now
      ensures AtMostOnce(db.orders, driver.submitCalls, driver.cancelCalls)
      ensures db.orders == if failure.Some? then old(db.orders)
                           else old(db.orders)[k := old(db.orders)[k].(status := Unknown)]
      ensures failure.Some? ==> !Leads() && failure.value != FlagViolation
    {
      hide Sound, Moves, AtMostOnce;
      var lost := AssertLeader();
      if lost.Some? {
        return Some(LeaseLost(lost.value));
      }
      MovesForward(db.orders[k]);
      StatusMoveOnce(db.orders, k, Unknown, driver.submitCalls, driver.cancelCalls);
      var moved := Move(k, Unknown, None, ToUnknown, db.orders[k].(status := Unknown));
      failure := if moved.Err? then Some(moved.error) else None;
    }

    method BeginWaiting(k: OrderKey) returns (failure: Option<SessionError>)
      requires Valid() && k in db.orders && db.orders[k].status == Unknown
      requires AtMostOnce(db.orders, driver.submitCalls, driver.cancelCalls)
      modifies db, clock
      ensures Valid() && db.keys == old(db.keys) && old(clock.now) <= clock.now
      ensures AtMostOnce(db.orders, driver.submitCalls, driver.cancelCalls)
      ensures db.orders == if failure.Some? then old(db.orders)
                           else old(db.orders)[k := old(db.orders)[k].(status := Reconciling)]
      ensures failure.Some? ==> !Leads() && failure.value != FlagViolation
    {
      hide Sound, Moves, AtMostOnce;
      MovesForward(db.orders[k]);
      StatusMoveOnce(db.orders, k, Reconciling, driver.submitCalls, driver.cancelCalls);
      var moved := Move(k, Reconciling, None, ToReconciling, db.orders[k].(status := Reconciling));
      failure := if moved.Err? then Some(moved.error) else None;
    }

    /**
     * Creates, authorizes, reserves, and calls the broker's submit at most once.
     * A submit that returns leaves the new order showing the broker's answer to
     * the one question asked after the call; a lost answer leaves it UNKNOWN.
     */
    method SubmitDecidedIntent(k: OrderKey, quantity: int, accepted: bool) returns (r: Result<CallResult, SessionError>)
      requires Valid() && AtMostOnce(db.orders, driver.submitCalls, driver.cancelCalls)
      modifies db, clock, driver
      ensures Valid() && AtMostOnce(db.orders, driver.submitCalls, driver.cancelCalls)
      ensures driver.cancelCalls == old(driver.cancelCalls)
      ensures driver.submitCalls == old(driver.submitCalls)
              || (old(reconciled) && accepted && k !in old(db.orders)
                  && driver.submitCalls == old(driver.submitCalls)[k := 1])
      ensures r.Ok? ==> k in db.orders && db.orders == old(db.orders)[k := db.orders[k]]
      ensures r.Ok? && !accepted ==>
                && r.value == CallResult(RiskRejected, None)
                && db.orders[k] == Order(RiskRejected, None, 0, quantity, false, false, false)
                && driver.submitCalls == old(driver.submitCalls) && driver.log == old(driver.log)
                && driver.orders == old(driver.orders)
      ensures r.Ok? && accepted ==> driver.submitCalls == old(driver.submitCalls)[k := 1]
      ensures r.Ok? && accepted ==> (k in driver.orders <==> k in old(driver.orders) || Reaches(old(driver.nextSubmit)))
      ensures r.Ok? && accepted && old(driver.nextSubmit) != NoFailure ==>
                && r.value == CallResult(Unknown, None) && driver.log == old(driver.log)
                && db.orders[k] == Order(Unknown, None, 0, quantity, true, false, false)
      ensures r.Ok? && accepted && old(driver.nextSubmit) == NoFailure ==>
                && k in driver.orders && driver.log == old(driver.log) + [DriverAnswer(k, Some(driver.orders[k]))]
                && driver.orders[k].brokerOrderId == Some(SimulatedId(old(driver.sequence) + 1))
                && r.value == CallResult(db.orders[k].status, driver.orders[k].brokerOrderId)
                && ShowsAnswer(Order(Reconciling, None, 0, quantity, true, false, false), db.orders[k],
                               driver.orders[k])
      ensures Leads() && 0 < old(clock.now) ==>
                (r.Ok? <==>
                 old(reconciled) && k !in old(db.orders) && 0 < quantity
                 && (accepted ==>
                       SubmitReturns(old(db.keys), Order(Reconciling, None, 0, quantity, true, false, false),
                                     old(driver.nextSubmit), k, driver.orders)))
    {
      hide Sound, Moves, KeepsReservations, Takeable, ShowsAnswer, Repeats, AtMostOnce, SimulatedId;
      var lost := AssertLeader();
      if lost.Some? {
        return Err(LeaseLost(lost.value));
      }
      if !reconciled {
        return Err(NotReconciled);
      }
      var now := clock.Read();
      if k !in db.orders && quantity > 0 {
        CreateKeepsSound(db.Stored(), k, quantity);
        CreatedUncalled(db.orders, k, NewOrder(quantity), driver.submitCalls, driver.cancelCalls);
      }
      var created := repository.CreateIntent(k, quantity, now);
      if created.Err? {
        return Err(StoreRefused(created.error));
      }
      NewOrderNeverRepeats(old(db.Stored()), session, "post-submit", k, None);
      r := SubmitCreated(k, accepted);
      NewOrderNeverRepeats(old(db.Stored()), session, "post-submit", k, KnownAs(driver.orders, k));
    }

    /** Every call but one that crashes the process comes back, if its answer can be taken in. */
    ghost predicate SubmitReturns(keys: map<Fingerprint, KeyRow>, waiting: Order, mode: FailureMode, k: OrderKey,
                                  orders: map<OrderKey, DriverOrder>) {
      && mode !in {CrashBeforeAccept, CrashAfterAccept}
      && (mode == NoFailure ==> TakeableIfKnown(keys, waiting, session, "post-submit", k, orders))
    }

    method SubmitCreated(k: OrderKey, accepted: bool) returns (r: Result<CallResult, SessionError>)
      requires Valid() && AtMostOnce(db.orders, driver.submitCalls, driver.cancelCalls)
      requires k in db.orders && db.orders[k].status == Created && !db.orders[k].submitStarted
      modifies db, clock, driver
      ensures Valid() && AtMostOnce(db.orders, driver.submitCalls, driver.cancelCalls)
      ensures old(clock.now) <= clock.now && driver.cancelCalls == old(driver.cancelCalls)
      ensures driver.submitCalls == old(driver.submitCalls)
              || (accepted && driver.submitCalls == old(driver.submitCalls)[k := 1])
      ensures r.Ok? ==> k in db.orders && db.orders == old(db.orders)[k := db.orders[k]]
      ensures r.Ok? && !accepted ==>
                && r.value == CallResult(RiskRejected, None)
                && db.orders[k] == old(db.orders)[k].(status := RiskRejected)
                && driver.submitCalls == old(driver.submitCalls) && driver.log == old(driver.log)
                && driver.orders == old(driver.orders)
      ensures r.Ok? && accepted ==>
                && driver.submitCalls == old(driver.submitCalls)[k := 1] && db.orders[k].submitStarted
                && driver.log == old(driver.log) + Questions(k, old(driver.nextSubmit) == NoFailure, driver.orders)
                && (k in driver.orders <==> k in old(driver.orders) || Reaches(old(driver.nextSubmit)))
                && (old(driver.nextSubmit) == NoFailure ==>
                      KnownId(driver.orders, k) == Some(SimulatedId(old(driver.sequence) + 1)))
                && SubmitLeft(old(db.orders)[k].(status := Submitting, submitStarted := true), db.orders[k], r.value,
                              old(driver.nextSubmit) == NoFailure, KnownAs(driver.orders, k),
                              Repeats(old(db.keys), session, "post-submit", k, KnownAs(driver.orders, k)))
      ensures Leads() && 0 < old(clock.now) ==>
                (r.Ok? <==>
                 accepted ==>
                   SubmitReturns(old(db.keys), old(db.orders)[k].(status := Reconciling, submitStarted := true),
                                 old(driver.nextSubmit), k, driver.orders))
    {
      hide Sound, KeepsReservations, AtMostOnce, SubmitLeft, TakeableIfKnown;
      var decided := Authorize(k, accepted);
      if decided.Err? {
        return Err(decided.error);
      }
      if !decided.value {
        return Ok(CallResult(RiskRejected, None));
      }
      var failure := ReserveSubmission(k);
      if failure.Some? {
        return Err(failure.value);
      }
      assert db.orders == old(db.orders)[k := old(db.orders)[k].(status := Submitting, submitStarted := true)];
      r := SubmitReserved(k);
    }

    /** Records the risk decision and answers whether it let the order through. */
    method Authorize(k: OrderKey, accepted: bool) returns (r: Result<bool, SessionError>)
      requires Valid() && AtMostOnce(db.orders, driver.submitCalls, driver.cancelCalls)
      requires k in db.orders && db.orders[k].status == Created
      modifies db, clock
      ensures Valid() && AtMostOnce(db.orders, driver.submitCalls, driver.cancelCalls)
      ensures db.keys == old(db.keys) && old(clock.now) <= clock.now
      ensures r.Ok? ==>
                && r.value == accepted
                && db.orders == old(db.orders)[k := old(db.orders)[k].(status := if accepted then RiskAccepted
                                                                       else RiskRejected)]
      ensures r.Err? ==> db.orders == old(db.orders) && !Leads() && r.error != FlagViolation
    {
      hide Sound, Moves, AtMostOnce;
      ghost var o := db.orders[k];
      var target := if accepted then RiskAccepted else RiskRejected;
      RiskMoves(o, accepted);
      var decided := Move(k, target, None, Risk(accepted), o.(status := target));
      if decided.Err? {
        return Err(decided.error);
      }
      FirstCall(old(db.orders), db.orders, driver.submitCalls, driver.cancelCalls, k);
      r := Ok(decided.value.status != RiskRejected);
    }

    /** Stores the reservation, and checks the lease once more before the call. */
    method ReserveSubmission(k: OrderKey) returns (failure: Option<SessionError>)
      requires Valid() && AtMostOnce(db.orders, driver.submitCalls, driver.cancelCalls)
      requires k in db.orders && db.orders[k].status == RiskAccepted && !db.orders[k].submitStarted
      modifies db, clock
      ensures Valid() && AtMostOnce(db.orders, driver.submitCalls, driver.cancelCalls)
      ensures db.keys == old(db.keys) && old(clock.now) <= clock.now
      ensures failure.None? ==>
                && db.orders == old(db.orders)[k := old(db.orders)[k].(status := Submitting, submitStarted := true)]
                && driver.Submits(k) == 0
                && AtMostOnce(db.orders, driver.submitCalls[k := 1], driver.cancelCalls)
      ensures failure.Some? ==> !Leads() && failure.value != FlagViolation
    {
      hide Sound, AtMostOnce, OrderRows.PrepareSubmit;
      var now := clock.Read();
      ReserveKeepsSound(db.Stored(), k, false);
      AcceptedReserves(db.orders[k]);
      var reserved := repository.PrepareSubmit(k, now);
      if reserved.Err? {
        return Some(StoreRefused(reserved.error));
      }
      FirstCall(old(db.orders), db.orders, driver.submitCalls, driver.cancelCalls, k);
      var lost := AssertLeader();
      failure := if lost.Some? then Some(LeaseLost(lost.value)) else None;
    }

    /** The call itself and what it left behind; an order whose answer was lost stays UNKNOWN, accepted or not. */
    method SubmitReserved(k: OrderKey) returns (r: Result<CallResult, SessionError>)
      requires Valid() && k in db.orders && db.orders[k].status == Submitting && db.orders[k].submitStarted
      requires driver.Submits(k) == 0
      requires AtMostOnce(db.orders, driver.submitCalls[k := 1], driver.cancelCalls)
      modifies db, clock, driver
      ensures Valid() && AtMostOnce(db.orders, driver.submitCalls, driver.cancelCalls)
      ensures old(clock.now) <= clock.now
      ensures driver.cancelCalls == old(driver.cancelCalls) && driver.submitCalls == old(driver.submitCalls)[k := 1]
      ensures r.Ok? ==>
                && db.orders == old(db.orders)[k := db.orders[k]] && db.orders[k].submitStarted
                && driver.log == old(driver.log) + Questions(k, old(driver.nextSubmit) == NoFailure, driver.orders)
                && (k in driver.orders <==> k in old(driver.orders) || Reaches(old(driver.nextSubmit)))
                && (old(driver.nextSubmit) == NoFailure ==>
                      KnownId(driver.orders, k) == Some(SimulatedId(old(driver.sequence) + 1)))
                && SubmitLeft(old(db.orders)[k], db.orders[k], r.value, old(driver.nextSubmit) == NoFailure,
                              KnownAs(driver.orders, k),
                              Repeats(old(db.keys), session, "post-submit", k, KnownAs(driver.orders, k)))
      ensures Leads() && 0 < old(clock.now) ==>
                (r.Ok? <==> SubmitReturns(old(db.keys), old(db.orders)[k].(status := Reconciling),
                                          old(driver.nextSubmit), k, driver.orders))
    {
      hide Sound, KeepsReservations, AtMostOnce, SimulatedId, TakeableIfKnown, TookAnswer, Repeats, Held, Check;
      var outcome := driver.SubmitLimitOrder(k);
      var asked;
      r, asked := AfterCall(k, outcome, "post-submit");
    }

    /**
     * Reserves, and calls the broker's cancel at most once per order. A cancel
     * that returns leaves the order showing the broker's answer to the one
     * question asked after the call, with the cancel resolved; a call that
     * raised leaves it UNKNOWN with the cancel open.
     */
    method CancelOrder(k: OrderKey) returns (r: Result<CallResult, SessionError>)
      requires Valid() && AtMostOnce(db.orders, driver.submitCalls, driver.cancelCalls)
      modifies db, clock, driver
      ensures Valid() && AtMostOnce(db.orders, driver.submitCalls, driver.cancelCalls)
      ensures driver.submitCalls == old(driver.submitCalls)
      ensures driver.cancelCalls == old(driver.cancelCalls)
              || (old(reconciled) && k in old(db.orders) && !old(db.orders)[k].cancelStarted
                  && driver.cancelCalls == old(driver.cancelCalls)[k := 1])
      ensures r.Ok? ==>
                && k in old(db.orders) && k in db.orders && db.orders == old(db.orders)[k := db.orders[k]]
                && driver.cancelCalls == old(driver.cancelCalls)[k := 1]
                && var returned := CancelComesBack(old(driver.nextCancel), old(driver.orders), k);
                && driver.log == old(driver.log) + Questions(k, returned, driver.orders)
                && CancelLeft(old(db.orders)[k], db.orders[k], r.value, returned, KnownAs(driver.orders, k),
                              Repeats(old(db.keys), session, "post-cancel", k, KnownAs(driver.orders, k)))
      ensures Leads() && 0 < old(clock.now) ==>
                (r.Ok? <==>
                 && old(reconciled) && k in old(db.orders) && !old(db.orders)[k].cancelStarted
                 && old(db.orders)[k].status in {Acknowledged, PartiallyFilled}
                 && CancelReturns(old(db.keys), session, old(db.orders)[k], old(driver.nextCancel), old(driver.orders),
                                  k, driver.orders))
    {
      hide Sound, AtMostOnce, Transition, CancelLeft, TakeableIfKnown, Repeats, KnownAs, Check;
      var lost := AssertLeader();
      if lost.Some? {
        return Err(LeaseLost(lost.value));
      }
      if !reconciled {
        return Err(NotReconciled);
      }
      var now := clock.Read();
      if k in db.orders {
        ReserveKeepsSound(db.Stored(), k, true);
        CancelReserves(db.orders[k]);
      }
      var reserved := repository.PrepareCancel(k, now);
      if reserved.Err? {
        return Err(StoreRefused(reserved.error));
      }
      FirstCall(old(db.orders), db.orders, driver.submitCalls, driver.cancelCalls, k);
      lost := AssertLeader();
      if lost.Some? {
        return Err(LeaseLost(lost.value));
      }
      r := CancelReserved(k, old(db.orders)[k]);
    }

    /** The call itself, what it left behind, and the write that closes the cancel. */
    method CancelReserved(k: OrderKey, ghost o: Order) returns (r: Result<CallResult, SessionError>)
      requires Valid() && k in db.orders
      requires db.orders[k] == o.(status := CancelPending, cancelStarted := true, cancelResolved := false)
      requires driver.Cancels(k) == 0
      requires AtMostOnce(db.orders, driver.submitCalls, driver.cancelCalls[k := 1])
      modifies db, clock, driver
      ensures Valid() && AtMostOnce(db.orders, driver.submitCalls, driver.cancelCalls)
      ensures driver.submitCalls == old(driver.submitCalls) && driver.cancelCalls == old(driver.cancelCalls)[k := 1]
      ensures r.Ok? ==>
                && k in db.orders && db.orders == old(db.orders)[k := db.orders[k]]
                && var returned := CancelComesBack(old(driver.nextCancel), old(driver.orders), k);
                && driver.log == old(driver.log) + Questions(k, returned, driver.orders)
                && CancelLeft(o, db.orders[k], r.value, returned, KnownAs(driver.orders, k),
                              Repeats(old(db.keys), session, "post-cancel", k, KnownAs(driver.orders, k)))
      ensures Leads() && 0 < old(clock.now) ==>
                (r.Ok? <==> CancelReturns(old(db.keys), session, o, old(driver.nextCancel), old(driver.orders), k,
                                          driver.orders))
    {
      hide Sound, AtMostOnce, TakeableIfKnown, CallLeft, CancelLeft, Repeats, Check, Held, CancelReturns;
      hide CancelComesBack;
      var outcome := driver.CancelOrder(k);
      var asked;
      r, asked := AfterCall(k, outcome, "post-cancel");
      CancelReturnsByOutcome(old(db.keys), session, o, old(driver.nextCancel), old(driver.orders), k, driver.orders,
                             outcome);
      if r.Err? {
        return;
      }
      CallThenCancel(o, db.orders[k], asked, KnownAs(driver.orders, k),
                     Repeats(old(db.keys), session, "post-cancel", k, KnownAs(driver.orders, k)));
      if asked {
        ghost var answered := clock.now;
        var failure := CloseCancel(k, r.value.status);
        HeldBefore(db.leader.row, repository.lease, answered, clock.now);
        if failure.Some? {
          return Err(failure.value);
        }
      }
    }

    /** The cancel's outcome is known: the status stays, the cancel counts as resolved. */
    method CloseCancel(k: OrderKey, status: Status) returns (failure: Option<SessionError>)
      requires Valid() && AtMostOnce(db.orders, driver.submitCalls, driver.cancelCalls)
      requires k in db.orders && db.orders[k].status == status != CancelPending
      modifies db, clock
      ensures Valid() && AtMostOnce(db.orders, driver.submitCalls, driver.cancelCalls)
      ensures db.keys == old(db.keys) && old(clock.now) <= clock.now
      ensures failure.None? ==> db.orders == old(db.orders)[k := old(db.orders)[k].(cancelResolved := true)]
      ensures failure.Some? ==> !Leads() && failure.value != FlagViolation
    {
      hide Sound, Moves, AtMostOnce;
      MovesNowhere(db.orders[k]);
      var resolved := Move(k, status, Some(true), SameStatus(Some(true)), db.orders[k].(cancelResolved := true));
      FirstCall(old(db.orders), db.orders, driver.submitCalls, driver.cancelCalls, k);
      failure := if resolved.Err? then Some(resolved.error) else None;
    }
  }
}
