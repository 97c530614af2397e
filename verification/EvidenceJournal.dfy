/**
 * The evidence journal as a pure transaction over the order table, the key
 * table and the observation log (oms/evidence.py), with the invariant that
 * every history of transactions keeps.
 */
module EvidenceJournal {
  import opened Basics
  import opened OrderLifecycle
  import opened OrderRows
  import opened BrokerEvidence

  datatype Classification = New | Duplicate | SemanticDuplicate | Conflicting | ConflictDuplicate

  datatype ConflictReason =
    | EventIdReused
    | IdMismatch
    | TerminalFact
    | FillConflict(why: FillError)
    | IllegalEvidence

  datatype KeyRow = KeyRow(accepted: bool, disposition: Option<Disposition>, reason: Option<ConflictReason>)

  datatype Observation = Observation(e: Evidence, tag: Classification)

  datatype Journal = Journal(
    orders: map<OrderKey, Order>,
    keys: map<Fingerprint, KeyRow>,
    observations: seq<Observation>)

  datatype Answer =
    | Ingested(status: Status, disposition: Disposition, duplicate: bool)
    | Conflicted(why: ConflictReason)
    | RolledBack

  const AcceptedClasses := {New, Duplicate, SemanticDuplicate}

  // ------------------------------------------------------------------ one transaction

  /** The event id is already stored for another semantic digest. */
  predicate Clashes(f: Fingerprint, e: Evidence) {
    SameIdentity(f, FingerprintOf(e)) && f != FingerprintOf(e)
  }

  ghost predicate EventIdTaken(j: Journal, e: Evidence) {
    exists f :: f in j.keys && Clashes(f, e)
  }

  function Coalesce(o: Option<string>): string { if o.Some? then o.value else "" }

  /** The columns the cross-transport duplicate query compares. */
  predicate SameFact(a: Evidence, b: Evidence) {
    && KeyOf(a) == KeyOf(b)
    && a.kind == b.kind && a.requested == b.requested && a.filled == b.filled
    && Coalesce(a.brokerOrderId) == Coalesce(b.brokerOrderId)
    && Coalesce(a.tradeId) == Coalesce(b.tradeId)
    && Coalesce(a.brokerToken) == Coalesce(b.brokerToken)
  }

  predicate MovesStatus(current: Status, requested: Status) {
    var t := Transition(current, requested);
    t.Err? || t.value.Changed()
  }

  predicate Suppressed(j: Journal, e: Evidence)
    requires KeyOf(e) in j.orders
  {
    && !MovesStatus(j.orders[KeyOf(e)].status, e.requested)
    && exists ob :: ob in j.observations && ob.tag in AcceptedClasses && SameFact(ob.e, e)
  }

  /** The order of the first observation with this fingerprint. */
  function FirstOrder(obs: seq<Observation>, f: Fingerprint): Option<OrderKey> {
    if obs == [] then None
    else if FingerprintOf(obs[0].e) == f then Some(KeyOf(obs[0].e))
    else FirstOrder(obs[1..], f)
  }

  function ReasonFor(err: RowError): ConflictReason {
    match err
    case BrokerIdMismatch => IdMismatch
    case LifecycleConflict => TerminalFact
    case InvalidFill(why) => FillConflict(why)
    case _ => IllegalEvidence
  }

  function Record(j: Journal, e: Evidence, tag: Classification): Journal {
    j.(observations := j.observations + [Observation(e, tag)])
  }

  function PutKey(j: Journal, e: Evidence, row: KeyRow): Journal {
    j.(keys := j.keys[FingerprintOf(e) := row])
  }

  function PutOrder(j: Journal, k: OrderKey, o: Order): Journal {
    j.(orders := j.orders[k := o])
  }

  function SentToReview(o: Order): Order { o.(status := ManualReview) }

  function IngestReused(j: Journal, e: Evidence, f: Fingerprint): (Journal, Answer)
    requires KeyOf(e) in j.orders
  {
    var original := FirstOrder(j.observations, f);
    if original.Some? && original.value !in j.orders then (j, RolledBack)
    else
      var j1 := Record(j, e, Conflicting);
      var j2 := if original.Some? then PutOrder(j1, original.value, SentToReview(j1.orders[original.value])) else j1;
      var j3 := if original != Some(KeyOf(e)) then PutOrder(j2, KeyOf(e), SentToReview(j2.orders[KeyOf(e)])) else j2;
      (j3, Conflicted(EventIdReused))
  }

  function IngestReplay(j: Journal, e: Evidence): (Journal, Answer)
    requires KeyOf(e) in j.orders && FingerprintOf(e) in j.keys
  {
    var row := j.keys[FingerprintOf(e)];
    if row.accepted then
      (Record(j, e, Duplicate),
       Ingested(j.orders[KeyOf(e)].status,
                if row.disposition.Some? then row.disposition.value else DuplicateIgnored, true))
    else
      (Record(j, e, ConflictDuplicate), Conflicted(if row.reason.Some? then row.reason.value else IllegalEvidence))
  }

  function IngestSuppressed(j: Journal, e: Evidence): (Journal, Answer)
    requires KeyOf(e) in j.orders
  {
    (Record(PutKey(j, e, KeyRow(true, Some(DuplicateIgnored), None)), e, SemanticDuplicate),
     Ingested(j.orders[KeyOf(e)].status, DuplicateIgnored, true))
  }

  function IngestMerged(j: Journal, e: Evidence): (Journal, Answer)
    requires KeyOf(e) in j.orders
  {
    var o := j.orders[KeyOf(e)];
    match MergeFact(o, e.requested, e.brokerOrderId, e.filled)
    case Ok((p, outcome)) =>
      (Record(PutKey(PutOrder(j, KeyOf(e), p), e, KeyRow(true, Some(outcome.disposition), None)), e, New),
       Ingested(outcome.current, outcome.disposition, false))
    case Err(err) =>
      match MarkConflict(o, if err == LifecycleConflict then Some(e.filled) else None)
      case Err(_) => (j, RolledBack)
      case Ok(p) =>
        (Record(PutKey(PutOrder(j, KeyOf(e), p), e, KeyRow(false, None, Some(ReasonFor(err)))), e, Conflicting),
         Conflicted(ReasonFor(err)))
  }

  /** One committed or rolled-back ingest transaction. */
  ghost function Ingest(j: Journal, e: Evidence): (Journal, Answer) {
    if KeyOf(e) !in j.orders then (j, RolledBack)
    else if EventIdTaken(j, e) then
      var f :| f in j.keys && Clashes(f, e);
      IngestReused(j, e, f)
    else if FingerprintOf(e) in j.keys then IngestReplay(j, e)
    else if Suppressed(j, e) then IngestSuppressed(j, e)
    else IngestMerged(j, e)
  }

  // ----------------------------------------------------------------------- invariant

  predicate Accepted(ob: Observation) { ob.tag in AcceptedClasses }

  /** A fact recorded as contradicting the broker's own terminal state. */
  predicate TerminalConflict(j: Journal, ob: Observation) {
    && !Accepted(ob)
    && FingerprintOf(ob.e) in j.keys
    && j.keys[FingerprintOf(ob.e)].reason == Some(TerminalFact)
  }

  /** Observations whose fill the order row must account for. */
  predicate Counted(j: Journal, ob: Observation) {
    Accepted(ob) || TerminalConflict(j, ob)
  }

  /** What an accepted fact leaves visible in its order's row forever. */
  predicate Holds(o: Order, e: Evidence) {
    && e.filled <= o.filled
    && (e.brokerOrderId.Some? ==> o.brokerId == e.brokerOrderId)
    && (IsBrokerTerminal(e.requested) ==> o.status in {e.requested, ManualReview})
    && (e.filled == o.quantity ==> o.status in {Filled, ManualReview})
  }

  predicate Reflected(j: Journal, ob: Observation)
    requires KeyOf(ob.e) in j.orders
  {
    var o := j.orders[KeyOf(ob.e)];
    if Accepted(ob) then
      && Holds(o, ob.e)
      && FingerprintOf(ob.e) in j.keys && j.keys[FingerprintOf(ob.e)].accepted
    else
      && o.status == ManualReview
      && (TerminalConflict(j, ob) ==> ob.e.filled <= o.filled)
  }

  ghost predicate OrdersCoupled(j: Journal) {
    forall k :: k in j.orders ==> Coupled(j.orders[k])
  }

  ghost predicate EventIdKeyed(j: Journal, e: Evidence) {
    exists f :: f in j.keys && SameIdentity(f, FingerprintOf(e))
  }

  ghost predicate ObservationsReflected(j: Journal) {
    forall ob :: ob in j.observations ==>
      && ValidEvidence(ob.e)
      && KeyOf(ob.e) in j.orders
      && Reflected(j, ob)
      && EventIdKeyed(j, ob.e)
  }

  ghost predicate EventIdsUnique(j: Journal) {
    forall f, g :: f in j.keys && g in j.keys && SameIdentity(f, g) ==> f == g
  }

  ghost predicate KeyObserved(j: Journal, f: Fingerprint)
    requires f in j.keys
  {
    exists ob :: ob in j.observations && FingerprintOf(ob.e) == f && (j.keys[f].accepted ==> Accepted(ob))
  }

  ghost predicate KeysObserved(j: Journal) {
    forall f :: f in j.keys ==>
      && KeyObserved(j, f)
      && (!j.keys[f].accepted ==> OrderOf(f) in j.orders && j.orders[OrderOf(f)].status == ManualReview)
  }

  /** Both orders named by a reused event id are in manual review. */
  ghost predicate ReuseReviewed(j: Journal) {
    forall ob, f :: ob in j.observations && f in j.keys && Clashes(f, ob.e) ==>
      && OrderOf(f) in j.orders && j.orders[OrderOf(f)].status == ManualReview
  }

  ghost predicate FillWitnessed(j: Journal, k: OrderKey)
    requires k in j.orders
  {
    exists ob :: ob in j.observations && KeyOf(ob.e) == k && Counted(j, ob) && ob.e.filled == j.orders[k].filled
  }

  ghost predicate StatusWitnessed(j: Journal, k: OrderKey)
    requires k in j.orders
  {
    exists ob :: ob in j.observations && KeyOf(ob.e) == k && Accepted(ob) && ob.e.requested == j.orders[k].status
  }

  ghost predicate FillsWitnessed(j: Journal) {
    forall k :: k in j.orders && j.orders[k].filled != 0 ==> FillWitnessed(j, k)
  }

  ghost predicate StatusesWitnessed(j: Journal) {
    forall k :: k in j.orders && j.orders[k].status in {Acknowledged, Cancelled, Rejected} ==> StatusWitnessed(j, k)
  }

  ghost predicate Sound(j: Journal) {
    && OrdersCoupled(j)
    && ObservationsReflected(j)
    && EventIdsUnique(j)
    && KeysObserved(j)
    && ReuseReviewed(j)
    && FillsWitnessed(j)
    && StatusesWitnessed(j)
  }
}
