/**
 * The normalized broker fact and its identity (oms/broker_evidence_v1.py).
 * Digests are taken to be injective, so a digest is the tuple it hashes.
 */
module BrokerEvidence {
  import opened Basics
  import opened OrderLifecycle

  datatype SourceKind = OrderCallback | DealCallback | ActiveOrderQuery | ActiveDealQuery

  datatype EvidenceType = OrderAccepted | PartialFill | FullFill | OrderCancelled | OrderRejected

  datatype OrderKey = OrderKey(account: string, clientOrderId: string)

  datatype RawStatus = RawStatus(orderStatus: Option<int>, submitStatus: Option<int>)

  datatype Route = Route(accountType: string, accountFingerprint: string)

  datatype Evidence = Evidence(
    source: string,
    sourceKind: SourceKind,
    eventId: string,
    profile: string,
    account: string,
    clientOrderId: string,
    brokerToken: Option<string>,
    brokerOrderId: Option<string>,
    orderRef: Option<string>,
    tradeId: Option<string>,
    kind: EvidenceType,
    requested: Status,
    filled: int,
    observedAt: int,
    rawRef: string,
    rawStatus: Option<RawStatus>,
    route: Option<Route>)

  /** The semantic fact: everything but the transport and audit fields. */
  datatype Digest = Digest(
    source: string,
    sourceKind: SourceKind,
    profile: string,
    account: string,
    clientOrderId: string,
    brokerToken: Option<string>,
    brokerOrderId: Option<string>,
    orderRef: Option<string>,
    tradeId: Option<string>,
    kind: EvidenceType,
    requested: Status,
    filled: int,
    rawStatus: Option<RawStatus>,
    route: Option<Route>)

  datatype Fingerprint = Fingerprint(source: string, account: string, eventId: string, digest: Digest)

  function StatusOf(kind: EvidenceType): Status {
    match kind
    case OrderAccepted => Acknowledged
    case PartialFill => PartiallyFilled
    case FullFill => Filled
    case OrderCancelled => Cancelled
    case OrderRejected => Rejected
  }

  predicate NonEmpty(o: Option<string>) { o.None? || o.value != "" }

  /** What the constructor accepts, apart from text lengths and character sets. */
  predicate ValidEvidence(e: Evidence) {
    && e.source != "" && e.eventId != "" && e.profile != "" && e.clientOrderId != "" && e.rawRef != ""
    && NonEmpty(e.brokerToken) && NonEmpty(e.brokerOrderId) && NonEmpty(e.orderRef) && NonEmpty(e.tradeId)
    && 0 <= e.filled
    && 0 < e.observedAt
    && (e.route.Some? ==> e.route.value.accountType in {"STOCK", "HUGANGTONG", "SHENGANGTONG"})
    && e.requested == StatusOf(e.kind)
    && (e.sourceKind in {DealCallback, ActiveDealQuery} ==> e.kind in {PartialFill, FullFill})
    && (e.sourceKind == DealCallback ==> e.tradeId.Some?)
    && match e.kind
       case OrderAccepted => e.brokerOrderId.Some? && e.filled == 0
       case PartialFill | FullFill => e.brokerOrderId.Some? && 0 < e.filled
       case OrderCancelled => e.brokerOrderId.Some?
       case OrderRejected => e.filled == 0
  }

  function DigestOf(e: Evidence): Digest {
    Digest(e.source, e.sourceKind, e.profile, e.account, e.clientOrderId, e.brokerToken, e.brokerOrderId,
           e.orderRef, e.tradeId, e.kind, e.requested, e.filled, e.rawStatus, e.route)
  }

  function FingerprintOf(e: Evidence): Fingerprint {
    Fingerprint(e.source, e.account, e.eventId, DigestOf(e))
  }

  function KeyOf(e: Evidence): OrderKey { OrderKey(e.account, e.clientOrderId) }

  /** The order a stored fingerprint speaks about. */
  function OrderOf(f: Fingerprint): OrderKey { OrderKey(f.digest.account, f.digest.clientOrderId) }

  /** One delivered source event: same source, account and event id. */
  predicate SameIdentity(f: Fingerprint, g: Fingerprint) {
    f.source == g.source && f.account == g.account && f.eventId == g.eventId
  }

  lemma IdentityIsReflexive(f: Fingerprint)
    ensures SameIdentity(f, f)
  {
  }
}
