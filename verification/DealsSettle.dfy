/**
 * Deals from the raw row to the order table: the facts the accumulator emits
 * for an order's deals (qmt/guojin_evidence.py), built into evidence and taken
 * in by the journal, settle the order the same way whatever order the deals
 * and then the evidence arrived in.
 */
module DealsSettle {
  import opened Basics
  import opened OrderLifecycle
  import opened OrderRows
  import opened BrokerEvidence
  import opened EvidenceJournal
  import opened JournalHistory
  import JournalTheorems
  import opened DealMapper
  import Convergence

  /** The mapper profile's source and name. */
  datatype Labels = Labels(source: string, name: string)

  /** One deal row with the event it came in; the event id names the event and the row's place in it. */
  datatype Arrival = Arrival(row: RawRow, eventId: string, at: int, ref: string, orderRef: Option<string>)

  /** Stands for the digest that names an order to the broker. */
  function TokenText(t: Token): string { t.account + ":" + t.clientOrderId }

  function KeyFor(t: Token): OrderKey { OrderKey(t.account, t.clientOrderId) }

  function RouteOf(row: RawRow): Option<Route> {
    if row.activeQuery && row.routeType.Some? && row.routeFingerprint.Some?
    then Some(Route(row.routeType.value, row.routeFingerprint.value))
    else None
  }

  function Build(labels: Labels, a: Arrival, f: Fact): Evidence {
    Evidence(labels.source, if a.row.activeQuery then ActiveDealQuery else DealCallback, a.eventId, labels.name,
             f.token.account, f.token.clientOrderId, Some(TokenText(f.token)), f.brokerOrderId, a.orderRef, f.tradeId,
             f.kind, StatusOf(f.kind), f.filled, a.at, a.ref, None, RouteOf(a.row))
  }

  /** Texts a row or an event carries are never empty: an empty one counts as absent. */
  predicate WellFormed(labels: Labels, a: Arrival) {
    && labels.source != "" && labels.name != "" && a.eventId != "" && a.ref != "" && 0 < a.at
    && NonEmpty(a.row.brokerOrderId) && NonEmpty(a.row.tradeId) && NonEmpty(a.orderRef)
  }

  function Items(arrivals: seq<Arrival>): seq<Item> {
    if arrivals == [] then []
    else Items(arrivals[..|arrivals| - 1]) + [Item(true, arrivals[|arrivals| - 1].row)]
  }

  /** The evidence a stream of deals emits for one order, in order. */
  ghost function EvidenceFor(labels: Labels, profile: Profile, s: MapperState, arrivals: seq<Arrival>,
                             t: Token): seq<Evidence>
    decreases |arrivals|
  {
    if arrivals == [] then []
    else
      var before, last := arrivals[..|arrivals| - 1], arrivals[|arrivals| - 1];
      var r := AcceptRow(profile, RunRows(profile, s, Items(before)), true, last.row).1;
      EvidenceFor(labels, profile, s, before, t)
      + (if r.Ok? && r.value.token == t then [Build(labels, last, r.value)] else [])
  }

  // -------------------------------------------------------------------- the evidence

  /** A deal's evidence about one order: a running total, full exactly at the order's quantity. */
  predicate DealEvidence(labels: Labels, e: Evidence, t: Token, quantity: int, brokerId: string) {
    && ValidEvidence(e) && KeyOf(e) == KeyFor(t) && e.source == labels.source && e.brokerOrderId == Some(brokerId)
    && e.kind in {PartialFill, FullFill} && 0 < e.filled <= quantity && (e.kind == FullFill <==> e.filled == quantity)
  }

  predicate FromEvent(arrivals: seq<Arrival>, eventId: string) {
    exists a :: a in arrivals && a.eventId == eventId
  }

  /** The evidence emitted so far: running totals of one order, the last of them its total now. */
  ghost predicate Reported(labels: Labels, arrivals: seq<Arrival>, es: seq<Evidence>, t: Token, quantity: int,
                           brokerId: string, total: int) {
    && (forall e :: e in es ==>
          DealEvidence(labels, e, t, quantity, brokerId) && e.filled <= total && FromEvent(arrivals, e.eventId))
    && (es != [] ==> es[|es| - 1].filled == total)
    && (forall a, b :: a in es && b in es && a.eventId == b.eventId ==> a == b)
  }

  predicate DistinctEvents(arrivals: seq<Arrival>) {
    forall i, j :: 0 <= i < j < |arrivals| ==> arrivals[i].eventId != arrivals[j].eventId
  }

  lemma ReportedSilently(labels: Labels, arrivals: seq<Arrival>, es: seq<Evidence>, t: Token, quantity: int,
                         brokerId: string, total: int, a: Arrival)
    requires Reported(labels, arrivals, es, t, quantity, brokerId, total)
    ensures Reported(labels, arrivals + [a], es, t, quantity, brokerId, total)
  {
    hide DealEvidence;
    forall e | e in es ensures FromEvent(arrivals + [a], e.eventId) {
      var x :| x in arrivals && x.eventId == e.eventId;
      assert x in arrivals + [a];
    }
  }

  lemma ReportedOnce(labels: Labels, arrivals: seq<Arrival>, es: seq<Evidence>, t: Token, quantity: int,
                     brokerId: string, was: int, total: int, a: Arrival, e: Evidence)
    requires Reported(labels, arrivals, es, t, quantity, brokerId, was) && was <= total
    requires DealEvidence(labels, e, t, quantity, brokerId) && e.filled == total
    requires e.eventId == a.eventId && !FromEvent(arrivals, a.eventId)
    ensures Reported(labels, arrivals + [a], es + [e], t, quantity, brokerId, total)
  {
    hide DealEvidence;
    assert a in arrivals + [a];
    forall x | x in es ensures FromEvent(arrivals + [a], x.eventId) && x.eventId != e.eventId {
      var b :| b in arrivals && b.eventId == x.eventId;
      assert b in arrivals + [a];
    }
  }

  // --------------------------------------------------------------------- one arrival

  /** A deal that fits, or one that no state reached from here accepts. */
  ghost predicate Expected(profile: Profile, s: MapperState, rows: set<RawRow>, a: Arrival) {
    a.row in rows || Hopeless(profile, s, a.row)
  }

  lemma BuiltIsValid(labels: Labels, profile: Profile, n: MapperState, a: Arrival, t: Token)
    requires Consistent(n) && WellFormed(labels, a) && t.clientOrderId != ""
    requires var r := AcceptRow(profile, n, true, a.row).1; r.Ok? && r.value.token == t
    ensures ValidEvidence(Build(labels, a, AcceptRow(profile, n, true, a.row).1.value))
  {
    DealFactReportsTotal(profile, n, a.row);
    hide Consistent, Total, Bound;
    assert Identify(profile, n.orders, a.row).Ok?;
  }

  /** What one more fitting deal emits, and how it moves an order's total. */
  lemma FittingArrival(labels: Labels, profile: Profile, s: MapperState, n: MapperState, rows: set<RawRow>,
                       items: seq<Item>, a: Arrival, all: map<TradeKey, int>, ids: map<Token, string>, t: Token)
    requires FitTogether(profile, s, rows, all, ids) && Recorded(s, n, rows, items, all, ids) && Consistent(n)
    requires a.row in rows && WellFormed(labels, a) && t in s.orders && t.clientOrderId != ""
    ensures var (p, r) := AcceptRow(profile, n, true, a.row);
            && r.Ok? && a.row.token == Some(r.value.token)
            && (r.value.token != t ==> Total(p.trades, t) == Total(n.trades, t))
            && Total(n.trades, t) <= Total(p.trades, t)
            && (r.value.token == t ==>
                  && t in ids && r.value.filled == Total(p.trades, t)
                  && DealEvidence(labels, Build(labels, a, r.value), t, s.orders[t].quantity, ids[t]))
  {
    hide Total, AcceptRow, Identify;
    FittingDealIsAccepted(profile, s, n, rows, items, Item(true, a.row), all, ids);
    var (p, r) := AcceptRow(profile, n, true, a.row);
    DealFactReportsTotal(profile, n, a.row);
    RowKeepsConsistent(profile, n, true, a.row);
    TotalOfSubset(n.trades, p.trades, t);
    if r.value.token == t {
      BuiltIsValid(labels, profile, n, a, t);
    }
  }

  lemma HopelessArrival(profile: Profile, s: MapperState, n: MapperState, rows: set<RawRow>, items: seq<Item>,
                        a: Arrival, all: map<TradeKey, int>, ids: map<Token, string>)
    requires FitTogether(profile, s, rows, all, ids) && Recorded(s, n, rows, items, all, ids)
    requires a.row !in rows && Expected(profile, s, rows, a)
    ensures AcceptRow(profile, n, true, a.row).1.Err? && AcceptRow(profile, n, true, a.row).0 == n
  {
    hide AcceptRow, FitTogether, Recorded, Hopeless;
    HopelessStaysRejected(profile, s, n, rows, items, a.row, all, ids);
  }

  // ------------------------------------------------------------------- whole streams

  lemma {:induction false} ItemsAreDeals(arrivals: seq<Arrival>)
    ensures forall item :: item in Items(arrivals) ==> item.deal && exists a :: a in arrivals && item.row == a.row
    ensures forall a :: a in arrivals ==> Item(true, a.row) in Items(arrivals)
    decreases |arrivals|
  {
    if arrivals != [] {
      var before := arrivals[..|arrivals| - 1];
      ItemsAreDeals(before);
      assert forall a :: a in arrivals <==> a in before || a == arrivals[|arrivals| - 1];
    }
  }

  lemma StreamIsCompatible(profile: Profile, s: MapperState, rows: set<RawRow>, arrivals: seq<Arrival>,
                           ids: map<Token, string>)
    requires forall a :: a in arrivals ==> Expected(profile, s, rows, a)
    ensures forall item :: item in Items(arrivals) ==> Compatible(profile, s, rows, ids, item)
  {
    hide Hopeless, Identify, Items;
    ItemsAreDeals(arrivals);
  }

  ghost predicate HasDealOf(arrivals: seq<Arrival>, rows: set<RawRow>, t: Token) {
    exists a :: a in arrivals && a.row in rows && a.row.token == Some(t)
  }

  /** What a stream asks of its environment. */
  ghost predicate Stream(labels: Labels, profile: Profile, s: MapperState, rows: set<RawRow>, arrivals: seq<Arrival>) {
    && DistinctEvents(arrivals)
    && (forall a :: a in arrivals ==> WellFormed(labels, a) && Expected(profile, s, rows, a))
  }

  lemma StreamPrefix(labels: Labels, profile: Profile, s: MapperState, rows: set<RawRow>, before: seq<Arrival>,
                     a: Arrival)
    requires Stream(labels, profile, s, rows, before + [a])
    ensures Stream(labels, profile, s, rows, before) && !FromEvent(before, a.eventId)
    ensures WellFormed(labels, a) && Expected(profile, s, rows, a)
  {
    hide WellFormed, Expected;
    var arrivals := before + [a];
    assert arrivals[|before|] == a;
    assert forall x :: x in before ==> x in arrivals;
    assert forall i :: 0 <= i < |before| ==> arrivals[i] == before[i];
  }

  lemma OneMoreArrival(labels: Labels, profile: Profile, s: MapperState, before: seq<Arrival>, a: Arrival, t: Token)
    ensures var n := RunRows(profile, s, Items(before));
            var (p, r) := AcceptRow(profile, n, true, a.row);
            && RunRows(profile, s, Items(before + [a])) == p
            && EvidenceFor(labels, profile, s, before + [a], t)
               == EvidenceFor(labels, profile, s, before, t) + (if r.Ok? && r.value.token == t
                                                                then [Build(labels, a, r.value)] else [])
  {
    hide AcceptRow, Build;
    assert (before + [a])[..|before|] == before;
    var items := Items(before + [a]);
    assert items[..|items| - 1] == Items(before);
  }

  /** The evidence of a stream is the order's running totals, ending with its total now. */
  lemma {:induction false} StreamIsReported(labels: Labels, profile: Profile, s: MapperState, rows: set<RawRow>,
                                            arrivals: seq<Arrival>, all: map<TradeKey, int>, ids: map<Token, string>,
                                            t: Token)
    requires FitTogether(profile, s, rows, all, ids) && Consistent(s) && Stream(labels, profile, s, rows, arrivals)
    requires t in s.orders && t in ids && t.clientOrderId != ""
    ensures Reported(labels, arrivals, EvidenceFor(labels, profile, s, arrivals, t), t, s.orders[t].quantity, ids[t],
                     Total(RunRows(profile, s, Items(arrivals)).trades, t))
    ensures HasDealOf(arrivals, rows, t) ==> EvidenceFor(labels, profile, s, arrivals, t) != []
    decreases |arrivals|
  {
    if arrivals == [] {
    } else {
      var before, a := arrivals[..|arrivals| - 1], arrivals[|arrivals| - 1];
      assert arrivals == before + [a];
      hide FitTogether, Consistent, Recorded, Reported, AcceptRow, RunRows, EvidenceFor, Items, Total;
      hide Stream, DealEvidence, WellFormed, Expected, Compatible, Build, FromEvent;
      StreamPrefix(labels, profile, s, rows, before, a);
      StreamIsReported(labels, profile, s, rows, before, all, ids, t);
      OneMoreArrival(labels, profile, s, before, a, t);
      ArrivalIsReported(labels, profile, s, rows, before, a, all, ids, t);
    }
  }

  lemma StreamReaches(labels: Labels, profile: Profile, s: MapperState, rows: set<RawRow>, arrivals: seq<Arrival>,
                      all: map<TradeKey, int>, ids: map<Token, string>)
    requires FitTogether(profile, s, rows, all, ids) && Consistent(s) && Stream(labels, profile, s, rows, arrivals)
    ensures Recorded(s, RunRows(profile, s, Items(arrivals)), rows, Items(arrivals), all, ids)
    ensures Consistent(RunRows(profile, s, Items(arrivals)))
  {
    hide FitTogether, Consistent, Recorded, RunRows, Items, WellFormed, Expected, Compatible, Extends, DistinctEvents;
    StreamIsCompatible(profile, s, rows, arrivals, ids);
    CompatibleStreamIsRecorded(profile, s, rows, Items(arrivals), all, ids);
    StreamKeepsConsistent(profile, s, Items(arrivals));
  }

  lemma ArrivalIsReported(labels: Labels, profile: Profile, s: MapperState, rows: set<RawRow>, before: seq<Arrival>,
                          a: Arrival, all: map<TradeKey, int>, ids: map<Token, string>, t: Token)
    requires FitTogether(profile, s, rows, all, ids) && Consistent(s) && Stream(labels, profile, s, rows, before)
    requires WellFormed(labels, a) && Expected(profile, s, rows, a) && !FromEvent(before, a.eventId)
    requires t in s.orders && t in ids && t.clientOrderId != ""
    requires var es, n := EvidenceFor(labels, profile, s, before, t), RunRows(profile, s, Items(before));
             && Reported(labels, before, es, t, s.orders[t].quantity, ids[t], Total(n.trades, t))
             && (HasDealOf(before, rows, t) ==> es != [])
    ensures var es, n := EvidenceFor(labels, profile, s, before, t), RunRows(profile, s, Items(before));
            var (p, r) := AcceptRow(profile, n, true, a.row);
            var more := if r.Ok? && r.value.token == t then [Build(labels, a, r.value)] else [];
            && Reported(labels, before + [a], es + more, t, s.orders[t].quantity, ids[t], Total(p.trades, t))
            && (HasDealOf(before + [a], rows, t) ==> es + more != [])
  {
    hide FitTogether, Consistent, Recorded, Reported, AcceptRow, RunRows, EvidenceFor, Items, Total;
    hide Stream, DealEvidence, WellFormed, Expected, FromEvent;
    StreamReaches(labels, profile, s, rows, before, all, ids);
    var es, n := EvidenceFor(labels, profile, s, before, t), RunRows(profile, s, Items(before));
    var (p, r) := AcceptRow(profile, n, true, a.row);
    assert es + [] == es;
    if a.row in rows {
      FittingArrival(labels, profile, s, n, rows, Items(before), a, all, ids, t);
      if r.value.token == t {
        ReportedOnce(labels, before, es, t, s.orders[t].quantity, ids[t], Total(n.trades, t), Total(p.trades, t), a,
                     Build(labels, a, r.value));
      } else {
        ReportedSilently(labels, before, es, t, s.orders[t].quantity, ids[t], Total(n.trades, t), a);
      }
    } else {
      HopelessArrival(profile, s, n, rows, Items(before), a, all, ids);
      ReportedSilently(labels, before, es, t, s.orders[t].quantity, ids[t], Total(n.trades, t), a);
    }
  }

  // ---------------------------------------------------------------- into the journal

  lemma ReportedIsCoherent(labels: Labels, arrivals: seq<Arrival>, es: seq<Evidence>, t: Token, quantity: int,
                           brokerId: string, total: int)
    requires Reported(labels, arrivals, es, t, quantity, brokerId, total)
    ensures Convergence.Coherent(Convergence.FactsIn(es), KeyFor(t), quantity, brokerId)
  {
    hide FromEvent, ValidEvidence;
    forall a, b | a in es && b in es ensures Convergence.Agree(a, b, quantity) {
      assert DealEvidence(labels, a, t, quantity, brokerId) && DealEvidence(labels, b, t, quantity, brokerId);
    }
  }

  /** No stored key names one of these events. */
  ghost predicate Unseen(j: Journal, es: set<Evidence>) {
    forall f, e :: f in j.keys && e in es ==> !SameIdentity(f, FingerprintOf(e))
  }

  lemma UnseenIsEffective(j: Journal, es: set<Evidence>)
    requires Unseen(j, es)
    ensures Convergence.Effective(j, es) == es && forall e :: e in es ==> !EventIdTaken(j, e)
  {
    hide FingerprintOf;
    forall e | e in es ensures FingerprintOf(e) !in j.keys {
      IdentityIsReflexive(FingerprintOf(e));
    }
  }

  /** Where running totals settle an order. */
  lemma TotalsSettle(labels: Labels, arrivals: seq<Arrival>, es: seq<Evidence>, t: Token, brokerId: string, total: int,
                     o: Order, start: Status)
    requires Reported(labels, arrivals, es, t, o.quantity, brokerId, total) && es != []
    requires Convergence.Settled(o, Convergence.FactsIn(es), start)
    ensures o.filled == total && o.status == if total == o.quantity then Filled else PartiallyFilled
  {
    hide FromEvent, ValidEvidence;
    var facts, last := Convergence.FactsIn(es), es[|es| - 1];
    assert last in facts && facts != {};
    forall e | e in facts ensures Convergence.TerminalOf(e, o.quantity) == if e.filled == o.quantity then Some(Filled)
      else None {
      assert DealEvidence(labels, e, t, o.quantity, brokerId);
    }
    assert DealEvidence(labels, last, t, o.quantity, brokerId);
    if total == o.quantity {
      assert Convergence.AssertsEnd(facts, last, o.quantity);
    }
  }

  /** An ambiguous order without a fill, for a registered token, and events the journal has not seen. */
  ghost predicate CanSettle(j: Journal, s: MapperState, t: Token, brokerId: string, es: seq<Evidence>)
    requires t in s.orders
  {
    && Sound(j) && KeyFor(t) in j.orders && j.orders[KeyFor(t)].quantity == s.orders[t].quantity
    && j.orders[KeyFor(t)].status in {Unknown, Reconciling} && j.orders[KeyFor(t)].filled == 0
    && j.orders[KeyFor(t)].brokerId in {None, Some(brokerId)}
    && Unseen(j, Convergence.FactsIn(es))
  }

  lemma ReportedSettles(j: Journal, labels: Labels, s: MapperState, arrivals: seq<Arrival>, es: seq<Evidence>, t: Token,
                        brokerId: string, total: int, delivered: seq<Evidence>)
    requires t in s.orders && CanSettle(j, s, t, brokerId, es)
    requires Reported(labels, arrivals, es, t, s.orders[t].quantity, brokerId, total) && es != []
    requires Convergence.FactsIn(delivered) == Convergence.FactsIn(es)
    ensures var n := RunHistory(j, JournalTheorems.Deliveries(delivered));
            && KeyFor(t) in n.orders && n.orders[KeyFor(t)].filled == total
            && n.orders[KeyFor(t)].status == if total == s.orders[t].quantity then Filled else PartiallyFilled
  {
    hide Sound, Reported, Unseen, EventIdTaken, RunHistory, Convergence.Coherent, Convergence.Settled;
    hide Convergence.Effective;
    ReportedIsCoherent(labels, arrivals, es, t, s.orders[t].quantity, brokerId, total);
    UnseenIsEffective(j, Convergence.FactsIn(es));
    Received(j, t, brokerId, es, delivered);
    Convergence.DeliverySettles(j, KeyFor(t), brokerId, delivered);
    var n := RunHistory(j, JournalTheorems.Deliveries(delivered));
    TotalsSettle(labels, arrivals, es, t, brokerId, total, n.orders[KeyFor(t)], j.orders[KeyFor(t)].status);
  }

  lemma Received(j: Journal, t: Token, brokerId: string, es: seq<Evidence>, delivered: seq<Evidence>)
    requires Sound(j) && KeyFor(t) in j.orders
    requires j.orders[KeyFor(t)].status in {Unknown, Reconciling} && j.orders[KeyFor(t)].filled == 0
    requires j.orders[KeyFor(t)].brokerId in {None, Some(brokerId)}
    requires Convergence.Coherent(Convergence.FactsIn(es), KeyFor(t), j.orders[KeyFor(t)].quantity, brokerId)
    requires forall e :: e in Convergence.FactsIn(es) ==> !EventIdTaken(j, e)
    requires Convergence.FactsIn(delivered) == Convergence.FactsIn(es)
    ensures Convergence.CanReceive(j, KeyFor(t), brokerId, delivered)
  {
    hide Sound, EventIdTaken, Convergence.Coherent;
    assert forall e :: e in delivered ==> e in Convergence.FactsIn(es);
  }

  /** Every fitting deal arrives, and together with those known before they are `all`. */
  ghost predicate Complete(s: MapperState, rows: set<RawRow>, arrivals: seq<Arrival>, all: map<TradeKey, int>) {
    && (forall row :: row in rows ==> exists a :: a in arrivals && a.row == row)
    && (forall k :: k in all && k !in s.trades ==>
          exists row :: row in rows && row.token == Some(k.token) && row.tradeId == Some(k.tradeId))
  }

  lemma StreamRecordsAll(labels: Labels, profile: Profile, s: MapperState, rows: set<RawRow>, arrivals: seq<Arrival>,
                         all: map<TradeKey, int>, ids: map<Token, string>)
    requires FitTogether(profile, s, rows, all, ids) && Stream(labels, profile, s, rows, arrivals)
             && Complete(s, rows, arrivals, all)
    ensures RunRows(profile, s, Items(arrivals)).trades == all
  {
    hide FitTogether, WellFormed, Expected, Compatible, RunRows, Items, DistinctEvents;
    StreamIsCompatible(profile, s, rows, arrivals, ids);
    ItemsAreDeals(arrivals);
    FittingDealsConverge(profile, s, rows, Items(arrivals), all, ids);
  }

  /**
   * From raw deals to the order table: deals that fit together, arriving in any
   * order among hopeless ones, each in an event of its own, emit evidence that,
   * delivered in any order with any repetition, leaves the order with exactly
   * the sum of its distinct trades, filled exactly when that is its quantity.
   * Neither arrival order appears in the result.
   */
  lemma DealsSettleOrder(j: Journal, labels: Labels, profile: Profile, s: MapperState, rows: set<RawRow>,
                         arrivals: seq<Arrival>, all: map<TradeKey, int>, ids: map<Token, string>, t: Token,
                         delivered: seq<Evidence>)
    requires FitTogether(profile, s, rows, all, ids) && Consistent(s)
    requires Stream(labels, profile, s, rows, arrivals) && Complete(s, rows, arrivals, all)
    requires t in s.orders && t in ids && t.clientOrderId != "" && HasDealOf(arrivals, rows, t)
    requires CanSettle(j, s, t, ids[t], EvidenceFor(labels, profile, s, arrivals, t))
    requires Convergence.FactsIn(delivered) == Convergence.FactsIn(EvidenceFor(labels, profile, s, arrivals, t))
    ensures var n := RunHistory(j, JournalTheorems.Deliveries(delivered));
            && KeyFor(t) in n.orders && n.orders[KeyFor(t)].filled == Total(all, t)
            && n.orders[KeyFor(t)].status == if Total(all, t) == s.orders[t].quantity then Filled else PartiallyFilled
  {
    hide FitTogether, Consistent, Stream, Complete, HasDealOf, CanSettle, Reported, EvidenceFor, RunHistory;
    hide Items, RunRows, Total;
    StreamIsReported(labels, profile, s, rows, arrivals, all, ids, t);
    StreamRecordsAll(labels, profile, s, rows, arrivals, all, ids);
    ReportedSettles(j, labels, s, arrivals, EvidenceFor(labels, profile, s, arrivals, t), t, ids[t], Total(all, t),
                    delivered);
  }

  // ------------------------------------------------------------------- order rows

  function BuildOrder(labels: Labels, a: Arrival, f: Fact): Evidence {
    Evidence(labels.source, if a.row.activeQuery then ActiveOrderQuery else OrderCallback, a.eventId, labels.name,
             f.token.account, f.token.clientOrderId, Some(TokenText(f.token)), f.brokerOrderId, a.orderRef, f.tradeId,
             f.kind, StatusOf(f.kind), f.filled, a.at, a.ref, Some(RawStatus(a.row.status, a.row.submitStatus)),
             RouteOf(a.row))
  }

  /** Where an order row's code puts an order without a fill. */
  predicate ShowsCode(o: Order, p: Order, row: RawRow) {
    && p.filled == (if row.status == Some(56) then o.quantity else 0)
    && p.status == (if row.status == Some(54) then Cancelled
                    else if row.status == Some(56) then Filled
                    else if row.status == Some(57) then Rejected
                    else if o.status == CancelPending then CancelPending else Acknowledged)
    && p.brokerId == (if o.brokerId.Some? then o.brokerId else row.brokerOrderId)
    && p.quantity == o.quantity
  }

  lemma OrderEvidence(labels: Labels, profile: Profile, s: MapperState, a: Arrival)
    requires WellFormed(labels, a) && AcceptRow(profile, s, false, a.row).1.Ok?
    requires var t := AcceptRow(profile, s, false, a.row).1.value.token;
             t.clientOrderId != "" && t in s.orders && 0 < s.orders[t].quantity
    ensures var e := BuildOrder(labels, a, AcceptRow(profile, s, false, a.row).1.value);
            ValidEvidence(e) && e.brokerOrderId == a.row.brokerOrderId && a.row.filled == Some(e.filled)
            && (e.requested == Acknowledged <==> a.row.status == Some(50))
            && (e.requested == Cancelled <==> a.row.status == Some(54))
            && (e.requested == Filled <==> a.row.status == Some(56))
            && (e.requested == Rejected <==> a.row.status == Some(57))
            && e.requested in {Acknowledged, Cancelled, Filled, Rejected}
            && e.filled == if e.requested == Filled then s.orders[KeyToken(e)].quantity else 0
  {
    OrderFactStatesItsRow(profile, s, a.row);
    hide AcceptRow, Identify;
    assert Calibrated(s.orders[a.row.token.value], a.row);
  }

  function KeyToken(e: Evidence): Token { Token(e.account, e.clientOrderId) }

  /** Nothing but its own status absorbs such a report. */
  lemma CodeMerges(o: Order, e: Evidence, row: RawRow)
    requires Coupled(o) && o.filled == 0
    requires o.status in {Submitting, Acknowledged, CancelPending, Unknown, Reconciling}
    requires o.brokerId.Some? && e.brokerOrderId.Some? ==> o.brokerId == e.brokerOrderId
    requires e.requested in {Acknowledged, Cancelled, Filled, Rejected} && e.brokerOrderId == row.brokerOrderId
    requires e.filled == if e.requested == Filled then o.quantity else 0
    requires (e.requested == Cancelled <==> row.status == Some(54))
             && (e.requested == Filled <==> row.status == Some(56))
             && (e.requested == Rejected <==> row.status == Some(57))
    ensures MergeFact(o, e.requested, e.brokerOrderId, e.filled).Ok?
            && ShowsCode(o, MergeFact(o, e.requested, e.brokerOrderId, e.filled).value.0, row)
    ensures !MovesStatus(o.status, e.requested) && Holds(o, e) ==> ShowsCode(o, o, row)
  {
  }

  /**
   * From a raw order row to the order table: an accepted row about an order the
   * broker has not filled leaves it cancelled without a fill after code 54,
   * filled at its quantity after 56, rejected after 57, and otherwise working.
   */
  lemma OrderRowSettles(j: Journal, labels: Labels, profile: Profile, s: MapperState, a: Arrival)
    requires WellFormed(labels, a) && AcceptRow(profile, s, false, a.row).1.Ok?
    requires var t := AcceptRow(profile, s, false, a.row).1.value.token;
             && t.clientOrderId != "" && t in s.orders && Sound(j) && KeyFor(t) in j.orders
             && var o := j.orders[KeyFor(t)];
             && o.quantity == s.orders[t].quantity && o.filled == 0
             && o.status in {Submitting, Acknowledged, CancelPending, Unknown, Reconciling}
             && (o.brokerId.Some? && a.row.brokerOrderId.Some? ==> o.brokerId == a.row.brokerOrderId)
    requires Unseen(j, {BuildOrder(labels, a, AcceptRow(profile, s, false, a.row).1.value)})
    ensures var f := AcceptRow(profile, s, false, a.row).1.value;
            var n := Advance(j, Deliver(BuildOrder(labels, a, f)));
            KeyFor(f.token) in n.orders && ShowsCode(j.orders[KeyFor(f.token)], n.orders[KeyFor(f.token)], a.row)
  {
    hide AcceptRow, Sound, Unseen, ShowsCode, EventIdTaken, MergeFact, Suppressed, ValidEvidence, FingerprintOf;
    hide Coupled, MovesStatus, Holds;
    var f := AcceptRow(profile, s, false, a.row).1.value;
    var e, k := BuildOrder(labels, a, f), KeyFor(f.token);
    RowIsCoupled(j, k);
    QuantityIsPositive(j.orders[k]);
    OrderEvidence(labels, profile, s, a);
    UnseenIsEffective(j, {e});
    CodeMerges(j.orders[k], e, a.row);
    assert e in Convergence.Effective(j, {e});
    if Suppressed(j, e) {
      SuppressedFactHolds(j, e);
      SuppressedDoesNotMove(j, e);
    }
  }

  lemma RowIsCoupled(j: Journal, k: OrderKey)
    requires Sound(j) && k in j.orders
    ensures Coupled(j.orders[k])
  {
  }

  lemma QuantityIsPositive(o: Order)
    requires Coupled(o)
    ensures 0 < o.quantity
  {
  }

  lemma SuppressedDoesNotMove(j: Journal, e: Evidence)
    requires KeyOf(e) in j.orders && Suppressed(j, e)
    ensures !MovesStatus(j.orders[KeyOf(e)].status, e.requested)
  {
  }

  // ------------------------------------------------------------- one event mapped twice

  /**
   * Why each event must be mapped once: mapped again, an event yields evidence
   * under the same event id, and it clashes with the first exactly when the
   * order's total has moved in between; the journal then sends the order to
   * review.
   */
  lemma RemapClashesExactlyWhenTotalMoved(labels: Labels, profile: Profile, s: MapperState, n: MapperState, a: Arrival)
    requires Consistent(s) && Consistent(n)
    requires AcceptRow(profile, s, true, a.row).1.Ok? && AcceptRow(profile, n, true, a.row).1.Ok?
    requires var t := AcceptRow(profile, s, true, a.row).1.value.token;
             t in s.orders && t in n.orders && n.orders[t].quantity == s.orders[t].quantity
    ensures var (p, f) := AcceptRow(profile, s, true, a.row);
            var (q, g) := AcceptRow(profile, n, true, a.row);
            Clashes(FingerprintOf(Build(labels, a, f.value)), Build(labels, a, g.value))
            <==> Total(p.trades, f.value.token) != Total(q.trades, f.value.token)
  {
    hide Total, AcceptRow, Consistent;
    DealFactReportsTotal(profile, s, a.row);
    DealFactReportsTotal(profile, n, a.row);
    RowKeepsConsistent(profile, s, true, a.row);
    RowKeepsConsistent(profile, n, true, a.row);
    DealFactTrade(profile, s, a.row);
    DealFactTrade(profile, n, a.row);
  }

  lemma DealFactTrade(profile: Profile, s: MapperState, row: RawRow)
    requires AcceptRow(profile, s, true, row).1.Ok?
    ensures AcceptRow(profile, s, true, row).1.value.tradeId == row.tradeId
    ensures AcceptRow(profile, s, true, row).1.value.kind in {PartialFill, FullFill}
  {
    hide Total, Identify;
  }
}
