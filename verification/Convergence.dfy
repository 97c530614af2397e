/**
 * A coherent set of broker facts settles an ambiguous order the same way in
 * every delivery order and under every repetition.
 */
module Convergence {
  import opened Basics
  import opened OrderLifecycle
  import opened OrderRows
  import opened BrokerEvidence
  import opened EvidenceJournal
  import opened JournalHistory
  import opened JournalTheorems

  /** The terminal state a fact asserts; a fill of the whole quantity is FILLED however it is reported. */
  function TerminalOf(e: Evidence, quantity: int): Option<Status> {
    if e.filled == quantity then Some(Filled)
    else if e.kind == OrderCancelled then Some(Cancelled)
    else if e.kind == OrderRejected then Some(Rejected)
    else None
  }

  /** One fact fits an order of this quantity with this broker id. */
  predicate Fits(e: Evidence, k: OrderKey, quantity: int, brokerId: string) {
    && ValidEvidence(e) && KeyOf(e) == k
    && (e.brokerOrderId.Some? ==> e.brokerOrderId == Some(brokerId))
    && e.filled <= quantity
    && (e.kind == FullFill ==> e.filled == quantity)
    && (e.kind == OrderCancelled ==> e.filled < quantity)
  }

  /** Two facts agree: a terminal fact bounds every fill, and terminal facts assert the same end. */
  predicate Agree(a: Evidence, b: Evidence, quantity: int) {
    && !Clashes(FingerprintOf(a), b)
    && (TerminalOf(a, quantity).Some? ==>
          && b.filled <= a.filled
          && (TerminalOf(b, quantity).Some? ==> TerminalOf(b, quantity) == TerminalOf(a, quantity)))
  }

  ghost predicate Coherent(es: set<Evidence>, k: OrderKey, quantity: int, brokerId: string) {
    && (forall e :: e in es ==> Fits(e, k, quantity, brokerId))
    && (forall a, b :: a in es && b in es ==> Agree(a, b, quantity))
  }

  ghost predicate AssertsEnd(es: set<Evidence>, e: Evidence, quantity: int) {
    e in es && TerminalOf(e, quantity).Some?
  }

  /** The end that some fact asserts; without one, the largest fill decides. */
  ghost function Verdict(es: set<Evidence>, filled: int, quantity: int): Status {
    if exists e :: AssertsEnd(es, e, quantity) then
      var e :| AssertsEnd(es, e, quantity);
      TerminalOf(e, quantity).value
    else if filled > 0 then PartiallyFilled
    else Acknowledged
  }

  ghost predicate IsLargestFill(es: set<Evidence>, filled: int) {
    && (forall e :: e in es ==> e.filled <= filled)
    && (exists e :: e in es && e.filled == filled)
  }

  /** The row shows exactly what the facts say; with no facts it is still ambiguous. */
  ghost predicate Settled(o: Order, es: set<Evidence>, start: Status) {
    if es == {} then o.status == start && o.filled == 0
    else IsLargestFill(es, o.filled) && o.status == Verdict(es, o.filled, o.quantity)
  }

  // ---------------------------------------------------------------------- one fact

  lemma LargestFillGrows(es: set<Evidence>, filled: int, e: Evidence)
    requires if es == {} then filled == 0 <= e.filled else IsLargestFill(es, filled)
    ensures IsLargestFill(es + {e}, Max(filled, e.filled))
  {
    if es != {} && filled > e.filled {
      var w :| w in es && w.filled == filled;
      assert w in es + {e};
    }
    assert e in es + {e};
  }

  /** What coherence says about a new fact and a row settled by the earlier ones. */
  predicate Compatible(o: Order, e: Evidence, brokerId: string) {
    && ValidEvidence(e)
    && (e.brokerOrderId.Some? ==> e.brokerOrderId == Some(brokerId))
    && o.brokerId in {None, Some(brokerId)}
    && e.filled <= o.quantity
    && (e.kind == FullFill ==> e.filled == o.quantity)
    && (e.kind == OrderCancelled ==> e.filled < o.quantity)
    && (IsBrokerTerminal(o.status) ==> e.filled <= o.filled && TerminalOf(e, o.quantity) in {None, Some(o.status)})
    && (TerminalOf(e, o.quantity).Some? ==> o.filled <= e.filled)
  }

  /** The statuses a row passes through while only broker facts arrive. */
  predicate Settling(s: Status) {
    s in {Unknown, Reconciling, Acknowledged, PartiallyFilled, Filled, Cancelled, Rejected}
  }

  /** The row's next status: the new fact's terminal state, else the old one, else the fill decides. */
  lemma CompatibleMerges(o: Order, e: Evidence, brokerId: string)
    requires Coupled(o) && Settling(o.status) && Compatible(o, e, brokerId)
    requires o.status in {Unknown, Reconciling} ==> o.filled == 0
    ensures MergeFact(o, e.requested, e.brokerOrderId, e.filled).Ok?
    ensures var p := MergeFact(o, e.requested, e.brokerOrderId, e.filled).value.0;
            && p.filled == Max(o.filled, e.filled) && p.quantity == o.quantity
            && p.brokerId in {None, Some(brokerId)}
            && p.status ==
                 if TerminalOf(e, o.quantity).Some? then TerminalOf(e, o.quantity).value
                 else if IsBrokerTerminal(o.status) then o.status
                 else if p.filled > 0 then PartiallyFilled else Acknowledged
  {
  }

  lemma CoherentIsCompatible(o: Order, es: set<Evidence>, e: Evidence, k: OrderKey, brokerId: string, start: Status)
    requires start in {Unknown, Reconciling} && Coupled(o) && Settled(o, es, start)
    requires o.brokerId in {None, Some(brokerId)}
    requires Coherent(es + {e}, k, o.quantity, brokerId)
    ensures Compatible(o, e, brokerId) && Settling(o.status)
  {
    hide Coupled, Clashes, Settled, Verdict, Coherent;
    var all := es + {e};
    FitsInCoherent(all, e, k, o.quantity, brokerId);
    SettledStatus(o, es, start);
    NewFactAgrees(o, es, e, k, brokerId, start);
    assert 0 <= e.filled;
  }

  lemma FitsInCoherent(all: set<Evidence>, e: Evidence, k: OrderKey, quantity: int, brokerId: string)
    requires Coherent(all, k, quantity, brokerId) && e in all
    ensures Fits(e, k, quantity, brokerId)
  {
  }

  lemma SettledStatus(o: Order, es: set<Evidence>, start: Status)
    requires start in {Unknown, Reconciling} && Settled(o, es, start)
    ensures Settling(o.status)
  {
  }

  /** The row's end, and its largest fill, come from facts the new one agrees with. */
  lemma NewFactAgrees(o: Order, es: set<Evidence>, e: Evidence, k: OrderKey, brokerId: string, start: Status)
    requires start in {Unknown, Reconciling} && Coupled(o) && Settled(o, es, start)
    requires Coherent(es + {e}, k, o.quantity, brokerId)
    ensures IsBrokerTerminal(o.status) ==> e.filled <= o.filled && TerminalOf(e, o.quantity) in {None, Some(o.status)}
    ensures TerminalOf(e, o.quantity).Some? ==> o.filled <= e.filled
  {
    FitsInCoherent(es + {e}, e, k, o.quantity, brokerId);
    assert 0 <= e.filled;
    hide Coupled, Clashes, ValidEvidence, Fits;
    var all := es + {e};
    if IsBrokerTerminal(o.status) {
      var t :| AssertsEnd(es, t, o.quantity) && TerminalOf(t, o.quantity) == Some(o.status);
      assert t in all && e in all && Agree(t, e, o.quantity);
    }
    if es != {} {
      var w :| w in es && w.filled == o.filled;
      assert w in all && e in all && Agree(e, w, o.quantity);
    }
  }

  lemma MergeSettles(o: Order, es: set<Evidence>, e: Evidence, k: OrderKey, brokerId: string, start: Status)
    requires start in {Unknown, Reconciling} && Coupled(o) && Settled(o, es, start)
    requires o.brokerId in {None, Some(brokerId)}
    requires Coherent(es + {e}, k, o.quantity, brokerId)
    ensures MergeFact(o, e.requested, e.brokerOrderId, e.filled).Ok?
    ensures var p := MergeFact(o, e.requested, e.brokerOrderId, e.filled).value.0;
            Settled(p, es + {e}, start) && p.quantity == o.quantity && p.brokerId in {None, Some(brokerId)}
  {
    CoherentIsCompatible(o, es, e, k, brokerId, start);
    CompatibleMerges(o, e, brokerId);
    LargestFillGrows(es, o.filled, e);
    var p := MergeFact(o, e.requested, e.brokerOrderId, e.filled).value.0;
    hide MergeFact, Coupled, ValidEvidence;
    VerdictGrows(o, p, es, e, k, brokerId, start);
  }

  lemma VerdictGrows(o: Order, p: Order, es: set<Evidence>, e: Evidence, k: OrderKey, brokerId: string, start: Status)
    requires start in {Unknown, Reconciling} && Settled(o, es, start)
    requires Coherent(es + {e}, k, o.quantity, brokerId)
    requires p.status ==
             if TerminalOf(e, o.quantity).Some? then TerminalOf(e, o.quantity).value
             else if IsBrokerTerminal(o.status) then o.status
             else if p.filled > 0 then PartiallyFilled else Acknowledged
    ensures p.status == Verdict(es + {e}, p.filled, o.quantity)
  {
    var all, q := es + {e}, o.quantity;
    hide Fits, Clashes, ValidEvidence, TerminalOf;
    if t :| AssertsEnd(all, t, q) && Verdict(all, p.filled, q) == TerminalOf(t, q).value {
      if TerminalOf(e, q).Some? {
        assert Agree(e, t, q);
      } else {
        assert AssertsEnd(es, t, q);
        var d := EndOf(o, es, t, start);
        assert d in all && Agree(d, t, q);
        EndIsTerminal(d, q);
      }
    } else {
      assert !exists t :: AssertsEnd(all, t, q);
      assert !AssertsEnd(all, e, q);
      forall d ensures !AssertsEnd(es, d, q) {
        assert !AssertsEnd(all, d, q);
      }
    }
  }

  lemma EndIsTerminal(e: Evidence, quantity: int)
    ensures TerminalOf(e, quantity).Some? ==> IsBrokerTerminal(TerminalOf(e, quantity).value)
  {
  }

  /** The fact whose end the row shows. */
  lemma EndOf(o: Order, es: set<Evidence>, t: Evidence, start: Status) returns (d: Evidence)
    requires Settled(o, es, start) && AssertsEnd(es, t, o.quantity)
    ensures AssertsEnd(es, d, o.quantity) && o.status == TerminalOf(d, o.quantity).value
  {
    d :| AssertsEnd(es, d, o.quantity) && o.status == TerminalOf(d, o.quantity).value;
  }

  /** A fact the row already shows leaves it settled: a repeat, or one ingestion suppresses. */
  lemma AbsorbedStaysSettled(o: Order, es: set<Evidence>, e: Evidence, k: OrderKey, brokerId: string, start: Status)
    requires start in {Unknown, Reconciling} && Coupled(o) && Settled(o, es, start)
    requires o.brokerId in {None, Some(brokerId)}
    requires Coherent(es + {e}, k, o.quantity, brokerId)
    requires Holds(o, e) && !MovesStatus(o.status, e.requested)
    ensures Settled(o, es + {e}, start)
  {
    MergeSettles(o, es, e, k, brokerId, start);
    CoherentIsCompatible(o, es, e, k, brokerId, start);
    hide Settled, Coherent;
    SuppressedMerge(o, e);
  }

  lemma RepeatStaysSettled(o: Order, es: set<Evidence>, e: Evidence, d: Evidence, k: OrderKey, brokerId: string,
                           start: Status)
    requires start in {Unknown, Reconciling} && Coupled(o) && Settled(o, es, start)
    requires o.brokerId in {None, Some(brokerId)}
    requires Coherent(es + {e}, k, o.quantity, brokerId)
    requires d in es && DigestOf(d) == DigestOf(e)
    ensures Settled(o, es + {e}, start)
  {
    hide Coupled, Clashes, ValidEvidence, Fits;
    var q := o.quantity;
    LargestFillGrows(es, o.filled, e);
    assert Max(o.filled, e.filled) == o.filled && TerminalOf(d, q) == TerminalOf(e, q);
    if t :| AssertsEnd(es, t, q) && o.status == TerminalOf(t, q).value {
      if TerminalOf(e, q).Some? {
        assert t in es + {e} && e in es + {e};
        assert Agree(e, t, q);
      }
    } else {
      assert !AssertsEnd(es, d, q);
    }
    VerdictGrows(o, o, es, e, k, brokerId, start);
  }

  // ---------------------------------------------------------------- whole deliveries

  function FactsIn(es: seq<Evidence>): set<Evidence> { set e | e in es }

  /** The facts that were not already stored when delivery began. */
  function Effective(j0: Journal, es: set<Evidence>): set<Evidence> {
    set e | e in es && FingerprintOf(e) !in j0.keys
  }

  /** The keys added since delivery began are those of the facts delivered so far. */
  ghost predicate KeysOfDelivered(j0: Journal, j: Journal, delivered: set<Evidence>) {
    && (forall f :: f in j0.keys ==> f in j.keys)
    && (forall e :: e in delivered ==> FingerprintOf(e) in j.keys)
    && (forall f :: f in j.keys && f !in j0.keys ==> exists e :: e in delivered && FingerprintOf(e) == f)
  }

  ghost predicate OrderSettled(j0: Journal, j: Journal, k: OrderKey, quantity: int, brokerId: string, start: Status,
                               delivered: set<Evidence>) {
    && k in j.orders
    && Coupled(j.orders[k])
    && j.orders[k].quantity == quantity
    && j.orders[k].brokerId in {None, Some(brokerId)}
    && Settled(j.orders[k], Effective(j0, delivered), start)
  }

  lemma CoherentSubset(big: set<Evidence>, small: set<Evidence>, k: OrderKey, quantity: int, brokerId: string)
    requires Coherent(big, k, quantity, brokerId) && small <= big
    ensures Coherent(small, k, quantity, brokerId)
  {
  }

  lemma NeverTaken(j0: Journal, j: Journal, all: set<Evidence>, delivered: set<Evidence>, e: Evidence, k: OrderKey,
                   quantity: int, brokerId: string)
    requires KeysOfDelivered(j0, j, delivered) && delivered <= all && e in all
    requires Coherent(all, k, quantity, brokerId) && !EventIdTaken(j0, e)
    ensures !EventIdTaken(j, e)
  {
    forall f | f in j.keys ensures !Clashes(f, e) {
      if f !in j0.keys {
        var d :| d in delivered && FingerprintOf(d) == f;
        assert Agree(d, e, quantity);
      }
    }
  }

  lemma IngestAddsKey(j0: Journal, j: Journal, delivered: set<Evidence>, e: Evidence)
    requires KeysOfDelivered(j0, j, delivered) && KeyOf(e) in j.orders
    requires !EventIdTaken(j, e)
    requires FingerprintOf(e) in j.keys || Suppressed(j, e)
             || MergeFact(j.orders[KeyOf(e)], e.requested, e.brokerOrderId, e.filled).Ok?
    ensures KeysOfDelivered(j0, Ingest(j, e).0, delivered + {e})
  {
    hide MergeFact, Suppressed, EventIdTaken;
    var n, f := Ingest(j, e).0, FingerprintOf(e);
    assert n.keys.Keys == j.keys.Keys + {f};
    forall g | g in n.keys && g !in j0.keys ensures exists d :: d in delivered + {e} && FingerprintOf(d) == g {
      if g in j.keys {
        var d :| d in delivered && FingerprintOf(d) == g;
        assert d in delivered + {e};
      } else {
        assert e in delivered + {e};
      }
    }
  }

  /** The row after one more fact of a coherent set is merged. */
  lemma MergedRowSettles(j: Journal, e: Evidence, es: set<Evidence>, brokerId: string, start: Status)
    requires KeyOf(e) in j.orders && start in {Unknown, Reconciling}
    requires var o := j.orders[KeyOf(e)];
             && Coupled(o) && Settled(o, es, start) && o.brokerId in {None, Some(brokerId)}
             && Coherent(es + {e}, KeyOf(e), o.quantity, brokerId)
    ensures MergeFact(j.orders[KeyOf(e)], e.requested, e.brokerOrderId, e.filled).Ok?
    ensures var n, o := IngestMerged(j, e).0, j.orders[KeyOf(e)];
            && KeyOf(e) in n.orders && Coupled(n.orders[KeyOf(e)]) && Settled(n.orders[KeyOf(e)], es + {e}, start)
            && n.orders[KeyOf(e)].quantity == o.quantity && n.orders[KeyOf(e)].brokerId in {None, Some(brokerId)}
  {
    var o := j.orders[KeyOf(e)];
    MergeSettles(o, es, e, KeyOf(e), brokerId, start);
    assert e in es + {e} && Fits(e, KeyOf(e), o.quantity, brokerId);
    FactKeepsCoupling(o, e.requested, e.brokerOrderId, e.filled);
    hide MergeFact, Settled, Coupled, Coherent;
  }

  /** What the ingest transaction does to the order of a fact whose event id is free. */
  lemma IngestSettlesRow(j: Journal, e: Evidence, es: set<Evidence>, stored: bool, brokerId: string, start: Status)
    requires Sound(j) && KeyOf(e) in j.orders && start in {Unknown, Reconciling}
    requires !EventIdTaken(j, e)
    requires var o := j.orders[KeyOf(e)];
             && Coupled(o) && Settled(o, es, start) && o.brokerId in {None, Some(brokerId)}
             && Coherent(es + {e}, KeyOf(e), o.quantity, brokerId)
    requires FingerprintOf(e) in j.keys ==> stored || exists d :: d in es && DigestOf(d) == DigestOf(e)
    requires stored ==> FingerprintOf(e) in j.keys
    ensures FingerprintOf(e) in j.keys || Suppressed(j, e)
            || MergeFact(j.orders[KeyOf(e)], e.requested, e.brokerOrderId, e.filled).Ok?
    ensures var n, o := Ingest(j, e).0, j.orders[KeyOf(e)];
            && KeyOf(e) in n.orders && Coupled(n.orders[KeyOf(e)])
            && Settled(n.orders[KeyOf(e)], if stored then es else es + {e}, start)
            && n.orders[KeyOf(e)].quantity == o.quantity && n.orders[KeyOf(e)].brokerId in {None, Some(brokerId)}
  {
    hide Settled, Coherent, Coupled, EventIdTaken, MergeFact, IngestMerged;
    var o := j.orders[KeyOf(e)];
    if FingerprintOf(e) in j.keys {
      hide Sound;
      if !stored {
        var d :| d in es && DigestOf(d) == DigestOf(e);
        RepeatStaysSettled(o, es, e, d, KeyOf(e), brokerId, start);
      }
    } else if Suppressed(j, e) {
      CoherentIsCompatible(o, es, e, KeyOf(e), brokerId, start);
      SuppressedFactHolds(j, e);
      hide Sound;
      AbsorbedStaysSettled(o, es, e, KeyOf(e), brokerId, start);
    } else {
      hide Sound, Suppressed;
      MergedRowSettles(j, e, es, brokerId, start);
    }
  }

  /** Delivering one more fact of a coherent set. */
  lemma IngestSettles(j0: Journal, j: Journal, k: OrderKey, quantity: int, brokerId: string, start: Status,
                      all: set<Evidence>, delivered: set<Evidence>, e: Evidence)
    requires Sound(j) && start in {Unknown, Reconciling}
    requires KeysOfDelivered(j0, j, delivered) && OrderSettled(j0, j, k, quantity, brokerId, start, delivered)
    requires Coherent(all, k, quantity, brokerId) && delivered <= all && e in all && !EventIdTaken(j0, e)
    ensures var n := Advance(j, Deliver(e));
            && KeysOfDelivered(j0, n, delivered + {e})
            && OrderSettled(j0, n, k, quantity, brokerId, start, delivered + {e})
  {
    hide Sound, MergeFact, Settled, Coupled, ValidEvidence, EventIdTaken, Suppressed, Ingest;
    assert Fits(e, k, quantity, brokerId);
    NeverTaken(j0, j, all, delivered, e, k, quantity, brokerId);
    EffectiveGrows(j0, delivered, e);
    CoherentSubset(all, Effective(j0, delivered) + {e}, k, quantity, brokerId);
    hide Coherent;
    var stored := FingerprintOf(e) in j0.keys;
    if FingerprintOf(e) in j.keys && !stored {
      DeliveredTwin(j0, j, delivered, e);
    }
    IngestSettlesRow(j, e, Effective(j0, delivered), stored, brokerId, start);
    IngestAddsKey(j0, j, delivered, e);
  }

  lemma DeliveredTwin(j0: Journal, j: Journal, delivered: set<Evidence>, e: Evidence)
    requires KeysOfDelivered(j0, j, delivered)
    requires FingerprintOf(e) in j.keys && FingerprintOf(e) !in j0.keys
    ensures exists d :: d in Effective(j0, delivered) && DigestOf(d) == DigestOf(e)
  {
    var d :| d in delivered && FingerprintOf(d) == FingerprintOf(e);
    assert d in Effective(j0, delivered);
  }

  lemma EffectiveGrows(j0: Journal, delivered: set<Evidence>, e: Evidence)
    ensures Effective(j0, delivered + {e}) ==
            if FingerprintOf(e) in j0.keys then Effective(j0, delivered) else Effective(j0, delivered) + {e}
  {
  }

  lemma {:induction false} DeliveriesSettle(j0: Journal, j: Journal, k: OrderKey, quantity: int, brokerId: string,
                                            start: Status, all: set<Evidence>, delivered: set<Evidence>,
                                            es: seq<Evidence>)
    requires Sound(j) && start in {Unknown, Reconciling}
    requires KeysOfDelivered(j0, j, delivered) && OrderSettled(j0, j, k, quantity, brokerId, start, delivered)
    requires Coherent(all, k, quantity, brokerId) && delivered <= all
    requires forall e :: e in es ==> e in all && !EventIdTaken(j0, e)
    ensures OrderSettled(j0, RunHistory(j, Deliveries(es)), k, quantity, brokerId, start, delivered + FactsIn(es))
    decreases |es|
  {
    hide Sound, Coherent, KeysOfDelivered, OrderSettled, EventIdTaken, Advance;
    if es == [] {
      assert delivered + FactsIn(es) == delivered;
    } else {
      var e, rest := es[0], es[1..];
      assert e in es && forall x :: x in rest ==> x in es;
      var n := Advance(j, Deliver(e));
      IngestSettles(j0, j, k, quantity, brokerId, start, all, delivered, e);
      AdvanceKeepsSound(j, Deliver(e));
      DeliveriesSettle(j0, n, k, quantity, brokerId, start, all, delivered + {e}, rest);
      assert Deliveries(es)[1..] == Deliveries(rest);
      assert delivered + {e} + FactsIn(rest) == delivered + FactsIn(es);
    }
  }

  /** An ambiguous order with no fill, and facts that can be delivered to it. */
  ghost predicate CanReceive(j: Journal, k: OrderKey, brokerId: string, es: seq<Evidence>) {
    && Sound(j) && k in j.orders
    && j.orders[k].status in {Unknown, Reconciling} && j.orders[k].filled == 0
    && j.orders[k].brokerId in {None, Some(brokerId)}
    && Coherent(FactsIn(es), k, j.orders[k].quantity, brokerId)
    && forall e :: e in es ==> !EventIdTaken(j, e)
  }

  /** After any delivery the order shows its largest fill and the end its facts assert. */
  lemma DeliverySettles(j: Journal, k: OrderKey, brokerId: string, es: seq<Evidence>)
    requires CanReceive(j, k, brokerId, es)
    ensures var n := RunHistory(j, Deliveries(es));
            && k in n.orders && n.orders[k].quantity == j.orders[k].quantity
            && Settled(n.orders[k], Effective(j, FactsIn(es)), j.orders[k].status)
  {
    var o := j.orders[k];
    assert Coupled(o);
    assert Effective(j, {}) == {};
    assert KeysOfDelivered(j, j, {});
    hide Sound;
    DeliveriesSettle(j, j, k, o.quantity, brokerId, o.status, FactsIn(es), {}, es);
    assert {} + FactsIn(es) == FactsIn(es);
  }

  lemma SettledIsUnique(o: Order, p: Order, es: set<Evidence>, start: Status)
    requires Settled(o, es, start) && Settled(p, es, start) && o.quantity == p.quantity
    ensures o.status == p.status && o.filled == p.filled
  {
  }

  lemma SameFactsReceivable(j: Journal, k: OrderKey, brokerId: string, first: seq<Evidence>, second: seq<Evidence>)
    requires CanReceive(j, k, brokerId, first) && FactsIn(first) == FactsIn(second)
    ensures CanReceive(j, k, brokerId, second)
  {
    hide Sound, Coherent;
    forall e | e in second ensures !EventIdTaken(j, e) {
      assert e in FactsIn(second);
    }
  }

  /**
   * Convergence: two deliveries of the same coherent facts, in any orders and
   * with any repetitions, end in the same status and the same fill.
   */
  lemma DeliveriesConverge(j: Journal, k: OrderKey, brokerId: string, first: seq<Evidence>, second: seq<Evidence>)
    requires CanReceive(j, k, brokerId, first)
    requires FactsIn(first) == FactsIn(second)
    ensures var a, b := RunHistory(j, Deliveries(first)), RunHistory(j, Deliveries(second));
            && k in a.orders && k in b.orders
            && a.orders[k].status == b.orders[k].status
            && a.orders[k].filled == b.orders[k].filled
  {
    hide Sound, Coherent, Settled, EventIdTaken;
    SameFactsReceivable(j, k, brokerId, first, second);
    DeliverySettles(j, k, brokerId, first);
    DeliverySettles(j, k, brokerId, second);
    SettledIsUnique(RunHistory(j, Deliveries(first)).orders[k], RunHistory(j, Deliveries(second)).orders[k],
                    Effective(j, FactsIn(first)), j.orders[k].status);
  }
}
