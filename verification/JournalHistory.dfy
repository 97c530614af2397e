/**
 * Every history of ingests, order creations and command-path row writes keeps
 * the journal sound.
 */
module JournalHistory {
  import opened Basics
  import opened OrderLifecycle
  import opened OrderRows
  import opened BrokerEvidence
  import opened EvidenceJournal

  // ------------------------------------------------------------------------ growth

  /** The row change every transaction makes: rows advance, none disappears. */
  ghost predicate RowsGrow(j: Journal, n: Journal) {
    && (forall k :: k in j.orders ==> k in n.orders && Advances(j.orders[k], n.orders[k]))
    && OrdersCoupled(n)
  }

  /** Keys are only added, and only for an event id that has no key yet. */
  ghost predicate KeysGrow(j: Journal, n: Journal) {
    && (forall f :: f in j.keys ==> f in n.keys && n.keys[f] == j.keys[f])
    && (forall f :: f in n.keys && f !in j.keys ==> forall g :: g in j.keys ==> !SameIdentity(g, f))
  }

  ghost predicate Grows(j: Journal, n: Journal) {
    RowsGrow(j, n) && KeysGrow(j, n) && j.observations <= n.observations
  }

  lemma PrefixMember<T>(a: seq<T>, b: seq<T>, x: T)
    requires a <= b && x in a
    ensures x in b
  {
    var i :| 0 <= i < |a| && a[i] == x;
    assert b[i] == x;
  }

  lemma OldObservationKeeps(j: Journal, n: Journal, ob: Observation)
    requires Sound(j) && Grows(j, n) && ob in j.observations
    ensures ob in n.observations
    ensures KeyOf(ob.e) in n.orders && Reflected(n, ob)
    ensures Counted(j, ob) == Counted(n, ob)
    ensures EventIdKeyed(n, ob.e)
  {
    PrefixMember(j.observations, n.observations, ob);
    var f :| f in j.keys && SameIdentity(f, FingerprintOf(ob.e));
    assert f in n.keys;
    assert FingerprintOf(ob.e) in n.keys ==> FingerprintOf(ob.e) in j.keys;
    assert Reflected(j, ob);
    assert Coupled(j.orders[KeyOf(ob.e)]);
  }

  lemma OldKeyKeeps(j: Journal, n: Journal, f: Fingerprint)
    requires Sound(j) && Grows(j, n) && f in j.keys
    ensures f in n.keys && KeyObserved(n, f)
    ensures OrderOf(f) in n.orders
    ensures OrderOf(f) in j.orders
    ensures j.orders[OrderOf(f)].status == ManualReview ==> n.orders[OrderOf(f)].status == ManualReview
  {
    assert KeyObserved(j, f);
    var ob :| ob in j.observations && FingerprintOf(ob.e) == f && (j.keys[f].accepted ==> Accepted(ob));
    OldObservationKeeps(j, n, ob);
    assert OrderOf(f) == KeyOf(ob.e);
  }

  lemma OldFillKeeps(j: Journal, n: Journal, k: OrderKey)
    requires Sound(j) && Grows(j, n) && k in j.orders && k in n.orders
    requires j.orders[k].filled != 0 && n.orders[k].filled == j.orders[k].filled
    ensures FillWitnessed(n, k)
  {
    assert FillWitnessed(j, k) by {
      assert FillsWitnessed(j);
    }
    hide Sound, Grows, Counted, Reflected;
    var ob :| ob in j.observations && KeyOf(ob.e) == k && Counted(j, ob) && ob.e.filled == j.orders[k].filled;
    OldObservationKeeps(j, n, ob);
  }

  lemma OldStatusKeeps(j: Journal, n: Journal, k: OrderKey)
    requires Sound(j) && Grows(j, n) && k in j.orders && k in n.orders
    requires j.orders[k].status in {Acknowledged, Cancelled, Rejected} && n.orders[k].status == j.orders[k].status
    ensures StatusWitnessed(n, k)
  {
    assert StatusWitnessed(j, k) by {
      assert StatusesWitnessed(j);
    }
    hide Sound, Grows, Counted, Reflected;
    var ob :| ob in j.observations && KeyOf(ob.e) == k && Accepted(ob) && ob.e.requested == j.orders[k].status;
    OldObservationKeeps(j, n, ob);
  }

  lemma GrownHas(j: Journal, n: Journal, k: OrderKey)
    requires Grows(j, n) && k in j.orders
    ensures k in n.orders && Advances(j.orders[k], n.orders[k])
  {
  }

  lemma OldWitnessKeeps(j: Journal, n: Journal, k: OrderKey)
    requires Sound(j) && Grows(j, n) && k in j.orders
    ensures k in n.orders
    ensures j.orders[k].filled != 0 && n.orders[k].filled == j.orders[k].filled ==> FillWitnessed(n, k)
    ensures j.orders[k].status in {Acknowledged, Cancelled, Rejected} && n.orders[k].status == j.orders[k].status
            ==> StatusWitnessed(n, k)
  {
    hide Sound, Grows, FillWitnessed, StatusWitnessed;
    GrownHas(j, n, k);
    if j.orders[k].filled != 0 && n.orders[k].filled == j.orders[k].filled {
      OldFillKeeps(j, n, k);
    }
    if j.orders[k].status in {Acknowledged, Cancelled, Rejected} && n.orders[k].status == j.orders[k].status {
      OldStatusKeeps(j, n, k);
    }
  }

  /** A row whose fill and broker status did not come from this transaction needs no new witness. */
  predicate NoNewBrokerStatus(o: Order, p: Order) {
    && p.filled == o.filled
    && (p.status in {Acknowledged, Cancelled, Rejected} ==> p.status == o.status)
  }

  ghost predicate RowsWitnessed(n: Journal, k: OrderKey)
    requires k in n.orders
  {
    && (n.orders[k].filled != 0 ==> FillWitnessed(n, k))
    && (n.orders[k].status in {Acknowledged, Cancelled, Rejected} ==> StatusWitnessed(n, k))
  }

  /** A row-only write with no broker content keeps the journal sound. */
  lemma RowWriteKeepsSound(j: Journal, k: OrderKey, p: Order)
    requires Sound(j) && Coupled(p)
    requires if k in j.orders then Advances(j.orders[k], p) && NoNewBrokerStatus(j.orders[k], p)
             else p.filled == 0 && p.status !in {Acknowledged, Cancelled, Rejected}
    ensures Sound(PutOrder(j, k, p)) && Grows(j, PutOrder(j, k, p))
  {
    hide Sound, Grows, Reflected, EventIdKeyed, KeyObserved, FillWitnessed, StatusWitnessed, Coupled;
    var n := PutOrder(j, k, p);
    WrittenRowGrows(j, k, p);
    forall q | q in n.orders ensures RowsWitnessed(n, q) {
      if q in j.orders {
        OldWitnessKeeps(j, n, q);
      }
    }
    RowsOnlyKeepSound(j, n);
  }

  lemma WrittenRowGrows(j: Journal, k: OrderKey, p: Order)
    requires Sound(j) && Coupled(p) && (k in j.orders ==> Advances(j.orders[k], p))
    ensures Grows(j, PutOrder(j, k, p))
  {
    var n := PutOrder(j, k, p);
    assert OrdersCoupled(j);
    hide Sound, Coupled;
    forall q | q in j.orders ensures Advances(j.orders[q], n.orders[q]) {
    }
  }

  /** With keys and observations as they were, witnessed rows are all that soundness still needs. */
  lemma RowsOnlyKeepSound(j: Journal, n: Journal)
    requires Sound(j) && Grows(j, n) && n.keys == j.keys && n.observations == j.observations
    requires forall q :: q in n.orders ==> RowsWitnessed(n, q)
    ensures Sound(n)
  {
    hide Reflected, EventIdKeyed, KeyObserved, FillWitnessed, StatusWitnessed, Coupled, Advances, RowsWitnessed;
    forall ob | ob in n.observations
      ensures KeyOf(ob.e) in n.orders && Reflected(n, ob)
      ensures EventIdKeyed(n, ob.e)
    {
      OldObservationKeeps(j, n, ob);
    }
    forall f | f in n.keys
      ensures KeyObserved(n, f) && OrderOf(f) in n.orders && OrderOf(f) in j.orders
      ensures j.orders[OrderOf(f)].status == ManualReview ==> n.orders[OrderOf(f)].status == ManualReview
    {
      OldKeyKeeps(j, n, f);
    }
    RowsAreWitnessed(n);
  }

  lemma RowsAreWitnessed(n: Journal)
    requires forall q :: q in n.orders ==> RowsWitnessed(n, q)
    ensures FillsWitnessed(n) && StatusesWitnessed(n)
  {
    hide FillWitnessed, StatusWitnessed;
    forall q | q in n.orders
      ensures n.orders[q].filled != 0 ==> FillWitnessed(n, q)
      ensures n.orders[q].status in {Acknowledged, Cancelled, Rejected} ==> StatusWitnessed(n, q)
    {
      assert RowsWitnessed(n, q);
    }
  }

  // ------------------------------------------------------------------------ ingest

  /** The recorded observation is visible in its own order's row and key. */
  ghost predicate OwnObservation(j: Journal, n: Journal, ob: Observation) {
    var f := FingerprintOf(ob.e);
    && ValidEvidence(ob.e)
    && KeyOf(ob.e) in n.orders
    && Reflected(n, ob)
    && EventIdKeyed(n, ob.e)
    && (f in n.keys && f !in j.keys ==>
          if n.keys[f].accepted then Accepted(ob) else n.orders[KeyOf(ob.e)].status == ManualReview)
  }

  /** Any order whose event id the observation reuses is in manual review. */
  ghost predicate OwnReuse(n: Journal, e: Evidence) {
    forall g :: g in n.keys && Clashes(g, e) ==>
      OrderOf(g) in n.orders && n.orders[OrderOf(g)].status == ManualReview
  }

  ghost predicate RowsExplained(j: Journal, n: Journal) {
    forall k :: k in j.orders && k in n.orders ==> NoNewBrokerStatus(j.orders[k], n.orders[k]) || RowsWitnessed(n, k)
  }

  /** What a transaction that records one observation must establish about it. */
  ghost predicate AppendsSoundly(j: Journal, n: Journal, ob: Observation) {
    && n.observations == j.observations + [ob]
    && n.keys.Keys <= j.keys.Keys + {FingerprintOf(ob.e)}
    && n.orders.Keys == j.orders.Keys
    && OwnObservation(j, n, ob)
    && OwnReuse(n, ob.e)
    && RowsExplained(j, n)
  }

  lemma NewFingerprintObserved(j: Journal, n: Journal, ob: Observation, f: Fingerprint)
    requires Sound(j) && Grows(j, n) && AppendsSoundly(j, n, ob)
    requires f in n.keys
    ensures KeyObserved(n, f)
    ensures !n.keys[f].accepted ==> OrderOf(f) in n.orders && n.orders[OrderOf(f)].status == ManualReview
  {
    if f in j.keys {
      OldKeyKeeps(j, n, f);
    } else {
      assert f == FingerprintOf(ob.e) && ob in n.observations;
    }
  }

  lemma ReuseStaysReviewed(j: Journal, n: Journal, ob: Observation, x: Observation, f: Fingerprint)
    requires Sound(j) && Grows(j, n) && AppendsSoundly(j, n, ob)
    requires x in n.observations && f in n.keys && Clashes(f, x.e)
    ensures OrderOf(f) in n.orders && n.orders[OrderOf(f)].status == ManualReview
  {
    if x != ob {
      assert x in j.observations;
      var g :| g in j.keys && SameIdentity(g, FingerprintOf(x.e));
      assert SameIdentity(g, f);
      assert f in j.keys;
      OldKeyKeeps(j, n, f);
      assert Clashes(f, x.e);
    }
  }

  lemma AppendKeepsObservations(j: Journal, n: Journal, ob: Observation)
    requires Sound(j) && Grows(j, n) && AppendsSoundly(j, n, ob)
    ensures ObservationsReflected(n)
  {
    forall x | x in n.observations
      ensures ValidEvidence(x.e) && KeyOf(x.e) in n.orders && Reflected(n, x)
      ensures EventIdKeyed(n, x.e)
    {
      if x in j.observations {
        OldObservationKeeps(j, n, x);
      } else {
        assert x == ob;
      }
    }
  }

  lemma AppendKeepsKeys(j: Journal, n: Journal, ob: Observation)
    requires Sound(j) && Grows(j, n) && AppendsSoundly(j, n, ob)
    ensures KeysObserved(n)
  {
    forall f | f in n.keys
      ensures KeyObserved(n, f)
      ensures !n.keys[f].accepted ==> OrderOf(f) in n.orders && n.orders[OrderOf(f)].status == ManualReview
    {
      NewFingerprintObserved(j, n, ob, f);
    }
  }

  lemma GrowthKeepsEventIds(j: Journal, n: Journal, e: Evidence)
    requires EventIdsUnique(j) && KeysGrow(j, n)
    requires n.keys.Keys <= j.keys.Keys + {FingerprintOf(e)}
    ensures EventIdsUnique(n)
  {
  }

  lemma AppendKeepsReuse(j: Journal, n: Journal, ob: Observation)
    requires Sound(j) && Grows(j, n) && AppendsSoundly(j, n, ob)
    ensures ReuseReviewed(n)
  {
    forall x, f | x in n.observations && f in n.keys && Clashes(f, x.e)
      ensures OrderOf(f) in n.orders && n.orders[OrderOf(f)].status == ManualReview
    {
      ReuseStaysReviewed(j, n, ob, x, f);
    }
  }

  lemma AppendKeepsWitnesses(j: Journal, n: Journal, ob: Observation)
    requires Sound(j) && Grows(j, n) && AppendsSoundly(j, n, ob)
    ensures FillsWitnessed(n) && StatusesWitnessed(n)
  {
    forall k | k in n.orders ensures RowsWitnessed(n, k) {
      OldWitnessKeeps(j, n, k);
    }
  }

  lemma AppendKeepsSound(j: Journal, n: Journal, ob: Observation)
    requires Sound(j) && Grows(j, n) && AppendsSoundly(j, n, ob)
    ensures Sound(n)
  {
    assert OrdersCoupled(n);
    AppendKeepsObservations(j, n, ob);
    AppendKeepsKeys(j, n, ob);
    GrowthKeepsEventIds(j, n, ob.e);
    AppendKeepsReuse(j, n, ob);
    AppendKeepsWitnesses(j, n, ob);
  }

  lemma FirstOrderIsOwn(obs: seq<Observation>, f: Fingerprint)
    ensures FirstOrder(obs, f).Some? ==> FirstOrder(obs, f).value == OrderOf(f)
    ensures FirstOrder(obs, f).None? <==> forall ob :: ob in obs ==> FingerprintOf(ob.e) != f
  {
  }

  lemma StoredKeyHasOrder(j: Journal, f: Fingerprint)
    requires KeysObserved(j) && ObservationsReflected(j) && f in j.keys
    ensures OrderOf(f) in j.orders && FirstOrder(j.observations, f) == Some(OrderOf(f))
  {
    hide EventIdKeyed;
    var first := StoredKeyObserved(j, f);
    assert KeyOf(first.e) == OrderOf(f);
    FirstOrderIsOwn(j.observations, f);
  }

  lemma ReusedRows(j: Journal, e: Evidence, f: Fingerprint)
    requires KeyOf(e) in j.orders && OrderOf(f) in j.orders
    requires FirstOrder(j.observations, f) == Some(OrderOf(f))
    ensures IngestReused(j, e, f) ==
            (Journal(j.orders[OrderOf(f) := SentToReview(j.orders[OrderOf(f)])]
                             [KeyOf(e) := SentToReview(j.orders[KeyOf(e)])],
                     j.keys, j.observations + [Observation(e, Conflicting)]),
             Conflicted(EventIdReused))
  {
    var m := j.orders[OrderOf(f) := SentToReview(j.orders[OrderOf(f)])];
    if OrderOf(f) == KeyOf(e) {
      assert m[KeyOf(e) := SentToReview(j.orders[KeyOf(e)])] == m;
    }
  }

  lemma ReviewRowsGrow(j: Journal, n: Journal, a: OrderKey, b: OrderKey)
    requires OrdersCoupled(j) && a in j.orders && b in j.orders
    requires n.orders == j.orders[a := SentToReview(j.orders[a])][b := SentToReview(j.orders[b])]
    requires n.keys == j.keys && j.observations <= n.observations
    ensures Grows(j, n) && RowsExplained(j, n)
  {
    forall k | k in j.orders
      ensures Advances(j.orders[k], n.orders[k]) && Coupled(n.orders[k]) && NoNewBrokerStatus(j.orders[k], n.orders[k])
    {
      assert Coupled(j.orders[k]);
    }
  }

  lemma ReusedObservation(j: Journal, n: Journal, e: Evidence, f: Fingerprint)
    requires EventIdsUnique(j) && n.keys == j.keys && f in j.keys && Clashes(f, e) && ValidEvidence(e)
    requires OrderOf(f) in n.orders && n.orders[OrderOf(f)].status == ManualReview
    requires KeyOf(e) in n.orders && n.orders[KeyOf(e)].status == ManualReview
    ensures OwnObservation(j, n, Observation(e, Conflicting)) && OwnReuse(n, e)
  {
    assert FingerprintOf(e) !in n.keys;
  }

  lemma ReusedKeepsSound(j: Journal, e: Evidence, f: Fingerprint)
    requires Sound(j) && ValidEvidence(e) && KeyOf(e) in j.orders
    requires f in j.keys && Clashes(f, e)
    ensures var n := IngestReused(j, e, f).0; Sound(n) && Grows(j, n)
  {
    hide OrdersCoupled, ObservationsReflected, EventIdsUnique, KeysObserved, ReuseReviewed, FillsWitnessed;
    hide StatusesWitnessed;
    hide FirstOrder, IngestReused, Clashes, ValidEvidence, Grows;
    var n := IngestReused(j, e, f).0;
    StoredKeyHasOrder(j, f);
    ReusedRows(j, e, f);
    ReviewRowsGrow(j, n, OrderOf(f), KeyOf(e));
    ReusedObservation(j, n, e, f);
    hide *;
    AppendKeepsSound(j, n, Observation(e, Conflicting));
  }

  lemma StoredKeyObserved(j: Journal, f: Fingerprint) returns (first: Observation)
    requires KeysObserved(j) && f in j.keys
    ensures first in j.observations && FingerprintOf(first.e) == f
    ensures j.keys[f].accepted ==> Accepted(first)
  {
    assert KeyObserved(j, f);
    first :| first in j.observations && FingerprintOf(first.e) == f && (j.keys[f].accepted ==> Accepted(first));
  }

  /** Evidence with a stored key is already reflected, under the tag its replay gets. */
  lemma StoredFactReflected(j: Journal, e: Evidence)
    requires KeysObserved(j) && ObservationsReflected(j) && FingerprintOf(e) in j.keys
    ensures KeyOf(e) in j.orders
    ensures Reflected(j, Observation(e, if j.keys[FingerprintOf(e)].accepted then Duplicate else ConflictDuplicate))
  {
    hide EventIdKeyed, ValidEvidence, KeysObserved;
    var first := StoredKeyObserved(j, FingerprintOf(e));
    assert Reflected(j, first);
    hide ObservationsReflected;
    TwinReflected(j, first, e);
  }

  /** The same fact is reflected under either tag its key admits. */
  lemma TwinReflected(j: Journal, first: Observation, e: Evidence)
    requires FingerprintOf(first.e) == FingerprintOf(e) && FingerprintOf(e) in j.keys
    requires KeyOf(first.e) in j.orders && Reflected(j, first)
    requires j.keys[FingerprintOf(e)].accepted ==> Accepted(first)
    ensures KeyOf(e) in j.orders
    ensures Reflected(j, Observation(e, if j.keys[FingerprintOf(e)].accepted then Duplicate else ConflictDuplicate))
  {
    assert DigestOf(first.e) == DigestOf(e);
  }

  lemma ReplayKeepsSound(j: Journal, e: Evidence)
    requires Sound(j) && ValidEvidence(e) && KeyOf(e) in j.orders
    requires FingerprintOf(e) in j.keys
    ensures var n := IngestReplay(j, e).0; Sound(n) && Grows(j, n) && n.orders == j.orders
  {
    hide KeyObserved;
    var n := IngestReplay(j, e).0;
    var f := FingerprintOf(e);
    var ob := Observation(e, if j.keys[f].accepted then Duplicate else ConflictDuplicate);
    StoredFactReflected(j, e);
    UnchangedRowsGrow(j, n);
    assert EventIdsUnique(j);
    hide Sound, Grows, RowsExplained;
    assert SameIdentity(f, f);
    assert Reflected(n, ob);
    assert OwnObservation(j, n, ob);
    assert OwnReuse(n, e);
    AppendKeepsSound(j, n, ob);
  }

  lemma UnchangedRowsGrow(j: Journal, n: Journal)
    requires Sound(j) && n.orders == j.orders && KeysGrow(j, n) && j.observations <= n.observations
    ensures Grows(j, n) && RowsExplained(j, n)
  {
  }

  lemma SuppressedFactHolds(j: Journal, e: Evidence)
    requires Sound(j) && ValidEvidence(e) && KeyOf(e) in j.orders && Suppressed(j, e)
    ensures Holds(j.orders[KeyOf(e)], e)
  {
    var ob :| ob in j.observations && ob.tag in AcceptedClasses && SameFact(ob.e, e);
    assert Reflected(j, ob);
  }

  lemma SuppressedKeepsSound(j: Journal, e: Evidence)
    requires Sound(j) && ValidEvidence(e) && KeyOf(e) in j.orders && Suppressed(j, e)
    requires !EventIdTaken(j, e) && FingerprintOf(e) !in j.keys
    ensures var n := IngestSuppressed(j, e).0; Sound(n) && Grows(j, n) && n.orders == j.orders
  {
    var n := IngestSuppressed(j, e).0;
    SuppressedFactHolds(j, e);
    FreshIdentity(j, e);
    UnchangedRowsGrow(j, n);
    hide Sound, Grows, RowsExplained;
    OwnNewKey(j, n, Observation(e, SemanticDuplicate));
    AppendKeepsSound(j, n, Observation(e, SemanticDuplicate));
  }

  /** A fresh key for the recorded evidence is the only key with its event id. */
  lemma OwnNewKey(j: Journal, n: Journal, ob: Observation)
    requires forall g :: g in j.keys ==> !SameIdentity(g, FingerprintOf(ob.e))
    requires FingerprintOf(ob.e) in n.keys && n.keys.Keys <= j.keys.Keys + {FingerprintOf(ob.e)}
    requires ValidEvidence(ob.e) && KeyOf(ob.e) in n.orders && Reflected(n, ob)
    requires if n.keys[FingerprintOf(ob.e)].accepted then Accepted(ob) else n.orders[KeyOf(ob.e)].status == ManualReview
    ensures OwnObservation(j, n, ob) && OwnReuse(n, ob.e)
  {
    assert SameIdentity(FingerprintOf(ob.e), FingerprintOf(ob.e));
  }

  lemma FreshIdentity(j: Journal, e: Evidence)
    requires !EventIdTaken(j, e) && FingerprintOf(e) !in j.keys
    ensures forall g :: g in j.keys ==> !SameIdentity(g, FingerprintOf(e))
  {
    forall g | g in j.keys ensures !SameIdentity(g, FingerprintOf(e)) {
      if SameIdentity(g, FingerprintOf(e)) {
        assert Clashes(g, e);
      }
    }
  }

  /** A merged fact is visible in the merged row, and explains any broker status it created. */
  lemma MergedFactHolds(o: Order, e: Evidence)
    requires Coupled(o) && ValidEvidence(e)
    requires MergeFact(o, e.requested, e.brokerOrderId, e.filled).Ok?
    ensures var p := MergeFact(o, e.requested, e.brokerOrderId, e.filled).value.0;
            && Coupled(p) && Advances(o, p) && Holds(p, e)
            && (p.filled == o.filled || p.filled == e.filled)
            && (p.status in {Acknowledged, Cancelled, Rejected} ==> p.status == o.status || p.status == e.requested)
  {
    FactKeepsCoupling(o, e.requested, e.brokerOrderId, e.filled);
  }

  /** Replacing one row by an advanced one, under a fresh key, is growth. */
  lemma OneRowGrows(j: Journal, n: Journal, k: OrderKey, p: Order)
    requires Sound(j) && k in j.orders && Coupled(p) && Advances(j.orders[k], p)
    requires n.orders == j.orders[k := p] && KeysGrow(j, n) && j.observations <= n.observations
    ensures Grows(j, n)
  {
    forall q | q in j.orders ensures Advances(j.orders[q], n.orders[q]) {
    }
  }

  lemma NewRowWitnessed(j: Journal, n: Journal, ob: Observation)
    requires Sound(j) && Grows(j, n) && n.observations == j.observations + [ob]
    requires KeyOf(ob.e) in j.orders
    requires var o, p := j.orders[KeyOf(ob.e)], n.orders[KeyOf(ob.e)];
             && (p.filled == o.filled || (Counted(n, ob) && ob.e.filled == p.filled))
             && (p.status in {Acknowledged, Cancelled, Rejected} ==>
                   p.status == o.status || (Accepted(ob) && ob.e.requested == p.status))
    requires forall k :: k in j.orders && k != KeyOf(ob.e) ==> n.orders[k] == j.orders[k]
    ensures RowsExplained(j, n)
  {
    hide Sound, Grows, Counted, FillWitnessed, StatusWitnessed;
    OldWitnessKeeps(j, n, KeyOf(ob.e));
    OwnFillWitnesses(n, ob);
    OwnStatusWitnesses(n, ob);
    assert RowsWitnessed(n, KeyOf(ob.e));
  }

  lemma OwnFillWitnesses(n: Journal, ob: Observation)
    requires ob in n.observations && KeyOf(ob.e) in n.orders
    ensures Counted(n, ob) && ob.e.filled == n.orders[KeyOf(ob.e)].filled ==> FillWitnessed(n, KeyOf(ob.e))
  {
    hide Counted;
  }

  lemma OwnStatusWitnesses(n: Journal, ob: Observation)
    requires ob in n.observations && KeyOf(ob.e) in n.orders
    ensures Accepted(ob) && ob.e.requested == n.orders[KeyOf(ob.e)].status ==> StatusWitnessed(n, KeyOf(ob.e))
  {
  }

  lemma MergedKeepsSound(j: Journal, e: Evidence)
    requires Sound(j) && ValidEvidence(e) && KeyOf(e) in j.orders
    requires !EventIdTaken(j, e) && FingerprintOf(e) !in j.keys
    requires MergeFact(j.orders[KeyOf(e)], e.requested, e.brokerOrderId, e.filled).Ok?
    ensures var n := IngestMerged(j, e).0; Sound(n) && Grows(j, n)
  {
    hide KeyObserved, EventIdKeyed, FillWitnessed, StatusWitnessed;
    var n := IngestMerged(j, e).0;
    var k, ob := KeyOf(e), Observation(e, New);
    assert Coupled(j.orders[k]);
    MergedFactHolds(j.orders[k], e);
    hide MergeFact;
    FreshIdentity(j, e);
    OneRowGrows(j, n, k, n.orders[k]);
    NewRowWitnessed(j, n, ob);
    hide Sound, Grows, RowsExplained;
    OwnNewKey(j, n, ob);
    AppendKeepsSound(j, n, ob);
  }

  lemma ConflictKeepsSound(j: Journal, e: Evidence)
    requires Sound(j) && ValidEvidence(e) && KeyOf(e) in j.orders
    requires !EventIdTaken(j, e) && FingerprintOf(e) !in j.keys
    requires MergeFact(j.orders[KeyOf(e)], e.requested, e.brokerOrderId, e.filled).Err?
    ensures var n := IngestMerged(j, e).0; Sound(n) && (n == j || Grows(j, n))
  {
    hide KeyObserved, EventIdKeyed, FillWitnessed, StatusWitnessed;
    hide ObservationsReflected, EventIdsUnique, KeysObserved, ReuseReviewed, FillsWitnessed;
    hide StatusesWitnessed, ValidEvidence;
    hide MergeFact;
    var n := IngestMerged(j, e).0;
    if n != j {
      var k, ob := KeyOf(e), Observation(e, Conflicting);
      FreshIdentity(j, e);
      assert Coupled(j.orders[k]);
      OneRowGrows(j, n, k, n.orders[k]);
      NewRowWitnessed(j, n, ob);
      hide Sound, Grows, RowsExplained;
      OwnNewKey(j, n, ob);
      AppendKeepsSound(j, n, ob);
    }
  }

  lemma IngestKeepsSound(j: Journal, e: Evidence)
    requires Sound(j) && ValidEvidence(e)
    ensures Sound(Ingest(j, e).0)
    ensures Ingest(j, e).0 == j || Grows(j, Ingest(j, e).0)
  {
    if KeyOf(e) !in j.orders {
    } else if EventIdTaken(j, e) {
      var f :| f in j.keys && Clashes(f, e) && Ingest(j, e) == IngestReused(j, e, f);
      ReusedKeepsSound(j, e, f);
    } else if FingerprintOf(e) in j.keys {
      ReplayKeepsSound(j, e);
    } else if Suppressed(j, e) {
      SuppressedKeepsSound(j, e);
    } else if MergeFact(j.orders[KeyOf(e)], e.requested, e.brokerOrderId, e.filled).Ok? {
      MergedKeepsSound(j, e);
    } else {
      ConflictKeepsSound(j, e);
    }
  }

  // --------------------------------------------------------------------- histories

  datatype JournalStep =
    | Deliver(e: Evidence)
    | Create(k: OrderKey, quantity: int)
    | Import(k: OrderKey, quantity: int)
    | Write(k: OrderKey, step: RowStep)

  const EmptyJournal := Journal(map[], map[], [])

  /** Row writes other than the two that evidence ingestion makes. */
  predicate IsCommandStep(step: RowStep) { !step.Fact? && !step.Conflict? }

  predicate Writable(j: Journal, k: OrderKey, step: RowStep) {
    k in j.orders && IsCommandStep(step) && StepGuard(j.orders[k], step) && ApplyStep(j.orders[k], step).Ok?
  }

  /** One transaction; a rejected one leaves the journal unchanged. */
  ghost function Advance(j: Journal, s: JournalStep): Journal {
    match s
    case Deliver(e) => if ValidEvidence(e) then Ingest(j, e).0 else j
    case Create(k, quantity) => if k !in j.orders && 0 < quantity then PutOrder(j, k, NewOrder(quantity)) else j
    case Import(k, quantity) => if k !in j.orders && 0 < quantity then PutOrder(j, k, ImportedOrder(quantity)) else j
    case Write(k, step) => if Writable(j, k, step) then PutOrder(j, k, ApplyStep(j.orders[k], step).value) else j
  }

  ghost function RunHistory(j: Journal, steps: seq<JournalStep>): Journal
    decreases |steps|
  {
    if steps == [] then j else RunHistory(Advance(j, steps[0]), steps[1..])
  }

  /** Submit and cancel returns and command results never create a broker status or a fill. */
  lemma CommandStepsReportNothing(o: Order, step: RowStep)
    requires Coupled(o) && StepGuard(o, step) && IsCommandStep(step) && ApplyStep(o, step).Ok?
    ensures var p := ApplyStep(o, step).value;
            && p.filled == o.filled && p.brokerId == o.brokerId
            && (IsReportable(p.status) ==> p.status == o.status)
  {
  }

  lemma GrowsReflexive(j: Journal)
    requires OrdersCoupled(j)
    ensures Grows(j, j)
  {
  }

  lemma AdvanceKeepsSound(j: Journal, s: JournalStep)
    requires Sound(j)
    ensures Sound(Advance(j, s))
    ensures Grows(j, Advance(j, s))
  {
    GrowsReflexive(j);
    match s
    case Deliver(e) =>
      if ValidEvidence(e) {
        IngestKeepsSound(j, e);
      }
    case Create(k, quantity) =>
      if k !in j.orders && 0 < quantity {
        RowWriteKeepsSound(j, k, NewOrder(quantity));
      }
    case Import(k, quantity) =>
      if k !in j.orders && 0 < quantity {
        RowWriteKeepsSound(j, k, ImportedOrder(quantity));
      }
    case Write(k, step) =>
      if Writable(j, k, step) {
        StepKeepsCoupling(j.orders[k], step);
        CommandStepsReportNothing(j.orders[k], step);
        RowWriteKeepsSound(j, k, ApplyStep(j.orders[k], step).value);
      }
  }

  lemma GrowsTransitive(a: Journal, b: Journal, c: Journal)
    requires Grows(a, b) && Grows(b, c)
    ensures Grows(a, c)
  {
    forall k | k in a.orders ensures k in c.orders && Advances(a.orders[k], c.orders[k]) {
      assert k in b.orders;
    }
  }

  /** Soundness holds in every reachable database, and every history only grows it. */
  lemma {:induction false} HistoryKeepsSound(j: Journal, steps: seq<JournalStep>)
    requires Sound(j)
    ensures Sound(RunHistory(j, steps)) && Grows(j, RunHistory(j, steps))
    decreases |steps|
  {
    if steps == [] {
      GrowsReflexive(j);
    } else {
      var mid := Advance(j, steps[0]);
      AdvanceKeepsSound(j, steps[0]);
      HistoryKeepsSound(mid, steps[1..]);
      hide Sound, Grows;
      GrowsTransitive(j, mid, RunHistory(mid, steps[1..]));
    }
  }

  lemma EmptyJournalSound()
    ensures Sound(EmptyJournal)
  {
  }

  lemma ReachableIsSound(steps: seq<JournalStep>)
    ensures Sound(RunHistory(EmptyJournal, steps))
  {
    EmptyJournalSound();
    HistoryKeepsSound(EmptyJournal, steps);
  }
}
