/**
 * What an ingest answers its caller (oms/evidence.py): when it calls a fact a
 * duplicate, what it did with a new one, why it refuses one, and that a
 * repeated fact is answered as it was the first time.
 */
module JournalAnswers {
  import opened Basics
  import opened OrderLifecycle
  import opened OrderRows
  import opened BrokerEvidence
  import opened EvidenceJournal
  import opened JournalHistory
  import opened JournalTheorems

  /** Two deliveries are one source event exactly when they differ in arrival time and raw reference alone. */
  lemma SameEventExactlyWhen(a: Evidence, b: Evidence)
    ensures FingerprintOf(a) == FingerprintOf(b) <==> a.(observedAt := b.observedAt, rawRef := b.rawRef) == b
  {
  }

  /** Some stored evidence has this source, account and event id but says something else. */
  ghost predicate Contradicted(j: Journal, e: Evidence) {
    exists f ::
      && f in j.keys && f.digest != DigestOf(e)
      && (f.source, f.account, f.eventId) == (e.source, e.account, e.eventId)
  }

  /**
   * Evidence is answered as a duplicate exactly when its own event was accepted before, or
   * when an accepted observation of the same order says the same and asking for the status
   * again would neither move the order nor be illegal.
   */
  lemma DuplicateExactlyWhen(j: Journal, e: Evidence)
    requires KeyOf(e) in j.orders
    ensures var a := Ingest(j, e).1;
            a.Ingested? && a.duplicate <==>
              && !Contradicted(j, e)
              && if FingerprintOf(e) in j.keys then j.keys[FingerprintOf(e)].accepted
                 else
                   && Transition(j.orders[KeyOf(e)].status, e.requested).Ok?
                   && Transition(j.orders[KeyOf(e)].status, e.requested).value.current == j.orders[KeyOf(e)].status
                   && exists ob :: ob in j.observations && ob.tag in {New, Duplicate, SemanticDuplicate} &&
                                   ob.e.account == e.account && ob.e.clientOrderId == e.clientOrderId &&
                                   ob.e.kind == e.kind && ob.e.requested == e.requested && ob.e.filled == e.filled &&
                                   Coalesce(ob.e.brokerOrderId) == Coalesce(e.brokerOrderId) &&
                                   Coalesce(ob.e.tradeId) == Coalesce(e.tradeId) &&
                                   Coalesce(ob.e.brokerToken) == Coalesce(e.brokerToken)
    ensures var a := Ingest(j, e).1;
            a.Ingested? && a.duplicate ==>
              && a.status == j.orders[KeyOf(e)].status
              && (FingerprintOf(e) !in j.keys ==> a.disposition == DuplicateIgnored)
              && Ingest(j, e).0.orders == j.orders
  {
    ContradictedExactlyWhenTaken(j, e);
    hide DigestOf, FingerprintOf, Transition, MergeFact, MarkConflict, ReasonFor;
    if !EventIdTaken(j, e) && FingerprintOf(e) !in j.keys && Suppressed(j, e) {
      var ob :| ob in j.observations && ob.tag in AcceptedClasses && SameFact(ob.e, e);
    }
  }

  lemma ContradictedExactlyWhenTaken(j: Journal, e: Evidence)
    ensures Contradicted(j, e) <==> EventIdTaken(j, e)
  {
    if Contradicted(j, e) {
      var f :|
        && f in j.keys && f.digest != DigestOf(e)
        && (f.source, f.account, f.eventId) == (e.source, e.account, e.eventId);
      assert Clashes(f, e);
    }
  }

  /** Evidence that is neither a repeat nor suppressed: it is merged or it conflicts. */
  ghost predicate IsNews(j: Journal, e: Evidence) {
    && KeyOf(e) in j.orders && !EventIdTaken(j, e) && FingerprintOf(e) !in j.keys && !Suppressed(j, e)
  }

  /**
   * News that is taken in answers the row's new status, and its disposition says what it
   * did: APPLIED exactly when the status moved, DUPLICATE_IGNORED exactly when the order
   * already was where the fact puts it at the fill now known, and STALE_IGNORED otherwise.
   */
  lemma NewsAnswer(j: Journal, e: Evidence)
    requires IsNews(j, e) && Ingest(j, e).1.Ingested?
    ensures var (n, a) := Ingest(j, e);
            var o, p := j.orders[KeyOf(e)], n.orders[KeyOf(e)];
            && !a.duplicate && a.status == p.status
            && (a.disposition == Applied <==> p.status != o.status)
            && (a.disposition == DuplicateIgnored <==>
                  && p.status == o.status
                  && o.status == if e.requested in {Acknowledged, PartiallyFilled} && p.filled == p.quantity then Filled
                                 else if e.requested in {Acknowledged, PartiallyFilled} && p.filled > 0
                                 then PartiallyFilled
                                 else e.requested)
  {
    hide FingerprintOf, Suppressed, EventIdTaken;
  }

  /**
   * Why news conflicts, told from the row and the fact: another broker id; a broker end that
   * contradicts the recorded one, or a larger fill after it; a fill beyond the order; or an end
   * that does not agree with the largest fill known. Nothing else conflicts.
   */
  lemma ConflictSaysWhy(j: Journal, e: Evidence)
    requires IsNews(j, e) && ValidEvidence(e) && Coupled(j.orders[KeyOf(e)])
    ensures var o, a := j.orders[KeyOf(e)], Ingest(j, e).1;
            var ids := o.brokerId.Some? && e.brokerOrderId.Some? && o.brokerId != e.brokerOrderId;
            var ends := {Filled, Cancelled, Rejected};
            var contrary := o.status in ends && e.requested in ends && o.status != e.requested;
            var known := if o.filled < e.filled then e.filled else o.filled;
            && (a == Conflicted(IdMismatch) <==> ids)
            && (a == RolledBack <==> !ids && contrary && e.filled > o.quantity)
            && (a == Conflicted(FillConflict(OutsideRange)) <==> !ids && !contrary && e.filled > o.quantity)
            && (a == Conflicted(FillConflict(FilledMismatch)) <==>
                  !ids && !contrary && e.requested == Filled && known < o.quantity)
            && (a == Conflicted(FillConflict(RejectedWithFill)) <==>
                  !ids && !contrary && e.requested == Rejected && known > 0)
            && (a == Conflicted(FillConflict(CancelledAtQuantity)) <==>
                  !ids && !contrary && e.requested == Cancelled && known == o.quantity)
            && (a == Conflicted(TerminalFact) <==>
                  && !ids && e.filled <= o.quantity
                  && (contrary
                      || (o.status in {Cancelled, Rejected} && e.filled > o.filled && e.requested == PartiallyFilled)
                      || (o.status == Cancelled && e.filled > o.filled && e.requested == Cancelled
                          && e.filled < o.quantity)))
            && (a.Conflicted? ==> a.why in {IdMismatch, TerminalFact, FillConflict(OutsideRange),
                                            FillConflict(FilledMismatch), FillConflict(RejectedWithFill),
                                            FillConflict(CancelledAtQuantity)})
  {
    hide FingerprintOf, Suppressed, EventIdTaken;
  }

  // -------------------------------------------------------------------------- repeats

  /** How a repeat of evidence answered with `first` is answered, its order being in `now`. */
  predicate AnsweredAlike(first: Answer, now: Status, again: Answer) {
    match first
    case Ingested(_, disposition, _) => again == Ingested(now, disposition, true)
    case Conflicted(why) => again == Conflicted(why)
    case RolledBack => true
  }

  /** The answer that the stored row for evidence gives. */
  function StoredAnswer(row: KeyRow, now: Status): Answer {
    if row.accepted then
      Ingested(now, if row.disposition.Some? then row.disposition.value else DuplicateIgnored, true)
    else
      Conflicted(if row.reason.Some? then row.reason.value else IllegalEvidence)
  }

  /** The first answer is the one its stored row goes on giving. */
  lemma FirstAnswerIsStored(j: Journal, e: Evidence)
    requires !EventIdTaken(j, e) && Ingest(j, e).1 != RolledBack
    ensures var (n, a) := Ingest(j, e);
            && KeyOf(e) in n.orders && FingerprintOf(e) in n.keys
            && forall now :: AnsweredAlike(a, now, StoredAnswer(n.keys[FingerprintOf(e)], now))
  {
    hide EventIdTaken, FingerprintOf, Suppressed, MergeFact, MarkConflict, ReasonFor;
  }

  lemma StoredIsAnswered(j: Journal, e: Evidence)
    requires EventIdsUnique(j) && FingerprintOf(e) in j.keys && KeyOf(e) in j.orders
    ensures Ingest(j, e).1 == StoredAnswer(j.keys[FingerprintOf(e)], j.orders[KeyOf(e)].status)
  {
    assert SameIdentity(FingerprintOf(e), FingerprintOf(e));
    assert !EventIdTaken(j, e);
    hide FingerprintOf, EventIdsUnique, IngestMerged, IngestSuppressed, IngestReused, Suppressed;
  }

  /** A taken event id stays taken and goes on being refused. */
  lemma TakenIsRefused(j: Journal, later: Journal, e: Evidence)
    requires EventIdTaken(j, e) && KeysGrow(j, later) && Ingest(later, e).1 != RolledBack
    ensures Ingest(later, e).1 == Conflicted(EventIdReused)
  {
    hide FirstOrder, SentToReview, IngestReplay, IngestMerged, IngestSuppressed, Suppressed, FingerprintOf;
    var f :| f in j.keys && Clashes(f, e);
    assert f in later.keys;
  }

  /** Evidence that is answered leaves an observation of itself. */
  lemma AnsweredIsObserved(j: Journal, e: Evidence) returns (ob: Observation)
    requires Ingest(j, e).1 != RolledBack
    ensures ob in Ingest(j, e).0.observations && ob.e == e
    ensures KeyOf(e) in Ingest(j, e).0.orders
  {
    hide EventIdTaken, FingerprintOf, Suppressed, MergeFact, MarkConflict, ReasonFor, FirstOrder;
    var os := Ingest(j, e).0.observations;
    ob := os[|os| - 1];
  }

  /**
   * A source event that was answered once is answered the same way whenever it is delivered
   * again: accepted evidence as a duplicate with its first disposition and the order's
   * current status, refused evidence with its first reason. Neither moves an order.
   */
  lemma RepeatIsAnsweredAlike(before: seq<JournalStep>, e: Evidence, between: seq<JournalStep>, again: Evidence)
    requires ValidEvidence(e) && FingerprintOf(again) == FingerprintOf(e)
    requires Ingest(RunHistory(EmptyJournal, before), e).1 != RolledBack
    ensures var j := RunHistory(EmptyJournal, before);
            var later := RunHistory(Ingest(j, e).0, between);
            && KeyOf(e) in later.orders
            && AnsweredAlike(Ingest(j, e).1, later.orders[KeyOf(e)].status, Ingest(later, again).1)
            && Ingest(later, again).0.orders == later.orders
  {
    var j := RunHistory(EmptyJournal, before);
    ReachableIsSound(before);
    IngestKeepsSound(j, e);
    var n, first := Ingest(j, e).0, Ingest(j, e).1;
    HistoryKeepsSound(n, between);
    var later := RunHistory(n, between);
    assert KeyOf(again) == KeyOf(e) && (EventIdTaken(j, e) <==> EventIdTaken(j, again));
    assert EventIdsUnique(later);
    GrowsReflexive(j);
    assert KeysGrow(n, later) && KeysGrow(j, n) && KeysGrow(j, later) by {
      GrowsTransitive(j, n, later);
    }
    hide RunHistory, Sound, ValidEvidence, Ingest, EventIdTaken, EventIdsUnique;
    var ob := AnsweredIsObserved(j, e);
    PrefixMember(n.observations, later.observations, ob);
    ReplayChangesNoRow(later, ob, again);
    if EventIdTaken(j, e) {
      TakenIsRefused(j, j, e);
      TakenIsRefused(j, later, again);
    } else {
      hide KeysGrow;
      FirstAnswerIsStored(j, e);
      assert later.keys[FingerprintOf(e)] == n.keys[FingerprintOf(e)];
      StoredIsAnswered(later, again);
    }
  }
}
