/**
 * Startup recovery (oms/service.py, `recover`) as transactions of the
 * many-session system: the history it commits for the rows it listed, what
 * that history makes of the database, and that any interleaving with other
 * sessions ends the same way while the lease is held.
 */
module RecoveryRuns {
  import opened Basics
  import opened OrderLifecycle
  import opened OrderRows
  import opened BrokerEvidence
  import opened EvidenceJournal
  import opened JournalHistory
  import opened LeaderLease
  import opened BrokerDriver
  import opened OmsService
  import OmsSystem
  import OmsIsolation

  // ----------------------------------------------------------------------- one row

  /** The writes that bring a row to RECONCILING. */
  function Walk(o: Order): seq<RowStep> {
    match o.status
    case Submitting | CancelPending => [ToUnknown, ToReconciling]
    case Acknowledged | PartiallyFilled => [RestoreCancelPending, ToUnknown, ToReconciling]
    case Unknown => [ToReconciling]
    case _ => []
  }

  function Writes(k: OrderKey, steps: seq<RowStep>): seq<JournalStep> {
    if steps == [] then [] else [Write(k, steps[0])] + Writes(k, steps[1..])
  }

  function Resolution(o: Order): seq<RowStep> { if CancelUnresolved(o) then [SameStatus(Some(true))] else [] }

  /** What follows the broker's answer. */
  function AnswerHistory(session: string, row: Row, seen: Option<DriverOrder>, at: int): seq<JournalStep> {
    if seen.None? then [Write(row.k, NotFound(if CancelUnresolved(row.o) then Some(true) else None))]
    else if KindOf(seen.value.status).None? then []
    else
      [Deliver(QueryEvidence(session, StartupReason, row.k, seen.value, KindOf(seen.value.status).value, at))]
      + Writes(row.k, Resolution(row.o))
  }

  function RowHistory(session: string, row: Row, seen: Option<DriverOrder>, at: int): seq<JournalStep> {
    if row.o.status in {Created, RiskAccepted} then Writes(row.k, [Abort])
    else if SettlesLocally(row.o) then Writes(row.k, [SameStatus(Some(true))])
    else Writes(row.k, Walk(row.o)) + AnswerHistory(session, row, seen, at)
  }

  lemma {:induction false} HistoryConcat(j: Journal, first: seq<JournalStep>, rest: seq<JournalStep>)
    ensures RunHistory(j, first + rest) == RunHistory(RunHistory(j, first), rest)
    decreases |first|
  {
    if first == [] {
      assert first + rest == rest;
    } else {
      hide Advance;
      assert (first + rest)[1..] == first[1..] + rest;
      HistoryConcat(Advance(j, first[0]), first[1..], rest);
    }
  }

  /** One guarded write, as the session's `Move` makes it. */
  lemma OneWrite(j: Journal, k: OrderKey, target: Status, resolved: Option<bool>, step: RowStep, p: Order,
                 rest: seq<RowStep>)
    requires Sound(j) && k in j.orders && Moves(j.orders[k], target, resolved, step, p)
    ensures Sound(PutOrder(j, k, p))
    ensures RunHistory(j, Writes(k, [step] + rest)) == RunHistory(PutOrder(j, k, p), Writes(k, rest))
  {
    hide Sound, Advance, CommandTransition, ApplyStep, StepGuard, IsCommandStep;
    MoveKeepsSound(j, k, target, resolved, step, p);
    WriteIsStep(j, k, step);
    assert ([step] + rest)[1..] == rest;
    assert Writes(k, [step] + rest)[1..] == Writes(k, rest);
  }

  lemma PutTwice(j: Journal, k: OrderKey, p: Order, q: Order)
    ensures PutOrder(PutOrder(j, k, p), k, q) == PutOrder(j, k, q)
    ensures k in j.orders ==> PutOrder(j, k, j.orders[k]) == j
  {
    assert j.orders[k := p][k := q] == j.orders[k := q];
    assert k in j.orders ==> j.orders[k := j.orders[k]] == j.orders;
  }

  lemma NoWrites(j: Journal, k: OrderKey)
    ensures RunHistory(j, Writes(k, [])) == j
  {
  }

  lemma UnknownWalks(j: Journal, k: OrderKey)
    requires Sound(j) && k in j.orders && j.orders[k].status == Unknown
    ensures RunHistory(j, Writes(k, [ToReconciling])) == PutOrder(j, k, j.orders[k].(status := Reconciling))
    ensures Sound(PutOrder(j, k, j.orders[k].(status := Reconciling)))
  {
    hide Sound, Moves, RunHistory, Advance;
    var o := j.orders[k];
    MovesForward(o);
    OneWrite(j, k, Reconciling, None, ToReconciling, o.(status := Reconciling), []);
    NoWrites(PutOrder(j, k, o.(status := Reconciling)), k);
    assert [ToReconciling] + [] == [ToReconciling];
  }

  lemma PendingWalks(j: Journal, k: OrderKey)
    requires Sound(j) && k in j.orders && j.orders[k].status in {Submitting, CancelPending}
    ensures RunHistory(j, Writes(k, [ToUnknown, ToReconciling])) == PutOrder(j, k, j.orders[k].(status := Reconciling))
    ensures Sound(PutOrder(j, k, j.orders[k].(status := Reconciling)))
  {
    hide Sound, Moves, RunHistory, Advance;
    var o := j.orders[k];
    MovesForward(o);
    OneWrite(j, k, Unknown, None, ToUnknown, o.(status := Unknown), [ToReconciling]);
    assert [ToUnknown] + [ToReconciling] == [ToUnknown, ToReconciling];
    UnknownWalks(PutOrder(j, k, o.(status := Unknown)), k);
    PutTwice(j, k, o.(status := Unknown), o.(status := Reconciling));
  }

  lemma RestoredWalks(j: Journal, k: OrderKey)
    requires Sound(j) && k in j.orders && CancelUnresolved(j.orders[k])
             && j.orders[k].status in {Acknowledged, PartiallyFilled}
    ensures RunHistory(j, Writes(k, [RestoreCancelPending, ToUnknown, ToReconciling]))
              == PutOrder(j, k, j.orders[k].(status := Reconciling))
    ensures Sound(PutOrder(j, k, j.orders[k].(status := Reconciling)))
  {
    hide Sound, Moves, RunHistory, Advance;
    var o := j.orders[k];
    MovesForward(o);
    OneWrite(j, k, CancelPending, None, RestoreCancelPending, o.(status := CancelPending), [ToUnknown, ToReconciling]);
    assert [RestoreCancelPending] + [ToUnknown, ToReconciling] == [RestoreCancelPending, ToUnknown, ToReconciling];
    PendingWalks(PutOrder(j, k, o.(status := CancelPending)), k);
    PutTwice(j, k, o.(status := CancelPending), o.(status := Reconciling));
  }

  /** The flags of a reachable row say which statuses ask the broker. */
  lemma AskedStatus(j: Journal, k: OrderKey)
    requires Sound(j) && k in j.orders && MustAsk(j.orders[k])
    ensures var o := j.orders[k];
            && (o.status in {Acknowledged, PartiallyFilled} ==> CancelUnresolved(o))
            && o.status in {Submitting, CancelPending, Acknowledged, PartiallyFilled, Unknown, Reconciling,
                            ManualReview}
  {
    hide OrdersCoupled, KeysObserved, ObservationsReflected;
    SoundParts(j);
    RecoveryFlagsHold(j, k);
  }

  /** The walk ends with the row waiting for the broker. */
  lemma WalkEnds(j: Journal, k: OrderKey)
    requires Sound(j) && k in j.orders && MustAsk(j.orders[k])
    ensures RunHistory(j, Writes(k, Walk(j.orders[k]))) == PutOrder(j, k, Asking(j.orders[k]))
    ensures Sound(PutOrder(j, k, Asking(j.orders[k])))
  {
    hide Sound, RunHistory, Writes;
    var o := j.orders[k];
    AskedStatus(j, k);
    PutTwice(j, k, o, o);
    NoWrites(j, k);
    if o.status in {Submitting, CancelPending} {
      PendingWalks(j, k);
    } else if o.status in {Acknowledged, PartiallyFilled} {
      RestoredWalks(j, k);
    } else if o.status == Unknown {
      UnknownWalks(j, k);
    }
  }

  lemma ResolutionEnds(j: Journal, k: OrderKey, o: Order)
    requires Sound(j) && k in j.orders && j.orders[k].status != CancelPending
    ensures var p := if CancelUnresolved(o) then j.orders[k].(cancelResolved := true) else j.orders[k];
            RunHistory(j, Writes(k, Resolution(o))) == PutOrder(j, k, p) && Sound(PutOrder(j, k, p))
  {
    hide Sound, Moves, RunHistory, Writes;
    PutTwice(j, k, j.orders[k], j.orders[k]);
    NoWrites(j, k);
    if CancelUnresolved(o) {
      var q := j.orders[k];
      var p := q.(cancelResolved := true);
      MovesNowhere(q);
      OneWrite(j, k, q.status, Some(true), SameStatus(Some(true)), p, []);
      assert [SameStatus(Some(true))] + [] == [SameStatus(Some(true))];
      NoWrites(PutOrder(j, k, p), k);
    }
  }

  /** The answer is one the session takes in; otherwise recovery raises there. */
  ghost predicate TakenIn(j: Journal, session: string, row: Row, seen: Option<DriverOrder>, at: int)
    requires row.k in j.orders
  {
    MustAsk(row.o) && seen.Some? ==>
      && KindOf(seen.value.status).Some?
      && var e := QueryEvidence(session, StartupReason, row.k, seen.value, KindOf(seen.value.status).value, at);
         ValidEvidence(e) && Ingest(PutOrder(j, row.k, Asking(row.o)), e).1.Ingested?
  }

  /** One row's transactions leave that row recovered, and nothing else changed. */
  ghost predicate RowDone(j: Journal, n: Journal, session: string, row: Row, seen: Option<DriverOrder>) {
    && Sound(n) && row.k in n.orders && n.orders == j.orders[row.k := n.orders[row.k]]
    && Processed(row.o, n.orders[row.k], seen, Repeats(j.keys, session, StartupReason, row.k, seen))
    && KeysAddedFor(j.keys, n.keys, session, StartupReason, row.k) && j.keys.Keys <= n.keys.Keys
  }

  /** Rows that recovery settles without the broker. */
  lemma SettledIsProcessed(j: Journal, k: OrderKey, seen: Option<DriverOrder>, repeated: bool)
    requires Sound(j) && k in j.orders && NeedsRecovery(j.orders[k]) && SettlesLocally(j.orders[k])
    ensures var o := j.orders[k];
            if o.status in {Created, RiskAccepted} then Processed(o, o.(status := Aborted), seen, repeated)
            else o.status != CancelPending && Processed(o, o.(cancelResolved := true), seen, repeated)
  {
    hide OrdersCoupled, KeysObserved, ObservationsReflected, QueriedRow;
    SoundParts(j);
    RecoveryFlagsHold(j, k);
  }

  lemma LocalRowDone(j: Journal, session: string, row: Row, seen: Option<DriverOrder>, at: int)
    requires Sound(j) && row.k in j.orders && j.orders[row.k] == row.o && NeedsRecovery(row.o) && SettlesLocally(row.o)
    ensures RowDone(j, RunHistory(j, RowHistory(session, row, seen, at)), session, row, seen)
  {
    hide Sound, Moves, Repeats, Processed, RunHistory, Writes, SettlesLocally, NeedsRecovery, FingerprintOf;
    var o, k := row.o, row.k;
    SettledIsProcessed(j, k, seen, Repeats(j.keys, session, StartupReason, k, seen));
    if o.status in {Created, RiskAccepted} {
      var p := o.(status := Aborted);
      MovesForward(o);
      OneWrite(j, k, Aborted, None, Abort, p, []);
      assert [Abort] + [] == [Abort];
      NoWrites(PutOrder(j, k, p), k);
    } else {
      var p := o.(cancelResolved := true);
      MovesNowhere(o);
      OneWrite(j, k, o.status, Some(true), SameStatus(Some(true)), p, []);
      assert [SameStatus(Some(true))] + [] == [SameStatus(Some(true))];
      NoWrites(PutOrder(j, k, p), k);
    }
  }

  lemma UnknownIsProcessed(o: Order, repeated: bool)
    requires MustAsk(o) && !repeated
    requires o.status in {Submitting, CancelPending, Acknowledged, PartiallyFilled, Unknown, Reconciling, ManualReview}
    ensures Processed(o, MarkManualReview(Asking(o), if CancelUnresolved(o) then Some(true) else None), None, repeated)
    ensures Asking(o).status in {Reconciling, ManualReview}
  {
    hide FactRow;
  }

  lemma UnknownRowDone(j: Journal, session: string, row: Row, at: int)
    requires Sound(j) && row.k in j.orders && j.orders[row.k] == row.o && MustAsk(row.o)
    ensures RowDone(j, RunHistory(j, RowHistory(session, row, None, at)), session, row, None)
  {
    hide Sound, Moves, RunHistory, Writes, Walk, Asking, MarkManualReview, Processed, FingerprintOf;
    var o, k := row.o, row.k;
    AskedStatus(j, k);
    WalkEnds(j, k);
    UnknownIsProcessed(o, Repeats(j.keys, session, StartupReason, k, None));
    var asking := PutOrder(j, k, Asking(o));
    var resolved := if CancelUnresolved(o) then Some(true) else None;
    var p := MarkManualReview(Asking(o), resolved);
    MovesToReview(Asking(o), resolved);
    OneWrite(asking, k, ManualReview, resolved, NotFound(resolved), p, []);
    assert [NotFound(resolved)] + [] == [NotFound(resolved)];
    NoWrites(PutOrder(asking, k, p), k);
    OneWritten(k, NotFound(resolved));
    HistoryConcat(j, Writes(k, Walk(o)), [Write(k, NotFound(resolved))]);
    PutTwice(j, k, Asking(o), p);
  }

  lemma OneWritten(k: OrderKey, step: RowStep)
    ensures Writes(k, [step]) == [Write(k, step)]
  {
  }

  lemma AnsweredRowDone(j: Journal, session: string, row: Row, seen: DriverOrder, at: int)
    requires Sound(j) && row.k in j.orders && j.orders[row.k] == row.o && MustAsk(row.o)
    requires TakenIn(j, session, row, Some(seen), at)
    ensures RowDone(j, RunHistory(j, RowHistory(session, row, Some(seen), at)), session, row, Some(seen))
  {
    hide Sound, Ingest, ValidEvidence, FactRow, KeysAddedFor, Repeats, Walk, Asking, KeepsReservations, IsAmbiguous;
    hide RunHistory, Writes, Processed, QueryEvidence, Resolution;
    var o, k := row.o, row.k;
    var e := QueryEvidence(session, StartupReason, k, seen, KindOf(seen.status).value, at);
    AskedStatus(j, k);
    WalkEnds(j, k);
    AskingWaits(o);
    var asking := PutOrder(j, k, Asking(o));
    QueryIngest(asking, session, StartupReason, k, seen, KindOf(seen.status).value, at);
    var heard := Ingest(asking, e).0;
    ResolutionEnds(heard, k, o);
    AnswerRuns(asking, heard, e, Writes(k, Resolution(o)));
    HistoryConcat(j, Writes(k, Walk(o)), AnswerHistory(session, row, Some(seen), at));
    var repeated := Repeats(j.keys, session, StartupReason, k, Some(seen));
    AnsweredIsProcessed(o, asking.orders[k], heard.orders[k], Some(seen), repeated);
    assert heard.orders == asking.orders[k := heard.orders[k]];
  }

  lemma AskingWaits(o: Order)
    ensures Asking(o).status in {Reconciling, ManualReview}
  {
  }

  lemma AnswerRuns(j: Journal, n: Journal, e: Evidence, rest: seq<JournalStep>)
    requires ValidEvidence(e) && Ingest(j, e).0 == n
    ensures RunHistory(j, [Deliver(e)] + rest) == RunHistory(n, rest)
  {
    hide Ingest, ValidEvidence;
    assert ([Deliver(e)] + rest)[1..] == rest;
  }

  lemma AnsweredIsProcessed(o: Order, a: Order, h: Order, seen: Option<DriverOrder>, repeated: bool)
    requires MustAsk(o) && a == Asking(o) && a.status in {Reconciling, ManualReview} && seen.Some?
             && SameCancelFlags(a, h)
    requires h == if repeated then a else FactRow(a, seen.value.status, seen.value.brokerOrderId, seen.value.filled)
    requires !repeated ==> !IsAmbiguous(h.status)
    ensures Processed(o, if CancelUnresolved(o) then h.(cancelResolved := true) else h, seen, repeated)
  {
    hide FactRow;
  }

  lemma RowIsDone(j: Journal, session: string, row: Row, seen: Option<DriverOrder>, at: int)
    requires Sound(j) && row.k in j.orders && j.orders[row.k] == row.o && NeedsRecovery(row.o)
    requires TakenIn(j, session, row, seen, at)
    ensures RowDone(j, RunHistory(j, RowHistory(session, row, seen, at)), session, row, seen)
  {
    hide Sound, RowDone, TakenIn, RunHistory, RowHistory;
    if SettlesLocally(row.o) {
      LocalRowDone(j, session, row, seen, at);
    } else if seen.None? {
      UnknownRowDone(j, session, row, at);
    } else {
      AnsweredRowDone(j, session, row, seen.value, at);
    }
  }

  // ---------------------------------------------------------------------- all rows

  function RecoveryHistory(session: string, rows: seq<Row>, answers: Answers,
                           times: map<OrderKey, int>): seq<JournalStep> {
    if rows == [] then []
    else
      RowHistory(session, rows[0], Told(answers, rows[0].k), TimeOf(times, rows[0].k))
      + RecoveryHistory(session, rows[1..], answers, times)
  }

  function TimeOf(times: map<OrderKey, int>, k: OrderKey): int { if k in times then times[k] else 0 }

  /** Every answer along the way is taken in. */
  ghost predicate AllTaken(j: Journal, session: string, rows: seq<Row>, answers: Answers, times: map<OrderKey, int>)
    decreases |rows|
  {
    rows != [] ==>
      && rows[0].k in j.orders
      && TakenIn(j, session, rows[0], Told(answers, rows[0].k), TimeOf(times, rows[0].k))
      && AllTaken(RunHistory(j, RowHistory(session, rows[0], Told(answers, rows[0].k), TimeOf(times, rows[0].k))),
                  session, rows[1..], answers, times)
  }

  /** The rows the service lists: every one that needs recovery, once, as it is stored. */
  ghost predicate Lists(rows: seq<Row>, orders: map<OrderKey, Order>) {
    && DistinctKeys(rows) && Untouched(rows, 0, orders) && OnlyListedRemain(rows, 0, orders)
    && forall m :: 0 <= m < |rows| ==> NeedsRecovery(rows[m].o)
  }

  ghost predicate Answered(rows: seq<Row>, answers: Answers) {
    forall m :: 0 <= m < |rows| && MustAsk(rows[m].o) ==> rows[m].k in answers
  }

  lemma OneRowRecovered(was: Journal, j: Journal, n: Journal, session: string, answers: Answers, rows: seq<Row>, i: nat)
    requires i < |rows| && Lists(rows, was.orders) && Answered(rows, answers)
    requires RecoveredSoFar(was, j.orders, session, answers, rows, i)
    requires Untouched(rows, i, j.orders) && StillNews(was.keys, j.keys, session, rows, i)
    requires RowDone(j, n, session, rows[i], Told(answers, rows[i].k))
    ensures RecoveredSoFar(was, n.orders, session, answers, rows, i + 1)
    ensures Untouched(rows, i + 1, n.orders) && StillNews(was.keys, n.keys, session, rows, i + 1)
  {
    hide Sound, Processed, Repeats, NeedsRecovery, MustAsk, RecoveredSoFar, OnlyListedRemain, KeysAddedFor, StillNews;
    var row := rows[i];
    assert answers == if MustAsk(row.o) then answers[row.k := Told(answers, row.k)] else answers;
    SameNews(was.keys, j.keys, session, rows, i, Told(answers, row.k));
    RecoveredOneMore(was, j.orders, n.orders, session, answers, answers, rows, i);
    OneRowDone(rows, i, j.orders, n.orders);
    NextStillNews(was.keys, j.keys, n.keys, session, rows, i);
  }

  lemma SameNews(was: map<Fingerprint, KeyRow>, now: map<Fingerprint, KeyRow>, session: string, rows: seq<Row>, i: nat,
                 seen: Option<DriverOrder>)
    requires i < |rows| && StillNews(was, now, session, rows, i)
    ensures Repeats(was, session, StartupReason, rows[i].k, seen)
            <==> Repeats(now, session, StartupReason, rows[i].k, seen)
  {
    hide Repeats;
  }

  lemma {:induction false} RecoverFrom(was: Journal, j: Journal, session: string, answers: Answers,
                                       times: map<OrderKey, int>, rows: seq<Row>, i: nat)
    requires i <= |rows| && Lists(rows, was.orders) && Answered(rows, answers) && Sound(j)
    requires RecoveredSoFar(was, j.orders, session, answers, rows, i)
    requires Untouched(rows, i, j.orders) && StillNews(was.keys, j.keys, session, rows, i)
    requires AllTaken(j, session, rows[i..], answers, times)
    ensures Recovered(was, RunHistory(j, RecoveryHistory(session, rows[i..], answers, times)).orders, session, answers)
    decreases |rows| - i
  {
    if i == |rows| {
      AllRecovered(was, j.orders, session, answers, rows);
    } else {
      hide Sound, RecoveredSoFar, StillNews, TakenIn, RowHistory, Recovered, NeedsRecovery, MustAsk, OnlyListedRemain;
      var row := rows[i];
      var seen, at := Told(answers, row.k), TimeOf(times, row.k);
      var n := RunHistory(j, RowHistory(session, row, seen, at));
      assert rows[i..][0] == row && rows[i..][1..] == rows[i + 1..];
      RowIsDone(j, session, row, seen, at);
      OneRowRecovered(was, j, n, session, answers, rows, i);
      assert Sound(n) by { assert RowDone(j, n, session, row, seen); }
      RecoverFrom(was, n, session, answers, times, rows, i + 1);
      HistoryConcat(j, RowHistory(session, row, seen, at), RecoveryHistory(session, rows[i + 1..], answers, times));
    }
  }

  /** A recovery whose every answer is taken in ends as `Recovered` says. */
  lemma RecoveryEndsAsRecovered(j: Journal, session: string, answers: Answers, times: map<OrderKey, int>,
                                rows: seq<Row>)
    requires Sound(j) && Lists(rows, j.orders) && Answered(rows, answers) && AllTaken(j, session, rows, answers, times)
    ensures Recovered(j, RunHistory(j, RecoveryHistory(session, rows, answers, times)).orders, session, answers)
  {
    NothingRecoveredYet(j, session, answers, rows);
    assert StillNews(j.keys, j.keys, session, rows, 0);
    assert rows[0..] == rows;
    hide Sound, RecoveredSoFar, StillNews, AllTaken, Recovered;
    RecoverFrom(j, j, session, answers, times, rows, 0);
  }

  // ----------------------------------------------------------------- in the system

  predicate RecoveryAction(a: OmsSystem.SysAction, token: string) {
    a.Elapse? || (a.token == token
                  && (a.Beat? || (a.RecoverRow? && OmsSystem.IsRecoveryStep(a.step)) || a.RecoverEvidence?))
  }

  /** The transactions these actions ask for. */
  function Transactions(actions: seq<OmsSystem.SysAction>): seq<JournalStep> {
    if actions == [] then []
    else Transaction(actions[0]) + Transactions(actions[1..])
  }

  function Transaction(a: OmsSystem.SysAction): seq<JournalStep> {
    match a
    case RecoverRow(_, k, step) => [Write(k, step)]
    case RecoverEvidence(_, e) => [Deliver(e)]
    case _ => []
  }

  ghost predicate InRecovery(s: OmsSystem.Sys, token: string) {
    && OmsSystem.Safe(s) && token in s.pcs && Passes(s.w, token) && s.pcs[token].Recovering?
  }

  lemma SeenIsStored(s: OmsSystem.Sys, token: string)
    requires InRecovery(s, token)
    ensures s.pcs[token].seen == s.journal.orders
  {
    assert OmsSystem.ReadsCurrent(s.pcs[token], s.journal.orders);
  }

  lemma RowTransaction(s: OmsSystem.Sys, token: string, k: OrderKey, step: RowStep)
    requires InRecovery(s, token) && OmsSystem.IsRecoveryStep(step)
    ensures var n := OmsSystem.Step(s, OmsSystem.RecoverRow(token, k, step));
            token in n.pcs && n.journal == Advance(s.journal, Write(k, step)) && n.pcs[token].Recovering?
  {
    hide OmsSystem.Safe, ApplyStep, StepGuard, Passes, Act, Advance, Writable, OmsSystem.IsRecoveryStep;
    SeenIsStored(s, token);
    GuardIsWritable(s.journal, k, step);
  }

  /** What a session checks before a recovery write is all the transaction asks of it. */
  lemma GuardIsWritable(j: Journal, k: OrderKey, step: RowStep)
    requires OmsSystem.IsRecoveryStep(step)
    ensures Writable(j, k, step) <==> k in j.orders && StepGuard(j.orders[k], step) && ApplyStep(j.orders[k], step).Ok?
    ensures !Writable(j, k, step) ==> Advance(j, Write(k, step)) == j
  {
    hide ApplyStep, StepGuard;
  }

  lemma EvidenceTransaction(s: OmsSystem.Sys, token: string, e: Evidence)
    requires InRecovery(s, token)
    ensures var n := OmsSystem.Step(s, OmsSystem.RecoverEvidence(token, e));
            token in n.pcs && n.journal == Advance(s.journal, Deliver(e)) && n.pcs[token].Recovering?
  {
    hide OmsSystem.Safe, Advance, Passes, Act;
  }

  lemma NoTransaction(s: OmsSystem.Sys, a: OmsSystem.SysAction, token: string)
    requires InRecovery(s, token) && (a.Elapse? || (a.Beat? && a.token == token))
    ensures var n := OmsSystem.Step(s, a);
            token in n.pcs && n.journal == s.journal && n.pcs[token].Recovering?
  {
    hide OmsSystem.Safe, Passes, Act;
  }

  lemma OneTransaction(j: Journal, step: JournalStep)
    ensures RunHistory(j, [step]) == Advance(j, step)
  {
    hide Advance;
    assert [step][1..] == [];
  }

  lemma EmptyHistory(j: Journal)
    ensures RunHistory(j, []) == j
  {
  }

  lemma RecoveryStep(s: OmsSystem.Sys, a: OmsSystem.SysAction, token: string)
    requires InRecovery(s, token) && RecoveryAction(a, token)
    ensures var n := OmsSystem.Step(s, a);
            token in n.pcs && n.journal == RunHistory(s.journal, Transaction(a)) && n.pcs[token].Recovering?
  {
    hide InRecovery, Advance, OmsSystem.Step, RunHistory;
    match a
    case RecoverRow(_, k, step) =>
      RowTransaction(s, token, k, step);
      OneTransaction(s.journal, Write(k, step));
    case RecoverEvidence(_, e) =>
      EvidenceTransaction(s, token, e);
      OneTransaction(s.journal, Deliver(e));
    case _ =>
      NoTransaction(s, a, token);
      EmptyHistory(s.journal);
  }

  /** A session alone in recovery commits exactly the transactions it asks for. */
  lemma {:induction false} SoloRecovery(s: OmsSystem.Sys, actions: seq<OmsSystem.SysAction>, token: string)
    requires InRecovery(s, token) && (forall a :: a in actions ==> RecoveryAction(a, token))
    requires Passes(OmsSystem.RunSystem(s, actions).w, token)
    ensures OmsSystem.RunSystem(s, actions).journal == RunHistory(s.journal, Transactions(actions))
    decreases |actions|
  {
    if actions != [] {
      var n := OmsSystem.Step(s, actions[0]);
      assert actions[0] in actions && forall a :: a in actions[1..] ==> a in actions;
      RecoveryStep(s, actions[0], token);
      OmsSystem.StepKeepsSafe(s, actions[0]);
      hide OmsSystem.Safe, OmsSystem.Step, Passes, RecoveryAction, Transaction;
      OmsIsolation.HeldThroughout(n, actions[1..], token);
      SoloRecovery(n, actions[1..], token);
      HistoryConcat(s.journal, Transaction(actions[0]), Transactions(actions[1..]));
    }
  }

  /**
   * What `OfflineOms.Recover` promises of one session holds in the many-session
   * system: from any reachable point of a recovery, whatever the other sessions
   * do in between, if the session's own transactions are those of the rows it
   * listed and it still passes the guard at the end, the database is as
   * `Recovered` says.
   */
  lemma InterleavedRecoveryEndsAsRecovered(before: seq<OmsSystem.SysAction>, actions: seq<OmsSystem.SysAction>,
                                           token: string, session: string, rows: seq<Row>, answers: Answers,
                                           times: map<OrderKey, int>)
    requires var s := OmsSystem.RunSystem(OmsSystem.EmptySys, before);
             && token in s.pcs && s.pcs[token].Recovering? && Passes(OmsSystem.RunSystem(s, actions).w, token)
             && Lists(rows, s.pcs[token].seen) && Answered(rows, answers)
             && AllTaken(s.journal, session, rows, answers, times)
    requires forall a :: a in OmsIsolation.Own(actions, token) ==> RecoveryAction(a, token)
    requires Transactions(OmsIsolation.Own(actions, token)) == RecoveryHistory(session, rows, answers, times)
    ensures var s := OmsSystem.RunSystem(OmsSystem.EmptySys, before);
            Recovered(s.journal, OmsSystem.RunSystem(s, actions).journal.orders, session, answers)
  {
    hide OmsSystem.RunSystem, OmsSystem.Safe, Passes, AllTaken, Lists, Answered, RecoveryAction, Recovered;
    hide RecoveryHistory, Transactions;
    var s, own := OmsSystem.RunSystem(OmsSystem.EmptySys, before), OmsIsolation.Own(actions, token);
    OmsSystem.ReachableIsSafe(before);
    OmsIsolation.HeldThroughout(s, actions, token);
    SeenIsStored(s, token);
    OmsIsolation.HolderIsIsolated(before, actions, token);
    SameLeasePasses(OmsSystem.RunSystem(s, actions), OmsSystem.RunSystem(s, own), token);
    SoloRecovery(s, own, token);
    SoundInside(s);
    RecoveryEndsAsRecovered(s.journal, session, answers, times, rows);
  }

  lemma SameLeasePasses(s: OmsSystem.Sys, t: OmsSystem.Sys, token: string)
    requires OmsIsolation.SameView(s, t, token) && Passes(s.w, token)
    ensures Passes(t.w, token) && s.journal == t.journal
  {
  }

  lemma SoundInside(s: OmsSystem.Sys)
    requires OmsSystem.Safe(s)
    ensures Sound(s.journal)
  {
  }
}
