/**
 * Many OMS sessions over one database (oms/service.py, oms/leader.py,
 * oms/repository.py): any interleaving, a crash after any step, lease
 * takeover at any point. A session that passed its last check and was then
 * fenced can still call the broker.
 *
 * A session is single-threaded, so `Pc` says what it does next. It may do
 * more here than in the service (submit before it has recovered, say), which
 * only adds runs.
 */
module OmsSystem {
  import opened Basics
  import opened OrderLifecycle
  import opened OrderRows
  import opened BrokerEvidence
  import opened EvidenceJournal
  import opened JournalHistory
  import opened LeaderLease
  import opened OmsService

  datatype Pc =
    | Idle
    | Recovering(seen: map<OrderKey, Order>)
    | Registered(k: OrderKey)
    | Authorized(k: OrderKey)
    | Reserved(cancel: bool, k: OrderKey)
    | Armed(cancel: bool, k: OrderKey)
    | Called(cancel: bool, k: OrderKey, raised: bool)
    | Recorded(cancel: bool, k: OrderKey)
    | Asking(cancel: bool, k: OrderKey)
    | Answered(k: OrderKey, status: Status)
    | Dead

  /** Sessions are named by their lease tokens. */
  datatype Sys = Sys(w: World, journal: Journal, pcs: map<string, Pc>, submits: map<OrderKey, nat>,
                     cancels: map<OrderKey, nat>)

  datatype SysAction =
    | Elapse(seconds: int)
    | Open(session: string, token: string, seconds: int)
    | Beat(token: string, seconds: int)
    | Close(token: string)
    | Crash(token: string)
    | BeginRecovery(token: string)
    | RecoverRow(token: string, k: OrderKey, step: RowStep)
    | RecoverEvidence(token: string, e: Evidence)
    | EndRecovery(token: string)
    | Callback(token: string, e: Evidence)
    | CommandResult(token: string, k: OrderKey, begin: bool)
    | Register(token: string, k: OrderKey, quantity: int, imported: bool)
    | Decide(token: string, accepted: bool)
    | Reserve(token: string)
    | ReserveTheCancel(token: string, k: OrderKey)
    | Recheck(token: string)
    | CallBroker(token: string, raised: bool)
    | RecordUnknown(token: string)
    | BeginReconciling(token: string)
    | NoAnswer(token: string)
    | Answer(token: string, e: Evidence)
    | ResolveCancel(token: string)

  const EmptySys := Sys(EmptyWorld, EmptyJournal, map[], map[], map[])

  function Count(calls: map<OrderKey, nat>, k: OrderKey): nat { if k in calls then calls[k] else 0 }

  /** Writes recovery makes from the row it listed. */
  predicate IsRecoveryStep(step: RowStep) {
    step.Abort? || step.ToUnknown? || step.ToReconciling? || step.RestoreCancelPending? || step.NotFound?
      || step.SameStatus?
  }

  // ---------------------------------------------------------------------------- steps

  function Goto(s: Sys, token: string, pc: Pc): Sys { s.(pcs := s.pcs[token := pc]) }

  /** A committed guarded transaction. */
  ghost function Commit(s: Sys, token: string, step: JournalStep, pc: Pc): Sys {
    s.(w := Act(s.w, TryWrite(token)), journal := Advance(s.journal, step), pcs := s.pcs[token := pc])
  }

  /** A guarded row write: the guard or the row can refuse it, and the exception ends the operation. */
  ghost function TryStep(s: Sys, token: string, k: OrderKey, step: RowStep, pc: Pc): Sys {
    if Passes(s.w, token) && Writable(s.journal, k, step) then Commit(s, token, JournalStep.Write(k, step), pc)
    else Goto(s, token, Idle)
  }

  ghost function SessionStep(s: Sys, a: SysAction, token: string): Sys
    requires token in s.pcs
  {
    var pc := s.pcs[token];
    match a
    case Beat(_, seconds) => if pc != Dead then s.(w := Act(s.w, TryHeartbeat(token, seconds))) else s
    case Close(_) => if pc != Dead then Goto(s.(w := Act(s.w, TryRelease(token))), token, Dead) else s
    case Crash(_) => Goto(s, token, Dead)
    case BeginRecovery(_) =>
      if pc == Idle && Passes(s.w, token) then Goto(s, token, Recovering(s.journal.orders)) else s
    case RecoverRow(_, k, step) =>
      if pc.Recovering? && k in pc.seen && IsRecoveryStep(step) && StepGuard(pc.seen[k], step)
        && ApplyStep(pc.seen[k], step).Ok? then
        TryStep(s, token, k, step, Recovering(pc.seen[k := ApplyStep(pc.seen[k], step).value]))
      else s
    case RecoverEvidence(_, e) =>
      if pc.Recovering? && Passes(s.w, token) then
        Commit(s, token, Deliver(e), Recovering(Advance(s.journal, Deliver(e)).orders))
      else s
    case EndRecovery(_) => if pc.Recovering? then Goto(s, token, Idle) else s
    case Callback(_, e) => if pc == Idle && Passes(s.w, token) then Commit(s, token, Deliver(e), Idle) else s
    case CommandResult(_, k, begin) => if pc == Idle then TryStep(s, token, k, ExecutionResult(begin), Idle) else s
    case Register(_, k, quantity, imported) =>
      if pc == Idle && Passes(s.w, token) && k !in s.journal.orders && 0 < quantity then
        Commit(s, token, if imported then Import(k, quantity) else Create(k, quantity),
               if imported then Idle else Registered(k))
      else s
    case Decide(_, accepted) =>
      if pc.Registered? then TryStep(s, token, pc.k, Risk(accepted), if accepted then Authorized(pc.k) else Idle) else s
    case Reserve(_) => if pc.Authorized? then TryStep(s, token, pc.k, ReserveSubmit, Reserved(false, pc.k)) else s
    case ReserveTheCancel(_, k) => if pc == Idle then TryStep(s, token, k, ReserveCancel, Reserved(true, k)) else s
    case Recheck(_) =>
      if pc.Reserved? then Goto(s, token, if Passes(s.w, token) then Armed(pc.cancel, pc.k) else Idle) else s
    case CallBroker(_, raised) =>
      if !pc.Armed? then s
      else if pc.cancel then
        Goto(s.(cancels := s.cancels[pc.k := Count(s.cancels, pc.k) + 1]), token, Called(true, pc.k, raised))
      else
        Goto(s.(submits := s.submits[pc.k := Count(s.submits, pc.k) + 1]), token, Called(false, pc.k, raised))
    case RecordUnknown(_) =>
      if pc.Called? then TryStep(s, token, pc.k, ToUnknown, if pc.raised then Idle else Recorded(pc.cancel, pc.k))
      else s
    case BeginReconciling(_) =>
      if pc.Recorded? then TryStep(s, token, pc.k, ToReconciling, Asking(pc.cancel, pc.k)) else s
    case NoAnswer(_) => if pc.Asking? then Goto(s, token, Idle) else s
    case Answer(_, e) =>
      if pc.Asking? && KeyOf(e) == pc.k && ValidEvidence(e) && Passes(s.w, token) then
        var result := Ingest(s.journal, e).1;
        Commit(s, token, Deliver(e), if pc.cancel && result.Ingested? then Answered(pc.k, result.status) else Idle)
      else s
    case ResolveCancel(_) =>
      if !pc.Answered? then s
      else if Passes(s.w, token) && pc.k in s.journal.orders
           && CommandTransition(s.journal.orders[pc.k], pc.status, Some(true)).Ok? then
        var o := CommandTransition(s.journal.orders[pc.k], pc.status, Some(true)).value.0;
        s.(w := Act(s.w, TryWrite(token)), journal := PutOrder(s.journal, pc.k, o), pcs := s.pcs[token := Idle])
      else Goto(s, token, Idle)
    case Elapse(_) => s
    case Open(_, _, _) => s
  }

  ghost function Step(s: Sys, a: SysAction): Sys {
    match a
    case Elapse(seconds) => s.(w := Act(s.w, Tick(seconds)))
    case Open(session, token, seconds) =>
      var next := Act(s.w, TryAcquire(session, token, seconds));
      if next == s.w then s else s.(w := next, pcs := s.pcs[token := Idle])
    case _ => if a.token in s.pcs then SessionStep(s, a, a.token) else s
  }

  ghost function RunSystem(s: Sys, actions: seq<SysAction>): Sys
    decreases |actions|
  {
    if actions == [] then s else RunSystem(Step(s, actions[0]), actions[1..])
  }

  // ------------------------------------------------------------------------ invariant

  predicate Started(o: Order, cancel: bool) { if cancel then o.cancelStarted else o.submitStarted }

  /** The session holds a reservation it has not yet used. */
  predicate Pending(pc: Pc) { pc.Reserved? || pc.Armed? }

  predicate SameReservation(p: Pc, q: Pc) {
    Pending(p) && Pending(q) && p.cancel == q.cancel && p.k == q.k
  }

  /** The reservation is stored, and nothing has been called under it. */
  predicate Unused(pc: Pc, orders: map<OrderKey, Order>, submits: map<OrderKey, nat>, cancels: map<OrderKey, nat>)
    requires Pending(pc)
  {
    pc.k in orders && Started(orders[pc.k], pc.cancel) && Count(if pc.cancel then cancels else submits, pc.k) == 0
  }

  ghost predicate PendingUncalled(s: Sys) {
    forall t :: t in s.pcs && Pending(s.pcs[t]) ==> Unused(s.pcs[t], s.journal.orders, s.submits, s.cancels)
  }

  ghost predicate PendingUnique(s: Sys) {
    forall t, u :: t in s.pcs && u in s.pcs && SameReservation(s.pcs[t], s.pcs[u]) ==> t == u
  }

  predicate StatusIn(orders: map<OrderKey, Order>, k: OrderKey, statuses: set<Status>) {
    k in orders && orders[k].status in statuses
  }

  /** The row is where this session's operation left it, and what it read is what is stored. */
  predicate ReadsCurrent(pc: Pc, orders: map<OrderKey, Order>) {
    match pc
    case Recovering(seen) => seen == orders
    case Registered(k) => StatusIn(orders, k, {Created})
    case Authorized(k) => StatusIn(orders, k, {RiskAccepted})
    case Reserved(cancel, k) => StatusIn(orders, k, {if cancel then CancelPending else Submitting})
    case Armed(cancel, k) => StatusIn(orders, k, {if cancel then CancelPending else Submitting})
    case Called(cancel, k, _) => StatusIn(orders, k, {if cancel then CancelPending else Submitting})
    case Recorded(_, k) => StatusIn(orders, k, {Unknown})
    case Asking(_, k) => StatusIn(orders, k, {Reconciling})
    case Answered(k, status) => StatusIn(orders, k, {status}) && status != CancelPending
    case _ => true
  }

  /** A session that still holds the lease acts on current rows. */
  ghost predicate HoldersCurrent(s: Sys) {
    forall t :: t in s.pcs && Passes(s.w, t) ==> ReadsCurrent(s.pcs[t], s.journal.orders)
  }

  ghost predicate Safe(s: Sys) {
    && Fenceable(s.w) && s.pcs.Keys == s.w.leases.Keys
    && Sound(s.journal)
    && AtMostOnce(s.journal.orders, s.submits, s.cancels)
    && PendingUncalled(s)
    && PendingUnique(s)
    && HoldersCurrent(s)
  }

  // --------------------------------------------------------------------- preservation

  /** Lease operations can only take the right to write away from the sessions there are. */
  lemma LeaseStepKeepsSafe(s: Sys, a: Action)
    requires Safe(s) && !a.TryAcquire? && !a.TryWrite?
    ensures Safe(s.(w := Act(s.w, a)))
  {
    hide Sound, InBlocks, Distinct, AtMostOnce;
    ActKeepsFenceable(s.w, a);
    var n := s.(w := Act(s.w, a));
    assert n.w.leases.Keys == s.w.leases.Keys;
    forall t | t in n.pcs && Passes(n.w, t) ensures ReadsCurrent(n.pcs[t], n.journal.orders) {
      if !Passes(s.w, t) {
        LossIsStable(s.w, a, t);
      }
    }
  }

  lemma IdleSessionPendsNothing(s: Sys, n: Sys, token: string)
    requires PendingUncalled(s) && PendingUnique(s)
    requires n.pcs == s.pcs[token := Idle] && n.journal == s.journal && n.submits == s.submits && n.cancels == s.cancels
    ensures PendingUncalled(n) && PendingUnique(n)
  {
  }

  lemma OpenKeepsSafe(s: Sys, session: string, token: string, seconds: int)
    requires Safe(s)
    ensures Safe(Step(s, Open(session, token, seconds)))
  {
    hide Sound, Fenceable, AtMostOnce, AcquiredRow, Passes, PendingUncalled, PendingUnique;
    var a := TryAcquire(session, token, seconds);
    var n := Step(s, Open(session, token, seconds));
    ActKeepsFenceable(s.w, a);
    if n != s {
      assert n.w.leases.Keys == s.w.leases.Keys + {token};
      assert n.pcs.Keys == n.w.leases.Keys;
      IdleSessionPendsNothing(s, n, token);
      hide Act;
      forall t | t in n.pcs && Passes(n.w, t) ensures ReadsCurrent(n.pcs[t], n.journal.orders) {
        if t != token && !Passes(s.w, t) {
          LossIsStable(s.w, a, t);
        }
      }
    }
  }

  /** Moving one session on without touching the tables or the calls. */
  lemma GotoKeepsSafe(s: Sys, token: string, pc: Pc)
    requires Safe(s) && token in s.pcs
    requires Pending(pc) ==> SameReservation(pc, s.pcs[token])
    requires Passes(s.w, token) ==> ReadsCurrent(pc, s.journal.orders)
    ensures Safe(Goto(s, token, pc))
  {
    hide Sound, Fenceable, AtMostOnce, Passes;
    assert Goto(s, token, pc).pcs.Keys == s.pcs.Keys;
  }

  lemma OnlyHolderPasses(w: World, t: string, u: string)
    requires Fenceable(w) && Passes(w, t) && Passes(w, u)
    ensures t == u
  {
  }

  lemma GrowthKeepsReservations(j: Journal, n: Journal)
    requires RowsGrow(j, n)
    ensures KeepsReservations(j.orders, n.orders)
  {
    hide OrdersCoupled;
  }

  lemma UnstartedUncalled(orders: map<OrderKey, Order>, submits: map<OrderKey, nat>, cancels: map<OrderKey, nat>,
                          cancel: bool, k: OrderKey)
    requires AtMostOnce(orders, submits, cancels) && k in orders && !Started(orders[k], cancel)
    ensures Count(if cancel then cancels else submits, k) == 0
  {
  }

  lemma WriteLeavesLeases(w: World, token: string)
    ensures Act(w, TryWrite(token)).leases == w.leases
    ensures forall t :: Passes(Act(w, TryWrite(token)), t) <==> Passes(w, t)
  {
  }

  /** One guarded transaction by the lease holder. */
  lemma TransactionKeepsSafe(s: Sys, token: string, journal: Journal, pc: Pc)
    requires Safe(s) && token in s.pcs && Passes(s.w, token)
    requires Sound(journal) && RowsGrow(s.journal, journal)
    requires ReadsCurrent(pc, journal.orders)
    requires Pending(pc) ==>
               && pc.k in s.journal.orders && !Started(s.journal.orders[pc.k], pc.cancel)
               && Started(journal.orders[pc.k], pc.cancel)
    ensures Safe(s.(w := Act(s.w, TryWrite(token)), journal := journal, pcs := s.pcs[token := pc]))
  {
    hide Sound, Fenceable, RowsGrow, ReadsCurrent, AtMostOnce, PendingUncalled, PendingUnique, Started;
    ActKeepsFenceable(s.w, TryWrite(token));
    WriteLeavesLeases(s.w, token);
    hide Act, Passes;
    GrowthKeepsReservations(s.journal, journal);
    if Pending(pc) {
      UnstartedUncalled(s.journal.orders, s.submits, s.cancels, pc.cancel, pc.k);
    }
    PendingKept(s, token, journal, pc);
    var n := s.(w := Act(s.w, TryWrite(token)), journal := journal, pcs := s.pcs[token := pc]);
    assert n.pcs.Keys == s.pcs.Keys;
    AtMostOnceKept(s.journal.orders, journal.orders, s.submits, s.cancels);
    forall t | t in n.pcs && Passes(n.w, t) ensures ReadsCurrent(n.pcs[t], n.journal.orders) {
      OnlyHolderPasses(s.w, t, token);
    }
  }

  /** A new reservation is unused, and no other session holds it. */
  lemma PendingKept(s: Sys, token: string, journal: Journal, pc: Pc)
    requires PendingUncalled(s) && PendingUnique(s) && KeepsReservations(s.journal.orders, journal.orders)
    requires Pending(pc) ==>
               && pc.k in s.journal.orders && !Started(s.journal.orders[pc.k], pc.cancel)
               && pc.k in journal.orders && Started(journal.orders[pc.k], pc.cancel)
               && Count(if pc.cancel then s.cancels else s.submits, pc.k) == 0
    ensures var n := s.(w := Act(s.w, TryWrite(token)), journal := journal, pcs := s.pcs[token := pc]);
            PendingUncalled(n) && PendingUnique(n)
  {
    hide Act;
  }

  lemma CommitKeepsSafe(s: Sys, token: string, step: JournalStep, pc: Pc)
    requires Safe(s) && token in s.pcs && Passes(s.w, token)
    requires ReadsCurrent(pc, Advance(s.journal, step).orders)
    requires !Pending(pc)
    ensures Safe(Commit(s, token, step, pc))
  {
    hide Sound, Advance, Fenceable, AtMostOnce, HoldersCurrent, PendingUnique, PendingUncalled, ReadsCurrent;
    hide Passes, Act;
    AdvanceKeepsSound(s.journal, step);
    TransactionKeepsSafe(s, token, Advance(s.journal, step), pc);
  }

  lemma TryStepKeepsSafe(s: Sys, token: string, k: OrderKey, step: RowStep, pc: Pc)
    requires Safe(s) && token in s.pcs
    requires Passes(s.w, token) && Writable(s.journal, k, step) ==>
               && ReadsCurrent(pc, s.journal.orders[k := ApplyStep(s.journal.orders[k], step).value])
               && (Pending(pc) ==> pc.k == k && step == if pc.cancel then ReserveCancel else ReserveSubmit)
    ensures Safe(TryStep(s, token, k, step, pc))
  {
    hide Sound, Fenceable, AtMostOnce, HoldersCurrent, PendingUnique, PendingUncalled, Passes, Act;
    if Passes(s.w, token) && Writable(s.journal, k, step) {
      AdvanceKeepsSound(s.journal, JournalStep.Write(k, step));
      ReservationIsNew(s.journal, k, step);
      TransactionKeepsSafe(s, token, Advance(s.journal, JournalStep.Write(k, step)), pc);
    } else {
      GotoKeepsSafe(s, token, Idle);
    }
  }

  /** A reservation succeeds only on a row that had none. */
  lemma ReservationIsNew(j: Journal, k: OrderKey, step: RowStep)
    requires k in j.orders && Writable(j, k, step)
    ensures step == ReserveSubmit ==> !j.orders[k].submitStarted && ApplyStep(j.orders[k], step).value.submitStarted
    ensures step == ReserveCancel ==> !j.orders[k].cancelStarted && ApplyStep(j.orders[k], step).value.cancelStarted
  {
  }

  /** A reservation that is not this one is not for this order and side. */
  lemma OthersStayUncalled(s: Sys, token: string, submits: map<OrderKey, nat>, cancels: map<OrderKey, nat>, pc: Pc)
    requires PendingUncalled(s) && PendingUnique(s) && token in s.pcs && s.pcs[token].Armed? && !Pending(pc)
    requires if s.pcs[token].cancel then submits == s.submits && cancels == s.cancels[s.pcs[token].k := 1]
             else cancels == s.cancels && submits == s.submits[s.pcs[token].k := 1]
    ensures var n := s.(submits := submits, cancels := cancels, pcs := s.pcs[token := pc]);
            PendingUncalled(n) && PendingUnique(n)
  {
    hide Started;
    forall t | t in s.pcs && t != token && Pending(s.pcs[t])
      ensures Unused(s.pcs[t], s.journal.orders, submits, cancels) {
      assert Unused(s.pcs[t], s.journal.orders, s.submits, s.cancels);
      assert !SameReservation(s.pcs[t], s.pcs[token]);
    }
  }

  /** Calling the broker uses up the reservation, whether or not the lease is still held. */
  lemma CallKeepsSafe(s: Sys, token: string, raised: bool)
    requires Safe(s) && token in s.pcs && s.pcs[token].Armed?
    ensures Safe(SessionStep(s, CallBroker(token, raised), token))
  {
    hide Sound, Fenceable, Passes, AtMostOnce, ReadsCurrent, PendingUncalled, PendingUnique, Unused;
    var pc := s.pcs[token];
    var n := SessionStep(s, CallBroker(token, raised), token);
    assert n.pcs.Keys == s.pcs.Keys;
    ArmedIsUnused(s, token);
    CalledStaysCurrent(pc, raised, s.journal.orders);
    CallCounted(s.journal.orders, s.submits, s.cancels, pc);
    OthersStayUncalled(s, token, n.submits, n.cancels, Called(pc.cancel, pc.k, raised));
  }

  lemma SafeToTakeOver(s: Sys)
    requires Safe(s)
    ensures Fenceable(s.w) && s.pcs.Keys == s.w.leases.Keys && PendingUncalled(s)
  {
  }

  lemma ArmedIsUnused(s: Sys, token: string)
    requires PendingUncalled(s) && token in s.pcs && s.pcs[token].Armed?
    ensures Unused(s.pcs[token], s.journal.orders, s.submits, s.cancels)
    ensures Count(if s.pcs[token].cancel then s.cancels else s.submits, s.pcs[token].k) == 0
  {
  }

  lemma CalledStaysCurrent(pc: Pc, raised: bool, orders: map<OrderKey, Order>)
    requires pc.Armed?
    ensures ReadsCurrent(pc, orders) ==> ReadsCurrent(Called(pc.cancel, pc.k, raised), orders)
  {
  }

  lemma CallCounted(orders: map<OrderKey, Order>, submits: map<OrderKey, nat>, cancels: map<OrderKey, nat>, pc: Pc)
    requires AtMostOnce(orders, submits, cancels) && Pending(pc) && Unused(pc, orders, submits, cancels)
    ensures if pc.cancel then AtMostOnce(orders, submits, cancels[pc.k := Count(cancels, pc.k) + 1])
            else AtMostOnce(orders, submits[pc.k := Count(submits, pc.k) + 1], cancels)
  {
  }

  /** What each guarded row write leaves its own session looking at. */
  lemma RecoverRowKeepsSafe(s: Sys, a: SysAction, token: string)
    requires Safe(s) && token in s.pcs && a.RecoverRow?
    ensures Safe(SessionStep(s, a, token))
  {
    hide Sound, Fenceable, AtMostOnce, PendingUnique, PendingUncalled, Passes, ApplyStep, StepGuard, TryStep, Writable;
    var pc := s.pcs[token];
    if pc.Recovering? && a.k in pc.seen && IsRecoveryStep(a.step) && StepGuard(pc.seen[a.k], a.step)
      && ApplyStep(pc.seen[a.k], a.step).Ok? {
      TryStepKeepsSafe(s, token, a.k, a.step, Recovering(pc.seen[a.k := ApplyStep(pc.seen[a.k], a.step).value]));
    }
  }

  lemma ReservePathKeepsSafe(s: Sys, a: SysAction, token: string)
    requires Safe(s) && token in s.pcs && (a.Decide? || a.Reserve? || a.ReserveTheCancel?)
    ensures Safe(SessionStep(s, a, token))
  {
    hide Sound, Fenceable, AtMostOnce, PendingUnique, PendingUncalled, Passes, ApplyStep, TryStep, Writable;
    var pc := s.pcs[token];
    StepResults(s.journal, pc);
    match a
    case Decide(_, accepted) =>
      if pc.Registered? {
        TryStepKeepsSafe(s, token, pc.k, Risk(accepted), if accepted then Authorized(pc.k) else Idle);
      }
    case Reserve(_) => if pc.Authorized? { TryStepKeepsSafe(s, token, pc.k, ReserveSubmit, Reserved(false, pc.k)); }
    case ReserveTheCancel(_, k) =>
      if pc == Idle {
        ReserveResult(s.journal, k);
        TryStepKeepsSafe(s, token, k, ReserveCancel, Reserved(true, k));
      }
    case _ =>
  }

  lemma RecordPathKeepsSafe(s: Sys, a: SysAction, token: string)
    requires Safe(s) && token in s.pcs && (a.RecordUnknown? || a.BeginReconciling? || a.CommandResult?)
    ensures Safe(SessionStep(s, a, token))
  {
    hide Sound, Fenceable, AtMostOnce, PendingUnique, PendingUncalled, Passes, ApplyStep, TryStep, Writable;
    var pc := s.pcs[token];
    StepResults(s.journal, pc);
    match a
    case RecordUnknown(_) =>
      if pc.Called? {
        TryStepKeepsSafe(s, token, pc.k, ToUnknown, if pc.raised then Idle else Recorded(pc.cancel, pc.k));
      }
    case BeginReconciling(_) =>
      if pc.Recorded? { TryStepKeepsSafe(s, token, pc.k, ToReconciling, Asking(pc.cancel, pc.k)); }
    case CommandResult(_, k, begin) =>
      if pc == Idle { TryStepKeepsSafe(s, token, k, ExecutionResult(begin), Idle); }
    case _ =>
  }

  lemma ReserveResult(j: Journal, k: OrderKey)
    ensures Writable(j, k, ReserveCancel) ==> ApplyStep(j.orders[k], ReserveCancel).value.status == CancelPending
  {
  }

  /** From a current row, each command-path write reaches the status its session expects. */
  lemma StepResults(j: Journal, pc: Pc)
    ensures pc.Registered? && ReadsCurrent(pc, j.orders) ==>
              ApplyStep(j.orders[pc.k], Risk(true)) == Ok(j.orders[pc.k].(status := RiskAccepted))
    ensures pc.Authorized? && ReadsCurrent(pc, j.orders) && Writable(j, pc.k, ReserveSubmit) ==>
              ApplyStep(j.orders[pc.k], ReserveSubmit).value.status == Submitting
    ensures pc.Called? && ReadsCurrent(pc, j.orders) ==>
              ApplyStep(j.orders[pc.k], ToUnknown) == Ok(j.orders[pc.k].(status := Unknown))
    ensures pc.Recorded? && ReadsCurrent(pc, j.orders) ==>
              ApplyStep(j.orders[pc.k], ToReconciling) == Ok(j.orders[pc.k].(status := Reconciling))
  {
  }

  lemma AnswerKeepsSafe(s: Sys, a: SysAction, token: string)
    requires Safe(s) && token in s.pcs && a.Answer?
    ensures Safe(SessionStep(s, a, token))
  {
    hide Sound, Fenceable, AtMostOnce, PendingUnique, PendingUncalled, Passes, Ingest, Commit, ValidEvidence;
    var pc := s.pcs[token];
    if pc.Asking? && KeyOf(a.e) == pc.k && ValidEvidence(a.e) && Passes(s.w, token) {
      SoundParts(s.journal);
      IngestAnswersRow(s.journal, a.e);
      var result := Ingest(s.journal, a.e).1;
      var next := if pc.cancel && result.Ingested? then Answered(pc.k, result.status) else Idle;
      CommitKeepsSafe(s, token, Deliver(a.e), next);
    }
  }

  /** The captured status is still the row's, so the closing write only sets the resolved flag. */
  lemma ResolveCancelKeepsSafe(s: Sys, a: SysAction, token: string)
    requires Safe(s) && token in s.pcs && a.ResolveCancel?
    ensures Safe(SessionStep(s, a, token))
  {
    hide Sound, Fenceable, AtMostOnce, PendingUnique, PendingUncalled, Passes, Advance, Act;
    var pc := s.pcs[token];
    if pc.Answered? {
      if Passes(s.w, token) {
        var o := s.journal.orders[pc.k];
        MovesNowhere(o);
        MoveKeepsSound(s.journal, pc.k, o.status, Some(true), SameStatus(Some(true)), o.(cancelResolved := true));
        WriteIsStep(s.journal, pc.k, SameStatus(Some(true)));
        CommitKeepsSafe(s, token, JournalStep.Write(pc.k, SameStatus(Some(true))), Idle);
      } else {
        GotoKeepsSafe(s, token, Idle);
      }
    }
  }

  lemma RegisterKeepsSafe(s: Sys, a: SysAction, token: string)
    requires Safe(s) && token in s.pcs && a.Register?
    ensures Safe(SessionStep(s, a, token))
  {
    hide Sound, Fenceable, AtMostOnce, PendingUnique, PendingUncalled, Passes, Commit;
    if s.pcs[token] == Idle && Passes(s.w, token) && a.k !in s.journal.orders && 0 < a.quantity {
      CommitKeepsSafe(s, token, if a.imported then Import(a.k, a.quantity) else Create(a.k, a.quantity),
                      if a.imported then Idle else Registered(a.k));
    }
  }

  lemma LeasePathKeepsSafe(s: Sys, a: SysAction, token: string)
    requires Safe(s) && token in s.pcs && (a.Beat? || a.Close?)
    ensures Safe(SessionStep(s, a, token))
  {
    hide Sound, Fenceable, AtMostOnce, PendingUnique, PendingUncalled, HoldersCurrent, Passes, Act;
    if a.Beat? {
      LeaseStepKeepsSafe(s, TryHeartbeat(token, a.seconds));
    } else {
      LeaseStepKeepsSafe(s, TryRelease(token));
      GotoKeepsSafe(s.(w := Act(s.w, TryRelease(token))), token, Dead);
    }
  }

  lemma EvidencePathKeepsSafe(s: Sys, a: SysAction, token: string)
    requires Safe(s) && token in s.pcs && (a.RecoverEvidence? || a.Callback?)
    ensures Safe(SessionStep(s, a, token))
  {
    hide Sound, Fenceable, AtMostOnce, PendingUnique, PendingUncalled, HoldersCurrent, Passes, Advance, Act, Commit;
    if Passes(s.w, token) {
      var next := if a.Callback? then Idle else Recovering(Advance(s.journal, Deliver(a.e)).orders);
      CommitKeepsSafe(s, token, Deliver(a.e), next);
    }
  }

  /** Steps that only move the session itself. */
  lemma PassivePathKeepsSafe(s: Sys, a: SysAction, token: string)
    requires Safe(s) && token in s.pcs && (a.Crash? || a.BeginRecovery? || a.EndRecovery? || a.Recheck? || a.NoAnswer?)
    ensures Safe(SessionStep(s, a, token))
  {
    hide Sound, Fenceable, AtMostOnce, PendingUnique, PendingUncalled, Passes;
    var n := SessionStep(s, a, token);
    if n != s {
      GotoKeepsSafe(s, token, n.pcs[token]);
    }
  }

  lemma CallPathKeepsSafe(s: Sys, a: SysAction, token: string)
    requires Safe(s) && token in s.pcs && a.CallBroker?
    ensures Safe(SessionStep(s, a, token))
  {
    hide Safe;
    if s.pcs[token].Armed? {
      CallKeepsSafe(s, token, a.raised);
    }
  }

  lemma OutsideStepIsNothing(s: Sys, a: SysAction, token: string)
    requires token in s.pcs && (a.Elapse? || a.Open?)
    ensures SessionStep(s, a, token) == s
  {
  }

  lemma SessionStepKeepsSafe(s: Sys, a: SysAction, token: string)
    requires Safe(s) && token in s.pcs
    ensures Safe(SessionStep(s, a, token))
  {
    hide Safe, SessionStep;
    match a
    case Beat(_, _) => LeasePathKeepsSafe(s, a, token);
    case Close(_) => LeasePathKeepsSafe(s, a, token);
    case RecoverRow(_, _, _) => RecoverRowKeepsSafe(s, a, token);
    case RecoverEvidence(_, _) => EvidencePathKeepsSafe(s, a, token);
    case Callback(_, _) => EvidencePathKeepsSafe(s, a, token);
    case Register(_, _, _, _) => RegisterKeepsSafe(s, a, token);
    case Crash(_) => PassivePathKeepsSafe(s, a, token);
    case BeginRecovery(_) => PassivePathKeepsSafe(s, a, token);
    case EndRecovery(_) => PassivePathKeepsSafe(s, a, token);
    case Recheck(_) => PassivePathKeepsSafe(s, a, token);
    case NoAnswer(_) => PassivePathKeepsSafe(s, a, token);
    case CallBroker(_, _) => CallPathKeepsSafe(s, a, token);
    case Answer(_, _) => AnswerKeepsSafe(s, a, token);
    case ResolveCancel(_) => ResolveCancelKeepsSafe(s, a, token);
    case Elapse(_) => OutsideStepIsNothing(s, a, token);
    case Open(_, _, _) => OutsideStepIsNothing(s, a, token);
    case Decide(_, _) => ReservePathKeepsSafe(s, a, token);
    case Reserve(_) => ReservePathKeepsSafe(s, a, token);
    case ReserveTheCancel(_, _) => ReservePathKeepsSafe(s, a, token);
    case RecordUnknown(_) => RecordPathKeepsSafe(s, a, token);
    case BeginReconciling(_) => RecordPathKeepsSafe(s, a, token);
    case CommandResult(_, _, _) => RecordPathKeepsSafe(s, a, token);
  }

  lemma StepKeepsSafe(s: Sys, a: SysAction)
    requires Safe(s)
    ensures Safe(Step(s, a))
  {
    hide Safe, SessionStep;
    match a
    case Elapse(seconds) => LeaseStepKeepsSafe(s, Tick(seconds));
    case Open(session, token, seconds) => OpenKeepsSafe(s, session, token, seconds);
    case _ =>
      if a.token in s.pcs {
        SessionStepKeepsSafe(s, a, a.token);
      }
  }

  lemma {:induction false} RunKeepsSafe(s: Sys, actions: seq<SysAction>)
    requires Safe(s)
    ensures Safe(RunSystem(s, actions))
    decreases |actions|
  {
    if actions != [] {
      hide Safe, Step;
      StepKeepsSafe(s, actions[0]);
      RunKeepsSafe(Step(s, actions[0]), actions[1..]);
    }
  }

  // ------------------------------------------------------------------------- theorems

  lemma EmptySystemSafe()
    ensures Safe(EmptySys)
  {
    EmptyJournalSound();
  }

  lemma ReachableIsSafe(actions: seq<SysAction>)
    ensures Safe(RunSystem(EmptySys, actions))
  {
    hide Safe;
    EmptySystemSafe();
    RunKeepsSafe(EmptySys, actions);
  }

  /**
   * Over any number of sessions, with crashes and takeovers anywhere, submit is
   * called at most once and cancel at most once per order, and whenever one has
   * been called its reservation is stored.
   */
  lemma CalledAtMostOnce(actions: seq<SysAction>, k: OrderKey)
    ensures var s := RunSystem(EmptySys, actions);
            && Count(s.submits, k) <= 1 && Count(s.cancels, k) <= 1
            && (Count(s.submits, k) == 1 ==> k in s.journal.orders && s.journal.orders[k].submitStarted)
            && (Count(s.cancels, k) == 1 ==> k in s.journal.orders && s.journal.orders[k].cancelStarted)
  {
    hide Sound, Fenceable, PendingUncalled, PendingUnique, HoldersCurrent, RunSystem;
    ReachableIsSafe(actions);
  }

  /** The reservation is stored before the call it is for, not merely afterwards. */
  lemma CallsFollowReservations(actions: seq<SysAction>, a: SysAction, k: OrderKey)
    ensures var s := RunSystem(EmptySys, actions);
            var n := Step(s, a);
            && (Count(n.submits, k) != Count(s.submits, k) ==>
                  Count(s.submits, k) == 0 && k in s.journal.orders && s.journal.orders[k].submitStarted)
            && (Count(n.cancels, k) != Count(s.cancels, k) ==>
                  Count(s.cancels, k) == 0 && k in s.journal.orders && s.journal.orders[k].cancelStarted)
  {
    hide Sound, Fenceable, AtMostOnce, PendingUncalled, PendingUnique, HoldersCurrent, RunSystem, Commit, TryStep, Act;
    ReachableIsSafe(actions);
    var s := RunSystem(EmptySys, actions);
    CallsOnlyFromArmed(s, a);
    hide Step;
    if a.CallBroker? && a.token in s.pcs && s.pcs[a.token].Armed? {
      ArmedIsUnused(s, a.token);
    }
  }

  /** Only an armed session calls, and it counts one call for its own order. */
  lemma TryStepCallsNothing(s: Sys, token: string, k: OrderKey, step: RowStep, pc: Pc)
    ensures TryStep(s, token, k, step, pc).submits == s.submits && TryStep(s, token, k, step, pc).cancels == s.cancels
  {
    hide Passes, Writable, Advance, Act;
  }

  lemma OtherStepsCallNothing(s: Sys, a: SysAction, token: string)
    requires token in s.pcs && !a.CallBroker?
    ensures SessionStep(s, a, token).submits == s.submits && SessionStep(s, a, token).cancels == s.cancels
  {
    hide Passes, Writable, ApplyStep, CommandTransition, Advance, Ingest, Act, StepGuard, IsRecoveryStep;
    hide ValidEvidence, TryStep;
    forall k, step, pc
      ensures TryStep(s, token, k, step, pc).submits == s.submits && TryStep(s, token, k, step, pc).cancels == s.cancels
    {
      TryStepCallsNothing(s, token, k, step, pc);
    }
  }

  lemma CallsOnlyFromArmed(s: Sys, a: SysAction)
    ensures var n := Step(s, a);
            if a.CallBroker? && a.token in s.pcs && s.pcs[a.token].Armed? then
              var pc := s.pcs[a.token];
              if pc.cancel then n.submits == s.submits && n.cancels == s.cancels[pc.k := Count(s.cancels, pc.k) + 1]
              else n.cancels == s.cancels && n.submits == s.submits[pc.k := Count(s.submits, pc.k) + 1]
            else n.submits == s.submits && n.cancels == s.cancels
  {
    hide Act;
    if !a.CallBroker? {
      hide SessionStep;
      if !a.Elapse? && !a.Open? && a.token in s.pcs {
        OtherStepsCallNothing(s, a, a.token);
      }
    }
  }

  /**
   * While a session holds the lease, every row it acts on is exactly where its
   * own operation left it; so the rows recovery listed are still stored, and
   * the write that closes a cancel never moves the order.
   */
  lemma HoldersActOnCurrentRows(actions: seq<SysAction>, token: string)
    ensures var s := RunSystem(EmptySys, actions);
            token in s.pcs && Passes(s.w, token) ==> ReadsCurrent(s.pcs[token], s.journal.orders)
  {
    hide Sound, Fenceable, AtMostOnce, PendingUncalled, PendingUnique, RunSystem;
    ReachableIsSafe(actions);
  }

  /** The database every run reaches is sound, and its writes form one block per lease. */
  lemma RunsAreSoundAndSerial(actions: seq<SysAction>)
    ensures var s := RunSystem(EmptySys, actions); Sound(s.journal) && InBlocks(s.w.acquired, s.w.writes)
  {
    hide Sound, AtMostOnce, PendingUncalled, PendingUnique, RunSystem, HoldersCurrent;
    ReachableIsSafe(actions);
  }

  /** The lease runs out and another session takes over. */
  lemma TakenOver(w: World, token: string, session: string, other: string, seconds: int) returns (n: World)
    requires Fenceable(w) && Passes(w, token) && other !in w.leases && 0 < seconds
    ensures w.row.Some? && w.now < w.row.value.expiresAt
    ensures n == Act(Act(w, Tick(w.row.value.expiresAt - w.now)), TryAcquire(session, other, seconds))
    ensures Passes(n, other) && !Passes(n, token) && n != Act(w, Tick(w.row.value.expiresAt - w.now))
  {
    hide InBlocks, Distinct;
    n := Act(Act(w, Tick(w.row.value.expiresAt - w.now)), TryAcquire(session, other, seconds));
  }

  /**
   * The lease does not stop a session between its last check and the broker:
   * one that was taken over in between still calls, once, and can then no
   * longer record the outcome.
   */
  lemma FencedSessionStillCalls(s: Sys, token: string, session: string, other: string, seconds: int)
    requires Safe(s) && token in s.pcs && Passes(s.w, token) && s.pcs[token].Armed? && !s.pcs[token].cancel
    requires other !in s.pcs && 0 < seconds
    ensures var late := Step(s, Elapse(s.w.row.value.expiresAt - s.w.now));
            var taken := Step(late, Open(session, other, seconds));
            var n := Step(taken, CallBroker(token, false));
            && Passes(n.w, other) && !Passes(n.w, token)
            && Count(n.submits, s.pcs[token].k) == 1
            && n.journal == s.journal && Step(n, RecordUnknown(token)).journal == s.journal
  {
    hide Safe, Act, Passes, SessionStep, Fenceable, PendingUncalled;
    SafeToTakeOver(s);
    ArmedIsUnused(s, token);
    assert other !in s.w.leases.Keys;
    var w := TakenOver(s.w, token, session, other, seconds);
    var late := Step(s, Elapse(s.w.row.value.expiresAt - s.w.now));
    var taken := Step(late, Open(session, other, seconds));
    assert taken == late.(w := w, pcs := s.pcs[other := Idle]);
    CallAndRecord(taken, token);
  }

  lemma CallAndRecord(s: Sys, token: string)
    requires token in s.pcs && !Passes(s.w, token) && s.pcs[token].Armed? && !s.pcs[token].cancel
    ensures var n := Step(s, CallBroker(token, false));
            && n.w == s.w && n.journal == s.journal
            && n.submits == s.submits[s.pcs[token].k := Count(s.submits, s.pcs[token].k) + 1]
            && Step(n, RecordUnknown(token)).journal == s.journal
  {
    hide Act, Passes, Advance, ApplyStep, Writable;
  }

  // --------------------------------------------------------------------- a reachable one

  lemma {:induction false} RunAppend(s: Sys, actions: seq<SysAction>, a: SysAction)
    ensures RunSystem(s, actions + [a]) == Step(RunSystem(s, actions), a)
    decreases |actions|
  {
    if actions == [] {
      assert actions + [a] == [a] && [a][1..] == [];
    } else {
      hide Step;
      assert (actions + [a])[1..] == actions[1..] + [a];
      RunAppend(Step(s, actions[0]), actions[1..], a);
    }
  }

  ghost predicate Reachable(s: Sys) {
    exists actions :: RunSystem(EmptySys, actions) == s
  }

  lemma ReachStep(s: Sys, a: SysAction)
    requires Reachable(s)
    ensures Reachable(Step(s, a))
  {
    hide Step;
    var actions :| RunSystem(EmptySys, actions) == s;
    RunAppend(EmptySys, actions, a);
  }

  lemma WritingKeepsTheLease(w: World, token: string)
    requires Passes(w, token)
    ensures Passes(Act(w, TryWrite(token)), token)
  {
  }

  /** The holder's next guarded write of its own order. */
  lemma HolderWrites(s: Sys, a: SysAction, token: string, k: OrderKey, step: RowStep, o: Order, p: Order, pc: Pc)
    returns (n: Sys)
    requires Reachable(s) && token in s.pcs && Passes(s.w, token) && s.journal == Journal(map[k := o], map[], [])
    requires IsCommandStep(step) && StepGuard(o, step) && ApplyStep(o, step) == Ok(p)
    requires Step(s, a) == TryStep(s, token, k, step, pc)
    ensures n == Step(s, a) && Reachable(n) && token in n.pcs && n.pcs[token] == pc && Passes(n.w, token)
    ensures n.journal == Journal(map[k := p], map[], []) && n.pcs.Keys == s.pcs.Keys
  {
    hide Step, Passes, Act, Reachable, ApplyStep, StepGuard, TryStep, IsCommandStep;
    ReachStep(s, a);
    WritingKeepsTheLease(s.w, token);
    TryStepCommits(s, token, k, step, o, p, pc);
    n := Step(s, a);
  }

  lemma TryStepCommits(s: Sys, token: string, k: OrderKey, step: RowStep, o: Order, p: Order, pc: Pc)
    requires Passes(s.w, token) && s.journal == Journal(map[k := o], map[], [])
    requires IsCommandStep(step) && StepGuard(o, step) && ApplyStep(o, step) == Ok(p)
    ensures TryStep(s, token, k, step, pc) ==
            s.(w := Act(s.w, TryWrite(token)), journal := Journal(map[k := p], map[], []), pcs := s.pcs[token := pc])
  {
    hide Passes, Act, ApplyStep, StepGuard, IsCommandStep;
    assert s.journal.orders[k := p] == map[k := p];
  }

  /** A session opens, registers an order of one, accepts it, reserves its submit, and passes its last check. */
  lemma ReachArmed(session: string, token: string, k: OrderKey) returns (s: Sys)
    ensures Reachable(s) && s.pcs.Keys == {token} && s.pcs[token] == Armed(false, k) && Passes(s.w, token)
    ensures s.journal == Journal(map[k := Order(Submitting, None, 0, 1, true, false, false)], map[], [])
  {
    hide Reachable, Passes, Act, ApplyStep, StepGuard, TryStep;
    var reserved := ReachReserved(session, token, k);
    ReachStep(reserved, Recheck(token));
    s := Step(reserved, Recheck(token));
  }

  lemma ReachReserved(session: string, token: string, k: OrderKey) returns (s: Sys)
    ensures Reachable(s) && s.pcs.Keys == {token} && s.pcs[token] == Reserved(false, k) && Passes(s.w, token)
    ensures s.journal == Journal(map[k := Order(Submitting, None, 0, 1, true, false, false)], map[], [])
  {
    hide Reachable, Passes, Act, ApplyStep, StepGuard, TryStep;
    var o := NewOrder(1);
    var authorized := ReachAuthorized(session, token, k);
    SubmitPath();
    s := HolderWrites(authorized, SysAction.Reserve(token), token, k, ReserveSubmit, o.(status := RiskAccepted),
                      Order(Submitting, None, 0, 1, true, false, false), Reserved(false, k));
  }

  lemma ReachAuthorized(session: string, token: string, k: OrderKey) returns (s: Sys)
    ensures Reachable(s) && s.pcs.Keys == {token} && s.pcs[token] == Authorized(k) && Passes(s.w, token)
    ensures s.journal == Journal(map[k := NewOrder(1).(status := RiskAccepted)], map[], [])
  {
    hide Reachable, Passes, Act, ApplyStep, StepGuard, TryStep;
    var o := NewOrder(1);
    var registered := ReachRegistered(session, token, k);
    SubmitPath();
    s := HolderWrites(registered, Decide(token, true), token, k, Risk(true), o, o.(status := RiskAccepted),
                      Authorized(k));
  }

  lemma SubmitPath()
    ensures var o, p := NewOrder(1), NewOrder(1).(status := RiskAccepted);
            && StepGuard(o, Risk(true)) && ApplyStep(o, Risk(true)) == Ok(p)
            && StepGuard(p, ReserveSubmit)
            && ApplyStep(p, ReserveSubmit) == Ok(Order(Submitting, None, 0, 1, true, false, false))
  {
  }

  lemma ReachIdle(session: string, token: string) returns (s: Sys)
    ensures Reachable(s) && s.pcs == map[token := Idle] && Passes(s.w, token) && s.journal == EmptyJournal
  {
    hide SessionStep;
    assert RunSystem(EmptySys, []) == EmptySys;
    s := Step(EmptySys, Open(session, token, 30));
    ReachStep(EmptySys, Open(session, token, 30));
  }

  lemma ReachRegistered(session: string, token: string, k: OrderKey) returns (s: Sys)
    ensures Reachable(s) && s.pcs == map[token := Registered(k)] && Passes(s.w, token)
    ensures s.journal == Journal(map[k := NewOrder(1)], map[], [])
  {
    hide Reachable, Passes, Act;
    var begun := ReachIdle(session, token);
    WritingKeepsTheLease(begun.w, token);
    ReachStep(begun, Register(token, k, 1, false));
    s := Step(begun, Register(token, k, 1, false));
  }

  /**
   * It happens: a run from the empty system in which a session is taken over
   * between its last check and the broker, calls submit all the same, and can
   * record nothing.
   */
  lemma FencedCallIsReached(session: string, token: string, other: string, k: OrderKey)
    requires token != other
    ensures exists actions ::
              var n := RunSystem(EmptySys, actions);
              && token in n.pcs && !Passes(n.w, token) && Passes(n.w, other) && Count(n.submits, k) == 1
              && StatusIn(n.journal.orders, k, {Submitting})
              && Step(n, RecordUnknown(token)).journal == n.journal
  {
    hide Safe, Passes, Act, RunSystem;
    var s := ReachArmed(session, token, k);
    ReachedIsSafe(s);
    FencedSessionStillCalls(s, token, session, other, 30);
    var late := Step(s, Elapse(s.w.row.value.expiresAt - s.w.now));
    var taken := Step(late, Open(session, other, 30));
    ReachStep(s, Elapse(s.w.row.value.expiresAt - s.w.now));
    ReachStep(late, Open(session, other, 30));
    ReachStep(taken, CallBroker(token, false));
  }

  lemma ReachedIsSafe(s: Sys)
    requires Reachable(s)
    ensures Safe(s) && forall t :: t in s.pcs && Passes(s.w, t) ==> s.w.row.Some?
  {
    var actions :| RunSystem(EmptySys, actions) == s;
    ReachableIsSafe(actions);
    hide Safe;
  }
}
