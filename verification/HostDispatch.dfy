/**
 * The Host's durable dispatch (qmt/guojin_sim_oms.py): a command frame is
 * planned in the same transaction as its reservation, published to the spool
 * afterwards, and recovered when the runtime starts.
 *
 * `budget` is how many more durable operations succeed before the process
 * dies or the lease is lost, so every contract below also covers stopping
 * between any two of them.
 */
module HostDispatch {
  import opened Basics
  import opened OrderLifecycle
  import opened OrderRows
  import opened BrokerEvidence
  import opened CommandPipeline
  import opened CommandSpool
  import opened Clocks

  datatype Kind = SubmitLimit | CancelLimit

  datatype DispatchState =
    | Planned
    | Published
    | ObservedClaimed
    | ObservedProcessed
    | ObservedRejected
    | Ambiguous
    | Reviewed

  /** A dispatch row; the command id is its key. */
  datatype Dispatch = Dispatch(k: OrderKey, kind: Kind, session: string, frame: Frame, state: DispatchState)

  datatype DispatchError =
    | Interrupted
    | NoSuchOrder
    | RowError(row: OrderRows.RowError)
    | IdentityConflict
    | NotCancellable
    | SpoolRefused(why: PublishError)

  /** What an intent did: nothing for an ended order, or resumed or sent its one dispatch. */
  datatype Dispatched = AlreadyEnded | Resumed | Sent

  function ObservedAs(d: Dir): DispatchState {
    match d
    case Inbox => Published
    case Claimed => ObservedClaimed
    case Processed => ObservedProcessed
    case Declined => ObservedRejected
    case Unresolved => Ambiguous
  }

  predicate Reserved(o: Order, kind: Kind) { if kind == SubmitLimit then o.submitStarted else o.cancelStarted }

  predicate InFlight(o: Order) { o.status in {Submitting, CancelPending} }

  // ------------------------------------------------------------------------ invariant

  ghost predicate PlanFor(dispatches: map<string, Dispatch>, k: OrderKey, kind: Kind, id: string) {
    id in dispatches && dispatches[id].k == k && dispatches[id].kind == kind
  }

  ghost predicate HasPlan(dispatches: map<string, Dispatch>, k: OrderKey, kind: Kind) {
    exists id :: PlanFor(dispatches, k, kind, id)
  }

  /** A reservation exists exactly when its plan does, apart from imported submits. */
  ghost predicate PlansMatchReservations(orders: map<OrderKey, Order>, imported: set<OrderKey>,
                                         dispatches: map<string, Dispatch>) {
    forall k, kind :: k in orders ==>
      (Reserved(orders[k], kind) <==> HasPlan(dispatches, k, kind) || (kind == SubmitLimit && k in imported))
  }

  predicate SamePlan(d: Dispatch, e: Dispatch) { d.k == e.k && d.kind == e.kind }

  ghost predicate OnePlanEach(dispatches: map<string, Dispatch>) {
    forall a, b :: a in dispatches && b in dispatches && SamePlan(dispatches[a], dispatches[b]) ==> a == b
  }

  /** A plan in manual review has taken its order there too. */
  ghost predicate PlansHaveOrders(orders: map<OrderKey, Order>, dispatches: map<string, Dispatch>) {
    forall id :: id in dispatches ==>
      && dispatches[id].k in orders
      && (dispatches[id].state == Reviewed ==> orders[dispatches[id].k].status == ManualReview)
  }

  /** When the expiry was checked for a file, and when the file then appeared. */
  datatype Appearance = Appearance(checked: int, written: int)

  /** How often, and when, each command's file was newly created. */
  type Creations = map<string, seq<Appearance>>

  /** Each command file was created at most once, and is still somewhere. */
  ghost predicate PublishedOnce(files: Files, publishes: Creations) {
    forall id :: Count(publishes, id) <= 1 && (Count(publishes, id) == 1 ==> Present(files, id))
  }

  ghost predicate AllCoupled(orders: map<OrderKey, Order>) {
    forall k :: k in orders ==> Coupled(orders[k])
  }

  ghost predicate Durable(orders: map<OrderKey, Order>, imported: set<OrderKey>, dispatches: map<string, Dispatch>) {
    && AllCoupled(orders) && imported <= orders.Keys
    && OnePlanEach(dispatches)
    && PlansHaveOrders(orders, dispatches)
    && PlansMatchReservations(orders, imported, dispatches)
  }

  // -------------------------------------------------------------------- row-level lemmas

  /** A write to one row that keeps its reservations, and its review, keeps the tables consistent. */
  lemma RowWriteKeepsDurable(orders: map<OrderKey, Order>, imported: set<OrderKey>, dispatches: map<string, Dispatch>,
                             k: OrderKey, p: Order)
    requires Durable(orders, imported, dispatches) && k in orders && Coupled(p)
    requires forall kind :: Reserved(p, kind) == Reserved(orders[k], kind)
    requires orders[k].status == ManualReview ==> p.status == ManualReview
    ensures Durable(orders[k := p], imported, dispatches)
  {
    hide Coupled, HasPlan, Reserved;
  }

  lemma StateWriteKeepsDurable(orders: map<OrderKey, Order>, imported: set<OrderKey>, dispatches: map<string, Dispatch>,
                               id: string, state: DispatchState)
    requires Durable(orders, imported, dispatches) && id in dispatches
    requires state == Reviewed ==> orders[dispatches[id].k].status == ManualReview
    ensures Durable(orders, imported, dispatches[id := dispatches[id].(state := state)])
  {
    hide Coupled, Reserved, AllCoupled;
    var n := dispatches[id := dispatches[id].(state := state)];
    forall k, kind ensures HasPlan(n, k, kind) <==> HasPlan(dispatches, k, kind) {
      assert forall i :: PlanFor(n, k, kind, i) <==> PlanFor(dispatches, k, kind, i);
    }
  }

  /** The reservation and its plan, in one transaction. */
  lemma ReserveKeepsDurable(orders: map<OrderKey, Order>, imported: set<OrderKey>, dispatches: map<string, Dispatch>,
                            id: string, d: Dispatch, p: Order)
    requires Durable(orders, imported, dispatches) && d.k in orders && id !in dispatches && d.state == Planned
    requires Coupled(p) && !Reserved(orders[d.k], d.kind) && Reserved(p, d.kind)
    requires forall kind :: kind != d.kind ==> Reserved(p, kind) == Reserved(orders[d.k], kind)
    requires orders[d.k].status == ManualReview ==> p.status == ManualReview
    ensures Durable(orders[d.k := p], imported, dispatches[id := d])
  {
    hide Coupled, Reserved;
    var n := dispatches[id := d];
    forall k, kind ensures HasPlan(n, k, kind) <==> HasPlan(dispatches, k, kind) || (k == d.k && kind == d.kind) {
      assert PlanFor(n, d.k, d.kind, id);
      assert forall i :: i != id ==> (PlanFor(n, k, kind, i) <==> PlanFor(dispatches, k, kind, i));
    }
    assert forall i :: i in dispatches ==> PlanFor(dispatches, dispatches[i].k, dispatches[i].kind, i);
    assert !HasPlan(dispatches, d.k, d.kind);
  }

  /** A created order has no plan and no reservation yet. */
  lemma NewOrderKeepsDurable(orders: map<OrderKey, Order>, imported: set<OrderKey>, dispatches: map<string, Dispatch>,
                             k: OrderKey, quantity: int)
    requires Durable(orders, imported, dispatches) && k !in orders && 0 < quantity
    ensures Durable(orders[k := NewOrder(quantity)], imported, dispatches)
  {
    assert forall kind, id :: !PlanFor(dispatches, k, kind, id);
    assert forall kind :: !HasPlan(dispatches, k, kind);
  }

  /** A stored plan means the reservation was made, so a second one fails. */
  lemma PlannedMeansReserved(orders: map<OrderKey, Order>, imported: set<OrderKey>, dispatches: map<string, Dispatch>,
                             id: string)
    requires Durable(orders, imported, dispatches) && id in dispatches
    ensures dispatches[id].k in orders && Reserved(orders[dispatches[id].k], dispatches[id].kind)
  {
    assert PlanFor(dispatches, dispatches[id].k, dispatches[id].kind, id);
    assert HasPlan(dispatches, dispatches[id].k, dispatches[id].kind);
  }

  /** The execution decision of the core always accepts. */
  lemma AcceptRow(o: Order)
    requires Coupled(o) && o.status == Created
    ensures var r := ApplyStep(o, Risk(true));
            && r == Ok(o.(status := RiskAccepted)) && Coupled(r.value)
            && (forall kind :: Reserved(r.value, kind) == Reserved(o, kind))
  {
  }

  /** A published order's row: in flight or unknown becomes RECONCILING. */
  function Reconciled(o: Order): Order {
    if InFlight(o) || o.status == Unknown then o.(status := Reconciling) else o
  }

  /** An order is left waiting for the broker, and nothing else about it changes. */
  lemma ReconciledWaits(o: Order)
    ensures Reconciled(o).status == if o.status in {Submitting, CancelPending, Unknown} then Reconciling else o.status
    ensures Reconciled(o).(status := o.status) == o
  {
  }

  lemma StepRow(o: Order, step: RowStep)
    requires Coupled(o)
    requires (step.ToUnknown? && InFlight(o)) || (step.ToReconciling? && o.status == Unknown) || step.Review?
    ensures var r := ApplyStep(o, step);
            && r.Ok? && Coupled(r.value)
            && (forall kind :: Reserved(r.value, kind) == Reserved(o, kind))
            && (o.status == ManualReview ==> r.value.status == ManualReview)
            && (step.ToUnknown? ==> r.value == o.(status := Unknown))
            && (step.ToReconciling? ==> r.value == o.(status := Reconciling))
            && (step.Review? ==> r.value == MarkManualReview(o, step.resolved))
  {
  }

  lemma ReserveRow(o: Order, kind: Kind)
    requires Coupled(o)
    ensures var r := if kind == CancelLimit then PrepareCancel(o) else PrepareSubmit(o);
            && (r.Ok? <==> if kind == SubmitLimit then o.status == RiskAccepted && !o.submitStarted
                           else o.status in {Acknowledged, PartiallyFilled} && !o.cancelStarted)
            && (r.Ok? ==>
                  r.value == if kind == SubmitLimit then o.(status := Submitting, submitStarted := true)
                             else o.(status := CancelPending, cancelStarted := true, cancelResolved := false))
    ensures var r := if kind == CancelLimit then PrepareCancel(o) else PrepareSubmit(o);
            r.Ok? ==>
              && Coupled(r.value) && !Reserved(o, kind) && Reserved(r.value, kind)
              && (forall other :: other != kind ==> Reserved(r.value, other) == Reserved(o, other))
              && o.status != ManualReview
  {
  }

  lemma PublishedStaysOnce(was: Files, now: Files, publishes: Creations)
    requires PublishedOnce(was, publishes) && MovesForward(was, now)
    ensures PublishedOnce(now, publishes)
  {
  }

  lemma OrderFacts(orders: map<OrderKey, Order>, imported: set<OrderKey>, dispatches: map<string, Dispatch>,
                   k: OrderKey)
    requires Durable(orders, imported, dispatches) && k in orders
    ensures Coupled(orders[k])
    ensures orders[k].status == Submitting ==> orders[k].submitStarted
    ensures orders[k].status == CancelPending ==> CancelUnresolved(orders[k])
  {
  }

  lemma PlanFacts(orders: map<OrderKey, Order>, imported: set<OrderKey>, dispatches: map<string, Dispatch>, id: string)
    requires Durable(orders, imported, dispatches) && id in dispatches
    ensures dispatches[id].k in orders
    ensures dispatches[id].state == Reviewed ==> orders[dispatches[id].k].status == ManualReview
  {
  }

  ghost predicate DistinctIds(ids: seq<string>) {
    forall i, j :: 0 <= i < j < |ids| ==> ids[i] != ids[j]
  }

  /** A plan of this session for the order that recovery will process. */
  ghost predicate HasLivePlan(dispatches: map<string, Dispatch>, session: string, k: OrderKey) {
    exists id :: id in dispatches && dispatches[id].k == k && dispatches[id].session == session
      && dispatches[id].state != Reviewed
  }

  /** The plan of the kind exists and belongs to this session. */
  ghost predicate PlannedHere(dispatches: map<string, Dispatch>, session: string, k: OrderKey, kind: Kind) {
    exists id :: PlanFor(dispatches, k, kind, id) && dispatches[id].session == session
  }

  /** What validation makes of a row: a reservation this session cannot account for goes to review. */
  ghost function Validated(dispatches: map<string, Dispatch>, session: string, k: OrderKey, o: Order): Order {
    if o.status == Submitting && o.submitStarted && !PlannedHere(dispatches, session, k, SubmitLimit)
      then MarkManualReview(o, None)
    else if CancelUnresolved(o) && o.status in {Acknowledged, PartiallyFilled, CancelPending}
         && !PlannedHere(dispatches, session, k, CancelLimit) then MarkManualReview(o, Some(true))
    else o
  }

  /**
   * Validation reviews exactly the reservations without a plan of this session:
   * a submit that was begun, or a cancel still open on a working order. A
   * reviewed cancel counts as resolved.
   */
  lemma ReviewedExactlyWhenUnaccounted(dispatches: map<string, Dispatch>, session: string, k: OrderKey, o: Order)
    ensures var p := Validated(dispatches, session, k, o);
            var submit := exists id :: id in dispatches && dispatches[id].k == k && dispatches[id].kind == SubmitLimit
                                       && dispatches[id].session == session;
            var cancel := exists id :: id in dispatches && dispatches[id].k == k && dispatches[id].kind == CancelLimit
                                       && dispatches[id].session == session;
            var openCancel := o.cancelStarted && !o.cancelResolved
                              && o.status in {Acknowledged, PartiallyFilled, CancelPending};
            && (p != o <==> (o.status == Submitting && o.submitStarted && !submit) || (openCancel && !cancel))
            && (p != o ==>
                  p == o.(status := ManualReview, cancelResolved := o.cancelResolved || o.status != Submitting))
  {
    assert forall kind :: PlannedHere(dispatches, session, k, kind) <==>
                          exists id :: id in dispatches && dispatches[id].k == k && dispatches[id].kind == kind
                                       && dispatches[id].session == session;
  }

  lemma FoundPlan(dispatches: map<string, Dispatch>, session: string, k: OrderKey, kind: Kind, found: Option<string>)
    requires OnePlanEach(dispatches)
    requires if found.Some? then PlanFor(dispatches, k, kind, found.value) else !HasPlan(dispatches, k, kind)
    ensures PlannedHere(dispatches, session, k, kind) <==> found.Some? && dispatches[found.value].session == session
  {
    if PlannedHere(dispatches, session, k, kind) {
      var id :| PlanFor(dispatches, k, kind, id) && dispatches[id].session == session;
      assert HasPlan(dispatches, k, kind);
      assert SamePlan(dispatches[id], dispatches[found.value]);
    }
  }

  lemma OnePlan(orders: map<OrderKey, Order>, imported: set<OrderKey>, dispatches: map<string, Dispatch>)
    requires Durable(orders, imported, dispatches)
    ensures OnePlanEach(dispatches)
  {
  }

  lemma LivePlan(orders: map<OrderKey, Order>, imported: set<OrderKey>, dispatches: map<string, Dispatch>,
                 session: string, k: OrderKey, id: string)
    requires Durable(orders, imported, dispatches) && id in dispatches && dispatches[id].k == k
             && dispatches[id].session == session
    ensures k in orders && InFlight(orders[k]) ==> HasLivePlan(dispatches, session, k)
  {
  }

  /** Every order still in flight has a plan among those not yet processed. */
  ghost predicate InFlightListed(orders: map<OrderKey, Order>, dispatches: map<string, Dispatch>, account: string,
                                 ids: seq<string>, i: nat) {
    forall k :: k in orders && k.account == account && InFlight(orders[k]) ==>
      exists m :: i <= m < |ids| && ids[m] in dispatches && dispatches[ids[m]].k == k
  }

  lemma LivePlansAreListed(orders: map<OrderKey, Order>, dispatches: map<string, Dispatch>, account: string,
                           session: string, ids: seq<string>)
    requires forall k :: k in orders && k.account == account && InFlight(orders[k]) ==>
               HasLivePlan(dispatches, session, k)
    requires forall id :: id in dispatches && dispatches[id].session == session && dispatches[id].state != Reviewed ==>
               id in ids
    ensures InFlightListed(orders, dispatches, account, ids, 0)
  {
    forall k | k in orders && k.account == account && InFlight(orders[k])
      ensures exists m :: 0 <= m < |ids| && ids[m] in dispatches && dispatches[ids[m]].k == k
    {
      var id :| id in dispatches && dispatches[id].k == k && dispatches[id].session == session
        && dispatches[id].state != Reviewed;
      var m :| 0 <= m < |ids| && ids[m] == id;
    }
  }

  lemma DispatchDone(was: map<OrderKey, Order>, now: map<OrderKey, Order>, plansWere: map<string, Dispatch>,
                     plans: map<string, Dispatch>, account: string, ids: seq<string>, i: nat)
    requires i < |ids| && InFlightListed(was, plansWere, account, ids, i) && ids[i] in plansWere && ids[i] in plans
    requires plans == plansWere[ids[i] := plans[ids[i]]] && SamePlan(plans[ids[i]], plansWere[ids[i]])
    requires var k := plansWere[ids[i]].k; k in now && now == was[k := now[k]] && !InFlight(now[k])
    ensures InFlightListed(now, plans, account, ids, i + 1)
  {
    hide InFlight;
    forall k | k in now && k.account == account && InFlight(now[k])
      ensures exists m :: i + 1 <= m < |ids| && ids[m] in plans && plans[ids[m]].k == k
    {
      var m :| i <= m < |ids| && ids[m] in plansWere && plansWere[ids[m]].k == k;
      assert m != i && ids[m] in plans && plans[ids[m]].k == k;
    }
  }

  function Count(publishes: Creations, id: string): nat { if id in publishes then |publishes[id]| else 0 }

  /** The check found the plan unexpired; the file appeared no earlier. */
  predicate CheckedInTime(c: Appearance, since: int, expires: int) {
    since <= c.checked < expires && c.checked <= c.written
  }

  /**
   * Files created since then: each once, after a check that found its plan unexpired,
   * from a plan of this session never created before.
   */
  ghost predicate CreatedFromPlans(was: Creations, now: Creations, plans: map<string, Dispatch>, session: string,
                                   since: int, among: set<string>) {
    forall id :: Count(now, id) != Count(was, id) ==>
      && id in among && id in plans
      && Count(was, id) == 0 && Count(now, id) == 1
      && plans[id].session == session && plans[id].state == Planned
      && CheckedInTime(now[id][0], since, plans[id].frame.expires)
  }

  function Earlier(ids: seq<string>, i: nat): set<string>
    requires i <= |ids|
  {
    set m | 0 <= m < i :: ids[m]
  }

  lemma NothingCreated(publishes: Creations, plans: map<string, Dispatch>, session: string, since: int)
    ensures CreatedFromPlans(publishes, publishes, plans, session, since, {})
  {
  }

  lemma CreationStep(was: Creations, mid: Creations, now: Creations, plans: map<string, Dispatch>, session: string,
                     since: int, ids: seq<string>, i: nat)
    requires i < |ids| && DistinctIds(ids) && ids[i] in plans
    requires CreatedFromPlans(was, mid, plans, session, since, Earlier(ids, i))
    requires || now == mid
             || (&& Count(mid, ids[i]) == 0 && Count(now, ids[i]) == 1 && now == mid[ids[i] := now[ids[i]]]
                 && plans[ids[i]].state == Planned && plans[ids[i]].session == session
                 && CheckedInTime(now[ids[i]][0], since, plans[ids[i]].frame.expires))
    ensures CreatedFromPlans(was, now, plans, session, since, Earlier(ids, i + 1))
  {
    assert ids[i] !in Earlier(ids, i);
    assert Earlier(ids, i + 1) == Earlier(ids, i) + {ids[i]};
  }

  lemma EarlierAreKeys(plans: map<string, Dispatch>, ids: seq<string>, i: nat, was: Creations, now: Creations,
                       session: string, since: int)
    requires i <= |ids| && (forall m :: 0 <= m < |ids| ==> ids[m] in plans)
    requires CreatedFromPlans(was, now, plans, session, since, Earlier(ids, i))
    ensures CreatedFromPlans(was, now, plans, session, since, plans.Keys)
  {
  }

  /** The first `i` listed plans are settled, the others are as they were. */
  ghost predicate PlansProgress(was: map<string, Dispatch>, now: map<string, Dispatch>, ids: seq<string>, i: nat) {
    && i <= |ids| && now.Keys == was.Keys
    && (forall m :: 0 <= m < |ids| ==> ids[m] in was)
    && (forall m :: i <= m < |ids| ==> now[ids[m]] == was[ids[m]])
    && (forall m :: 0 <= m < i ==> now[ids[m]].state != Planned)
    && (forall id :: id in was && id !in ids ==> now[id] == was[id])
    && (forall id :: id in was ==> now[id].session == was[id].session)
  }

  lemma NoProgressYet(dispatches: map<string, Dispatch>, ids: seq<string>)
    requires forall m :: 0 <= m < |ids| ==> ids[m] in dispatches
    ensures PlansProgress(dispatches, dispatches, ids, 0)
  {
  }

  lemma NotYetProcessed(was: map<string, Dispatch>, now: map<string, Dispatch>, ids: seq<string>, i: nat)
    requires PlansProgress(was, now, ids, i) && i < |ids|
    ensures ids[i] in was && ids[i] in now && now[ids[i]] == was[ids[i]]
  {
  }

  lemma ProgressStep(was: map<string, Dispatch>, mid: map<string, Dispatch>, now: map<string, Dispatch>,
                     ids: seq<string>, i: nat)
    requires PlansProgress(was, mid, ids, i) && i < |ids| && DistinctIds(ids) && ids[i] in now && ids[i] in mid
    requires now == mid[ids[i] := now[ids[i]]] && now[ids[i]].session == mid[ids[i]].session
             && now[ids[i]].state != Planned
    ensures PlansProgress(was, now, ids, i + 1)
  {
  }

  lemma AllProcessed(was: map<string, Dispatch>, orders: map<OrderKey, Order>, now: map<string, Dispatch>,
                     account: string, session: string, ids: seq<string>)
    requires PlansProgress(was, now, ids, |ids|) && InFlightListed(orders, now, account, ids, |ids|)
    requires forall id :: id in was && was[id].session == session && was[id].state != Reviewed ==> id in ids
    ensures forall id :: id in now && now[id].session == session ==> now[id].state != Planned
    ensures forall k :: k in orders && k.account == account ==> !InFlight(orders[k])
  {
    forall id | id in now && now[id].session == session ensures now[id].state != Planned {
      if id in ids {
        var m :| 0 <= m < |ids| && ids[m] == id;
      }
    }
  }

  // -------------------------------------------------------------------------- runtime

  /** The Host runtime of one QMT session over the stored tables and the spool. */
  class HostRuntime {
    const spool: QmtCommandSpool
    const clock: Clock
    const account: string
    const session: string
    var orders: map<OrderKey, Order>
    var imported: set<OrderKey>
    var dispatches: map<string, Dispatch>
    var budget: nat
    /** When the checks were made after which each command's file was newly created in the spool. */
    ghost var publishes: Creations

    /** A new process attached to whatever the last one left stored. */
    constructor (spool: QmtCommandSpool, clock: Clock, account: string, session: string, budget: nat,
                 orders: map<OrderKey, Order>, imported: set<OrderKey>, dispatches: map<string, Dispatch>,
                 ghost publishes: Creations)
      requires Durable(orders, imported, dispatches) && AllInOnePlace(spool.files)
               && PublishedOnce(spool.files, publishes)
      ensures Valid()
      ensures this.spool == spool && this.clock == clock && this.account == account && this.session == session
      ensures this.orders == orders && this.dispatches == dispatches && this.publishes == publishes
    {
      this.spool, this.clock, this.account, this.session, this.budget := spool, clock, account, session, budget;
      this.orders, this.imported, this.dispatches, this.publishes := orders, imported, dispatches, publishes;
    }

    ghost predicate Valid()
      reads this, spool
    {
      && Durable(orders, imported, dispatches)
      && AllInOnePlace(spool.files)
      && PublishedOnce(spool.files, publishes)
    }

    ghost function Publishes(id: string): nat
      reads this
    {
      Count(publishes, id)
    }

    /** A durable operation: false once the process is gone or the lease is lost. */
    method Spend() returns (alive: bool)
      modifies `budget
      ensures budget <= old(budget) && (alive <==> old(budget) > 0)
    {
      alive := budget > 0;
      if alive {
        budget := budget - 1;
      }
    }

    /** `transition_order` or `mark_manual_review` on one order. */
    method WriteRow(k: OrderKey, step: RowStep) returns (r: Result<(), DispatchError>)
      requires Valid() && k in orders
      requires (step.ToUnknown? && InFlight(orders[k])) || (step.ToReconciling? && orders[k].status == Unknown)
               || step.Review?
      modifies `orders, `budget
      ensures Valid()
      ensures r.Ok? ==>
                && ApplyStep(old(orders)[k], step).Ok?
                && orders == old(orders)[k := ApplyStep(old(orders)[k], step).value]
      ensures r.Err? ==> orders == old(orders) && r.error == Interrupted && budget == 0
    {
      hide Durable, ApplyStep;
      var alive := Spend();
      if !alive {
        return Err(Interrupted);
      }
      OrderFacts(orders, imported, dispatches, k);
      StepRow(orders[k], step);
      var written := ApplyStep(orders[k], step);
      RowWriteKeepsDurable(orders, imported, dispatches, k, written.value);
      orders := orders[k := written.value];
      r := Ok(());
    }

    method SetDispatchState(id: string, state: DispatchState) returns (r: Result<(), DispatchError>)
      requires Valid() && id in dispatches && state != Reviewed
      modifies `dispatches, `budget
      ensures Valid()
      ensures dispatches == if r.Ok? then old(dispatches)[id := old(dispatches)[id].(state := state)]
              else old(dispatches)
      ensures r.Err? ==> r.error == Interrupted && budget == 0
    {
      hide Durable;
      var alive := Spend();
      if !alive {
        return Err(Interrupted);
      }
      StateWriteKeepsDurable(orders, imported, dispatches, id, state);
      dispatches := dispatches[id := dispatches[id].(state := state)];
      r := Ok(());
    }

    /** The plan and its order go to manual review in one transaction. */
    method FailDispatch(id: string) returns (r: Result<(), DispatchError>)
      requires Valid() && id in dispatches
      modifies `orders, `dispatches, `budget
      ensures Valid()
      ensures r.Err? ==> r.error == Interrupted && budget == 0 && orders == old(orders) && dispatches == old(dispatches)
      ensures r.Ok? ==> dispatches == old(dispatches)[id := old(dispatches)[id].(state := Reviewed)]
      ensures r.Ok? ==>
                var k := old(dispatches)[id].k;
                && k in old(orders) && k in orders && orders == old(orders)[k := orders[k]]
                && orders[k] == MarkManualReview(old(orders)[k], if old(dispatches)[id].kind == CancelLimit
                                                 then Some(true) else None)
    {
      hide Durable, Coupled, Reserved;
      var alive := Spend();
      if !alive {
        return Err(Interrupted);
      }
      var d := dispatches[id];
      PlanFacts(orders, imported, dispatches, id);
      OrderFacts(orders, imported, dispatches, d.k);
      var resolved := if d.kind == CancelLimit then Some(true) else None;
      StepRow(orders[d.k], Review(resolved));
      var reviewed := MarkManualReview(orders[d.k], resolved);
      RowWriteKeepsDurable(orders, imported, dispatches, d.k, reviewed);
      orders := orders[d.k := reviewed];
      StateWriteKeepsDurable(orders, imported, dispatches, id, Reviewed);
      dispatches := dispatches[id := d.(state := Reviewed)];
      r := Ok(());
    }

    /** After a publication, the order's lifecycle is unknown until the broker reports it. */
    method BeginReconciliation(k: OrderKey) returns (r: Result<(), DispatchError>)
      requires Valid() && k in orders
      modifies `orders, `budget
      ensures Valid()
      ensures k in orders && orders == old(orders)[k := orders[k]]
      ensures InFlight(orders[k]) ==> old(InFlight(orders[k]))
      ensures r.Ok? ==> orders[k] == Reconciled(old(orders)[k])
      ensures r.Err? ==> r.error == Interrupted && budget == 0
    {
      hide Durable;
      OrderFacts(orders, imported, dispatches, k);
      assert orders == orders[k := orders[k]];
      r := Ok(());
      if InFlight(orders[k]) {
        StepRow(orders[k], ToUnknown);
        r := WriteRow(k, ToUnknown);
        if r.Err? {
          return;
        }
        OrderFacts(orders, imported, dispatches, k);
      }
      if orders[k].status == Unknown {
        StepRow(orders[k], ToReconciling);
        r := WriteRow(k, ToReconciling);
      }
    }

    /** Puts a frame that was never created into the spool, if it is unexpired when `publish` checks. */
    method CreateFile(id: string, frame: Frame) returns (r: Result<(), DispatchError>)
      requires Valid() && Publishes(id) == 0
      modifies `budget, `publishes, spool, clock
      ensures Valid() && old(clock.now) <= clock.now
      ensures || publishes == old(publishes)
              || (&& Publishes(id) == 1 && publishes == old(publishes)[id := publishes[id]]
                  && CheckedInTime(publishes[id][0], old(clock.now), frame.expires)
                  && publishes[id][0].written <= clock.now)
      ensures r.Ok? ==> exists d :: Slot(d, id) in spool.files && spool.files[Slot(d, id)] == frame
      ensures r.Err? && budget > 0 ==> frame.expires <= clock.now || old(Present(spool.files, id))
    {
      hide Durable, PublishedOnce, AllInOnePlace, MovesForward;
      var alive := Spend();
      if !alive {
        return Err(Interrupted);
      }
      ghost var files := spool.files;
      var published, checked, written := spool.Publish(id, frame, clock);
      if published.Err? {
        PublishedStaysUnder(files, spool.files, publishes);
        return Err(SpoolRefused(published.error));
      }
      if Present(files, id) {
        PublishedStaysUnder(files, spool.files, publishes);
      } else {
        FirstPublication(files, spool.files, publishes, id, Appearance(checked, written));
        publishes := publishes[id := [Appearance(checked, written)]];
      }
      r := Ok(());
    }

    /** The frame is in the spool, the plan is published, and the order waits for the broker. */
    twostate predicate SentNow(id: string, row: Dispatch)
      reads this, spool
    {
      && row.k in old(orders) && row.k in orders && id in dispatches
      && dispatches[id] == row.(state := Published)
      && (exists d :: Slot(d, id) in spool.files && spool.files[Slot(d, id)] == row.frame)
      && orders[row.k] == Reconciled(old(orders)[row.k])
    }

    /** The order is in review with its dispatch; a failed cancel counts as resolved. */
    twostate predicate FailedWith(id: string, row: Dispatch)
      reads this
    {
      && row.k in old(orders) && row.k in orders
      && orders[row.k] == old(orders)[row.k].(
           status := ManualReview, cancelResolved := row.kind == CancelLimit || old(orders)[row.k].cancelResolved)
    }

    /** The plan was too old to send; plan and order are in review, and nothing was created. */
    twostate predicate ExpiredUnsent(id: string, row: Dispatch)
      reads this, clock
    {
      && row.k in orders && id in dispatches
      && dispatches[id] == row.(state := Reviewed) && FailedWith(id, row)
      && row.frame.expires <= clock.now && publishes == old(publishes)
    }

    /** The never-published plan of this session is published now, unless it expired. */
    method PublishPlanned(id: string, row: Dispatch) returns (r: Result<(), DispatchError>)
      requires Valid() && id in dispatches && dispatches[id] == row && row.state == Planned && row.session == session
      requires Publishes(id) == 0
      modifies `orders, `dispatches, `budget, `publishes, spool, clock
      ensures Valid() && OnlyDispatch(id) && OnlyPublishes(id) && old(clock.now) <= clock.now
      ensures r.Ok? ==> dispatches[id].state != Planned && !InFlight(orders[row.k])
      ensures r.Ok? ==> SentNow(id, row) || ExpiredUnsent(id, row)
      ensures r.Err? && budget > 0 ==> row.frame.expires <= clock.now || old(Present(spool.files, id))
    {
      hide Durable, PublishedOnce, AllInOnePlace, MovesForward;
      PlanFacts(orders, imported, dispatches, id);
      assert orders == orders[row.k := orders[row.k]] && dispatches == dispatches[id := row];
      var now := clock.Read();
      if row.frame.expires <= now {
        r := FailDispatch(id);
        return;
      }
      r := CreateFile(id, row.frame);
      if r.Err? {
        return;
      }
      r := SetDispatchState(id, Published);
      if r.Err? {
        return;
      }
      r := BeginReconciliation(row.k);
    }

    /** A frame found in the spool is adopted as it is; a different one is a conflict. */
    method AdoptLocated(id: string, row: Dispatch, place: Dir) returns (r: Result<(), DispatchError>)
      requires Valid() && id in dispatches && dispatches[id] == row
      modifies `orders, `dispatches, `budget, spool, clock
      ensures Valid() && OnlyDispatch(id) && old(clock.now) <= clock.now
      ensures r.Ok? ==>
                && dispatches[id] == row.(state := ObservedAs(place))
                && (place == Inbox <==> dispatches[id].state == Published)
                && (place == Claimed <==> dispatches[id].state == ObservedClaimed)
                && (place == Processed <==> dispatches[id].state == ObservedProcessed)
                && (place == Declined <==> dispatches[id].state == ObservedRejected)
                && (place == Unresolved <==> dispatches[id].state == Ambiguous)
                && orders[row.k] == Reconciled(old(orders)[row.k])
                && Slot(place, id) in spool.files && spool.files[Slot(place, id)] == row.frame
      ensures r.Err? ==> r.error in {Interrupted, IdentityConflict} || r.error.SpoolRefused?
      ensures r == Err(Interrupted) ==> budget == 0
    {
      hide Durable, PublishedOnce, AllInOnePlace, BridgeOnly;
      PlanFacts(orders, imported, dispatches, id);
      assert orders == orders[row.k := orders[row.k]] && dispatches == dispatches[id := row];
      ghost var files := spool.files;
      spool.BridgeActs(clock);
      PublishedStaysUnder(files, spool.files, publishes);
      if Slot(place, id) !in spool.files {
        return Err(SpoolRefused(Vanished));
      }
      if spool.files[Slot(place, id)] != row.frame {
        return Err(IdentityConflict);
      }
      if row.state != ObservedAs(place) {
        r := SetDispatchState(id, ObservedAs(place));
        if r.Err? {
          return;
        }
      }
      r := BeginReconciliation(row.k);
    }

    /** Tables after a dispatch was dealt with: only its own rows moved, and no other order became in flight. */
    twostate predicate OnlyDispatch(id: string)
      reads this
      requires id in old(dispatches)
    {
      && id in dispatches && dispatches == old(dispatches)[id := dispatches[id]]
      && SamePlan(dispatches[id], old(dispatches)[id]) && dispatches[id].session == old(dispatches)[id].session
      && var k := old(dispatches)[id].k;
         k in orders && k in old(orders)
         && orders == old(orders)[k := orders[k]]
         && (InFlight(orders[k]) ==> InFlight(old(orders)[k]))
    }

    /** Publications so far: at most this one is new, and only if it was never made before. */
    twostate predicate OnlyPublishes(id: string)
      reads this, clock
      requires id in old(dispatches)
    {
      publishes == old(publishes)
      || (&& old(Publishes(id)) == 0 && Publishes(id) == 1 && publishes == old(publishes)[id := publishes[id]]
          && old(dispatches)[id].state == Planned
          && old(dispatches)[id].session == session
          && CheckedInTime(publishes[id][0], old(clock.now), old(dispatches)[id].frame.expires)
          && publishes[id][0].written <= clock.now)
    }

    /**
     * Completes one dispatch after a restart. A plan that was never published
     * is published now, or fails if it expired; anything else is only looked
     * up, never sent again.
     */
    method RecoverDispatch(id: string, row: Dispatch) returns (r: Result<(), DispatchError>)
      requires Valid() && id in dispatches && dispatches[id] == row
      modifies `orders, `dispatches, `budget, `publishes, spool, clock
      ensures Valid() && OnlyDispatch(id) && OnlyPublishes(id) && old(clock.now) <= clock.now
      ensures r.Ok? ==> dispatches[id].state != Planned && !InFlight(orders[row.k])
      ensures r.Ok? && old(Present(spool.files, id)) ==>
                orders[row.k] == Reconciled(old(orders)[row.k])
                && exists d :: && dispatches[id] == row.(state := ObservedAs(d))
                               && Slot(d, id) in spool.files && spool.files[Slot(d, id)] == row.frame
      ensures r.Ok? && !old(Present(spool.files, id)) ==>
                match row.state
                case Planned => SentNow(id, row) || ExpiredUnsent(id, row)
                case Reviewed => dispatches[id] == row && orders == old(orders)
                case _ => dispatches[id] == row.(state := Reviewed) && FailedWith(id, row)
      ensures r.Err? && budget > 0 && row.session == session && row.k.account == account ==>
                old(Present(spool.files, id)) || (row.state == Planned && row.frame.expires <= clock.now)
    {
      hide Durable, PublishedOnce, AllInOnePlace, BridgeOnly;
      PlanFacts(orders, imported, dispatches, id);
      assert orders == orders[row.k := orders[row.k]] && dispatches == dispatches[id := row];
      if budget == 0 {
        return Err(Interrupted);
      }
      if row.session != session || row.k.account != account {
        return Err(IdentityConflict);
      }
      ghost var files := spool.files;
      var located, _ := spool.Locate(id, clock);
      PublishedStaysUnder(files, spool.files, publishes);
      if located.Err? {
        return Err(SpoolRefused(located.error));
      }
      if located.value.None? {
        if row.state == Planned {
          AbsentMeansUnpublished(files, publishes, id);
          StillAbsentUnder(files, spool.files, id);
          r := PublishPlanned(id, row);
        } else if row.state == Reviewed {
          r := Ok(());
        } else {
          r := FailDispatch(id);
        }
        return;
      }
      r := AdoptLocated(id, row, located.value.value);
    }

    /** Reservations this session cannot account for go to manual review. */
    method ValidateDispatchInvariants() returns (r: Result<(), DispatchError>)
      requires Valid()
      modifies `orders, `budget
      ensures Valid()
      ensures r.Ok? ==> forall k :: k in orders && k.account == account && InFlight(orders[k]) ==>
                HasLivePlan(dispatches, session, k)
      ensures orders.Keys == old(orders).Keys
      ensures r.Ok? ==> forall k :: k in orders ==>
                orders[k] == if k.account == account then Validated(dispatches, session, k, old(orders)[k])
                  else old(orders)[k]
    {
      hide Durable, PublishedOnce, AllInOnePlace, HasLivePlan, StepGuard, Validated;
      var left := orders.Keys;
      while left != {}
        invariant Valid() && left <= orders.Keys && orders.Keys == old(orders).Keys
        invariant forall k :: k in left ==> orders[k] == old(orders)[k]
        invariant forall k :: k in orders && k !in left ==>
                    orders[k] == if k.account == account then Validated(dispatches, session, k, old(orders)[k])
                      else old(orders)[k]
        invariant forall k :: k in orders && k !in left && k.account == account && InFlight(orders[k]) ==>
                    HasLivePlan(dispatches, session, k)
      {
        var k :| k in left;
        left := left - {k};
        if k.account == account {
          var done := ValidateOrder(k);
          if done.Err? {
            return Err(done.error);
          }
        }
      }
      r := Ok(());
    }

    method ValidateOrder(k: OrderKey) returns (r: Result<(), DispatchError>)
      requires Valid() && k in orders
      modifies `orders, `budget
      ensures Valid() && k in orders && orders == old(orders)[k := orders[k]]
      ensures r.Ok? ==> orders[k] == Validated(dispatches, session, k, old(orders)[k])
      ensures r.Err? ==> orders == old(orders)
      ensures r.Ok? && InFlight(orders[k]) ==> HasLivePlan(dispatches, session, k)
    {
      hide Durable, PublishedOnce, AllInOnePlace, OnePlanEach, PlannedHere, HasPlan;
      OrderFacts(orders, imported, dispatches, k);
      OnePlan(orders, imported, dispatches);
      assert orders == orders[k := orders[k]];
      var o := orders[k];
      r := Ok(());
      if o.status == Submitting && o.submitStarted {
        var plan := DispatchForOrder(k, SubmitLimit);
        FoundPlan(dispatches, session, k, SubmitLimit, plan);
        if plan.None? || dispatches[plan.value].session != session {
          r := WriteRow(k, Review(None));
          return;
        }
        LivePlan(orders, imported, dispatches, session, k, plan.value);
      }
      if CancelUnresolved(o) && o.status in {Acknowledged, PartiallyFilled, CancelPending} {
        var plan := DispatchForOrder(k, CancelLimit);
        FoundPlan(dispatches, session, k, CancelLimit, plan);
        if plan.None? || dispatches[plan.value].session != session {
          r := WriteRow(k, Review(Some(true)));
          return;
        }
        LivePlan(orders, imported, dispatches, session, k, plan.value);
      }
    }

    method DispatchForOrder(k: OrderKey, kind: Kind) returns (found: Option<string>)
      ensures found.Some? ==> PlanFor(dispatches, k, kind, found.value)
      ensures found.None? ==> !HasPlan(dispatches, k, kind)
    {
      var left := dispatches.Keys;
      while left != {}
        invariant left <= dispatches.Keys
        invariant forall id :: PlanFor(dispatches, k, kind, id) ==> id in left
      {
        var id :| id in left;
        if dispatches[id].k == k && dispatches[id].kind == kind {
          return Some(id);
        }
        left := left - {id};
      }
      found := None;
    }

    /** This session's dispatches that are not already in manual review, each once. */
    method ListSessionDispatches() returns (ids: seq<string>)
      ensures forall i :: 0 <= i < |ids| ==> ids[i] in dispatches
      ensures DistinctIds(ids)
      ensures forall id :: id in dispatches && dispatches[id].session == session && dispatches[id].state != Reviewed ==>
                id in ids
    {
      ids := [];
      var left := dispatches.Keys;
      while left != {}
        invariant left <= dispatches.Keys
        invariant forall i :: 0 <= i < |ids| ==> ids[i] in dispatches && ids[i] !in left
        invariant DistinctIds(ids)
        invariant forall id ::
                    (id in dispatches && id !in left && dispatches[id].session == session
                     && dispatches[id].state != Reviewed) ==>
                      id in ids
      {
        var id :| id in left;
        left := left - {id};
        if dispatches[id].session == session && dispatches[id].state != Reviewed {
          ids := ids + [id];
        }
      }
    }

    /**
     * What the runtime's constructor does with stored plans. If it returns
     * normally, no plan of this session is still unpublished and no order of
     * the account is in flight; however it ends, every table stays consistent,
     * and a command is created only from a plan of this session that was
     * never created before and had not expired when it was last checked.
     */
    method Start() returns (r: Result<(), DispatchError>)
      requires Valid()
      modifies `orders, `dispatches, `budget, `publishes, spool, clock
      ensures Valid()
      ensures r.Ok? ==> forall id :: id in dispatches && dispatches[id].session == session ==>
                dispatches[id].state != Planned
      ensures r.Ok? ==> forall k :: k in orders && k.account == account ==> !InFlight(orders[k])
      ensures CreatedFromPlans(old(publishes), publishes, old(dispatches), session, old(clock.now),
                               old(dispatches).Keys)
    {
      hide Durable, PublishedOnce, AllInOnePlace, HasLivePlan, InFlight;
      var valid := ValidateDispatchInvariants();
      if valid.Err? {
        return Err(valid.error);
      }
      var ids := ListSessionDispatches();
      LivePlansAreListed(orders, dispatches, account, session, ids);
      r := RecoverDispatches(ids);
    }

    method RecoverDispatches(ids: seq<string>) returns (r: Result<(), DispatchError>)
      requires Valid() && DistinctIds(ids) && (forall i :: 0 <= i < |ids| ==> ids[i] in dispatches)
      requires forall id ::
                 (id in dispatches && dispatches[id].session == session && dispatches[id].state != Reviewed) ==>
                   id in ids
      requires InFlightListed(orders, dispatches, account, ids, 0)
      modifies `orders, `dispatches, `budget, `publishes, spool, clock
      ensures Valid()
      ensures r.Ok? ==> forall id :: id in dispatches && dispatches[id].session == session ==>
                dispatches[id].state != Planned
      ensures r.Ok? ==> forall k :: k in orders && k.account == account ==> !InFlight(orders[k])
      ensures CreatedFromPlans(old(publishes), publishes, old(dispatches), session, old(clock.now),
                               old(dispatches).Keys)
    {
      hide Durable, PublishedOnce, AllInOnePlace, InFlight, CreatedFromPlans, InFlightListed, PlansProgress;
      ghost var since := clock.now;
      NothingCreated(publishes, dispatches, session, since);
      NoProgressYet(dispatches, ids);
      assert Earlier(ids, 0) == {};
      var i := 0;
      while i < |ids|
        invariant i <= |ids| && Valid() && since <= clock.now
        invariant PlansProgress(old(dispatches), dispatches, ids, i)
        invariant InFlightListed(orders, dispatches, account, ids, i)
        invariant CreatedFromPlans(old(publishes), publishes, old(dispatches), session, since, Earlier(ids, i))
      {
        var id := ids[i];
        ghost var ordersWere, dispatchesWere, publishesWere := orders, dispatches, publishes;
        NotYetProcessed(old(dispatches), dispatches, ids, i);
        label before:
        var done := RecoverDispatch(id, dispatches[id]);
        assert OnlyPublishes@before(id);
        CreationStep(old(publishes), publishesWere, publishes, old(dispatches), session, since, ids, i);
        if done.Err? {
          EarlierAreKeys(old(dispatches), ids, i + 1, old(publishes), publishes, session, since);
          return Err(done.error);
        }
        ProgressStep(old(dispatches), dispatchesWere, dispatches, ids, i);
        DispatchDone(ordersWere, orders, dispatchesWere, dispatches, account, ids, i);
        i := i + 1;
      }
      EarlierAreKeys(old(dispatches), ids, i, old(publishes), publishes, session, since);
      AllProcessed(old(dispatches), orders, dispatches, account, session, ids);
      r := Ok(());
    }

    /**
     * One transaction makes the reservation and stores its plan; when it
     * raises, neither exists.
     */
    method ReserveAndPersistDispatch(id: string, d: Dispatch) returns (r: Result<(), DispatchError>)
      requires Valid() && d.state == Planned
      requires id in dispatches ==> SamePlan(dispatches[id], d)
      modifies `orders, `dispatches, `budget
      ensures Valid()
      ensures r.Err? ==> orders == old(orders) && dispatches == old(dispatches)
      ensures r.Ok? ==>
                && d.k in old(orders) && !Reserved(old(orders)[d.k], d.kind) && id !in old(dispatches)
                && d.k in orders && Reserved(orders[d.k], d.kind) && orders == old(orders)[d.k := orders[d.k]]
                && dispatches == old(dispatches)[id := d]
                && orders[d.k] == if d.kind == SubmitLimit
                                  then old(orders)[d.k].(status := Submitting, submitStarted := true)
                                  else old(orders)[d.k].(status := CancelPending, cancelStarted := true,
                                                         cancelResolved := false)
      ensures budget > 0 && d.k in old(orders) ==>
                (r.Ok? <==> if d.kind == SubmitLimit
                            then old(orders)[d.k].status == RiskAccepted && !old(orders)[d.k].submitStarted
                            else old(orders)[d.k].status in {Acknowledged, PartiallyFilled}
                                 && !old(orders)[d.k].cancelStarted)
    {
      hide Durable, PublishedOnce, AllInOnePlace, Coupled;
      var alive := Spend();
      if !alive {
        return Err(Interrupted);
      }
      if d.k !in orders {
        return Err(NoSuchOrder);
      }
      OrderFacts(orders, imported, dispatches, d.k);
      ReserveRow(orders[d.k], d.kind);
      var reserved := if d.kind == CancelLimit then PrepareCancel(orders[d.k]) else PrepareSubmit(orders[d.k]);
      if reserved.Err? {
        return Err(RowError(reserved.error));
      }
      if id in dispatches {
        PlannedMeansReserved(orders, imported, dispatches, id);
        assert false;
      }
      ReserveKeepsDurable(orders, imported, dispatches, id, d, reserved.value);
      orders, dispatches := orders[d.k := reserved.value], dispatches[id := d];
      r := Ok(());
    }

    /** A new plan went out with this row, or expired unsent and took the order to review. */
    ghost predicate SentOrExpired(id: string, d: Dispatch, waiting: Order, present: bool)
      reads this, spool, clock
    {
      && d.k in orders && id in dispatches
      && (|| (&& orders[d.k] == waiting.(status := Reconciling)
              && exists dir :: && Slot(dir, id) in spool.files && spool.files[Slot(dir, id)] == d.frame
                               && dispatches[id] == d.(state := if present then ObservedAs(dir) else Published))
          || (&& orders[d.k] == waiting.(status := ManualReview,
                                         cancelResolved := d.kind == CancelLimit || waiting.cancelResolved)
              && dispatches[id] == d.(state := Reviewed) && d.frame.expires <= clock.now))
    }

    /**
     * Dispatches one submit: stores the order with the intent's quantity,
     * authorizes it, reserves its submit with the plan, and sends the plan. A
     * repeated intent only completes the dispatch it already has.
     */
    method ExecuteIntent(id: string, d: Dispatch, quantity: int) returns (r: Result<Dispatched, DispatchError>)
      requires Valid() && d.kind == SubmitLimit && d.state == Planned && d.session == session
      requires id in dispatches ==> SamePlan(dispatches[id], d)
      modifies `orders, `dispatches, `budget, `publishes, spool, clock
      ensures Valid()
      ensures r.Ok? ==>
                && r.value == (if old(HasPlan(dispatches, d.k, SubmitLimit)) then Resumed else Sent)
                && d.k.account == account && d.k in orders && orders == old(orders)[d.k := orders[d.k]]
                && orders[d.k].submitStarted && !InFlight(orders[d.k])
      ensures r == Ok(Resumed) ==> dispatches.Keys == old(dispatches.Keys) && SamePlanStored(d)
      ensures r == Ok(Sent) ==>
                && d.k !in old(orders) && 0 < quantity && id !in old(dispatches) && id in dispatches
                && dispatches == old(dispatches)[id := dispatches[id]]
                && SentOrExpired(id, d, Order(Submitting, None, 0, quantity, true, false, false),
                                 old(Present(spool.files, id)))
                && (dispatches[id].state == Reviewed ==> publishes == old(publishes))
      ensures r.Err? && budget > 0 && !old(HasPlan(dispatches, d.k, SubmitLimit)) ==>
                || d.k.account != account || d.k in old(orders) || quantity <= 0
                || old(Present(spool.files, id)) || d.frame.expires <= clock.now
    {
      hide Durable, PublishedOnce, AllInOnePlace, Coupled, HasPlan, InFlight, Present, Reconciled, ObservedAs;
      if d.k.account != account {
        return Err(IdentityConflict);
      }
      var existing := DispatchForOrder(d.k, SubmitLimit);
      if existing.Some? {
        PlanIsKept(dispatches, d.k, SubmitLimit, existing.value);
        r := ResumeSubmit(existing.value, d);
        return;
      }
      r := DispatchNew(id, d, quantity);
    }

    /** The frame stored for the order's plan is the intent's own. */
    twostate predicate SamePlanStored(d: Dispatch)
      reads this
    {
      exists known :: && PlanFor(old(dispatches), d.k, d.kind, known) && PlanFor(dispatches, d.k, d.kind, known)
                      && old(dispatches)[known].frame == d.frame
                      && dispatches == old(dispatches)[known := dispatches[known]]
    }

    method ResumeSubmit(known: string, d: Dispatch) returns (r: Result<Dispatched, DispatchError>)
      requires Valid() && PlanFor(dispatches, d.k, SubmitLimit, known) && d.kind == SubmitLimit
      modifies `orders, `dispatches, `budget, `publishes, spool, clock
      ensures Valid() && dispatches.Keys == old(dispatches.Keys)
      ensures r.Ok? ==>
                && r.value == Resumed && d.k in orders && orders == old(orders)[d.k := orders[d.k]]
                && orders[d.k].submitStarted && !InFlight(orders[d.k]) && SamePlanStored(d)
    {
      hide Durable, PublishedOnce, AllInOnePlace, Coupled, HasPlan, InFlight, Present, Reconciled, ObservedAs;
      if dispatches[known].frame != d.frame {
        return Err(IdentityConflict);
      }
      var resumed := RecoverDispatch(known, dispatches[known]);
      PlannedMeansReserved(orders, imported, dispatches, known);
      r := if resumed.Ok? then Ok(Resumed) else Err(resumed.error);
    }

    method DispatchNew(id: string, d: Dispatch, quantity: int) returns (r: Result<Dispatched, DispatchError>)
      requires Valid() && d.kind == SubmitLimit && d.state == Planned && d.session == session
      requires d.k.account == account && !HasPlan(dispatches, d.k, SubmitLimit)
      requires id in dispatches ==> SamePlan(dispatches[id], d)
      modifies `orders, `dispatches, `budget, `publishes, spool, clock
      ensures Valid()
      ensures r.Ok? ==>
                && r.value == Sent && d.k in orders && orders == old(orders)[d.k := orders[d.k]]
                && orders[d.k].submitStarted && !InFlight(orders[d.k])
                && d.k !in old(orders) && 0 < quantity && id !in old(dispatches) && id in dispatches
                && dispatches == old(dispatches)[id := dispatches[id]]
                && SentOrExpired(id, d, Order(Submitting, None, 0, quantity, true, false, false),
                                 old(Present(spool.files, id)))
                && (dispatches[id].state == Reviewed ==> publishes == old(publishes))
      ensures r.Err? && budget > 0 ==>
                d.k in old(orders) || quantity <= 0 || old(Present(spool.files, id)) || d.frame.expires <= clock.now
    {
      hide Durable, PublishedOnce, AllInOnePlace, Coupled, HasPlan, InFlight, Present, ObservedAs;
      var reserved := CreateAndReserve(id, d, quantity);
      if reserved.Err? {
        return Err(reserved.error);
      }
      r := SendReserved(id, d);
    }

    /** Sends a plan that was just reserved. */
    method SendReserved(id: string, d: Dispatch) returns (r: Result<Dispatched, DispatchError>)
      requires Valid() && id in dispatches && dispatches[id] == d && d.state == Planned
      requires d.session == session && d.k.account == account
      requires d.k in orders && orders[d.k].status in {Submitting, CancelPending}
      modifies `orders, `dispatches, `budget, `publishes, spool, clock
      ensures Valid()
      ensures r.Ok? ==>
                && r.value == Sent && d.k in orders && orders == old(orders)[d.k := orders[d.k]]
                && Reserved(orders[d.k], d.kind) && !InFlight(orders[d.k])
                && id in dispatches && dispatches == old(dispatches)[id := dispatches[id]]
                && SentOrExpired(id, d, old(orders)[d.k], old(Present(spool.files, id)))
                && (dispatches[id].state == Reviewed ==> publishes == old(publishes))
      ensures r.Err? && budget > 0 ==> old(Present(spool.files, id)) || d.frame.expires <= clock.now
    {
      hide Durable, PublishedOnce, AllInOnePlace, Coupled, HasPlan, Present, ObservedAs;
      var sent := RecoverDispatch(id, d);
      PlannedMeansReserved(orders, imported, dispatches, id);
      NeverReviewed(d);
      r := if sent.Ok? then Ok(Sent) else Err(sent.error);
    }

    /** Stores the order, authorizes it, and makes the reservation with its plan. */
    method CreateAndReserve(id: string, d: Dispatch, quantity: int) returns (r: Result<(), DispatchError>)
      requires Valid() && d.kind == SubmitLimit && d.state == Planned
      requires id in dispatches ==> SamePlan(dispatches[id], d)
      modifies `orders, `dispatches, `budget
      ensures Valid()
      ensures r.Ok? ==>
                && d.k !in old(orders) && 0 < quantity && id !in old(dispatches)
                && dispatches == old(dispatches)[id := d]
                && orders == old(orders)[d.k := Order(Submitting, None, 0, quantity, true, false, false)]
      ensures r.Err? && budget > 0 ==> d.k in old(orders) || quantity <= 0
    {
      hide Durable, PublishedOnce, AllInOnePlace, Coupled, HasPlan;
      var alive := Spend();
      if !alive {
        return Err(Interrupted);
      }
      if d.k in orders || quantity <= 0 {
        return Err(IdentityConflict);
      }
      NewOrderKeepsDurable(orders, imported, dispatches, d.k, quantity);
      orders := orders[d.k := NewOrder(quantity)];
      alive := Spend();
      if !alive {
        return Err(Interrupted);
      }
      OrderFacts(orders, imported, dispatches, d.k);
      AcceptRow(orders[d.k]);
      var decided := ApplyStep(orders[d.k], Risk(true));
      RowWriteKeepsDurable(orders, imported, dispatches, d.k, decided.value);
      orders := orders[d.k := decided.value];
      r := ReserveAndPersistDispatch(id, d);
    }

    /**
     * Dispatches one cancel of an order the broker works on; an order that has
     * ended is left alone, and a repeated cancel only completes the dispatch it
     * already has.
     */
    method CancelIntent(id: string, d: Dispatch) returns (r: Result<Dispatched, DispatchError>)
      requires Valid() && d.kind == CancelLimit && d.state == Planned && d.session == session
      requires id in dispatches ==> SamePlan(dispatches[id], d)
      modifies `orders, `dispatches, `budget, `publishes, spool, clock
      ensures Valid()
      ensures r == Ok(AlreadyEnded) <==>
              d.k.account == account && d.k in old(orders)
              && old(orders)[d.k].status in {Filled, Cancelled, Rejected, Aborted, ManualReview}
      ensures r == Ok(AlreadyEnded) ==>
                orders == old(orders) && dispatches == old(dispatches) && publishes == old(publishes)
      ensures r.Ok? && r.value != AlreadyEnded ==>
                && r.value == (if old(HasPlan(dispatches, d.k, CancelLimit)) then Resumed else Sent)
                && d.k in orders && orders == old(orders)[d.k := orders[d.k]]
                && orders[d.k].cancelStarted && !InFlight(orders[d.k])
      ensures r == Ok(Resumed) ==> dispatches.Keys == old(dispatches.Keys)
      ensures r == Ok(Sent) ==>
                && Cancellable(old(orders), d.k) && id !in old(dispatches) && id in dispatches
                && dispatches == old(dispatches)[id := dispatches[id]]
                && SentOrExpired(id, d, old(orders)[d.k].(status := CancelPending, cancelStarted := true,
                                                          cancelResolved := false), old(Present(spool.files, id)))
                && (dispatches[id].state == Reviewed ==> publishes == old(publishes))
      ensures r.Err? && budget > 0 && !old(HasPlan(dispatches, d.k, CancelLimit)) ==>
                || d.k.account != account || !Cancellable(old(orders), d.k)
                || old(Present(spool.files, id)) || d.frame.expires <= clock.now
    {
      hide Durable, PublishedOnce, AllInOnePlace, Coupled, HasPlan, InFlight, Present, Reconciled, ObservedAs;
      if d.k.account != account || d.k !in orders {
        return Err(NoSuchOrder);
      }
      var o := orders[d.k];
      if o.status in {Filled, Cancelled, Rejected, Aborted, ManualReview} {
        return Ok(AlreadyEnded);
      }
      var existing := DispatchForOrder(d.k, CancelLimit);
      if existing.Some? {
        var resumed := RecoverDispatch(existing.value, dispatches[existing.value]);
        PlannedMeansReserved(orders, imported, dispatches, existing.value);
        PlanIsKept(old(dispatches), d.k, CancelLimit, existing.value);
        return if resumed.Ok? then Ok(Resumed) else Err(resumed.error);
      }
      r := CancelNew(id, d);
    }

    method CancelNew(id: string, d: Dispatch) returns (r: Result<Dispatched, DispatchError>)
      requires Valid() && d.kind == CancelLimit && d.state == Planned && d.session == session
      requires d.k.account == account && d.k in orders && !HasPlan(dispatches, d.k, CancelLimit)
      requires id in dispatches ==> SamePlan(dispatches[id], d)
      modifies `orders, `dispatches, `budget, `publishes, spool, clock
      ensures Valid()
      ensures r.Ok? ==>
                && r.value == Sent && d.k in orders && orders == old(orders)[d.k := orders[d.k]]
                && orders[d.k].cancelStarted && !InFlight(orders[d.k])
                && Cancellable(old(orders), d.k) && id !in old(dispatches) && id in dispatches
                && dispatches == old(dispatches)[id := dispatches[id]]
                && SentOrExpired(id, d, old(orders)[d.k].(status := CancelPending, cancelStarted := true,
                                                          cancelResolved := false), old(Present(spool.files, id)))
                && (dispatches[id].state == Reviewed ==> publishes == old(publishes))
      ensures r.Err? && budget > 0 ==>
                !Cancellable(old(orders), d.k) || old(Present(spool.files, id)) || d.frame.expires <= clock.now
    {
      hide Durable, PublishedOnce, AllInOnePlace, Coupled, HasPlan, InFlight, Present, ObservedAs;
      var o := orders[d.k];
      if o.status != Acknowledged && o.status != PartiallyFilled {
        return Err(NotCancellable);
      }
      if o.brokerId.None? || o.brokerId.value == "" {
        return Err(NotCancellable);
      }
      NoPlanNoCancel(orders, imported, dispatches, d.k);
      var planned := ReserveAndPersistDispatch(id, d);
      if planned.Err? {
        return Err(planned.error);
      }
      r := SendReserved(id, d);
    }
  }

  /** What a dispatch is observed as is never a review. */
  lemma NeverReviewed(d: Dispatch)
    ensures forall dir :: ObservedAs(dir) != Reviewed
  {
  }

  /** An order the broker has named and is still working on. */
  predicate Cancellable(orders: map<OrderKey, Order>, k: OrderKey) {
    && k in orders && orders[k].status in {Acknowledged, PartiallyFilled}
    && orders[k].brokerId.Some? && orders[k].brokerId.value != ""
  }

  /** Without a plan for it, no cancel was reserved. */
  lemma NoPlanNoCancel(orders: map<OrderKey, Order>, imported: set<OrderKey>, dispatches: map<string, Dispatch>,
                       k: OrderKey)
    requires Durable(orders, imported, dispatches) && k in orders && !HasPlan(dispatches, k, CancelLimit)
    ensures !orders[k].cancelStarted
  {
    hide HasPlan, Coupled;
    assert !Reserved(orders[k], CancelLimit);
  }

  lemma PlanIsKept(dispatches: map<string, Dispatch>, k: OrderKey, kind: Kind, id: string)
    requires PlanFor(dispatches, k, kind, id)
    ensures HasPlan(dispatches, k, kind)
  {
  }

  lemma FirstPublication(was: Files, now: Files, publishes: Creations, id: string, at: Appearance)
    requires PublishedOnce(was, publishes) && MovesForward(was, now) && Present(now, id)
    ensures PublishedOnce(now, publishes[id := [at]])
  {
    PublishedStaysOnce(was, now, publishes);
    hide MovesForward, Present;
    forall q ensures Count(publishes[id := [at]], q) <= 1
      && (Count(publishes[id := [at]], q) == 1 ==> Present(now, q)) {
      assert Count(publishes, q) <= 1;
    }
  }

  lemma StillAbsentUnder(was: Files, now: Files, id: string)
    requires BridgeOnly(was, now) && !Present(was, id)
    ensures !Present(now, id)
  {
    if Present(now, id) {
      NeverCreated(was, now, id);
    }
  }

  lemma AbsentMeansUnpublished(files: Files, publishes: Creations, id: string)
    requires PublishedOnce(files, publishes) && !Present(files, id)
    ensures Count(publishes, id) == 0
  {
  }

  lemma PublishedStaysUnder(was: Files, now: Files, publishes: Creations)
    requires PublishedOnce(was, publishes) && BridgeOnly(was, now)
    ensures PublishedOnce(now, publishes)
  {
    PublishedStaysOnce(was, now, publishes);
  }
}
