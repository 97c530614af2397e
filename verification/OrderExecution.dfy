/**
 * From reservation to broker call across both processes: the Host stores each
 * plan with its reservation (qmt/guojin_sim_oms.py), publishes planned frames
 * (qmt/commands.py), and the bridge claims and executes them
 * (BIGQMT_EXECUTION_BRIDGE_V05.py). Hosts and bridge stop and restart anywhere.
 */
module OrderExecution {
  import opened Basics
  import opened OrderLifecycle
  import opened OrderRows
  import opened BrokerEvidence
  import opened CommandPipeline
  import opened CommandLocate
  import opened CommandExpiry
  import opened HostDispatch

  /** The Host's tables and the spool with everyone at it. */
  datatype World = World(orders: map<OrderKey, Order>, plans: map<string, Dispatch>, spool: Timed)

  datatype WorldAction =
    | AddOrder(k: OrderKey, quantity: int)
    | WriteOrder(k: OrderKey, row: Order)
    | ReservePlan(id: string, plan: Dispatch)
    | SetPlan(id: string, state: DispatchState)
    | AtSpool(act: TimedAction)

  const EmptyWorld := World(map[], map[], EmptyTimed)

  /** Any write that keeps the order's reservations and its review. */
  predicate RowWrite(o: Order, p: Order) {
    && Coupled(p) && p.submitStarted == o.submitStarted && p.cancelStarted == o.cancelStarted
    && (o.status == ManualReview ==> p.status == ManualReview)
  }

  function ReservedRow(o: Order, kind: Kind): Result<Order, RowError> {
    if kind == CancelLimit then PrepareCancel(o) else PrepareSubmit(o)
  }

  /** A Host publishes nothing but the stored frame of a plan. */
  predicate Publishable(plans: map<string, Dispatch>, a: TimedAction) {
    a.Spool? ==> FromPlan(plans, a.act)
  }

  predicate FromPlan(plans: map<string, Dispatch>, a: PipeAction) {
    a.BeginPublish? ==> a.id in plans && a.frame == plans[a.id].frame
  }

  function Act(w: World, a: WorldAction): World {
    match a
    case AddOrder(k, quantity) =>
      if k !in w.orders && 0 < quantity then w.(orders := w.orders[k := NewOrder(quantity)]) else w
    case WriteOrder(k, row) =>
      if k in w.orders && RowWrite(w.orders[k], row) then w.(orders := w.orders[k := row]) else w
    case ReservePlan(id, plan) =>
      if plan.k in w.orders && id !in w.plans && plan.state == Planned
        && ReservedRow(w.orders[plan.k], plan.kind).Ok? then
        w.(orders := w.orders[plan.k := ReservedRow(w.orders[plan.k], plan.kind).value], plans := w.plans[id := plan])
      else w
    case SetPlan(id, state) =>
      if id in w.plans
        && (state == Reviewed ==> w.plans[id].k in w.orders && w.orders[w.plans[id].k].status == ManualReview) then
        w.(plans := w.plans[id := w.plans[id].(state := state)])
      else w
    case AtSpool(act) => if Publishable(w.plans, act) then w.(spool := TimedStep(w.spool, act)) else w
  }

  function RunWorld(w: World, actions: seq<WorldAction>): World
    decreases |actions|
  {
    if actions == [] then w else RunWorld(Act(w, actions[0]), actions[1..])
  }

  // ------------------------------------------------------------------------ invariant

  predicate Carries(plans: map<string, Dispatch>, id: string, frame: Frame) {
    id in plans && plans[id].frame == frame
  }

  /** Whatever is in the spool, about to be written to it, held or executed is a stored plan with its own frame. */
  ghost predicate PipePlanned(p: Pipe, plans: map<string, Dispatch>) {
    && (forall d, id :: Slot(d, id) in p.files ==> Carries(plans, id, p.files[Slot(d, id)]))
    && (forall h :: h in p.hosts && Publishing(p.hosts[h]) ==> Carries(plans, p.hosts[h].id, p.hosts[h].frame))
    && (p.bridge.Holding? ==> p.bridge.id in plans)
    && (forall id :: Executions(p, id) > 0 ==> id in plans)
  }

  ghost predicate CreationsPlanned(created: seq<Creation>, plans: map<string, Dispatch>) {
    forall c :: c in created ==> Carries(plans, c.id, c.frame)
  }

  ghost predicate Governed(w: World) {
    && Tidy(w.spool.pipe) && Durable(w.orders, {}, w.plans) && PipePlanned(w.spool.pipe, w.plans)
    && Punctual(w.spool) && CreationsPlanned(w.spool.created, w.plans)
    && forall id :: Executions(w.spool.pipe, id) == Calling(w.spool.executed, id)
  }

  lemma PipeStepStaysPlanned(p: Pipe, plans: map<string, Dispatch>, a: PipeAction)
    requires PipePlanned(p, plans) && FromPlan(plans, a)
    ensures PipePlanned(CommandPipeline.Step(p, a), plans)
  {
    hide Carries, Rank;
    if BridgeAction(a) {
      BridgeStepStaysPlanned(p, plans, a);
    } else {
      HostStepStaysPlanned(p, plans, a);
    }
  }

  lemma HostStepStaysPlanned(p: Pipe, plans: map<string, Dispatch>, a: PipeAction)
    requires PipePlanned(p, plans) && FromPlan(plans, a) && !BridgeAction(a)
    ensures PipePlanned(CommandPipeline.Step(p, a), plans)
  {
    assert a.BeginPublish? ==> Carries(plans, a.id, a.frame);
    hide Carries, Rank, LocateStep;
    var n := CommandPipeline.Step(p, a);
    if a.LocateNext? && a.host in p.hosts && p.hosts[a.host].Locating? {
      LookingIsNotPublishing(p.hosts[a.host], p.files);
    }
  }

  lemma BridgeStepStaysPlanned(p: Pipe, plans: map<string, Dispatch>, a: PipeAction)
    requires PipePlanned(p, plans) && BridgeAction(a)
    ensures PipePlanned(CommandPipeline.Step(p, a), plans)
  {
    forall id, frame | Carries(plans, id, frame) ensures id in plans {
    }
    hide Carries, Rank, Publishing;
  }

  /** Plans only gain entries and states; what the spool carries stays planned. */
  lemma MorePlansStayPlanned(p: Pipe, was: map<string, Dispatch>, now: map<string, Dispatch>)
    requires PipePlanned(p, was) && forall id :: id in was ==> id in now && now[id].frame == was[id].frame
    ensures PipePlanned(p, now)
  {
    hide Publishing, Executions;
  }

  lemma MoreCreationsPlanned(created: seq<Creation>, was: map<string, Dispatch>, now: map<string, Dispatch>)
    requires CreationsPlanned(created, was) && forall id :: id in was ==> id in now && now[id].frame == was[id].frame
    ensures CreationsPlanned(created, now)
  {
  }

  lemma ReservePlanKeeps(w: World, id: string, plan: Dispatch)
    requires Governed(w)
    ensures Governed(Act(w, ReservePlan(id, plan)))
  {
    hide Tidy, Durable, PipePlanned, Reserved, Coupled, Punctual, CreationsPlanned;
    if plan.k in w.orders && id !in w.plans && plan.state == Planned && ReservedRow(w.orders[plan.k], plan.kind).Ok? {
      OrderFacts(w.orders, {}, w.plans, plan.k);
      ReserveRow(w.orders[plan.k], plan.kind);
      ReserveKeepsDurable(w.orders, {}, w.plans, id, plan, ReservedRow(w.orders[plan.k], plan.kind).value);
      MorePlansStayPlanned(w.spool.pipe, w.plans, w.plans[id := plan]);
      MoreCreationsPlanned(w.spool.created, w.plans, w.plans[id := plan]);
    }
  }

  lemma RowWriteReserves(o: Order, p: Order)
    requires RowWrite(o, p)
    ensures Coupled(p) && forall kind :: Reserved(p, kind) == Reserved(o, kind)
    ensures o.status == ManualReview ==> p.status == ManualReview
  {
  }

  /** A step that would put a second copy or another frame into the spool. */
  ghost predicate HarmlessAt(w: World, a: WorldAction) {
    a.AtSpool? && a.act.Spool? ==> Harmless(w.spool.pipe, a.act.act)
  }

  lemma SpoolStepKeeps(w: World, act: TimedAction)
    requires Governed(w) && HarmlessAt(w, AtSpool(act)) && Publishable(w.plans, act)
    ensures Governed(w.(spool := TimedStep(w.spool, act)))
  {
    var n := TimedStep(w.spool, act);
    StepKeepsPunctual(w.spool, act);
    StepIsPipelineStep(w.spool, act);
    CreationsStayPlanned(w.spool, act, w.plans);
    forall id ensures Executions(n.pipe, id) == Calling(n.executed, id) {
      StepListsCalls(w.spool, act, id);
    }
    hide TimedStep, CommandPipeline.Step, Punctual, CreationsPlanned, PipePlanned, Tidy, Durable, Harmless;
    hide Executions, Lets, FromPlan;
    if act.Spool? && Lets(w.spool, act.act) {
      HarmlessStepKeepsTidy(w.spool.pipe, act.act);
      PipeStepStaysPlanned(w.spool.pipe, w.plans, act.act);
    }
  }

  lemma CreationsStayPlanned(s: Timed, act: TimedAction, plans: map<string, Dispatch>)
    requires CreationsPlanned(s.created, plans) && PipePlanned(s.pipe, plans)
    ensures CreationsPlanned(TimedStep(s, act).created, plans)
  {
    if act.Spool? && Renames(s.pipe, act.act) {
      assert Publishing(s.pipe.hosts[act.act.host]);
    }
    hide Carries, CommandPipeline.Step;
  }

  lemma ActKeepsGoverned(w: World, a: WorldAction)
    requires Governed(w) && HarmlessAt(w, a)
    ensures Governed(Act(w, a))
  {
    hide Tidy, Durable, PipePlanned, Harmless, Reserved, Coupled, RowWrite, ReservedRow, Punctual;
    hide CreationsPlanned, TimedStep, Publishable;
    match a
    case AddOrder(k, quantity) =>
      if k !in w.orders && 0 < quantity {
        NewOrderKeepsDurable(w.orders, {}, w.plans, k, quantity);
      }
    case WriteOrder(k, row) =>
      if k in w.orders && RowWrite(w.orders[k], row) {
        RowWriteReserves(w.orders[k], row);
        RowWriteKeepsDurable(w.orders, {}, w.plans, k, row);
      }
    case ReservePlan(id, plan) => ReservePlanKeeps(w, id, plan);
    case SetPlan(id, state) =>
      if Act(w, a) != w {
        StateWriteKeepsDurable(w.orders, {}, w.plans, id, state);
        MorePlansStayPlanned(w.spool.pipe, w.plans, w.plans[id := w.plans[id].(state := state)]);
        MoreCreationsPlanned(w.spool.created, w.plans, w.plans[id := w.plans[id].(state := state)]);
      }
    case AtSpool(act) =>
      if Publishable(w.plans, act) {
        SpoolStepKeeps(w, act);
      }
  }

  // ------------------------------------------------------------------------- theorems

  /** No rename of the run doubles a command or replaces another frame. */
  ghost predicate HarmlessWorldRun(w: World, actions: seq<WorldAction>)
    decreases |actions|
  {
    actions != [] ==> HarmlessAt(w, actions[0]) && HarmlessWorldRun(Act(w, actions[0]), actions[1..])
  }

  lemma {:induction false} RunKeepsGoverned(w: World, actions: seq<WorldAction>)
    requires Governed(w) && HarmlessWorldRun(w, actions)
    ensures Governed(RunWorld(w, actions))
    decreases |actions|
  {
    if actions != [] {
      hide Governed, Act, HarmlessAt;
      ActKeepsGoverned(w, actions[0]);
      RunKeepsGoverned(Act(w, actions[0]), actions[1..]);
    }
  }

  lemma EmptyWorldIsGoverned()
    ensures Governed(EmptyWorld)
  {
    EmptyPipeIsOrderly();
  }

  /** The bridge executed this command for this order. */
  predicate ExecutedFor(w: World, k: OrderKey, kind: Kind, id: string) {
    Executions(w.spool.pipe, id) > 0 && id in w.plans && w.plans[id].k == k && w.plans[id].kind == kind
  }

  /**
   * The broker was called with the plan's own frame, which the bridge had found
   * unexpired and which had appeared unexpired.
   */
  ghost predicate ExecutedInTime(w: World, id: string)
    requires id in w.plans
  {
    exists e, c :: && e in w.spool.executed && c in w.spool.created && e.id == c.id == id
      && e.frame == c.frame == w.plans[id].frame
                   && c.checked <= c.written <= e.checked < w.plans[id].frame.expires
  }

  lemma ExecutedIsInTime(w: World, id: string)
    requires Governed(w) && Executions(w.spool.pipe, id) > 0
    ensures id in w.plans && ExecutedInTime(w, id)
  {
    CalledIsListed(w.spool.executed, id);
    var e :| e in w.spool.executed && e.id == id;
    assert ExecutionInOrder(w.spool, e);
    var c :| c in w.spool.created && c.id == e.id && c.frame == e.frame && c.written <= e.checked;
    assert CreationInOrder(c, w.spool.now) && Carries(w.plans, c.id, c.frame);
  }

  /**
   * End to end: the bridge executes at most one command per order and command
   * kind, at most once, and only one whose plan is stored, whose reservation
   * was made, and whose frame was unexpired at the bridge's check. It holds in
   * every run of any number of hosts and bridge processes in which no rename
   * is harmful.
   */
  lemma OneExecutionPerReservation(actions: seq<WorldAction>, a: string, b: string)
    requires HarmlessWorldRun(EmptyWorld, actions)
    ensures var w := RunWorld(EmptyWorld, actions);
            && (Executions(w.spool.pipe, a) > 0 ==>
                  && Executions(w.spool.pipe, a) == 1 && a in w.plans && w.plans[a].k in w.orders
                  && Reserved(w.orders[w.plans[a].k], w.plans[a].kind) && ExecutedInTime(w, a))
            && forall k, kind :: ExecutedFor(w, k, kind, a) && ExecutedFor(w, k, kind, b) ==> a == b
  {
    EmptyWorldIsGoverned();
    RunKeepsGoverned(EmptyWorld, actions);
    var w := RunWorld(EmptyWorld, actions);
    assert ExecutedOnce(w.spool.pipe, a);
    if Executions(w.spool.pipe, a) > 0 {
      ExecutedIsInTime(w, a);
      PlannedMeansReserved(w.orders, {}, w.plans, a);
    }
    hide RunWorld, Tidy, Reserved, ExecutedInTime, Punctual, CreationsPlanned;
  }

  /** Every publication of the run is by this one host, which may stop and start again at any point. */
  predicate OneHost(actions: seq<WorldAction>, host: string) {
    forall a :: a in actions ==> ByHost(a, host)
  }

  predicate ByHost(a: WorldAction, host: string) {
    a.AtSpool? && a.act.Spool? ==> OnlyHost(a.act.act, host)
  }

  lemma ActKeepsOneHost(w: World, a: WorldAction, host: string)
    requires Orderly(w.spool.pipe) && w.spool.pipe.hosts.Keys <= {host} && ByHost(a, host)
    ensures Orderly(Act(w, a).spool.pipe) && Act(w, a).spool.pipe.hosts.Keys <= {host}
    ensures HarmlessAt(w, a)
  {
    if a.AtSpool? {
      hide Orderly, Harmless;
      StepIsPipelineStep(w.spool, a.act);
      if a.act.Spool? {
        OneHostIsAlone(w.spool.pipe, host);
        StepKeepsOrderly(w.spool.pipe, a.act.act);
        WritingIsHarmless(w.spool.pipe, a.act.act);
        NoOtherHostAppears(w.spool.pipe, a.act.act, host);
      }
      hide CommandPipeline.Step, TimedStep, Exclusive;
    }
  }

  lemma OneHostIsAlone(p: Pipe, host: string)
    requires p.hosts.Keys <= {host}
    ensures Exclusive(p)
  {
    assert forall h :: h in p.hosts ==> h == host;
  }

  lemma WritingIsHarmless(p: Pipe, a: PipeAction)
    requires Orderly(p)
    ensures Harmless(p, a)
  {
    if a.Rename? && a.host in p.hosts {
      assert ScanIsAhead(p.hosts[a.host], p.files);
    }
  }

  lemma {:induction false} OneHostRunIsHarmless(w: World, actions: seq<WorldAction>, host: string)
    requires Orderly(w.spool.pipe) && w.spool.pipe.hosts.Keys <= {host} && OneHost(actions, host)
    ensures HarmlessWorldRun(w, actions)
    decreases |actions|
  {
    if actions != [] {
      hide Orderly, Act, Harmless;
      assert forall b :: b in actions[1..] ==> b in actions;
      assert actions[0] in actions;
      ActKeepsOneHost(w, actions[0], host);
      OneHostRunIsHarmless(Act(w, actions[0]), actions[1..], host);
    }
  }

  /** One Host at a time is enough, over any number of its restarts and bridge crashes. */
  lemma OneHostExecutesOnce(actions: seq<WorldAction>, host: string, a: string, b: string)
    requires OneHost(actions, host)
    ensures var w := RunWorld(EmptyWorld, actions);
            && (Executions(w.spool.pipe, a) > 0 ==>
                  Executions(w.spool.pipe, a) == 1 && a in w.plans && ExecutedInTime(w, a))
            && forall k, kind :: ExecutedFor(w, k, kind, a) && ExecutedFor(w, k, kind, b) ==> a == b
  {
    hide Orderly, HarmlessWorldRun, RunWorld, ExecutedInTime;
    EmptyPipeIsOrderly();
    OneHostRunIsHarmless(EmptyWorld, actions, host);
    OneExecutionPerReservation(actions, a, b);
  }

  // ------------------------------------------------------------------- a fenced Host

  function AtSpools(acts: seq<TimedAction>): seq<WorldAction> {
    if acts == [] then [] else [AtSpool(acts[0])] + AtSpools(acts[1..])
  }

  lemma {:induction false} SpoolRuns(w: World, acts: seq<TimedAction>)
    requires forall act :: act in acts ==> Publishable(w.plans, act)
    ensures RunWorld(w, AtSpools(acts)) == w.(spool := TimedRun(w.spool, acts))
    decreases |acts|
  {
    if acts != [] {
      hide TimedStep, Publishable;
      assert AtSpools(acts)[1..] == AtSpools(acts[1..]);
      assert forall act :: act in acts[1..] ==> act in acts;
      assert acts[0] in acts;
      SpoolRuns(w.(spool := TimedStep(w.spool, acts[0])), acts[1..]);
    }
  }

  /** An order of one, accepted, its submit reserved and planned under `id`. */
  lemma PlanIsStored(k: OrderKey, id: string, plan: Dispatch) returns (actions: seq<WorldAction>)
    requires plan.k == k && plan.kind == SubmitLimit && plan.state == Planned
    ensures RunWorld(EmptyWorld, actions) ==
            World(map[k := Order(Submitting, None, 0, 1, true, false, false)], map[id := plan], EmptyTimed)
  {
    var accepted := NewOrder(1).(status := RiskAccepted);
    actions := [AddOrder(k, 1), WriteOrder(k, accepted), ReservePlan(id, plan)];
    assert actions[1..][1..] == [actions[2]] && [actions[2]][1..] == [];
    var added := Act(EmptyWorld, actions[0]);
    var decided := Act(added, actions[1]);
    assert decided == World(map[k := accepted], map[], EmptyTimed);
    assert RunWorld(EmptyWorld, actions) == RunWorld(decided, [actions[2]]) == Act(decided, actions[2]);
  }

  /** Host "a" scans, is taken over by host "b", which scans too; the bridge is running. */
  function BothScan(id: string, frame: Frame): seq<TimedAction> {
    [Spool(BridgeStarts), Spool(EndRecovery)] + (PublishUpToRename("a", id, frame) + PublishUpToRename("b", id, frame))
  }

  /** "b" publishes and the bridge executes; then "a" wakes up, renames, and the bridge executes again. */
  function OnePublication(host: string, id: string): seq<TimedAction> {
    [Spool(Rename(host)), Spool(Claim(id)), BridgeLooks, Spool(Execute), Spool(Complete(Processed))]
  }

  lemma BothHaveScanned(id: string, frame: Frame)
    requires 0 < frame.expires
    ensures TimedRun(EmptyTimed, BothScan(id, frame)) ==
            Timed(Pipe(map[], map["a" := Writing(id, frame), "b" := Writing(id, frame)], Ready, map[]), 0,
                  map["a" := 0, "b" := 0], NotYet, [], [])
  {
    var opening := [Spool(BridgeStarts), Spool(EndRecovery)];
    assert opening[1..][1..] == [];
    var ready := TimedStep(TimedStep(EmptyTimed, opening[0]), opening[1]);
    assert TimedRun(EmptyTimed, opening) == ready;
    ScanInTime(ready, "a", id, frame);
    var first := TimedRun(ready, PublishUpToRename("a", id, frame));
    ScanInTime(first, "b", id, frame);
    hide TimedRun, TimedStep;
    TimedConcat(EmptyTimed, opening, PublishUpToRename("a", id, frame) + PublishUpToRename("b", id, frame));
    TimedConcat(ready, PublishUpToRename("a", id, frame), PublishUpToRename("b", id, frame));
  }

  /** Published, claimed, and found in time. */
  lemma PublicationIsClaimed(s: Timed, host: string, id: string) returns (n: Timed)
    requires s.pipe.bridge == Ready && s.look == NotYet && Slot(Claimed, id) !in s.pipe.files
    requires host in s.pipe.hosts && s.pipe.hosts[host].Writing? && s.pipe.hosts[host].id == id
    requires s.now < s.pipe.hosts[host].frame.expires
    ensures var acts := OnePublication(host, id); n == TimedStep(TimedStep(TimedStep(s, acts[0]), acts[1]), acts[2])
    ensures n.pipe.bridge == Holding(id, false) && n.look.InTime? && n.now == s.now && Slot(Claimed, id) in n.pipe.files
    ensures n.pipe.hosts == s.pipe.hosts[host := Resting] && n.pipe.executions == s.pipe.executions
  {
    var acts := OnePublication(host, id);
    var claimed := TimedStep(TimedStep(s, acts[0]), acts[1]);
    assert claimed.pipe.files[Slot(Claimed, id)] == s.pipe.hosts[host].frame;
    n := TimedStep(claimed, acts[2]);
  }

  lemma ClaimIsExecuted(s: Timed, id: string) returns (n: Timed)
    requires s.pipe.bridge == Holding(id, false) && s.look.InTime? && Slot(Claimed, id) in s.pipe.files
    ensures n == TimedStep(TimedStep(s, Spool(Execute)), Spool(Complete(Processed)))
    ensures n.pipe.bridge == Ready && n.look == NotYet && n.now == s.now && Slot(Claimed, id) !in n.pipe.files
    ensures n.pipe.hosts == s.pipe.hosts && Executions(n.pipe, id) == Executions(s.pipe, id) + 1
  {
    n := TimedStep(TimedStep(s, Spool(Execute)), Spool(Complete(Processed)));
  }

  lemma PublicationExecutes(s: Timed, host: string, id: string)
    requires s.pipe.bridge == Ready && s.look == NotYet && Slot(Claimed, id) !in s.pipe.files
    requires host in s.pipe.hosts && s.pipe.hosts[host].Writing? && s.pipe.hosts[host].id == id
    requires s.now < s.pipe.hosts[host].frame.expires
    ensures var n := TimedRun(s, OnePublication(host, id));
            && n.pipe.bridge == Ready && n.look == NotYet && n.now == s.now && Slot(Claimed, id) !in n.pipe.files
            && n.pipe.hosts == s.pipe.hosts[host := Resting]
            && Executions(n.pipe, id) == Executions(s.pipe, id) + 1
  {
    hide TimedStep, TimedRun;
    var claimed := PublicationIsClaimed(s, host, id);
    var n := ClaimIsExecuted(claimed, id);
    RunFive(s, OnePublication(host, id));
  }

  lemma RunFive(s: Timed, acts: seq<TimedAction>)
    requires |acts| == 5
    ensures TimedRun(s, acts)
              == TimedStep(TimedStep(TimedStep(TimedStep(TimedStep(s, acts[0]), acts[1]), acts[2]), acts[3]), acts[4])
  {
    hide TimedStep;
    var n := TimedStep(TimedStep(TimedStep(TimedStep(s, acts[0]), acts[1]), acts[2]), acts[3]);
    assert acts[1..][1..][1..][1..] == [acts[4]] && [acts[4]][1..] == [];
    assert TimedRun(n, [acts[4]]) == TimedStep(n, acts[4]);
    assert acts[1..][1..][1..][0] == acts[3] && acts[1..][1..][0] == acts[2];
    assert TimedRun(TimedStep(TimedStep(s, acts[0]), acts[1]), acts[1..][1..]) == TimedRun(n, [acts[4]]);
  }

  function FencedRace(id: string, frame: Frame): seq<TimedAction> {
    BothScan(id, frame) + (OnePublication("b", id) + OnePublication("a", id))
  }

  lemma RaceExecutesTwice(id: string, frame: Frame)
    requires 0 < frame.expires
    ensures Executions(TimedRun(EmptyTimed, FencedRace(id, frame)).pipe, id) == 2
  {
    hide TimedRun, TimedStep;
    BothHaveScanned(id, frame);
    var scanned := TimedRun(EmptyTimed, BothScan(id, frame));
    PublicationExecutes(scanned, "b", id);
    PublicationExecutes(TimedRun(scanned, OnePublication("b", id)), "a", id);
    TimedConcat(EmptyTimed, BothScan(id, frame), OnePublication("b", id) + OnePublication("a", id));
    TimedConcat(scanned, OnePublication("b", id), OnePublication("a", id));
  }

  lemma RaceIsPublishable(plans: map<string, Dispatch>, id: string, frame: Frame)
    requires id in plans && plans[id].frame == frame
    ensures forall act :: act in FencedRace(id, frame) ==> Publishable(plans, act)
  {
    ScansArePublishable(plans, "a", |SCAN_ORDER| + 1);
    ScansArePublishable(plans, "b", |SCAN_ORDER| + 1);
  }

  /**
   * The database fences a Host that lost its lease; its rename is not fenced.
   * One that is taken over between its scan and its rename makes the bridge
   * execute one stored plan, with one reservation, twice.
   */
  lemma FencedHostExecutesTwice(k: OrderKey, id: string, text: string)
    ensures exists actions ::
              var w := RunWorld(EmptyWorld, actions);
              && w.plans == map[id := Dispatch(k, SubmitLimit, "session", Frame(text, 1), Planned)]
              && w.orders == map[k := Order(Submitting, None, 0, 1, true, false, false)]
              && Executions(w.spool.pipe, id) == 2
  {
    hide TimedRun, RunWorld, Act, TimedStep, FencedRace, Executions, Publishable;
    var frame := Frame(text, 1);
    var stored := PlanIsStored(k, id, Dispatch(k, SubmitLimit, "session", frame, Planned));
    var w, acts := RunWorld(EmptyWorld, stored), FencedRace(id, frame);
    RaceExecutesTwice(id, frame);
    RaceIsPublishable(w.plans, id, frame);
    SpoolRuns(w, acts);
    WorldConcat(EmptyWorld, stored, AtSpools(acts));
    assert RunWorld(EmptyWorld, stored + AtSpools(acts)) == w.(spool := TimedRun(EmptyTimed, acts));
  }

  lemma {:induction false} ScansArePublishable(plans: map<string, Dispatch>, host: string, n: nat)
    ensures forall act :: act in Scans(host, n) ==> Publishable(plans, act)
    decreases n
  {
    if n > 0 {
      ScansArePublishable(plans, host, n - 1);
    }
  }

  lemma {:induction false} WorldConcat(w: World, first: seq<WorldAction>, rest: seq<WorldAction>)
    ensures RunWorld(w, first + rest) == RunWorld(RunWorld(w, first), rest)
    decreases |first|
  {
    if first == [] {
      assert first + rest == rest;
    } else {
      hide Act;
      assert (first + rest)[1..] == first[1..] + rest;
      WorldConcat(Act(w, first[0]), first[1..], rest);
    }
  }
}
