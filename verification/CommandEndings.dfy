/**
 * What a command's directory tells the Host: the timed pipeline with the
 * outcome of each broker call (BIGQMT_EXECUTION_BRIDGE_V05.py,
 * `_process_claimed`), and what a plan's observed state
 * (qmt/guojin_sim_oms.py, `_recover_dispatch`) says about that outcome.
 */
module CommandEndings {
  import opened CommandPipeline
  import opened CommandExpiry
  import CommandSpool
  import HostDispatch

  /** What became of the execution of the command the bridge holds. */
  datatype Call = NotEnded | Refused | Raised | Returned

  /** A frame the bridge found unexpired when it checked. */
  datatype Seen = Seen(id: string, frame: Frame, checked: int)

  /** `returned` has the commands whose broker call ever returned. */
  datatype Traced = Traced(timed: Timed, call: Call, returned: set<string>, seen: set<Seen>)

  datatype TracedAction = CallEnds(how: Call) | Do(act: TimedAction)

  const EmptyTraced := Traced(EmptyTimed, NotEnded, {}, {})

  /**
   * Where the bridge may file what it holds: in `processed` a snapshot taken in
   * time or a call that returned, in `rejected` what it did not execute because
   * it was unreadable or late, or what the safety gate refused. In `unknown`,
   * where failing renames end too, it may file anything.
   */
  predicate MayFile(dir: Dir, executed: bool, call: Call, inTime: bool) {
    match dir
    case Processed => inTime && (executed ==> call == Returned)
    case Declined => if executed then call == Refused else !inTime
    case _ => true
  }

  predicate Permits(s: Traced, a: TimedAction) {
    a.Spool? && a.act.Complete? && s.timed.pipe.bridge.Holding? ==>
      MayFile(a.act.dir, s.timed.pipe.bridge.executed, s.call, s.timed.look.InTime?)
  }

  function TracedStep(s: Traced, a: TracedAction): Traced {
    match a
    case CallEnds(how) =>
      if s.timed.pipe.bridge.Holding? && s.timed.pipe.bridge.executed && s.call == NotEnded then
        s.(call := how, returned := if how == Returned then s.returned + {s.timed.pipe.bridge.id} else s.returned)
      else s
    case Do(act) =>
      if !Permits(s, act) then s
      else
        var n := TimedStep(s.timed, act);
        Traced(n, if n.pipe.bridge == s.timed.pipe.bridge then s.call else NotEnded, s.returned,
               if act.BridgeLooks? && n.look.InTime? && n.pipe.bridge.Holding?
               then s.seen + {Seen(n.pipe.bridge.id, n.look.frame, n.look.checked)} else s.seen)
  }

  function TracedRun(s: Traced, actions: seq<TracedAction>): Traced
    decreases |actions|
  {
    if actions == [] then s else TracedRun(TracedStep(s, actions[0]), actions[1..])
  }

  /** No rename of the run doubles a command or replaces another frame. */
  ghost predicate HarmlessTrace(s: Traced, actions: seq<TracedAction>)
    decreases |actions|
  {
    actions != [] ==>
      && (actions[0].Do? && actions[0].act.Spool? ==> Harmless(s.timed.pipe, actions[0].act.act))
      && HarmlessTrace(TracedStep(s, actions[0]), actions[1..])
  }

  // ------------------------------------------------------------------------- invariant

  ghost predicate SeenInTime(s: Traced, id: string, frame: Frame) {
    exists e :: e in s.seen && e.id == id && e.frame == frame
  }

  /** A returned call was the command's only one, and its file is not among the rejected. */
  ghost predicate ReturnsFiled(s: Traced) {
    && (forall id :: id in s.returned ==>
          Executions(s.timed.pipe, id) == 1 && Slot(Declined, id) !in s.timed.pipe.files)
    && (s.timed.pipe.bridge.Holding? && s.timed.pipe.bridge.id in s.returned ==>
          s.timed.pipe.bridge.executed && s.call == Returned)
    && (s.timed.pipe.bridge.Holding? && s.timed.pipe.bridge.executed ==>
          Executions(s.timed.pipe, s.timed.pipe.bridge.id) == 1)
  }

  /** What is filed as processed was found unexpired, with this frame. */
  ghost predicate ProcessedSeen(s: Traced) {
    && (forall id :: Slot(Processed, id) in s.timed.pipe.files ==>
          SeenInTime(s, id, s.timed.pipe.files[Slot(Processed, id)]))
    && (s.timed.look.InTime? && s.timed.pipe.bridge.Holding? ==>
          && Slot(Claimed, s.timed.pipe.bridge.id) in s.timed.pipe.files
          && s.timed.pipe.files[Slot(Claimed, s.timed.pipe.bridge.id)] == s.timed.look.frame
          && SeenInTime(s, s.timed.pipe.bridge.id, s.timed.look.frame)
          && s.timed.look.checked < s.timed.look.frame.expires)
    && (forall e :: e in s.seen ==> e.checked < e.frame.expires)
  }

  ghost predicate Filed(s: Traced) {
    Tidy(s.timed.pipe) && ReturnsFiled(s) && ProcessedSeen(s)
  }

  /** Which files and which hold a pipeline step can change. */
  lemma StepFiles(p: Pipe, a: PipeAction, id: string)
    ensures Slot(Declined, id) in CommandPipeline.Step(p, a).files ==>
              Slot(Declined, id) in p.files || (a == Complete(Declined) && p.bridge.Holding? && p.bridge.id == id)
    ensures Slot(Declined, id) in p.files ==> Slot(Declined, id) in CommandPipeline.Step(p, a).files
    ensures Slot(Processed, id) in CommandPipeline.Step(p, a).files ==>
              var frame := CommandPipeline.Step(p, a).files[Slot(Processed, id)];
              || (Slot(Processed, id) in p.files && frame == p.files[Slot(Processed, id)])
              || (&& a == Complete(Processed) && p.bridge.Holding? && p.bridge.id == id && Slot(Claimed, id) in p.files
                  && frame == p.files[Slot(Claimed, id)])
  {
    hide LocateStep;
  }

  lemma StepHolds(p: Pipe, a: PipeAction)
    ensures var n := CommandPipeline.Step(p, a);
            n.bridge.Holding? ==>
              || (&& p.bridge.Holding? && p.bridge.id == n.bridge.id
                  && (n.bridge.executed <==> p.bridge.executed || a.Execute?)
                  && (Slot(Claimed, n.bridge.id) in p.files ==>
                        Slot(Claimed, n.bridge.id) in n.files
                        && n.files[Slot(Claimed, n.bridge.id)] == p.files[Slot(Claimed, n.bridge.id)]))
              || (!p.bridge.Holding? && !n.bridge.executed && Slot(Inbox, n.bridge.id) in p.files)
  {
    hide LocateStep;
  }

  /** A hold becomes an executed one by its call. */
  lemma HoldCounts(p: Pipe, a: PipeAction)
    requires p.bridge.Holding? && CommandPipeline.Step(p, a).bridge.Holding?
    ensures a.Execute? && !p.bridge.executed <==> Calls(p, a)
    ensures CommandPipeline.Step(p, a).bridge.id == p.bridge.id
  {
    hide LocateStep, Moved;
  }

  lemma StepCounts(p: Pipe, a: PipeAction, id: string)
    ensures Executions(CommandPipeline.Step(p, a), id) ==
            Executions(p, id) + if Calls(p, a) && p.bridge.id == id then 1 else 0
  {
    hide CommandPipeline.Step, Executions;
    if Calls(p, a) {
      CallIsCounted(p, a, id);
    } else {
      OnlyCallsExecute(p, a);
      SameExecutions(p, CommandPipeline.Step(p, a), id);
    }
  }

  lemma SpoolKeepsReturns(s: Traced, a: PipeAction)
    requires Tidy(s.timed.pipe) && ReturnsFiled(s) && Permits(s, Spool(a)) && Lets(s.timed, a)
    ensures ReturnsFiled(TracedStep(s, Do(Spool(a))))
  {
    hide CommandPipeline.Step, Executions, OnePlace;
    var p := s.timed.pipe;
    StepHolds(p, a);
    forall id | id in s.returned
      ensures Executions(CommandPipeline.Step(p, a), id) == 1 && Slot(Declined, id) !in CommandPipeline.Step(p, a).files
    {
      StepFiles(p, a, id);
      StepCounts(p, a, id);
    }
    if CommandPipeline.Step(p, a).bridge.Holding? {
      assert ExecutedOnce(p, CommandPipeline.Step(p, a).bridge.id);
      StepCounts(p, a, CommandPipeline.Step(p, a).bridge.id);
      if p.bridge.Holding? {
        HoldCounts(p, a);
      }
    }
  }

  lemma SpoolKeepsSeen(s: Traced, a: PipeAction)
    requires ProcessedSeen(s) && Permits(s, Spool(a)) && Lets(s.timed, a)
    ensures ProcessedSeen(TracedStep(s, Do(Spool(a))))
  {
    hide CommandPipeline.Step;
    var p, n := s.timed.pipe, TracedStep(s, Do(Spool(a)));
    StepHolds(p, a);
    assert n.seen == s.seen;
    forall id | Slot(Processed, id) in n.timed.pipe.files
      ensures SeenInTime(n, id, n.timed.pipe.files[Slot(Processed, id)])
    {
      StepFiles(p, a, id);
      var frame := n.timed.pipe.files[Slot(Processed, id)];
      assert SeenInTime(s, id, frame);
      var e :| e in s.seen && e.id == id && e.frame == frame;
      assert e in n.seen;
    }
    if n.timed.look.InTime? && n.timed.pipe.bridge.Holding? {
      var e :| e in s.seen && e.id == p.bridge.id && e.frame == s.timed.look.frame;
      assert e in n.seen;
    }
  }

  lemma LookKeepsFiled(s: Traced)
    requires Filed(s)
    ensures Filed(TracedStep(s, Do(BridgeLooks)))
  {
    hide Tidy, Executions;
    var n := TracedStep(s, Do(BridgeLooks));
    if n.timed.look.InTime? && n.timed.pipe.bridge.Holding? {
      assert Seen(n.timed.pipe.bridge.id, n.timed.look.frame, n.timed.look.checked) in n.seen;
    }
    forall id, frame | SeenInTime(s, id, frame) ensures SeenInTime(n, id, frame) {
      var e :| e in s.seen && e.id == id && e.frame == frame;
      assert e in n.seen;
    }
  }

  lemma CallKeepsFiled(s: Traced, how: Call)
    requires Filed(s)
    ensures Filed(TracedStep(s, CallEnds(how)))
  {
    hide OnePlace;
    var n := TracedStep(s, CallEnds(how));
    forall id, frame | SeenInTime(s, id, frame) ensures SeenInTime(n, id, frame) {
      var e :| e in s.seen && e.id == id && e.frame == frame;
      assert e in n.seen;
    }
    if n != s && how == Returned {
      HeldIsClaimed(s.timed.pipe);
    }
  }

  /** An executed command the bridge still holds has its one copy in `claimed`. */
  lemma HeldIsClaimed(p: Pipe)
    requires Tidy(p) && p.bridge.Holding?
    ensures Slot(Claimed, p.bridge.id) in p.files && forall d :: Slot(d, p.bridge.id) in p.files ==> d == Claimed
    ensures Executions(p, p.bridge.id) <= 1
  {
    assert OnePlace(p.files, p.bridge.id) && ExecutedOnce(p, p.bridge.id);
  }

  lemma StepKeepsFiled(s: Traced, a: TracedAction)
    requires Filed(s) && (a.Do? && a.act.Spool? ==> Harmless(s.timed.pipe, a.act.act))
    ensures Filed(TracedStep(s, a))
  {
    hide Tidy, Executions, CommandPipeline.Step, Harmless;
    match a
    case CallEnds(how) => CallKeepsFiled(s, how);
    case Do(BridgeLooks) => LookKeepsFiled(s);
    case Do(Tick(_)) =>
      forall id, frame | SeenInTime(s, id, frame) ensures SeenInTime(TracedStep(s, a), id, frame) {
        var e :| e in s.seen && e.id == id && e.frame == frame;
        assert e in TracedStep(s, a).seen;
      }
    case Do(Spool(act)) =>
      if Permits(s, a.act) {
        if Lets(s.timed, act) {
          HarmlessStepKeepsTidy(s.timed.pipe, act);
          SpoolKeepsReturns(s, act);
          SpoolKeepsSeen(s, act);
        } else {
          assert TracedStep(s, a) == s;
        }
      }
  }

  lemma {:induction false} RunKeepsFiled(s: Traced, actions: seq<TracedAction>)
    requires Filed(s) && HarmlessTrace(s, actions)
    ensures Filed(TracedRun(s, actions))
    decreases |actions|
  {
    if actions != [] {
      hide Filed, TracedStep, Harmless;
      StepKeepsFiled(s, actions[0]);
      RunKeepsFiled(TracedStep(s, actions[0]), actions[1..]);
    }
  }

  /** A rejected command stays rejected. */
  lemma {:induction false} RejectedStays(s: Traced, actions: seq<TracedAction>, id: string)
    requires Slot(Declined, id) in s.timed.pipe.files
    ensures Slot(Declined, id) in TracedRun(s, actions).timed.pipe.files
    decreases |actions|
  {
    if actions != [] {
      RejectedStaysOneStep(s, actions[0], id);
      hide TracedStep;
      RejectedStays(TracedStep(s, actions[0]), actions[1..], id);
    }
  }

  lemma RejectedStaysOneStep(s: Traced, a: TracedAction, id: string)
    requires Slot(Declined, id) in s.timed.pipe.files
    ensures Slot(Declined, id) in TracedStep(s, a).timed.pipe.files
  {
    hide CommandPipeline.Step;
    if a.Do? && a.act.Spool? {
      StepFiles(s.timed.pipe, a.act.act, id);
    }
  }

  /**
   * What the Host may conclude from where it finds a command, over every run of
   * any number of hosts and bridge processes without a harmful rename: one it
   * records as OBSERVED_REJECTED never had, and never will have, a broker call
   * that returned; one it records as OBSERVED_PROCESSED was found unexpired by
   * the bridge's own check, with the very frame that is stored.
   */
  lemma ObservedStatesTellTheOutcome(actions: seq<TracedAction>, later: seq<TracedAction>, id: string, place: Dir)
    requires HarmlessTrace(EmptyTraced, actions) && HarmlessTrace(TracedRun(EmptyTraced, actions), later)
    requires Slot(place, id) in TracedRun(EmptyTraced, actions).timed.pipe.files
    ensures HostDispatch.ObservedAs(place) == HostDispatch.ObservedRejected ==>
              id !in TracedRun(TracedRun(EmptyTraced, actions), later).returned
    ensures HostDispatch.ObservedAs(place) == HostDispatch.ObservedProcessed ==>
              exists e :: e in TracedRun(EmptyTraced, actions).seen && e.id == id && e.checked < e.frame.expires
                          && e.frame == TracedRun(EmptyTraced, actions).timed.pipe.files[Slot(place, id)]
  {
    EmptyPipeIsOrderly();
    hide TracedRun, Tidy;
    assert Filed(EmptyTraced);
    RunKeepsFiled(EmptyTraced, actions);
    var s := TracedRun(EmptyTraced, actions);
    RunKeepsFiled(s, later);
    if place == Declined {
      RejectedStays(s, later, id);
    }
    if place == Processed {
      assert SeenInTime(s, id, s.timed.pipe.files[Slot(place, id)]);
    }
  }

  /** The bridge's loop files every command as this state machine permits, whatever happens to it. */
  lemma BridgeFilesAsPermitted(f: CommandSpool.Fate)
    requires !f.claimFails && CommandSpool.Lands(f) != Claimed
    ensures MayFile(CommandSpool.Lands(f), CommandSpool.Executes(f.verdict), CallOf(f.verdict), InTimeOf(f.verdict))
  {
  }

  /** What the verdict says became of the call. */
  function CallOf(v: CommandSpool.Verdict): Call {
    match v
    case GateRejected => Refused
    case BrokerRaised => Raised
    case Done => Returned
    case _ => NotEnded
  }

  predicate InTimeOf(v: CommandSpool.Verdict) { v != CommandSpool.Unreadable && v != CommandSpool.TooLate }
}
