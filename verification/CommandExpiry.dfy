/**
 * The command pipeline against the clock: `publish` compares the expiry when
 * it begins and renames after the scan (qmt/commands.py), and the bridge
 * compares it again after the claim, before it executes
 * (BIGQMT_EXECUTION_BRIDGE_V05.py). Time can pass between any two steps.
 */
module CommandExpiry {
  import opened CommandPipeline

  /** The bridge's look at the command it holds. */
  datatype Look = NotYet | Late | InTime(frame: Frame, checked: int)

  /** A file that a rename created: when its expiry was checked, and when it appeared. */
  datatype Creation = Creation(id: string, frame: Frame, checked: int, written: int)

  datatype Execution = Execution(id: string, frame: Frame, checked: int, called: int)

  /** `checks` has the time of each host's last expiry check. */
  datatype Timed = Timed(
    pipe: Pipe,
    now: int,
    checks: map<string, int>,
    look: Look,
    created: seq<Creation>,
    executed: seq<Execution>)

  datatype TimedAction =
    | Tick(seconds: nat)
    | BridgeLooks
    | Spool(act: PipeAction)

  const EmptyTimed := Timed(EmptyPipe, 0, map[], NotYet, [], [])

  /** What the two expiry checks, and the order of the bridge's own steps, let through. */
  predicate Lets(s: Timed, a: PipeAction) {
    match a
    case BeginPublish(_, _, frame) => s.now < frame.expires
    case Execute => s.look.InTime?
    case Complete(dir) => dir == Processed ==> s.look.InTime?
    case _ => true
  }

  predicate Renames(p: Pipe, a: PipeAction) {
    a.Rename? && a.host in p.hosts && p.hosts[a.host].Writing?
  }

  predicate Calls(p: Pipe, a: PipeAction) {
    a.Execute? && p.bridge.Holding? && !p.bridge.executed
  }

  function CheckTime(s: Timed, host: string): int { if host in s.checks then s.checks[host] else s.now }

  /** One pipeline step, with its times. */
  function SpoolStep(s: Timed, a: PipeAction): Timed
    requires Lets(s, a)
  {
    var p := CommandPipeline.Step(s.pipe, a);
    Timed(p, s.now,
          if a.BeginPublish? && Idle(s.pipe, a.host) then s.checks[a.host := s.now] else s.checks,
          if p.bridge.Holding? && s.pipe.bridge.Holding? then s.look else NotYet,
          if Renames(s.pipe, a) then
            s.created + [Creation(s.pipe.hosts[a.host].id, s.pipe.hosts[a.host].frame, CheckTime(s, a.host), s.now)]
          else s.created,
          if Calls(s.pipe, a) then s.executed + [Execution(s.pipe.bridge.id, s.look.frame, s.look.checked, s.now)]
            else s.executed)
  }

  function TimedStep(s: Timed, a: TimedAction): Timed {
    match a
    case Tick(seconds) => s.(now := s.now + seconds)
    case BridgeLooks =>
      if s.look.NotYet? && s.pipe.bridge.Holding? && Slot(Claimed, s.pipe.bridge.id) in s.pipe.files then
        var frame := s.pipe.files[Slot(Claimed, s.pipe.bridge.id)];
        s.(look := if frame.expires <= s.now then Late else InTime(frame, s.now))
      else s
    case Spool(act) => if Lets(s, act) then SpoolStep(s, act) else s
  }

  function TimedRun(s: Timed, actions: seq<TimedAction>): Timed
    decreases |actions|
  {
    if actions == [] then s else TimedRun(TimedStep(s, actions[0]), actions[1..])
  }

  // ----------------------------------------------------------------------- refinement

  /** The pipeline steps a timed run takes. */
  function Untimed(s: Timed, actions: seq<TimedAction>): seq<PipeAction>
    decreases |actions|
  {
    if actions == [] then []
    else
      (if actions[0].Spool? && Lets(s, actions[0].act) then [actions[0].act]
       else []) + Untimed(TimedStep(s, actions[0]), actions[1..])
  }

  /** The clock only removes runs: what the spool does in time it also does in the untimed pipeline. */
  lemma {:induction false} TimedRunIsPipelineRun(s: Timed, actions: seq<TimedAction>)
    ensures TimedRun(s, actions).pipe == Run(s.pipe, Untimed(s, actions))
    decreases |actions|
  {
    if actions != [] {
      var a, n, rest := actions[0], TimedStep(s, actions[0]), actions[1..];
      TimedRunIsPipelineRun(n, rest);
      StepIsPipelineStep(s, a);
      hide TimedStep, CommandPipeline.Step, Lets;
      if a.Spool? && Lets(s, a.act) {
        assert ([a.act] + Untimed(n, rest))[1..] == Untimed(n, rest);
      } else {
        assert [] + Untimed(n, rest) == Untimed(n, rest);
      }
    }
  }

  lemma StepIsPipelineStep(s: Timed, a: TimedAction)
    ensures TimedStep(s, a).pipe == if a.Spool? && Lets(s, a.act) then CommandPipeline.Step(s.pipe, a.act) else s.pipe
  {
    hide CommandPipeline.Step;
  }

  // ------------------------------------------------------------------------ invariant

  ghost predicate CreatedBy(s: Timed, id: string, frame: Frame, upTo: int) {
    exists c :: c in s.created && c.id == id && c.frame == frame && c.written <= upTo
  }

  /** Every file was created by some rename of its frame. */
  ghost predicate FilesCreated(s: Timed) {
    forall d, id :: Slot(d, id) in s.pipe.files ==> CreatedBy(s, id, s.pipe.files[Slot(d, id)], s.now)
  }

  /** Each publisher checked before now, and found its frame unexpired. */
  ghost predicate PublishersChecked(s: Timed) {
    forall h :: h in s.pipe.hosts && Publishing(s.pipe.hosts[h]) ==>
      h in s.checks && s.checks[h] <= s.now && s.checks[h] < s.pipe.hosts[h].frame.expires
  }

  predicate CreationInOrder(c: Creation, now: int) { c.checked < c.frame.expires && c.checked <= c.written <= now }

  ghost predicate ExecutionInOrder(s: Timed, e: Execution) {
    && e.checked < e.frame.expires && e.checked <= e.called <= s.now
    && CreatedBy(s, e.id, e.frame, e.checked)
  }

  ghost predicate LookIsTrue(s: Timed) {
    s.look.InTime? ==>
      && s.pipe.bridge.Holding? && s.look.checked < s.look.frame.expires && s.look.checked <= s.now
      && CreatedBy(s, s.pipe.bridge.id, s.look.frame, s.look.checked)
  }

  ghost predicate Punctual(s: Timed) {
    && FilesCreated(s) && PublishersChecked(s) && LookIsTrue(s)
    && (forall c :: c in s.created ==> CreationInOrder(c, s.now))
    && (forall e :: e in s.executed ==> ExecutionInOrder(s, e))
  }

  /** More creations and a later clock forget nothing. */
  lemma StillCreated(s: Timed, n: Timed, id: string, frame: Frame, upTo: int, later: int)
    requires CreatedBy(s, id, frame, upTo) && s.created <= n.created && upTo <= later
    ensures CreatedBy(n, id, frame, later)
  {
    var c :| c in s.created && c.id == id && c.frame == frame && c.written <= upTo;
    var i :| 0 <= i < |s.created| && s.created[i] == c;
    assert n.created[i] == c;
  }

  lemma AllStillCreated(s: Timed, n: Timed)
    requires s.created <= n.created
    ensures forall id, frame, upTo, later :: CreatedBy(s, id, frame, upTo) && upTo <= later ==>
              CreatedBy(n, id, frame, later)
  {
    forall id, frame, upTo, later | CreatedBy(s, id, frame, upTo) && upTo <= later
      ensures CreatedBy(n, id, frame, later) {
      StillCreated(s, n, id, frame, upTo, later);
    }
  }

  lemma TickKeepsPunctual(s: Timed, seconds: nat)
    requires Punctual(s)
    ensures Punctual(TimedStep(s, Tick(seconds)))
  {
    AllStillCreated(s, TimedStep(s, Tick(seconds)));
    hide CreatedBy;
  }

  lemma LookKeepsPunctual(s: Timed)
    requires Punctual(s)
    ensures Punctual(TimedStep(s, BridgeLooks))
  {
    AllStillCreated(s, TimedStep(s, BridgeLooks));
    hide CreatedBy;
  }

  /** A step of the bridge moves frames about, and writes none. */
  lemma BridgeFilesCreated(s: Timed, a: PipeAction)
    requires FilesCreated(s) && BridgeAction(a) && Lets(s, a)
    ensures FilesCreated(SpoolStep(s, a))
  {
    var n := SpoolStep(s, a);
    AllStillCreated(s, n);
    var id, from, to := BridgeStepMoves(s.pipe, a);
    hide CreatedBy, CommandPipeline.Step;
  }

  lemma BridgeLookIsTrue(s: Timed, a: PipeAction)
    requires LookIsTrue(s) && BridgeAction(a) && Lets(s, a)
    ensures LookIsTrue(SpoolStep(s, a))
  {
    AllStillCreated(s, SpoolStep(s, a));
    hide CreatedBy, Moved;
  }

  lemma BridgeStepKeepsPunctual(s: Timed, a: PipeAction)
    requires Punctual(s) && BridgeAction(a) && Lets(s, a)
    ensures Punctual(SpoolStep(s, a))
  {
    var n := SpoolStep(s, a);
    AllStillCreated(s, n);
    BridgeFilesCreated(s, a);
    BridgeLookIsTrue(s, a);
    var _, _, _ := BridgeStepMoves(s.pipe, a);
    hide CreatedBy, FilesCreated, CommandPipeline.Step;
    forall e | e in n.executed ensures ExecutionInOrder(n, e) {
      assert e in s.executed ==> ExecutionInOrder(s, e);
    }
  }

  lemma HostFilesCreated(s: Timed, a: PipeAction)
    requires FilesCreated(s) && !BridgeAction(a) && Lets(s, a)
    ensures FilesCreated(SpoolStep(s, a))
  {
    var n := SpoolStep(s, a);
    AllStillCreated(s, n);
    if Renames(s.pipe, a) {
      var pc := s.pipe.hosts[a.host];
      assert n.created[|s.created|] == Creation(pc.id, pc.frame, CheckTime(s, a.host), s.now);
      assert CreatedBy(n, pc.id, pc.frame, s.now);
    }
    hide CreatedBy, LocateStep;
  }

  lemma HostsChecked(s: Timed, a: PipeAction)
    requires PublishersChecked(s) && !BridgeAction(a) && Lets(s, a)
    ensures PublishersChecked(SpoolStep(s, a))
  {
    if a.LocateNext? && a.host in s.pipe.hosts && s.pipe.hosts[a.host].Locating? {
      LookingIsNotPublishing(s.pipe.hosts[a.host], s.pipe.files);
    }
    hide LocateStep;
  }

  lemma HostStepKeepsPunctual(s: Timed, a: PipeAction)
    requires Punctual(s) && !BridgeAction(a) && Lets(s, a)
    ensures Punctual(SpoolStep(s, a))
  {
    var n := SpoolStep(s, a);
    AllStillCreated(s, n);
    HostFilesCreated(s, a);
    HostsChecked(s, a);
    HostsLeaveTheBridge(s.pipe, a);
    if Renames(s.pipe, a) {
      assert Publishing(s.pipe.hosts[a.host]);
    }
    hide CreatedBy, FilesCreated, CommandPipeline.Step;
  }

  lemma HostsLeaveTheBridge(p: Pipe, a: PipeAction)
    requires !BridgeAction(a)
    ensures CommandPipeline.Step(p, a).bridge == p.bridge && CommandPipeline.Step(p, a).executions == p.executions
  {
    hide LocateStep;
  }

  lemma StepKeepsPunctual(s: Timed, a: TimedAction)
    requires Punctual(s)
    ensures Punctual(TimedStep(s, a))
  {
    hide Punctual, SpoolStep, Lets;
    match a
    case Tick(seconds) => TickKeepsPunctual(s, seconds);
    case BridgeLooks => LookKeepsPunctual(s);
    case Spool(act) =>
      if Lets(s, act) {
        if BridgeAction(act) {
          BridgeStepKeepsPunctual(s, act);
        } else {
          HostStepKeepsPunctual(s, act);
        }
      }
  }

  lemma {:induction false} RunKeepsPunctual(s: Timed, actions: seq<TimedAction>)
    requires Punctual(s)
    ensures Punctual(TimedRun(s, actions))
    decreases |actions|
  {
    if actions != [] {
      hide Punctual, TimedStep;
      StepKeepsPunctual(s, actions[0]);
      RunKeepsPunctual(TimedStep(s, actions[0]), actions[1..]);
    }
  }

  /**
   * End to end, over every run: the bridge executes only a frame that was
   * unexpired at its own check, that a rename had created by then, and that
   * was unexpired when it appeared.
   */
  lemma ExecutedFramesWereInTime(actions: seq<TimedAction>, e: Execution)
    requires e in TimedRun(EmptyTimed, actions).executed
    ensures e.checked < e.frame.expires && e.checked <= e.called
    ensures exists c :: && c in TimedRun(EmptyTimed, actions).created && c.id == e.id && c.frame == e.frame
                        && c.checked <= c.written <= e.checked < e.frame.expires
  {
    RunKeepsPunctual(EmptyTimed, actions);
    var s := TimedRun(EmptyTimed, actions);
    hide TimedRun, FilesCreated, PublishersChecked, LookIsTrue;
    assert ExecutionInOrder(s, e);
    var c :| c in s.created && c.id == e.id && c.frame == e.frame && c.written <= e.checked;
    assert CreationInOrder(c, s.now);
  }

  /** A file that appeared too late is never executed, unless another rename of the same frame was in time. */
  lemma LateFilesAreNotExecuted(actions: seq<TimedAction>, id: string, frame: Frame)
    requires forall c :: c in TimedRun(EmptyTimed, actions).created && c.id == id && c.frame == frame ==>
               frame.expires <= c.written
    ensures forall e :: e in TimedRun(EmptyTimed, actions).executed ==> !(e.id == id && e.frame == frame)
  {
    forall e | e in TimedRun(EmptyTimed, actions).executed && e.id == id && e.frame == frame ensures false {
      ExecutedFramesWereInTime(actions, e);
    }
  }

  /** How often a command is in the list of executions. */
  function Calling(executed: seq<Execution>, id: string): nat {
    if executed == [] then 0
    else Calling(executed[..|executed| - 1], id) + if executed[|executed| - 1].id == id then 1 else 0
  }

  lemma OneMoreCall(executed: seq<Execution>, e: Execution, id: string)
    ensures Calling(executed + [e], id) == Calling(executed, id) + if e.id == id then 1 else 0
  {
    assert (executed + [e])[..|executed|] == executed;
  }

  lemma {:induction false} CalledIsListed(executed: seq<Execution>, id: string)
    requires Calling(executed, id) > 0
    ensures exists e :: e in executed && e.id == id
    decreases |executed|
  {
    var last := executed[|executed| - 1];
    if last.id != id {
      CalledIsListed(executed[..|executed| - 1], id);
    }
  }

  lemma StepListsCalls(s: Timed, a: TimedAction, id: string)
    requires Executions(s.pipe, id) == Calling(s.executed, id)
    ensures Executions(TimedStep(s, a).pipe, id) == Calling(TimedStep(s, a).executed, id)
  {
    hide Calling, Executions, CommandPipeline.Step;
    if a.Spool? && Lets(s, a.act) {
      if Calls(s.pipe, a.act) {
        OneMoreCall(s.executed, Execution(s.pipe.bridge.id, s.look.frame, s.look.checked, s.now), id);
        CallIsCounted(s.pipe, a.act, id);
      } else {
        OnlyCallsExecute(s.pipe, a.act);
        SameExecutions(s.pipe, CommandPipeline.Step(s.pipe, a.act), id);
      }
    } else {
      SameExecutions(s.pipe, TimedStep(s, a).pipe, id);
    }
  }

  lemma CallIsCounted(p: Pipe, a: PipeAction, id: string)
    requires Calls(p, a)
    ensures Executions(CommandPipeline.Step(p, a), id) == Executions(p, id) + if p.bridge.id == id then 1 else 0
  {
    hide Moved, LocateStep;
  }

  lemma SameExecutions(p: Pipe, q: Pipe, id: string)
    requires p.executions == q.executions
    ensures Executions(p, id) == Executions(q, id)
  {
  }

  lemma OnlyCallsExecute(p: Pipe, a: PipeAction)
    requires !Calls(p, a)
    ensures CommandPipeline.Step(p, a).executions == p.executions
  {
    hide Moved, LocateStep;
  }

  /** The list of executions is complete: as many entries as the pipeline counts. */
  lemma {:induction false} ExecutionsAreListed(s: Timed, actions: seq<TimedAction>, id: string)
    requires Executions(s.pipe, id) == Calling(s.executed, id)
    ensures Executions(TimedRun(s, actions).pipe, id) == Calling(TimedRun(s, actions).executed, id)
    decreases |actions|
  {
    if actions != [] {
      StepListsCalls(s, actions[0], id);
      hide TimedStep;
      ExecutionsAreListed(TimedStep(s, actions[0]), actions[1..], id);
    }
  }

  // -------------------------------------------------------------------- late appearance

  /** A rename that puts an expired frame into the inbox. */
  predicate AppearsLate(s: Timed, a: TimedAction) {
    a.Spool? && Renames(s.pipe, a.act) && s.pipe.hosts[a.act.host].frame.expires <= s.now
  }

  predicate EverAppearsLate(s: Timed, actions: seq<TimedAction>)
    decreases |actions|
  {
    actions != [] && (AppearsLate(s, actions[0]) || EverAppearsLate(TimedStep(s, actions[0]), actions[1..]))
  }

  predicate InPublish(s: Timed, host: string) { host in s.pipe.hosts && Publishing(s.pipe.hosts[host]) }

  /** The publish that this host is in ends with its rename. */
  predicate RenamesYet(s: Timed, actions: seq<TimedAction>, host: string)
    decreases |actions|
  {
    && InPublish(s, host) && actions != []
    && ((actions[0].Spool? && actions[0].act == Rename(host) && s.pipe.hosts[host].Writing?)
        || RenamesYet(TimedStep(s, actions[0]), actions[1..], host))
  }

  /** The clock passes the expiry of the frame this host is publishing. */
  predicate PassesExpiry(s: Timed, a: TimedAction, host: string) {
    a.Tick? && InPublish(s, host) && s.now < s.pipe.hosts[host].frame.expires <= s.now + a.seconds
  }

  /** Somewhere in the run it does so between a publish's check and its rename. */
  ghost predicate PassedWhilePublishing(s: Timed, actions: seq<TimedAction>)
    decreases |actions|
  {
    actions != [] &&
    ((exists h :: PassesExpiry(s, actions[0], h) && RenamesYet(TimedStep(s, actions[0]), actions[1..], h))
     || PassedWhilePublishing(TimedStep(s, actions[0]), actions[1..]))
  }

  /** A publish already past its expiry that will still rename. */
  ghost predicate Overdue(s: Timed, actions: seq<TimedAction>, host: string) {
    RenamesYet(s, actions, host) && s.pipe.hosts[host].frame.expires <= s.now
  }

  /** Until it ends, a publish keeps its frame, and an accepted one starts unexpired. */
  lemma PublishGoesOn(s: Timed, a: TimedAction, host: string)
    ensures InPublish(s, host) && InPublish(TimedStep(s, a), host) ==>
              TimedStep(s, a).pipe.hosts[host].frame == s.pipe.hosts[host].frame
    ensures !InPublish(s, host) && InPublish(TimedStep(s, a), host) ==>
              !a.Tick? && TimedStep(s, a).pipe.hosts[host].frame.expires > TimedStep(s, a).now
    ensures a.Tick? && InPublish(s, host) ==> InPublish(TimedStep(s, a), host)
    ensures !a.Tick? ==> TimedStep(s, a).now == s.now
    ensures a.Spool? && a.act == Rename(host) && InPublish(s, host) && s.pipe.hosts[host].Writing? ==>
              !InPublish(TimedStep(s, a), host)
  {
    hide LocateStep, Moved;
    if a.Spool? && a.act.LocateNext? && a.act.host in s.pipe.hosts && s.pipe.hosts[a.act.host].Locating? {
      LookingIsNotPublishing(s.pipe.hosts[a.act.host], s.pipe.files);
    }
  }

  lemma RenameInPublish(s: Timed, a: TimedAction)
    requires AppearsLate(s, a)
    ensures InPublish(s, a.act.host) && a.act == Rename(a.act.host)
  {
  }

  /** One step: what is late now or later is overdue already, or the clock passes the expiry now or later. */
  lemma LateOneStep(s: Timed, actions: seq<TimedAction>)
    requires actions != []
    requires var n, rest := TimedStep(s, actions[0]), actions[1..];
             EverAppearsLate(n, rest) <==> PassedWhilePublishing(n, rest) || exists h :: Overdue(n, rest, h)
    ensures EverAppearsLate(s, actions) <==> PassedWhilePublishing(s, actions) || exists h :: Overdue(s, actions, h)
  {
    var a, n, rest := actions[0], TimedStep(s, actions[0]), actions[1..];
    forall h {
      PublishGoesOn(s, a, h);
    }
    hide TimedStep, Renames;
    if AppearsLate(s, a) {
      RenameInPublish(s, a);
      assert Overdue(s, actions, a.act.host);
    } else if h :| Overdue(n, rest, h) {
      if InPublish(s, h) && s.pipe.hosts[h].frame.expires <= s.now {
        assert Overdue(s, actions, h);
      } else {
        assert PassesExpiry(s, a, h);
      }
    }
    if h :| Overdue(s, actions, h) {
      LateOrOverdue(s, actions, h);
    }
    if h :| PassesExpiry(s, a, h) && RenamesYet(n, rest, h) {
      assert Overdue(n, rest, h);
    }
  }

  lemma LateOrOverdue(s: Timed, actions: seq<TimedAction>, host: string)
    requires actions != [] && Overdue(s, actions, host)
    ensures AppearsLate(s, actions[0]) || Overdue(TimedStep(s, actions[0]), actions[1..], host)
  {
    var a, n := actions[0], TimedStep(s, actions[0]);
    PublishGoesOn(s, a, host);
    assert n.now >= s.now;
    if !(a.Spool? && a.act == Rename(host) && s.pipe.hosts[host].Writing?) {
      assert RenamesYet(n, actions[1..], host);
      assert InPublish(n, host);
    }
    hide TimedStep;
  }

  lemma {:induction false} LateExactlyWhenPassedOrOverdue(s: Timed, actions: seq<TimedAction>)
    ensures EverAppearsLate(s, actions) <==> PassedWhilePublishing(s, actions) || exists h :: Overdue(s, actions, h)
    decreases |actions|
  {
    if actions != [] {
      hide TimedStep;
      LateExactlyWhenPassedOrOverdue(TimedStep(s, actions[0]), actions[1..]);
      LateOneStep(s, actions);
    }
  }

  /**
   * Over every run: a frame appears in the inbox at or after its expiry exactly
   * when the clock passes the expiry between the publish's check and its
   * rename.
   */
  lemma LateExactlyWhenPassedWhilePublishing(actions: seq<TimedAction>)
    ensures EverAppearsLate(EmptyTimed, actions) <==> PassedWhilePublishing(EmptyTimed, actions)
  {
    LateExactlyWhenPassedOrOverdue(EmptyTimed, actions);
    assert forall h :: !InPublish(EmptyTimed, h);
  }

  /** A publish of five steps and a second in between: the file appears when its plan has expired. */
  lemma FrameCanAppearLate(id: string, text: string)
    ensures exists actions ::
              var s := TimedRun(EmptyTimed, actions);
              && s.pipe.files == map[Slot(Inbox, id) := Frame(text, 1)]
              && s.created == [Creation(id, Frame(text, 1), 0, 1)]
  {
    var frame := Frame(text, 1);
    var scanned := PublishUpToRename("h", id, frame);
    ScanInTime(EmptyTimed, "h", id, frame);
    var late := [Tick(1), Spool(Rename("h"))];
    var writing := TimedRun(EmptyTimed, scanned);
    assert late[1..][1..] == [];
    assert TimedRun(writing, late) == TimedStep(TimedStep(writing, late[0]), late[1]);
    TimedConcat(EmptyTimed, scanned, late);
  }

  lemma {:induction false} TimedConcat(s: Timed, first: seq<TimedAction>, rest: seq<TimedAction>)
    ensures TimedRun(s, first + rest) == TimedRun(TimedRun(s, first), rest)
    decreases |first|
  {
    if first == [] {
      assert first + rest == rest;
    } else {
      hide TimedStep;
      assert (first + rest)[1..] == first[1..] + rest;
      TimedConcat(TimedStep(s, first[0]), first[1..], rest);
    }
  }

  function PublishUpToRename(host: string, id: string, frame: Frame): seq<TimedAction> {
    [Spool(BeginPublish(host, id, frame))] + Scans(host, |SCAN_ORDER| + 1)
  }

  /** The host begins to publish and scans all five directories within the same second. */
  lemma ScanInTime(s: Timed, host: string, id: string, frame: Frame)
    requires s.now < frame.expires && host !in s.pipe.hosts && !Present(s.pipe.files, id) && s.look.NotYet?
    ensures TimedRun(s, PublishUpToRename(host, id, frame)) ==
            s.(pipe := s.pipe.(hosts := s.pipe.hosts[host := Writing(id, frame)]), checks := s.checks[host := s.now])
  {
    assert PublishUpToRename(host, id, frame)[1..] == Scans(host, |SCAN_ORDER| + 1);
    BeginInTime(s, host, id, frame);
    hide TimedStep, Present, Scans;
    ScanGoesThrough(TimedStep(s, Spool(BeginPublish(host, id, frame))), host, 0);
  }

  lemma BeginInTime(s: Timed, host: string, id: string, frame: Frame)
    requires s.now < frame.expires && host !in s.pipe.hosts && s.look.NotYet?
    ensures TimedStep(s, Spool(BeginPublish(host, id, frame))) ==
            s.(pipe := s.pipe.(hosts := s.pipe.hosts[host := Scanning(id, frame, 0)]),
               checks := s.checks[host := s.now])
  {
  }

  function Scans(host: string, n: nat): seq<TimedAction> {
    if n == 0 then [] else [Spool(ScanNext(host))] + Scans(host, n - 1)
  }

  lemma {:induction false} ScanGoesThrough(s: Timed, host: string, n: nat)
    requires n <= |SCAN_ORDER| && host in s.pipe.hosts && s.pipe.hosts[host].Scanning? && s.pipe.hosts[host].next == n
    requires !Present(s.pipe.files, s.pipe.hosts[host].id) && s.look.NotYet?
    ensures var pc := s.pipe.hosts[host];
            TimedRun(s, Scans(host, |SCAN_ORDER| + 1 - n)) ==
            s.(pipe := s.pipe.(hosts := s.pipe.hosts[host := Writing(pc.id, pc.frame)]))
    decreases |SCAN_ORDER| - n
  {
    var rest := Scans(host, |SCAN_ORDER| - n);
    var steps := Scans(host, |SCAN_ORDER| + 1 - n);
    assert steps[0] == Spool(ScanNext(host)) && steps[1..] == rest;
    var next := TimedStep(s, Spool(ScanNext(host)));
    if n < |SCAN_ORDER| {
      assert Slot(SCAN_ORDER[n], s.pipe.hosts[host].id) !in s.pipe.files;
      ScanGoesThrough(next, host, n + 1);
    }
  }

  // ------------------------------------------------------------------------- late calls

  /** The bridge calls the broker for a frame that has expired since its check. */
  predicate CallsLate(s: Timed, a: TimedAction) {
    a.Spool? && Lets(s, a.act) && Calls(s.pipe, a.act) && s.look.frame.expires <= s.now
  }

  predicate EverCallsLate(s: Timed, actions: seq<TimedAction>)
    decreases |actions|
  {
    actions != [] && (CallsLate(s, actions[0]) || EverCallsLate(TimedStep(s, actions[0]), actions[1..]))
  }

  /** The bridge holds a command it found in time and has not executed. */
  predicate AboutToCall(s: Timed) { s.look.InTime? && s.pipe.bridge.Holding? && !s.pipe.bridge.executed }

  predicate CallsYet(s: Timed, actions: seq<TimedAction>)
    decreases |actions|
  {
    AboutToCall(s) && actions != []
      && (actions[0] == Spool(Execute) || CallsYet(TimedStep(s, actions[0]), actions[1..]))
  }

  /** The clock passes the expiry of a frame between the bridge's check and its call. */
  predicate PassedBeforeCall(s: Timed, actions: seq<TimedAction>)
    decreases |actions|
  {
    actions != [] &&
    (|| (&& actions[0].Tick? && AboutToCall(s) && s.now < s.look.frame.expires <= s.now + actions[0].seconds
         && CallsYet(TimedStep(s, actions[0]), actions[1..]))
     || PassedBeforeCall(TimedStep(s, actions[0]), actions[1..]))
  }

  predicate CallOverdue(s: Timed, actions: seq<TimedAction>) {
    CallsYet(s, actions) && s.look.frame.expires <= s.now
  }

  lemma CallGoesOn(s: Timed, a: TimedAction)
    ensures AboutToCall(s) && AboutToCall(TimedStep(s, a)) ==> TimedStep(s, a).look == s.look
    ensures !AboutToCall(s) && AboutToCall(TimedStep(s, a)) ==>
              !a.Tick? && TimedStep(s, a).look.frame.expires > TimedStep(s, a).now
    ensures TimedStep(s, a).now == s.now + if a.Tick? then a.seconds else 0
    ensures a == Spool(Execute) && AboutToCall(s) ==>
              Lets(s, Execute) && Calls(s.pipe, Execute) && !AboutToCall(TimedStep(s, a))
  {
    hide LocateStep, Moved;
  }

  lemma {:induction false} LateCallExactlyWhenPassedOrOverdue(s: Timed, actions: seq<TimedAction>)
    requires s.look.InTime? ==> s.pipe.bridge.Holding?
    ensures EverCallsLate(s, actions) <==> PassedBeforeCall(s, actions) || CallOverdue(s, actions)
    decreases |actions|
  {
    if actions != [] {
      var n, rest := TimedStep(s, actions[0]), actions[1..];
      CallGoesOn(s, actions[0]);
      LookNeedsHold(s, actions[0]);
      hide TimedStep;
      LateCallExactlyWhenPassedOrOverdue(n, rest);
      if CallsLate(s, actions[0]) {
        assert actions[0] == Spool(Execute) && CallsYet(s, actions);
      } else if CallOverdue(s, actions) {
        assert actions[0] != Spool(Execute) && CallsYet(n, rest) && AboutToCall(n);
        assert CallOverdue(n, rest);
      } else if CallOverdue(n, rest) {
        assert actions[0].Tick? && AboutToCall(s);
      }
    }
  }

  lemma LookNeedsHold(s: Timed, a: TimedAction)
    requires s.look.InTime? ==> s.pipe.bridge.Holding?
    ensures TimedStep(s, a).look.InTime? ==> TimedStep(s, a).pipe.bridge.Holding?
  {
    hide LocateStep, Moved;
  }

  /**
   * Over every run: a broker call is made for an expired frame exactly when the
   * clock passes the expiry between the bridge's check and that call.
   */
  lemma CallLateExactlyWhenPassedBeforeCall(actions: seq<TimedAction>)
    ensures EverCallsLate(EmptyTimed, actions) <==> PassedBeforeCall(EmptyTimed, actions)
  {
    LateCallExactlyWhenPassedOrOverdue(EmptyTimed, actions);
  }
}
