/**
 * The command spool as the Host and the bridge use it at the same time:
 * publish after a directory-by-directory scan on one side (qmt/commands.py),
 * claim, execute, complete and orphan recovery on the other
 * (BIGQMT_EXECUTION_BRIDGE_V05.py). Only a single rename is atomic; either
 * side can stop between any two.
 */
module CommandPipeline {

  /** The five directories; `Declined` is `rejected` and `Unresolved` is `unknown` on disk. */
  datatype Dir = Inbox | Claimed | Processed | Declined | Unresolved

  datatype Slot = Slot(dir: Dir, id: string)

  /** A command as it is stored; its text carries the expiry. */
  datatype Frame = Frame(text: string, expires: int)

  type Files = map<Slot, Frame>

  const SCAN_ORDER: seq<Dir> := [Inbox, Claimed, Processed, Declined, Unresolved]

  function Rank(d: Dir): (r: nat)
    ensures r < |SCAN_ORDER| && SCAN_ORDER[r] == d
  {
    match d
    case Inbox => 0
    case Claimed => 1
    case Processed => 2
    case Declined => 3
    case Unresolved => 4
  }

  /**
   * A host inside `publish`, inside `locate`, or just back from `locate` with the
   * directories that showed the command.
   */
  datatype HostPc =
    | Resting
    | Scanning(id: string, frame: Frame, next: nat)
    | Writing(id: string, frame: Frame)
    | Locating(id: string, next: nat, found: seq<Dir>)
    | Located(id: string, found: seq<Dir>)

  /** A bridge process: scanning orphaned claims first, then holding at most one claimed command. */
  datatype BridgePc = Down | Recovering | Ready | Holding(id: string, executed: bool)

  datatype Pipe = Pipe(files: Files, hosts: map<string, HostPc>, bridge: BridgePc, executions: map<string, nat>)

  datatype PipeAction =
    | BeginPublish(host: string, id: string, frame: Frame)
    | ScanNext(host: string)
    | Rename(host: string)
    | BeginLocate(host: string, id: string)
    | LocateNext(host: string)
    | HostStops(host: string)
    | BridgeStarts
    | BridgeStops
    | MoveOrphan(id: string)
    | EndRecovery
    | Claim(id: string)
    | Execute
    | Complete(dir: Dir)
    | MoveFails

  const EmptyPipe := Pipe(map[], map[], Down, map[])

  function Executions(s: Pipe, id: string): nat { if id in s.executions then s.executions[id] else 0 }

  predicate Publishing(pc: HostPc) { pc.Scanning? || pc.Writing? }

  predicate SamePublish(p: HostPc, q: HostPc) { Publishing(p) && Publishing(q) && p.id == q.id }

  predicate Idle(s: Pipe, host: string) { host !in s.hosts || s.hosts[host].Resting? || s.hosts[host].Located? }

  /** Rename within the spool; it replaces whatever the target name held. */
  function Moved(files: Files, id: string, from: Dir, to: Dir): Files
    requires Slot(from, id) in files
  {
    (files - {Slot(from, id)})[Slot(to, id) := files[Slot(from, id)]]
  }

  /** Looks into one more directory, or finishes. */
  function LocateStep(pc: HostPc, files: Files): HostPc
    requires pc.Locating?
  {
    if pc.next >= |SCAN_ORDER| then Located(pc.id, pc.found)
    else Locating(pc.id, pc.next + 1, if Slot(SCAN_ORDER[pc.next], pc.id) in files then pc.found + [SCAN_ORDER[pc.next]]
                  else pc.found)
  }

  lemma LookingIsNotPublishing(pc: HostPc, files: Files)
    requires pc.Locating?
    ensures !Publishing(LocateStep(pc, files))
  {
  }

  function Step(s: Pipe, a: PipeAction): Pipe {
    match a
    case BeginPublish(h, id, frame) =>
      if Idle(s, h) then s.(hosts := s.hosts[h := Scanning(id, frame, 0)]) else s
    case ScanNext(h) =>
      if h !in s.hosts || !s.hosts[h].Scanning? then s
      else
        var pc := s.hosts[h];
        if pc.next >= |SCAN_ORDER| then s.(hosts := s.hosts[h := Writing(pc.id, pc.frame)])
        else if Slot(SCAN_ORDER[pc.next], pc.id) in s.files then s.(hosts := s.hosts[h := Resting])
        else s.(hosts := s.hosts[h := Scanning(pc.id, pc.frame, pc.next + 1)])
    case Rename(h) =>
      if h in s.hosts && s.hosts[h].Writing? then
        s.(files := s.files[Slot(Inbox, s.hosts[h].id) := s.hosts[h].frame], hosts := s.hosts[h := Resting])
      else s
    case BeginLocate(h, id) => if Idle(s, h) then s.(hosts := s.hosts[h := Locating(id, 0, [])]) else s
    case LocateNext(h) =>
      if h in s.hosts && s.hosts[h].Locating? then s.(hosts := s.hosts[h := LocateStep(s.hosts[h], s.files)])
      else s
    case HostStops(h) => if h in s.hosts then s.(hosts := s.hosts[h := Resting]) else s
    case BridgeStarts => if s.bridge.Down? then s.(bridge := Recovering) else s
    case BridgeStops => s.(bridge := Down)
    case MoveOrphan(id) =>
      if s.bridge.Recovering? && Slot(Claimed, id) in s.files then s.(files := Moved(s.files, id, Claimed, Unresolved))
        else s
    case EndRecovery => if s.bridge.Recovering? then s.(bridge := Ready) else s
    case Claim(id) =>
      if s.bridge.Ready? && Slot(Inbox, id) in s.files && Slot(Claimed, id) !in s.files then
        s.(files := Moved(s.files, id, Inbox, Claimed), bridge := Holding(id, false))
      else s
    case Execute =>
      if s.bridge.Holding? && !s.bridge.executed then
        s.(bridge := Holding(s.bridge.id, true),
           executions := s.executions[s.bridge.id := Executions(s, s.bridge.id) + 1])
      else s
    case Complete(dir) =>
      if s.bridge.Holding? && dir in {Processed, Declined, Unresolved} && Slot(Claimed, s.bridge.id) in s.files then
        s.(files := Moved(s.files, s.bridge.id, Claimed, dir), bridge := Ready)
      else s
    case MoveFails => if s.bridge.Holding? then s.(bridge := Ready) else s
  }

  function Run(s: Pipe, actions: seq<PipeAction>): Pipe
    decreases |actions|
  {
    if actions == [] then s else Run(Step(s, actions[0]), actions[1..])
  }

  // ------------------------------------------------------------------------ invariant

  ghost predicate OnePlace(files: Files, id: string) {
    forall d, e :: Slot(d, id) in files && Slot(e, id) in files ==> d == e
  }

  ghost predicate Present(files: Files, id: string) {
    exists d :: Slot(d, id) in files
  }

  /** No two hosts are inside `publish` with the same command id. */
  ghost predicate Exclusive(s: Pipe) {
    forall h, g :: h in s.hosts && g in s.hosts && SamePublish(s.hosts[h], s.hosts[g]) ==> h == g
  }

  /** Directories already scanned do not hold the command, wherever it was moved meanwhile. */
  ghost predicate ScanIsAhead(pc: HostPc, files: Files) {
    match pc
    case Scanning(id, _, next) => next <= |SCAN_ORDER| && forall d :: Slot(d, id) in files ==> next <= Rank(d)
    case Writing(id, _) => !Present(files, id)
    case _ => true
  }

  /** An executed command is past the inbox and is not about to be executed. */
  ghost predicate ExecutedOnce(s: Pipe, id: string) {
    && Executions(s, id) <= 1
    && (Executions(s, id) == 1 ==>
          Present(s.files, id) && Slot(Inbox, id) !in s.files && s.bridge != Holding(id, false))
  }

  /** What the files and the bridge keep, whatever the hosts believe. */
  ghost predicate Tidy(s: Pipe) {
    && (forall id :: OnePlace(s.files, id))
    && (forall id :: ExecutedOnce(s, id))
    && (s.bridge.Holding? ==> Slot(Claimed, s.bridge.id) in s.files)
  }

  ghost predicate Orderly(s: Pipe) {
    Tidy(s) && forall h :: h in s.hosts ==> ScanIsAhead(s.hosts[h], s.files)
  }

  /** Every command stays, with its frame, in the same or a later directory. */
  ghost predicate MovesForward(was: Files, now: Files) {
    forall d, id :: Slot(d, id) in was ==>
      exists e :: Slot(e, id) in now && Rank(d) <= Rank(e) && now[Slot(e, id)] == was[Slot(d, id)]
  }

  // --------------------------------------------------------------------- preservation

  /** A forward rename of the bridge, seen from any command id and any scan. */
  lemma BridgeMoveIsForward(files: Files, id: string, from: Dir, to: Dir)
    requires Slot(from, id) in files && Rank(from) < Rank(to)
    requires OnePlace(files, id)
    ensures MovesForward(files, Moved(files, id, from, to))
    ensures forall q :: OnePlace(files, q) ==> OnePlace(Moved(files, id, from, to), q)
    ensures forall pc :: ScanIsAhead(pc, files) ==> ScanIsAhead(pc, Moved(files, id, from, to))
    ensures forall q :: Present(Moved(files, id, from, to), q) <==> Present(files, q)
  {
    var n := Moved(files, id, from, to);
    forall d, q | Slot(d, q) in files
      ensures exists e :: Slot(e, q) in n && Rank(d) <= Rank(e) && n[Slot(e, q)] == files[Slot(d, q)]
    {
      var e := if q == id then to else d;
      assert Slot(e, q) in n;
    }
    forall q ensures Present(n, q) <==> Present(files, q) {
      if Present(n, q) {
        var d :| Slot(d, q) in n;
        assert Slot(if q == id then from else d, q) in files;
      }
    }
  }

  predicate BridgeAction(a: PipeAction) {
    a.BridgeStarts? || a.BridgeStops? || a.MoveOrphan? || a.EndRecovery? || a.Claim? || a.Execute? || a.Complete?
      || a.MoveFails?
  }

  /** The one rename a bridge step can make. */
  lemma BridgeStepMoves(s: Pipe, a: PipeAction) returns (id: string, from: Dir, to: Dir)
    requires BridgeAction(a)
    ensures Step(s, a).hosts == s.hosts
    ensures Step(s, a).files == s.files
            || (Slot(from, id) in s.files && Rank(from) < Rank(to) && Step(s, a).files == Moved(s.files, id, from, to))
  {
    id := if a.Complete? && s.bridge.Holding? then s.bridge.id else if a.MoveOrphan? || a.Claim? then a.id else "";
    from := if a.Claim? then Inbox else Claimed;
    to := if a.MoveOrphan? then Unresolved else if a.Complete? then a.dir else Claimed;
    hide Moved;
  }

  lemma BridgeStepIsForward(s: Pipe, a: PipeAction)
    requires (forall id :: OnePlace(s.files, id)) && BridgeAction(a)
    ensures MovesForward(s.files, Step(s, a).files)
    ensures forall id :: OnePlace(Step(s, a).files, id)
    ensures forall pc :: ScanIsAhead(pc, s.files) ==> ScanIsAhead(pc, Step(s, a).files)
    ensures forall id :: Present(Step(s, a).files, id) <==> Present(s.files, id)
  {
    hide Step, OnePlace, ScanIsAhead, Present, Moved, MovesForward;
    var id, from, to := BridgeStepMoves(s, a);
    SelfForward(s.files);
    if Step(s, a).files != s.files {
      assert OnePlace(s.files, id);
      BridgeMoveIsForward(s.files, id, from, to);
    }
  }

  /** Only a held, unexecuted command is executed, and what is held was claimed out of the inbox. */
  lemma BridgeStepExecutes(s: Pipe, a: PipeAction, q: string)
    requires BridgeAction(a) && ExecutedOnce(s, q) && OnePlace(s.files, q)
    requires s.bridge.Holding? ==> Slot(Claimed, s.bridge.id) in s.files
    requires Present(Step(s, a).files, q) <==> Present(s.files, q)
    ensures ExecutedOnce(Step(s, a), q)
  {
    hide Present, Rank;
    PresentIn(s.files, q, Claimed);
  }

  lemma BridgeStepHolds(s: Pipe, a: PipeAction)
    requires BridgeAction(a) && (s.bridge.Holding? ==> Slot(Claimed, s.bridge.id) in s.files)
    ensures Step(s, a).bridge.Holding? ==> Slot(Claimed, Step(s, a).bridge.id) in Step(s, a).files
  {
  }

  lemma BridgeStepKeepsTidy(s: Pipe, a: PipeAction)
    requires Tidy(s) && BridgeAction(a)
    ensures Tidy(Step(s, a)) && MovesForward(s.files, Step(s, a).files)
  {
    hide MovesForward, Present, Step, OnePlace, ExecutedOnce, ScanIsAhead;
    BridgeStepIsForward(s, a);
    BridgeStepHolds(s, a);
    forall q ensures ExecutedOnce(Step(s, a), q) {
      BridgeStepExecutes(s, a, q);
    }
  }

  lemma PresentIn(files: Files, id: string, d: Dir)
    ensures Slot(d, id) in files ==> Present(files, id)
  {
  }

  lemma BridgeStepKeepsOrderly(s: Pipe, a: PipeAction)
    requires Orderly(s) && BridgeAction(a)
    ensures Orderly(Step(s, a)) && MovesForward(s.files, Step(s, a).files)
  {
    BridgeStepKeepsTidy(s, a);
    BridgeStepIsForward(s, a);
    var _, _, _ := BridgeStepMoves(s, a);
    hide MovesForward, ScanIsAhead, Step, OnePlace, ExecutedOnce, Present;
  }

  lemma ScanStepKeepsAhead(pc: HostPc, files: Files)
    requires ScanIsAhead(pc, files) && pc.Scanning?
    requires pc.next < |SCAN_ORDER| ==> Slot(SCAN_ORDER[pc.next], pc.id) !in files
    ensures var next := if pc.next < |SCAN_ORDER| then Scanning(pc.id, pc.frame, pc.next + 1)
                        else Writing(pc.id, pc.frame);
            ScanIsAhead(next, files)
  {
    forall d | Slot(d, pc.id) in files ensures pc.next < Rank(d) {
    }
  }

  /** The rename finds no copy, or only its own frame still waiting in the inbox. */
  ghost predicate Harmless(s: Pipe, a: PipeAction) {
    a.Rename? && a.host in s.hosts && s.hosts[a.host].Writing? ==>
      forall d :: Slot(d, s.hosts[a.host].id) in s.files ==>
        d == Inbox && s.files[Slot(d, s.hosts[a.host].id)] == s.hosts[a.host].frame
  }

  /**
   * One rename: it leaves one copy, with every stored frame kept, exactly when
   * it was harmless. A copy past the inbox is doubled, another frame is lost.
   */
  lemma RenameIsSafeExactlyWhenHarmless(s: Pipe, host: string)
    requires Tidy(s) && host in s.hosts && s.hosts[host].Writing?
    ensures (OnePlace(Step(s, Rename(host)).files, s.hosts[host].id)
             && MovesForward(s.files, Step(s, Rename(host)).files))
            <==> Harmless(s, Rename(host))
  {
    var n, id := Step(s, Rename(host)), s.hosts[host].id;
    assert OnePlace(s.files, id);
    assert Slot(Inbox, id) in n.files;
    assert forall d, q :: Slot(d, q) in s.files ==> Slot(d, q) in n.files;
  }

  lemma HarmlessRenameKeepsTidy(s: Pipe, host: string)
    requires Tidy(s) && Harmless(s, Rename(host)) && host in s.hosts && s.hosts[host].Writing?
    ensures Tidy(Step(s, Rename(host))) && MovesForward(s.files, Step(s, Rename(host)).files)
  {
    var n, id := Step(s, Rename(host)), s.hosts[host].id;
    RenameIsSafeExactlyWhenHarmless(s, host);
    hide MovesForward;
    forall q ensures OnePlace(n.files, q) && ExecutedOnce(n, q) {
      assert OnePlace(s.files, q) && ExecutedOnce(s, q);
      if Present(s.files, q) {
        var d :| Slot(d, q) in s.files;
        assert Slot(d, q) in n.files;
      }
    }
  }

  lemma HostStepKeepsTidy(s: Pipe, n: Pipe)
    requires Tidy(s) && n.files == s.files && n.bridge == s.bridge && n.executions == s.executions
    ensures Tidy(n)
  {
    forall q ensures ExecutedOnce(n, q) {
      assert ExecutedOnce(s, q);
    }
  }

  /** Every step keeps the files tidy, unless it is a harmful rename. */
  lemma HarmlessStepKeepsTidy(s: Pipe, a: PipeAction)
    requires Tidy(s) && Harmless(s, a)
    ensures Tidy(Step(s, a)) && MovesForward(s.files, Step(s, a).files)
  {
    hide Tidy, MovesForward, Harmless;
    if BridgeAction(a) {
      BridgeStepKeepsTidy(s, a);
    } else if a.Rename? && a.host in s.hosts && s.hosts[a.host].Writing? {
      HarmlessRenameKeepsTidy(s, a.host);
    } else {
      SelfForward(s.files);
      HostStepKeepsTidy(s, Step(s, a));
    }
  }

  lemma RenameKeepsOrderly(s: Pipe, host: string)
    requires Orderly(s) && Exclusive(s) && host in s.hosts && s.hosts[host].Writing?
    ensures Orderly(Step(s, Rename(host))) && MovesForward(s.files, Step(s, Rename(host)).files)
  {
    var n, id := Step(s, Rename(host)), s.hosts[host].id;
    assert ScanIsAhead(s.hosts[host], s.files);
    forall q ensures OnePlace(n.files, q) && ExecutedOnce(n, q) {
      assert OnePlace(s.files, q) && ExecutedOnce(s, q);
      if Present(s.files, q) {
        var d :| Slot(d, q) in s.files;
        assert Slot(d, q) in n.files;
      }
    }
    forall h | h in n.hosts ensures ScanIsAhead(n.hosts[h], n.files) {
      if h != host && Publishing(s.hosts[h]) {
        assert !SamePublish(s.hosts[h], s.hosts[host]);
        assert ScanIsAhead(s.hosts[h], s.files);
      }
    }
  }

  lemma HostMoveKeepsOrderly(s: Pipe, host: string, pc: HostPc)
    requires Orderly(s) && ScanIsAhead(pc, s.files)
    ensures Orderly(s.(hosts := s.hosts[host := pc]))
  {
    var n := s.(hosts := s.hosts[host := pc]);
    hide OnePlace, ScanIsAhead;
    forall id ensures ExecutedOnce(n, id) {
      assert ExecutedOnce(s, id);
    }
  }

  lemma ScanStepKeepsOrderly(s: Pipe, host: string)
    requires Orderly(s)
    ensures Orderly(Step(s, ScanNext(host)))
  {
    if host in s.hosts && s.hosts[host].Scanning? {
      var pc := s.hosts[host];
      assert ScanIsAhead(pc, s.files);
      hide Orderly;
      if pc.next < |SCAN_ORDER| && Slot(SCAN_ORDER[pc.next], pc.id) in s.files {
        HostMoveKeepsOrderly(s, host, Resting);
      } else {
        ScanStepKeepsAhead(pc, s.files);
        var next := if pc.next < |SCAN_ORDER| then Scanning(pc.id, pc.frame, pc.next + 1)
                    else Writing(pc.id, pc.frame);
        HostMoveKeepsOrderly(s, host, next);
      }
    }
  }

  lemma StepKeepsOrderly(s: Pipe, a: PipeAction)
    requires Orderly(s) && Exclusive(s)
    ensures Orderly(Step(s, a)) && MovesForward(s.files, Step(s, a).files)
  {
    hide Orderly, MovesForward;
    SelfForward(s.files);
    match a
    case BeginPublish(h, id, frame) => HostMoveKeepsOrderly(s, h, Scanning(id, frame, 0));
    case ScanNext(h) => ScanStepKeepsOrderly(s, h);
    case Rename(h) => if h in s.hosts && s.hosts[h].Writing? { RenameKeepsOrderly(s, h); }
    case BeginLocate(h, id) => HostMoveKeepsOrderly(s, h, Locating(id, 0, []));
    case LocateNext(h) =>
      if h in s.hosts && s.hosts[h].Locating? {
        HostMoveKeepsOrderly(s, h, LocateStep(s.hosts[h], s.files));
      }
    case HostStops(h) => HostMoveKeepsOrderly(s, h, Resting);
    case _ => BridgeStepKeepsOrderly(s, a);
  }

  /** Throughout the run, at most one host publishes each command id. */
  ghost predicate ExclusiveRun(s: Pipe, actions: seq<PipeAction>)
    decreases |actions|
  {
    Exclusive(s) && (actions == [] || ExclusiveRun(Step(s, actions[0]), actions[1..]))
  }

  lemma ForwardTransitive(a: Files, b: Files, c: Files)
    requires MovesForward(a, b) && MovesForward(b, c)
    ensures MovesForward(a, c)
  {
    forall d, id | Slot(d, id) in a
      ensures exists e :: Slot(e, id) in c && Rank(d) <= Rank(e) && c[Slot(e, id)] == a[Slot(d, id)]
    {
      var m :| Slot(m, id) in b && Rank(d) <= Rank(m) && b[Slot(m, id)] == a[Slot(d, id)];
      var e :| Slot(e, id) in c && Rank(m) <= Rank(e) && c[Slot(e, id)] == b[Slot(m, id)];
    }
  }

  lemma {:induction false} RunKeepsOrderly(s: Pipe, actions: seq<PipeAction>)
    requires Orderly(s) && ExclusiveRun(s, actions)
    ensures Orderly(Run(s, actions)) && MovesForward(s.files, Run(s, actions).files)
    decreases |actions|
  {
    if actions == [] {
      SelfForward(s.files);
    } else {
      hide Orderly, MovesForward, Exclusive, Step;
      var mid := Step(s, actions[0]);
      StepKeepsOrderly(s, actions[0]);
      RunKeepsOrderly(mid, actions[1..]);
      ForwardTransitive(s.files, mid.files, Run(mid, actions[1..]).files);
    }
  }

  lemma SelfForward(files: Files)
    ensures MovesForward(files, files)
  {
  }

  // ------------------------------------------------------------------------- theorems

  /** Along the whole run: one copy of each command, moved only forward with its frame, and executed at most once. */
  ghost predicate SafeRun(s: Pipe, actions: seq<PipeAction>)
    decreases |actions|
  {
    && (forall id :: OnePlace(s.files, id) && Executions(s, id) <= 1)
    && (actions != [] ==>
          MovesForward(s.files, Step(s, actions[0]).files) && SafeRun(Step(s, actions[0]), actions[1..]))
  }

  ghost predicate HarmlessRun(s: Pipe, actions: seq<PipeAction>)
    decreases |actions|
  {
    actions != [] ==> Harmless(s, actions[0]) && HarmlessRun(Step(s, actions[0]), actions[1..])
  }

  lemma {:induction false} SafeExactlyWhenHarmless(s: Pipe, actions: seq<PipeAction>)
    requires Tidy(s)
    ensures SafeRun(s, actions) <==> HarmlessRun(s, actions)
    decreases |actions|
  {
    forall id ensures OnePlace(s.files, id) && Executions(s, id) <= 1 {
      assert ExecutedOnce(s, id);
    }
    if actions != [] {
      var a, n := actions[0], Step(s, actions[0]);
      hide Step, MovesForward, ExecutedOnce, OnePlace;
      if Harmless(s, a) {
        HarmlessStepKeepsTidy(s, a);
        SafeExactlyWhenHarmless(n, actions[1..]);
      } else {
        RenameIsSafeExactlyWhenHarmless(s, a.host);
      }
    }
  }

  /**
   * For every run of hosts and bridge, crashes on both sides included, and any
   * number of hosts publishing the same id: commands stay in one place, keep
   * their frame, move only forward and are executed at most once, if and only
   * if every rename finds no copy of its command, or just its own frame in the
   * inbox.
   */
  lemma PipelineIsSafeExactlyWhenRenamesAreHarmless(actions: seq<PipeAction>)
    ensures SafeRun(EmptyPipe, actions) <==> HarmlessRun(EmptyPipe, actions)
  {
    EmptyPipeIsOrderly();
    SafeExactlyWhenHarmless(EmptyPipe, actions);
  }

  /** One publisher per id at a time is enough: its rename finds no copy at all. */
  lemma {:induction false} ExclusiveIsHarmless(s: Pipe, actions: seq<PipeAction>)
    requires Orderly(s) && ExclusiveRun(s, actions)
    ensures HarmlessRun(s, actions)
    decreases |actions|
  {
    if actions != [] {
      var a := actions[0];
      if a.Rename? && a.host in s.hosts {
        assert ScanIsAhead(s.hosts[a.host], s.files);
      }
      StepKeepsOrderly(s, a);
      hide Orderly, Exclusive, Step, Harmless;
      ExclusiveIsHarmless(Step(s, a), actions[1..]);
    }
  }

  /** With one publisher per id at a time, the whole run is safe. */
  lemma PipelineIsSafe(s: Pipe, actions: seq<PipeAction>, id: string)
    requires Orderly(s) && ExclusiveRun(s, actions)
    ensures SafeRun(s, actions)
    ensures var n := Run(s, actions);
            OnePlace(n.files, id) && Executions(n, id) <= 1 && MovesForward(s.files, n.files)
  {
    ExclusiveIsHarmless(s, actions);
    SafeExactlyWhenHarmless(s, actions);
    RunKeepsOrderly(s, actions);
    assert ExecutedOnce(Run(s, actions), id);
  }

  lemma EmptyPipeIsOrderly()
    ensures Orderly(EmptyPipe)
  {
  }

  /** A host that finishes its scan without a hit is right: the command is nowhere. */
  lemma ScanNeverMisses(actions: seq<PipeAction>, host: string)
    requires ExclusiveRun(EmptyPipe, actions)
    ensures var s := Run(EmptyPipe, actions);
            host in s.hosts && s.hosts[host].Writing? ==> !Present(s.files, s.hosts[host].id)
  {
    EmptyPipeIsOrderly();
    RunKeepsOrderly(EmptyPipe, actions);
    var s := Run(EmptyPipe, actions);
    assert host in s.hosts ==> ScanIsAhead(s.hosts[host], s.files);
  }

  function ScanActions(host: string, id: string, frame: Frame): seq<PipeAction> {
    [BeginPublish(host, id, frame)] + seq(|SCAN_ORDER| + 1, _ => ScanNext(host))
  }

  lemma RunNothing(s: Pipe)
    ensures Run(s, []) == s
  {
  }

  lemma {:induction false} RunConcat(s: Pipe, a: seq<PipeAction>, b: seq<PipeAction>)
    ensures Run(s, a + b) == Run(Run(s, a), b)
    decreases |a|
  {
    if a == [] {
      assert a + b == b;
    } else {
      assert (a + b)[1..] == a[1..] + b;
      RunConcat(Step(s, a[0]), a[1..], b);
    }
  }

  lemma {:induction false} RestOfScan(s: Pipe, host: string, n: nat)
    requires n <= |SCAN_ORDER| && host in s.hosts && s.hosts[host].Scanning? && s.hosts[host].next == n
    requires !Present(s.files, s.hosts[host].id)
    ensures Run(s, seq(|SCAN_ORDER| + 1 - n, _ => ScanNext(host))) ==
            s.(hosts := s.hosts[host := Writing(s.hosts[host].id, s.hosts[host].frame)])
    decreases |SCAN_ORDER| - n
  {
    var steps: seq<PipeAction> := seq(|SCAN_ORDER| + 1 - n, _ => ScanNext(host));
    if n == |SCAN_ORDER| {
      assert steps[1..] == [];
    } else {
      assert Slot(SCAN_ORDER[n], s.hosts[host].id) !in s.files;
      assert steps[1..] == seq(|SCAN_ORDER| + 1 - (n + 1), _ => ScanNext(host));
      RestOfScan(Step(s, ScanNext(host)), host, n + 1);
    }
  }

  lemma ScanReachesWriting(s: Pipe, host: string, id: string, frame: Frame)
    requires host !in s.hosts && !Present(s.files, id)
    ensures Run(s, ScanActions(host, id, frame)) == s.(hosts := s.hosts[host := Writing(id, frame)])
  {
    RestOfScan(Step(s, BeginPublish(host, id, frame)), host, 0);
    assert ScanActions(host, id, frame)[1..] == seq(|SCAN_ORDER| + 1, _ => ScanNext(host));
  }

  /** Both hosts scan before either writes. */
  lemma BothScan(id: string, frame: Frame) returns (actions: seq<PipeAction>, s: Pipe)
    ensures s == Pipe(map[], map["a" := Writing(id, frame), "b" := Writing(id, frame)], Ready, map[])
    ensures Run(EmptyPipe, actions) == s
  {
    var a, b := ScanActions("a", id, frame), ScanActions("b", id, frame);
    var opening := [BridgeStarts, EndRecovery] + [];
    var s0 := EmptyPipe.(bridge := Ready);
    RunTwo(EmptyPipe, BridgeStarts, EndRecovery, []);
    ScanReachesWriting(s0, "a", id, frame);
    var s1 := s0.(hosts := s0.hosts["a" := Writing(id, frame)]);
    ScanReachesWriting(s1, "b", id, frame);
    hide Run, Step;
    RunConcat(EmptyPipe, opening, a + b);
    RunConcat(s0, a, b);
    actions := opening + (a + b);
    s := s1.(hosts := s1.hosts["b" := Writing(id, frame)]);
  }

  lemma BothExecute(s: Pipe, id: string, frame: Frame) returns (actions: seq<PipeAction>)
    requires s == Pipe(map[], map["a" := Writing(id, frame), "b" := Writing(id, frame)], Ready, map[])
    ensures Executions(Run(s, actions), id) == 2
  {
    var middle := FirstExecution(s, "a", id);
    SecondExecution(middle, "b", id);
    hide Step, Run;
    var late := [Rename("b"), Claim(id)] + ([Execute] + []);
    RunTwo(s, Rename("a"), Claim(id), [Execute, Complete(Processed)] + late);
    RunTwo(Step(Step(s, Rename("a")), Claim(id)), Execute, Complete(Processed), late);
    actions := [Rename("a"), Claim(id)] + ([Execute, Complete(Processed)] + late);
  }

  /** Without the exclusion, one command id runs twice: both hosts scan before either writes. */
  lemma RacingHostsExecuteTwice(id: string, frame: Frame)
    ensures exists actions :: Executions(Run(EmptyPipe, actions), id) == 2
  {
    hide Run;
    var first, s := BothScan(id, frame);
    var second := BothExecute(s, id, frame);
    RunConcat(EmptyPipe, first, second);
    assert Executions(Run(EmptyPipe, first + second), id) == 2;
  }

  lemma SecondExecution(s: Pipe, host: string, id: string)
    requires s.bridge == Ready && s.executions == map[id := 1] && Slot(Claimed, id) !in s.files
    requires host in s.hosts && s.hosts[host].Writing? && s.hosts[host].id == id
    ensures Executions(Run(s, [Rename(host), Claim(id)] + ([Execute] + [])), id) == 2
  {
    RunTwo(s, Rename(host), Claim(id), [Execute] + []);
    assert ([Execute] + [])[1..] == [];
  }

  lemma FirstExecution(s: Pipe, host: string, id: string) returns (n: Pipe)
    requires s.files == map[] && s.bridge == Ready && s.executions == map[]
    requires host in s.hosts && s.hosts[host].Writing? && s.hosts[host].id == id
    ensures n == Step(Step(Step(Step(s, Rename(host)), Claim(id)), Execute), Complete(Processed))
    ensures n.files == map[Slot(Processed, id) := s.hosts[host].frame] && n.bridge == Ready
    ensures n.hosts == s.hosts[host := Resting] && n.executions == map[id := 1]
  {
    n := Step(Step(Step(Step(s, Rename(host)), Claim(id)), Execute), Complete(Processed));
  }

  lemma RunTwo(s: Pipe, a: PipeAction, b: PipeAction, rest: seq<PipeAction>)
    ensures Run(s, [a, b] + rest) == Run(Step(Step(s, a), b), rest)
  {
    assert ([a, b] + rest)[1..] == [b] + rest;
    assert ([b] + rest)[1..] == rest;
  }
}
