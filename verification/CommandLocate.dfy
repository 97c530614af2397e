/**
 * `locate` as the Host takes it, one directory check at a time, while the
 * bridge moves commands (qmt/commands.py): when it reports a conflict, and
 * that a single copy is enough for one.
 */
module CommandLocate {
  import opened CommandPipeline

  predicate Looking(s: Pipe, host: string, id: string) {
    host in s.hosts && s.hosts[host].Locating? && s.hosts[host].id == id
  }

  predicate Reports(s: Pipe, host: string, id: string) {
    host in s.hosts && s.hosts[host].Located? && s.hosts[host].id == id
  }

  /** The host does nothing in this run but finish the look-up it is in. */
  ghost predicate OnlyLooks(host: string, actions: seq<PipeAction>) {
    forall a :: a in actions ==> OtherActor(host, a) || a == LocateNext(host)
  }

  predicate OtherActor(host: string, a: PipeAction) {
    match a
    case BeginPublish(h, _, _) => h != host
    case ScanNext(h) => h != host
    case Rename(h) => h != host
    case BeginLocate(h, _) => h != host
    case LocateNext(h) => h != host
    case HostStops(h) => h != host
    case _ => true
  }

  /** The command is in a directory the look-up has not checked yet. */
  ghost predicate Ahead(files: Files, id: string, next: nat) {
    exists d :: Slot(d, id) in files && next <= Rank(d)
  }

  /** The bridge renames the command, already seen, into a directory that is still to be checked. */
  ghost predicate MovedAheadNow(s: Pipe, a: PipeAction, host: string, id: string) {
    && BridgeAction(a) && Looking(s, host, id) && s.hosts[host].found != []
    && exists d :: Slot(d, id) !in s.files && Slot(d, id) in Step(s, a).files && s.hosts[host].next <= Rank(d)
  }

  ghost predicate MovedAhead(s: Pipe, actions: seq<PipeAction>, host: string, id: string)
    decreases |actions|
  {
    actions != [] && (MovedAheadNow(s, actions[0], host, id) || MovedAhead(Step(s, actions[0]), actions[1..], host, id))
  }

  lemma OthersLeaveTheLook(s: Pipe, a: PipeAction, host: string)
    requires host in s.hosts && OtherActor(host, a)
    ensures host in Step(s, a).hosts && Step(s, a).hosts[host] == s.hosts[host]
  {
  }

  /** Another actor puts the command ahead of the look-up exactly by a bridge move, and never takes it back. */
  lemma OthersAhead(s: Pipe, a: PipeAction, host: string, id: string)
    requires Tidy(s) && Harmless(s, a) && Looking(s, host, id) && OtherActor(host, a)
    requires s.hosts[host].found != [] && s.hosts[host].next > 0
    ensures Ahead(Step(s, a).files, id, s.hosts[host].next) <==>
            Ahead(s.files, id, s.hosts[host].next) || MovedAheadNow(s, a, host, id)
  {
    HarmlessStepKeepsTidy(s, a);
    OnlyInboxIsWritten(s, a);
    hide Tidy, Step, Harmless;
    var n, next := Step(s, a), s.hosts[host].next;
    if Ahead(s.files, id, next) {
      var d :| Slot(d, id) in s.files && next <= Rank(d);
      var e :| Slot(e, id) in n.files && Rank(d) <= Rank(e);
    }
  }

  lemma OnlyInboxIsWritten(s: Pipe, a: PipeAction)
    ensures BridgeAction(a) || forall d, q :: Slot(d, q) in Step(s, a).files && Slot(d, q) !in s.files ==> d == Inbox
  {
  }

  /** One check: it adds the directory exactly when the command is there. */
  lemma LookStep(s: Pipe, host: string, id: string)
    requires Looking(s, host, id) && s.hosts[host].next < |SCAN_ORDER| && OnePlace(s.files, id)
    ensures var n, pc := Step(s, LocateNext(host)), s.hosts[host];
            && n.files == s.files && Looking(n, host, id) && n.hosts[host].next == pc.next + 1
            && (Slot(SCAN_ORDER[pc.next], id) in s.files ==>
                  n.hosts[host].found == pc.found + [SCAN_ORDER[pc.next]] && Ahead(s.files, id, pc.next)
                    && !Ahead(s.files, id, pc.next + 1))
            && (Slot(SCAN_ORDER[pc.next], id) !in s.files ==>
                  n.hosts[host].found == pc.found && (Ahead(s.files, id, pc.next) <==> Ahead(s.files, id, pc.next + 1)))
  {
    var pc := s.hosts[host];
    if Slot(SCAN_ORDER[pc.next], id) in s.files {
      assert Rank(SCAN_ORDER[pc.next]) == pc.next;
    }
  }

  lemma {:induction false} FinishedLookStays(s: Pipe, actions: seq<PipeAction>, host: string, id: string)
    requires Reports(s, host, id) && OnlyLooks(host, actions)
    ensures Reports(Run(s, actions), host, id) && Run(s, actions).hosts[host] == s.hosts[host]
    ensures !MovedAhead(s, actions, host, id)
    decreases |actions|
  {
    if actions != [] {
      var a := actions[0];
      if OtherActor(host, a) {
        OthersLeaveTheLook(s, a, host);
      }
      hide Step;
      assert forall b :: b in actions[1..] ==> b in actions;
      if a == LocateNext(host) {
        FinishedLookIdles(s, host);
      }
      FinishedLookStays(Step(s, a), actions[1..], host, id);
    }
  }

  lemma FinishedLookIdles(s: Pipe, host: string)
    requires host in s.hosts && s.hosts[host].Located?
    ensures Step(s, LocateNext(host)) == s
  {
  }

  /** From any point of a look-up: how many directories it will have reported. */
  lemma {:induction false} LookReports(s: Pipe, actions: seq<PipeAction>, host: string, id: string)
    requires Tidy(s) && HarmlessRun(s, actions) && OnlyLooks(host, actions)
    requires Looking(s, host, id) && s.hosts[host].next <= |SCAN_ORDER|
             && (s.hosts[host].found != [] ==> s.hosts[host].next > 0)
    requires Reports(Run(s, actions), host, id)
    ensures |Run(s, actions).hosts[host].found| > 1 <==>
            || |s.hosts[host].found| > 1
            || (s.hosts[host].found != [] && Ahead(s.files, id, s.hosts[host].next))
            || MovedAhead(s, actions, host, id)
    decreases |actions|
  {
    if actions == [] {
      assert false;
    } else {
      var a, rest, n, pc := actions[0], actions[1..], Step(s, actions[0]), s.hosts[host];
      assert OnePlace(s.files, id) && Harmless(s, a);
      assert forall b :: b in rest ==> b in actions;
      HarmlessStepKeepsTidy(s, a);
      hide Tidy, Harmless, MovesForward, OnePlace;
      if a == LocateNext(host) {
        NoBridgeMove(s, host, id);
        if pc.next < |SCAN_ORDER| {
          LookStep(s, host, id);
          hide Step, Ahead, MovedAheadNow;
          LookReports(n, rest, host, id);
        } else {
          LookEnds(s, host, id);
          hide Step, Ahead, MovedAheadNow;
          FinishedLookStays(n, rest, host, id);
        }
      } else {
        OthersLeaveTheLook(s, a, host);
        if pc.found != [] {
          OthersAhead(s, a, host, id);
        }
        hide Step, Ahead;
        LookReports(n, rest, host, id);
      }
    }
  }

  lemma NoBridgeMove(s: Pipe, host: string, id: string)
    ensures !MovedAheadNow(s, LocateNext(host), host, id)
  {
  }

  lemma LookEnds(s: Pipe, host: string, id: string)
    requires Looking(s, host, id) && s.hosts[host].next >= |SCAN_ORDER|
    ensures Step(s, LocateNext(host)).hosts[host] == Located(id, s.hosts[host].found)
    ensures host in Step(s, LocateNext(host)).hosts && !Ahead(s.files, id, s.hosts[host].next)
  {
  }

  lemma {:induction false} HarmlessRunKeepsTidy(s: Pipe, actions: seq<PipeAction>)
    requires Tidy(s) && HarmlessRun(s, actions)
    ensures Tidy(Run(s, actions))
    decreases |actions|
  {
    if actions != [] {
      hide Tidy, Harmless, Step;
      HarmlessStepKeepsTidy(s, actions[0]);
      HarmlessRunKeepsTidy(Step(s, actions[0]), actions[1..]);
    }
  }

  /**
   * For every history and every interleaving of one look-up: it reports a
   * conflict exactly when the bridge moved the command, after the look-up had
   * seen it, into a directory still to be checked. There is one copy
   * throughout.
   */
  lemma ConflictExactlyWhenMovedAhead(before: seq<PipeAction>, during: seq<PipeAction>, host: string, id: string)
    requires HarmlessRun(EmptyPipe, before)
    requires var s := Run(EmptyPipe, before);
             && host in s.hosts && s.hosts[host] == Locating(id, 0, [])
             && HarmlessRun(s, during) && OnlyLooks(host, during) && Reports(Run(s, during), host, id)
    ensures var s := Run(EmptyPipe, before);
            && (|Run(s, during).hosts[host].found| > 1 <==> MovedAhead(s, during, host, id))
            && OnePlace(s.files, id) && OnePlace(Run(s, during).files, id)
  {
    EmptyPipeIsOrderly();
    HarmlessRunKeepsTidy(EmptyPipe, before);
    var s := Run(EmptyPipe, before);
    LookReports(s, during, host, id);
    HarmlessRunKeepsTidy(s, during);
  }

  // -------------------------------------------------------------------------- a witness

  /** One host, one command in the inbox, a running bridge, a look-up about to start. */
  function Waiting(id: string, frame: Frame): Pipe {
    Pipe(map[Slot(Inbox, id) := frame], map["h" := Locating(id, 0, [])], Ready, map[])
  }

  lemma BridgeOpens()
    ensures Step(Step(EmptyPipe, BridgeStarts), EndRecovery) == EmptyPipe.(bridge := Ready)
  {
  }

  lemma HostLooks(s: Pipe, id: string, frame: Frame)
    requires s == Pipe(map[], map["h" := Writing(id, frame)], Ready, map[])
    ensures Step(Step(s, Rename("h")), BeginLocate("h", id)) == Waiting(id, frame)
  {
  }

  lemma EmptyRun(s: Pipe)
    ensures Run(s, []) == s
  {
  }

  lemma WaitingIsReached(id: string, frame: Frame) returns (before: seq<PipeAction>)
    ensures Run(EmptyPipe, before) == Waiting(id, frame) && HarmlessRun(EmptyPipe, before)
  {
    hide Tidy, Moved, Harmless, Step, Run;
    var opening := [BridgeStarts, EndRecovery] + [];
    var publish := ScanActions("h", id, frame);
    var closing := [Rename("h"), BeginLocate("h", id)] + [];
    var s0 := EmptyPipe.(bridge := Ready);
    BridgeOpens();
    RunTwo(EmptyPipe, BridgeStarts, EndRecovery, []);
    ScanReachesWriting(s0, "h", id, frame);
    var s1 := s0.(hosts := s0.hosts["h" := Writing(id, frame)]);
    RunTwo(s1, Rename("h"), BeginLocate("h", id), []);
    HostLooks(s1, id, frame);
    EmptyRun(s0);
    EmptyRun(Waiting(id, frame));
    before := opening + (publish + closing);
    RunConcat(EmptyPipe, opening, publish + closing);
    RunConcat(s0, publish, closing);
    EmptyPipeIsOrderly();
    OneHostIsExclusive(EmptyPipe, before, "h");
    ExclusiveIsHarmless(EmptyPipe, before);
  }

  predicate OnlyHost(a: PipeAction, host: string) {
    match a
    case BeginPublish(h, _, _) => h == host
    case BeginLocate(h, _) => h == host
    case _ => true
  }

  lemma NoOtherHostAppears(s: Pipe, a: PipeAction, host: string)
    requires s.hosts.Keys <= {host} && OnlyHost(a, host)
    ensures Step(s, a).hosts.Keys <= {host}
  {
    hide Moved, LocateStep;
  }

  /** A single host is its own exclusion. */
  lemma {:induction false} OneHostIsExclusive(s: Pipe, actions: seq<PipeAction>, host: string)
    requires s.hosts.Keys <= {host} && forall a :: a in actions ==> OnlyHost(a, host)
    ensures ExclusiveRun(s, actions)
    decreases |actions|
  {
    if actions != [] {
      assert forall b :: b in actions[1..] ==> b in actions;
      assert OnlyHost(actions[0], host);
      NoOtherHostAppears(s, actions[0], host);
      hide Step;
      OneHostIsExclusive(Step(s, actions[0]), actions[1..], host);
    }
  }

  /** `locate` reports a conflict for a command that never had two copies: claimed between the first two checks. */
  lemma OneCopyCanConflict(id: string, frame: Frame)
    ensures exists before, during ::
              && HarmlessRun(EmptyPipe, before) && HarmlessRun(Run(EmptyPipe, before), during)
              && SafeRun(EmptyPipe, before + during)
              && var n := Run(EmptyPipe, before + during);
                 Reports(n, "h", id) && n.hosts["h"].found == [Inbox, Claimed]
  {
    var before := WaitingIsReached(id, frame);
    var s := Waiting(id, frame);
    var during, n := ClaimedWhileLooking(id, frame);
    RunConcat(EmptyPipe, before, during);
    EmptyPipeIsOrderly();
    HarmlessRunKeepsTidy(EmptyPipe, before);
    HarmlessConcat(EmptyPipe, before, during);
    PipelineIsSafeExactlyWhenRenamesAreHarmless(before + during);
    assert Run(EmptyPipe, before + during) == n;
  }

  lemma {:induction false} HarmlessConcat(s: Pipe, a: seq<PipeAction>, b: seq<PipeAction>)
    requires HarmlessRun(s, a) && HarmlessRun(Run(s, a), b)
    ensures HarmlessRun(s, a + b)
    decreases |a|
  {
    if a == [] {
      assert a + b == b;
    } else {
      hide Step, Harmless;
      assert (a + b)[1..] == a[1..] + b;
      HarmlessConcat(Step(s, a[0]), a[1..], b);
    }
  }

  lemma ClaimedWhileLooking(id: string, frame: Frame) returns (during: seq<PipeAction>, n: Pipe)
    ensures Run(Waiting(id, frame), during) == n && HarmlessRun(Waiting(id, frame), during)
    ensures Reports(n, "h", id) && n.hosts["h"].found == [Inbox, Claimed]
  {
    var s := Waiting(id, frame);
    var first := [LocateNext("h"), Claim(id)] + [];
    var look: seq<PipeAction> := seq(|SCAN_ORDER|, _ => LocateNext("h"));
    during := first + look;
    NoRenameIsHarmless(s, during);
    var mid := SeenThenClaimed(id, frame);
    RunTwo(s, LocateNext("h"), Claim(id), []);
    n := SeenAgain(mid, id);
    hide Step, Run;
    RunNothing(mid);
    RunConcat(s, first, look);
  }

  lemma SeenThenClaimed(id: string, frame: Frame) returns (mid: Pipe)
    ensures mid == Step(Step(Waiting(id, frame), LocateNext("h")), Claim(id))
    ensures mid.files == map[Slot(Claimed, id) := frame]
    ensures "h" in mid.hosts && mid.hosts["h"] == Locating(id, 1, [Inbox])
  {
    mid := Step(Step(Waiting(id, frame), LocateNext("h")), Claim(id));
  }

  lemma SeenAgain(s: Pipe, id: string) returns (n: Pipe)
    requires "h" in s.hosts && s.hosts["h"] == Locating(id, 1, [Inbox])
    requires Slot(Claimed, id) in s.files && forall d :: Slot(d, id) in s.files ==> d == Claimed
    ensures n == Run(s, seq(|SCAN_ORDER|, _ => LocateNext("h")))
    ensures Reports(n, "h", id) && n.hosts["h"].found == [Inbox, Claimed]
  {
    var look: seq<PipeAction> := seq(|SCAN_ORDER|, _ => LocateNext("h"));
    var next := Step(s, LocateNext("h"));
    assert look[1..] == seq(|SCAN_ORDER| + 1 - 2, _ => LocateNext("h"));
    n := Run(s, look);
    assert n == Run(next, look[1..]);
    assert next.hosts["h"] == Locating(id, 2, [Inbox] + [Claimed]);
    hide Run;
    RestOfLook(next, "h", 2);
  }

  /** Nothing more to see: the look-up runs to its end. */
  lemma {:induction false} RestOfLook(s: Pipe, host: string, n: nat)
    requires n <= |SCAN_ORDER| && host in s.hosts && s.hosts[host].Locating? && s.hosts[host].next == n
    requires !Ahead(s.files, s.hosts[host].id, n)
    ensures Run(s, seq(|SCAN_ORDER| + 1 - n, _ => LocateNext(host))) ==
            s.(hosts := s.hosts[host := Located(s.hosts[host].id, s.hosts[host].found)])
    decreases |SCAN_ORDER| - n
  {
    var steps: seq<PipeAction> := seq(|SCAN_ORDER| + 1 - n, _ => LocateNext(host));
    if n == |SCAN_ORDER| {
      assert steps[1..] == [];
    } else {
      assert Slot(SCAN_ORDER[n], s.hosts[host].id) !in s.files;
      assert steps[1..] == seq(|SCAN_ORDER| + 1 - (n + 1), _ => LocateNext(host));
      RestOfLook(Step(s, LocateNext(host)), host, n + 1);
    }
  }

  lemma {:induction false} NoRenameIsHarmless(s: Pipe, actions: seq<PipeAction>)
    requires forall a :: a in actions ==> !a.Rename?
    ensures HarmlessRun(s, actions)
    decreases |actions|
  {
    if actions != [] {
      hide Step;
      assert forall b :: b in actions[1..] ==> b in actions;
      NoRenameIsHarmless(Step(s, actions[0]), actions[1..]);
    }
  }
}
