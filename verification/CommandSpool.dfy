/**
 * The two processes at the command spool as they run: the Host's publisher
 * (qmt/commands.py), whose directory checks the bridge can interleave with,
 * and the bridge's drain and orphan-recovery loops
 * (BIGQMT_EXECUTION_BRIDGE_V05.py).
 */
module CommandSpool {
  import opened Basics
  import opened Clocks
  import opened CommandPipeline

  datatype PublishError = Expired | Conflict | Vanished

  /** Stands for whatever frame a scan is for. */
  const NO_FRAME := Frame("", 0)

  // ------------------------------------------------------------------------- the Host

  datatype BridgeMove = BridgeMove(id: string, from: Dir, to: Dir)

  ghost predicate AllInOnePlace(files: Files) {
    forall id :: OnePlace(files, id)
  }

  /** All the bridge can do to the files: move commands forward. */
  ghost predicate BridgeOnly(was: Files, now: Files) {
    && MovesForward(was, now)
    && (forall id :: Present(now, id) ==> Present(was, id))
    && (forall id :: OnePlace(was, id) ==> OnePlace(now, id))
  }

  lemma BridgeOnlyTransitive(a: Files, b: Files, c: Files)
    requires BridgeOnly(a, b) && BridgeOnly(b, c)
    ensures BridgeOnly(a, c)
  {
    hide MovesForward, Present, OnePlace;
    ForwardTransitive(a, b, c);
  }

  lemma BridgeOnlyReflexive(files: Files)
    ensures BridgeOnly(files, files)
  {
    SelfForward(files);
  }

  /** Directories already checked stay without the command while the bridge works. */
  lemma CheckedStaysAhead(was: Files, now: Files, id: string, n: nat)
    requires AllInOnePlace(was) && BridgeOnly(was, now) && n <= |SCAN_ORDER|
    requires ScanIsAhead(Scanning(id, NO_FRAME, n), was)
    ensures ScanIsAhead(Scanning(id, NO_FRAME, n), now)
  {
    forall d | Slot(d, id) in now ensures n <= Rank(d) {
      assert Present(now, id) && OnePlace(now, id);
      var e :| Slot(e, id) in was;
    }
  }

  lemma MoveIsBridgeOnly(files: Files, id: string, from: Dir, to: Dir)
    requires AllInOnePlace(files) && Slot(from, id) in files && Rank(from) < Rank(to)
    ensures BridgeOnly(files, Moved(files, id, from, to)) && AllInOnePlace(Moved(files, id, from, to))
  {
    hide OnePlace, MovesForward, Present, Moved;
    BridgeMoveIsForward(files, id, from, to);
  }

  /** Every step of a running bridge is such a move. */
  lemma BridgeStepsAreBridgeOnly(s: Pipe, a: PipeAction)
    requires Orderly(s) && BridgeAction(a)
    ensures BridgeOnly(s.files, Step(s, a).files)
  {
    var n := Step(s, a);
    if n.files == s.files {
      BridgeOnlyReflexive(s.files);
    } else {
      var id := if a.Complete? then s.bridge.id else a.id;
      var from := if a.Claim? then Inbox else Claimed;
      var to := if a.Claim? then Claimed else if a.MoveOrphan? then Unresolved else a.dir;
      assert n.files == Moved(s.files, id, from, to);
      hide Step;
      BridgeMoveIsForward(s.files, id, from, to);
    }
  }

  /** The files as each check saw them, with nothing but bridge moves in between. */
  ghost predicate Moments(was: Files, moments: seq<Files>, now: Files) {
    if moments == [] then was == now
    else
      && moments[|moments| - 1] == now
      && exists before :: Moments(was, moments[..|moments| - 1], before) && BridgeOnly(before, now)
  }

  /** The directories that showed the command, each at the moment it was checked. */
  function SeenIn(moments: seq<Files>, id: string): seq<Dir>
    requires |moments| <= |SCAN_ORDER|
  {
    if moments == [] then []
    else
      var n := |moments| - 1;
      SeenIn(moments[..n], id) + (if Slot(SCAN_ORDER[n], id) in moments[n] then [SCAN_ORDER[n]] else [])
  }

  lemma NextMoment(was: Files, moments: seq<Files>, before: Files, now: Files, id: string)
    requires Moments(was, moments, before) && BridgeOnly(before, now) && |moments| < |SCAN_ORDER|
    ensures Moments(was, moments + [now], now)
    ensures SeenIn(moments + [now], id) ==
            SeenIn(moments, id) + (if Slot(SCAN_ORDER[|moments|], id) in now then [SCAN_ORDER[|moments|]] else [])
  {
    hide BridgeOnly;
    assert (moments + [now])[..|moments|] == moments;
  }

  class QmtCommandSpool {
    var files: Files

    constructor ()
      ensures files == map[]
    {
      files := map[];
    }

    /** Whatever the bridge does between two file operations of the Host, and however long it takes. */
    method BridgeActs(clock: Clock)
      requires AllInOnePlace(files)
      modifies this, clock
      ensures BridgeOnly(old(files), files) && AllInOnePlace(files)
      ensures old(clock.now) <= clock.now
    {
      hide BridgeOnly, AllInOnePlace, Moved;
      var _ := clock.Read();
      BridgeOnlyReflexive(files);
      var moves: seq<BridgeMove> := *;
      for i := 0 to |moves|
        invariant BridgeOnly(old(files), files) && AllInOnePlace(files) && old(clock.now) <= clock.now
      {
        var m := moves[i];
        if Slot(m.from, m.id) in files && Rank(m.from) < Rank(m.to) {
          ghost var before := files;
          MoveIsBridgeOnly(files, m.id, m.from, m.to);
          files := Moved(files, m.id, m.from, m.to);
          BridgeOnlyTransitive(old(files), before, files);
        }
      }
    }

    /** The scan checks one directory at a time and never misses a command that was there when it began. */
    method FindExisting(id: string, clock: Clock) returns (found: Option<Dir>)
      requires AllInOnePlace(files)
      modifies this, clock
      ensures old(clock.now) <= clock.now
      ensures BridgeOnly(old(files), files) && AllInOnePlace(files)
      ensures found.None? <==> !Present(files, id)
      ensures found.Some? ==> Slot(found.value, id) in files
    {
      BridgeOnlyReflexive(files);
      var n := 0;
      while n < |SCAN_ORDER|
        invariant BridgeOnly(old(files), files) && AllInOnePlace(files) && old(clock.now) <= clock.now
        invariant n <= |SCAN_ORDER| && ScanIsAhead(Scanning(id, NO_FRAME, n), files)
      {
        hide MovesForward;
        ghost var before := files;
        BridgeActs(clock);
        BridgeOnlyTransitive(old(files), before, files);
        CheckedStaysAhead(before, files, id, n);
        if Slot(SCAN_ORDER[n], id) in files {
          return Some(SCAN_ORDER[n]);
        }
        n := n + 1;
      }
      found := None;
    }

    /**
     * Publishes a new frame, or recognises the same one; a frame already
     * stored is never replaced. The expiry is compared with `checked`, when
     * the call begins; the file appears at `written`, after the scan.
     */
    method Publish(id: string, frame: Frame, clock: Clock)
        returns (r: Result<Dir, PublishError>, ghost checked: int, ghost written: int)
      requires AllInOnePlace(files)
      modifies this, clock
      ensures old(clock.now) <= checked <= written == clock.now
      ensures AllInOnePlace(files)
      ensures MovesForward(old(files), files)
      ensures frame.expires <= checked <==> r == Err(Expired)
      ensures r == Err(Expired) ==> files == old(files)
      ensures !old(Present(files, id)) && checked < frame.expires ==> r == Ok(Inbox)
      ensures r.Ok? ==> Slot(r.value, id) in files && files[Slot(r.value, id)] == frame
      ensures r == Err(Conflict) ==> exists d :: Slot(d, id) in files && files[Slot(d, id)] != frame
      ensures old(Present(files, id)) || r.Err? ==> BridgeOnly(old(files), files)
      ensures forall q :: q != id && Present(files, q) ==> old(Present(files, q))
    {
      hide OnePlace, MovesForward;
      BridgeOnlyReflexive(files);
      var now := clock.Read();
      checked, written := now, now;
      if frame.expires <= now {
        return Err(Expired), checked, written;
      }
      var existing := FindExisting(id, clock);
      written := clock.now;
      ghost var scanned := files;
      assert BridgeOnly(old(files), scanned);
      if existing.Some? {
        NeverCreated(old(files), scanned, id);
        BridgeActs(clock);
        BridgeOnlyTransitive(old(files), scanned, files);
        written := clock.now;
        if Slot(existing.value, id) !in files {
          return Err(Vanished), checked, written;
        }
        return if files[Slot(existing.value, id)] == frame then Ok(existing.value) else Err(Conflict), checked, written;
      }
      var _ := clock.Read();
      written := clock.now;
      files := files[Slot(Inbox, id) := frame];
      r := Ok(Inbox);
      WriteIsForward(scanned, id, frame);
      ForwardTransitive(old(files), scanned, files);
      StillAbsent(old(files), scanned, id);
      forall q | q != id && Present(files, q) ensures old(Present(files, q)) {
        assert Present(scanned, q);
      }
    }

    /**
     * Collects every directory that shows the command at the moment it is
     * checked. A command that was there is found; it is a conflict exactly
     * when more than one check saw it.
     */
    method Locate(id: string, clock: Clock) returns (r: Result<Option<Dir>, PublishError>, ghost moments: seq<Files>)
      requires AllInOnePlace(files)
      modifies this, clock
      ensures old(clock.now) <= clock.now
      ensures BridgeOnly(old(files), files) && AllInOnePlace(files)
      ensures old(Present(files, id)) ==> r != Ok(None)
      ensures r.Ok? && r.value.Some? ==> old(Present(files, id))
      ensures r.Ok? && r.value.Some? ==>
                && (forall d :: Slot(d, id) in old(files) ==> Rank(d) <= Rank(r.value.value))
                && (forall d :: Slot(d, id) in files ==> Rank(r.value.value) <= Rank(d))
      ensures r.Err? ==> r == Err(Conflict) && exists d :: Slot(d, id) in old(files) && Slot(d, id) !in files
      ensures Moments(old(files), moments, files) && |moments| == |SCAN_ORDER|
      ensures r.Err? <==> |SeenIn(moments, id)| > 1
      ensures r.Ok? ==> SeenIn(moments, id) == if r.value.Some? then [r.value.value] else []
    {
      hide BridgeOnly, AllInOnePlace, Moments, SeenIn, LookedSoFar, Present, MovesForward, Rank;
      LookBegins(files, id);
      var found: seq<Dir> := [];
      moments := [];
      var n := 0;
      while n < |SCAN_ORDER|
        invariant n == |moments| <= |SCAN_ORDER| && old(clock.now) <= clock.now
        invariant Moments(old(files), moments, files) && found == SeenIn(moments, id)
        invariant BridgeOnly(old(files), files) && AllInOnePlace(files)
        invariant LookedSoFar(old(files), files, id, n, found)
      {
        ghost var before := files;
        BridgeActs(clock);
        BridgeOnlyTransitive(old(files), before, files);
        NextMoment(old(files), moments, before, files, id);
        NextLook(old(files), before, files, id, n, found);
        if Slot(SCAN_ORDER[n], id) in files {
          found := found + [SCAN_ORDER[n]];
        }
        moments := moments + [files];
        n := n + 1;
      }
      WholeLook(old(files), files, id, found);
      if |found| > 1 {
        return Err(Conflict), moments;
      }
      r := Ok(if found == [] then None else Some(found[0]));
    }
  }

  /** What a look-up that checked `n` directories and saw the command in `found` of them knows. */
  ghost predicate LookedSoFar(was: Files, now: Files, id: string, n: nat, found: seq<Dir>) {
    && n <= |SCAN_ORDER|
    && (found == [] ==> ScanIsAhead(Scanning(id, NO_FRAME, n), now))
    && (found != [] ==>
          && Present(was, id) && Rank(found[|found| - 1]) < n
          && (forall d :: Slot(d, id) in was ==> Rank(d) <= Rank(found[0]))
          && (forall d :: Slot(d, id) in now ==> Rank(found[|found| - 1]) <= Rank(d)))
    && (|found| > 1 ==> Rank(found[0]) < Rank(found[|found| - 1]))
  }

  lemma LookBegins(files: Files, id: string)
    ensures BridgeOnly(files, files) && LookedSoFar(files, files, id, 0, [])
    ensures Moments(files, [], files) && SeenIn([], id) == []
  {
    BridgeOnlyReflexive(files);
  }

  lemma NextLook(was: Files, before: Files, now: Files, id: string, n: nat, found: seq<Dir>)
    requires LookedSoFar(was, before, id, n, found) && n < |SCAN_ORDER|
    requires AllInOnePlace(before) && AllInOnePlace(now) && BridgeOnly(was, now) && BridgeOnly(before, now)
    ensures LookedSoFar(was, now, id, n + 1, if Slot(SCAN_ORDER[n], id) in now then found + [SCAN_ORDER[n]] else found)
  {
    CheckedStaysAhead(before, now, id, if found == [] then n else Rank(found[|found| - 1]));
    if Slot(SCAN_ORDER[n], id) in now {
      FoundWasPresent(was, now, id, SCAN_ORDER[n]);
    }
    hide BridgeOnly, AllInOnePlace;
  }

  lemma WholeLook(was: Files, now: Files, id: string, found: seq<Dir>)
    requires LookedSoFar(was, now, id, |SCAN_ORDER|, found) && BridgeOnly(was, now)
    ensures found == [] <==> !Present(was, id)
    ensures |found| > 1 ==> exists d :: Slot(d, id) in was && Slot(d, id) !in now
    ensures |found| == 1 ==>
              && (forall d :: Slot(d, id) in was ==> Rank(d) <= Rank(found[0]))
              && (forall d :: Slot(d, id) in now ==> Rank(found[0]) <= Rank(d))
  {
    if Present(was, id) {
      PresenceLasts(was, now, id);
      hide BridgeOnly;
      if |found| > 1 {
        var d :| Slot(d, id) in was;
        assert Slot(d, id) !in now;
      }
    }
  }

  lemma WriteIsForward(files: Files, id: string, frame: Frame)
    requires !Present(files, id) && AllInOnePlace(files)
    ensures MovesForward(files, files[Slot(Inbox, id) := frame])
    ensures AllInOnePlace(files[Slot(Inbox, id) := frame])
    ensures forall q :: q != id && Present(files[Slot(Inbox, id) := frame], q) ==> Present(files, q)
  {
    var n := files[Slot(Inbox, id) := frame];
    forall d, q | Slot(d, q) in files
      ensures exists e :: Slot(e, q) in n && Rank(d) <= Rank(e) && n[Slot(e, q)] == files[Slot(d, q)]
    {
      assert Slot(d, q) in n;
    }
    forall q ensures OnePlace(n, q) {
      assert OnePlace(files, q);
    }
    forall q | q != id && Present(n, q) ensures Present(files, q) {
      var d :| Slot(d, q) in n;
      assert Slot(d, q) in files;
    }
  }

  lemma PresenceLasts(was: Files, now: Files, id: string)
    requires BridgeOnly(was, now) && Present(was, id)
    ensures Present(now, id)
  {
  }

  lemma NeverCreated(was: Files, now: Files, id: string)
    requires BridgeOnly(was, now) && Present(now, id)
    ensures Present(was, id)
  {
  }

  lemma StillAbsent(was: Files, now: Files, id: string)
    requires BridgeOnly(was, now) && !Present(now, id)
    ensures !Present(was, id)
  {
    if Present(was, id) {
      PresenceLasts(was, now, id);
    }
  }

  lemma FoundWasPresent(was: Files, now: Files, id: string, d: Dir)
    requires BridgeOnly(was, now) && AllInOnePlace(now) && Slot(d, id) in now
    ensures Present(was, id) && forall e :: Slot(e, id) in was ==> Rank(e) <= Rank(d)
    ensures forall e :: Slot(e, id) in now ==> e == d
  {
    assert Present(now, id) && OnePlace(now, id);
  }

  // ----------------------------------------------------------------------- the bridge

  /** How processing one claimed command ends. */
  datatype Verdict = Unreadable | TooLate | SnapshotTaken | SnapshotFailed | GateRejected | BrokerRaised | Done

  function Target(v: Verdict): Dir {
    match v
    case Unreadable | TooLate | GateRejected => Declined
    case SnapshotFailed | BrokerRaised => Unresolved
    case SnapshotTaken | Done => Processed
  }

  predicate Executes(v: Verdict) { v in {GateRejected, BrokerRaised, Done} }

  /**
   * A verdict, and which of the renames around it fail: the claim, the completing one,
   * and the fallback to `unknown`.
   */
  datatype Fate = Fate(verdict: Verdict, claimFails: bool, moveFails: bool, fallbackFails: bool)

  function Lands(f: Fate): Dir {
    if f.claimFails then Inbox else if !f.moveFails then Target(f.verdict) else if !f.fallbackFails then Unresolved
      else Claimed
  }

  predicate Executed(f: Fate) { !f.claimFails && Executes(f.verdict) }

  /** What the terminal and the disk will do to a command, if the bridge finds it in time. */
  type Timely = f: Fate | !f.verdict.TooLate? witness Fate(Done, false, false, false)

  /** The bridge's own expiry check comes before everything but reading the frame. */
  function Judged(f: Timely, frame: Frame, now: int): Fate {
    if f.verdict != Unreadable && frame.expires <= now then f.(verdict := TooLate) else f
  }

  /** Only frames that were in time at the check are executed. */
  lemma ExecutedInTime(f: Timely, frame: Frame, now: int)
    ensures Executed(Judged(f, frame, now)) <==> Executed(f) && now < frame.expires
    ensures Judged(f, frame, now).verdict == TooLate <==> f.verdict != Unreadable && frame.expires <= now
  {
  }

  /**
   * Where a claimed command ends when its last rename works, told from what
   * happened to it: `processed` if its snapshot was taken or its broker call
   * returned, `rejected` if it could not be read, had expired at the check or
   * was refused by the safety gate, `unknown` if the snapshot failed or the
   * call raised.
   */
  ghost predicate EndsAsItWent(now: Files, id: string, f: Timely, frame: Frame, checked: int) {
    && (Slot(Processed, id) in now <==> f.verdict in {SnapshotTaken, Done} && checked < frame.expires)
    && (Slot(Declined, id) in now <==> f.verdict in {Unreadable, GateRejected} || frame.expires <= checked)
    && (Slot(Unresolved, id) in now <==> f.verdict in {SnapshotFailed, BrokerRaised} && checked < frame.expires)
    && Slot(Inbox, id) !in now && Slot(Claimed, id) !in now
  }

  /** The same when renames fail: the claim, or the completing one, or its fallback too. */
  ghost predicate EndsWhereItCould(now: Files, id: string, f: Timely, frame: Frame, checked: int) {
    if f.claimFails then forall d :: Slot(d, id) in now <==> d == Inbox
    else if !f.moveFails then EndsAsItWent(now, id, f, frame, checked)
    else forall d :: Slot(d, id) in now <==> d == if f.fallbackFails then Claimed else Unresolved
  }

  lemma LandsWhereItCould(now: Files, id: string, f: Timely, frame: Frame, checked: int)
    requires forall d :: Slot(d, id) in now <==>
                         d == Lands(if f.claimFails then f else Judged(f, frame, checked))
    ensures EndsWhereItCould(now, id, f, frame, checked)
  {
  }

  /** The commands of the batch that were waiting and whose claim worked. */
  function TakenFrom(was: Files, names: seq<string>, offered: map<string, Timely>): set<string>
    requires forall id :: id in names ==> id in offered
  {
    set id | id in names && Slot(Inbox, id) in was && !offered[id].claimFails
  }

  /** Commands taken from the batch ended where what happened to them says. */
  ghost predicate AllEndAsTheyWent(was: Files, now: Files, names: seq<string>, offered: map<string, Timely>,
                                   checks: map<string, int>)
    requires forall id :: id in names ==> id in offered
  {
    forall id :: id in names && Slot(Inbox, id) in was ==>
      && (!offered[id].claimFails ==> id in checks)
      && EndsWhereItCould(now, id, offered[id], was[Slot(Inbox, id)], if id in checks then checks[id] else 0)
  }

  lemma DrainedEndAsTheyWent(was: Pipe, now: Pipe, names: seq<string>, offered: map<string, Timely>,
                             fates: map<string, Fate>, checks: map<string, int>, since: int, until: int)
    requires (forall id :: id in names ==> id in offered) && fates.Keys == offered.Keys
    requires Drained(was, now, names, fates)
    requires JudgedAtChecks(was.files, names, offered, fates, checks, since, until)
    ensures AllEndAsTheyWent(was.files, now.files, names, offered, checks)
  {
    hide Judged, Lands, Executed, EndsWhereItCould;
    forall id | id in names && Slot(Inbox, id) in was.files
      ensures !offered[id].claimFails ==> id in checks
      ensures EndsWhereItCould(now.files, id, offered[id], was.files[Slot(Inbox, id)],
                               if id in checks then checks[id] else 0)
    {
      LandsWhereItCould(now.files, id, offered[id], was.files[Slot(Inbox, id)], if id in checks then checks[id] else 0);
    }
  }

  /** Claim, process and complete one command, as pipeline steps. */
  function Handling(id: string, f: Fate): seq<PipeAction> {
    if f.claimFails then []
    else if Executes(f.verdict) then [Claim(id), Execute, Ending(f)]
    else [Claim(id), Ending(f)]
  }

  function Handled(s: Pipe, id: string, f: Fate): Pipe
    requires Slot(Inbox, id) in s.files
  {
    if f.claimFails then s
    else
      var claimed := Moved(s.files, id, Inbox, Claimed);
      Pipe(if Lands(f) == Claimed then claimed else Moved(claimed, id, Claimed, Lands(f)), s.hosts, Ready,
           if Executes(f.verdict) then s.executions[id := Executions(s, id) + 1] else s.executions)
  }

  lemma ClaimStep(s: Pipe, id: string)
    requires s.bridge == Ready && Slot(Inbox, id) in s.files && Slot(Claimed, id) !in s.files
    ensures Step(s, Claim(id)) == s.(files := Moved(s.files, id, Inbox, Claimed), bridge := Holding(id, false))
    ensures Slot(Claimed, id) in Moved(s.files, id, Inbox, Claimed)
  {
  }

  function Ending(f: Fate): PipeAction { if Lands(f) == Claimed then MoveFails else Complete(Lands(f)) }

  lemma EndingStep(s: Pipe, id: string, executed: bool, f: Fate)
    requires s.bridge == Holding(id, executed) && Slot(Claimed, id) in s.files && !f.claimFails
    ensures Step(s, Ending(f)) ==
            s.(files := if Lands(f) == Claimed then s.files else Moved(s.files, id, Claimed, Lands(f)), bridge := Ready)
  {
    hide Moved;
  }

  lemma HandlingRuns(s: Pipe, id: string, f: Fate)
    requires s.bridge == Ready && Slot(Inbox, id) in s.files && Slot(Claimed, id) !in s.files
    ensures Run(s, Handling(id, f)) == Handled(s, id, f)
  {
    if !f.claimFails {
      var claimed := Step(s, Claim(id));
      ClaimStep(s, id);
      EndingStep(claimed, id, false, f);
      if Executes(f.verdict) {
        var executed := Step(claimed, Execute);
        assert executed == claimed.(bridge := Holding(id, true),
                                    executions := s.executions[id := Executions(s, id) + 1]);
        EndingStep(executed, id, true, f);
        hide Moved, Executes, Lands, Step, Run;
        RunTwo(s, Claim(id), Execute, [Ending(f)]);
        LastStep(executed, Ending(f));
        assert [Claim(id), Execute] + [Ending(f)] == [Claim(id), Execute, Ending(f)];
      } else {
        hide Moved, Executes, Lands, Step, Run;
        RunTwo(s, Claim(id), Ending(f), []);
        RunNothing(Step(claimed, Ending(f)));
        assert Handling(id, f) == [Claim(id), Ending(f)] + [];
      }
    }
  }

  lemma OrphanMoves(s: Pipe, id: string)
    requires s.bridge == BridgePc.Recovering && Slot(Claimed, id) in s.files
    ensures Step(s, MoveOrphan(id)) == s.(files := Moved(s.files, id, Claimed, Unresolved))
    ensures forall d, q ::
              Slot(d, q) in Moved(s.files, id, Claimed, Unresolved) <==>
              if q == id && d == Claimed then false else Slot(d, q) in s.files || (q == id && d == Unresolved)
  {
  }

  /** The claims named are still there, all others are in `unknown`, and nothing else moved. */
  ghost predicate OrphansLeft(was: Files, now: Files, names: set<string>) {
    && (forall id :: id in names ==> Slot(Claimed, id) in was)
    && forall d, id ::
      Slot(d, id) in now <==>
      if d == Claimed then id in names
      else Slot(d, id) in was || (d == Unresolved && Slot(Claimed, id) in was && id !in names)
  }

  lemma OneOrphanLess(was: Files, now: Files, names: set<string>, id: string)
    requires OrphansLeft(was, now, names) && id in names
    ensures Slot(Claimed, id) in now && OrphansLeft(was, Moved(now, id, Claimed, Unresolved), names - {id})
  {
  }

  lemma LastStep(s: Pipe, a: PipeAction)
    ensures Run(s, [a]) == Step(s, a)
  {
    assert [a][1..] == [];
  }

  lemma InboxExcludesClaimed(s: Pipe, id: string)
    requires Orderly(s)
    ensures Slot(Inbox, id) in s.files ==> Slot(Claimed, id) !in s.files
  {
    assert OnePlace(s.files, id);
  }

  /** A run of bridge steps is orderly and only moves files forward. */
  lemma {:induction false} BridgeRunIsForward(s: Pipe, actions: seq<PipeAction>)
    requires Orderly(s)
    requires forall a :: a in actions ==> BridgeAction(a)
    ensures Orderly(Run(s, actions)) && BridgeOnly(s.files, Run(s, actions).files)
    decreases |actions|
  {
    hide Orderly, BridgeOnly, Step;
    if actions == [] {
      BridgeOnlyReflexive(s.files);
    } else {
      BridgeStepKeepsOrderly(s, actions[0]);
      BridgeStepsAreBridgeOnly(s, actions[0]);
      BridgeRunIsForward(Step(s, actions[0]), actions[1..]);
      BridgeOnlyTransitive(s.files, Step(s, actions[0]).files, Run(s, actions).files);
    }
  }

  lemma HandlingEffect(s: Pipe, id: string, f: Fate)
    requires s.bridge == Ready && Orderly(s) && Slot(Inbox, id) in s.files
    ensures Run(s, Handling(id, f)) == Handled(s, id, f)
    ensures Orderly(Handled(s, id, f)) && BridgeOnly(s.files, Handled(s, id, f).files)
    ensures forall d :: Slot(d, id) in Handled(s, id, f).files <==> d == Lands(f)
    ensures !f.claimFails && !f.moveFails ==>
              && (Slot(Processed, id) in Handled(s, id, f).files <==> f.verdict in {SnapshotTaken, Done})
              && (Slot(Declined, id) in Handled(s, id, f).files <==> f.verdict in {Unreadable, TooLate, GateRejected})
              && (Slot(Unresolved, id) in Handled(s, id, f).files <==> f.verdict in {SnapshotFailed, BrokerRaised})
    ensures forall d, q :: q != id ==> (Slot(d, q) in Handled(s, id, f).files <==> Slot(d, q) in s.files)
    ensures forall q :: Executions(Handled(s, id, f), q) == Executions(s, q) + if q == id && Executed(f) then 1 else 0
  {
    assert OnePlace(s.files, id);
    InboxExcludesClaimed(s, id);
    HandlingRuns(s, id, f);
    HandledEnds(s, id, f);
    HandlingIsBridges(id, f);
    hide *;
    BridgeRunIsForward(s, Handling(id, f));
  }

  lemma HandlingIsBridges(id: string, f: Fate)
    ensures forall a :: a in Handling(id, f) ==> BridgeAction(a)
  {
  }

  /** Where a handled command ends, and that it was executed exactly if its fate says so. */
  lemma HandledEnds(s: Pipe, id: string, f: Fate)
    requires OnePlace(s.files, id) && Slot(Inbox, id) in s.files
    ensures forall d :: Slot(d, id) in Handled(s, id, f).files <==> d == Lands(f)
    ensures !f.claimFails && !f.moveFails ==>
              && (Slot(Processed, id) in Handled(s, id, f).files <==> f.verdict in {SnapshotTaken, Done})
              && (Slot(Declined, id) in Handled(s, id, f).files <==> f.verdict in {Unreadable, TooLate, GateRejected})
              && (Slot(Unresolved, id) in Handled(s, id, f).files <==> f.verdict in {SnapshotFailed, BrokerRaised})
    ensures forall d, q :: q != id ==> (Slot(d, q) in Handled(s, id, f).files <==> Slot(d, q) in s.files)
    ensures forall q :: Executions(Handled(s, id, f), q) == Executions(s, q) + if q == id && Executed(f) then 1 else 0
  {
  }

  /** One bridge process over the shared directories. */
  class CommandBridge {
    const spool: QmtCommandSpool
    const clock: Clock
    var orphanRecoveryDone: bool
    var executions: map<string, nat>

    constructor (spool: QmtCommandSpool, clock: Clock, executions: map<string, nat>)
      ensures this.spool == spool && this.clock == clock && !orphanRecoveryDone && this.executions == executions
    {
      this.spool, this.clock, orphanRecoveryDone, this.executions := spool, clock, false, executions;
    }

    ghost function State(pc: BridgePc): Pipe
      reads this, spool
    {
      Pipe(spool.files, map[], pc, executions)
    }

    /** Once per process: every command left in `claimed` goes to `unknown`, and none is executed. */
    method RecoverOrphanedClaims() returns (ghost trace: seq<PipeAction>)
      requires Orderly(State(BridgePc.Recovering))
      modifies spool, `orphanRecoveryDone
      ensures orphanRecoveryDone && executions == old(executions)
      ensures Orderly(State(BridgePc.Recovering))
              && State(BridgePc.Recovering) == Run(old(State(BridgePc.Recovering)), trace)
      ensures old(orphanRecoveryDone) ==> trace == []
      ensures old(orphanRecoveryDone) ==> spool.files == old(spool.files)
      ensures !old(orphanRecoveryDone) ==>
                forall d, id ::
                  Slot(d, id) in spool.files <==>
                  if d == Claimed then false
                  else if d == Unresolved then
                    old(Slot(Claimed, id) in spool.files || Slot(Unresolved, id) in spool.files)
                  else old(Slot(d, id) in spool.files)
      ensures BridgeOnly(old(spool.files), spool.files)
    {
      hide Orderly, BridgeOnly, Step, Run, Moved;
      trace := [];
      BridgeOnlyReflexive(spool.files);
      RunNothing(State(BridgePc.Recovering));
      if orphanRecoveryDone {
        return;
      }
      orphanRecoveryDone := true;
      var names := set slot | slot in spool.files && slot.dir == Claimed :: slot.id;
      assert forall id :: Slot(Claimed, id) in spool.files ==> id in names;
      assert OrphansLeft(spool.files, spool.files, names);
      while names != {}
        invariant orphanRecoveryDone && executions == old(executions) && Orderly(State(BridgePc.Recovering))
        invariant State(BridgePc.Recovering) == Run(old(State(BridgePc.Recovering)), trace)
        invariant OrphansLeft(old(spool.files), spool.files, names)
        invariant BridgeOnly(old(spool.files), spool.files)
      {
        hide OrphansLeft;
        var id :| id in names;
        ghost var before := State(BridgePc.Recovering);
        OneOrphanLess(old(spool.files), spool.files, names, id);
        names := names - {id};
        spool.files := Moved(spool.files, id, Claimed, Unresolved);
        OrphanMoves(before, id);
        BridgeStepKeepsOrderly(before, MoveOrphan(id));
        BridgeStepsAreBridgeOnly(before, MoveOrphan(id));
        BridgeOnlyTransitive(old(spool.files), before.files, spool.files);
        RunConcat(old(State(BridgePc.Recovering)), trace, [MoveOrphan(id)]);
        LastStep(before, MoveOrphan(id));
        trace := trace + [MoveOrphan(id)];
      }
    }

    /**
     * Takes up to `maxItems` of the listed commands. Each that is in the inbox
     * ends in the directory its verdict and the renames that worked name, and
     * is executed once if it was claimed, in time, and its verdict says so; no
     * other command is touched.
     */
    method DrainCommandInbox(listing: seq<string>, offered: map<string, Timely>, maxItems: nat := COMMAND_BATCH)
        returns (claimed: nat, ghost trace: seq<PipeAction>, ghost fates: map<string, Fate>,
                 ghost checks: map<string, int>)
      requires Orderly(State(Ready)) && forall id :: id in listing ==> id in offered
      modifies spool, clock, `executions
      ensures Orderly(State(Ready)) && State(Ready) == Run(old(State(Ready)), trace)
      ensures BridgeOnly(old(spool.files), spool.files) && old(clock.now) <= clock.now
      ensures forall id :: id in listing ==> id in fates
      ensures Drained(old(State(Ready)), State(Ready), listing[..Min(maxItems, |listing|)], fates)
      ensures JudgedAtChecks(old(spool.files), listing[..Min(maxItems, |listing|)], offered, fates, checks,
                             old(clock.now), clock.now)
      ensures AllEndAsTheyWent(old(spool.files), spool.files, listing[..Min(maxItems, |listing|)], offered, checks)
      ensures claimed == |TakenFrom(old(spool.files), listing[..Min(maxItems, |listing|)], offered)|
    {
      hide Orderly, BridgeOnly, Drained, Run, Draining, Handled, Handling, Judged, JudgedAtChecks;
      var names := listing[..Min(maxItems, |listing|)];
      trace, claimed := [], 0;
      fates, checks := map id | id in offered :: offered[id], map[];
      NothingDrained(State(Ready), names, fates);
      NothingJudged(spool.files, offered, fates, clock.now);
      for i := 0 to |names|
        invariant claimed == |TakenFrom(old(spool.files), names[..i], offered)|
        invariant Orderly(State(Ready)) && old(clock.now) <= clock.now && fates.Keys == offered.Keys
        invariant Draining(old(State(Ready)), State(Ready), trace, names, i, fates)
        invariant JudgedAtChecks(old(spool.files), names[..i], offered, fates, checks, old(clock.now), clock.now)
      {
        ghost var before, id, at := State(Ready), names[i], clock.now;
        var taken, fate, checked := HandleListed(names[i], offered[names[i]]);
        JudgedOneMore(old(State(Ready)), before, trace, names, i, offered, fates, checks, old(clock.now), at, clock.now,
                      taken, fate, checked);
        if taken {
          fates, checks := fates[id := fate], checks[id := checked];
        }
        ghost var actions := if Slot(Inbox, id) in before.files then Handling(id, fates[id]) else [];
        DrainedOneMore(old(State(Ready)), before, State(Ready), trace, names, i, fates);
        trace, claimed := trace + actions, claimed + if taken then 1 else 0;
      }
      AllDrained(old(State(Ready)), State(Ready), trace, names, fates);
      assert names[..|names|] == names;
      DrainedEndAsTheyWent(old(State(Ready)), State(Ready), names, offered, fates, checks, old(clock.now), clock.now);
    }

    /** One listed command: skipped, left in the inbox by a failing claim, or claimed, judged and finished. */
    method HandleListed(id: string, f: Timely) returns (taken: bool, ghost fate: Fate, ghost checked: int)
      requires Orderly(State(Ready))
      modifies spool, clock, `executions
      ensures old(clock.now) <= checked <= clock.now
      ensures taken <==> old(Slot(Inbox, id) in spool.files) && !f.claimFails
      ensures fate == if taken then Judged(f, old(spool.files)[Slot(Inbox, id)], checked) else f
      ensures State(Ready) == if old(Slot(Inbox, id) in spool.files) then Handled(old(State(Ready)), id, fate)
              else old(State(Ready))
      ensures Orderly(State(Ready))
      ensures old(Slot(Inbox, id) in spool.files) ==>
                EndsWhereItCould(spool.files, id, f, old(spool.files)[Slot(Inbox, id)], checked)
    {
      hide Orderly, BridgeOnly, Run, Judged, Lands, EndsWhereItCould;
      InboxExcludesClaimed(State(Ready), id);
      ghost var before := State(Ready);
      taken := Slot(Claimed, id) !in spool.files && Slot(Inbox, id) in spool.files && !f.claimFails;
      fate, checked := f, clock.now;
      if taken {
        spool.files := Moved(spool.files, id, Inbox, Claimed);
        fate, checked := ProcessClaimed(id, f);
        JudgedKeepsClaim(f, before.files[Slot(Inbox, id)], checked);
      }
      if Slot(Inbox, id) in before.files {
        HandlingEffect(before, id, fate);
        LandsWhereItCould(spool.files, id, f, before.files[Slot(Inbox, id)], checked);
      }
    }

    /** Reads the frame, checks its expiry against the clock, and finishes the command accordingly. */
    method ProcessClaimed(id: string, f: Timely) returns (ghost fate: Fate, ghost checked: int)
      requires Slot(Claimed, id) in spool.files && !f.claimFails
      modifies spool, clock, `executions
      ensures old(clock.now) <= checked <= clock.now
      ensures fate == Judged(f, old(spool.files)[Slot(Claimed, id)], checked)
      ensures spool.files == if Lands(fate) == Claimed then old(spool.files)
              else Moved(old(spool.files), id, Claimed, Lands(fate))
      ensures var frame := old(spool.files)[Slot(Claimed, id)];
              && (!f.moveFails ==>
                    spool.files == Moved(old(spool.files), id, Claimed,
                                         if f.verdict in {Unreadable, GateRejected} || frame.expires <= checked
                                         then Declined
                                         else if f.verdict in {SnapshotTaken, Done} then Processed else Unresolved))
              && executions == if f.verdict in {GateRejected, BrokerRaised, Done} && checked < frame.expires
                               then old(executions)[id := old(Executions(State(Ready), id)) + 1]
                               else old(executions)
      ensures executions == if Executes(fate.verdict) then old(executions)[id := old(Executions(State(Ready), id)) + 1]
              else old(executions)
    {
      var verdict := f.verdict;
      if verdict != Unreadable {
        var now := clock.Read();
        if spool.files[Slot(Claimed, id)].expires <= now {
          verdict := TooLate;
        }
      }
      fate, checked := f.(verdict := verdict), clock.now;
      if Executes(verdict) {
        executions := executions[id := (if id in executions then executions[id] else 0) + 1];
      }
      if !f.moveFails {
        spool.files := Moved(spool.files, id, Claimed, Target(verdict));
      } else if !f.fallbackFails {
        spool.files := Moved(spool.files, id, Claimed, Unresolved);
      }
    }
  }

  const COMMAND_BATCH := 16

  function Min(a: nat, b: nat): nat { if a < b then a else b }

  /** The inbox commands among `names` went where their fate says, everything else is as it was. */
  ghost predicate Drained(was: Pipe, now: Pipe, names: seq<string>, fates: map<string, Fate>)
    requires forall id :: id in names ==> id in fates
  {
    && (forall id :: id in names && Slot(Inbox, id) in was.files ==>
          forall d :: Slot(d, id) in now.files <==> d == Lands(fates[id]))
    && (forall d, id :: !(id in names && Slot(Inbox, id) in was.files) ==>
          (Slot(d, id) in now.files <==> Slot(d, id) in was.files))
    && (forall id :: Executions(now, id) ==
                     Executions(was, id) + if id in names && Slot(Inbox, id) in was.files && Executed(fates[id]) then 1
                       else 0)
  }

  /** Every command taken so far was judged by its own frame at its own check; the others are as the disk has them. */
  ghost predicate JudgedAtChecks(was: Files, names: seq<string>, offered: map<string, Timely>, fates: map<string, Fate>,
                                 checks: map<string, int>, since: int, until: int)
  {
    && fates.Keys == offered.Keys
    && forall id :: id in offered ==>
      if id in names && Slot(Inbox, id) in was && !offered[id].claimFails
      then id in checks && since <= checks[id] <= until
        && fates[id] == Judged(offered[id], was[Slot(Inbox, id)], checks[id])
      else fates[id] == offered[id]
  }

  lemma NothingJudged(was: Files, offered: map<string, Timely>, fates: map<string, Fate>, now: int)
    requires fates.Keys == offered.Keys && forall id :: id in offered ==> fates[id] == offered[id]
    ensures JudgedAtChecks(was, [], offered, fates, map[], now, now)
  {
  }

  lemma FrameKept(was: Files, now: Files, id: string)
    requires BridgeOnly(was, now) && OnePlace(now, id) && Slot(Inbox, id) in was && Slot(Inbox, id) in now
    ensures now[Slot(Inbox, id)] == was[Slot(Inbox, id)]
  {
    var e :| Slot(e, id) in now && now[Slot(e, id)] == was[Slot(Inbox, id)];
  }

  /** A command that is taken now was not handled before, so its verdict is settled now, once. */
  lemma JudgedOneMore(was: Pipe, before: Pipe, trace: seq<PipeAction>, names: seq<string>, i: nat,
                      offered: map<string, Timely>, fates: map<string, Fate>, checks: map<string, int>, since: int,
                      at: int, until: int, taken: bool, fate: Fate, checked: int)
    requires i < |names| && (forall id :: id in names ==> id in offered) && fates.Keys == offered.Keys
    requires Orderly(before) && Draining(was, before, trace, names, i, fates)
    requires since <= at <= checked <= until && JudgedAtChecks(was.files, names[..i], offered, fates, checks, since, at)
    requires taken <==> Slot(Inbox, names[i]) in before.files && !offered[names[i]].claimFails
    requires taken ==> fate == Judged(offered[names[i]], before.files[Slot(Inbox, names[i])], checked)
    ensures var n := if taken then fates[names[i] := fate] else fates;
            && Draining(was, before, trace, names, i, n)
            && JudgedAtChecks(was.files, names[..i + 1], offered, n,
                              if taken then checks[names[i] := checked] else checks, since, until)
            && (Slot(Inbox, names[i]) in before.files && !taken ==> n[names[i]] == offered[names[i]])
    ensures |TakenFrom(was.files, names[..i + 1], offered)|
            == |TakenFrom(was.files, names[..i], offered)| + (if taken then 1 else 0)
  {
    hide Run, Judged, Orderly, BridgeOnly, Lands, Executed, Executions, OnePlace, TakenFrom;
    var id := names[i];
    assert names[..i + 1] == names[..i] + [id];
    if id in names[..i] && Slot(Inbox, id) in was.files && !offered[id].claimFails {
      JudgedKeepsClaim(offered[id], was.files[Slot(Inbox, id)], checks[id]);
    }
    TakenIsNew(was, before, names, i, offered, fates);
    CountOneMore(was.files, names, i, offered, Slot(Inbox, id) in before.files);
    if taken {
      OrderlyIsTidy(before);
      FrameKept(was.files, before.files, id);
    }
  }

  lemma TakenIsNew(was: Pipe, before: Pipe, names: seq<string>, i: nat, offered: map<string, Timely>,
                   fates: map<string, Fate>)
    requires i < |names| && (forall id :: id in names ==> id in offered) && fates.Keys == offered.Keys
    requires Drained(was, before, names[..i], fates)
    requires fates[names[i]].claimFails == offered[names[i]].claimFails
    ensures Slot(Inbox, names[i]) in before.files ==> Slot(Inbox, names[i]) in was.files
    ensures Slot(Inbox, names[i]) in before.files && !offered[names[i]].claimFails ==> names[i] !in names[..i]
    ensures Slot(Inbox, names[i]) in was.files && Slot(Inbox, names[i]) !in before.files ==> names[i] in names[..i]
  {
    hide Executed, Executions;
  }

  lemma CountOneMore(was: Files, names: seq<string>, i: nat, offered: map<string, Timely>, waiting: bool)
    requires i < |names| && forall id :: id in names ==> id in offered
    requires waiting ==> Slot(Inbox, names[i]) in was
    requires waiting && !offered[names[i]].claimFails ==> names[i] !in names[..i]
    requires Slot(Inbox, names[i]) in was && !waiting ==> names[i] in names[..i]
    ensures |TakenFrom(was, names[..i + 1], offered)| == |TakenFrom(was, names[..i], offered)| +
                                                         if waiting && !offered[names[i]].claimFails then 1 else 0
  {
    assert names[..i + 1] == names[..i] + [names[i]];
    assert TakenFrom(was, names[..i + 1], offered) ==
           TakenFrom(was, names[..i], offered) + if waiting && !offered[names[i]].claimFails then {names[i]} else {};
  }

  lemma JudgedKeepsClaim(f: Timely, frame: Frame, now: int)
    ensures Judged(f, frame, now).claimFails == f.claimFails
  {
  }

  lemma OrderlyIsTidy(s: Pipe)
    requires Orderly(s)
    ensures Tidy(s) && forall id :: OnePlace(s.files, id)
  {
  }

  /** After the first `i` names, by the steps of `trace`. */
  ghost predicate Draining(was: Pipe, now: Pipe, trace: seq<PipeAction>, names: seq<string>, i: nat,
                           fates: map<string, Fate>)
    requires i <= |names| && forall id :: id in names ==> id in fates
  {
    now == Run(was, trace) && BridgeOnly(was.files, now.files) && Drained(was, now, names[..i], fates)
  }

  lemma NothingDrained(s: Pipe, names: seq<string>, fates: map<string, Fate>)
    requires forall id :: id in names ==> id in fates
    ensures Draining(s, s, [], names, 0, fates)
  {
    BridgeOnlyReflexive(s.files);
    hide BridgeOnly;
  }

  lemma AllDrained(was: Pipe, now: Pipe, trace: seq<PipeAction>, names: seq<string>, fates: map<string, Fate>)
    requires (forall id :: id in names ==> id in fates) && Draining(was, now, trace, names, |names|, fates)
    ensures now == Run(was, trace) && BridgeOnly(was.files, now.files) && Drained(was, now, names, fates)
  {
    hide BridgeOnly, Drained, Run;
    assert names[..|names|] == names;
  }

  lemma DrainedOneMore(was: Pipe, before: Pipe, now: Pipe, trace: seq<PipeAction>, names: seq<string>, i: nat,
                       fates: map<string, Fate>)
    requires i < |names| && forall id :: id in names ==> id in fates
    requires Orderly(before) && before.bridge == Ready && Draining(was, before, trace, names, i, fates)
    requires now == if Slot(Inbox, names[i]) in before.files then Handled(before, names[i], fates[names[i]]) else before
    ensures Draining(was, now, trace + (if Slot(Inbox, names[i]) in before.files
                                        then Handling(names[i], fates[names[i]]) else []),
                     names, i + 1, fates)
  {
    hide Orderly, Handled, BridgeOnly, Drained, Run, Handling;
    var id := names[i];
    OneMore(was, before, now, names, i, fates);
    if Slot(Inbox, id) in before.files {
      HandlingEffect(before, id, fates[id]);
      RunConcat(was, trace, Handling(id, fates[id]));
      BridgeOnlyTransitive(was.files, before.files, now.files);
    } else {
      assert trace + [] == trace;
    }
  }

  lemma OneMore(was: Pipe, before: Pipe, now: Pipe, names: seq<string>, i: nat, fates: map<string, Fate>)
    requires i < |names| && forall id :: id in names ==> id in fates
    requires Orderly(before) && before.bridge == Ready && Drained(was, before, names[..i], fates)
    requires now == if Slot(Inbox, names[i]) in before.files then Handled(before, names[i], fates[names[i]]) else before
    ensures Drained(was, now, names[..i + 1], fates)
  {
    hide Orderly, Handled, BridgeOnly, Executions;
    var id := names[i];
    assert names[..i + 1] == names[..i] + [id];
    if Slot(Inbox, id) in before.files {
      HandlingEffect(before, id, fates[id]);
    }
  }
}
