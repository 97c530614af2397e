/**
 * What the lease gives a session (oms/leader.py, `assert_held` inside every
 * guarded transaction of oms/repository.py): while it keeps the lease, the
 * database and its own progress are as if every other session stood still.
 * So what `OmsService` proves of one session's recovery, submit and cancel
 * holds under any interleaving, up to the moment the lease is lost.
 */
module OmsIsolation {
  import opened OrderRows
  import opened BrokerEvidence
  import opened EvidenceJournal
  import opened JournalHistory
  import opened LeaderLease
  import opened OmsService
  import opened OmsSystem

  /** Time passing, or this session's own doing. */
  predicate Concerns(a: SysAction, token: string) {
    a.Elapse? || a.token == token
  }

  function Own(actions: seq<SysAction>, token: string): seq<SysAction> {
    if actions == [] then []
    else (if Concerns(actions[0], token) then [actions[0]] else []) + Own(actions[1..], token)
  }

  /** What one lease sees of the world. */
  predicate SameWorld(w: World, v: World, token: string) {
    && w.now == v.now && w.row == v.row
    && token in w.leases && token in v.leases && w.leases[token] == v.leases[token]
  }

  /** All a session can see: the clock, the lease row, its lease, the database, and where it is. */
  predicate SameView(s: Sys, t: Sys, token: string) {
    && token in s.pcs && token in t.pcs && s.pcs[token] == t.pcs[token]
    && s.journal == t.journal && SameWorld(s.w, t.w, token)
  }

  lemma SameWorldPasses(w: World, v: World, token: string)
    requires SameWorld(w, v, token)
    ensures Passes(w, token) <==> Passes(v, token)
    ensures SameWorld(Act(w, TryWrite(token)), Act(v, TryWrite(token)), token)
    ensures SameWorld(Act(w, TryRelease(token)), Act(v, TryRelease(token)), token)
  {
    hide Check, Matches;
  }

  lemma SameWorldActs(w: World, v: World, token: string, seconds: int)
    requires SameWorld(w, v, token)
    ensures SameWorld(Act(w, Tick(seconds)), Act(v, Tick(seconds)), token)
    ensures SameWorld(Act(w, TryHeartbeat(token, seconds)), Act(v, TryHeartbeat(token, seconds)), token)
  {
    hide Check, Matches;
  }

  lemma HeldTokenIsNotNew(w: World, session: string, token: string, seconds: int)
    requires token in w.leases
    ensures Act(w, TryAcquire(session, token, seconds)) == w
  {
  }

  lemma TryStepSameView(s: Sys, t: Sys, token: string, k: OrderKey, step: RowStep, pc: Pc)
    requires SameView(s, t, token)
    ensures SameView(TryStep(s, token, k, step, pc), TryStep(t, token, k, step, pc), token)
  {
    hide Writable, Advance, Act, Passes, SameWorld;
    SameWorldPasses(s.w, t.w, token);
  }

  lemma CommitSameView(s: Sys, t: Sys, token: string, step: JournalStep, pc: Pc)
    requires SameView(s, t, token)
    ensures SameView(Commit(s, token, step, pc), Commit(t, token, step, pc), token)
  {
    hide Advance, Act, Passes, SameWorld;
    SameWorldPasses(s.w, t.w, token);
  }

  /** The writes a session makes on its way through one operation. */
  lemma OperationSameView(s: Sys, t: Sys, a: SysAction, token: string)
    requires SameView(s, t, token)
    requires a.RecoverRow? || a.CommandResult? || a.Decide? || a.Reserve? || a.ReserveTheCancel? || a.RecordUnknown?
             || a.BeginReconciling?
    ensures SameView(SessionStep(s, a, token), SessionStep(t, a, token), token)
  {
    hide ApplyStep, StepGuard, IsRecoveryStep, TryStep, SameWorld;
    forall k, step, pc ensures SameView(TryStep(s, token, k, step, pc), TryStep(t, token, k, step, pc), token) {
      TryStepSameView(s, t, token, k, step, pc);
    }
  }

  lemma EvidenceSameView(s: Sys, t: Sys, a: SysAction, token: string)
    requires SameView(s, t, token)
    requires a.RecoverEvidence? || a.Callback? || a.Register? || a.Answer?
    ensures SameView(SessionStep(s, a, token), SessionStep(t, a, token), token)
  {
    hide Passes, Advance, Ingest, ValidEvidence, Commit, SameWorld;
    SameWorldPasses(s.w, t.w, token);
    forall step, pc ensures SameView(Commit(s, token, step, pc), Commit(t, token, step, pc), token) {
      CommitSameView(s, t, token, step, pc);
    }
  }

  lemma PassiveSameView(s: Sys, t: Sys, a: SysAction, token: string)
    requires SameView(s, t, token)
    requires a.Crash? || a.BeginRecovery? || a.EndRecovery? || a.Recheck? || a.CallBroker? || a.NoAnswer?
    ensures SameView(SessionStep(s, a, token), SessionStep(t, a, token), token)
  {
    hide Passes, SameWorld;
    SameWorldPasses(s.w, t.w, token);
  }

  lemma LeaseSameView(s: Sys, t: Sys, a: SysAction, token: string)
    requires SameView(s, t, token) && (a.Beat? || a.Close? || a.ResolveCancel?)
    ensures SameView(SessionStep(s, a, token), SessionStep(t, a, token), token)
  {
    hide Passes, SameWorld, Act, CommandTransition;
    SameWorldPasses(s.w, t.w, token);
    if a.Beat? {
      SameWorldActs(s.w, t.w, token, a.seconds);
    }
  }

  /** What a session does depends only on its view. */
  lemma OwnStepSameView(s: Sys, t: Sys, a: SysAction, token: string)
    requires SameView(s, t, token) && Concerns(a, token)
    ensures SameView(Step(s, a), Step(t, a), token)
  {
    hide SessionStep, Act;
    match a
    case Elapse(seconds) => SameWorldActs(s.w, t.w, token, seconds);
    case Open(session, _, seconds) => HeldTokenIsNotNew(s.w, session, token, seconds);
    HeldTokenIsNotNew(t.w, session, token, seconds);
    case Beat(_, _) => LeaseSameView(s, t, a, token);
    case Close(_) => LeaseSameView(s, t, a, token);
    case ResolveCancel(_) => LeaseSameView(s, t, a, token);
    case RecoverEvidence(_, _) => EvidenceSameView(s, t, a, token);
    case Callback(_, _) => EvidenceSameView(s, t, a, token);
    case Register(_, _, _, _) => EvidenceSameView(s, t, a, token);
    case Answer(_, _) => EvidenceSameView(s, t, a, token);
    case Crash(_) => PassiveSameView(s, t, a, token);
    case BeginRecovery(_) => PassiveSameView(s, t, a, token);
    case EndRecovery(_) => PassiveSameView(s, t, a, token);
    case Recheck(_) => PassiveSameView(s, t, a, token);
    case CallBroker(_, _) => PassiveSameView(s, t, a, token);
    case NoAnswer(_) => PassiveSameView(s, t, a, token);
    case _ => OperationSameView(s, t, a, token);
  }

  /** A lease that does not pass cannot move the row of one that does. */
  lemma OthersLeaveTheLease(w: World, token: string, other: string, session: string, seconds: int)
    requires Fenceable(w) && token in w.leases && Passes(w, token) && other != token
    ensures !Passes(w, other)
    ensures SameWorld(w, Act(w, TryHeartbeat(other, seconds)), token)
    ensures SameWorld(w, Act(w, TryRelease(other)), token)
    ensures SameWorld(w, Act(w, TryWrite(other)), token)
    ensures SameWorld(w, Act(w, TryAcquire(session, other, seconds)), token)
  {
    hide InBlocks, Distinct;
  }

  /** A session that does not pass the guard writes nothing and cannot move the lease row of one that does. */
  lemma OtherStepKeepsView(s: Sys, a: SysAction, token: string)
    requires Safe(s) && token in s.pcs && Passes(s.w, token) && !Concerns(a, token)
    ensures SameView(s, Step(s, a), token)
  {
    hide Sound, AtMostOnce, PendingUncalled, PendingUnique, HoldersCurrent, Passes, SameWorld, Act;
    SessionHasLease(s, token);
    var session := if a.Open? then a.session else "";
    var seconds := if a.Open? || a.Beat? then a.seconds else 0;
    OthersLeaveTheLease(s.w, token, a.token, session, seconds);
    assert SameWorld(s.w, s.w, token) by { SelfSameWorld(s.w, token); }
    if !a.Open? && a.token in s.pcs {
      hide Fenceable, Step;
      OutsiderWritesNothing(s, a, token);
    }
  }

  lemma SelfSameWorld(w: World, token: string)
    requires token in w.leases
    ensures SameWorld(w, w, token)
  {
  }

  lemma OutsiderWritesNothing(s: Sys, a: SysAction, token: string)
    requires token in s.pcs && !a.Elapse? && !a.Open? && a.token in s.pcs && a.token != token && !Passes(s.w, a.token)
    ensures var n := Step(s, a);
            && token in n.pcs && n.pcs[token] == s.pcs[token] && n.journal == s.journal
            && (n.w == s.w || (a.Beat? && n.w == Act(s.w, TryHeartbeat(a.token, a.seconds)))
                || (a.Close? && n.w == Act(s.w, TryRelease(a.token))))
  {
    hide Passes, Act, Advance, Ingest, Commit, Writable, ApplyStep, StepGuard, IsRecoveryStep;
    hide CommandTransition, ValidEvidence;
  }

  /** The only lease a step can bring to pass is a new one. */
  lemma PassedBefore(s: Sys, a: SysAction, token: string)
    requires Safe(s) && token in s.pcs && Passes(Step(s, a).w, token)
    ensures Passes(s.w, token)
  {
    hide Sound, AtMostOnce, PendingUncalled, PendingUnique, HoldersCurrent;
    var act := LeaseActOf(s, a);
    hide Step, Act, Passes, Fenceable;
    if !Passes(s.w, token) {
      LossIsStable(s.w, act, token);
    }
  }

  /** Every step is one lease action as far as the lease is concerned. */
  lemma LeaseActOf(s: Sys, a: SysAction) returns (act: Action)
    ensures Step(s, a).w == Act(s.w, act)
  {
    hide Passes, Act, Advance, Ingest, Writable, ApplyStep, StepGuard, IsRecoveryStep, CommandTransition, ValidEvidence;
    act := NoAct(s.w);
    match a
    case Elapse(seconds) => act := Tick(seconds);
    case Open(session, token, seconds) => act := TryAcquire(session, token, seconds);
    case Beat(token, seconds) => if Step(s, a).w != s.w { act := TryHeartbeat(token, seconds); }
    case Close(token) => if Step(s, a).w != s.w { act := TryRelease(token); }
    case _ =>
      hide TryStep;
      WritesOnly(s, a);
      if Step(s, a).w != s.w { act := TryWrite(a.token); }
  }

  lemma NoAct(w: World) returns (act: Action)
    ensures Act(w, act) == w
  {
    act := Tick(-1);
  }

  lemma WritesOnly(s: Sys, a: SysAction)
    requires !a.Elapse? && !a.Open? && !a.Beat? && !a.Close?
    ensures Step(s, a).w == s.w || Step(s, a).w == Act(s.w, TryWrite(a.token))
  {
    hide Passes, Act, Advance, Ingest, Writable, ApplyStep, StepGuard, IsRecoveryStep, CommandTransition, ValidEvidence;
  }

  lemma StepKeepsSession(s: Sys, a: SysAction, token: string)
    requires token in s.pcs
    ensures token in Step(s, a).pcs
  {
    hide Act;
    if !a.Elapse? && !a.Open? && a.token in s.pcs {
      hide SessionStep;
      SessionStepKeepsSessions(s, a, a.token);
    }
  }

  lemma TryStepKeepsSessions(s: Sys, token: string, k: OrderKey, step: RowStep, pc: Pc)
    ensures s.pcs.Keys <= TryStep(s, token, k, step, pc).pcs.Keys
  {
    hide Passes, Writable, Advance, Act;
  }

  lemma SessionStepKeepsSessions(s: Sys, a: SysAction, token: string)
    requires token in s.pcs
    ensures s.pcs.Keys <= SessionStep(s, a, token).pcs.Keys
  {
    hide Passes, Writable, ApplyStep, CommandTransition, Advance, Ingest, Act, StepGuard, IsRecoveryStep;
    hide ValidEvidence, TryStep;
    forall k, step, pc ensures s.pcs.Keys <= TryStep(s, token, k, step, pc).pcs.Keys {
      TryStepKeepsSessions(s, token, k, step, pc);
    }
  }

  lemma {:induction false} HeldThroughout(s: Sys, actions: seq<SysAction>, token: string)
    requires Safe(s) && token in s.pcs && Passes(RunSystem(s, actions).w, token)
    ensures Passes(s.w, token)
    decreases |actions|
  {
    if actions != [] {
      hide Safe, Step, Passes;
      StepKeepsSafe(s, actions[0]);
      StepKeepsSession(s, actions[0], token);
      HeldThroughout(Step(s, actions[0]), actions[1..], token);
      PassedBefore(s, actions[0], token);
    }
  }

  lemma {:induction false} IsolatedFrom(s: Sys, t: Sys, actions: seq<SysAction>, token: string)
    requires Safe(s) && SameView(s, t, token) && Passes(RunSystem(s, actions).w, token)
    ensures SameView(RunSystem(s, actions), RunSystem(t, Own(actions, token)), token)
    decreases |actions|
  {
    if actions != [] {
      hide Safe, Step, Passes;
      var a, rest := actions[0], actions[1..];
      HeldThroughout(s, actions, token);
      StepKeepsSafe(s, a);
      if Concerns(a, token) {
        OwnStepSameView(s, t, a, token);
        IsolatedFrom(Step(s, a), Step(t, a), rest, token);
        assert Own(actions, token) == [a] + Own(rest, token);
        assert ([a] + Own(rest, token))[1..] == Own(rest, token);
      } else {
        OtherStepKeepsView(s, a, token);
        IsolatedFrom(Step(s, a), t, rest, token);
        assert Own(actions, token) == Own(rest, token);
      }
    }
  }

  /**
   * From any reachable state, over any interleaving with crashes and attempted
   * takeovers: if the session still passes the guard at the end, database and
   * session are exactly as if only it had acted.
   */
  lemma HolderIsIsolated(before: seq<SysAction>, actions: seq<SysAction>, token: string)
    requires var s := RunSystem(EmptySys, before); token in s.pcs && Passes(RunSystem(s, actions).w, token)
    ensures var s := RunSystem(EmptySys, before);
            SameView(RunSystem(s, actions), RunSystem(s, Own(actions, token)), token)
  {
    hide Step, Passes, RunSystem;
    ReachableIsSafe(before);
    var s := RunSystem(EmptySys, before);
    SessionHasLease(s, token);
    IsolatedFrom(s, s, actions, token);
  }

  lemma SessionHasLease(s: Sys, token: string)
    requires Safe(s) && token in s.pcs
    ensures token in s.w.leases
  {
    hide Sound, AtMostOnce, PendingUncalled, PendingUnique, HoldersCurrent, Fenceable;
    assert token in s.pcs.Keys;
  }

  /**
   * A session in recovery whose captured rows need nothing more has drained
   * the database itself, as long as it still passes the guard.
   */
  lemma RecoveredViewIsRecoveredDatabase(actions: seq<SysAction>, token: string)
    requires var s := RunSystem(EmptySys, actions);
             && token in s.pcs && Passes(s.w, token) && s.pcs[token].Recovering?
             && forall k :: k in s.pcs[token].seen ==> !NeedsRecovery(s.pcs[token].seen[k])
    ensures var s := RunSystem(EmptySys, actions); forall k :: k in s.journal.orders ==>
              !NeedsRecovery(s.journal.orders[k])
  {
    hide RunSystem, Passes, NeedsRecovery;
    HoldersActOnCurrentRows(actions, token);
  }
}
