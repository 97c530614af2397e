/**
 * The single-row leader lease and its fencing (oms/leader.py). Time is an
 * integer clock shared by all sessions; lease tokens are fresh uuids.
 */
module LeaderLease {
  import opened Basics

  datatype Lease = Lease(session: string, token: string, epoch: int, expiresAt: int)

  datatype LeaderRow = LeaderRow(session: string, token: string, epoch: int, heartbeatAt: int, expiresAt: int)

  datatype LeaseError = BadSeconds | Unavailable | Missing | Fenced | Expired

  // ------------------------------------------------------------------ specification

  predicate Matches(row: LeaderRow, lease: Lease) {
    row.session == lease.session && row.token == lease.token && row.epoch == lease.epoch
  }

  /** `assert_held`: why a lease fails the guard, if it does. */
  function Check(row: Option<LeaderRow>, lease: Lease, now: int): Option<LeaseError> {
    if row.None? then Some(Missing)
    else if !Matches(row.value, lease) then Some(Fenced)
    else if row.value.expiresAt <= now then Some(Expired)
    else None
  }

  predicate Held(row: Option<LeaderRow>, lease: Lease, now: int) { Check(row, lease, now).None? }

  lemma HeldBefore(row: Option<LeaderRow>, lease: Lease, earlier: int, later: int)
    requires earlier <= later
    ensures Held(row, lease, later) ==> Held(row, lease, earlier)
  {
  }

  /** A lease may be taken when there is none or the stored one has expired. */
  function AcquiredRow(row: Option<LeaderRow>, session: string, token: string, seconds: int,
                       now: int): Result<LeaderRow, LeaseError> {
    if seconds <= 0 then Err(BadSeconds)
    else if row.Some? && row.value.expiresAt > now then Err(Unavailable)
    else Ok(LeaderRow(session, token, if row.None? then 1 else row.value.epoch + 1, now, now + seconds))
  }

  function LeaseOf(row: LeaderRow): Lease {
    Lease(row.session, row.token, row.epoch, row.expiresAt)
  }

  function RenewedRow(row: Option<LeaderRow>, lease: Lease, seconds: int, now: int): Result<LeaderRow, LeaseError> {
    if seconds <= 0 then Err(BadSeconds)
    else
      var failure := Check(row, lease, now);
      if failure.Some? then Err(failure.value)
      else Ok(row.value.(heartbeatAt := now, expiresAt := now + seconds))
  }

  function ReleasedRow(row: Option<LeaderRow>, lease: Lease): Option<LeaderRow> {
    if row.Some? && Matches(row.value, lease) then None else row
  }

  // ----------------------------------------------------------------- implementation

  /** The coordinator over the stored row. */
  class LeaderCoordinator {
    var row: Option<LeaderRow>

    constructor ()
      ensures row == None
    {
      row := None;
    }

    method Acquire(session: string, token: string, seconds: int, now: int) returns (r: Result<Lease, LeaseError>)
      modifies this
      ensures match AcquiredRow(old(row), session, token, seconds, now)
              case Ok(next) => row == Some(next) && r == Ok(LeaseOf(next))
              case Err(e) => row == old(row) && r == Err(e)
      ensures r.Ok? <==> 0 < seconds && (old(row).None? || old(row).value.expiresAt <= now)
      ensures r.Ok? ==> r.value.session == session && r.value.token == token && r.value.expiresAt == now + seconds
      ensures r.Ok? ==> r.value.epoch == if old(row).None? then 1 else old(row).value.epoch + 1
      ensures r.Ok? ==> forall t :: Held(row, r.value, t) <==> t < now + seconds
      ensures r.Err? ==> row == old(row) && (r.error == BadSeconds <==> seconds <= 0)
    {
      if seconds <= 0 {
        return Err(BadSeconds);
      }
      var epoch := 1;
      if row.Some? {
        if row.value.expiresAt > now {
          return Err(Unavailable);
        }
        epoch := row.value.epoch + 1;
      }
      row := Some(LeaderRow(session, token, epoch, now, now + seconds));
      r := Ok(Lease(session, token, epoch, now + seconds));
    }

    method AssertHeld(lease: Lease, now: int) returns (failure: Option<LeaseError>)
      ensures failure == Check(row, lease, now)
    {
      if row.None? {
        return Some(Missing);
      }
      var matches := row.value.session == lease.session && row.value.token == lease.token
        && row.value.epoch == lease.epoch;
      if !matches {
        return Some(Fenced);
      }
      failure := if row.value.expiresAt <= now then Some(Expired) else None;
    }

    method Heartbeat(lease: Lease, seconds: int, now: int) returns (r: Result<Lease, LeaseError>)
      modifies this
      ensures match RenewedRow(old(row), lease, seconds, now)
              case Ok(next) => row == Some(next) && r == Ok(lease.(expiresAt := now + seconds))
              case Err(e) => row == old(row) && r == Err(e)
      ensures r.Ok? <==> 0 < seconds && Held(old(row), lease, now)
      ensures r.Ok? ==> r.value == lease.(expiresAt := now + seconds)
      ensures r.Ok? ==> forall t :: Held(row, r.value, t) <==> t < now + seconds
      ensures r.Err? ==> row == old(row)
    {
      if seconds <= 0 {
        return Err(BadSeconds);
      }
      var failure := AssertHeld(lease, now);
      if failure.Some? {
        return Err(failure.value);
      }
      row := Some(row.value.(heartbeatAt := now, expiresAt := now + seconds));
      r := Ok(lease.(expiresAt := now + seconds));
    }

    method Release(lease: Lease) returns (released: bool)
      modifies this
      ensures row == ReleasedRow(old(row), lease)
      ensures released == (row != old(row))
      ensures forall now :: !Held(row, lease, now)
    {
      released := row.Some? && row.value.session == lease.session && row.value.token == lease.token
        && row.value.epoch == lease.epoch;
      if released {
        row := None;
      }
    }
  }

  // ------------------------------------------------------------- interleaved sessions

  /**
   * Everything the sessions did so far: leases by token, tokens in the order
   * they were acquired, and the token of each committed guarded write.
   */
  datatype World = World(now: int, row: Option<LeaderRow>, leases: map<string, Lease>, acquired: seq<string>,
                         writes: seq<string>)

  datatype Action =
    | Tick(seconds: int)
    | TryAcquire(session: string, token: string, seconds: int)
    | TryHeartbeat(token: string, seconds: int)
    | TryRelease(token: string)
    | TryWrite(token: string)

  const EmptyWorld := World(0, None, map[], [], [])

  predicate Passes(w: World, token: string) {
    token in w.leases && Held(w.row, w.leases[token], w.now)
  }

  /** One atomic action; an attempt that raises changes nothing. */
  function Act(w: World, a: Action): World {
    match a
    case Tick(seconds) => if 0 <= seconds then w.(now := w.now + seconds) else w
    case TryAcquire(session, token, seconds) =>
      var r := AcquiredRow(w.row, session, token, seconds, w.now);
      if token in w.leases || r.Err? then w
      else w.(row := Some(r.value), leases := w.leases[token := LeaseOf(r.value)], acquired := w.acquired + [token])
    case TryHeartbeat(token, seconds) =>
      if token !in w.leases then w
      else
        var r := RenewedRow(w.row, w.leases[token], seconds, w.now);
        if r.Err? then w
        else w.(row := Some(r.value), leases := w.leases[token := w.leases[token].(expiresAt := w.now + seconds)])
    case TryRelease(token) => if token in w.leases then w.(row := ReleasedRow(w.row, w.leases[token])) else w
    case TryWrite(token) => if Passes(w, token) then w.(writes := w.writes + [token]) else w
  }

  function RunActions(w: World, actions: seq<Action>): World
    decreases |actions|
  {
    if actions == [] then w else RunActions(Act(w, actions[0]), actions[1..])
  }

  ghost predicate Distinct(s: seq<string>) {
    forall i, j :: 0 <= i < j < |s| ==> s[i] != s[j]
  }

  /** Writes come in blocks, one per holder, in the order the leases were acquired. */
  ghost predicate InBlocks(acquired: seq<string>, writes: seq<string>) {
    && (forall i :: 0 <= i < |writes| ==> writes[i] in acquired)
    && (forall i, j, a, b ::
          (0 <= i < j < |writes| && 0 <= a < |acquired| && 0 <= b < |acquired|
           && acquired[a] == writes[i] && acquired[b] == writes[j])
          ==> a <= b)
  }

  ghost predicate Fenceable(w: World) {
    && Distinct(w.acquired)
    && (forall t :: t in w.leases <==> t in w.acquired)
    && (forall t :: t in w.leases ==> w.leases[t].token == t)
    && (w.row.Some? ==> w.acquired != [] && w.row.value.token == w.acquired[|w.acquired| - 1])
    && InBlocks(w.acquired, w.writes)
  }

  /** A write by the latest holder extends the last block. */
  lemma WriteKeepsBlocks(acquired: seq<string>, writes: seq<string>)
    requires acquired != [] && Distinct(acquired) && InBlocks(acquired, writes)
    ensures InBlocks(acquired, writes + [acquired[|acquired| - 1]])
  {
  }

  /** A fresh lease opens a new, still empty block. */
  lemma AcquireKeepsBlocks(acquired: seq<string>, writes: seq<string>, token: string)
    requires token !in acquired && Distinct(acquired) && InBlocks(acquired, writes)
    ensures InBlocks(acquired + [token], writes) && Distinct(acquired + [token])
  {
    var more := acquired + [token];
    forall i, p | 0 <= i < |writes| && 0 <= p < |more| && more[p] == writes[i]
      ensures p < |acquired| && acquired[p] == writes[i]
    {
      assert writes[i] in acquired;
    }
  }

  lemma ActKeepsFenceable(w: World, a: Action)
    requires Fenceable(w)
    ensures Fenceable(Act(w, a))
  {
    var n := Act(w, a);
    if a.TryWrite? && n != w {
      WriteKeepsBlocks(w.acquired, w.writes);
    } else if a.TryAcquire? && n != w {
      AcquireKeepsBlocks(w.acquired, w.writes, a.token);
    }
    hide InBlocks, Distinct;
    assert n.acquired == w.acquired || n.acquired[|n.acquired| - 1] == n.row.value.token;
  }

  lemma {:induction false} RunKeepsFenceable(w: World, actions: seq<Action>)
    requires Fenceable(w)
    ensures Fenceable(RunActions(w, actions))
    decreases |actions|
  {
    if actions != [] {
      ActKeepsFenceable(w, actions[0]);
      RunKeepsFenceable(Act(w, actions[0]), actions[1..]);
    }
  }

  /** A token that was acquired and does not pass now does not pass after any action. */
  lemma LossIsStable(w: World, a: Action, token: string)
    requires Fenceable(w) && token in w.leases && !Passes(w, token)
    ensures token in Act(w, a).leases && !Passes(Act(w, a), token)
  {
  }

  /** A fenced, expired or released lease never passes again, whatever any session does. */
  lemma {:induction false} LostLeaseNeverReturns(w: World, actions: seq<Action>, token: string)
    requires Fenceable(w) && token in w.leases && !Passes(w, token)
    ensures !Passes(RunActions(w, actions), token)
    decreases |actions|
  {
    if actions != [] {
      LossIsStable(w, actions[0], token);
      ActKeepsFenceable(w, actions[0]);
      LostLeaseNeverReturns(Act(w, actions[0]), actions[1..], token);
    }
  }

  /**
   * Fencing over every interleaving: at most one token passes the guard, and
   * committed writes form one block per lease, in acquisition order.
   */
  lemma Fencing(actions: seq<Action>, t: string, u: string)
    ensures var w := RunActions(EmptyWorld, actions);
            && (Passes(w, t) && Passes(w, u) ==> t == u)
            && Distinct(w.acquired) && InBlocks(w.acquired, w.writes)
  {
    RunKeepsFenceable(EmptyWorld, actions);
  }

  /**
   * The epoch alone fences nothing: releasing deletes the row, so the next
   * lease is epoch 1 again, and only its token tells it from the first.
   */
  lemma EpochRestartsAfterRelease(session: string, a: string, b: string)
    requires a != b
    ensures var w := Act(Act(Act(EmptyWorld, TryAcquire(session, a, 30)), TryRelease(a)), TryAcquire(session, b, 30));
            && a in w.leases && b in w.leases
            && w.leases[a].epoch == w.leases[b].epoch && w.leases[a].session == w.leases[b].session
            && !Passes(w, a) && Passes(w, b)
  {
  }

  /** Two different leases were handed out with one epoch. */
  ghost predicate EpochRepeats(w: World) {
    exists t, u :: t in w.leases && u in w.leases && t != u && w.leases[t].epoch == w.leases[u].epoch
  }

  /** A lease is granted where one was held before and its row was released. */
  predicate AcquiresAfterRelease(w: World, a: Action) {
    a.TryAcquire? && a.token !in w.leases && 0 < a.seconds && w.row.None? && w.acquired != []
  }

  predicate EverAcquiresAfterRelease(w: World, actions: seq<Action>)
    decreases |actions|
  {
    actions != [] && (AcquiresAfterRelease(w, actions[0]) || EverAcquiresAfterRelease(Act(w, actions[0]), actions[1..]))
  }

  /** Epochs count from 1, and the stored row has the epoch of its lease. */
  ghost predicate EpochsCounted(w: World) {
    && Fenceable(w)
    && (w.acquired != [] ==> w.leases[w.acquired[0]].epoch == 1)
    && (w.row.Some? ==> w.row.value.token in w.leases && w.row.value.epoch == w.leases[w.row.value.token].epoch)
  }

  /** Every lease has a higher epoch than all before it. */
  ghost predicate EpochsRise(w: World)
    requires Fenceable(w)
  {
    forall i, j :: 0 <= i < j < |w.acquired| ==> w.leases[w.acquired[i]].epoch < w.leases[w.acquired[j]].epoch
  }

  lemma ActKeepsEpochs(w: World, a: Action)
    requires EpochsCounted(w)
    ensures EpochsCounted(Act(w, a))
    ensures forall t :: t in w.leases ==> t in Act(w, a).leases && Act(w, a).leases[t].epoch == w.leases[t].epoch
  {
    hide InBlocks, Distinct;
    ActKeepsFenceable(w, a);
  }

  /** What an action adds: a lease one epoch above the stored row. */
  lemma AcquiresOnTop(w: World, a: Action)
    requires Fenceable(w) && !AcquiresAfterRelease(w, a)
    ensures Act(w, a).acquired == w.acquired
            || (&& a.TryAcquire? && Act(w, a).acquired == w.acquired + [a.token] && a.token in Act(w, a).leases
                && (w.acquired != [] ==> w.row.Some? && Act(w, a).leases[a.token].epoch == w.row.value.epoch + 1))
  {
    hide InBlocks, Distinct;
  }

  lemma EpochsGoOnRising(w: World, a: Action)
    requires EpochsCounted(w) && EpochsRise(w) && !AcquiresAfterRelease(w, a)
    ensures Fenceable(Act(w, a)) && EpochsRise(Act(w, a))
  {
    hide InBlocks, Distinct, RenewedRow, ReleasedRow, Passes, Act;
    ActKeepsFenceable(w, a);
    ActKeepsEpochs(w, a);
    var n := Act(w, a);
    AcquiresOnTop(w, a);
    if n.acquired != w.acquired {
      var last := |w.acquired| - 1;
      forall i | 0 <= i <= last ensures w.leases[w.acquired[i]].epoch <= w.row.value.epoch {
        assert i < last ==> w.leases[w.acquired[i]].epoch < w.leases[w.acquired[last]].epoch;
      }
    }
  }

  lemma RestartRepeats(w: World, a: Action)
    requires EpochsCounted(w) && AcquiresAfterRelease(w, a)
    ensures EpochRepeats(Act(w, a))
  {
    var n := Act(w, a);
    assert w.acquired[0] in w.leases && a.token in n.leases && n.leases[a.token].epoch == 1;
    assert n.leases[w.acquired[0]].epoch == 1;
  }

  lemma RisingNeverRepeats(w: World)
    requires Fenceable(w) && EpochsRise(w)
    ensures !EpochRepeats(w)
  {
    forall t, u | t in w.leases && u in w.leases && t != u ensures w.leases[t].epoch != w.leases[u].epoch {
      var i :| 0 <= i < |w.acquired| && w.acquired[i] == t;
      var j :| 0 <= j < |w.acquired| && w.acquired[j] == u;
    }
  }

  lemma {:induction false} RepeatedStaysRepeated(w: World, actions: seq<Action>)
    requires EpochsCounted(w) && EpochRepeats(w)
    ensures EpochRepeats(RunActions(w, actions))
    decreases |actions|
  {
    if actions != [] {
      var t, u :| t in w.leases && u in w.leases && t != u && w.leases[t].epoch == w.leases[u].epoch;
      ActKeepsEpochs(w, actions[0]);
      hide Act, EpochsCounted;
      assert EpochRepeats(Act(w, actions[0]));
      RepeatedStaysRepeated(Act(w, actions[0]), actions[1..]);
    }
  }

  lemma {:induction false} RepeatsExactlyAfterRelease(w: World, actions: seq<Action>)
    requires EpochsCounted(w) && EpochsRise(w)
    ensures EpochRepeats(RunActions(w, actions)) <==> EverAcquiresAfterRelease(w, actions)
    decreases |actions|
  {
    if actions == [] {
      RisingNeverRepeats(w);
    } else {
      ActKeepsEpochs(w, actions[0]);
      if AcquiresAfterRelease(w, actions[0]) {
        RestartRepeats(w, actions[0]);
        RepeatedStaysRepeated(Act(w, actions[0]), actions[1..]);
      } else {
        EpochsGoOnRising(w, actions[0]);
        hide Act, EpochsCounted, EpochsRise, AcquiresAfterRelease;
        RepeatsExactlyAfterRelease(Act(w, actions[0]), actions[1..]);
      }
    }
  }

  /**
   * Over every run: some epoch is handed out twice exactly when a lease is
   * acquired after a release. Expiry and takeover alone never repeat one.
   */
  lemma EpochRepeatsExactlyAfterRelease(actions: seq<Action>)
    ensures EpochRepeats(RunActions(EmptyWorld, actions)) <==> EverAcquiresAfterRelease(EmptyWorld, actions)
  {
    RepeatsExactlyAfterRelease(EmptyWorld, actions);
  }

  // ------------------------------------------------------------------ how long a lease lasts

  /** The clock, and when a lease runs out, told from the actions alone. */
  datatype Term = Term(now: int, until: int)

  /** Renewing before the end moves the end, releasing brings it forward; nothing else does. */
  function NextTerm(t: Term, a: Action, token: string): Term {
    match a
    case Tick(seconds) => if 0 <= seconds then t.(now := t.now + seconds) else t
    case TryHeartbeat(other, seconds) =>
      if other == token && t.now < t.until && 0 < seconds then t.(until := t.now + seconds) else t
    case TryRelease(other) => if other == token && t.now < t.until then t.(until := t.now) else t
    case _ => t
  }

  function RunTerm(t: Term, actions: seq<Action>, token: string): Term
    decreases |actions|
  {
    if actions == [] then t else RunTerm(NextTerm(t, actions[0], token), actions[1..], token)
  }

  /** The lease passes exactly until its end, and until then the stored row is its own. */
  ghost predicate InTerm(w: World, t: Term, token: string) {
    && Fenceable(w) && token in w.leases && w.now == t.now
    && (Passes(w, token) <==> t.now < t.until)
    && (Passes(w, token) ==> w.row.value.expiresAt == t.until)
  }

  lemma StepKeepsTerm(w: World, t: Term, a: Action, token: string)
    requires InTerm(w, t, token)
    ensures InTerm(Act(w, a), NextTerm(t, a, token), token)
  {
    hide InBlocks, Distinct;
    ActKeepsFenceable(w, a);
    assert forall x, y :: x in w.leases && y in w.leases && w.leases[x].token == w.leases[y].token ==> x == y;
  }

  lemma {:induction false} RunKeepsTerm(w: World, t: Term, actions: seq<Action>, token: string)
    requires InTerm(w, t, token)
    ensures InTerm(RunActions(w, actions), RunTerm(t, actions, token), token)
    decreases |actions|
  {
    if actions != [] {
      StepKeepsTerm(w, t, actions[0], token);
      hide InTerm, Act, NextTerm;
      RunKeepsTerm(Act(w, actions[0]), NextTerm(t, actions[0], token), actions[1..], token);
    }
  }

  /**
   * How long a lease lasts: granted for some seconds, and whatever any session
   * does afterwards, it passes exactly until those seconds are over, or those
   * of its last renewal before its end, or until it is released.
   */
  lemma LeaseLastsExactlyItsTerm(before: seq<Action>, session: string, token: string, seconds: int,
                                 actions: seq<Action>)
    requires var w := RunActions(EmptyWorld, before);
             token !in w.leases && token in Act(w, TryAcquire(session, token, seconds)).leases
    ensures var w := RunActions(EmptyWorld, before);
            var n := RunActions(Act(w, TryAcquire(session, token, seconds)), actions);
            var t := RunTerm(Term(w.now, w.now + seconds), actions, token);
            n.now == t.now && (Passes(n, token) <==> t.now < t.until)
  {
    var w := RunActions(EmptyWorld, before);
    RunKeepsFenceable(EmptyWorld, before);
    ActKeepsFenceable(w, TryAcquire(session, token, seconds));
    RunKeepsTerm(Act(w, TryAcquire(session, token, seconds)), Term(w.now, w.now + seconds), actions, token);
  }

  /** The stored row belongs to a lease that was handed out. */
  ghost predicate RowIsLeased(w: World) {
    && Fenceable(w)
    && (w.row.Some? ==> w.row.value.token in w.leases && Matches(w.row.value, w.leases[w.row.value.token]))
  }

  lemma {:induction false} RunKeepsRowLeased(w: World, actions: seq<Action>)
    requires RowIsLeased(w)
    ensures RowIsLeased(RunActions(w, actions))
    decreases |actions|
  {
    if actions != [] {
      ActKeepsRowLeased(w, actions[0]);
      hide RowIsLeased, Act;
      RunKeepsRowLeased(Act(w, actions[0]), actions[1..]);
    }
  }

  lemma ActKeepsRowLeased(w: World, a: Action)
    requires RowIsLeased(w)
    ensures RowIsLeased(Act(w, a))
  {
    hide InBlocks, Distinct;
    ActKeepsFenceable(w, a);
  }

  /** Over every run: a new session is granted a lease exactly when no lease passes the guard. */
  lemma GrantedExactlyWhenNonePasses(actions: seq<Action>, session: string, token: string, seconds: int)
    requires token !in RunActions(EmptyWorld, actions).leases
    ensures var w := RunActions(EmptyWorld, actions);
            token in Act(w, TryAcquire(session, token, seconds)).leases
            <==> 0 < seconds && forall t :: !Passes(w, t)
  {
    RunKeepsRowLeased(EmptyWorld, actions);
    var w := RunActions(EmptyWorld, actions);
    assert w.row.Some? && w.now < w.row.value.expiresAt ==> Passes(w, w.row.value.token);
  }

  /** The row disappears only when its own lease is released. */
  lemma OnlyReleaseEmptiesTheRow(w: World, a: Action)
    requires w.row.Some? && Act(w, a).row.None?
    ensures a.TryRelease? && a.token in w.leases && Matches(w.row.value, w.leases[a.token])
  {
  }
}
