/**
 * The live-canary fuse of one bridge session: session quotas, the halt after
 * an unknown mutation, and what crosses the broker boundary
 * (BIGQMT_EXECUTION_BRIDGE_V05_GUOJIN.py).
 */
module CanaryFuse {
  import opened Basics

  const MAX_SUBMIT_CALLS: nat := 1
  const MAX_CANCEL_CALLS: nat := 1

  datatype CommandKind = SnapshotRequest | SubmitLimit | CancelOrder | Unsupported

  datatype Command = Command(
    kind: CommandKind,
    expires: int,
    canary: bool,
    calibration: bool,
    sessionId: string,
    symbol: string,
    side: string,
    quantity: int,
    price: Option<real>)

  /** A check that passes, refuses with a safety error, or fails in some other way. */
  datatype CheckOutcome = Passes | Refuses | Fails

  /** How the terminal answers while one command is processed. */
  datatype Terminal = Terminal(
    now: int,
    readable: bool,
    gateOpen: bool,
    sessionId: string,
    snapshotWorks: bool,
    windowOpen: bool,
    instrument: CheckOutcome,
    cash: CheckOutcome,
    target: CheckOutcome,
    cancellable: Option<bool>,
    submitReturns: bool,
    cancelReturns: Option<bool>)

  datatype Session = Session(submitCalls: nat, cancelCalls: nat, halted: bool)

  /** What really crossed the broker boundary: calls entered, and whether one raised. */
  datatype Crossings = Crossings(submits: nat, cancels: nat, lost: bool)

  datatype Execution = GateRejected | Raised | SubmitReturned | NotCancellable | CancelSent | CancelNotSent

  datatype Result =
    | CommandRejected
    | ExpiredCommand
    | SnapshotEmitted
    | SnapshotLost
    | SafetyRejected
    | MutationUnknown
    | Executed(how: Execution)

  predicate AuthorizedCase(c: Command) {
    c.symbol == "00700.HGT" && c.side == "BUY" && c.quantity == 100 && c.price == Some(1.0)
  }

  /** The checks before any mutation, in the order they are made. */
  function Gate(s: Session, c: Command, t: Terminal): CheckOutcome {
    if !t.gateOpen then Refuses
    else if !c.canary || c.calibration || c.sessionId != t.sessionId then Refuses
    else if s.halted then Refuses
    else match c.kind
         case SubmitLimit =>
           if s.submitCalls >= MAX_SUBMIT_CALLS then Refuses
           else if !AuthorizedCase(c) then Refuses
           else if !t.windowOpen then Refuses
           else if t.instrument != Passes then t.instrument
           else t.cash
         case CancelOrder =>
           if s.cancelCalls >= MAX_CANCEL_CALLS then Refuses
           else if t.target != Passes then t.target
           else if t.cancellable.None? then Fails
           else Passes
         case _ => Refuses
  }

  /** One execution: the counters, the crossings, and the outcome. */
  function Execute(s: Session, b: Crossings, c: Command, t: Terminal): (Session, Crossings, Execution) {
    match Gate(s, c, t)
    case Refuses => (s, b, GateRejected)
    case Fails => (s, b, Raised)
    case Passes =>
      if c.kind == SubmitLimit then
        (s.(submitCalls := s.submitCalls + 1),
         b.(submits := b.submits + 1, lost := b.lost || !t.submitReturns),
         if t.submitReturns then SubmitReturned else Raised)
      else if t.cancellable == Some(false) then (s, b, NotCancellable)
      else if t.cancelReturns.None? then (s, b.(cancels := b.cancels + 1, lost := true), Raised)
      else (s.(cancelCalls := s.cancelCalls + 1), b.(cancels := b.cancels + 1),
            if t.cancelReturns.value then CancelSent else CancelNotSent)
  }

  function Process(s: Session, b: Crossings, c: Command, t: Terminal): (Session, Crossings, Result) {
    if !t.readable then (s, b, CommandRejected)
    else if c.expires <= t.now then (s, b, ExpiredCommand)
    else if c.kind == SnapshotRequest then (s, b, if t.snapshotWorks then SnapshotEmitted else SnapshotLost)
    else
      var (after, crossed, how) := Execute(s, b, c, t);
      match how
      case GateRejected => (after, crossed, SafetyRejected)
      case Raised => (after.(halted := true), crossed, MutationUnknown)
      case _ => (after, crossed, Executed(how))
  }

  datatype Turn = Turn(c: Command, t: Terminal)

  function RunTurns(s: Session, b: Crossings, turns: seq<Turn>): (Session, Crossings)
    decreases |turns|
  {
    if turns == [] then (s, b)
    else
      var (after, crossed, _) := Process(s, b, turns[0].c, turns[0].t);
      RunTurns(after, crossed, turns[1..])
  }

  // ------------------------------------------------------------------------ invariant

  /**
   * A submit is counted before it is made. A cancel is counted only when it
   * returns, so one that raised is covered by the halt alone.
   */
  predicate Fused(s: Session, b: Crossings) {
    && b.submits == s.submitCalls <= MAX_SUBMIT_CALLS
    && s.cancelCalls <= b.cancels <= MAX_CANCEL_CALLS
    && (b.cancels == s.cancelCalls || s.halted)
    && (b.lost ==> s.halted)
  }

  lemma ProcessKeepsFuse(s: Session, b: Crossings, c: Command, t: Terminal)
    requires Fused(s, b)
    ensures var (after, crossed, _) := Process(s, b, c, t);
            && Fused(after, crossed)
            && (s.halted ==> after == s && crossed == b)
            && (b.lost ==> crossed == b)
            && (crossed.submits > b.submits ==> AuthorizedCase(c) && c.sessionId == t.sessionId && t.windowOpen)
  {
  }

  /** The command was read in time, by the deployed canary, and is meant for this very session. */
  predicate Admitted(s: Session, c: Command, t: Terminal) {
    && t.readable && t.now < c.expires && t.gateOpen
    && c.canary && !c.calibration && c.sessionId == t.sessionId && !s.halted
  }

  /**
   * The broker boundary is crossed exactly when every check passes: a submit
   * for the one authorized case, inside the trading window, with instrument
   * and account checked, and no submit before it; a cancel for a matching
   * order that can be cancelled, and no counted cancel before it. Nothing
   * crosses twice at once.
   */
  lemma CrossesExactlyWhen(s: Session, b: Crossings, c: Command, t: Terminal)
    ensures var crossed := Process(s, b, c, t).1;
            && crossed.submits == b.submits + (
                 if Admitted(s, c, t) && c.kind == SubmitLimit && s.submitCalls == 0
                    && c.symbol == "00700.HGT" && c.side == "BUY" && c.quantity == 100 && c.price == Some(1.0)
                    && t.windowOpen && t.instrument == Passes && t.cash == Passes then 1 else 0)
            && crossed.cancels == b.cancels + (
                 if Admitted(s, c, t) && c.kind == CancelOrder && s.cancelCalls == 0
                    && t.target == Passes && t.cancellable.Some? && t.cancellable.value then 1 else 0)
  {
  }

  /** A check before the call failed in a way that is no refusal. */
  predicate CheckFails(s: Session, c: Command, t: Terminal) {
    && Admitted(s, c, t)
    && (|| (&& c.kind == SubmitLimit && s.submitCalls == 0 && AuthorizedCase(c) && t.windowOpen
            && (t.instrument == Fails || (t.instrument == Passes && t.cash == Fails)))
        || (&& c.kind == CancelOrder && s.cancelCalls == 0
            && (t.target == Fails || (t.target == Passes && t.cancellable.None?))))
  }

  /** What the command is told: its snapshot, its refusal, the returned call, or that its effect is unknown. */
  lemma ResultTellsWhatCrossed(s: Session, b: Crossings, c: Command, t: Terminal)
    ensures var (after, crossed, result) := Process(s, b, c, t);
            var submits, cancels := crossed.submits > b.submits, crossed.cancels > b.cancels;
            && (result == CommandRejected <==> !t.readable)
            && (result == ExpiredCommand <==> t.readable && c.expires <= t.now)
            && (result in {SnapshotEmitted, SnapshotLost} <==>
                t.readable && t.now < c.expires && c.kind == SnapshotRequest)
            && (result == SnapshotEmitted ==> t.snapshotWorks) && (result == SnapshotLost ==> !t.snapshotWorks)
            && (result == Executed(SubmitReturned) <==> submits && t.submitReturns)
            && (result == Executed(CancelSent) <==> cancels && t.cancelReturns == Some(true))
            && (result == Executed(CancelNotSent) <==> cancels && t.cancelReturns == Some(false))
            && (result == MutationUnknown <==>
                (submits && !t.submitReturns) || (cancels && t.cancelReturns.None?) || CheckFails(s, c, t))
            && (result == MutationUnknown ==>
                  !s.halted && after == s.(halted := true, submitCalls := after.submitCalls))
            && (result != MutationUnknown ==> after.halted == s.halted && crossed.lost == b.lost)
            && ((submits && !t.submitReturns) || (cancels && t.cancelReturns.None?) ==> crossed.lost)
            && (!submits && !cancels && result != MutationUnknown ==> after == s && crossed == b)
  {
  }

  lemma {:induction false} RunKeepsFuse(s: Session, b: Crossings, turns: seq<Turn>)
    requires Fused(s, b)
    ensures var (after, crossed) := RunTurns(s, b, turns);
            Fused(after, crossed) && (s.halted ==> crossed == b)
    decreases |turns|
  {
    if turns != [] {
      var (after, crossed, _) := Process(s, b, turns[0].c, turns[0].t);
      ProcessKeepsFuse(s, b, turns[0].c, turns[0].t);
      RunKeepsFuse(after, crossed, turns[1..]);
    }
  }

  lemma {:induction false} RunsSplit(s: Session, b: Crossings, first: seq<Turn>, second: seq<Turn>)
    ensures RunTurns(s, b, first + second) == RunTurns(RunTurns(s, b, first).0, RunTurns(s, b, first).1, second)
    decreases |first|
  {
    if first == [] {
      assert first + second == second;
    } else {
      assert (first + second)[1..] == first[1..] + second;
      var (after, crossed, _) := Process(s, b, first[0].c, first[0].t);
      RunsSplit(after, crossed, first[1..], second);
    }
  }

  /**
   * In one session, whatever is commanded and however the broker fails:
   * at most one submit and one cancel are entered, calls that raise included,
   * and nothing is entered after a mutation whose outcome is unknown.
   */
  lemma FuseHolds(before: seq<Turn>, later: seq<Turn>)
    ensures var start, nothing := Session(0, 0, false), Crossings(0, 0, false);
            var now := RunTurns(start, nothing, before).1;
            var end := RunTurns(start, nothing, before + later).1;
            && end.submits <= 1 && end.cancels <= 1
            && (now.lost ==> end == now)
  {
    var start, nothing := Session(0, 0, false), Crossings(0, 0, false);
    RunKeepsFuse(start, nothing, before);
    RunsSplit(start, nothing, before, later);
    RunKeepsFuse(RunTurns(start, nothing, before).0, RunTurns(start, nothing, before).1, later);
  }

  /** The cancel counter alone would not hold: after a cancel that raised it still reads zero. */
  lemma RaisedCancelIsUncounted(s: Session, b: Crossings, c: Command, t: Terminal)
    requires Fused(s, b) && Execute(s, b, c, t).2 == Raised && Execute(s, b, c, t).1.cancels > b.cancels
    ensures Execute(s, b, c, t).0.cancelCalls < MAX_CANCEL_CALLS
    ensures Process(s, b, c, t).2 == MutationUnknown ==> Process(s, b, c, t).0.halted
  {
  }

  // -------------------------------------------------------------------- implementation

  class LiveCanaryBridge {
    var submitCalls: nat
    var cancelCalls: nat
    var halted: bool
    var processed: nat
    var rejected: nat
    var unknown: nat
    ghost var crossings: Crossings

    constructor ()
      ensures Counters() == Session(0, 0, false) && crossings == Crossings(0, 0, false)
      ensures processed == rejected == unknown == 0
    {
      submitCalls, cancelCalls, halted, processed, rejected, unknown := 0, 0, false, 0, 0, 0;
      crossings := Crossings(0, 0, false);
    }

    ghost function Counters(): Session
      reads this
    {
      Session(submitCalls, cancelCalls, halted)
    }

    method PassOrder(t: Terminal) returns (returned: bool)
      modifies `crossings
      ensures returned == t.submitReturns
      ensures crossings == old(crossings).(submits := old(crossings).submits + 1,
                                           lost := old(crossings).lost || !returned)
    {
      crossings := crossings.(submits := crossings.submits + 1, lost := crossings.lost || !t.submitReturns);
      returned := t.submitReturns;
    }

    method Cancel(t: Terminal) returns (signalled: Option<bool>)
      modifies `crossings
      ensures signalled == t.cancelReturns
      ensures crossings == old(crossings).(cancels := old(crossings).cancels + 1,
                                           lost := old(crossings).lost || signalled.None?)
    {
      crossings := crossings.(cancels := crossings.cancels + 1, lost := crossings.lost || t.cancelReturns.None?);
      signalled := t.cancelReturns;
    }

    method ExecuteOrderCommand(c: Command, t: Terminal) returns (how: Execution)
      modifies `submitCalls, `cancelCalls, `crossings
      ensures (Counters(), crossings, how) == Execute(old(Counters()), old(crossings), c, t)
    {
      if !t.gateOpen || !c.canary || c.calibration || c.sessionId != t.sessionId || halted {
        return GateRejected;
      }
      if c.kind == SubmitLimit {
        if submitCalls >= MAX_SUBMIT_CALLS || !AuthorizedCase(c) || !t.windowOpen {
          return GateRejected;
        }
        if t.instrument != Passes {
          return if t.instrument == Refuses then GateRejected else Raised;
        }
        if t.cash != Passes {
          return if t.cash == Refuses then GateRejected else Raised;
        }
        submitCalls := submitCalls + 1;
        var returned := PassOrder(t);
        return if returned then SubmitReturned else Raised;
      }
      if c.kind == CancelOrder {
        if cancelCalls >= MAX_CANCEL_CALLS {
          return GateRejected;
        }
        if t.target != Passes {
          return if t.target == Refuses then GateRejected else Raised;
        }
        if t.cancellable.None? {
          return Raised;
        }
        if !t.cancellable.value {
          return NotCancellable;
        }
        var signalled := Cancel(t);
        if signalled.None? {
          return Raised;
        }
        cancelCalls := cancelCalls + 1;
        return if signalled.value then CancelSent else CancelNotSent;
      }
      how := GateRejected;
    }

    /** One claimed command; every command ends in exactly one directory. */
    method ProcessClaimed(c: Command, t: Terminal) returns (result: Result)
      modifies this
      ensures (Counters(), crossings, result) == Process(old(Counters()), old(crossings), c, t)
      ensures processed == old(processed) + if result.Executed? || result == SnapshotEmitted then 1 else 0
      ensures unknown == old(unknown) + if result in {SnapshotLost, MutationUnknown} then 1 else 0
      ensures rejected == old(rejected) + if result in {CommandRejected, ExpiredCommand, SafetyRejected} then 1 else 0
      ensures old(Fused(Counters(), crossings)) ==> Fused(Counters(), crossings)
    {
      if Fused(Counters(), crossings) {
        ProcessKeepsFuse(Counters(), crossings, c, t);
      }
      hide Execute, Fused;
      if !t.readable {
        rejected := rejected + 1;
        return CommandRejected;
      }
      if c.expires <= t.now {
        rejected := rejected + 1;
        return ExpiredCommand;
      }
      if c.kind == SnapshotRequest {
        if !t.snapshotWorks {
          unknown := unknown + 1;
          return SnapshotLost;
        }
        processed := processed + 1;
        return SnapshotEmitted;
      }
      var how := ExecuteOrderCommand(c, t);
      if how == GateRejected {
        rejected := rejected + 1;
        return SafetyRejected;
      }
      if how == Raised {
        halted := true;
        unknown := unknown + 1;
        return MutationUnknown;
      }
      processed := processed + 1;
      result := Executed(how);
    }
  }
}
