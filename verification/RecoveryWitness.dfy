/**
 * A history from the empty database after which a second recovery of the same
 * session returns and leaves an order in RECONCILING: the broker has nothing
 * new to say, so the evidence is a repeat (oms/service.py, `recover`).
 */
module RecoveryWitness {
  import opened Basics
  import opened OrderLifecycle
  import opened OrderRows
  import opened BrokerEvidence
  import opened EvidenceJournal
  import opened JournalHistory
  import opened JournalWitnesses
  import opened BrokerDriver
  import opened OmsService

  const WorkingAtBroker := DriverOrder(Some("B"), Acknowledged, 0)

  function RecoveryEvidence(session: string, k: OrderKey, now: int): Evidence {
    QueryEvidence(session, StartupReason, k, WorkingAtBroker, OrderAccepted, now)
  }

  function WaitingRow(status: Status, cancelled: bool): Order {
    var brokerId := if status in {Acknowledged, CancelPending} || cancelled then Some("B") else None;
    Order(status, brokerId, 0, 2, true, cancelled, false)
  }

  lemma AnswerMerges()
    ensures MergeFact(WaitingRow(Reconciling, false), Acknowledged, Some("B"), 0).Ok?
    ensures MergeFact(WaitingRow(Reconciling, false), Acknowledged, Some("B"), 0).value.0
              == WaitingRow(Acknowledged, false)
  {
  }

  /** Submitted, answer lost, recovered once by `session`, cancelled, answer lost again. */
  lemma ReachRecoveredOnce(session: string, k: OrderKey) returns (j: Journal)
    requires k.clientOrderId != ""
    ensures Reached(j) && j.orders == map[k := WaitingRow(Unknown, true)]
    ensures j.keys.Keys == {FingerprintOf(RecoveryEvidence(session, k, 1))}
  {
    hide Reached, MergeFact, Suppressed, FingerprintOf, SameIdentity;
    var e := RecoveryEvidence(session, k, 1);
    ReachReserved(k, 2);
    ReachWrite(Reserved(k, 2), k, ToUnknown, WaitingRow(Unknown, false));
    var lost := PutOrder(Reserved(k, 2), k, WaitingRow(Unknown, false));
    ReachWrite(lost, k, ToReconciling, WaitingRow(Reconciling, false));
    var asking := PutOrder(lost, k, WaitingRow(Reconciling, false));
    NothingIsSuppressed(asking, e);
    AnswerMerges();
    var known := ReachFact(asking, e, WaitingRow(Reconciling, false), WaitingRow(Acknowledged, false));
    j := ReachLostCancel(known, k);
  }

  lemma ReachLostCancel(known: Journal, k: OrderKey) returns (j: Journal)
    requires Reached(known) && known.orders == map[k := WaitingRow(Acknowledged, false)]
    ensures Reached(j) && j == known.(orders := map[k := WaitingRow(Unknown, true)])
  {
    hide Reached;
    ReachWrite(known, k, ReserveCancel, WaitingRow(CancelPending, true));
    var pending := PutOrder(known, k, WaitingRow(CancelPending, true));
    ReachWrite(pending, k, ToUnknown, WaitingRow(Unknown, true));
    j := PutOrder(pending, k, WaitingRow(Unknown, true));
  }

  /** The transactions of the second recovery, for this one order. */
  function SecondRecovery(session: string, k: OrderKey): seq<JournalStep> {
    [Write(k, ToReconciling), Deliver(RecoveryEvidence(session, k, 2)), Write(k, SameStatus(Some(true)))]
  }

  /**
   * The broker still reports the order working, as it did the first time. The
   * second recovery meets its own evidence, marks the cancel resolved, and the
   * order stays in RECONCILING.
   */
  lemma SecondRecoveryLeavesReconciling(session: string, k: OrderKey)
    requires k.clientOrderId != ""
    ensures exists j ::
              && Reached(j) && k in j.orders
              && Repeats(j.keys, session, StartupReason, k, Some(WorkingAtBroker))
              && StaysAmbiguous(j.orders[k], true)
              && RunHistory(j, SecondRecovery(session, k)).orders
                    == map[k := RecoveredRow(j.orders[k], Some(WorkingAtBroker), true)]
              && RecoveredRow(j.orders[k], Some(WorkingAtBroker), true).status == Reconciling
  {
    var j := ReachRecoveredOnce(session, k);
    hide Reached;
    FingerprintIsTimeless(session, StartupReason, k, WorkingAtBroker, OrderAccepted, 1);
    RepeatRuns(j, session, k);
    assert StaysAmbiguous(j.orders[k], true);
  }

  lemma RepeatRuns(j: Journal, session: string, k: OrderKey)
    requires Reached(j) && j.orders == map[k := WaitingRow(Unknown, true)] && k.clientOrderId != ""
    requires j.keys.Keys == {FingerprintOf(RecoveryEvidence(session, k, 1))}
    ensures RunHistory(j, SecondRecovery(session, k)).orders
              == map[k := WaitingRow(Reconciling, true).(cancelResolved := true)]
  {
    hide Reached, FingerprintOf, Ingest, Sound;
    var steps, e := SecondRecovery(session, k), RecoveryEvidence(session, k, 2);
    var asking := Advance(j, steps[0]);
    assert asking == PutOrder(j, k, WaitingRow(Reconciling, true));
    ReachOne(j, steps[0]);
    ReachedIsSound(asking);
    FingerprintIsTimeless(session, StartupReason, k, WorkingAtBroker, OrderAccepted, 1);
    FingerprintIsTimeless(session, StartupReason, k, WorkingAtBroker, OrderAccepted, 2);
    StoredFactIsNotReconciling(asking, e);
    var heard := Advance(asking, steps[1]);
    assert heard.orders == asking.orders;
    RunThree(j, steps);
  }

  lemma RunThree(j: Journal, steps: seq<JournalStep>)
    requires |steps| == 3
    ensures RunHistory(j, steps) == Advance(Advance(Advance(j, steps[0]), steps[1]), steps[2])
  {
    hide Advance;
    assert steps[1..][1..] == [steps[2]] && [steps[2]][1..] == [];
    assert steps[1..][0] == steps[1];
    assert RunHistory(Advance(Advance(j, steps[0]), steps[1]), [steps[2]])
             == Advance(Advance(Advance(j, steps[0]), steps[1]), steps[2]);
  }
}
