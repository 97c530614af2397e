/**
 * The repository and the evidence journal as they run: guarded transactions
 * that update one shared database in place and roll back on any error
 * (oms/repository.py, oms/evidence.py, oms/db.py). Each method is proved
 * against the pure row and journal functions.
 */
module OmsStore {
  import opened Basics
  import opened OrderLifecycle
  import opened OrderRows
  import opened BrokerEvidence
  import opened EvidenceJournal
  import opened LeaderLease

  datatype OmsError =
    | LeaderLost(why: LeaseError)
    | OrderNotFound
    | DuplicateIntent
    | BadQuantity
    | RowRefused(row: RowError)

  /** The tables shared by every session. */
  class Database {
    var orders: map<OrderKey, Order>
    var keys: map<Fingerprint, KeyRow>
    var observations: seq<Observation>
    const leader: LeaderCoordinator

    constructor ()
      ensures orders == map[] && keys == map[] && observations == [] && fresh(leader) && leader.row == None
    {
      orders, keys, observations := map[], map[], [];
      leader := new LeaderCoordinator();
    }

    ghost function Stored(): Journal
      reads this
    {
      Journal(orders, keys, observations)
    }
  }

  /** One session's access to the order table, fenced by its lease. */
  class OmsRepository {
    const db: Database
    var lease: Lease

    constructor (db: Database, lease: Lease)
      ensures this.db == db && this.lease == lease
    {
      this.db := db;
      this.lease := lease;
    }

    ghost function Guard(now: int): Option<LeaseError>
      reads this, db.leader
    {
      Check(db.leader.row, lease, now)
    }

    /** The transaction did nothing: the guard refused it, or it raised. */
    twostate predicate OnlyOrders(k: OrderKey, new r: Result<Order, OmsError>)
      reads db
    {
      && db.keys == old(db.keys) && db.observations == old(db.observations)
      && db.orders == if r.Ok? then old(db.orders)[k := r.value] else old(db.orders)
    }

    method CreateIntent(k: OrderKey, quantity: int, now: int) returns (r: Result<Order, OmsError>)
      modifies db
      ensures OnlyOrders(k, r)
      ensures r ==
              if Guard(now).Some? then Err(LeaderLost(Guard(now).value))
              else if quantity <= 0 then Err(BadQuantity)
              else if k in old(db.orders) then Err(DuplicateIntent)
              else Ok(NewOrder(quantity))
    {
      var failure := db.leader.AssertHeld(lease, now);
      if failure.Some? {
        return Err(LeaderLost(failure.value));
      }
      if quantity <= 0 {
        return Err(BadQuantity);
      }
      if k in db.orders {
        return Err(DuplicateIntent);
      }
      var row := Order(Created, None, 0, quantity, false, false, false);
      db.orders := db.orders[k := row];
      r := Ok(row);
    }

    method TransitionOrder(k: OrderKey, target: Status, resolved: Option<bool>, now: int)
      returns (r: Result<Order, OmsError>)
      modifies db
      ensures OnlyOrders(k, r)
      ensures r ==
              if Guard(now).Some? then Err(LeaderLost(Guard(now).value))
              else if k !in old(db.orders) then Err(OrderNotFound)
              else Refused(Committed(CommandTransition(old(db.orders)[k], target, resolved)))
    {
      hide CommandTransition, Check;
      var failure := db.leader.AssertHeld(lease, now);
      if failure.Some? {
        return Err(LeaderLost(failure.value));
      }
      if k !in db.orders {
        return Err(OrderNotFound);
      }
      var moved := TransitionInTx(k, target, resolved);
      r := if moved.Ok? then Ok(moved.value) else Err(RowRefused(moved.error));
    }

    /** One command-path transition inside the caller's transaction. */
    method TransitionInTx(k: OrderKey, target: Status, resolved: Option<bool>) returns (r: Result<Order, RowError>)
      requires k in db.orders
      modifies db
      ensures db.keys == old(db.keys) && db.observations == old(db.observations)
      ensures r == Committed(CommandTransition(old(db.orders)[k], target, resolved))
      ensures db.orders == if r.Ok? then old(db.orders)[k := r.value] else old(db.orders)
    {
      hide Transition;
      var row := db.orders[k];
      var t := Transition(row.status, target);
      if t.Err? {
        return Err(IllegalTransition);
      }
      if t.value.Changed() {
        row := row.(status := t.value.current);
      }
      if resolved.Some? {
        row := row.(cancelResolved := resolved.value);
      }
      db.orders := db.orders[k := row];
      r := Ok(row);
    }

    method PrepareSubmit(k: OrderKey, now: int) returns (r: Result<Order, OmsError>)
      modifies db
      ensures OnlyOrders(k, r)
      ensures r ==
              if Guard(now).Some? then Err(LeaderLost(Guard(now).value))
              else if k !in old(db.orders) then Err(OrderNotFound)
              else Refused(OrderRows.PrepareSubmit(old(db.orders)[k]))
    {
      var failure := db.leader.AssertHeld(lease, now);
      if failure.Some? {
        return Err(LeaderLost(failure.value));
      }
      if k !in db.orders {
        return Err(OrderNotFound);
      }
      var row := db.orders[k];
      var t := Transition(row.status, Submitting);
      if t.Err? {
        return Err(RowRefused(IllegalTransition));
      }
      if !t.value.Changed() || row.submitStarted {
        return Err(RowRefused(AlreadyStarted));
      }
      row := row.(status := Submitting, submitStarted := true);
      db.orders := db.orders[k := row];
      r := Ok(row);
    }

    method PrepareCancel(k: OrderKey, now: int) returns (r: Result<Order, OmsError>)
      modifies db
      ensures OnlyOrders(k, r)
      ensures r ==
              if Guard(now).Some? then Err(LeaderLost(Guard(now).value))
              else if k !in old(db.orders) then Err(OrderNotFound)
              else Refused(OrderRows.PrepareCancel(old(db.orders)[k]))
    {
      var failure := db.leader.AssertHeld(lease, now);
      if failure.Some? {
        return Err(LeaderLost(failure.value));
      }
      if k !in db.orders {
        return Err(OrderNotFound);
      }
      var row := db.orders[k];
      var t := Transition(row.status, CancelPending);
      if t.Err? {
        return Err(RowRefused(IllegalTransition));
      }
      if !t.value.Changed() || row.cancelStarted {
        return Err(RowRefused(AlreadyStarted));
      }
      row := row.(status := CancelPending, cancelStarted := true, cancelResolved := false);
      db.orders := db.orders[k := row];
      r := Ok(row);
    }

    /** Merges one broker fact inside the caller's transaction. */
    method MergeFactInTx(k: OrderKey, target: Status, brokerId: Option<string>, fill: int)
      returns (r: Result<Outcome, RowError>)
      requires k in db.orders
      modifies db
      ensures db.keys == old(db.keys) && db.observations == old(db.observations)
      ensures match MergeFact(old(db.orders)[k], target, brokerId, fill)
              case Ok((p, outcome)) => r == Ok(outcome) && db.orders == old(db.orders)[k := p]
              case Err(e) => r == Err(e) && db.orders == old(db.orders)
    {
      hide Normalize, Aggregate;
      var row := db.orders[k];
      if brokerId.Some? && row.brokerId.Some? && row.brokerId.value != brokerId.value {
        return Err(BrokerIdMismatch);
      }
      if IsBrokerTerminal(row.status) && IsBrokerTerminal(target) && row.status != target {
        return Err(LifecycleConflict);
      }
      if fill < 0 || fill > row.quantity {
        return Err(InvalidFill(OutsideRange));
      }
      var effective := if row.filled < fill then fill else row.filled;
      var normalized := Normalize(target, effective, row.quantity);
      if normalized.Err? {
        return Err(InvalidFill(normalized.error));
      }
      if IsBrokerTerminal(row.status) && IsBrokerTerminal(normalized.value) && row.status != normalized.value {
        return Err(LifecycleConflict);
      }
      if row.status in {Cancelled, Rejected} && effective > row.filled {
        return Err(LifecycleConflict);
      }
      var outcome := Aggregate(row.status, normalized.value);
      WriteMerged(k, outcome, brokerId, effective);
      r := Ok(outcome);
    }

    /** Updates only the columns that changed; a broker id is written once. */
    method WriteMerged(k: OrderKey, outcome: Outcome, brokerId: Option<string>, effective: int)
      requires k in db.orders && outcome.previous == db.orders[k].status
      modifies db
      ensures db.keys == old(db.keys) && db.observations == old(db.observations)
      ensures var o := old(db.orders)[k];
              db.orders == old(db.orders)[k := o.(status := outcome.current,
                                                  brokerId := if o.brokerId.None? then brokerId else o.brokerId,
                                                  filled := effective)]
    {
      var row := db.orders[k];
      if outcome.Changed() {
        row := row.(status := outcome.current);
      }
      if brokerId.Some? && row.brokerId.None? {
        row := row.(brokerId := brokerId);
      }
      if effective != row.filled {
        row := row.(filled := effective);
      }
      db.orders := db.orders[k := row];
    }

    /** Sends an order to manual review after contradictory evidence. */
    method MarkConflictInTx(k: OrderKey, fill: Option<int>) returns (r: Result<Order, RowError>)
      requires k in db.orders
      modifies db
      ensures db.keys == old(db.keys) && db.observations == old(db.observations)
      ensures r == MarkConflict(old(db.orders)[k], fill)
      ensures db.orders == if r.Ok? then old(db.orders)[k := r.value] else old(db.orders)
    {
      var row := db.orders[k];
      if fill.Some? {
        if fill.value < 0 || fill.value > row.quantity {
          return Err(InvalidFill(OutsideRange));
        }
        row := row.(filled := Max(row.filled, fill.value));
      }
      row := row.(status := ManualReview);
      db.orders := db.orders[k := row];
      r := Ok(row);
    }
  }

  function Refused(r: Result<Order, RowError>): Result<Order, OmsError> {
    match r
    case Ok(o) => Ok(o)
    case Err(e) => Err(RowRefused(e))
  }

  /** The journal of one session. */
  class Journalist {
    const db: Database
    const repository: OmsRepository

    constructor (repository: OmsRepository)
      ensures this.repository == repository && this.db == repository.db
    {
      this.repository := repository;
      this.db := repository.db;
    }

    /** One ingest transaction: exactly the pure one, or nothing when the guard refuses. */
    method IngestEvidence(e: Evidence, now: int) returns (r: Result<Answer, OmsError>)
      requires repository.db == db
      requires Sound(db.Stored()) && ValidEvidence(e)
      modifies db
      ensures match repository.Guard(now)
              case Some(why) => r == Err(LeaderLost(why)) && db.Stored() == old(db.Stored())
              case None => r.Ok? && (db.Stored(), r.value) == Ingest(old(db.Stored()), e)
    {
      var failure := db.leader.AssertHeld(repository.lease, now);
      if failure.Some? {
        return Err(LeaderLost(failure.value));
      }
      var answer := IngestInTx(e);
      r := Ok(answer);
    }

    method IngestInTx(e: Evidence) returns (answer: Answer)
      requires repository.db == db
      requires Sound(db.Stored()) && ValidEvidence(e)
      modifies db
      ensures (db.Stored(), answer) == Ingest(old(db.Stored()), e)
    {
      hide Sound, ValidEvidence, Clashes, IngestReused, IngestMerged, FingerprintOf;
      if KeyOf(e) !in db.orders {
        return RolledBack;
      }
      if exists f :: f in db.keys && Clashes(f, e) {
        var f :| f in db.keys && Clashes(f, e);
        OneClash(db.Stored(), e, f);
        answer := RecordReuse(e, f);
      } else if FingerprintOf(e) in db.keys {
        var row := db.keys[FingerprintOf(e)];
        db.observations := db.observations + [Observation(e, if row.accepted then Duplicate else ConflictDuplicate)];
        if row.accepted {
          var disposition := if row.disposition.Some? then row.disposition.value else DuplicateIgnored;
          answer := Ingested(db.orders[KeyOf(e)].status, disposition, true);
        } else {
          answer := Conflicted(if row.reason.Some? then row.reason.value else IllegalEvidence);
        }
      } else if Suppressed(Journal(db.orders, db.keys, db.observations), e) {
        db.keys := db.keys[FingerprintOf(e) := KeyRow(true, Some(DuplicateIgnored), None)];
        db.observations := db.observations + [Observation(e, SemanticDuplicate)];
        answer := Ingested(db.orders[KeyOf(e)].status, DuplicateIgnored, true);
      } else {
        answer := MergeAndRecord(e);
      }
    }

    method RecordReuse(e: Evidence, f: Fingerprint) returns (answer: Answer)
      requires repository.db == db && KeyOf(e) in db.orders
      modifies db
      ensures (db.Stored(), answer) == IngestReused(old(db.Stored()), e, f)
    {
      var savedOrders, savedObservations := db.orders, db.observations;
      var original := FirstOrder(db.observations, f);
      db.observations := db.observations + [Observation(e, Conflicting)];
      if original.Some? {
        if original.value !in db.orders {
          db.orders, db.observations := savedOrders, savedObservations;
          return RolledBack;
        }
        var _ := repository.MarkConflictInTx(original.value, None);
      }
      if original != Some(KeyOf(e)) {
        var _ := repository.MarkConflictInTx(KeyOf(e), None);
      }
      answer := Conflicted(EventIdReused);
    }

    method MergeAndRecord(e: Evidence) returns (answer: Answer)
      requires repository.db == db && KeyOf(e) in db.orders
      modifies db
      ensures (db.Stored(), answer) == IngestMerged(old(db.Stored()), e)
    {
      var savedOrders, savedKeys, savedObservations := db.orders, db.keys, db.observations;
      var k, f := KeyOf(e), FingerprintOf(e);
      var merged := repository.MergeFactInTx(k, e.requested, e.brokerOrderId, e.filled);
      match merged
      case Ok(outcome) =>
        db.keys := db.keys[f := KeyRow(true, Some(outcome.disposition), None)];
        db.observations := db.observations + [Observation(e, New)];
        answer := Ingested(outcome.current, outcome.disposition, false);
      case Err(err) =>
        var reason := ReasonFor(err);
        db.keys := db.keys[f := KeyRow(false, None, Some(reason))];
        db.observations := db.observations + [Observation(e, Conflicting)];
        var marked := repository.MarkConflictInTx(k, if err == LifecycleConflict then Some(e.filled) else None);
        if marked.Err? {
          db.orders, db.keys, db.observations := savedOrders, savedKeys, savedObservations;
          return RolledBack;
        }
        answer := Conflicted(reason);
    }
  }

  /** Unique event ids make the stored clash unique, whichever row the query returns. */
  lemma OneClash(j: Journal, e: Evidence, f: Fingerprint)
    requires Sound(j) && KeyOf(e) in j.orders && f in j.keys && Clashes(f, e)
    ensures Ingest(j, e) == IngestReused(j, e, f)
  {
    hide OrdersCoupled, ObservationsReflected, KeysObserved, ReuseReviewed, FillsWitnessed, StatusesWitnessed;
    hide IngestReused;
    assert EventIdTaken(j, e);
  }
}
