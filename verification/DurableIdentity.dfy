/**
 * The registration of submits that are already durable in the command spool
 * (qmt/durable_identity.py): the other way an order row comes to exist.
 */
module DurableIdentity {
  import opened Basics
  import opened OrderLifecycle
  import opened OrderRows
  import opened BrokerEvidence
  import opened LeaderLease

  datatype CommandState = ProcessedState | UnknownState

  /** `terms` is the remaining immutable description of the command. */
  datatype Identity = Identity(commandId: string, key: OrderKey, brokerToken: string, quantity: int, terms: string,
                               state: CommandState)

  datatype Tables = Tables(identities: set<Identity>, orders: map<OrderKey, Order>)

  datatype RegisterError = LeaseLost(why: LeaseError) | IdentityConflict | BadQuantity

  /** The columns the lookup joins with OR. */
  predicate Overlaps(a: Identity, b: Identity) {
    || a.commandId == b.commandId
    || a.key == b.key
    || (a.key.account == b.key.account && a.brokerToken == b.brokerToken)
  }

  /** The only change a stored identity admits: an unresolved command turned out processed. */
  predicate Upgrades(stored: Identity, incoming: Identity) {
    stored.state == UnknownState && incoming == stored.(state := ProcessedState)
  }

  ghost predicate Separate(identities: set<Identity>) {
    forall a, b :: a in identities && b in identities && Overlaps(a, b) ==> a == b
  }

  /** Identities do not overlap, every identity has its order, and every row is coupled. */
  ghost predicate Linked(t: Tables) {
    && Separate(t.identities)
    && (forall i :: i in t.identities ==> i.key in t.orders)
    && (forall k :: k in t.orders ==> Coupled(t.orders[k]))
  }

  /** The outcome when the lookup returned `row`, whichever overlapping row that is. */
  function Settle(t: Tables, row: Option<Identity>, incoming: Identity,
                  allowExisting: bool): Result<(Tables, bool), RegisterError> {
    if row.Some? then
      if Upgrades(row.value, incoming) then Ok((t.(identities := t.identities - {row.value} + {incoming}), false))
      else if row.value != incoming then Err(IdentityConflict)
      else Ok((t, false))
    else if incoming.key in t.orders then
      if !allowExisting then Err(IdentityConflict) else Ok((t.(identities := t.identities + {incoming}), true))
    else if incoming.quantity <= 0 then Err(BadQuantity)
    else Ok((Tables(t.identities + {incoming}, t.orders[incoming.key := ImportedOrder(incoming.quantity)]), true))
  }

  /** What the lookup can return. */
  ghost predicate Found(t: Tables, incoming: Identity, row: Option<Identity>) {
    match row
    case Some(i) => i in t.identities && Overlaps(i, incoming)
    case None => forall i :: i in t.identities ==> !Overlaps(i, incoming)
  }

  /**
   * The lookup may match three different rows and returns any of them; the
   * outcome is the same for all.
   */
  lemma LookupChoiceIsHarmless(t: Tables, incoming: Identity, allowExisting: bool, row: Option<Identity>,
                               other: Option<Identity>)
    requires Linked(t) && Found(t, incoming, row) && Found(t, incoming, other)
    ensures Settle(t, row, incoming, allowExisting) == Settle(t, other, incoming, allowExisting)
  {
    if row.Some? && other.Some? && row != other {
      assert !Overlaps(row.value, other.value);
    }
  }

  /**
   * Identities stay one-to-one with commands, orders and tokens; a row is
   * created only for a command that had none, of its quantity, reserved and
   * reconciling; without the flag for existing orders every import creates
   * one; and an existing row is never changed.
   */
  lemma RegisterKeepsLinked(t: Tables, incoming: Identity, allowExisting: bool, row: Option<Identity>)
    requires Linked(t) && Found(t, incoming, row) && Settle(t, row, incoming, allowExisting).Ok?
    ensures var (n, imported) := Settle(t, row, incoming, allowExisting).value;
            && Linked(n) && incoming in n.identities
            && (forall k :: k in t.orders ==> k in n.orders && n.orders[k] == t.orders[k])
            && (forall k :: k in n.orders && k !in t.orders ==>
                  && k == incoming.key
                  && n.orders[k] == Order(Reconciling, None, 0, incoming.quantity, true, false, false)
                  && imported)
            && (imported && !allowExisting ==> incoming.key !in t.orders)
            && (forall i :: i in t.identities ==>
                  i in n.identities || (Upgrades(i, incoming) && incoming in n.identities))
            && (imported <==> row.None?)
  {
  }

  /** No command id, no order and no account's token belongs to two stored commands. */
  lemma LinkedIsOneToOne(t: Tables, a: Identity, b: Identity)
    requires Linked(t) && a in t.identities && b in t.identities && a != b
    ensures a.commandId != b.commandId && a.key != b.key
    ensures a.key.account == b.key.account ==> a.brokerToken != b.brokerToken
  {
    assert !Overlaps(a, b);
  }

  /**
   * A command is registered exactly when it is stored already, at most waiting to turn out
   * processed; or when no stored command has its id, its order or its token, and either its
   * order is known and may be or its quantity is positive. Any other registration conflicts.
   */
  lemma RegisteredExactlyWhen(t: Tables, incoming: Identity, allowExisting: bool, row: Option<Identity>)
    requires Linked(t) && Found(t, incoming, row)
    ensures var stored := incoming in t.identities;
            var waiting := incoming.state == ProcessedState && incoming.(state := UnknownState) in t.identities;
            var free := forall i :: i in t.identities ==>
                          && i.commandId != incoming.commandId && i.key != incoming.key
                          && !(i.key.account == incoming.key.account && i.brokerToken == incoming.brokerToken);
            var known := incoming.key in t.orders;
            && (Settle(t, row, incoming, allowExisting).Ok? <==>
                  stored || waiting || (free && if known then allowExisting else incoming.quantity > 0))
            && (Settle(t, row, incoming, allowExisting) == Err(BadQuantity) <==>
                  free && !known && incoming.quantity <= 0)
            && (stored ==> Settle(t, row, incoming, allowExisting) == Ok((t, false)))
            && (waiting ==>
                  Settle(t, row, incoming, allowExisting) ==
                  Ok((t.(identities := t.identities - {incoming.(state := UnknownState)} + {incoming}), false)))
            && (free && Settle(t, row, incoming, allowExisting).Ok? ==>
                  Settle(t, row, incoming, allowExisting).value.0.identities == t.identities + {incoming})
  {
    if incoming in t.identities {
      assert Overlaps(incoming, incoming);
    } else if incoming.(state := UnknownState) in t.identities {
      assert Overlaps(incoming.(state := UnknownState), incoming);
    }
  }

  /** Registering the same command again changes nothing. */
  lemma RegisterIsIdempotent(t: Tables, incoming: Identity, allowExisting: bool, again: bool, row: Option<Identity>,
                             second: Option<Identity>)
    requires Linked(t) && Found(t, incoming, row) && Settle(t, row, incoming, allowExisting).Ok?
    requires Found(Settle(t, row, incoming, allowExisting).value.0, incoming, second)
    ensures Settle(Settle(t, row, incoming, allowExisting).value.0, second, incoming, again)
            == Ok((Settle(t, row, incoming, allowExisting).value.0, false))
  {
    RegisterKeepsLinked(t, incoming, allowExisting, row);
    var n := Settle(t, row, incoming, allowExisting).value.0;
    hide Settle;
    LookupChoiceIsHarmless(n, incoming, again, second, Some(incoming));
    SettledAgain(n, incoming, again);
  }

  lemma SettledAgain(t: Tables, incoming: Identity, allowExisting: bool)
    ensures Settle(t, Some(incoming), incoming, allowExisting) == Ok((t, false))
  {
  }

  class IdentityRegistry {
    var identities: set<Identity>
    var orders: map<OrderKey, Order>
    const leader: LeaderCoordinator
    var lease: Lease

    constructor (leader: LeaderCoordinator, lease: Lease)
      ensures Stored() == Tables({}, map[]) && Linked(Stored()) && this.leader == leader && this.lease == lease
    {
      identities, orders, this.leader, this.lease := {}, map[], leader, lease;
    }

    ghost function Stored(): Tables
      reads this
    {
      Tables(identities, orders)
    }

    method Lookup(incoming: Identity) returns (row: Option<Identity>)
      ensures Found(Stored(), incoming, row)
    {
      var left := identities;
      while left != {}
        invariant left <= identities
        invariant forall i :: i in identities && i !in left ==> !Overlaps(i, incoming)
      {
        var i :| i in left;
        if Overlaps(i, incoming) {
          return Some(i);
        }
        left := left - {i};
      }
      row := None;
    }

    /**
     * Joins an issued submit to its order without taking it for an acknowledgement; a
     * session that lost its lease joins nothing.
     */
    method RegisterSubmit(incoming: Identity, allowExisting: bool, now: int) returns (r: Result<bool, RegisterError>)
      requires Linked(Stored())
      modifies this
      ensures Linked(Stored()) && lease == old(lease)
      ensures !Held(leader.row, lease, now) ==>
                r == Err(LeaseLost(Check(leader.row, lease, now).value)) && Stored() == old(Stored())
      ensures Held(leader.row, lease, now) ==> forall row :: Found(old(Stored()), incoming, row) ==>
                match Settle(old(Stored()), row, incoming, allowExisting)
                case Ok((n, imported)) => r == Ok(imported) && Stored() == n
                case Err(e) => r == Err(e) && Stored() == old(Stored())
    {
      var failure := leader.AssertHeld(lease, now);
      if failure.Some? {
        return Err(LeaseLost(failure.value));
      }
      var found := Lookup(incoming);
      ghost var was := Stored();
      if Settle(was, found, incoming, allowExisting).Ok? {
        RegisterKeepsLinked(was, incoming, allowExisting, found);
      }
      forall row | Found(was, incoming, row)
        ensures Settle(was, row, incoming, allowExisting) == Settle(was, found, incoming, allowExisting) {
        LookupChoiceIsHarmless(was, incoming, allowExisting, row, found);
      }
      hide Linked, Found;
      if found.Some? {
        if Upgrades(found.value, incoming) {
          identities := identities - {found.value} + {incoming};
          return Ok(false);
        }
        return if found.value == incoming then Ok(false) else Err(IdentityConflict);
      }
      if incoming.key in orders {
        if !allowExisting {
          return Err(IdentityConflict);
        }
        identities := identities + {incoming};
        return Ok(true);
      }
      if incoming.quantity <= 0 {
        return Err(BadQuantity);
      }
      orders := orders[incoming.key := Order(Reconciling, None, 0, incoming.quantity, true, false, false)];
      identities := identities + {incoming};
      r := Ok(true);
    }
  }
}
