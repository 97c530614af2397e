/**
 * The accumulator that turns raw broker order and deal rows into normalized
 * facts (qmt/guojin_evidence.py). Broker tokens are taken to be injective, so
 * a token is the account and order it was derived from.
 */
module DealMapper {
  import opened Basics
  import opened BrokerEvidence

  datatype Token = Token(account: string, clientOrderId: string)

  datatype TradeKey = TradeKey(token: Token, tradeId: string)

  datatype Registered = Registered(symbol: string, quantity: int, brokerOrderId: Option<string>)

  datatype Profile = Profile(terminal: string, account: string, enabled: bool)

  /** One raw callback or query row; absent and ill-typed fields are `None`. */
  datatype RawRow = RawRow(
    terminal: string,
    account: string,
    accountType: string,
    activeQuery: bool,
    token: Option<Token>,
    symbol: string,
    routeType: Option<string>,
    routeFingerprint: Option<string>,
    brokerOrderId: Option<string>,
    tradeId: Option<string>,
    quantity: Option<int>,
    status: Option<int>,
    submitStatus: Option<int>,
    original: Option<int>,
    filled: Option<int>,
    remaining: Option<int>)

  datatype Reason =
    | TerminalMismatch
    | AccountMismatch
    | AccountTypeMismatch
    | MissingToken
    | UnregisteredToken
    | TokenMismatch
    | SymbolMismatch
    | MissingRouteType
    | MissingRouteFingerprint
    | ProfileDisabled
    | UncalibratedShape
    | AcceptedNotSettled
    | BadCancelledQuantity
    | BadFullFillQuantity
    | RejectedWithFill
    | UnknownOrderStatus
    | IncompleteDeal
    | TradeIdConflict
    | ExceedsOrder
    | BrokerIdConflict

  datatype Fact = Fact(token: Token, brokerOrderId: Option<string>, tradeId: Option<string>, kind: EvidenceType,
                       filled: int)

  datatype MapperState = MapperState(orders: map<Token, Registered>, trades: map<TradeKey, int>)

  // ---------------------------------------------------------------------- trade totals

  ghost function SumOver(keys: set<TradeKey>, trades: map<TradeKey, int>): int
    requires keys <= trades.Keys
    decreases |keys|
  {
    if keys == {} then 0
    else
      var k :| k in keys;
      trades[k] + SumOver(keys - {k}, trades)
  }

  function KeysOf(trades: map<TradeKey, int>, token: Token): set<TradeKey> {
    set k | k in trades && k.token == token
  }

  /** The sum of an order's distinct trades. */
  ghost function Total(trades: map<TradeKey, int>, token: Token): int {
    SumOver(KeysOf(trades, token), trades)
  }

  lemma {:induction false} SumRemoves(keys: set<TradeKey>, trades: map<TradeKey, int>, k: TradeKey)
    requires keys <= trades.Keys && k in keys
    ensures SumOver(keys, trades) == trades[k] + SumOver(keys - {k}, trades)
    decreases |keys|
  {
    var q :| q in keys && SumOver(keys, trades) == trades[q] + SumOver(keys - {q}, trades);
    if q != k {
      SumRemoves(keys - {q}, trades, k);
      SumRemoves(keys - {k}, trades, q);
      assert keys - {q} - {k} == keys - {k} - {q};
    }
  }

  lemma {:induction false} SumAgrees(keys: set<TradeKey>, trades: map<TradeKey, int>, others: map<TradeKey, int>)
    requires keys <= trades.Keys && keys <= others.Keys && forall k :: k in keys ==> trades[k] == others[k]
    ensures SumOver(keys, trades) == SumOver(keys, others)
    decreases |keys|
  {
    if keys != {} {
      var k :| k in keys && SumOver(keys, trades) == trades[k] + SumOver(keys - {k}, trades);
      SumAgrees(keys - {k}, trades, others);
      SumRemoves(keys, others, k);
    }
  }

  lemma {:induction false} SumGrows(keys: set<TradeKey>, more: set<TradeKey>, trades: map<TradeKey, int>)
    requires keys <= more <= trades.Keys && forall k :: k in more ==> trades[k] > 0
    ensures 0 <= SumOver(keys, trades) <= SumOver(more, trades)
    decreases |more|
  {
    if keys == more {
      SumIsPositive(more, trades);
    } else {
      var k :| k in more && k !in keys;
      SumRemoves(more, trades, k);
      SumGrows(keys, more - {k}, trades);
    }
  }

  lemma {:induction false} SumIsPositive(keys: set<TradeKey>, trades: map<TradeKey, int>)
    requires keys <= trades.Keys && forall k :: k in keys ==> trades[k] > 0
    ensures if keys == {} then SumOver(keys, trades) == 0 else SumOver(keys, trades) > 0
    decreases |keys|
  {
    if k :| k in keys {
      SumRemoves(keys, trades, k);
      SumIsPositive(keys - {k}, trades);
    }
  }

  /** A new trade adds its quantity to its own order and to no other. */
  lemma TotalAfterTrade(trades: map<TradeKey, int>, k: TradeKey, quantity: int, token: Token)
    requires k !in trades
    ensures Total(trades[k := quantity], token) == Total(trades, token) + (if k.token == token then quantity else 0)
  {
    var n := trades[k := quantity];
    if k.token == token {
      assert KeysOf(n, token) == KeysOf(trades, token) + {k};
      assert KeysOf(n, token) - {k} == KeysOf(trades, token);
      SumRemoves(KeysOf(n, token), n, k);
    } else {
      assert KeysOf(n, token) == KeysOf(trades, token);
    }
    SumAgrees(KeysOf(trades, token), trades, n);
  }

  /** A subset of some trades sums to no more. */
  lemma TotalOfSubset(trades: map<TradeKey, int>, more: map<TradeKey, int>, token: Token)
    requires trades.Keys <= more.Keys && forall k :: k in trades ==> trades[k] == more[k]
    requires forall k :: k in more ==> more[k] > 0
    ensures 0 <= Total(trades, token) <= Total(more, token)
  {
    SumAgrees(KeysOf(trades, token), trades, more);
    SumGrows(KeysOf(trades, token), KeysOf(more, token), more);
  }

  // --------------------------------------------------------------------- specification

  function Identify(profile: Profile, orders: map<Token, Registered>, row: RawRow): Result<Token, Reason> {
    if row.terminal != profile.terminal then Err(TerminalMismatch)
    else if row.account != profile.account then Err(AccountMismatch)
    else if row.accountType != "STOCK" then Err(AccountTypeMismatch)
    else if row.token.None? then Err(MissingToken)
    else if row.token.value !in orders then Err(UnregisteredToken)
    else if row.token.value.account != profile.account then Err(TokenMismatch)
    else if row.symbol != orders[row.token.value].symbol then Err(SymbolMismatch)
    else if row.activeQuery && (row.routeType.None? || row.routeType.value !in {"STOCK", "HUGANGTONG", "SHENGANGTONG"})
      then Err(MissingRouteType)
    else if row.activeQuery && row.routeFingerprint.None? then Err(MissingRouteFingerprint)
    else if !profile.enabled then Err(ProfileDisabled)
    else Ok(row.token.value)
  }

  /** Write-once broker id of a registered order. */
  function Bound(o: Registered, brokerOrderId: string): Result<Registered, Reason> {
    if o.brokerOrderId.Some? && o.brokerOrderId.value != brokerOrderId then Err(BrokerIdConflict)
    else Ok(o.(brokerOrderId := Some(brokerOrderId)))
  }

  ghost function AcceptDeal(s: MapperState, token: Token, row: RawRow): (MapperState, Result<Fact, Reason>)
    requires token in s.orders
  {
    if row.brokerOrderId.None? || row.tradeId.None? || row.quantity.None? || row.quantity.value <= 0
      then (s, Err(IncompleteDeal))
    else
      var k := TradeKey(token, row.tradeId.value);
      if k in s.trades && s.trades[k] != row.quantity.value then (s, Err(TradeIdConflict))
      else
        var trades := s.trades[k := row.quantity.value];
        var bound := Bound(s.orders[token], row.brokerOrderId.value);
        if Total(trades, token) > s.orders[token].quantity then (s, Err(ExceedsOrder))
        else if bound.Err? then (s, Err(bound.error))
        else
          (MapperState(s.orders[token := bound.value], trades),
           Ok(Fact(token, row.brokerOrderId, row.tradeId,
                   if Total(trades, token) == s.orders[token].quantity then FullFill else PartialFill,
                   Total(trades, token))))
  }

  /** Which fact a calibrated order row states, if any. */
  function OrderRowKind(o: Registered, row: RawRow): Result<EvidenceType, Reason> {
    if row.submitStatus != Some(51) || row.original != Some(o.quantity) || row.filled.None? then Err(UncalibratedShape)
    else if row.status == Some(50) then
      if row.brokerOrderId.None? || row.filled.value != 0 || row.remaining != Some(o.quantity)
        then Err(AcceptedNotSettled)
      else Ok(OrderAccepted)
    else if row.status == Some(54) then
      if row.brokerOrderId.None? || row.filled.value != 0 || row.remaining != Some(o.quantity)
        then Err(BadCancelledQuantity)
      else Ok(OrderCancelled)
    else if row.status == Some(56) then
      if row.brokerOrderId.None? || row.filled.value != o.quantity then Err(BadFullFillQuantity) else Ok(FullFill)
    else if row.status == Some(57) then
      if row.filled.value != 0 then Err(RejectedWithFill) else Ok(OrderRejected)
    else Err(UnknownOrderStatus)
  }

  function AcceptOrder(s: MapperState, token: Token, row: RawRow): (MapperState, Result<Fact, Reason>)
    requires token in s.orders
  {
    var kind := OrderRowKind(s.orders[token], row);
    if kind.Err? then (s, Err(kind.error))
    else
      var bound := if row.brokerOrderId.Some? then Bound(s.orders[token], row.brokerOrderId.value)
        else Ok(s.orders[token]);
      if bound.Err? then (s, Err(bound.error))
      else (s.(orders := s.orders[token := bound.value]),
            Ok(Fact(token, row.brokerOrderId, None, kind.value, row.filled.value)))
  }

  ghost function AcceptRow(profile: Profile, s: MapperState, deal: bool, row: RawRow)
    : (MapperState, Result<Fact, Reason>)
  {
    var identity := Identify(profile, s.orders, row);
    if identity.Err? then (s, Err(identity.error))
    else if deal then AcceptDeal(s, identity.value, row)
    else AcceptOrder(s, identity.value, row)
  }

  // ------------------------------------------------------------------------ invariant

  ghost predicate Consistent(s: MapperState) {
    && (forall t :: t in s.orders ==> s.orders[t].quantity > 0 && Total(s.trades, t) <= s.orders[t].quantity)
    && (forall k :: k in s.trades ==> k.token in s.orders && s.trades[k] > 0 && s.orders[k.token].brokerOrderId.Some?)
  }

  /** Rows only add to what is recorded; identities never change. */
  ghost predicate Extends(s: MapperState, n: MapperState) {
    && (forall k :: k in s.trades ==> k in n.trades && n.trades[k] == s.trades[k])
    && (forall t :: t in s.orders ==>
          && t in n.orders && n.orders[t].quantity == s.orders[t].quantity && n.orders[t].symbol == s.orders[t].symbol
          && (s.orders[t].brokerOrderId.Some? ==> n.orders[t].brokerOrderId == s.orders[t].brokerOrderId))
  }

  lemma TotalsAfterDeal(trades: map<TradeKey, int>, k: TradeKey, quantity: int)
    requires k in trades ==> trades[k] == quantity
    ensures forall t :: t != k.token ==> Total(trades[k := quantity], t) == Total(trades, t)
  {
    forall t | t != k.token ensures Total(trades[k := quantity], t) == Total(trades, t) {
      if k in trades {
        assert trades[k := quantity] == trades;
      } else {
        TotalAfterTrade(trades, k, quantity, t);
      }
    }
  }

  lemma DealKeepsConsistent(s: MapperState, token: Token, row: RawRow)
    requires Consistent(s) && token in s.orders
    ensures var (n, r) := AcceptDeal(s, token, row);
            Consistent(n) && Extends(s, n) && (r.Err? ==> n == s)
            && (r.Ok? ==> forall t :: t != token ==> Total(n.trades, t) == Total(s.trades, t))
  {
    hide Total, KeysOf;
    if AcceptDeal(s, token, row).1.Ok? {
      TotalsAfterDeal(s.trades, TradeKey(token, row.tradeId.value), row.quantity.value);
    }
  }

  lemma OrderKeepsConsistent(s: MapperState, token: Token, row: RawRow)
    requires Consistent(s) && token in s.orders
    ensures var (n, r) := AcceptOrder(s, token, row);
            Consistent(n) && Extends(s, n) && n.trades == s.trades && (r.Err? ==> n == s)
  {
    hide Total, OrderRowKind;
  }

  /** Any row keeps the accumulator consistent; a rejected one changes nothing, an order row changes no trade. */
  lemma RowKeepsConsistent(profile: Profile, s: MapperState, deal: bool, row: RawRow)
    requires Consistent(s)
    ensures var (n, r) := AcceptRow(profile, s, deal, row);
            Consistent(n) && Extends(s, n) && (r.Err? ==> n == s) && (!deal ==> n.trades == s.trades)
  {
    var identity := Identify(profile, s.orders, row);
    hide Consistent, Identify, AcceptDeal, AcceptOrder;
    if identity.Ok? {
      assert identity.value in s.orders by { IdentityIsRegistered(profile, s.orders, row); }
      DealKeepsConsistent(s, identity.value, row);
      OrderKeepsConsistent(s, identity.value, row);
    }
  }

  lemma IdentityIsRegistered(profile: Profile, orders: map<Token, Registered>, row: RawRow)
    ensures Identify(profile, orders, row).Ok? ==>
              Identify(profile, orders, row).value in orders && row.token == Some(Identify(profile, orders, row).value)
  {
  }

  /**
   * An emitted deal fact reports exactly the sum of its own order's distinct
   * accepted trades, never more than the order, and says FULL_FILL exactly at
   * equality; other orders' totals do not move.
   */
  lemma DealFactReportsTotal(profile: Profile, s: MapperState, row: RawRow)
    requires Consistent(s) && AcceptRow(profile, s, true, row).1.Ok?
    ensures var (n, r) := AcceptRow(profile, s, true, row);
            && row.token == Some(r.value.token) && r.value.token in n.orders
            && 0 < r.value.filled == Total(n.trades, r.value.token) <= n.orders[r.value.token].quantity
            && (r.value.kind == FullFill <==> r.value.filled == n.orders[r.value.token].quantity)
            && (r.value.kind == PartialFill <==> r.value.filled < n.orders[r.value.token].quantity)
            && n.orders[r.value.token].brokerOrderId == r.value.brokerOrderId == row.brokerOrderId
            && (forall t :: t != r.value.token ==> Total(n.trades, t) == Total(s.trades, t))
  {
    IdentityIsRegistered(profile, s.orders, row);
    var token := Identify(profile, s.orders, row).value;
    hide Identify;
    DealKeepsConsistent(s, token, row);
    var n := AcceptDeal(s, token, row).0;
    assert TradeKey(token, row.tradeId.value) in KeysOf(n.trades, token);
    SumIsPositive(KeysOf(n.trades, token), n.trades);
  }

  // ---------------------------------------------------------- what is accepted, and why not

  /** A row from the pinned terminal and account about a registered order, routed if it was queried. */
  predicate Identifies(profile: Profile, orders: map<Token, Registered>, row: RawRow) {
    && profile.enabled && row.terminal == profile.terminal && row.account == profile.account
    && row.accountType == "STOCK"
    && row.token.Some? && row.token.value in orders && row.token.value.account == profile.account
    && row.symbol == orders[row.token.value].symbol
    && (row.activeQuery ==>
          row.routeFingerprint.Some? && row.routeType in {Some("STOCK"), Some("HUGANGTONG"), Some("SHENGANGTONG")})
  }

  lemma IdentifiedExactlyWhen(profile: Profile, orders: map<Token, Registered>, row: RawRow)
    ensures Identify(profile, orders, row).Ok? <==> Identifies(profile, orders, row)
    ensures Identify(profile, orders, row).Ok? ==> row.token == Some(Identify(profile, orders, row).value)
  {
  }

  /** The row names no other broker order than the one the order is bound to. */
  predicate BindsTo(o: Registered, brokerOrderId: Option<string>) {
    brokerOrderId.Some? && o.brokerOrderId.Some? ==> brokerOrderId == o.brokerOrderId
  }

  /** The four calibrated shapes of an order row: working, cancelled and rejected without a fill, and filled. */
  predicate Calibrated(o: Registered, row: RawRow) {
    && row.submitStatus == Some(51) && row.original == Some(o.quantity)
    && (|| (&& row.status in {Some(50), Some(54)} && row.brokerOrderId.Some?
            && row.filled == Some(0) && row.remaining == Some(o.quantity))
        || (row.status == Some(56) && row.brokerOrderId.Some? && row.filled == Some(o.quantity))
        || (row.status == Some(57) && row.filled == Some(0)))
  }

  /**
   * An order row is accepted exactly when it is about a registered order, has a
   * calibrated shape and fits the order's broker id; its code then decides what
   * it reports, with the row's own fill and broker id, and the broker id is all
   * it can change.
   */
  lemma OrderFactStatesItsRow(profile: Profile, s: MapperState, row: RawRow)
    ensures var (n, r) := AcceptRow(profile, s, false, row);
            && (r.Ok? <==>
                Identifies(profile, s.orders, row) && Calibrated(s.orders[row.token.value], row)
                && BindsTo(s.orders[row.token.value], row.brokerOrderId))
            && (r.Ok? ==>
                  var o := s.orders[row.token.value];
                  && row.token == Some(r.value.token) && r.value.brokerOrderId == row.brokerOrderId
                  && r.value.tradeId == None && row.filled == Some(r.value.filled)
                  && (r.value.kind == OrderAccepted <==> row.status == Some(50))
                  && (r.value.kind == OrderCancelled <==> row.status == Some(54))
                  && (r.value.kind == FullFill <==> row.status == Some(56))
                  && (r.value.kind == OrderRejected <==> row.status == Some(57))
                  && n.trades == s.trades
                  && n.orders == s.orders[r.value.token := o.(
                       brokerOrderId := if row.brokerOrderId.Some? then row.brokerOrderId else o.brokerOrderId)])
  {
    IdentifiedExactlyWhen(profile, s.orders, row);
    hide Identify, AcceptDeal, Total, Identifies;
  }

  /** A deal is accepted exactly when it is complete, its trade is new or the same, and the total and broker id fit. */
  lemma DealAcceptedExactlyWhen(profile: Profile, s: MapperState, row: RawRow)
    ensures AcceptRow(profile, s, true, row).1.Ok? <==>
            && Identifies(profile, s.orders, row)
            && row.brokerOrderId.Some? && row.tradeId.Some? && row.quantity.Some? && 0 < row.quantity.value
            && var k := TradeKey(row.token.value, row.tradeId.value);
            && (k in s.trades ==> s.trades[k] == row.quantity.value)
            && Total(s.trades[k := row.quantity.value], k.token) <= s.orders[k.token].quantity
            && BindsTo(s.orders[k.token], row.brokerOrderId)
  {
    IdentifiedExactlyWhen(profile, s.orders, row);
    hide Identify, AcceptOrder, Total, Identifies;
  }

  /** What each logged reason says about the row. */
  lemma RejectionSaysWhy(profile: Profile, s: MapperState, deal: bool, row: RawRow)
    requires AcceptRow(profile, s, deal, row).1.Err?
    ensures match AcceptRow(profile, s, deal, row).1.error
            case TerminalMismatch => row.terminal != profile.terminal
            case AccountMismatch => row.account != profile.account
            case AccountTypeMismatch => row.accountType != "STOCK"
            case MissingToken => row.token.None?
            case UnregisteredToken => row.token.Some? && row.token.value !in s.orders
            case TokenMismatch => row.token.Some? && row.token.value.account != profile.account
            case SymbolMismatch =>
              row.token.Some? && row.token.value in s.orders && row.symbol != s.orders[row.token.value].symbol
            case MissingRouteType =>
              row.activeQuery && row.routeType !in {Some("STOCK"), Some("HUGANGTONG"), Some("SHENGANGTONG")}
            case MissingRouteFingerprint => row.activeQuery && row.routeFingerprint.None?
            case ProfileDisabled => !profile.enabled
            case reason => Identifies(profile, s.orders, row) && RowIsWrong(s, deal, row, reason)
  {
    IdentifiedExactlyWhen(profile, s.orders, row);
    hide Total;
  }

  /** The reasons that come after the identity is settled. */
  ghost predicate RowIsWrong(s: MapperState, deal: bool, row: RawRow, reason: Reason)
    requires row.token.Some? && row.token.value in s.orders
  {
    var o := s.orders[row.token.value];
    match reason
    case UncalibratedShape =>
      !deal && (row.submitStatus != Some(51) || row.original != Some(o.quantity) || row.filled.None?)
    case AcceptedNotSettled => !deal && row.status == Some(50) && !Calibrated(o, row)
    case BadCancelledQuantity => !deal && row.status == Some(54) && !Calibrated(o, row)
    case BadFullFillQuantity => !deal && row.status == Some(56) && !Calibrated(o, row)
    case RejectedWithFill => !deal && row.status == Some(57) && row.filled != Some(0)
    case UnknownOrderStatus => !deal && row.status !in {Some(50), Some(54), Some(56), Some(57)}
    case IncompleteDeal =>
      deal && (row.brokerOrderId.None? || row.tradeId.None? || row.quantity.None? || row.quantity.value <= 0)
    case TradeIdConflict =>
      deal && row.tradeId.Some? && TradeKey(row.token.value, row.tradeId.value) in s.trades
      && Some(s.trades[TradeKey(row.token.value, row.tradeId.value)]) != row.quantity
    case ExceedsOrder =>
      deal && row.tradeId.Some? && row.quantity.Some?
      && Total(s.trades[TradeKey(row.token.value, row.tradeId.value) := row.quantity.value],
               row.token.value) > o.quantity
    case BrokerIdConflict => !BindsTo(o, row.brokerOrderId)
    case _ => false
  }

  /** A repeated deal row adds nothing and reports the same total again. */
  lemma RepeatAddsNothing(profile: Profile, s: MapperState, row: RawRow)
    requires Consistent(s) && AcceptRow(profile, s, true, row).1.Ok?
    ensures var (n, r) := AcceptRow(profile, s, true, row); AcceptRow(profile, n, true, row) == (n, r)
  {
    var (n, r) := AcceptRow(profile, s, true, row);
    var k := TradeKey(r.value.token, row.tradeId.value);
    assert n.trades[k := row.quantity.value] == n.trades;
    assert n.orders[r.value.token := n.orders[r.value.token]] == n.orders;
  }

  // --------------------------------------------------------------------------- streams

  datatype Item = Item(deal: bool, row: RawRow)

  ghost function RunRows(profile: Profile, s: MapperState, items: seq<Item>): MapperState
    decreases |items|
  {
    if items == [] then s
    else
      var last := items[|items| - 1];
      AcceptRow(profile, RunRows(profile, s, items[..|items| - 1]), last.deal, last.row).0
  }

  /** The facts a stream emits, in order. */
  ghost function Emitted(profile: Profile, s: MapperState, items: seq<Item>): seq<Fact>
    decreases |items|
  {
    if items == [] then []
    else
      var before, last := items[..|items| - 1], items[|items| - 1];
      var r := AcceptRow(profile, RunRows(profile, s, before), last.deal, last.row).1;
      Emitted(profile, s, before) + (if r.Ok? then [r.value] else [])
  }

  lemma ExtendsTransitive(a: MapperState, b: MapperState, c: MapperState)
    requires Extends(a, b) && Extends(b, c)
    ensures Extends(a, c)
  {
  }

  lemma {:induction false} StreamKeepsConsistent(profile: Profile, s: MapperState, items: seq<Item>)
    requires Consistent(s)
    ensures Consistent(RunRows(profile, s, items)) && Extends(s, RunRows(profile, s, items))
    decreases |items|
  {
    if items != [] {
      hide Consistent, Extends, AcceptRow;
      var before := items[..|items| - 1];
      var last := items[|items| - 1];
      StreamKeepsConsistent(profile, s, before);
      RowKeepsConsistent(profile, RunRows(profile, s, before), last.deal, last.row);
      ExtendsTransitive(s, RunRows(profile, s, before), RunRows(profile, s, items));
    } else {
      assert Extends(s, s);
    }
  }

  /** The row is a deal the accumulator accepts, for this trade and quantity. */
  ghost predicate Accepts(profile: Profile, s: MapperState, item: Item, k: TradeKey, quantity: int) {
    && item.deal && item.row.token == Some(k.token) && item.row.tradeId == Some(k.tradeId)
    && item.row.quantity == Some(quantity)
    && AcceptRow(profile, s, true, item.row).1.Ok?
  }

  ghost predicate AcceptedAt(profile: Profile, s: MapperState, items: seq<Item>, i: nat, k: TradeKey, quantity: int)
    requires i < |items|
  {
    Accepts(profile, RunRows(profile, s, items[..i]), items[i], k, quantity)
  }

  /** A row records a trade exactly when it accepts it. */
  lemma RowRecordsAccepted(profile: Profile, s: MapperState, item: Item, k: TradeKey)
    requires Consistent(s)
    ensures var n := AcceptRow(profile, s, item.deal, item.row).0;
            && (k in n.trades && k !in s.trades ==> Accepts(profile, s, item, k, n.trades[k]))
            && (forall q :: Accepts(profile, s, item, k, q) ==> k in n.trades && n.trades[k] == q)
            && (k in s.trades ==> k in n.trades && n.trades[k] == s.trades[k])
  {
    RowKeepsConsistent(profile, s, item.deal, item.row);
    IdentityIsRegistered(profile, s.orders, item.row);
    hide Consistent, Identify, Total, Bound, AcceptOrder;
  }

  lemma AcceptedInPrefix(profile: Profile, s: MapperState, items: seq<Item>, i: nat, k: TradeKey, q: int)
    requires i < |items|
    ensures i < |items| - 1 ==>
              AcceptedAt(profile, s, items, i, k, q) == AcceptedAt(profile, s, items[..|items| - 1], i, k, q)
    ensures i == |items| - 1 ==>
              AcceptedAt(profile, s, items, i, k, q)
                  == Accepts(profile, RunRows(profile, s, items[..|items| - 1]), items[i], k, q)
  {
    hide RunRows, Accepts;
    if i < |items| - 1 {
      assert items[..|items| - 1][..i] == items[..i];
    }
  }

  ghost predicate SomeAccepted(profile: Profile, s: MapperState, items: seq<Item>, k: TradeKey) {
    exists i, q :: 0 <= i < |items| && AcceptedAt(profile, s, items, i, k, q)
  }

  /** The recorded trades are exactly the accepted deals of the stream, each with its own quantity. */
  lemma {:induction false} TradesAreAcceptedDeals(profile: Profile, s: MapperState, items: seq<Item>, k: TradeKey)
    requires Consistent(s) && k !in s.trades
    ensures k in RunRows(profile, s, items).trades <==> SomeAccepted(profile, s, items, k)
    ensures forall i, q :: 0 <= i < |items| && AcceptedAt(profile, s, items, i, k, q) ==>
              k in RunRows(profile, s, items).trades && RunRows(profile, s, items).trades[k] == q
    decreases |items|
  {
    if items != [] {
      var n := |items| - 1;
      var before := items[..n];
      var mid := RunRows(profile, s, before);
      assert RunRows(profile, s, items) == AcceptRow(profile, mid, items[n].deal, items[n].row).0;
      hide Consistent, Accepts, AcceptRow, AcceptedAt, RunRows;
      StreamKeepsConsistent(profile, s, before);
      RowRecordsAccepted(profile, mid, items[n], k);
      TradesAreAcceptedDeals(profile, s, before, k);
      forall i, q | 0 <= i < |items|
        ensures i < n ==> AcceptedAt(profile, s, items, i, k, q) == AcceptedAt(profile, s, before, i, k, q)
        ensures i == n ==> AcceptedAt(profile, s, items, i, k, q) == Accepts(profile, mid, items[n], k, q)
      {
        AcceptedInPrefix(profile, s, items, i, k, q);
      }
      if k in mid.trades {
        var i, p :| 0 <= i < n && AcceptedAt(profile, s, before, i, k, p);
        assert AcceptedAt(profile, s, items, i, k, p);
      } else if k in RunRows(profile, s, items).trades {
        assert AcceptedAt(profile, s, items, n, k, RunRows(profile, s, items).trades[k]);
      }
    }
  }

  /**
   * Deals that can all be true at once: known orders, one broker id per order,
   * one quantity per trade, and `all` of them fitting their orders.
   */
  ghost predicate FitTogether(profile: Profile, s: MapperState, rows: set<RawRow>, all: map<TradeKey, int>,
                              ids: map<Token, string>) {
    && (forall row :: row in rows ==>
          && Identify(profile, s.orders, row).Ok? && row.token.Some? && row.tradeId.Some? && row.quantity.Some?
          && row.token.value in ids && row.brokerOrderId == Some(ids[row.token.value])
          && TradeKey(row.token.value, row.tradeId.value) in all
          && all[TradeKey(row.token.value, row.tradeId.value)] == row.quantity.value)
    && (forall t :: t in s.orders && s.orders[t].brokerOrderId.Some? ==>
          t in ids && s.orders[t].brokerOrderId.value == ids[t])
    && s.trades.Keys <= all.Keys && (forall k :: k in s.trades ==> all[k] == s.trades[k])
    && (forall k :: k in all ==> all[k] > 0)
    && (forall t :: t in s.orders ==> Total(all, t) <= s.orders[t].quantity)
  }

  /** A deal that no state reached from here accepts. */
  predicate Hopeless(profile: Profile, s: MapperState, row: RawRow) {
    var identity := Identify(profile, s.orders, row);
    || identity.Err?
    || row.brokerOrderId.None? || row.tradeId.None? || row.quantity.None? || row.quantity.value <= 0
    || (identity.value in s.orders
        && (|| row.quantity.value > s.orders[identity.value].quantity
            || (s.orders[identity.value].brokerOrderId.Some?
                && s.orders[identity.value].brokerOrderId != row.brokerOrderId)
            || (TradeKey(identity.value, row.tradeId.value) in s.trades
                && s.trades[TradeKey(identity.value, row.tradeId.value)] != row.quantity.value)))
  }

  /** A fitting deal, a hopeless one, or an order row, accepted or not, that names no other broker id. */
  ghost predicate Compatible(profile: Profile, s: MapperState, rows: set<RawRow>, ids: map<Token, string>, item: Item) {
    if item.deal then item.row in rows || Hopeless(profile, s, item.row)
    else
      || item.row.brokerOrderId.None?
      || Identify(profile, s.orders, item.row).Err?
      || (item.row.token.Some? && item.row.token.value in ids
          && item.row.brokerOrderId.value == ids[item.row.token.value])
  }

  /** Where such a stream has got to. */
  ghost predicate Recorded(s: MapperState, n: MapperState, rows: set<RawRow>, items: seq<Item>, all: map<TradeKey, int>,
                           ids: map<Token, string>) {
    && n.orders.Keys == s.orders.Keys
    && (forall t :: t in s.orders ==>
          && n.orders[t].symbol == s.orders[t].symbol && n.orders[t].quantity == s.orders[t].quantity
          && (s.orders[t].brokerOrderId.Some? ==> n.orders[t].brokerOrderId == s.orders[t].brokerOrderId)
          && (n.orders[t].brokerOrderId.Some? ==> t in ids && n.orders[t].brokerOrderId.value == ids[t]))
    && n.trades.Keys <= all.Keys && (forall k :: k in n.trades ==> n.trades[k] == all[k])
    && (forall k :: k in s.trades ==> k in n.trades)
    && (forall item ::
          (item in items && item.deal && item.row in rows && item.row.token.Some? && item.row.tradeId.Some?) ==>
            TradeKey(item.row.token.value, item.row.tradeId.value) in n.trades)
  }

  lemma IdentityIsStable(profile: Profile, s: MapperState, n: MapperState, row: RawRow)
    requires n.orders.Keys == s.orders.Keys && forall t :: t in s.orders ==> n.orders[t].symbol == s.orders[t].symbol
    ensures Identify(profile, n.orders, row) == Identify(profile, s.orders, row)
    ensures Identify(profile, s.orders, row).Ok? ==>
              row.token == Some(Identify(profile, s.orders, row).value) && row.token.value in s.orders
  {
  }

  lemma FittingDealIsAccepted(profile: Profile, s: MapperState, n: MapperState, rows: set<RawRow>, items: seq<Item>,
                              item: Item, all: map<TradeKey, int>, ids: map<Token, string>)
    requires FitTogether(profile, s, rows, all, ids) && Recorded(s, n, rows, items, all, ids) && item.deal
             && item.row in rows
    ensures AcceptRow(profile, n, true, item.row).1.Ok?
    ensures Recorded(s, AcceptRow(profile, n, true, item.row).0, rows, items + [item], all, ids)
  {
    var row := item.row;
    var token := row.token.value;
    IdentityIsStable(profile, s, n, row);
    hide Identify;
    var trades := n.trades[TradeKey(token, row.tradeId.value) := row.quantity.value];
    TotalOfSubset(trades, all, token);
    hide Total;
    assert all[TradeKey(token, row.tradeId.value)] > 0;
  }

  lemma OneTradeBound(trades: map<TradeKey, int>, k: TradeKey)
    requires k in trades && forall q :: q in trades ==> trades[q] > 0
    ensures trades[k] <= Total(trades, k.token)
  {
    assert k in KeysOf(trades, k.token);
    SumRemoves(KeysOf(trades, k.token), trades, k);
    SumIsPositive(KeysOf(trades, k.token) - {k}, trades);
  }

  lemma HopelessStaysRejected(profile: Profile, s: MapperState, n: MapperState, rows: set<RawRow>, items: seq<Item>,
                              row: RawRow, all: map<TradeKey, int>, ids: map<Token, string>)
    requires FitTogether(profile, s, rows, all, ids) && Recorded(s, n, rows, items, all, ids)
             && Hopeless(profile, s, row)
    ensures AcceptRow(profile, n, true, row).1.Err? && AcceptRow(profile, n, true, row).0 == n
  {
    IdentityIsStable(profile, s, n, row);
    hide Identify, Total;
    var identity := Identify(profile, s.orders, row);
    if identity.Ok? && row.tradeId.Some? && row.quantity.Some? && row.quantity.value > 0 {
      var k := TradeKey(identity.value, row.tradeId.value);
      OneTradeBound(n.trades[k := row.quantity.value], k);
    }
  }

  lemma OrderRowKeepsRecorded(profile: Profile, s: MapperState, n: MapperState, rows: set<RawRow>, items: seq<Item>,
                              item: Item, all: map<TradeKey, int>, ids: map<Token, string>)
    requires Recorded(s, n, rows, items, all, ids) && !item.deal && Compatible(profile, s, rows, ids, item)
    ensures Recorded(s, AcceptRow(profile, n, false, item.row).0, rows, items + [item], all, ids)
  {
    hide Identify, OrderRowKind, AcceptDeal, Total;
    IdentityIsStable(profile, s, n, item.row);
  }

  lemma {:induction false} CompatibleStreamIsRecorded(profile: Profile, s: MapperState, rows: set<RawRow>,
                                                      items: seq<Item>,
                                                      all: map<TradeKey, int>, ids: map<Token, string>)
    requires FitTogether(profile, s, rows, all, ids) && forall item :: item in items ==>
               Compatible(profile, s, rows, ids, item)
    ensures Recorded(s, RunRows(profile, s, items), rows, items, all, ids)
    decreases |items|
  {
    if items != [] {
      var before, last := items[..|items| - 1], items[|items| - 1];
      assert items == before + [last];
      assert Compatible(profile, s, rows, ids, last);
      hide FitTogether, AcceptRow, Compatible;
      CompatibleStreamIsRecorded(profile, s, rows, before, all, ids);
      var n := RunRows(profile, s, before);
      if !last.deal {
        hide Recorded;
        OrderRowKeepsRecorded(profile, s, n, rows, before, last, all, ids);
      } else if last.row in rows {
        hide Recorded;
        FittingDealIsAccepted(profile, s, n, rows, before, last, all, ids);
      } else {
        HopelessDealIsHopeless(profile, s, rows, ids, last);
        HopelessStaysRejected(profile, s, n, rows, before, last.row, all, ids);
      }
    }
  }

  lemma HopelessDealIsHopeless(profile: Profile, s: MapperState, rows: set<RawRow>, ids: map<Token, string>, item: Item)
    requires Compatible(profile, s, rows, ids, item) && item.deal && item.row !in rows
    ensures Hopeless(profile, s, item.row)
  {
  }

  /**
   * Deals that fit together end in the same trades, and so the same totals,
   * for every arrival order and every repetition, whatever order rows and
   * hopeless deals arrive in between.
   */
  lemma FittingDealsConverge(profile: Profile, s: MapperState, rows: set<RawRow>, items: seq<Item>,
                             all: map<TradeKey, int>, ids: map<Token, string>)
    requires FitTogether(profile, s, rows, all, ids)
    requires forall item :: item in items ==> Compatible(profile, s, rows, ids, item)
    requires forall row :: row in rows ==> Item(true, row) in items
    requires forall k :: k in all && k !in s.trades ==>
               exists row :: row in rows && row.token == Some(k.token) && row.tradeId == Some(k.tradeId)
    ensures RunRows(profile, s, items).trades == all
  {
    CompatibleStreamIsRecorded(profile, s, rows, items, all, ids);
    hide RunRows, FitTogether, Compatible;
    var n := RunRows(profile, s, items);
    forall k | k in all ensures k in n.trades {
      if k !in s.trades {
        var row :| row in rows && row.token == Some(k.token) && row.tradeId == Some(k.tradeId);
        assert Item(true, row) in items;
      }
    }
  }

  // -------------------------------------------------------------------- implementation

  class GuojinEvidenceMapper {
    const profile: Profile
    var orders: map<Token, Registered>
    var trades: map<TradeKey, int>
    var rejections: seq<Reason>

    constructor (profile: Profile)
      ensures this.profile == profile && rejections == [] && State() == MapperState(map[], map[])
      ensures Consistent(State())
    {
      this.profile, orders, trades, rejections := profile, map[], map[], [];
    }

    ghost function State(): MapperState
      reads this
    {
      MapperState(orders, trades)
    }

    /** Registers a durable order once; a conflicting identity is refused. */
    method RegisterOrder(clientOrderId: string, symbol: string, quantity: int) returns (r: Option<Token>)
      requires Consistent(State())
      modifies `orders
      ensures Consistent(State())
      ensures var t := Token(profile.account, clientOrderId);
              && (r.Some? <==> clientOrderId != "" && 0 < quantity && symbol != ""
                               && (t in old(orders) ==>
                                     old(orders)[t].symbol == symbol && old(orders)[t].quantity == quantity))
              && (r.Some? ==>
                    r.value == t && t in orders && orders[t].symbol == symbol && orders[t].quantity == quantity)
              && orders == if r.Some? && t !in old(orders)
                           then old(orders)[t := Registered(symbol, quantity, None)]
                           else old(orders)
    {
      if clientOrderId == "" || quantity <= 0 || symbol == "" {
        return None;
      }
      var token := Token(profile.account, clientOrderId);
      if token in orders {
        return if orders[token].symbol == symbol && orders[token].quantity == quantity then Some(token) else None;
      }
      assert KeysOf(trades, token) == {};
      orders := orders[token := Registered(symbol, quantity, None)];
      r := Some(token);
    }

    /** The running sum over every recorded trade of one order. */
    method Cumulative(token: Token, prospective: map<TradeKey, int>) returns (sum: int)
      ensures sum == Total(prospective, token)
    {
      sum := 0;
      var left := prospective.Keys;
      ghost var mine := KeysOf(prospective, token);
      assert mine - left == {};
      while left != {}
        invariant left <= prospective.Keys
        invariant sum == SumOver(mine - left, prospective)
      {
        var k :| k in left;
        if k.token == token {
          sum := sum + prospective[k];
          SumRemoves(mine - (left - {k}), prospective, k);
          assert mine - (left - {k}) - {k} == mine - left;
        } else {
          assert mine - (left - {k}) == mine - left;
        }
        left := left - {k};
      }
      assert mine - left == mine;
    }

    method Reject(reason: Reason) returns (r: Result<Fact, Reason>)
      modifies `rejections
      ensures r == Err(reason) && rejections == old(rejections) + [reason]
    {
      rejections := rejections + [reason];
      r := Err(reason);
    }

    method BindBrokerOrderId(token: Token, brokerOrderId: string) returns (conflict: bool)
      requires token in orders
      modifies `orders
      ensures conflict <==> Bound(old(orders)[token], brokerOrderId).Err?
      ensures orders == if conflict then old(orders)
              else old(orders)[token := Bound(old(orders)[token], brokerOrderId).value]
    {
      assert orders[token := orders[token]] == orders;
      if orders[token].brokerOrderId.None? {
        orders := orders[token := orders[token].(brokerOrderId := Some(brokerOrderId))];
        return false;
      }
      conflict := orders[token].brokerOrderId.value != brokerOrderId;
    }

    method MapDeal(token: Token, row: RawRow) returns (r: Result<Fact, Reason>)
      requires token in orders
      modifies this
      ensures (State(), r) == AcceptDeal(old(State()), token, row)
      ensures rejections == if r.Err? then old(rejections) + [r.error] else old(rejections)
    {
      if row.brokerOrderId.None? || row.tradeId.None? || row.quantity.None? || row.quantity.value <= 0 {
        r := Reject(IncompleteDeal);
        return;
      }
      var k := TradeKey(token, row.tradeId.value);
      if k in trades && trades[k] != row.quantity.value {
        r := Reject(TradeIdConflict);
        return;
      }
      var prospective := if k in trades then trades else trades[k := row.quantity.value];
      assert prospective == trades[k := row.quantity.value];
      var cumulative := Cumulative(token, prospective);
      if cumulative > orders[token].quantity {
        r := Reject(ExceedsOrder);
        return;
      }
      var conflict := BindBrokerOrderId(token, row.brokerOrderId.value);
      if conflict {
        r := Reject(BrokerIdConflict);
        return;
      }
      trades := prospective;
      var kind := if cumulative == orders[token].quantity then FullFill else PartialFill;
      r := Ok(Fact(token, row.brokerOrderId, row.tradeId, kind, cumulative));
    }

    method MapOrder(token: Token, row: RawRow) returns (r: Result<Fact, Reason>)
      requires token in orders
      modifies this
      ensures (State(), r) == AcceptOrder(old(State()), token, row)
      ensures rejections == if r.Err? then old(rejections) + [r.error] else old(rejections)
    {
      assert orders[token := orders[token]] == orders;
      var kind := OrderRowKind(orders[token], row);
      if kind.Err? {
        r := Reject(kind.error);
        return;
      }
      if row.brokerOrderId.Some? {
        var conflict := BindBrokerOrderId(token, row.brokerOrderId.value);
        if conflict {
          r := Reject(BrokerIdConflict);
          return;
        }
      }
      r := Ok(Fact(token, row.brokerOrderId, None, kind.value, row.filled.value));
    }

    method MapRow(deal: bool, row: RawRow) returns (r: Result<Fact, Reason>)
      requires Consistent(State())
      modifies this
      ensures (State(), r) == AcceptRow(profile, old(State()), deal, row)
      ensures Consistent(State())
      ensures rejections == if r.Err? then old(rejections) + [r.error] else old(rejections)
    {
      RowKeepsConsistent(profile, State(), deal, row);
      IdentityIsRegistered(profile, orders, row);
      hide Identify, AcceptDeal, AcceptOrder, Consistent;
      var identity := Identify(profile, orders, row);
      if identity.Err? {
        r := Reject(identity.error);
      } else if deal {
        r := MapDeal(identity.value, row);
      } else {
        r := MapOrder(identity.value, row);
      }
    }

    /** A snapshot maps its rows in order; what it emits and rejects accounts for every row. */
    method MapSnapshot(items: seq<Item>) returns (mapped: seq<Fact>)
      requires Consistent(State())
      modifies this
      ensures State() == RunRows(profile, old(State()), items) && Consistent(State())
      ensures mapped == Emitted(profile, old(State()), items)
      ensures |mapped| + |rejections| == |old(rejections)| + |items|
    {
      mapped := [];
      hide AcceptRow, Consistent;
      for i := 0 to |items|
        invariant Consistent(State()) && State() == RunRows(profile, old(State()), items[..i])
        invariant mapped == Emitted(profile, old(State()), items[..i])
        invariant |mapped| + |rejections| == |old(rejections)| + i
      {
        assert items[..i + 1][..i] == items[..i];
        var r := MapRow(items[i].deal, items[i].row);
        if r.Ok? {
          mapped := mapped + [r.value];
        }
      }
      assert items[..|items|] == items;
    }
  }
}
