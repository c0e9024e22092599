// The handler never matches against the live board: it stages a small working
// copy, places the order there, credits the fee sink, and publishes only the
// records the trades name. That path is exactly a placement on the whole board.

module ExchangeStage {
  import opened Basics
  import opened Exchange
  import opened ExchangeInvariant

  // ----- staging -------------------------------------------------------------------

  predicate Staged(o: Order, owner: Key, side: Side, price: int) {
    Eligible(o, side, price, owner)
  }

  function StagedOrders(b: Book, owner: Key, side: Side, price: int): map<OrderId, Order> {
    map id <- b.orders | Staged(b.orders[id], owner, side, price) :: b.orders[id]
  }

  function StagedKeys(b: Book, owner: Key, side: Side, price: int, sink: Key): set<Key> {
    {owner, sink} + Owners(StagedOrders(b, owner, side, price))
  }

  function Owners(orders: map<OrderId, Order>): set<Key> {
    set id <- orders :: orders[id].owner
  }

  /** `stage_order`. */
  function Stage(b: Book, owner: Key, side: Side, price: int, sink: Key): Book {
    Book(
      map k <- StagedKeys(b, owner, side, price, sink) :: AccountOf(b.accounts, k),
      StagedOrders(b, owner, side, price))
  }

  // ----- simulation ------------------------------------------------------------------

  /** The staged copy holds every order the taker can reach, and the account of
      everyone those orders could move, as the full board has them. */
  ghost predicate Sim(full: Book, staged: Book, taker: Order) {
    && staged.orders.Keys <= full.orders.Keys
    && (forall id <- staged.orders ::
          staged.orders[id] == full.orders[id] && staged.orders[id].owner in staged.accounts)
    && (forall id <- full.orders :: EligibleFor(full.orders[id], taker) ==> id in staged.orders)
    && taker.owner in staged.accounts
    && (forall k <- staged.accounts :: staged.accounts[k] == AccountOf(full.accounts, k))
  }

  lemma BestIsUnique(orders: map<OrderId, Order>, taker: Order, i: OrderId, j: OrderId)
    requires IsBest(orders, taker, i) && IsBest(orders, taker, j)
    ensures i == j
  {
  }

  lemma SimSameBest(full: Book, staged: Book, taker: Order)
    requires OrdersOk(full.orders) && Sim(full, staged, taker)
    ensures Best(full.orders, taker) == Best(staged.orders, taker)
  {
    forall id ensures IsBest(full.orders, taker, id) == IsBest(staged.orders, taker, id) {
      if IsBest(staged.orders, taker, id) {
        forall j <- full.orders | j != id && EligibleFor(full.orders[j], taker)
          ensures Before(taker.side, full.orders[id], full.orders[j])
        {
          assert j in staged.orders;
        }
      }
    }
    if exists id :: IsBest(full.orders, taker, id) {
      BestIsUnique(full.orders, taker, Best(full.orders, taker).value, Best(staged.orders, taker).value);
    }
  }

  lemma SimFillOne(full: Book, staged: Book, taker: Order, id: OrderId)
    requires OrdersOk(full.orders) && Sim(full, staged, taker) && IsBest(staged.orders, taker, id)
    ensures
      var f, s := FillOne(full, taker, id), FillOne(staged, taker, id);
      f.trades == s.trades && f.taker == s.taker && Sim(f.book, s.book, f.taker)
  {
    var resting := full.orders[id];
    var t := TradeOf(taker, resting, FillQuantity(taker, resting));
    SettleAgrees(full.accounts, staged.accounts, t, BuyPrice(taker, resting));
  }

  /** Settling a trade between two copied accounts keeps the copy's accounts right. */
  lemma SettleAgrees(full: map<Key, Account>, staged: map<Key, Account>, t: Trade, buyPrice: int)
    requires t.buyer in staged && t.seller in staged && forall k <- staged :: staged[k] == AccountOf(full, k)
    ensures Settle(staged, t, buyPrice).Keys == staged.Keys
    ensures forall k <- staged :: Settle(staged, t, buyPrice)[k] == AccountOf(Settle(full, t, buyPrice), k)
  {
  }

  lemma {:induction false} SimMatchLoop(full: Book, staged: Book, taker: Order)
    requires OrdersOk(full.orders) && OrdersOk(staged.orders) && Sim(full, staged, taker)
    ensures
      var f, s := MatchLoop(full, taker), MatchLoop(staged, taker);
      f.trades == s.trades && f.taker == s.taker && Sim(f.book, s.book, f.taker)
    decreases taker.Unfilled()
  {
    SimSameBest(full, staged, taker);
    if taker.filled < taker.quantity && Best(full.orders, taker).Some? {
      var id := Best(full.orders, taker).value;
      FillOneOrdersOk(full, taker, id);
      FillOneOrdersOk(staged, taker, id);
      SimFillOne(full, staged, taker, id);
      var f, s := FillOne(full, taker, id), FillOne(staged, taker, id);
      SimMatchLoop(f.book, s.book, f.taker);
    }
  }

  // ----- what a placement touches --------------------------------------------------------

  function Makers(trades: seq<Trade>): set<OrderId> {
    set t <- trades :: t.MakerId()
  }

  function Traders(trades: seq<Trade>): set<Key> {
    (set t <- trades :: t.buyer) + (set t <- trades :: t.seller)
  }

  ghost predicate TouchesOnly(b: Book, b': Book, orders: set<OrderId>, keys: set<Key>) {
    && b'.orders.Keys == b.orders.Keys && orders <= b.orders.Keys
    && (forall id <- b.orders :: id !in orders ==> b'.orders[id] == b.orders[id])
    && b'.accounts.Keys == b.accounts.Keys + keys
    && (forall k <- b.accounts :: k !in keys ==> b'.accounts[k] == b.accounts[k])
  }

  lemma TouchesTransitive(b: Book, b1: Book, b2: Book, o1: set<OrderId>, k1: set<Key>, o2: set<OrderId>, k2: set<Key>)
    requires TouchesOnly(b, b1, o1, k1) && TouchesOnly(b1, b2, o2, k2)
    ensures TouchesOnly(b, b2, o1 + o2, k1 + k2)
  {
  }

  lemma NamesOfCons(t: Trade, rest: seq<Trade>)
    ensures Makers([t] + rest) == {t.MakerId()} + Makers(rest)
    ensures Traders([t] + rest) == {t.buyer, t.seller} + Traders(rest)
  {
  }

  lemma FillOneTouches(b: Book, taker: Order, id: OrderId)
    requires OrdersOk(b.orders) && id in b.orders
    ensures
      var t := FillOne(b, taker, id).trades[0];
      TouchesOnly(b, FillOne(b, taker, id).book, {t.MakerId()}, {t.buyer, t.seller})
  {
  }

  /** The loop changes only the makers its trades name and the accounts that traded. */
  lemma {:induction false} MatchLoopTouches(b: Book, taker: Order)
    requires OrdersOk(b.orders)
    ensures
      var m := MatchLoop(b, taker);
      TouchesOnly(b, m.book, Makers(m.trades), Traders(m.trades))
    decreases taker.Unfilled()
  {
    if taker.filled < taker.quantity && Best(b.orders, taker).Some? {
      var id := Best(b.orders, taker).value;
      FillOneOrdersOk(b, taker, id);
      FillOneTouches(b, taker, id);
      var one := FillOne(b, taker, id);
      var t := one.trades[0];
      assert one.trades == [t];
      MatchLoopTouches(one.book, one.taker);
      var rest := MatchLoop(one.book, one.taker);
      NamesOfCons(t, rest.trades);
      TouchesTransitive(b, one.book, rest.book, {t.MakerId()}, {t.buyer, t.seller}, Makers(rest.trades),
        Traders(rest.trades));
    }
  }

  // ----- the handler ------------------------------------------------------------------------

  function CreditFees(b: Book, sink: Key, trades: seq<Trade>): Book {
    var withCompute := if ComputeFees(trades) > 0 then CreditCompute(b, sink, ComputeFees(trades)) else b;
    if BaseFees(trades) > 0 then CreditBase(withCompute, sink, BaseFees(trades)) else withCompute
  }

  function TouchedKeys(owner: Key, sink: Key, trades: seq<Trade>): set<Key> {
    Traders(trades) + {owner} + if ComputeFees(trades) > 0 || BaseFees(trades) > 0 then {sink} else {}
  }

  function PublishedAccounts(live: map<Key, Account>, staged: map<Key, Account>, keys: set<Key>): map<Key, Account> {
    live + map k <- keys :: AccountOf(staged, k)
  }

  function PublishedOrders(
    live: map<OrderId, Order>, staged: map<OrderId, Order>, ids: set<OrderId>): map<OrderId, Order>
  {
    live + map id <- ids | id in staged :: staged[id]
  }

  function Publish(live: Book, staged: Book, orders: set<OrderId>, keys: set<Key>): Book {
    Book(PublishedAccounts(live.accounts, staged.accounts, keys), PublishedOrders(live.orders, staged.orders, orders))
  }

  /** `handlers::place_order` after authentication: stage, place, credit, publish. */
  ghost function HandlePlaceOrder(
    live: Book, owner: Key, side: Side, price: u64, quantity: u64, now: Time, id: OrderId, sink: Key): PlaceResult
    requires OrdersOk(live.orders)
  {
    match PlaceOrder(Stage(live, owner, side, price, sink), owner, side, price, quantity, now, id)
    case Refused(_, error) => Refused(live, error)
    case Placed(staged, order, trades) =>
      var credited := CreditFees(staged, sink, trades);
      Placed(
        Publish(live, credited, {order.id} + Makers(trades), TouchedKeys(owner, sink, trades)),
        order, trades)
  }

  /** The same placement with no staging: the whole board, then the fees. */
  ghost function WholeBoardPlaceOrder(
    live: Book, owner: Key, side: Side, price: u64, quantity: u64, now: Time, id: OrderId, sink: Key): PlaceResult
    requires OrdersOk(live.orders)
  {
    match PlaceOrder(live, owner, side, price, quantity, now, id)
    case Refused(_, error) => Refused(live, error)
    case Placed(b, order, trades) => Placed(CreditFees(b, sink, trades), order, trades)
  }

  lemma StageSims(live: Book, owner: Key, side: Side, price: int, sink: Key, a: Account, taker: Order)
    requires OrdersOk(live.orders)
    requires taker.owner == owner && taker.side == side && taker.price == price
    ensures
      var staged := Stage(live, owner, side, price, sink);
      && OrdersOk(staged.orders)
      && AccountOf(staged.accounts, owner) == AccountOf(live.accounts, owner)
      && Sim(live.(accounts := live.accounts[owner := a]), staged.(accounts := staged.accounts[owner := a]), taker)
  {
  }

  /** Overlaying the changed accounts on the live ones gives the new ones. */
  lemma Overlay(live: map<Key, Account>, copy: map<Key, Account>, whole: map<Key, Account>, keys: set<Key>)
    requires whole.Keys == live.Keys + keys
    requires forall k <- keys :: AccountOf(copy, k) == AccountOf(whole, k)
    requires forall k <- live :: k !in keys ==> AccountOf(whole, k) == live[k]
    ensures PublishedAccounts(live, copy, keys) == whole
  {
  }

  lemma CreditFeesAccounts(b: Book, sink: Key, trades: seq<Trade>, k: Key)
    ensures CreditFees(b, sink, trades).orders == b.orders
    ensures CreditFees(b, sink, trades).accounts.Keys
         == b.accounts.Keys + if ComputeFees(trades) > 0 || BaseFees(trades) > 0 then {sink} else {}
    ensures k != sink || (ComputeFees(trades) <= 0 && BaseFees(trades) <= 0) ==>
      AccountOf(CreditFees(b, sink, trades).accounts, k) == AccountOf(b.accounts, k)
  {
  }

  lemma CreditFeesAgree(b: Book, c: Book, sink: Key, trades: seq<Trade>, k: Key)
    requires AccountOf(b.accounts, k) == AccountOf(c.accounts, k)
    ensures AccountOf(CreditFees(b, sink, trades).accounts, k) == AccountOf(CreditFees(c, sink, trades).accounts, k)
  {
    var fee := ComputeFees(trades);
    var b1 := if fee > 0 then CreditCompute(b, sink, fee) else b;
    var c1 := if fee > 0 then CreditCompute(c, sink, fee) else c;
    assert AccountOf(b1.accounts, k) == AccountOf(c1.accounts, k);
  }

  /** The staged path and the whole-board path agree on everything a caller can
      see: the order, the trades, the error, and every record of the board. */
  lemma StagedPlacementIsFaithful(
    live: Book, owner: Key, side: Side, price: u64, quantity: u64, now: Time, id: OrderId, sink: Key)
    requires OrdersOk(live.orders) && id !in live.orders
    ensures HandlePlaceOrder(live, owner, side, price, quantity, now, id, sink)
         == WholeBoardPlaceOrder(live, owner, side, price, quantity, now, id, sink)
  {
    var staged := Stage(live, owner, side, price, sink);
    var taker := NewOrder(id, owner, side, price, quantity, now);
    var a := Locked(AccountOf(live.accounts, owner), side, Needed(side, price, quantity));
    StageSims(live, owner, side, price, sink, a, taker);
    if PlaceOrder(live, owner, side, price, quantity, now, id).Placed? {
      PlacedAgree(live, staged, a, taker, sink);
    }
  }

  lemma {:induction false} MatchLoopTaker(b: Book, taker: Order)
    requires OrdersOk(b.orders)
    ensures MatchLoop(b, taker).taker.id == taker.id
    decreases taker.Unfilled()
  {
    if taker.filled < taker.quantity && Best(b.orders, taker).Some? {
      var id := Best(b.orders, taker).value;
      FillOneOrdersOk(b, taker, id);
      MatchLoopTaker(FillOne(b, taker, id).book, FillOne(b, taker, id).taker);
    }
  }

  /** What the two boards read, once the taker is stored and the fees credited. */
  ghost function Finished(m: Matched, sink: Key): Book {
    CreditFees(m.book.(orders := m.book.orders[m.taker.id := Closing(m.taker)]), sink, m.trades)
  }

  lemma PlacedAgree(live: Book, staged: Book, a: Account, taker: Order, sink: Key)
    requires OrdersOk(live.orders) && OrdersOk(staged.orders) && taker.id !in live.orders
    requires sink in staged.accounts
    requires Sim(live.(accounts := live.accounts[taker.owner := a]),
      staged.(accounts := staged.accounts[taker.owner := a]), taker)
    ensures
      var f := MatchLoop(live.(accounts := live.accounts[taker.owner := a]), taker);
      var s := MatchLoop(staged.(accounts := staged.accounts[taker.owner := a]), taker);
      && f.trades == s.trades && f.taker == s.taker && f.taker.id == taker.id
      && Publish(live, Finished(s, sink), {taker.id} + Makers(f.trades), TouchedKeys(taker.owner, sink, f.trades))
           == Finished(f, sink)
  {
    var live1 := live.(accounts := live.accounts[taker.owner := a]);
    var staged1 := staged.(accounts := staged.accounts[taker.owner := a]);
    SimMatchLoop(live1, staged1, taker);
    MatchLoopTouches(live1, taker);
    MatchLoopTouches(staged1, taker);
    MatchLoopTaker(live1, taker);
    PublishAgrees(live, live1, staged1, MatchLoop(live1, taker), MatchLoop(staged1, taker), taker.owner, sink);
  }

  lemma PublishAgrees(live: Book, live1: Book, staged1: Book, f: Matched, s: Matched, owner: Key, sink: Key)
    requires f.trades == s.trades && f.taker == s.taker && f.taker.id !in live.orders
    requires live1.orders == live.orders && owner in live1.accounts
    requires live1.accounts == live.accounts[owner := live1.accounts[owner]]
    requires {owner, sink} <= staged1.accounts.Keys
    requires TouchesOnly(live1, f.book, Makers(f.trades), Traders(f.trades))
    requires TouchesOnly(staged1, s.book, Makers(f.trades), Traders(f.trades))
    requires s.book.orders.Keys <= f.book.orders.Keys
    requires forall id <- s.book.orders :: s.book.orders[id] == f.book.orders[id]
    requires forall k <- s.book.accounts :: s.book.accounts[k] == AccountOf(f.book.accounts, k)
    ensures Publish(live, Finished(s, sink), {f.taker.id} + Makers(f.trades), TouchedKeys(owner, sink, f.trades))
         == Finished(f, sink)
  {
    OrdersAgree(live, f, s, sink);
    AccountsPublished(live, live1, f, s, sink, owner);
  }

  lemma OrdersAgree(live: Book, f: Matched, s: Matched, sink: Key)
    requires f.taker == s.taker && f.taker.id !in live.orders && f.book.orders.Keys == live.orders.Keys
    requires Makers(f.trades) <= s.book.orders.Keys <= live.orders.Keys
    requires forall id <- live.orders :: id !in Makers(f.trades) ==> f.book.orders[id] == live.orders[id]
    requires forall id <- s.book.orders :: s.book.orders[id] == f.book.orders[id]
    ensures PublishedOrders(live.orders, Finished(s, sink).orders, {f.taker.id} + Makers(f.trades))
      == Finished(f, sink).orders
  {
    FinishedOrders(f, sink);
    FinishedOrders(s, sink);
    OrdersPublished(live.orders, f.book.orders, s.book.orders, Closing(f.taker), Makers(f.trades));
  }

  lemma FinishedOrders(m: Matched, sink: Key)
    ensures Finished(m, sink).orders == m.book.orders[m.taker.id := Closing(m.taker)]
  {
  }

  lemma OrdersPublished(
    live: map<OrderId, Order>, full: map<OrderId, Order>, staged: map<OrderId, Order>, o: Order, makers: set<OrderId>)
    requires o.id !in live && full.Keys == live.Keys && makers <= staged.Keys <= live.Keys
    requires forall id <- live :: id !in makers ==> full[id] == live[id]
    requires forall id <- staged :: staged[id] == full[id]
    ensures PublishedOrders(live, staged[o.id := o], {o.id} + makers) == full[o.id := o]
  {
  }

  lemma AccountsPublished(live: Book, live1: Book, f: Matched, s: Matched, sink: Key, owner: Key)
    requires f.trades == s.trades && f.taker == s.taker
    requires live1.accounts.Keys == live.accounts.Keys + {owner}
    requires forall k <- live.accounts :: k != owner ==> live1.accounts[k] == live.accounts[k]
    requires f.book.accounts.Keys == live1.accounts.Keys + Traders(f.trades)
    requires forall k <- live1.accounts :: k !in Traders(f.trades) ==> f.book.accounts[k] == live1.accounts[k]
    requires Traders(f.trades) + {owner, sink} <= s.book.accounts.Keys
    requires forall k <- s.book.accounts :: s.book.accounts[k] == AccountOf(f.book.accounts, k)
    ensures PublishedAccounts(live.accounts, Finished(s, sink).accounts, TouchedKeys(owner, sink, f.trades))
         == Finished(f, sink).accounts
  {
    var whole, copy := Finished(f, sink).accounts, Finished(s, sink).accounts;
    var keys := TouchedKeys(owner, sink, f.trades);
    assert whole.Keys == live.accounts.Keys + keys by { FinishedKeys(f, sink, sink); }
    forall k | k in keys ensures AccountOf(copy, k) == AccountOf(whole, k) {
      assert k in s.book.accounts;
      FinishedAgree(f, s, sink, k);
    }
    forall k | k in live.accounts && k !in keys ensures AccountOf(whole, k) == live.accounts[k] {
      UntouchedAccount(live, live1, f, sink, owner, k);
    }
    Overlay(live.accounts, copy, whole, keys);
  }

  lemma UntouchedAccount(live: Book, live1: Book, f: Matched, sink: Key, owner: Key, k: Key)
    requires k in live.accounts && k !in TouchedKeys(owner, sink, f.trades)
    requires k in live1.accounts && live1.accounts[k] == live.accounts[k]
    requires k in f.book.accounts && f.book.accounts[k] == live1.accounts[k]
    ensures AccountOf(Finished(f, sink).accounts, k) == live.accounts[k]
  {
    FinishedKeys(f, sink, k);
  }

  lemma FinishedKeys(m: Matched, sink: Key, k: Key)
    ensures Finished(m, sink).accounts.Keys
         == m.book.accounts.Keys + if ComputeFees(m.trades) > 0 || BaseFees(m.trades) > 0 then {sink} else {}
    ensures k != sink || (ComputeFees(m.trades) <= 0 && BaseFees(m.trades) <= 0) ==>
      AccountOf(Finished(m, sink).accounts, k) == AccountOf(m.book.accounts, k)
  {
    CreditFeesAccounts(m.book.(orders := m.book.orders[m.taker.id := Closing(m.taker)]), sink, m.trades, k);
  }

  lemma FinishedAgree(f: Matched, s: Matched, sink: Key, k: Key)
    requires f.trades == s.trades && AccountOf(f.book.accounts, k) == AccountOf(s.book.accounts, k)
    ensures AccountOf(Finished(s, sink).accounts, k) == AccountOf(Finished(f, sink).accounts, k)
  {
    var f0 := f.book.(orders := f.book.orders[f.taker.id := Closing(f.taker)]);
    var s0 := s.book.(orders := s.book.orders[s.taker.id := Closing(s.taker)]);
    CreditFeesAgree(f0, s0, sink, f.trades, k);
  }

  /** The matching loop on the whole board stays inside a copy it agrees with. */
  lemma MatchStaysInside(full: Book, staged: Book, taker: Order)
    requires OrdersOk(full.orders) && OrdersOk(staged.orders) && Sim(full, staged, taker)
    ensures
      var m := MatchLoop(full, taker);
      && (forall j <- full.orders :: j !in staged.orders ==> j in m.book.orders && m.book.orders[j] == full.orders[j])
      && (forall k <- full.accounts ::
            k !in staged.accounts ==> k in m.book.accounts && m.book.accounts[k] == full.accounts[k])
  {
    SimMatchLoop(full, staged, taker);
    MatchLoopTouches(full, taker);
    MatchLoopTouches(staged, taker);
    MatchLoopTradersStaged(staged, taker);
  }

  /** A placement on the whole board leaves alone every order and every balance
      that was not copied. */
  lemma OutsideTheCopyUntouched(
    live: Book, owner: Key, side: Side, price: u64, quantity: u64, now: Time, id: OrderId, sink: Key)
    requires OrdersOk(live.orders) && id !in live.orders
    ensures
      var copied := Stage(live, owner, side, price, sink);
      var r := PlaceOrder(live, owner, side, price, quantity, now, id);
      && (forall j <- live.orders :: j !in copied.orders ==> j in r.book.orders && r.book.orders[j] == live.orders[j])
      && (forall k <- live.accounts ::
            k !in copied.accounts ==> k in r.book.accounts && r.book.accounts[k] == live.accounts[k])
  {
    var r := PlaceOrder(live, owner, side, price, quantity, now, id);
    var staged := Stage(live, owner, side, price, sink);
    assert owner in staged.accounts;
    if r.Placed? {
      var taker := NewOrder(id, owner, side, price, quantity, now);
      var a := Locked(AccountOf(live.accounts, owner), side, Needed(side, price, quantity));
      StageSims(live, owner, side, price, sink, a, taker);
      MatchStaysInside(
        live.(accounts := live.accounts[owner := a]), staged.(accounts := staged.accounts[owner := a]), taker);
    }
  }

  lemma {:induction false} MatchLoopTradersStaged(b: Book, taker: Order)
    requires OrdersOk(b.orders) && taker.owner in b.accounts
    requires forall id <- b.orders :: b.orders[id].owner in b.accounts
    ensures Traders(MatchLoop(b, taker).trades) <= b.accounts.Keys
    decreases taker.Unfilled()
  {
    if taker.filled < taker.quantity && Best(b.orders, taker).Some? {
      var id := Best(b.orders, taker).value;
      FillOneOrdersOk(b, taker, id);
      var one := FillOne(b, taker, id);
      MatchLoopTradersStaged(one.book, one.taker);
      assert one.book.accounts.Keys == b.accounts.Keys;
    }
  }
}
