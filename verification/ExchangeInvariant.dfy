// The ledger invariant behind every subtraction in the exchange: each account's
// locks are exactly what its open orders still need, and never exceed its balance.

module ExchangeInvariant {
  import opened Arithmetic
  import opened Basics
  import opened MapSums
  import opened Exchange

  /** What one order still holds of `k`'s base balance. */
  function BuyLock(k: Key): Order -> int {
    (o: Order) => if o.status.Open? && o.side.Buy? && o.owner == k then o.price * o.Unfilled() else 0
  }

  /** What one order still holds of `k`'s compute balance. */
  function SellLock(k: Key): Order -> int {
    (o: Order) => if o.status.Open? && o.side.Sell? && o.owner == k then o.Unfilled() else 0
  }

  /** `k`'s locks cover what its open orders here still need, and its balances cover its locks. */
  ghost predicate Covered(accounts: map<Key, Account>, orders: map<OrderId, Order>, k: Key) {
    var a := AccountOf(accounts, k);
    && Sum(orders, BuyLock(k)) <= a.lockedBase <= a.base
    && Sum(orders, SellLock(k)) <= a.lockedCompute <= a.compute
  }

  /** `k`'s locks are exactly what its open orders still need. */
  ghost predicate AccountBacked(accounts: map<Key, Account>, orders: map<OrderId, Order>, k: Key) {
    var a := AccountOf(accounts, k);
    && Covered(accounts, orders, k)
    && a.lockedBase == Sum(orders, BuyLock(k))
    && a.lockedCompute == Sum(orders, SellLock(k))
  }

  ghost predicate Backed(accounts: map<Key, Account>, orders: map<OrderId, Order>) {
    forall k :: AccountBacked(accounts, orders, k)
  }

  ghost predicate Covers(accounts: map<Key, Account>, orders: map<OrderId, Order>) {
    forall k :: Covered(accounts, orders, k)
  }

  ghost predicate Inv(b: Book) {
    OrdersOk(b.orders) && Backed(b.accounts, b.orders)
  }

  /** What a staged copy satisfies: it holds its owners' whole locks but not all their orders. */
  ghost predicate CoverInv(b: Book) {
    OrdersOk(b.orders) && Covers(b.accounts, b.orders)
  }

  /** A taker that is not yet in the book and can be matched against it. */
  ghost predicate TakerOk(orders: map<OrderId, Order>, taker: Order) {
    && OrdersOk(orders)
    && taker.id !in orders
    && taker.status.Open?
    && taker.price > 0 && 0 <= taker.filled <= taker.quantity && 0 < taker.quantity
    && taker.price * taker.quantity <= U64_MAX
  }

  ghost predicate InvWith(b: Book, taker: Order) {
    TakerOk(b.orders, taker) && Backed(b.accounts, b.orders[taker.id := taker])
  }

  ghost predicate CoverWith(b: Book, taker: Order) {
    TakerOk(b.orders, taker) && Covers(b.accounts, b.orders[taker.id := taker])
  }

  // ----- totals ---------------------------------------------------------------

  const BASE: Account -> int := (a: Account) => a.base
  const COMPUTE: Account -> int := (a: Account) => a.compute

  ghost function TotalBase(b: Book): int { Sum(b.accounts, BASE) }
  ghost function TotalCompute(b: Book): int { Sum(b.accounts, COMPUTE) }

  function BaseFees(trades: seq<Trade>): int {
    if trades == [] then 0 else trades[0].BaseFee() + BaseFees(trades[1..])
  }

  function ComputeFees(trades: seq<Trade>): int {
    if trades == [] then 0 else trades[0].ComputeFee() + ComputeFees(trades[1..])
  }

  // ----- arithmetic -----------------------------------------------------------

  lemma MulPositive(p: int, q: int)
    requires 0 <= p && 0 <= q
    ensures 0 <= p * q
  {
  }

  // ----- one fill -------------------------------------------------------------

  lemma FillOneOrdersOk(b: Book, taker: Order, id: OrderId)
    requires OrdersOk(b.orders) && IsBest(b.orders, taker, id) && taker.filled < taker.quantity
    ensures OrdersOk(FillOne(b, taker, id).book.orders)
    ensures 0 < FillQuantity(taker, b.orders[id]) <= taker.Unfilled()
    ensures FillQuantity(taker, b.orders[id]) <= b.orders[id].Unfilled()
  {
  }

  /** How one order's lock moves when `q` more of it fills. */
  lemma LockAfterFill(o: Order, o': Order, q: int, k: Key)
    requires o.status.Open? && o' == o.(filled := o.filled + q, status := o'.status)
    requires o'.status.Open? || (o'.status.Filled? && o'.filled == o'.quantity)
    ensures BuyLock(k)(o') == BuyLock(k)(o) - (if o.side.Buy? && o.owner == k then o.price * q else 0)
    ensures SellLock(k)(o') == SellLock(k)(o) - (if o.side.Sell? && o.owner == k then q else 0)
  {
  }

  lemma SumAfterFill(
    orders: map<OrderId, Order>, id: OrderId, r': Order, taker: Order, taker': Order, f: Order -> int)
    requires id in orders && taker.id !in orders
    ensures Sum(orders[id := r'][taker.id := taker'], f)
         == Sum(orders[taker.id := taker], f) - f(orders[id]) + f(r') - f(taker) + f(taker')
  {
    SumUpdate(orders, id, r', f);
    SumUpdate(orders[id := r'], taker.id, taker', f);
    SumUpdate(orders, taker.id, taker, f);
  }

  /** The lock sums over book and taker, before and after one fill. */
  lemma LockSumsAfterFill(b: Book, taker: Order, id: OrderId, k: Key)
    requires TakerOk(b.orders, taker) && taker.filled < taker.quantity
    requires id in b.orders && EligibleFor(b.orders[id], taker)
    ensures
      var r := b.orders[id];
      var q := FillQuantity(taker, r);
      var one := FillOne(b, taker, id);
      var before := b.orders[taker.id := taker];
      var after := one.book.orders[taker.id := one.taker];
      var buyer := if taker.side.Buy? then taker.owner else r.owner;
      var seller := if taker.side.Buy? then r.owner else taker.owner;
      && Sum(after, BuyLock(k)) == Sum(before, BuyLock(k)) - (if k == buyer then BuyPrice(taker, r) * q else 0)
      && Sum(after, SellLock(k)) == Sum(before, SellLock(k)) - (if k == seller then q else 0)
  {
    var r := b.orders[id];
    var q := FillQuantity(taker, r);
    var r' := AfterFill(r, q);
    var taker' := taker.(filled := taker.filled + q);
    LockAfterFill(r, r', q, k);
    LockAfterFill(taker, taker', q, k);
    assert FillOne(b, taker, id).book.orders[taker.id := FillOne(b, taker, id).taker]
      == b.orders[id := r'][taker.id := taker'];
    SumAfterFill(b.orders, id, r', taker, taker', BuyLock(k));
    SumAfterFill(b.orders, id, r', taker, taker', SellLock(k));
  }

  lemma SumsNonNegative(orders: map<OrderId, Order>, k: Key)
    requires forall id <- orders :: orders[id].price >= 0 && orders[id].filled <= orders[id].quantity
    ensures Sum(orders, BuyLock(k)) >= 0
    ensures Sum(orders, SellLock(k)) >= 0
  {
  }

  lemma FeeWithin(amount: int)
    requires amount >= 0
    ensures 0 <= FeeOn(amount) <= amount
  {
  }

  /** One fill moves `k`'s locks exactly as its orders' needs move, although it
      releases the buy lock at the buy order's price and debits at the maker's. */
  lemma FillOneAccount(b: Book, taker: Order, id: OrderId, k: Key)
    requires TakerOk(b.orders, taker) && taker.filled < taker.quantity && IsBest(b.orders, taker, id)
    requires Covered(b.accounts, b.orders[taker.id := taker], k)
    ensures
      var one := FillOne(b, taker, id);
      && Covered(one.book.accounts, one.book.orders[taker.id := one.taker], k)
      && (AccountBacked(b.accounts, b.orders[taker.id := taker], k) ==>
            AccountBacked(one.book.accounts, one.book.orders[taker.id := one.taker], k))
  {
    FillOneOrdersOk(b, taker, id);
    var r := b.orders[id];
    var q := FillQuantity(taker, r);
    MulMonotone(q, r.price, BuyPrice(taker, r));
    MulPositive(r.price, q);
    FeeWithin(q);
    FeeWithin(r.price * q);
    LockSumsAfterFill(b, taker, id, k);
  }

  lemma FillOneKeepsInv(b: Book, taker: Order, id: OrderId)
    requires CoverWith(b, taker) && taker.filled < taker.quantity && IsBest(b.orders, taker, id)
    ensures CoverWith(FillOne(b, taker, id).book, FillOne(b, taker, id).taker)
    ensures InvWith(b, taker) ==> InvWith(FillOne(b, taker, id).book, FillOne(b, taker, id).taker)
  {
    FillOneOrdersOk(b, taker, id);
    var one := FillOne(b, taker, id);
    var before, after := b.orders[taker.id := taker], one.book.orders[taker.id := one.taker];
    forall k
      ensures Covered(one.book.accounts, after, k)
      ensures InvWith(b, taker) ==> AccountBacked(one.book.accounts, after, k)
    {
      assert Covered(b.accounts, before, k);
      if InvWith(b, taker) { assert AccountBacked(b.accounts, before, k); }
      FillOneAccount(b, taker, id, k);
    }
  }

  lemma FillOneTotals(b: Book, taker: Order, id: OrderId)
    requires id in b.orders && b.orders[id].owner != taker.owner
    ensures
      var one := FillOne(b, taker, id);
      && TotalBase(one.book) + one.trades[0].BaseFee() == TotalBase(b)
      && TotalCompute(one.book) + one.trades[0].ComputeFee() == TotalCompute(b)
  {
    var r := b.orders[id];
    var q := FillQuantity(taker, r);
    var t := TradeOf(taker, r, q);
    var buyer' := BuyerAfter(AccountOf(b.accounts, t.buyer), t, BuyPrice(taker, r));
    var paid := b.accounts[t.buyer := buyer'];
    var seller' := SellerAfter(AccountOf(paid, t.seller), t);
    forall f | f == BASE || f == COMPUTE
      ensures Sum(paid[t.seller := seller'], f)
           == Sum(b.accounts, f) - f(AccountOf(b.accounts, t.buyer)) + f(buyer')
              - f(AccountOf(b.accounts, t.seller)) + f(seller')
    {
      SumUpdate(b.accounts, t.buyer, buyer', f);
      SumUpdate(paid, t.seller, seller', f);
    }
  }

  // ----- the whole loop ---------------------------------------------------------

  lemma BestIsBest(orders: map<OrderId, Order>, taker: Order)
    ensures Best(orders, taker).Some? ==> IsBest(orders, taker, Best(orders, taker).value)
  {
  }

  lemma BackedIsCovered(accounts: map<Key, Account>, orders: map<OrderId, Order>)
    requires Backed(accounts, orders)
    ensures Covers(accounts, orders)
  {
    forall k ensures Covered(accounts, orders, k) {
      assert AccountBacked(accounts, orders, k);
    }
  }

  lemma TradeFees(taker: Order, resting: Order, q: int)
    requires resting.price > 0 && q >= 0
    ensures 0 <= TradeOf(taker, resting, q).BaseFee() <= resting.price * q
    ensures 0 <= TradeOf(taker, resting, q).ComputeFee() <= q
  {
  }

  lemma FeesCons(t: Trade, rest: seq<Trade>)
    ensures BaseFees([t] + rest) == t.BaseFee() + BaseFees(rest)
    ensures ComputeFees([t] + rest) == t.ComputeFee() + ComputeFees(rest)
  {
  }

  /** Matching keeps every account backed and moves no value but the taker's fees. */
  lemma {:induction false} MatchLoopKeepsInv(b: Book, taker: Order)
    requires CoverWith(b, taker)
    ensures CoverWith(MatchLoop(b, taker).book, MatchLoop(b, taker).taker)
    ensures InvWith(b, taker) ==> InvWith(MatchLoop(b, taker).book, MatchLoop(b, taker).taker)
    ensures
      var m := MatchLoop(b, taker);
      && TotalBase(m.book) + BaseFees(m.trades) == TotalBase(b)
      && TotalCompute(m.book) + ComputeFees(m.trades) == TotalCompute(b)
      && 0 <= BaseFees(m.trades) && 0 <= ComputeFees(m.trades)
      && m.taker == taker.(filled := m.taker.filled) && taker.filled <= m.taker.filled
    decreases taker.Unfilled()
  {
    if taker.filled < taker.quantity && Best(b.orders, taker).Some? {
      var id := Best(b.orders, taker).value;
      FillOneKeepsInv(b, taker, id);
      FillOneTotals(b, taker, id);
      FillOneOrdersOk(b, taker, id);
      TradeFees(taker, b.orders[id], FillQuantity(taker, b.orders[id]));
      var one := FillOne(b, taker, id);
      MatchLoopKeepsInv(one.book, one.taker);
      FeesCons(one.trades[0], MatchLoop(one.book, one.taker).trades);
    }
  }

  // ----- placing and cancelling --------------------------------------------------

  /** Locking a new order's need makes room for exactly that order. */
  lemma LockForOrder(b: Book, taker: Order)
    requires CoverInv(b) && taker.id !in b.orders && OrderOk(taker) && taker.status.Open? && taker.filled == 0
    requires Needed(taker.side, taker.price, taker.quantity)
          <= Available(AccountOf(b.accounts, taker.owner), taker.side)
    ensures
      var a := AccountOf(b.accounts, taker.owner);
      var need := Needed(taker.side, taker.price, taker.quantity);
      var locked := b.(accounts := b.accounts[taker.owner := Locked(a, taker.side, need)]);
      && CoverWith(locked, taker)
      && (Inv(b) ==> InvWith(locked, taker))
      && TotalBase(locked) == TotalBase(b) && TotalCompute(locked) == TotalCompute(b)
  {
    var a := AccountOf(b.accounts, taker.owner);
    var a' := Locked(a, taker.side, Needed(taker.side, taker.price, taker.quantity));
    var accounts', orders' := b.accounts[taker.owner := a'], b.orders[taker.id := taker];
    forall k
      ensures Covered(accounts', orders', k)
      ensures Inv(b) ==> AccountBacked(accounts', orders', k)
    {
      LockForOrderAt(b, taker, a', k);
      if Inv(b) { assert AccountBacked(b.accounts, b.orders, k); }
    }
    SumUpdate(b.accounts, taker.owner, a', BASE);
    SumUpdate(b.accounts, taker.owner, a', COMPUTE);
  }

  lemma LockForOrderAt(b: Book, taker: Order, a': Account, k: Key)
    requires Covered(b.accounts, b.orders, k) && taker.id !in b.orders
    requires OrderOk(taker) && taker.status.Open? && taker.filled == 0
    requires a'
          == Locked(AccountOf(b.accounts, taker.owner), taker.side, Needed(taker.side, taker.price, taker.quantity))
    requires Needed(taker.side, taker.price, taker.quantity)
          <= Available(AccountOf(b.accounts, taker.owner), taker.side)
    ensures Covered(b.accounts[taker.owner := a'], b.orders[taker.id := taker], k)
    ensures AccountBacked(b.accounts, b.orders, k) ==>
      AccountBacked(b.accounts[taker.owner := a'], b.orders[taker.id := taker], k)
  {
    MulPositive(taker.price, taker.quantity);
    SumUpdate(b.orders, taker.id, taker, BuyLock(k));
    SumUpdate(b.orders, taker.id, taker, SellLock(k));
  }

  /** A taker filled whole needs nothing, so storing it closed changes no lock sum. */
  lemma StoredSums(b: Book, taker: Order, k: Key)
    requires TakerOk(b.orders, taker)
    ensures Sum(b.orders[taker.id := Closing(taker)], BuyLock(k)) == Sum(b.orders[taker.id := taker], BuyLock(k))
    ensures Sum(b.orders[taker.id := Closing(taker)], SellLock(k)) == Sum(b.orders[taker.id := taker], SellLock(k))
  {
    var stored := Closing(taker);
    SumUpdate(b.orders, taker.id, taker, BuyLock(k));
    SumUpdate(b.orders, taker.id, taker, SellLock(k));
    SumUpdate(b.orders, taker.id, stored, BuyLock(k));
    SumUpdate(b.orders, taker.id, stored, SellLock(k));
    if taker.filled >= taker.quantity {
      assert taker.Unfilled() == 0;
      assert BuyLock(k)(taker) == 0 == SellLock(k)(taker);
    }
  }

  /** Storing the taker once matching stopped leaves the book backed. */
  lemma StoreTaker(b: Book, taker: Order)
    requires CoverWith(b, taker)
    ensures CoverInv(b.(orders := b.orders[taker.id := Closing(taker)]))
    ensures InvWith(b, taker) ==> Inv(b.(orders := b.orders[taker.id := Closing(taker)]))
  {
    var orders, orders' := b.orders[taker.id := taker], b.orders[taker.id := Closing(taker)];
    forall k
      ensures Covered(b.accounts, orders', k)
      ensures InvWith(b, taker) ==> AccountBacked(b.accounts, orders', k)
    {
      assert Covered(b.accounts, orders, k);
      if InvWith(b, taker) { assert AccountBacked(b.accounts, orders, k); }
      StoredSums(b, taker, k);
    }
  }

  /** `place_order` keeps the ledger backed and moves no value except taker fees. */
  lemma PlaceOrderKeepsInv(
    b: Book, owner: Key, side: Side, price: u64, quantity: u64, now: Time, id: OrderId)
    requires CoverInv(b) && id !in b.orders
    ensures
      var r := PlaceOrder(b, owner, side, price, quantity, now, id);
      && CoverInv(r.book)
      && (Inv(b) ==> Inv(r.book))
      && (r.Placed? ==> 0 <= BaseFees(r.trades) && 0 <= ComputeFees(r.trades))
      && TotalBase(r.book) + (if r.Placed? then BaseFees(r.trades) else 0) == TotalBase(b)
      && TotalCompute(r.book) + (if r.Placed? then ComputeFees(r.trades) else 0) == TotalCompute(b)
  {
    var a := AccountOf(b.accounts, owner);
    assert Covered(b.accounts, b.orders, owner);
    var need := Needed(side, price, quantity);
    if price == 0 || quantity == 0 || price * quantity > U64_MAX {
    } else if Available(a, side) < need {
      TouchAccount(b, owner, a);
    } else {
      var taker := NewOrder(id, owner, side, price, quantity, now);
      LockForOrder(b, taker);
      var locked := b.(accounts := b.accounts[owner := Locked(a, side, need)]);
      MatchLoopKeepsInv(locked, taker);
      var m := MatchLoop(locked, taker);
      StoreTaker(m.book, m.taker);
    }
  }

  /** Writing back an account as it already reads changes nothing the invariant sees. */
  lemma TouchAccount(b: Book, k: Key, a: Account)
    requires CoverInv(b) && a == AccountOf(b.accounts, k)
    ensures CoverInv(b.(accounts := b.accounts[k := a]))
    ensures Inv(b) ==> Inv(b.(accounts := b.accounts[k := a]))
    ensures TotalBase(b.(accounts := b.accounts[k := a])) == TotalBase(b)
    ensures TotalCompute(b.(accounts := b.accounts[k := a])) == TotalCompute(b)
  {
    SumUpdate(b.accounts, k, a, BASE);
    SumUpdate(b.accounts, k, a, COMPUTE);
    var accounts' := b.accounts[k := a];
    forall j
      ensures Covered(accounts', b.orders, j)
      ensures Inv(b) ==> AccountBacked(accounts', b.orders, j)
    {
      assert Covered(b.accounts, b.orders, j);
      if Inv(b) { assert AccountBacked(b.accounts, b.orders, j); }
    }
  }

  lemma InvCovers(b: Book)
    requires Inv(b)
    ensures CoverInv(b)
  {
    BackedIsCovered(b.accounts, b.orders);
  }

  lemma CancelledAccountBacked(b: Book, id: OrderId, k: Key)
    requires Inv(b) && id in b.orders && b.orders[id].status.Open?
    ensures
      var o := b.orders[id];
      AccountBacked(
        b.accounts[o.owner := Released(AccountOf(b.accounts, o.owner), o)],
        b.orders[id := o.(status := Cancelled)], k)
  {
    var o := b.orders[id];
    var orders' := b.orders[id := o.(status := Cancelled)];
    assert AccountBacked(b.accounts, b.orders, k);
    SumUpdate(b.orders, id, o.(status := Cancelled), BuyLock(k));
    SumUpdate(b.orders, id, o.(status := Cancelled), SellLock(k));
    MulPositive(o.price, o.Unfilled());
    SumsNonNegative(orders', k);
  }

  /** What a cancel leaves of one account: its balances, and its locks less what the
      order still held. */
  ghost predicate Releases(before: Account, after: Account, o: Order, k: Key) {
    && after.base == before.base && after.compute == before.compute
    && after.lockedBase == before.lockedBase - (if o.owner == k && o.side.Buy? then o.price * o.Unfilled() else 0)
    && after.lockedCompute == before.lockedCompute - (if o.owner == k && o.side.Sell? then o.Unfilled() else 0)
  }

  /** `cancel_order`, for the owner of an open order and nobody else, releases exactly the
      order's remaining lock, moves no balance, and keeps the invariant. */
  lemma CancelOrderKeepsInv(b: Book, id: OrderId, caller: Key)
    requires Inv(b)
    ensures CancelOrder(b, id, caller).CancelDone? <==>
      id in b.orders && b.orders[id].owner == caller && b.orders[id].status.Open?
    ensures
      var r := CancelOrder(b, id, caller);
      r.CancelDone? ==>
        && Inv(r.book) && r.book.orders == b.orders[id := b.orders[id].(status := Cancelled)]
        && (forall k :: Releases(AccountOf(b.accounts, k), AccountOf(r.book.accounts, k), b.orders[id], k))
        && TotalBase(r.book) == TotalBase(b)
        && TotalCompute(r.book) == TotalCompute(b)
  {
    var r := CancelOrder(b, id, caller);
    if r.CancelDone? {
      var o := b.orders[id];
      var a' := Released(AccountOf(b.accounts, o.owner), o);
      SumUpdate(b.accounts, o.owner, a', BASE);
      SumUpdate(b.accounts, o.owner, a', COMPUTE);
      forall k ensures AccountBacked(r.book.accounts, r.book.orders, k) {
        CancelledAccountBacked(b, id, k);
      }
    }
  }

  lemma CreditBaseKeepsInv(b: Book, k: Key, amount: int)
    requires Inv(b) && amount >= 0
    ensures Inv(CreditBase(b, k, amount))
    ensures TotalBase(CreditBase(b, k, amount)) == TotalBase(b) + amount
    ensures TotalCompute(CreditBase(b, k, amount)) == TotalCompute(b)
  {
    var a := AccountOf(b.accounts, k);
    var a' := a.(base := a.base + amount);
    SumUpdate(b.accounts, k, a', BASE);
    SumUpdate(b.accounts, k, a', COMPUTE);
    var accounts' := b.accounts[k := a'];
    forall j ensures AccountBacked(accounts', b.orders, j) {
      assert AccountBacked(b.accounts, b.orders, j);
    }
  }

  lemma CreditComputeKeepsInv(b: Book, k: Key, amount: int)
    requires Inv(b) && amount >= 0
    ensures Inv(CreditCompute(b, k, amount))
    ensures TotalBase(CreditCompute(b, k, amount)) == TotalBase(b)
    ensures TotalCompute(CreditCompute(b, k, amount)) == TotalCompute(b) + amount
  {
    var a := AccountOf(b.accounts, k);
    var a' := a.(compute := a.compute + amount);
    SumUpdate(b.accounts, k, a', BASE);
    SumUpdate(b.accounts, k, a', COMPUTE);
    var accounts' := b.accounts[k := a'];
    forall j ensures AccountBacked(accounts', b.orders, j) {
      assert AccountBacked(b.accounts, b.orders, j);
    }
  }

  lemma DebitKeepsInv(b: Book, k: Key, amount: int)
    requires Inv(b) && amount >= 0
    ensures
      var r := DebitForWithdrawal(b, k, amount);
      && Inv(r.book)
      && TotalBase(r.book) == TotalBase(b) - (if r.DebitDone? then amount else 0)
      && TotalCompute(r.book) == TotalCompute(b)
  {
    var a := AccountOf(b.accounts, k);
    assert AccountBacked(b.accounts, b.orders, k);
    var r := DebitForWithdrawal(b, k, amount);
    if r.DebitDone? {
      var a' := a.(base := a.base - amount);
      SumUpdate(b.accounts, k, a', BASE);
      SumUpdate(b.accounts, k, a', COMPUTE);
      forall j ensures AccountBacked(r.book.accounts, b.orders, j) {
        assert AccountBacked(b.accounts, b.orders, j);
      }
    } else if amount != 0 {
      InvCovers(b);
      TouchAccount(b, k, a);
    }
  }
}
