// What a placement does to balances, read off its trade records alone.

module ExchangeSettlement {
  import opened Basics
  import opened Exchange
  import opened ExchangeInvariant

  /** What the trades pay and charge `k` in base. */
  function BaseFlow(trades: seq<Trade>, k: Key): int {
    if trades == [] then 0
    else
      var t := trades[0];
      (if t.buyer == k then -(t.price * t.quantity) else 0)
      + (if t.seller == k then t.price * t.quantity - t.BaseFee() else 0)
      + BaseFlow(trades[1..], k)
  }

  /** And in compute. */
  function ComputeFlow(trades: seq<Trade>, k: Key): int {
    if trades == [] then 0
    else
      var t := trades[0];
      (if t.buyer == k then t.quantity - t.ComputeFee() else 0)
      + (if t.seller == k then -t.quantity else 0)
      + ComputeFlow(trades[1..], k)
  }

  function Volume(trades: seq<Trade>): int {
    if trades == [] then 0 else trades[0].quantity + Volume(trades[1..])
  }

  /** A trade the taker's limit allows, with somebody else, at one tenth of a percent, at
      the taker's time. */
  ghost predicate WithinLimit(t: Trade, taker: Order) {
    && t.quantity > 0 && t.takerSide == taker.side && t.executedAt == taker.createdAt
    && (if taker.side.Buy? then
          && t.buyer == taker.owner && t.seller != taker.owner && t.buyOrderId == taker.id
          && t.price <= taker.price && t.takerFee == t.quantity / 1_000
        else
          && t.seller == taker.owner && t.buyer != taker.owner && t.sellOrderId == taker.id
          && t.price >= taker.price && t.takerFee == t.price * t.quantity / 1_000)
  }

  lemma OneFillSettles(b: Book, taker: Order, id: OrderId, k: Key)
    requires OrdersOk(b.orders) && taker.filled < taker.quantity && IsBest(b.orders, taker, id)
    ensures
      var one := FillOne(b, taker, id);
      && |one.trades| == 1 && WithinLimit(one.trades[0], taker)
      && one.trades[0].price == b.orders[id].price
      && one.taker == taker.(filled := taker.filled + one.trades[0].quantity)
      && AccountOf(one.book.accounts, k).base == AccountOf(b.accounts, k).base + BaseFlow(one.trades, k)
      && AccountOf(one.book.accounts, k).compute == AccountOf(b.accounts, k).compute + ComputeFlow(one.trades, k)
  {
    var t := FillOne(b, taker, id).trades[0];
    assert FillOne(b, taker, id).trades[1..] == [];
    FeeIsATenthPercent(t.quantity);
    FeeIsATenthPercent(t.price * t.quantity);
  }

  lemma FeeIsATenthPercent(amount: int)
    ensures FeeOn(amount) == amount / 1_000
  {
  }

  lemma FlowsCons(t: Trade, rest: seq<Trade>, k: Key)
    ensures BaseFlow([t] + rest, k) == BaseFlow([t], k) + BaseFlow(rest, k)
    ensures ComputeFlow([t] + rest, k) == ComputeFlow([t], k) + ComputeFlow(rest, k)
    ensures Volume([t] + rest) == t.quantity + Volume(rest)
  {
    assert ([t] + rest)[1..] == rest;
    assert [t][1..] == [];
  }

  lemma {:induction false} MatchLoopSettles(b: Book, taker: Order, k: Key)
    requires OrdersOk(b.orders)
    ensures
      var m := MatchLoop(b, taker);
      && (forall t <- m.trades :: WithinLimit(t, taker))
      && m.taker == taker.(filled := taker.filled + Volume(m.trades))
      && AccountOf(m.book.accounts, k).base == AccountOf(b.accounts, k).base + BaseFlow(m.trades, k)
      && AccountOf(m.book.accounts, k).compute == AccountOf(b.accounts, k).compute + ComputeFlow(m.trades, k)
    decreases taker.Unfilled()
  {
    if taker.filled < taker.quantity && Best(b.orders, taker).Some? {
      var id := Best(b.orders, taker).value;
      BestIsBest(b.orders, taker);
      FillOneOrdersOk(b, taker, id);
      OneFillSettles(b, taker, id, k);
      var one := FillOne(b, taker, id);
      MatchLoopSettles(one.book, one.taker, k);
      FlowsCons(one.trades[0], MatchLoop(one.book, one.taker).trades, k);
    }
  }

  /** A placement moves every balance by exactly what its trade records say, fills the
      taker by their volume, and makes no trade outside the taker's limit or with itself;
      a refused one moves no balance. */
  lemma PlacementSettles(b: Book, owner: Key, side: Side, price: u64, quantity: u64, now: Time, id: OrderId, k: Key)
    requires OrdersOk(b.orders)
    ensures
      var r := PlaceOrder(b, owner, side, price, quantity, now, id);
      if r.Refused? then AccountOf(r.book.accounts, k) == AccountOf(b.accounts, k) && r.book.orders == b.orders
      else
        && (forall t <- r.trades :: WithinLimit(t, r.order))
        && r.order.filled == Volume(r.trades)
        && r.order.id == id && r.order.owner == owner && r.order.side == side
        && r.order.price == price && r.order.quantity == quantity && r.order.createdAt == now
        && id in r.book.orders && r.book.orders[id] == r.order
        && (r.order.status.Filled? <==> r.order.filled == quantity)
        && AccountOf(r.book.accounts, k).base == AccountOf(b.accounts, k).base + BaseFlow(r.trades, k)
        && AccountOf(r.book.accounts, k).compute == AccountOf(b.accounts, k).compute + ComputeFlow(r.trades, k)
  {
    if PlaceOrder(b, owner, side, price, quantity, now, id).Placed? {
      var a := Locked(AccountOf(b.accounts, owner), side, Needed(side, price, quantity));
      LockedMatchSettles(b, a, NewOrder(id, owner, side, price, quantity, now), k);
    }
  }

  /** `place_order` succeeds exactly for a positive price and quantity whose product fits, on a
      free balance that covers it; and each refusal says which of these failed. */
  lemma PlacedIff(b: Book, owner: Key, side: Side, price: u64, quantity: u64, now: Time, id: OrderId)
    requires OrdersOk(b.orders)
    ensures
      var r, a := PlaceOrder(b, owner, side, price, quantity, now, id), AccountOf(b.accounts, owner);
      var free := if side.Buy? then a.base - a.lockedBase else a.compute - a.lockedCompute;
      var need := if side.Buy? then price * quantity else quantity;
      && (r.Placed? <==> price > 0 && quantity > 0 && price * quantity <= U64_MAX && need <= free)
      && (r.Refused? ==>
            match r.error
            case InvalidOrder => price == 0 || quantity == 0
            case NotionalOverflow => price > 0 && quantity > 0 && price * quantity > U64_MAX
            case InsufficientBalance(available, required) =>
              free < need && required == need && available == if free < 0 then 0 else free
            case _ => false)
  {
  }

  /** `debit_for_withdrawal` succeeds exactly for a positive amount of unlocked base, and takes
      that amount from that account and nothing else. */
  lemma DebitedIff(b: Book, owner: Key, amount: u64, k: Key)
    ensures
      var r, a := DebitForWithdrawal(b, owner, amount), AccountOf(b.accounts, owner);
      && (r.DebitDone? <==> 0 < amount <= a.base - a.lockedBase)
      && r.book.orders == b.orders
      && AccountOf(r.book.accounts, k) == (
           if r.DebitDone? && k == owner then a.(base := a.base - amount) else AccountOf(b.accounts, k))
      && (r.DebitRefused? ==>
            if amount == 0 then r.error == ZeroWithdrawal
            else
              && r.error.InsufficientBalance? && r.error.required == amount
              && r.error.available == if a.base < a.lockedBase then 0 else a.base - a.lockedBase)
  {
  }

  /** Matching behind a lock moves the same balances as without it, and stops at the quantity. */
  lemma LockedMatchSettles(b: Book, a: Account, taker: Order, k: Key)
    requires OrdersOk(b.orders) && taker.filled <= taker.quantity
    requires a.base == AccountOf(b.accounts, taker.owner).base
    requires a.compute == AccountOf(b.accounts, taker.owner).compute
    ensures
      var m := MatchLoop(b.(accounts := b.accounts[taker.owner := a]), taker);
      && (forall t <- m.trades :: WithinLimit(t, taker))
      && m.taker == taker.(filled := taker.filled + Volume(m.trades)) && m.taker.filled <= taker.quantity
      && AccountOf(m.book.accounts, k).base == AccountOf(b.accounts, k).base + BaseFlow(m.trades, k)
      && AccountOf(m.book.accounts, k).compute == AccountOf(b.accounts, k).compute + ComputeFlow(m.trades, k)
  {
    var locked := b.(accounts := b.accounts[taker.owner := a]);
    MatchLoopSettles(locked, taker, k);
    MatchLoopStops(locked, taker);
  }

  lemma {:induction false} MatchLoopStops(b: Book, taker: Order)
    requires OrdersOk(b.orders) && taker.filled <= taker.quantity
    ensures MatchLoop(b, taker).taker.filled <= taker.quantity
    decreases taker.Unfilled()
  {
    if taker.filled < taker.quantity && Best(b.orders, taker).Some? {
      var id := Best(b.orders, taker).value;
      FillOneOrdersOk(b, taker, id);
      MatchLoopStops(FillOne(b, taker, id).book, FillOne(b, taker, id).taker);
    }
  }
}
