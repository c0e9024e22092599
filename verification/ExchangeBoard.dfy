// The exchange as board.rs runs it: maps updated in place with u64 arithmetic, a
// matching loop, and the staged copy the handler works on. A u64 operation whose result
// does not fit panics; a method that panicked says nothing more, and within the supply
// bound none does.

module ExchangeBoard {
  import opened Arithmetic
  import opened Basics
  import opened MapSums
  import opened Exchange
  import opened ExchangeInvariant
  import opened ExchangePriority
  import opened ExchangeStage

  // ----- u64 arithmetic ------------------------------------------------------------

  predicate Fits(x: int) { 0 <= x <= U64_MAX }

  /** Every operation of one fill has a result that fits. */
  predicate FillFits(buyer: Account, seller: Account, t: Trade, buyPrice: int) {
    var notional := t.price * t.quantity;
    var computeCredit, baseCredit := t.quantity - t.ComputeFee(), notional - t.BaseFee();
    && Fits(notional) && Fits((if t.takerSide.Buy? then t.quantity else notional) * TAKER_FEE_BPS)
    && Fits(buyPrice * t.quantity) && Fits(buyer.lockedBase - buyPrice * t.quantity) && Fits(buyer.base - notional)
    && Fits(computeCredit) && Fits(buyer.compute + computeCredit)
    && Fits(seller.lockedCompute - t.quantity) && Fits(seller.compute - t.quantity)
    && Fits(baseCredit) && Fits(seller.base + baseCredit)
  }

  predicate LockFits(a: Account, side: Side, need: int) {
    Fits((if side.Buy? then a.lockedBase else a.lockedCompute) + need)
  }

  predicate CancelFits(a: Account, o: Order) {
    if o.side.Buy? then Fits(o.price * o.Unfilled()) && Fits(a.lockedBase - o.price * o.Unfilled())
    else Fits(a.lockedCompute - o.Unfilled())
  }

  predicate FeesFit(a: Account, computeFees: int, baseFees: int) {
    && Fits(computeFees) && Fits(baseFees)
    && (computeFees > 0 ==> Fits(a.compute + computeFees)) && (baseFees > 0 ==> Fits(a.base + baseFees))
  }

  /** The supply below which a fee's `amount * TAKER_FEE_BPS` still fits a u64. */
  const MAX_SUPPLY: int := U64_MAX / TAKER_FEE_BPS

  /** Each asset's total fits the supply bound. */
  ghost predicate Bounded(b: Book) {
    TotalBase(b) <= MAX_SUPPLY && TotalCompute(b) <= MAX_SUPPLY
  }

  ghost predicate NonNegative(accounts: map<Key, Account>) {
    forall k <- accounts ::
      0 <= accounts[k].lockedBase <= accounts[k].base && 0 <= accounts[k].lockedCompute <= accounts[k].compute
  }

  lemma CoversNonNegative(b: Book, orders: map<OrderId, Order>)
    requires Covers(b.accounts, orders)
    requires forall id <- orders :: orders[id].price >= 0 && orders[id].filled <= orders[id].quantity
    ensures NonNegative(b.accounts)
  {
    forall k <- b.accounts
      ensures 0 <= b.accounts[k].lockedBase <= b.accounts[k].base
      ensures 0 <= b.accounts[k].lockedCompute <= b.accounts[k].compute
    {
      assert Covered(b.accounts, orders, k);
      SumsNonNegative(orders, k);
    }
  }

  lemma BalanceWithin(b: Book, k: Key)
    requires NonNegative(b.accounts)
    ensures 0 <= AccountOf(b.accounts, k).base <= TotalBase(b)
    ensures 0 <= AccountOf(b.accounts, k).compute <= TotalCompute(b)
  {
    assert forall j <- b.accounts :: BASE(b.accounts[j]) >= 0;
    assert forall j <- b.accounts :: COMPUTE(b.accounts[j]) >= 0;
    if k in b.accounts {
      SumBoundsTerm(b.accounts, k, BASE);
      SumBoundsTerm(b.accounts, k, COMPUTE);
    } else {
      SumNonNegative(b.accounts, BASE);
      SumNonNegative(b.accounts, COMPUTE);
    }
  }

  /** Every balance of a bounded, covered book is within the supply. */
  lemma WithinSupply(b: Book, k: Key)
    requires NonNegative(b.accounts) && Bounded(b)
    ensures
      var a := AccountOf(b.accounts, k);
      0 <= a.lockedBase <= a.base <= MAX_SUPPLY && 0 <= a.lockedCompute <= a.compute <= MAX_SUPPLY
  {
    BalanceWithin(b, k);
  }

  /** The balances around one fill, before and after, all fit the supply. */
  lemma FillInRange(b: Book, taker: Order, id: OrderId, k: Key)
    requires CoverWith(b, taker) && taker.filled < taker.quantity && IsBest(b.orders, taker, id) && Bounded(b)
    ensures Bounded(FillOne(b, taker, id).book)
    ensures
      var a, a' := AccountOf(b.accounts, k), AccountOf(FillOne(b, taker, id).book.accounts, k);
      && 0 <= a.lockedBase <= a.base <= MAX_SUPPLY && 0 <= a.lockedCompute <= a.compute <= MAX_SUPPLY
      && 0 <= a'.lockedBase <= a'.base <= MAX_SUPPLY && 0 <= a'.lockedCompute <= a'.compute <= MAX_SUPPLY
  {
    var one := FillOne(b, taker, id);
    FillOneOrdersOk(b, taker, id);
    FillOneKeepsInv(b, taker, id);
    FillOneTotals(b, taker, id);
    TradeFees(taker, b.orders[id], FillQuantity(taker, b.orders[id]));
    CoversNonNegative(b, b.orders[taker.id := taker]);
    CoversNonNegative(one.book, one.book.orders[taker.id := one.taker]);
    WithinSupply(b, k);
    WithinSupply(one.book, k);
  }

  /** Nothing in one fill of a bounded, covered book overflows. */
  lemma FillNeverOverflows(b: Book, taker: Order, id: OrderId)
    requires CoverWith(b, taker) && taker.filled < taker.quantity && IsBest(b.orders, taker, id) && Bounded(b)
    ensures
      var t := TradeOf(taker, b.orders[id], FillQuantity(taker, b.orders[id]));
      FillFits(AccountOf(b.accounts, t.buyer), AccountOf(b.accounts, t.seller), t, BuyPrice(taker, b.orders[id]))
  {
    var r := b.orders[id];
    var q := FillQuantity(taker, r);
    var t := TradeOf(taker, r, q);
    FillOneOrdersOk(b, taker, id);
    FillInRange(b, taker, id, t.buyer);
    FillInRange(b, taker, id, t.seller);
    MulMonotone(q, r.price, BuyPrice(taker, r));
    MulPositive(r.price, q);
    TradeFees(taker, r, q);
    var buyer, seller := AccountOf(b.accounts, t.buyer), AccountOf(b.accounts, t.seller);
    var after := FillOne(b, taker, id).book.accounts;
    assert AccountOf(after, t.buyer) == BuyerAfter(buyer, t, BuyPrice(taker, r));
    assert AccountOf(after, t.seller) == SellerAfter(seller, t);
    RangesFit(buyer, seller, t, BuyPrice(taker, r), r.price * q, BuyPrice(taker, r) * q);
  }

  /** The same in plain numbers: what stays within the supply before and after fits. */
  lemma RangesFit(buyer: Account, seller: Account, t: Trade, buyPrice: int, notional: int, release: int)
    requires notional == t.price * t.quantity && release == buyPrice * t.quantity
    requires 0 <= notional <= release && 0 <= t.quantity
    requires 0 <= t.ComputeFee() <= t.quantity && 0 <= t.BaseFee() <= notional
    requires 0 <= buyer.lockedBase <= buyer.base <= MAX_SUPPLY && 0 <= buyer.compute <= MAX_SUPPLY
    requires 0 <= seller.lockedCompute <= seller.compute <= MAX_SUPPLY && 0 <= seller.base <= MAX_SUPPLY
    requires 0 <= buyer.lockedBase - release && 0 <= seller.lockedCompute - t.quantity
    requires 0 <= buyer.compute + (t.quantity - t.ComputeFee()) <= MAX_SUPPLY
    requires 0 <= seller.base + (notional - t.BaseFee()) <= MAX_SUPPLY
    ensures FillFits(buyer, seller, t, buyPrice)
  {
  }

  // ----- the board ------------------------------------------------------------------

  datatype HandlerError = Board(error: Error) | Internal

  /** At the same price the older order comes first, and at the same instant the smaller id. */
  predicate TieBreak(a: Order, b: Order) {
    a.price == b.price ==> a.createdAt < b.createdAt || (a.createdAt == b.createdAt && a.id.n < b.id.n)
  }

  class TaskBoard {
    var accounts: map<Key, Account>
    var orders: map<OrderId, Order>
    var trades: seq<Trade>

    constructor ()
      ensures accounts == map[] && orders == map[] && trades == []
    {
      accounts, orders, trades := map[], map[], [];
    }

    ghost function TheBook(): Book
      reads this
    {
      Book(accounts, orders)
    }

    /** `best_resting_match`: collect in id order, sort by price then time, take the first. */
    method BestRestingMatch(taker: Order) returns (best: Option<OrderId>)
      requires OrdersOk(orders)
      ensures best == Best(orders, taker)
      ensures best.None? <==> forall j <- orders :: !Tradable(orders[j], taker)
      ensures best.Some? ==> best.value in orders && Tradable(orders[best.value], taker)
    {
      var candidates := Ranked(orders, o => EligibleFor(o, taker), taker.side);
      assert IsRanking(orders, taker, candidates);
      RankingHead(orders, taker, candidates);
      best := if candidates == [] then None else Some(candidates[0].id);
      BestIsTheBestDeal(orders, taker);
    }

    /** `order_book`: every open order, each side best first. */
    method OrderBook() returns (bids: seq<Order>, asks: seq<Order>)
      requires OrdersOk(orders)
      ensures forall i, j :: 0 <= i < j < |bids| ==> bids[i].price >= bids[j].price && TieBreak(bids[i], bids[j])
      ensures forall i, j :: 0 <= i < j < |asks| ==> asks[i].price <= asks[j].price && TieBreak(asks[i], asks[j])
      ensures forall o :: o in bids <==> o.id in orders && orders[o.id] == o && o.status.Open? && o.side.Buy?
      ensures forall o :: o in asks <==> o.id in orders && orders[o.id] == o && o.status.Open? && o.side.Sell?
    {
      bids := Ranked(orders, (o: Order) => o.status.Open? && o.side.Buy?, Sell);
      asks := Ranked(orders, (o: Order) => o.status.Open? && o.side.Sell?, Buy);
      forall i, j | 0 <= i < j < |bids| ensures bids[i].price >= bids[j].price && TieBreak(bids[i], bids[j]) {
        RankedIsBestFirst(Sell, bids, i, j);
      }
      forall i, j | 0 <= i < j < |asks| ensures asks[i].price <= asks[j].price && TieBreak(asks[i], asks[j]) {
        RankedIsBestFirst(Buy, asks, i, j);
      }
    }

    /** `place_order`. */
    method PlaceOrder(owner: Key, side: Side, price: u64, quantity: u64, now: Time, id: OrderId)
      returns (r: Result<(Order, seq<Trade>), Error>, panicked: bool)
      requires OrdersOk(orders) && id !in orders
      modifies this
      ensures !panicked ==>
        match Exchange.PlaceOrder(old(TheBook()), owner, side, price, quantity, now, id)
        case Placed(b, order, ts) => TheBook() == b && r == Ok((order, ts)) && trades == old(trades) + ts
        case Refused(b, error) => TheBook() == b && r == Err(error) && trades == old(trades)
      ensures old(CoverInv(TheBook()) && Bounded(TheBook())) ==> !panicked
    {
      panicked := false;
      if price == 0 || quantity == 0 {
        return Err(InvalidOrder), false;
      }
      if price * quantity > U64_MAX {
        return Err(NotionalOverflow), false;
      }
      var account := AccountOf(accounts, owner);
      accounts := accounts[owner := account];
      var need := Needed(side, price, quantity);
      if Available(account, side) < need {
        return Err(InsufficientBalance(Available(account, side), need)), false;
      }
      ghost var start := old(TheBook());
      var taker := NewOrder(id, owner, side, price, quantity, now);
      if CoverInv(start) && Bounded(start) { LockNeverOverflows(start, taker); }
      if !LockFits(account, side, need) {
        return Err(InvalidOrder), true;
      }
      accounts := accounts[owner := Locked(account, side, need)];
      assert accounts == start.accounts[owner := Locked(account, side, need)];
      var order, done;
      order, done, panicked := MatchAndStore(taker);
      r := Ok((order, done));
    }

    method MatchAndStore(placed: Order) returns (order: Order, done: seq<Trade>, panicked: bool)
      requires TakerOk(orders, placed)
      modifies this
      ensures !panicked ==>
        var m := MatchLoop(old(TheBook()), placed);
        && order == Closing(m.taker) && done == m.trades
        && TheBook() == m.book.(orders := m.book.orders[placed.id := order])
        && trades == old(trades) + m.trades
      ensures old(CoverWith(TheBook(), placed) && Bounded(TheBook())) ==> !panicked
    {
      order, done, panicked := MatchAll(placed);
      if panicked {
        return;
      }
      if order.filled >= order.quantity {
        order := order.(status := Filled);
      }
      orders := orders[order.id := order];
      trades := trades + done;
    }

    /** The `while taker.filled < taker.quantity` loop of `place_order`. */
    method MatchAll(placed: Order) returns (taker: Order, done: seq<Trade>, panicked: bool)
      requires TakerOk(orders, placed)
      modifies this`accounts, this`orders
      ensures taker == placed.(filled := taker.filled)
      ensures !panicked ==> Matched(TheBook(), taker, done) == MatchLoop(old(TheBook()), placed)
      ensures old(CoverWith(TheBook(), placed) && Bounded(TheBook())) ==> !panicked
    {
      ghost var start := TheBook();
      ghost var exact := CoverWith(start, placed) && Bounded(start);
      taker, done, panicked := placed, [], false;
      while taker.filled < taker.quantity
        invariant TakerOk(orders, taker) && taker == placed.(filled := taker.filled)
        invariant Ahead(start, placed, TheBook(), taker, done)
        invariant exact ==> CoverWith(TheBook(), taker) && Bounded(TheBook())
        decreases taker.quantity - taker.filled
      {
        var best := BestRestingMatch(taker);
        if best.None? {
          break;
        }
        BestIsBest(orders, taker);
        FillOneOrdersOk(TheBook(), taker, best.value);
        AheadStep(start, placed, TheBook(), taker, done, best.value);
        if exact { BoundedStep(TheBook(), taker, best.value); }
        var trade;
        taker, trade, panicked := FillNext(taker, best.value);
        if panicked {
          return;
        }
        done := done + [trade];
      }
      assert done + [] == done;
    }

    /** One turn of the loop against resting order `id`. */
    method FillNext(was: Order, id: OrderId) returns (taker: Order, trade: Trade, panicked: bool)
      requires TakerOk(orders, was) && was.filled < was.quantity && IsBest(orders, was, id)
      modifies this`accounts, this`orders
      ensures taker == was.(filled := was.filled + FillQuantity(was, old(orders)[id]))
      ensures !panicked ==> FillOne(old(TheBook()), was, id) == Matched(TheBook(), taker, [trade])
      ensures old(CoverWith(TheBook(), was) && Bounded(TheBook())) ==> !panicked
    {
      var resting := orders[id];
      if CoverWith(TheBook(), was) && Bounded(TheBook()) { FillNeverOverflows(TheBook(), was, id); }
      var q := Min(was.quantity - was.filled, resting.quantity - resting.filled);
      orders := orders[id := AfterFill(resting, q)];
      taker := was.(filled := was.filled + q);
      trade, panicked := Fill(was, resting, q);
    }

    /** The account half of one fill. */
    method Fill(taker: Order, resting: Order, q: int) returns (trade: Trade, panicked: bool)
      requires taker.owner != resting.owner
      modifies this`accounts
      ensures trade == TradeOf(taker, resting, q)
      ensures panicked <==>
        !FillFits(AccountOf(old(accounts), trade.buyer), AccountOf(old(accounts), trade.seller), trade,
          BuyPrice(taker, resting))
      ensures !panicked ==> accounts == Settle(old(accounts), trade, BuyPrice(taker, resting))
    {
      var (buyer, buyPrice, seller) :=
        if taker.side.Buy? then (taker.owner, taker.price, resting.owner)
        else (resting.owner, resting.price, taker.owner);
      var notional := resting.price * q;
      var fee := if taker.side.Buy? then q * TAKER_FEE_BPS / 10_000 else notional * TAKER_FEE_BPS / 10_000;
      var computeCredit := if taker.side.Buy? then q - fee else q;
      var baseCredit := if taker.side.Sell? then notional - fee else notional;
      trade := if taker.side.Buy?
        then Trade(taker.id, resting.id, buyer, seller, resting.price, q, Buy, fee, taker.createdAt)
        else Trade(resting.id, taker.id, buyer, seller, resting.price, q, Sell, fee, taker.createdAt);
      var b, s := AccountOf(accounts, buyer), AccountOf(accounts, seller);
      panicked := !FillFits(b, s, trade, buyPrice);
      if panicked {
        return;
      }
      accounts := accounts[buyer :=
        b.(lockedBase := b.lockedBase - buyPrice * q, base := b.base - notional, compute := b.compute + computeCredit)];
      accounts := accounts[seller :=
        s.(lockedCompute := s.lockedCompute - q, compute := s.compute - q, base := s.base + baseCredit)];
    }

    /** `cancel_order`. */
    method CancelOrder(id: OrderId, caller: Key) returns (r: Result<Order, Error>, panicked: bool)
      requires OrdersOk(orders)
      modifies this
      ensures !panicked ==>
        match Exchange.CancelOrder(old(TheBook()), id, caller)
        case CancelDone(b, order) => TheBook() == b && r == Ok(order)
        case CancelRefused(error) => TheBook() == old(TheBook()) && r == Err(error)
      ensures trades == old(trades)
      ensures old(Inv(TheBook()) && Bounded(TheBook())) ==> !panicked
    {
      panicked := false;
      if id !in orders {
        return Err(OrderNotFound), false;
      }
      var order := orders[id];
      if order.owner != caller {
        return Err(NotOrderOwner), false;
      }
      if !order.status.Open? {
        return Err(OrderNotOpen), false;
      }
      if Inv(TheBook()) && Bounded(TheBook()) { CancelNeverOverflows(TheBook(), id); }
      var remaining := order.quantity - order.filled;
      orders := orders[id := order.(status := Cancelled)];
      r := Ok(order.(status := Cancelled));
      var account := AccountOf(accounts, order.owner);
      panicked := !CancelFits(account, order);
      if panicked {
        return;
      }
      accounts := accounts[order.owner :=
        if order.side.Buy? then account.(lockedBase := account.lockedBase - order.price * remaining)
        else account.(lockedCompute := account.lockedCompute - remaining)];
    }

    /** `debit_for_withdrawal`: what is locked under open orders cannot leave, so the
        subtraction never underflows. */
    method DebitForWithdrawal(owner: Key, amount: u64) returns (r: Result<(), Error>)
      modifies this`accounts
      ensures
        match Exchange.DebitForWithdrawal(old(TheBook()), owner, amount)
        case DebitDone(b) => TheBook() == b && r == Ok(())
        case DebitRefused(b, error) => TheBook() == b && r == Err(error)
      ensures r.Ok? ==> owner in accounts && accounts[owner].lockedBase <= accounts[owner].base
      ensures old(Inv(TheBook())) ==> Inv(TheBook())
    {
      if Inv(TheBook()) { DebitKeepsInv(TheBook(), owner, amount); }
      if amount == 0 {
        return Err(ZeroWithdrawal);
      }
      var account := AccountOf(accounts, owner);
      accounts := accounts[owner := account];
      var available := if account.base >= account.lockedBase then account.base - account.lockedBase else 0;
      if available < amount {
        return Err(InsufficientBalance(available, amount));
      }
      accounts := accounts[owner := account.(base := account.base - amount)];
      assert accounts == old(accounts)[owner := account.(base := account.base - amount)];
      return Ok(());
    }

    method CopyIn(order: Order, account: Account)
      modifies this`accounts, this`orders
      ensures TheBook() == Book(old(accounts)[order.owner := account], old(orders)[order.id := order])
    {
      accounts := accounts[order.owner := account];
      orders := orders[order.id := order];
    }

    /** `stage_order`. */
    method StageOrder(owner: Key, side: Side, price: u64, sink: Key) returns (staged: TaskBoard)
      requires OrdersOk(orders)
      ensures fresh(staged) && staged.TheBook() == Stage(TheBook(), owner, side, price, sink) && staged.trades == []
    {
      staged := new TaskBoard();
      staged.accounts := staged.accounts[owner := AccountOf(accounts, owner)];
      staged.accounts := staged.accounts[sink := AccountOf(accounts, sink)];
      var todo := orders.Keys;
      StageStart(TheBook(), staged.TheBook(), owner, side, price, sink);
      while todo != {}
        invariant Staging(TheBook(), staged.TheBook(), todo, owner, side, price, sink)
        invariant staged.trades == [] && fresh(staged)
        decreases |todo|
      {
        LeastExists(todo);
        var id :| id in todo && forall j <- todo :: id.n <= j.n;
        StageOne(TheBook(), staged.TheBook(), todo, owner, side, price, sink, id);
        todo := todo - {id};
        if Staged(orders[id], owner, side, price) {
          staged.CopyIn(orders[id], AccountOf(accounts, orders[id].owner));
        }
      }
      StageComplete(TheBook(), staged.TheBook(), owner, side, price, sink);
    }

    /** `handlers::place_order` once the envelope is verified. `committed` is whether the
        store took the fill. Nothing reaches the live board on a refusal, a panic over the
        copy, or a failed commit. */
    method HandlePlaceOrder(
      owner: Key, side: Side, price: u64, quantity: u64, now: Time, id: OrderId, sink: Key, committed: bool)
      returns (r: Result<Order, HandlerError>, panicked: bool)
      requires OrdersOk(orders) && id !in orders
      modifies this
      ensures !panicked ==>
        match ExchangeStage.HandlePlaceOrder(old(TheBook()), owner, side, price, quantity, now, id, sink)
        case Placed(b, order, ts) =>
          if committed then TheBook() == b && r == Ok(order) && trades == old(trades) + ts else r == Err(Internal)
        case Refused(_, error) => r == Err(Board(error))
      ensures panicked || r.Err? ==> TheBook() == old(TheBook()) && trades == old(trades)
      ensures old(Inv(TheBook()) && Bounded(TheBook())) ==> !panicked
    {
      ghost var live := TheBook();
      ghost var bounded := Inv(live) && Bounded(live);
      var staged := StageOrder(owner, side, price, sink);
      StageOrdersOk(live, owner, side, price, sink);
      if bounded {
        StageCovers(live, owner, side, price, sink);
        StageBounded(live, owner, side, price, sink);
      }
      var placed;
      placed, panicked := staged.PlaceOrder(owner, side, price, quantity, now, id);
      if panicked {
        return Err(Internal), true;
      }
      if placed.Err? {
        return Err(Board(placed.error)), false;
      }
      var (order, fills) := placed.value;
      if bounded {
        FeesNeverOverflow(Stage(live, owner, side, price, sink), owner, side, price, quantity, now, id, sink);
      }
      panicked := staged.CreditFeesTo(sink, fills);
      if panicked || !committed {
        return Err(Internal), panicked;
      }
      Publish(staged, order, owner, sink, fills);
      r := Ok(order);
    }

    /** Routing a placement's fees to the operator, `credit_compute` and `credit_base`. */
    method CreditFeesTo(sink: Key, fills: seq<Trade>) returns (panicked: bool)
      modifies this`accounts
      ensures !panicked ==> TheBook() == CreditFees(old(TheBook()), sink, fills)
      ensures panicked <==> !FeesFit(AccountOf(old(accounts), sink), ComputeFees(fills), BaseFees(fills))
    {
      var computeFees, baseFees := FeeTotals(fills);
      panicked := !FeesFit(AccountOf(accounts, sink), computeFees, baseFees);
      if panicked {
        return;
      }
      if computeFees > 0 {
        var a := AccountOf(accounts, sink);
        accounts := accounts[sink := a.(compute := a.compute + computeFees)];
      }
      if baseFees > 0 {
        var a := AccountOf(accounts, sink);
        accounts := accounts[sink := a.(base := a.base + baseFees)];
      }
    }

    /** Writing back the placed order, the makers it hit, and every account that moved. */
    method Publish(staged: TaskBoard, order: Order, owner: Key, sink: Key, fills: seq<Trade>)
      requires staged != this
      modifies this
      ensures TheBook()
        == ExchangeStage.Publish(
             old(TheBook()), staged.TheBook(), {order.id} + Makers(fills), TouchedKeys(owner, sink, fills))
      ensures trades == old(trades) + fills
    {
      var computeFees, baseFees := FeeTotals(fills);
      var keys := Traders(fills) + {owner} + if computeFees > 0 || baseFees > 0 then {sink} else {};
      orders := PublishedOrders(orders, staged.orders, {order.id} + Makers(fills));
      accounts := PublishedAccounts(accounts, staged.accounts, keys);
      trades := trades + fills;
    }
  }

  /** `taker_fee_totals`. */
  method FeeTotals(trades: seq<Trade>) returns (compute: int, base: int)
    ensures compute == ComputeFees(trades) && base == BaseFees(trades)
  {
    compute, base := 0, 0;
    for i := 0 to |trades|
      invariant compute + ComputeFees(trades[i..]) == ComputeFees(trades)
      invariant base + BaseFees(trades[i..]) == BaseFees(trades)
    {
      assert trades[i..][0] == trades[i] && trades[i..][1..] == trades[i + 1..];
      if trades[i].takerSide.Buy? {
        compute := compute + trades[i].takerFee;
      } else {
        base := base + trades[i].takerFee;
      }
    }
  }

  /** So far: the values under every id not in `todo` that pass the filter, in ascending id
      order, all before what is left. */
  ghost predicate Collected(orders: map<OrderId, Order>, keep: Order -> bool, todo: set<OrderId>, s: seq<Order>) {
    && todo <= orders.Keys && IdsAscend(s)
    && (forall o <- s, j <- todo :: o.id.n < j.n)
    && (forall o :: o in s <==> o.id in orders && o.id !in todo && orders[o.id] == o && keep(o))
  }

  lemma CollectOne(orders: map<OrderId, Order>, keep: Order -> bool, todo: set<OrderId>, s: seq<Order>, id: OrderId)
    requires OrdersOk(orders) && Collected(orders, keep, todo, s) && id in todo && forall j <- todo :: id.n <= j.n
    ensures Collected(orders, keep, todo - {id}, if keep(orders[id]) then s + [orders[id]] else s)
  {
    var o := orders[id];
    if keep(o) {
      AppendAscends(s, o);
      forall x ensures x in s + [o] <==> x in s || x == o {}
    }
  }

  lemma AppendAscends(s: seq<Order>, o: Order)
    requires IdsAscend(s) && forall x <- s :: x.id.n < o.id.n
    ensures IdsAscend(s + [o])
  {
  }

  /** The map values that pass the filter, in ascending id order. */
  method InIdOrder(orders: map<OrderId, Order>, keep: Order -> bool) returns (s: seq<Order>)
    requires OrdersOk(orders)
    ensures IdsAscend(s)
    ensures forall o :: o in s <==> o.id in orders && orders[o.id] == o && keep(o)
  {
    s := [];
    var todo := orders.Keys;
    while todo != {}
      invariant Collected(orders, keep, todo, s)
      decreases |todo|
    {
      LeastExists(todo);
      var id :| id in todo && forall j <- todo :: id.n <= j.n;
      CollectOne(orders, keep, todo, s, id);
      todo := todo - {id};
      if keep(orders[id]) {
        s := s + [orders[id]];
      }
    }
  }

  /** Collect in id order, then sort by price and time. */
  method Ranked(orders: map<OrderId, Order>, keep: Order -> bool, side: Side) returns (s: seq<Order>)
    requires OrdersOk(orders)
    ensures StrictlyRanked(side, s)
    ensures forall o :: o in s <==> o.id in orders && orders[o.id] == o && keep(o)
  {
    var unsorted := InIdOrder(orders, keep);
    s := StableSort(side, unsorted);
    StableSortRanks(side, unsorted);
    forall o ensures o in s <==> o in unsorted {
      assert o in multiset(s) <==> o in multiset(unsorted);
    }
  }

  lemma {:induction false} LeastExists(s: set<OrderId>)
    requires s != {}
    ensures exists i :: i in s && forall j <- s :: i.n <= j.n
    decreases |s|
  {
    var x := Member(s);
    if s != {x} {
      LeastExists(s - {x});
      var i :| i in s - {x} && forall j <- s - {x} :: i.n <= j.n;
      var least := if x.n <= i.n then x else i;
      forall j <- s ensures least.n <= j.n {
        if j != x { assert j in s - {x}; }
      }
    } else {
      assert x in s && forall j <- s :: x.n <= j.n;
    }
  }

  // ----- the lemmas the methods use -------------------------------------------------

  /** Past its checks, a placement's lock fits, and leaves the copy covered and bounded. */
  lemma LockNeverOverflows(b: Book, taker: Order)
    requires CoverInv(b) && Bounded(b) && taker.id !in b.orders && OrderOk(taker)
    requires taker == NewOrder(taker.id, taker.owner, taker.side, taker.price, taker.quantity, taker.createdAt)
    requires Needed(taker.side, taker.price, taker.quantity)
          <= Available(AccountOf(b.accounts, taker.owner), taker.side)
    ensures
      var a, need := AccountOf(b.accounts, taker.owner), Needed(taker.side, taker.price, taker.quantity);
      var locked := b.(accounts := b.accounts[taker.owner := Locked(a, taker.side, need)]);
      LockFits(a, taker.side, need) && CoverWith(locked, taker) && Bounded(locked)
  {
    MulPositive(taker.price, taker.quantity);
    LockForOrder(b, taker);
    CoversNonNegative(b, b.orders);
    WithinSupply(b, taker.owner);
  }

  /** What is done plus what the loop would still do is the whole loop. */
  ghost predicate Ahead(start: Book, placed: Order, b: Book, taker: Order, done: seq<Trade>) {
    && OrdersOk(b.orders) && OrdersOk(start.orders)
    && var rest := MatchLoop(b, taker);
       MatchLoop(start, placed) == Matched(rest.book, rest.taker, done + rest.trades)
  }

  lemma AheadStep(start: Book, placed: Order, b: Book, taker: Order, done: seq<Trade>, id: OrderId)
    requires Ahead(start, placed, b, taker, done) && taker.filled < taker.quantity && Best(b.orders, taker) == Some(id)
    requires id in b.orders && OrdersOk(FillOne(b, taker, id).book.orders)
    ensures
      var one := FillOne(b, taker, id);
      Ahead(start, placed, one.book, one.taker, done + one.trades)
  {
    Accumulate(b, taker, id, done);
  }

  lemma BoundedStep(b: Book, taker: Order, id: OrderId)
    requires CoverWith(b, taker) && taker.filled < taker.quantity && IsBest(b.orders, taker, id) && Bounded(b)
    ensures
      var one := FillOne(b, taker, id);
      CoverWith(one.book, one.taker) && Bounded(one.book)
  {
    FillOneKeepsInv(b, taker, id);
    FillInRange(b, taker, id, taker.owner);
  }

  /** One more turn moves one trade from the rest of the loop to what is done. */
  lemma Accumulate(b: Book, taker: Order, id: OrderId, done: seq<Trade>)
    requires OrdersOk(b.orders) && taker.filled < taker.quantity && Best(b.orders, taker) == Some(id) && id in b.orders
    requires OrdersOk(FillOne(b, taker, id).book.orders)
    ensures
      var one := FillOne(b, taker, id);
      var all, rest := MatchLoop(b, taker), MatchLoop(one.book, one.taker);
      Matched(all.book, all.taker, done + all.trades)
        == Matched(rest.book, rest.taker, (done + one.trades) + rest.trades)
  {
    var one := FillOne(b, taker, id);
    var rest := MatchLoop(one.book, one.taker);
    assert MatchLoop(b, taker) == Matched(rest.book, rest.taker, one.trades + rest.trades);
    assert done + (one.trades + rest.trades) == (done + one.trades) + rest.trades;
  }

  lemma CancelNeverOverflows(b: Book, id: OrderId)
    requires Inv(b) && Bounded(b) && id in b.orders && b.orders[id].status.Open?
    ensures CancelFits(AccountOf(b.accounts, b.orders[id].owner), b.orders[id])
  {
    var o := b.orders[id];
    CancelledAccountBacked(b, id, o.owner);
    SumsNonNegative(b.orders[id := o.(status := Cancelled)], o.owner);
    BackedIsCovered(b.accounts, b.orders);
    CoversNonNegative(b, b.orders);
    WithinSupply(b, o.owner);
    MulPositive(o.price, o.Unfilled());
  }

  lemma StagedOrdersComplete(orders: map<OrderId, Order>, copy: map<OrderId, Order>, owner: Key, side: Side, price: int)
    requires copy.Keys <= orders.Keys
    requires forall id <- orders :: id in copy <==> Staged(orders[id], owner, side, price)
    requires forall id <- copy :: copy[id] == orders[id]
    ensures copy == map id <- orders | Staged(orders[id], owner, side, price) :: orders[id]
  {
  }

  /** A partly staged copy, with the orders in `todo` still to be looked at. */
  ghost predicate Staging(b: Book, copy: Book, todo: set<OrderId>, owner: Key, side: Side, price: int, sink: Key) {
    && todo <= b.orders.Keys && copy.orders.Keys <= b.orders.Keys
    && (forall id <- b.orders :: id in copy.orders <==> id !in todo && Staged(b.orders[id], owner, side, price))
    && (forall id <- copy.orders :: copy.orders[id] == b.orders[id])
    && copy.accounts.Keys == {owner, sink} + Owners(copy.orders)
    && (forall k <- copy.accounts :: copy.accounts[k] == AccountOf(b.accounts, k))
  }

  lemma StageStart(b: Book, copy: Book, owner: Key, side: Side, price: int, sink: Key)
    requires copy.orders == map[]
    requires copy.accounts == map[owner := AccountOf(b.accounts, owner), sink := AccountOf(b.accounts, sink)]
    ensures Staging(b, copy, b.orders.Keys, owner, side, price, sink)
  {
  }

  lemma StageOne(b: Book, copy: Book, todo: set<OrderId>, owner: Key, side: Side, price: int, sink: Key, id: OrderId)
    requires Staging(b, copy, todo, owner, side, price, sink) && id in todo
    ensures
      var o := b.orders[id];
      var copied := Book(copy.accounts[o.owner := AccountOf(b.accounts, o.owner)], copy.orders[id := o]);
      Staging(b, if Staged(o, owner, side, price) then copied else copy, todo - {id}, owner, side, price, sink)
  {
    OwnersUpdate(copy.orders, id, b.orders[id]);
  }

  lemma StageComplete(b: Book, copy: Book, owner: Key, side: Side, price: int, sink: Key)
    requires Staging(b, copy, {}, owner, side, price, sink)
    ensures copy == Stage(b, owner, side, price, sink)
  {
    StagedOrdersComplete(b.orders, copy.orders, owner, side, price);
    assert copy.accounts == Stage(b, owner, side, price, sink).accounts;
  }

  lemma OwnersUpdate(orders: map<OrderId, Order>, id: OrderId, o: Order)
    requires id !in orders
    ensures Owners(orders[id := o]) == Owners(orders) + {o.owner}
  {
    assert orders[id := o][id].owner in Owners(orders[id := o]);
    forall k | k in Owners(orders) ensures k in Owners(orders[id := o]) {
      var j :| j in orders && orders[j].owner == k;
      assert orders[id := o][j].owner == k;
    }
  }

  lemma StageCovers(b: Book, owner: Key, side: Side, price: int, sink: Key)
    requires Inv(b)
    ensures CoverInv(Stage(b, owner, side, price, sink))
  {
    var s := Stage(b, owner, side, price, sink);
    InvCovers(b);
    forall k ensures Covered(s.accounts, s.orders, k) {
      assert Covered(b.accounts, b.orders, k);
      forall id <- b.orders ensures BuyLock(k)(b.orders[id]) >= 0 && SellLock(k)(b.orders[id]) >= 0 {
        MulPositive(b.orders[id].price, b.orders[id].Unfilled());
      }
      SumOfPart(s.orders, b.orders, BuyLock(k));
      SumOfPart(s.orders, b.orders, SellLock(k));
      if k !in s.accounts {
        forall id <- s.orders ensures s.orders[id].owner != k {
          assert s.orders[id].owner in Owners(s.orders);
        }
        SumZero(s.orders, BuyLock(k));
        SumZero(s.orders, SellLock(k));
      }
    }
  }

  lemma StageBounded(b: Book, owner: Key, side: Side, price: int, sink: Key)
    requires Inv(b) && Bounded(b)
    ensures Bounded(Stage(b, owner, side, price, sink))
  {
    InvCovers(b);
    CoversNonNegative(b, b.orders);
    var s := Stage(b, owner, side, price, sink);
    assert forall k <- b.accounts :: BASE(b.accounts[k]) >= 0 && COMPUTE(b.accounts[k]) >= 0;
    SumOfPart(s.accounts, b.accounts, BASE);
    SumOfPart(s.accounts, b.accounts, COMPUTE);
  }

  lemma StageOrdersOk(b: Book, owner: Key, side: Side, price: int, sink: Key)
    requires OrdersOk(b.orders)
    ensures OrdersOk(Stage(b, owner, side, price, sink).orders)
  {
  }

  /** Crediting the sink what a placement charged cannot exceed the supply. */
  lemma FeesNeverOverflow(
    b: Book, owner: Key, side: Side, price: u64, quantity: u64, now: Time, id: OrderId, sink: Key)
    requires CoverInv(b) && Bounded(b) && id !in b.orders
    requires PlaceOrder(b, owner, side, price, quantity, now, id).Placed?
    ensures
      var r := PlaceOrder(b, owner, side, price, quantity, now, id);
      FeesFit(AccountOf(r.book.accounts, sink), ComputeFees(r.trades), BaseFees(r.trades))
  {
    PlaceOrderKeepsInv(b, owner, side, price, quantity, now, id);
    var r := PlaceOrder(b, owner, side, price, quantity, now, id);
    CoversNonNegative(r.book, r.book.orders);
    BalanceWithin(r.book, sink);
  }
}
