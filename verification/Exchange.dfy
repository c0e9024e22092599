// The exchange ledger of hub/src/board.rs: balances, resting limit orders and
// the matching loop, over unbounded integers. `ExchangeBoard` runs the same
// operations with checked u64 arithmetic, which panics where a result does not fit.

module Exchange {
  import opened Arithmetic
  import opened Basics

  type Key = PublicKey
  type OrderId = Uuid
  type Time = int

  datatype Side = Buy | Sell

  datatype OrderStatus = Open | Filled | Cancelled

  datatype Order = Order(
    id: OrderId, owner: Key, side: Side, price: int, quantity: int,
    filled: int, status: OrderStatus, createdAt: Time)
  {
    function Unfilled(): int { quantity - filled }
  }

  datatype Account = Account(base: int, lockedBase: int, compute: int, lockedCompute: int)

  const EMPTY_ACCOUNT := Account(0, 0, 0, 0)

  datatype Trade = Trade(
    buyOrderId: OrderId, sellOrderId: OrderId, buyer: Key, seller: Key,
    price: int, quantity: int, takerSide: Side, takerFee: int, executedAt: Time)
  {
    /** The resting side of the trade. */
    function MakerId(): OrderId { if takerSide.Buy? then sellOrderId else buyOrderId }
    function ComputeFee(): int { if takerSide.Buy? then takerFee else 0 }
    function BaseFee(): int { if takerSide.Sell? then takerFee else 0 }
  }

  datatype Book = Book(accounts: map<Key, Account>, orders: map<OrderId, Order>)

  datatype Error =
    | InvalidOrder
    | NotionalOverflow
    | InsufficientBalance(available: int, required: int)
    | ZeroWithdrawal
    | OrderNotFound
    | NotOrderOwner
    | OrderNotOpen

  const TAKER_FEE_BPS := 10

  /** `exchange_account`: a key never seen reads as an empty account. */
  function AccountOf(accounts: map<Key, Account>, k: Key): Account {
    if k in accounts then accounts[k] else EMPTY_ACCOUNT
  }

  // ----- price-time priority ------------------------------------------------

  predicate Crosses(takerSide: Side, takerPrice: int, restingPrice: int) {
    if takerSide.Buy? then restingPrice <= takerPrice else restingPrice >= takerPrice
  }

  /** The resting orders a taker may match: open, opposite, crossing, another owner's. */
  predicate Eligible(o: Order, takerSide: Side, takerPrice: int, takerOwner: Key) {
    && o.status.Open?
    && o.side != takerSide
    && o.owner != takerOwner
    && Crosses(takerSide, takerPrice, o.price)
  }

  predicate EligibleFor(o: Order, taker: Order) {
    Eligible(o, taker.side, taker.price, taker.owner)
  }

  /** `a` ranks strictly before `b` by price (best for the taker) then time. */
  predicate SortsBefore(takerSide: Side, a: Order, b: Order) {
    || (if takerSide.Buy? then a.price < b.price else a.price > b.price)
    || (a.price == b.price && a.createdAt < b.createdAt)
  }

  /** The full priority: price, then time, then id. */
  predicate Before(takerSide: Side, a: Order, b: Order) {
    || SortsBefore(takerSide, a, b)
    || (a.price == b.price && a.createdAt == b.createdAt && a.id.n < b.id.n)
  }

  ghost predicate IsBest(orders: map<OrderId, Order>, taker: Order, id: OrderId) {
    && id in orders
    && EligibleFor(orders[id], taker)
    && forall j <- orders :: j != id && EligibleFor(orders[j], taker) ==> Before(taker.side, orders[id], orders[j])
  }

  /** `best_resting_match`, as its answer is documented: the unique top-priority match. */
  ghost function Best(orders: map<OrderId, Order>, taker: Order): Option<OrderId> {
    if exists id :: IsBest(orders, taker, id)
    then var id :| IsBest(orders, taker, id); Some(id)
    else None
  }

  // ----- well-formed order books --------------------------------------------

  /** What every stored order satisfies; an open one still has something to fill. */
  predicate OrderOk(o: Order) {
    && o.price > 0
    && 0 <= o.filled <= o.quantity
    && 0 < o.quantity
    && o.price * o.quantity <= U64_MAX
    && (o.status.Open? ==> o.filled < o.quantity)
    && (o.status.Filled? ==> o.filled == o.quantity)
  }

  predicate OrdersOk(orders: map<OrderId, Order>) {
    forall id <- orders :: orders[id].id == id && OrderOk(orders[id])
  }

  // ----- one fill -----------------------------------------------------------

  function FillQuantity(taker: Order, resting: Order): int {
    Min(taker.Unfilled(), resting.Unfilled())
  }

  /** A resting order after `q` more of it filled. */
  function AfterFill(o: Order, q: int): Order {
    o.(filled := o.filled + q, status := if o.filled + q >= o.quantity then Filled else o.status)
  }

  function BuyPrice(taker: Order, resting: Order): int {
    if taker.side.Buy? then taker.price else resting.price
  }

  function FeeOn(amount: int): int { amount * TAKER_FEE_BPS / 10_000 }

  function TradeOf(taker: Order, resting: Order, q: int): Trade {
    if taker.side.Buy?
    then Trade(taker.id, resting.id, taker.owner, resting.owner, resting.price, q, Buy, FeeOn(q), taker.createdAt)
    else Trade(resting.id, taker.id, resting.owner, taker.owner, resting.price, q, Sell, FeeOn(resting.price * q),
               taker.createdAt)
  }

  /** The buyer's account after trade `t` released a lock taken at `buyPrice`. */
  function BuyerAfter(a: Account, t: Trade, buyPrice: int): Account {
    a.(lockedBase := a.lockedBase - buyPrice * t.quantity,
       base := a.base - t.price * t.quantity,
       compute := a.compute + (t.quantity - t.ComputeFee()))
  }

  function SellerAfter(a: Account, t: Trade): Account {
    a.(lockedCompute := a.lockedCompute - t.quantity,
       compute := a.compute - t.quantity,
       base := a.base + (t.price * t.quantity - t.BaseFee()))
  }

  function Settle(accounts: map<Key, Account>, t: Trade, buyPrice: int): map<Key, Account> {
    var paid := accounts[t.buyer := BuyerAfter(AccountOf(accounts, t.buyer), t, buyPrice)];
    paid[t.seller := SellerAfter(AccountOf(paid, t.seller), t)]
  }

  datatype Matched = Matched(book: Book, taker: Order, trades: seq<Trade>)

  /** One turn of the matching loop against resting order `id`. */
  function FillOne(b: Book, taker: Order, id: OrderId): Matched
    requires id in b.orders
  {
    var resting := b.orders[id];
    var q := FillQuantity(taker, resting);
    var t := TradeOf(taker, resting, q);
    Matched(
      Book(Settle(b.accounts, t, BuyPrice(taker, resting)), b.orders[id := AfterFill(resting, q)]),
      taker.(filled := taker.filled + q),
      [t])
  }

  /** The whole `while taker.filled < taker.quantity` loop. */
  ghost function MatchLoop(b: Book, taker: Order): Matched
    requires OrdersOk(b.orders)
    decreases taker.Unfilled()
  {
    if taker.filled >= taker.quantity then Matched(b, taker, []) else
    match Best(b.orders, taker)
    case None => Matched(b, taker, [])
    case Some(id) =>
      var one := FillOne(b, taker, id);
      var rest := MatchLoop(one.book, one.taker);
      Matched(rest.book, rest.taker, one.trades + rest.trades)
  }

  // ----- the operations -----------------------------------------------------

  datatype PlaceResult =
    | Placed(book: Book, order: Order, trades: seq<Trade>)
    | Refused(book: Book, error: Error)

  function Available(a: Account, side: Side): int {
    var free := if side.Buy? then a.base - a.lockedBase else a.compute - a.lockedCompute;
    if free < 0 then 0 else free
  }

  function Needed(side: Side, price: int, quantity: int): int {
    if side.Buy? then price * quantity else quantity
  }

  function Locked(a: Account, side: Side, amount: int): Account {
    if side.Buy? then a.(lockedBase := a.lockedBase + amount)
    else a.(lockedCompute := a.lockedCompute + amount)
  }

  function NewOrder(id: OrderId, owner: Key, side: Side, price: int, quantity: int, now: Time): Order {
    Order(id, owner, side, price, quantity, 0, Open, now)
  }

  /** The taker as it is stored once matching stopped. */
  function Closing(taker: Order): Order {
    if taker.filled >= taker.quantity then taker.(status := Filled) else taker
  }

  /** `place_order`, with the fresh order id passed in. */
  ghost function PlaceOrder(
    b: Book, owner: Key, side: Side, price: u64, quantity: u64, now: Time, id: OrderId): PlaceResult
    requires OrdersOk(b.orders)
  {
    if price == 0 || quantity == 0 then Refused(b, InvalidOrder)
    else if price * quantity > U64_MAX then Refused(b, NotionalOverflow)
    else
      var a := AccountOf(b.accounts, owner);
      var need := Needed(side, price, quantity);
      if Available(a, side) < need
      then Refused(b.(accounts := b.accounts[owner := a]), InsufficientBalance(Available(a, side), need))
      else
        var locked := b.(accounts := b.accounts[owner := Locked(a, side, need)]);
        var m := MatchLoop(locked, NewOrder(id, owner, side, price, quantity, now));
        var order := Closing(m.taker);
        Placed(m.book.(orders := m.book.orders[id := order]), order, m.trades)
  }

  function Released(a: Account, o: Order): Account {
    if o.side.Buy? then a.(lockedBase := a.lockedBase - o.price * o.Unfilled())
    else a.(lockedCompute := a.lockedCompute - o.Unfilled())
  }

  datatype CancelResult = CancelDone(book: Book, order: Order) | CancelRefused(error: Error)

  /** `cancel_order`. */
  function CancelOrder(b: Book, id: OrderId, caller: Key): CancelResult {
    if id !in b.orders then CancelRefused(OrderNotFound)
    else
      var o := b.orders[id];
      if o.owner != caller then CancelRefused(NotOrderOwner)
      else if !o.status.Open? then CancelRefused(OrderNotOpen)
      else
        var cancelled := o.(status := Cancelled);
        CancelDone(
          Book(b.accounts[o.owner := Released(AccountOf(b.accounts, o.owner), o)], b.orders[id := cancelled]),
          cancelled)
  }

  /** `credit_base`, `credit_back_withdrawal` and the credit of `confirm_exchange_deposit`. */
  function CreditBase(b: Book, k: Key, amount: int): Book {
    var a := AccountOf(b.accounts, k);
    b.(accounts := b.accounts[k := a.(base := a.base + amount)])
  }

  /** `credit_compute`. */
  function CreditCompute(b: Book, k: Key, amount: int): Book {
    var a := AccountOf(b.accounts, k);
    b.(accounts := b.accounts[k := a.(compute := a.compute + amount)])
  }

  datatype DebitResult = DebitDone(book: Book) | DebitRefused(book: Book, error: Error)

  /** `debit_for_withdrawal`. */
  function DebitForWithdrawal(b: Book, k: Key, amount: int): DebitResult {
    if amount == 0 then DebitRefused(b, ZeroWithdrawal) else
    var a := AccountOf(b.accounts, k);
    if Available(a, Buy) < amount
    then DebitRefused(b.(accounts := b.accounts[k := a]), InsufficientBalance(Available(a, Buy), amount))
    else DebitDone(b.(accounts := b.accounts[k := a.(base := a.base - amount)]))
  }
}
