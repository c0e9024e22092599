// Whole runs of the exchange: every deposit, withdrawal, placement and cancel.

module ExchangeRuns {
  import opened Basics
  import opened Exchange
  import opened ExchangeInvariant
  import opened ExchangePriority
  import opened ExchangeStage

  datatype Event =
    | Deposit(key: Key, amount: u64)
    | GrantCompute(key: Key, amount: u64)
    | Withdraw(key: Key, amount: u64)
    | ReturnWithdrawal(key: Key, amount: u64)
    | Place(owner: Key, side: Side, price: u64, quantity: u64, now: Time, id: OrderId)
    | Cancel(id: OrderId, caller: Key)

  /** A new order's id is one no order has had. */
  predicate Enabled(b: Book, e: Event) {
    e.Place? ==> e.id !in b.orders
  }

  ghost function Next(b: Book, e: Event, sink: Key): Book
    requires OrdersOk(b.orders)
  {
    match e
    case Deposit(k, amount) => CreditBase(b, k, amount)
    case GrantCompute(k, amount) => CreditCompute(b, k, amount)
    case Withdraw(k, amount) => DebitForWithdrawal(b, k, amount).book
    case ReturnWithdrawal(k, amount) => CreditBase(b, k, amount)
    case Place(owner, side, price, quantity, now, id) =>
      HandlePlaceOrder(b, owner, side, price, quantity, now, id, sink).book
    case Cancel(id, caller) =>
      var r := CancelOrder(b, id, caller);
      if r.CancelDone? then r.book else b
  }

  /** The base value an event brings in from, or pays out to, the outside. */
  function BaseInflow(b: Book, e: Event): int {
    match e
    case Deposit(_, amount) => amount
    case ReturnWithdrawal(_, amount) => amount
    case Withdraw(k, amount) => if DebitForWithdrawal(b, k, amount).DebitDone? then 0 - (amount as int) else 0
    case _ => 0
  }

  function ComputeInflow(e: Event): int {
    if e.GrantCompute? then e.amount else 0
  }

  ghost predicate Safe(b: Book) {
    Inv(b) && CrossFree(b.orders)
  }

  lemma CreditFeesKeeps(b: Book, sink: Key, trades: seq<Trade>)
    requires Inv(b) && BaseFees(trades) >= 0 && ComputeFees(trades) >= 0
    ensures
      var b' := CreditFees(b, sink, trades);
      && Inv(b') && b'.orders == b.orders
      && TotalBase(b') == TotalBase(b) + BaseFees(trades)
      && TotalCompute(b') == TotalCompute(b) + ComputeFees(trades)
  {
    CreditComputeKeepsInv(b, sink, ComputeFees(trades));
    var b1 := if ComputeFees(trades) > 0 then CreditCompute(b, sink, ComputeFees(trades)) else b;
    CreditBaseKeepsInv(b1, sink, BaseFees(trades));
  }

  /** One event keeps the ledger safe and conserves both assets: whatever a fill's
      fee takes from the taker, the fee sink holds. */
  lemma NextKeeps(b: Book, e: Event, sink: Key)
    requires Safe(b) && Enabled(b, e)
    ensures Safe(Next(b, e, sink))
    ensures TotalBase(Next(b, e, sink)) == TotalBase(b) + BaseInflow(b, e)
    ensures TotalCompute(Next(b, e, sink)) == TotalCompute(b) + ComputeInflow(e)
  {
    match e
    case Deposit(k, amount) => CreditBaseKeepsInv(b, k, amount);
    case GrantCompute(k, amount) => CreditComputeKeepsInv(b, k, amount);
    case Withdraw(k, amount) => DebitKeepsInv(b, k, amount);
    case ReturnWithdrawal(k, amount) => CreditBaseKeepsInv(b, k, amount);
    case Place(owner, side, price, quantity, now, id) =>
      StagedPlacementIsFaithful(b, owner, side, price, quantity, now, id, sink);
      InvCovers(b);
      PlaceOrderKeepsInv(b, owner, side, price, quantity, now, id);
      PlaceOrderCrossFree(b, owner, side, price, quantity, now, id);
      var r := PlaceOrder(b, owner, side, price, quantity, now, id);
      if r.Placed? { CreditFeesKeeps(r.book, sink, r.trades); }
    case Cancel(id, caller) =>
      CancelOrderKeepsInv(b, id, caller);
      if CancelOrder(b, id, caller).CancelDone? { CancelOrderCrossFree(b, id, caller); }
  }

  // ----- runs -----------------------------------------------------------------------

  ghost predicate ValidRun(b: Book, es: seq<Event>, sink: Key)
    decreases |es|
  {
    es == [] || (OrdersOk(b.orders) && Enabled(b, es[0]) && ValidRun(Next(b, es[0], sink), es[1..], sink))
  }

  ghost function Run(b: Book, es: seq<Event>, sink: Key): Book
    requires ValidRun(b, es, sink)
    decreases |es|
  {
    if es == [] then b else Run(Next(b, es[0], sink), es[1..], sink)
  }

  ghost function RunBaseInflow(b: Book, es: seq<Event>, sink: Key): int
    requires ValidRun(b, es, sink)
    decreases |es|
  {
    if es == [] then 0 else BaseInflow(b, es[0]) + RunBaseInflow(Next(b, es[0], sink), es[1..], sink)
  }

  function RunComputeInflow(es: seq<Event>): int {
    if es == [] then 0 else ComputeInflow(es[0]) + RunComputeInflow(es[1..])
  }

  const EMPTY_BOOK := Book(map[], map[])

  lemma EmptyIsSafe()
    ensures Safe(EMPTY_BOOK) && TotalBase(EMPTY_BOOK) == 0 && TotalCompute(EMPTY_BOOK) == 0
  {
  }

  lemma {:induction false} RunKeeps(b: Book, es: seq<Event>, sink: Key)
    requires Safe(b) && ValidRun(b, es, sink)
    ensures Safe(Run(b, es, sink))
    ensures TotalBase(Run(b, es, sink)) == TotalBase(b) + RunBaseInflow(b, es, sink)
    ensures TotalCompute(Run(b, es, sink)) == TotalCompute(b) + RunComputeInflow(es)
    decreases |es|
  {
    if es != [] {
      NextKeeps(b, es[0], sink);
      RunKeeps(Next(b, es[0], sink), es[1..], sink);
    }
  }

  /** Over every run from an empty ledger: locks are exactly backed, nothing of
      two owners crosses, and each asset is exactly what came in less what went out. */
  lemma LedgerSafety(es: seq<Event>, sink: Key)
    requires ValidRun(EMPTY_BOOK, es, sink)
    ensures
      var b := Run(EMPTY_BOOK, es, sink);
      && (forall k :: AccountBacked(b.accounts, b.orders, k))
      && CrossFree(b.orders)
      && TotalBase(b) == RunBaseInflow(EMPTY_BOOK, es, sink)
      && TotalCompute(b) == RunComputeInflow(es)
  {
    EmptyIsSafe();
    RunKeeps(EMPTY_BOOK, es, sink);
  }
}
