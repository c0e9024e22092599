// Each key's own balance over a whole run: what it deposited, withdrew and traded, and for
// the fee sink what the takers paid.

module ExchangeStatements {
  import opened Basics
  import opened Exchange
  import opened ExchangeInvariant
  import opened ExchangeSettlement
  import opened ExchangeStage
  import opened ExchangeRuns

  /** The trades a placement makes. */
  ghost function TradesOf(b: Book, e: Event): seq<Trade>
    requires OrdersOk(b.orders) && e.Place?
  {
    var r := PlaceOrder(b, e.owner, e.side, e.price, e.quantity, e.now, e.id);
    if r.Placed? then r.trades else []
  }

  /** One line of the base statement of `k`. */
  ghost function BaseMove(b: Book, e: Event, sink: Key, k: Key): int
    requires OrdersOk(b.orders)
  {
    var a := AccountOf(b.accounts, k);
    match e
    case Deposit(key, amount) => if key == k then amount else 0
    case ReturnWithdrawal(key, amount) => if key == k then amount else 0
    case Withdraw(key, amount) => if key == k && amount <= a.base - a.lockedBase then -(amount as int) else 0
    case Place(_, _, _, _, _, _) => BaseFlow(TradesOf(b, e), k) + if k == sink then BaseFees(TradesOf(b, e)) else 0
    case _ => 0
  }

  /** And of its compute statement. */
  ghost function ComputeMove(b: Book, e: Event, sink: Key, k: Key): int
    requires OrdersOk(b.orders)
  {
    match e
    case GrantCompute(key, amount) => if key == k then amount else 0
    case Place(_, _, _, _, _, _) =>
      ComputeFlow(TradesOf(b, e), k) + if k == sink then ComputeFees(TradesOf(b, e)) else 0
    case _ => 0
  }

  lemma FeesMove(b: Book, sink: Key, trades: seq<Trade>, k: Key)
    requires BaseFees(trades) >= 0 && ComputeFees(trades) >= 0
    ensures
      var a, a' := AccountOf(b.accounts, k), AccountOf(CreditFees(b, sink, trades).accounts, k);
      && a'.base == a.base + (if k == sink then BaseFees(trades) else 0)
      && a'.compute == a.compute + (if k == sink then ComputeFees(trades) else 0)
  {
  }

  lemma PlacementMoves(b: Book, e: Event, sink: Key, k: Key)
    requires Inv(b) && e.Place? && Enabled(b, e)
    ensures
      var a, a' := AccountOf(b.accounts, k), AccountOf(Next(b, e, sink).accounts, k);
      a'.base == a.base + BaseMove(b, e, sink, k) && a'.compute == a.compute + ComputeMove(b, e, sink, k)
  {
    InvCovers(b);
    StagedPlacementIsFaithful(b, e.owner, e.side, e.price, e.quantity, e.now, e.id, sink);
    PlaceOrderKeepsInv(b, e.owner, e.side, e.price, e.quantity, e.now, e.id);
    PlacementSettles(b, e.owner, e.side, e.price, e.quantity, e.now, e.id, k);
    var r := PlaceOrder(b, e.owner, e.side, e.price, e.quantity, e.now, e.id);
    if r.Placed? {
      FeesMove(r.book, sink, r.trades, k);
    }
  }

  /** Every event moves every balance by its line of the statement. */
  lemma NextMoves(b: Book, e: Event, sink: Key, k: Key)
    requires Inv(b) && Enabled(b, e)
    ensures
      var a, a' := AccountOf(b.accounts, k), AccountOf(Next(b, e, sink).accounts, k);
      a'.base == a.base + BaseMove(b, e, sink, k) && a'.compute == a.compute + ComputeMove(b, e, sink, k)
  {
    match e
    case Place(_, _, _, _, _, _) => PlacementMoves(b, e, sink, k);
    case Withdraw(key, amount) => DebitedIff(b, key, amount, k);
    case _ =>
  }

  ghost function BaseStatement(b: Book, es: seq<Event>, sink: Key, k: Key): int
    requires ValidRun(b, es, sink)
    decreases |es|
  {
    if es == [] then 0 else BaseMove(b, es[0], sink, k) + BaseStatement(Next(b, es[0], sink), es[1..], sink, k)
  }

  ghost function ComputeStatement(b: Book, es: seq<Event>, sink: Key, k: Key): int
    requires ValidRun(b, es, sink)
    decreases |es|
  {
    if es == [] then 0 else ComputeMove(b, es[0], sink, k) + ComputeStatement(Next(b, es[0], sink), es[1..], sink, k)
  }

  lemma {:induction false} RunMoves(b: Book, es: seq<Event>, sink: Key, k: Key)
    requires Safe(b) && ValidRun(b, es, sink)
    ensures
      var a, a' := AccountOf(b.accounts, k), AccountOf(Run(b, es, sink).accounts, k);
      && a'.base == a.base + BaseStatement(b, es, sink, k)
      && a'.compute == a.compute + ComputeStatement(b, es, sink, k)
    decreases |es|
  {
    if es != [] {
      NextKeeps(b, es[0], sink);
      NextMoves(b, es[0], sink, k);
      RunMoves(Next(b, es[0], sink), es[1..], sink, k);
    }
  }

  /** After any run from an empty ledger every key holds, of each asset, exactly its own
      deposits and grants, less its own withdrawals, plus its own trades and fees. */
  lemma StatementsAddUp(es: seq<Event>, sink: Key, k: Key)
    requires ValidRun(EMPTY_BOOK, es, sink)
    ensures
      var a := AccountOf(Run(EMPTY_BOOK, es, sink).accounts, k);
      && a.base == BaseStatement(EMPTY_BOOK, es, sink, k)
      && a.compute == ComputeStatement(EMPTY_BOOK, es, sink, k)
  {
    EmptyIsSafe();
    RunMoves(EMPTY_BOOK, es, sink, k);
  }
}
