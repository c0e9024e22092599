// Price-time-id priority: the matching loop is one walk down the ranked book,
// and it never leaves two different owners' open orders crossing.

module ExchangePriority {
  import opened Arithmetic
  import opened Basics
  import opened Exchange
  import opened ExchangeInvariant

  // ----- ranking ----------------------------------------------------------------

  ghost predicate StrictlyRanked(side: Side, s: seq<Order>) {
    forall i, j :: 0 <= i < j < |s| ==> Before(side, s[i], s[j])
  }

  /** `s` lists exactly the orders `taker` may match, best first. */
  ghost predicate IsRanking(orders: map<OrderId, Order>, taker: Order, s: seq<Order>) {
    && StrictlyRanked(taker.side, s)
    && (forall i :: 0 <= i < |s| ==> s[i].id in orders && orders[s[i].id] == s[i] && EligibleFor(s[i], taker))
    && (forall id <- orders :: EligibleFor(orders[id], taker) ==> orders[id] in s)
  }

  /** The head of a ranking is the order `best_resting_match` picks. */
  lemma RankingHead(orders: map<OrderId, Order>, taker: Order, s: seq<Order>)
    requires OrdersOk(orders) && IsRanking(orders, taker, s)
    ensures Best(orders, taker) == if s == [] then None else Some(s[0].id)
  {
    if s != [] {
      assert IsBest(orders, taker, s[0].id);
      var id := Best(orders, taker).value;
      assert IsBest(orders, taker, id);
      assert id == s[0].id;
    } else {
      assert forall id <- orders :: !EligibleFor(orders[id], taker);
    }
  }

  // ----- the walk -----------------------------------------------------------------

  datatype Step = Step(maker: OrderId, price: int, quantity: int)

  /** The reference form: take the ranked makers in turn until nothing is left to fill. */
  function Walk(s: seq<Order>, remaining: int): seq<Step> {
    if remaining <= 0 || s == [] then []
    else
      var q := Min(remaining, s[0].Unfilled());
      [Step(s[0].id, s[0].price, q)] + Walk(s[1..], remaining - q)
  }

  function StepOf(t: Trade): Step { Step(t.MakerId(), t.price, t.quantity) }

  function StepsOf(trades: seq<Trade>): seq<Step> {
    seq(|trades|, i requires 0 <= i < |trades| => StepOf(trades[i]))
  }

  /** Filling the head completely leaves the tail as the ranking of what remains. */
  lemma RankingTail(b: Book, taker: Order, s: seq<Order>)
    requires OrdersOk(b.orders) && IsRanking(b.orders, taker, s) && s != []
    requires taker.filled < taker.quantity && s[0].Unfilled() <= taker.Unfilled()
    ensures IsRanking(FillOne(b, taker, s[0].id).book.orders, FillOne(b, taker, s[0].id).taker, s[1..])
  {
  }

  lemma StepsOfCons(t: Trade, rest: seq<Trade>)
    ensures StepsOf([t] + rest) == [StepOf(t)] + StepsOf(rest)
  {
  }

  /** One turn of the loop is one step of the walk. */
  lemma MatchLoopStep(b: Book, taker: Order, s: seq<Order>)
    requires OrdersOk(b.orders) && taker.filled < taker.quantity
    requires s != [] && Best(b.orders, taker) == Some(s[0].id) && s[0].id in b.orders && b.orders[s[0].id] == s[0]
    requires EligibleFor(s[0], taker)
    ensures OrdersOk(FillOne(b, taker, s[0].id).book.orders)
    ensures
      var one := FillOne(b, taker, s[0].id);
      StepsOf(MatchLoop(b, taker).trades)
        == [Step(s[0].id, s[0].price, FillQuantity(taker, s[0]))] + StepsOf(MatchLoop(one.book, one.taker).trades)
  {
    BestIsBest(b.orders, taker);
    FillOneOrdersOk(b, taker, s[0].id);
    var one := FillOne(b, taker, s[0].id);
    StepsOfCons(one.trades[0], MatchLoop(one.book, one.taker).trades);
  }

  lemma WalkStep(s: seq<Order>, remaining: int)
    requires s != [] && 0 < remaining
    ensures Walk(s, remaining)
         == [Step(s[0].id, s[0].price, Min(remaining, s[0].Unfilled()))]
          + Walk(s[1..], remaining - Min(remaining, s[0].Unfilled()))
  {
  }

  /** The last turn: the maker outlasts the taker. */
  lemma LastTurn(b: Book, taker: Order, s: seq<Order>)
    requires OrdersOk(b.orders) && taker.filled < taker.quantity && s != []
    requires Best(b.orders, taker) == Some(s[0].id) && s[0].id in b.orders && b.orders[s[0].id] == s[0]
    requires EligibleFor(s[0], taker) && s[0].Unfilled() > taker.Unfilled()
    ensures StepsOf(MatchLoop(b, taker).trades) == Walk(s, taker.Unfilled())
  {
    MatchLoopStep(b, taker, s);
    WalkStep(s, taker.Unfilled());
  }

  lemma NoTurn(b: Book, taker: Order, s: seq<Order>)
    requires OrdersOk(b.orders) && Best(b.orders, taker) == (if s == [] then None else Some(s[0].id))
    requires taker.filled >= taker.quantity || s == []
    ensures StepsOf(MatchLoop(b, taker).trades) == Walk(s, taker.Unfilled())
  {
  }

  /** The matching loop, which searches the whole book on every turn, trades with
      exactly the makers of one walk down the ranked book. */
  lemma {:induction false} MatchLoopIsWalk(b: Book, taker: Order, s: seq<Order>)
    requires OrdersOk(b.orders) && IsRanking(b.orders, taker, s)
    ensures StepsOf(MatchLoop(b, taker).trades) == Walk(s, taker.Unfilled())
    decreases taker.Unfilled()
  {
    RankingHead(b.orders, taker, s);
    if taker.filled >= taker.quantity || s == [] {
      NoTurn(b, taker, s);
    } else if s[0].Unfilled() > taker.Unfilled() {
      LastTurn(b, taker, s);
    } else {
      MatchLoopStep(b, taker, s);
      RankingTail(b, taker, s);
      WalkStep(s, taker.Unfilled());
      var one := FillOne(b, taker, s[0].id);
      MatchLoopIsWalk(one.book, one.taker, s[1..]);
    }
  }

  ghost predicate NothingEligible(orders: map<OrderId, Order>, taker: Order) {
    forall id <- orders :: !EligibleFor(orders[id], taker)
  }

  lemma NoBest(orders: map<OrderId, Order>, taker: Order)
    requires OrdersOk(orders) && Best(orders, taker).None?
    ensures NothingEligible(orders, taker)
  {
    var s := RankingExists(orders, taker);
    RankingHead(orders, taker, s);
  }

  /** A taker left unfilled has nothing eligible left to match. */
  lemma {:induction false} MatchLoopExhausts(b: Book, taker: Order)
    requires OrdersOk(b.orders)
    ensures
      var m := MatchLoop(b, taker);
      && m.taker == taker.(filled := m.taker.filled)
      && (m.taker.filled < taker.quantity ==> NothingEligible(m.book.orders, taker))
    decreases taker.Unfilled()
  {
    if taker.filled < taker.quantity {
      match Best(b.orders, taker)
      case None => NoBest(b.orders, taker);
      case Some(id) =>
        FillOneOrdersOk(b, taker, id);
        var one := FillOne(b, taker, id);
        MatchLoopExhausts(one.book, one.taker);
    }
  }

  /** A walk hits a prefix of the ranking, and every maker but the last is filled whole. */
  lemma {:induction false} WalkIsPrefix(s: seq<Order>, remaining: int)
    ensures |Walk(s, remaining)| <= |s|
    ensures forall i :: 0 <= i < |Walk(s, remaining)| ==>
      Walk(s, remaining)[i].maker == s[i].id && Walk(s, remaining)[i].price == s[i].price
    ensures forall i :: 0 <= i < |Walk(s, remaining)| - 1 ==> Walk(s, remaining)[i].quantity == s[i].Unfilled()
    ensures forall i :: 0 <= i < |Walk(s, remaining)| ==> Walk(s, remaining)[i].quantity <= s[i].Unfilled()
    decreases |s|
  {
    if remaining > 0 && s != [] {
      WalkIsPrefix(s[1..], remaining - Min(remaining, s[0].Unfilled()));
    }
  }

  // ----- what the priority means -------------------------------------------------------------

  /** An order a taker could trade with, in plain terms. */
  ghost predicate Tradable(o: Order, taker: Order) {
    && o.status.Open? && o.owner != taker.owner
    && (if taker.side.Buy? then o.side.Sell? && o.price <= taker.price else o.side.Buy? && o.price >= taker.price)
  }

  /** The match a taker gets is tradable, and nothing tradable is cheaper to a buyer or dearer
      to a seller; at the same price nothing is older, and at the same instant no id smaller. A
      taker gets none exactly when nothing is tradable. */
  lemma BestIsTheBestDeal(orders: map<OrderId, Order>, taker: Order)
    requires OrdersOk(orders)
    ensures Best(orders, taker).None? <==> forall j <- orders :: !Tradable(orders[j], taker)
    ensures Best(orders, taker).Some? ==>
      var id := Best(orders, taker).value;
      && id in orders && Tradable(orders[id], taker)
      && forall j <- orders :: Tradable(orders[j], taker) ==>
           && (if taker.side.Buy? then orders[id].price <= orders[j].price else orders[id].price >= orders[j].price)
           && (orders[id].price == orders[j].price ==> orders[id].createdAt <= orders[j].createdAt)
           && (orders[id].price == orders[j].price && orders[id].createdAt == orders[j].createdAt ==> id.n <= j.n)
  {
    if Best(orders, taker).Some? {
      BestIsBest(orders, taker);
    } else {
      NoBest(orders, taker);
    }
  }

  /** A ranked list goes from the best price to the worst, then from old to new, then by id. */
  lemma RankedIsBestFirst(side: Side, s: seq<Order>, i: nat, j: nat)
    requires StrictlyRanked(side, s) && i < j < |s|
    ensures if side.Buy? then s[i].price <= s[j].price else s[i].price >= s[j].price
    ensures s[i].price == s[j].price ==> s[i].createdAt <= s[j].createdAt
    ensures s[i].price == s[j].price && s[i].createdAt == s[j].createdAt ==> s[i].id.n < s[j].id.n
  {
    assert Before(side, s[i], s[j]);
  }

  /** The trades of one matching never get better for the taker. */
  lemma MatchPricesNeverImprove(b: Book, taker: Order, i: nat, j: nat)
    requires OrdersOk(b.orders) && i < j < |MatchLoop(b, taker).trades|
    ensures
      var trades := MatchLoop(b, taker).trades;
      if taker.side.Buy? then trades[i].price <= trades[j].price else trades[i].price >= trades[j].price
  {
    var s := RankingExists(b.orders, taker);
    var trades := MatchLoop(b, taker).trades;
    MatchLoopIsWalk(b, taker, s);
    WalkIsPrefix(s, taker.Unfilled());
    assert StepsOf(trades)[i] == StepOf(trades[i]) && StepsOf(trades)[j] == StepOf(trades[j]);
    RankedIsBestFirst(taker.side, s, i, j);
  }

  /** Nor do the trades of a placement. */
  lemma PlacementPricesNeverImprove(
    b: Book, owner: Key, side: Side, price: u64, quantity: u64, now: Time, id: OrderId, i: nat, j: nat)
    requires OrdersOk(b.orders) && PlaceOrder(b, owner, side, price, quantity, now, id).Placed?
    requires i < j < |PlaceOrder(b, owner, side, price, quantity, now, id).trades|
    ensures
      var trades := PlaceOrder(b, owner, side, price, quantity, now, id).trades;
      if side.Buy? then trades[i].price <= trades[j].price else trades[i].price >= trades[j].price
  {
    var a := Locked(AccountOf(b.accounts, owner), side, Needed(side, price, quantity));
    MatchPricesNeverImprove(
      b.(accounts := b.accounts[owner := a]), NewOrder(id, owner, side, price, quantity, now), i, j);
  }

  // ----- rankings exist -------------------------------------------------------------

  lemma BeforeTotal(side: Side, a: Order, b: Order)
    requires a.id != b.id
    ensures Before(side, a, b) != Before(side, b, a)
  {
  }

  lemma BeforeTransitive(side: Side, a: Order, b: Order, c: Order)
    requires Before(side, a, b) && Before(side, b, c)
    ensures Before(side, a, c)
  {
  }

  /** `sort_by` on (price, time): insertion that keeps equal elements in arrival order. */
  function Insert(side: Side, o: Order, s: seq<Order>): seq<Order> {
    if s == [] || !SortsBefore(side, s[0], o) then [o] + s
    else [s[0]] + Insert(side, o, s[1..])
  }

  function StableSort(side: Side, s: seq<Order>): seq<Order> {
    if s == [] then [] else Insert(side, s[0], StableSort(side, s[1..]))
  }

  ghost predicate IdsAscend(s: seq<Order>) {
    forall i, j :: 0 <= i < j < |s| ==> s[i].id.n < s[j].id.n
  }

  lemma {:induction false} InsertContents(side: Side, o: Order, s: seq<Order>)
    ensures multiset(Insert(side, o, s)) == multiset(s) + multiset{o}
    decreases |s|
  {
    if s != [] && SortsBefore(side, s[0], o) {
      InsertContents(side, o, s[1..]);
      assert s == [s[0]] + s[1..];
    }
  }

  /** Putting a top-ranked order in front of a ranked list keeps it ranked. */
  lemma ConsRanks(side: Side, o: Order, s: seq<Order>)
    requires StrictlyRanked(side, s) && forall x <- s :: Before(side, o, x)
    ensures StrictlyRanked(side, [o] + s)
  {
  }

  lemma {:induction false} InsertRanks(side: Side, o: Order, s: seq<Order>)
    requires StrictlyRanked(side, s) && forall x <- s :: o.id.n < x.id.n
    ensures StrictlyRanked(side, Insert(side, o, s))
    decreases |s|
  {
    if s == [] {
    } else if !SortsBefore(side, s[0], o) {
      forall x <- s ensures Before(side, o, x) {
        var i :| 0 <= i < |s| && s[i] == x;
        if i > 0 { BeforeTransitive(side, o, s[0], x); }
      }
      ConsRanks(side, o, s);
    } else {
      var t := Insert(side, o, s[1..]);
      InsertRanks(side, o, s[1..]);
      InsertContents(side, o, s[1..]);
      forall x <- t ensures Before(side, s[0], x) {
        assert x in multiset(t);
        if x != o { assert x in s[1..]; }
      }
      ConsRanks(side, s[0], t);
    }
  }

  lemma {:induction false} StableSortContents(side: Side, s: seq<Order>)
    ensures multiset(StableSort(side, s)) == multiset(s)
    decreases |s|
  {
    if s != [] {
      StableSortContents(side, s[1..]);
      InsertContents(side, s[0], StableSort(side, s[1..]));
      assert s == [s[0]] + s[1..];
    }
  }

  lemma SortedHasSame(side: Side, s: seq<Order>, x: Order)
    requires x in StableSort(side, s)
    ensures x in s
  {
    StableSortContents(side, s);
    assert x in multiset(StableSort(side, s));
  }

  /** Sorting by (price, time) a list that arrives in id order ranks it by
      (price, time, id): the stability of the sort is the id tie-break. */
  lemma {:induction false} StableSortRanks(side: Side, s: seq<Order>)
    requires IdsAscend(s)
    ensures StrictlyRanked(side, StableSort(side, s))
    ensures multiset(StableSort(side, s)) == multiset(s)
    decreases |s|
  {
    StableSortContents(side, s);
    if s != [] {
      StableSortRanks(side, s[1..]);
      var t := StableSort(side, s[1..]);
      forall x <- t ensures s[0].id.n < x.id.n {
        SortedHasSame(side, s[1..], x);
      }
      InsertRanks(side, s[0], t);
    }
  }

  /** Some ranking of the eligible orders always exists. */
  lemma {:induction false} RankingExists(orders: map<OrderId, Order>, taker: Order) returns (s: seq<Order>)
    requires OrdersOk(orders)
    ensures IsRanking(orders, taker, s)
    decreases |orders|
  {
    var todo := set id <- orders | EligibleFor(orders[id], taker) :: id;
    s := RankSet(orders, taker.side, todo);
    forall id <- orders | EligibleFor(orders[id], taker) ensures orders[id] in s {
      assert id in todo;
    }
  }

  lemma {:induction false} RankSet(orders: map<OrderId, Order>, side: Side, ids: set<OrderId>) returns (s: seq<Order>)
    requires OrdersOk(orders) && ids <= orders.Keys
    ensures StrictlyRanked(side, s)
    ensures forall o <- s :: o.id in ids && orders[o.id] == o
    ensures forall id <- ids :: orders[id] in s
    decreases |ids|
  {
    if ids == {} {
      s := [];
    } else {
      var first := TopOf(orders, side, ids);
      var rest := RankSet(orders, side, ids - {first});
      s := [orders[first]] + rest;
      forall i, j | 0 <= i < j < |s| ensures Before(side, s[i], s[j]) {
        if i == 0 { assert rest[j - 1] in rest; } else { assert Before(side, rest[i - 1], rest[j - 1]); }
      }
    }
  }

  lemma {:induction false} TopOf(orders: map<OrderId, Order>, side: Side, ids: set<OrderId>) returns (top: OrderId)
    requires OrdersOk(orders) && ids <= orders.Keys && ids != {}
    ensures top in ids && forall j <- ids :: j != top ==> Before(side, orders[top], orders[j])
    decreases |ids|
  {
    var x := Member(ids);
    if ids == {x} {
      top := x;
    } else {
      var y := TopOf(orders, side, ids - {x});
      BeforeTotal(side, orders[x], orders[y]);
      top := if Before(side, orders[x], orders[y]) then x else y;
      forall j <- ids | j != top ensures Before(side, orders[top], orders[j]) {
        if j != x && j != y && top == x { BeforeTransitive(side, orders[x], orders[y], orders[j]); }
      }
    }
  }

  // ----- no crossing ------------------------------------------------------------------

  /** No open buy offers what an open sell of another owner asks. */
  ghost predicate CrossFree(orders: map<OrderId, Order>) {
    forall i <- orders, j <- orders ::
      && orders[i].status.Open? && orders[i].side.Buy? && orders[j].status.Open? && orders[j].side.Sell?
      && orders[i].owner != orders[j].owner
      ==> orders[i].price < orders[j].price
  }

  /** Everything the loop leaves open was open before, at the same price and owner. */
  ghost predicate OnlyFills(orders: map<OrderId, Order>, orders': map<OrderId, Order>) {
    && orders'.Keys == orders.Keys
    && forall id <- orders ::
      && orders'[id] == orders[id].(filled := orders'[id].filled, status := orders'[id].status)
      && (orders'[id].status.Open? ==> orders[id].status.Open?)
  }

  lemma {:induction false} MatchLoopOnlyFills(b: Book, taker: Order)
    requires OrdersOk(b.orders)
    ensures OnlyFills(b.orders, MatchLoop(b, taker).book.orders)
    decreases taker.Unfilled()
  {
    if taker.filled < taker.quantity && Best(b.orders, taker).Some? {
      var id := Best(b.orders, taker).value;
      FillOneOrdersOk(b, taker, id);
      var one := FillOne(b, taker, id);
      MatchLoopOnlyFills(one.book, one.taker);
    }
  }

  /** Adding a closed order, or one that nothing in the book crosses, keeps it cross-free. */
  lemma AddUncrossed(orders: map<OrderId, Order>, orders': map<OrderId, Order>, taker: Order)
    requires CrossFree(orders) && OnlyFills(orders, orders') && taker.id !in orders
    requires taker.status.Open? ==> NothingEligible(orders', taker)
    ensures CrossFree(orders'[taker.id := taker])
  {
  }

  /** `place_order` keeps the book free of crossing orders of different owners. */
  lemma PlaceOrderCrossFree(
    b: Book, owner: Key, side: Side, price: u64, quantity: u64, now: Time, id: OrderId)
    requires OrdersOk(b.orders) && CrossFree(b.orders) && id !in b.orders
    ensures CrossFree(PlaceOrder(b, owner, side, price, quantity, now, id).book.orders)
  {
    var r := PlaceOrder(b, owner, side, price, quantity, now, id);
    if r.Placed? {
      var taker := NewOrder(id, owner, side, price, quantity, now);
      var a := AccountOf(b.accounts, owner);
      var locked := b.(accounts := b.accounts[owner := Locked(a, side, Needed(side, price, quantity))]);
      MatchLoopOnlyFills(locked, taker);
      MatchLoopExhausts(locked, taker);
      AddUncrossed(b.orders, MatchLoop(locked, taker).book.orders, r.order);
    }
  }

  lemma CancelOrderCrossFree(b: Book, id: OrderId, caller: Key)
    requires CrossFree(b.orders) && CancelOrder(b, id, caller).CancelDone?
    ensures CrossFree(CancelOrder(b, id, caller).book.orders)
  {
  }
}
