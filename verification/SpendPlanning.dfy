// The SDK's coin selection and the arithmetic of a send.

module SpendPlanning {
  import opened Arithmetic
  import opened Basics

  datatype Coin = Coin(hash: int, value: nat, pending: bool)

  const HUB_TRANSACTION_FEE: int := 1_000

  /** A measure added up over a list, in whatever order. */
  function SumBy(coins: seq<Coin>, f: Coin -> int): int {
    if coins == [] then 0 else f(coins[0]) + SumBy(coins[1..], f)
  }

  const VALUE: Coin -> int := (c: Coin) => c.value
  const SPENDABLE: Coin -> int := (c: Coin) => if c.pending then 0 else c.value

  function Total(coins: seq<Coin>): int { SumBy(coins, VALUE) }

  /** What could be spent right now. */
  function Available(coins: seq<Coin>): int { SumBy(coins, SPENDABLE) }

  /** How often a coin is listed. */
  function Occurrences(coins: seq<Coin>, x: Coin): int { SumBy(coins, (c: Coin) => if c == x then 1 else 0) }

  /** How far a spendable coin exceeds `v`. */
  function Excess(v: int): Coin -> int { (c: Coin) => if c.pending || c.value <= v then 0 else c.value - v }

  ghost predicate Descending(coins: seq<Coin>) {
    forall i, j :: 0 <= i < j < |coins| ==> coins[i].value >= coins[j].value
  }

  lemma {:induction false} SumAppend(a: seq<Coin>, b: seq<Coin>, f: Coin -> int)
    ensures SumBy(a + b, f) == SumBy(a, f) + SumBy(b, f)
    decreases |a|
  {
    if a == [] {
      assert a + b == b;
    } else {
      SumAppend(a[1..], b, f);
      assert (a + b)[1..] == a[1..] + b;
    }
  }

  // ----- sorted(..., reverse=True) -------------------------------------------------------------

  /** Puts a coin before the first smaller or equal one, so that equal ones keep their order. */
  function Insert(c: Coin, sorted: seq<Coin>): seq<Coin> {
    if sorted == [] then [c]
    else if c.value >= sorted[0].value then [c] + sorted
    else [sorted[0]] + Insert(c, sorted[1..])
  }

  function LargestFirst(coins: seq<Coin>): seq<Coin> {
    if coins == [] then [] else Insert(coins[0], LargestFirst(coins[1..]))
  }

  lemma {:induction false} InsertSorts(c: Coin, sorted: seq<Coin>)
    requires Descending(sorted)
    ensures Descending(Insert(c, sorted))
    ensures forall x :: x in Insert(c, sorted) <==> x == c || x in sorted
    decreases |sorted|
  {
    if sorted != [] && c.value < sorted[0].value {
      InsertSorts(c, sorted[1..]);
      assert sorted == [sorted[0]] + sorted[1..];
      var rest := Insert(c, sorted[1..]);
      forall i | 0 <= i < |rest| ensures sorted[0].value >= rest[i].value {
        assert rest[i] in rest;
      }
    }
  }

  lemma {:induction false} LargestFirstSorts(coins: seq<Coin>)
    ensures Descending(LargestFirst(coins))
    decreases |coins|
  {
    if coins != [] {
      LargestFirstSorts(coins[1..]);
      InsertSorts(coins[0], LargestFirst(coins[1..]));
    }
  }

  lemma {:induction false} InsertSum(c: Coin, sorted: seq<Coin>, f: Coin -> int)
    ensures SumBy(Insert(c, sorted), f) == f(c) + SumBy(sorted, f)
    decreases |sorted|
  {
    if sorted != [] && c.value < sorted[0].value {
      InsertSum(c, sorted[1..], f);
      assert Insert(c, sorted)[1..] == Insert(c, sorted[1..]);
    } else if sorted != [] {
      assert ([c] + sorted)[1..] == sorted;
    }
  }

  /** Sorting changes no sum; with the measure that counts one coin, it is a permutation. */
  lemma {:induction false} SortSum(coins: seq<Coin>, f: Coin -> int)
    ensures SumBy(LargestFirst(coins), f) == SumBy(coins, f)
    decreases |coins|
  {
    if coins != [] {
      SortSum(coins[1..], f);
      InsertSum(coins[0], LargestFirst(coins[1..]), f);
    }
  }

  // ----- any other choice ----------------------------------------------------------------------

  /** Which outputs of a list a choice takes, position by position. */
  function Count(mask: seq<bool>): int {
    if mask == [] then 0 else (if mask[0] then 1 else 0) + Count(mask[1..])
  }

  function Worth(coins: seq<Coin>, mask: seq<bool>): int
    requires |mask| == |coins|
  {
    if coins == [] then 0 else (if mask[0] then coins[0].value else 0) + Worth(coins[1..], mask[1..])
  }

  /** A choice that touches nothing pending and covers the need. */
  ghost predicate Covers(coins: seq<Coin>, mask: seq<bool>, needed: int) {
    && |mask| == |coins| && (forall i :: 0 <= i < |mask| && mask[i] ==> !coins[i].pending)
    && Worth(coins, mask) >= needed
  }

  /** A choice of m outputs is worth at most m times v plus every excess over v. */
  lemma {:induction false} WorthBound(coins: seq<Coin>, mask: seq<bool>, v: nat)
    requires |mask| == |coins| && forall i :: 0 <= i < |mask| && mask[i] ==> !coins[i].pending
    ensures Count(mask) >= 0 && Worth(coins, mask) <= Count(mask) * v + SumBy(coins, Excess(v))
    decreases |coins|
  {
    if coins != [] {
      WorthBound(coins[1..], mask[1..], v);
      MulOneMore(v, Count(mask[1..]));
    }
  }

  /** The largest outputs, down to one worth v, are worth exactly that bound. */
  lemma {:induction false} PrefixWorth(chosen: seq<Coin>, v: nat)
    requires forall c <- chosen :: !c.pending && c.value >= v
    ensures Total(chosen) == |chosen| * v + SumBy(chosen, Excess(v))
    decreases |chosen|
  {
    if chosen != [] {
      PrefixWorth(chosen[1..], v);
      MulOneMore(v, |chosen| - 1);
    }
  }

  // ----- plan_spend ------------------------------------------------------------------------------

  /** What the loop has taken after reading some of the sorted outputs. */
  ghost predicate Taken(read: seq<Coin>, chosen: seq<Coin>) {
    && (forall c <- chosen :: !c.pending && c in read)
    && Descending(chosen) && (forall f: Coin -> int :: Sparing(f) ==> SumBy(chosen, f) == SumBy(read, f))
  }

  /** A measure that ignores pending outputs. */
  ghost predicate Sparing(f: Coin -> int) { forall c: Coin :: c.pending ==> f(c) == 0 }

  lemma TakeOne(read: seq<Coin>, chosen: seq<Coin>, next: Coin)
    requires Taken(read, chosen) && forall c <- read :: c.value >= next.value
    ensures Taken(read + [next], if next.pending then chosen else chosen + [next])
  {
    var chosen' := if next.pending then chosen else chosen + [next];
    forall f: Coin -> int | Sparing(f) ensures SumBy(chosen', f) == SumBy(read + [next], f) {
      SumAppend(read, [next], f);
      SumAppend(chosen, [next], f);
    }
  }

  /** Everything read is at least as large as everything not yet read. */
  lemma UnreadIsSmaller(sorted: seq<Coin>, i: nat)
    requires Descending(sorted) && i < |sorted|
    ensures forall c <- sorted[..i] :: c.value >= sorted[i].value
  {
  }

  lemma {:induction false} NoExcess(coins: seq<Coin>, v: int)
    requires forall c <- coins :: c.value <= v
    ensures SumBy(coins, Excess(v)) == 0
    decreases |coins|
  {
    if coins != [] {
      NoExcess(coins[1..], v);
    }
  }

  /** What is chosen holds every excess over its smallest output. */
  lemma ChosenHoldsExcess(sorted: seq<Coin>, i: nat, chosen: seq<Coin>)
    requires Descending(sorted) && i <= |sorted| && Taken(sorted[..i], chosen) && chosen != []
    ensures
      var v := chosen[|chosen| - 1].value;
      SumBy(chosen, Excess(v)) == SumBy(sorted, Excess(v))
  {
    var last := chosen[|chosen| - 1];
    var v := last.value;
    assert last in sorted[..i];
    var j :| 0 <= j < i && sorted[j] == last;
    NoExcess(sorted[i..], v);
    assert sorted == sorted[..i] + sorted[i..];
    SumAppend(sorted[..i], sorted[i..], Excess(v));
    assert Sparing(Excess(v));
  }

  /** No choice with fewer outputs covers the need. */
  lemma FewestOutputs(coins: seq<Coin>, needed: int, i: nat, chosen: seq<Coin>, mask: seq<bool>)
    requires i <= |LargestFirst(coins)| && Taken(LargestFirst(coins)[..i], chosen) && Covers(coins, mask, needed)
    requires chosen != [] ==> Total(chosen[..|chosen| - 1]) < needed
    ensures |chosen| <= Count(mask)
  {
    var sorted := LargestFirst(coins);
    LargestFirstSorts(coins);
    WorthBound(coins, mask, 0);
    if chosen != [] {
      var n := |chosen| - 1;
      var v := chosen[n].value;
      assert chosen == chosen[..n] + [chosen[n]];
      SumAppend(chosen[..n], [chosen[n]], VALUE);
      PrefixWorth(chosen, v);
      MulOneMore(v, n);
      ChosenHoldsExcess(sorted, i, chosen);
      SortSum(coins, Excess(v));
      WorthBound(coins, mask, v);
      if Count(mask) <= n {
        MulMonotone(v, Count(mask), n);
      }
    }
  }

  /** A part of the list: no coin is used more often than it is listed. */
  ghost predicate PartOf(chosen: seq<Coin>, coins: seq<Coin>) {
    forall x: Coin :: Occurrences(chosen, x) <= Occurrences(coins, x)
  }

  lemma {:induction false} OccurrencesOfPending(chosen: seq<Coin>, x: Coin)
    requires x.pending && forall c <- chosen :: !c.pending
    ensures Occurrences(chosen, x) == 0
    decreases |chosen|
  {
    if chosen != [] {
      OccurrencesOfPending(chosen[1..], x);
    }
  }

  lemma {:induction false} SumByNonNegative(coins: seq<Coin>, f: Coin -> int)
    requires forall c <- coins :: f(c) >= 0
    ensures SumBy(coins, f) >= 0
    decreases |coins|
  {
    if coins != [] {
      SumByNonNegative(coins[1..], f);
    }
  }

  lemma TakenIsPart(coins: seq<Coin>, i: nat, chosen: seq<Coin>)
    requires i <= |LargestFirst(coins)| && Taken(LargestFirst(coins)[..i], chosen)
    ensures PartOf(chosen, coins)
  {
    var sorted := LargestFirst(coins);
    forall x: Coin ensures Occurrences(chosen, x) <= Occurrences(coins, x) {
      var f := (c: Coin) => if c == x then 1 else 0;
      SortSum(coins, f);
      SumByNonNegative(coins, f);
      SumByNonNegative(sorted[i..], f);
      assert sorted == sorted[..i] + sorted[i..];
      SumAppend(sorted[..i], sorted[i..], f);
      if x.pending {
        OccurrencesOfPending(chosen, x);
      } else {
        assert Sparing(f);
      }
    }
  }

  lemma TakenTotal(coins: seq<Coin>, i: nat, chosen: seq<Coin>)
    requires i <= |LargestFirst(coins)| && Taken(LargestFirst(coins)[..i], chosen)
    ensures Total(chosen) <= Available(coins)
    ensures i == |LargestFirst(coins)| ==> Total(chosen) == Available(coins)
  {
    var sorted := LargestFirst(coins);
    assert Sparing(SPENDABLE);
    SumSame(chosen);
    SortSum(coins, SPENDABLE);
    assert sorted == sorted[..i] + sorted[i..];
    SumAppend(sorted[..i], sorted[i..], SPENDABLE);
    SumByNonNegative(sorted[i..], SPENDABLE);
  }

  lemma {:induction false} SumSame(chosen: seq<Coin>)
    requires forall c <- chosen :: !c.pending
    ensures SumBy(chosen, SPENDABLE) == Total(chosen)
    decreases |chosen|
  {
    if chosen != [] {
      SumSame(chosen[1..]);
    }
  }

  /** The loop after `i` outputs: no earlier cut would have covered the need. */
  ghost predicate Reading(sorted: seq<Coin>, i: nat, chosen: seq<Coin>, total: int, needed: int) {
    && i <= |sorted| && Taken(sorted[..i], chosen) && total == Total(chosen)
    && (chosen != [] ==> Total(chosen[..|chosen| - 1]) < needed)
  }

  lemma ReadOne(sorted: seq<Coin>, i: nat, chosen: seq<Coin>, total: int, needed: int)
    requires Descending(sorted) && i < |sorted| && Reading(sorted, i, chosen, total, needed) && total < needed
    ensures
      var next := sorted[i];
      if next.pending then Reading(sorted, i + 1, chosen, total, needed)
      else Reading(sorted, i + 1, chosen + [next], total + next.value, needed)
  {
    var next := sorted[i];
    UnreadIsSmaller(sorted, i);
    TakeOne(sorted[..i], chosen, next);
    assert sorted[..i + 1] == sorted[..i] + [next];
    SumAppend(chosen, [next], VALUE);
    assert (chosen + [next])[..|chosen|] == chosen;
  }

  method TakeLargest(sorted: seq<Coin>, needed: int) returns (chosen: seq<Coin>, total: int, ghost i: nat)
    requires Descending(sorted)
    ensures Reading(sorted, i, chosen, total, needed) && (total >= needed || i == |sorted|)
  {
    chosen, total := [], 0;
    var n := 0;
    while n < |sorted|
      invariant n <= |sorted| && Reading(sorted, n, chosen, total, needed)
    {
      if total >= needed {
        break;
      }
      var output := sorted[n];
      ReadOne(sorted, n, chosen, total, needed);
      if !output.pending {
        chosen := chosen + [output];
        total := total + output.value;
      }
      n := n + 1;
    }
    i := n;
  }

  /** `plan_spend`: outputs of the wallet, none pending, that cover the need with no more
      outputs than any choice that covers it; or a refusal exactly when everything
      unpending together falls short. */
  method PlanSpend(coins: seq<Coin>, needed: int) returns (r: Result<seq<Coin>, int>)
    ensures r.Ok? <==> Available(coins) >= needed
    ensures r.Ok? ==> PartOf(r.value, coins) && (forall c <- r.value :: !c.pending) && Total(r.value) >= needed
    ensures r.Ok? ==> forall mask :: Covers(coins, mask, needed) ==> |r.value| <= Count(mask)
    ensures r.Ok? ==> Descending(r.value) && (r.value != [] ==> Total(r.value[..|r.value| - 1]) < needed)
    ensures r.Err? ==> r.error == Available(coins)
  {
    var sorted := LargestFirst(coins);
    LargestFirstSorts(coins);
    ghost var i;
    var chosen, total;
    chosen, total, i := TakeLargest(sorted, needed);
    TakenTotal(coins, i, chosen);
    if total < needed {
      return Err(total);
    }
    TakenIsPart(coins, i, chosen);
    forall mask | Covers(coins, mask, needed) ensures |chosen| <= Count(mask) {
      FewestOutputs(coins, needed, i, chosen, mask);
    }
    return Ok(chosen);
  }

  // ----- send ---------------------------------------------------------------------------------------

  datatype SendError = BadAmount | FeeTooLow | InsufficientFunds(available: int, needed: int)

  datatype Plan = Plan(inputs: seq<Coin>, change: int, payments: seq<int>)

  function SumPayments(p: seq<int>): int { if p == [] then 0 else p[0] + SumPayments(p[1..]) }

  /** `send`, up to signing: what goes in is what is paid, what comes back, and the fee; and
      the change is less than any one input, so no input was needless. */
  method PlanSend(wallet: seq<Coin>, amount: int, fee: int) returns (r: Result<Plan, SendError>)
    ensures amount <= 0 ==> r == Err(BadAmount)
    ensures amount > 0 && fee < HUB_TRANSACTION_FEE ==> r == Err(FeeTooLow)
    ensures amount > 0 && fee >= HUB_TRANSACTION_FEE ==> (r.Ok? <==> Available(wallet) >= amount + fee)
    ensures r.Ok? ==>
      && PartOf(r.value.inputs, wallet) && (forall c <- r.value.inputs :: !c.pending)
      && Total(r.value.inputs) == amount + r.value.change + fee && r.value.change >= 0
      && r.value.payments == (if r.value.change > 0 then [amount, r.value.change] else [amount])
      && Total(r.value.inputs) == SumPayments(r.value.payments) + fee
      && (forall c <- r.value.inputs :: r.value.change < c.value)
  {
    if amount <= 0 {
      return Err(BadAmount);
    }
    if fee < HUB_TRANSACTION_FEE {
      return Err(FeeTooLow);
    }
    var planned := PlanSpend(wallet, amount + fee);
    if planned.Err? {
      return Err(InsufficientFunds(planned.error, amount + fee));
    }
    var chosen := planned.value;
    var total := SumValues(chosen);
    var change := total - amount - fee;
    var payments := [amount];
    if change > 0 {
      payments := payments + [change];
    }
    ChangeIsSmall(chosen, amount + fee);
    if change > 0 {
      assert payments[1..] == [change] && [change][1..] == [];
      assert SumPayments([change]) == change;
    }
    return Ok(Plan(chosen, change, payments));
  }

  method SumValues(coins: seq<Coin>) returns (total: int)
    ensures total == Total(coins)
  {
    total := 0;
    for i := 0 to |coins|
      invariant total == Total(coins[..i])
    {
      assert coins[..i + 1] == coins[..i] + [coins[i]];
      SumAppend(coins[..i], [coins[i]], VALUE);
      total := total + coins[i].value;
    }
    assert coins[..|coins|] == coins;
  }

  lemma ChangeIsSmall(chosen: seq<Coin>, needed: int)
    requires Descending(chosen) && (chosen != [] ==> Total(chosen[..|chosen| - 1]) < needed)
    ensures forall c <- chosen :: Total(chosen) - needed < c.value
  {
    if chosen != [] {
      var last := |chosen| - 1;
      assert chosen == chosen[..last] + [chosen[last]];
      SumAppend(chosen[..last], [chosen[last]], VALUE);
    }
  }
}
