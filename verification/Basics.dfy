// Shared vocabulary: optional values, results, and sums over finite maps.

module Basics {

  datatype Option<+T> = None | Some(value: T)

  datatype Result<+T, +E> = Ok(value: T) | Err(error: E)

  /** A key, as the opaque identity every map is keyed by. */
  datatype PublicKey = PublicKey(bytes: int)

  /** A v4 uuid; `BTreeMap`s keyed by one iterate in its numeric order. */
  datatype Uuid = Uuid(n: int)

  /** The largest value of Rust's `u64`. */
  const U64_MAX: int := 0xFFFF_FFFF_FFFF_FFFF

  ghost function Member<T>(s: set<T>): (x: T)
    requires s != {}
    ensures x in s
  {
    var x :| x in s; x
  }

  type u64 = x: int | 0 <= x <= U64_MAX

  /** Every set can be listed, each element once. */
  lemma {:induction false} Listed<T>(s: set<T>) returns (q: seq<T>)
    ensures (forall x <- s :: x in q) && (forall i :: 0 <= i < |q| ==> q[i] in s)
    ensures forall i, j :: 0 <= i < j < |q| ==> q[i] != q[j]
    decreases |s|
  {
    if s == {} {
      q := [];
    } else {
      var x := Member(s);
      var rest := Listed(s - {x});
      q := [x] + rest;
    }
  }
}

/** The few products the solver does not see through. */
module Arithmetic {

  function Min(a: int, b: int): int { if a <= b then a else b }

  lemma MulMonotone(d: nat, a: int, b: int)
    requires a <= b
    ensures d * a <= d * b && a * d <= b * d
  {
  }

  lemma MulOneMore(a: int, b: int)
    ensures a * (b + 1) == a * b + a && (b + 1) * a == b * a + a
  {
  }
}

/** Sums of a measure over the values of a finite map, independent of order. */
module MapSums {

  ghost function Pick<K, V>(m: map<K, V>): (k: K)
    requires m != map[]
    ensures k in m
  {
    var k :| k in m;
    k
  }

  ghost function Sum<K, V>(m: map<K, V>, f: V -> int): int
    decreases |m|
  {
    if m == map[] then 0 else
      var k := Pick(m);
      f(m[k]) + Sum(m - {k}, f)
  }

  lemma {:induction false} SumRemove<K, V>(m: map<K, V>, k: K, f: V -> int)
    requires k in m
    ensures Sum(m, f) == f(m[k]) + Sum(m - {k}, f)
    decreases |m|
  {
    var p := Pick(m);
    if p != k {
      var rest := m - {p};
      SumRemove(rest, k, f);
      var other := m - {k};
      SumRemove(other, p, f);
      assert rest - {k} == other - {p};
    }
  }

  /** Replacing (or adding) one entry moves the sum by exactly that entry's change. */
  lemma SumUpdate<K, V>(m: map<K, V>, k: K, v: V, f: V -> int)
    ensures Sum(m[k := v], f) == Sum(m, f) - (if k in m then f(m[k]) else 0) + f(v)
  {
    SumRemove(m[k := v], k, f);
    assert m[k := v] - {k} == m - {k};
    if k in m {
      SumRemove(m, k, f);
    } else {
      assert m - {k} == m;
    }
  }

  lemma {:induction false} SumNonNegative<K, V>(m: map<K, V>, f: V -> int)
    requires forall k <- m :: f(m[k]) >= 0
    ensures Sum(m, f) >= 0
    decreases |m|
  {
    if m != map[] {
      SumNonNegative(m - {Pick(m)}, f);
    }
  }

  /** One non-negative term never exceeds the whole sum. */
  lemma SumBoundsTerm<K, V>(m: map<K, V>, k: K, f: V -> int)
    requires k in m
    requires forall j <- m :: f(m[j]) >= 0
    ensures 0 <= f(m[k]) <= Sum(m, f)
  {
    SumRemove(m, k, f);
    SumNonNegative(m - {k}, f);
  }

  /** A map whose entries are entries of `m`, or weigh nothing, never sums to more. */
  lemma {:induction false} SumOfPart<K, V>(part: map<K, V>, m: map<K, V>, f: V -> int)
    requires forall k <- m :: f(m[k]) >= 0
    requires forall k <- part :: (k in m && part[k] == m[k]) || f(part[k]) == 0
    ensures Sum(part, f) <= Sum(m, f)
    decreases |part|
  {
    if part == map[] {
      SumNonNegative(m, f);
    } else {
      var k := Pick(part);
      SumOfPart(part - {k}, m - {k}, f);
      if k in m {
        SumRemove(m, k, f);
      } else {
        assert m - {k} == m;
      }
    }
  }

  lemma {:induction false} SumZero<K, V>(m: map<K, V>, f: V -> int)
    requires forall k <- m :: f(m[k]) == 0
    ensures Sum(m, f) == 0
    decreases |m|
  {
    if m != map[] {
      SumZero(m - {Pick(m)}, f);
    }
  }

  /** Entries that weigh the same, and new ones that weigh nothing, leave the sum alone. */
  lemma {:induction false} SumAgrees<K, V>(m: map<K, V>, m': map<K, V>, f: V -> int)
    requires forall k <- m :: k in m' && f(m'[k]) == f(m[k])
    requires forall k <- m' :: k in m || f(m'[k]) == 0
    ensures Sum(m', f) == Sum(m, f)
    decreases |m'|
  {
    if m' != map[] {
      var k := Pick(m');
      if k in m {
        SumRemove(m, k, f);
        SumAgrees(m - {k}, m' - {k}, f);
      } else {
        SumAgrees(m, m' - {k}, f);
      }
    } else {
      assert m == map[];
    }
  }

  lemma UnionRemove<K, V>(a: map<K, V>, b: map<K, V>, k: K)
    requires k !in a && k in b
    ensures k in a + b && (a + b)[k] == b[k]
    ensures (a + b) - {k} == a + (b - {k})
  {
  }

  /** The sum over two maps with no key in common. */
  lemma {:induction false} SumUnion<K, V>(a: map<K, V>, b: map<K, V>, f: V -> int)
    requires forall k <- b :: k !in a
    ensures Sum(a + b, f) == Sum(a, f) + Sum(b, f)
    decreases |b|
  {
    if b == map[] {
      assert a + b == a;
    } else {
      var k := Pick(b);
      var rest := b - {k};
      SumUnion(a, rest, f);
      UnionRemove(a, b, k);
      SumRemove(a + b, k, f);
    }
  }
}
