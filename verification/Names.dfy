// Agent names: rendered from two words, drawn without repetition, and permanent.

module Names {
  import opened Basics

  type Key = PublicKey

  datatype Pair = Pair(descriptor: string, subject: string)

  const RANDOM_PROBES: nat := 32

  predicate Lower(c: char) { 'a' <= c <= 'z' }

  predicate UpperCase(c: char) { 'A' <= c <= 'Z' }

  /** `char::to_uppercase` on what the wordlists hold. */
  function ToUpper(c: char): (u: char)
    ensures Lower(c) ==> UpperCase(u)
    ensures !Lower(c) ==> u == c
  {
    if Lower(c) then ((c as int) - 32) as char else c
  }

  function Capitalised(word: string): string {
    if word == [] then [] else [ToUpper(word[0])] + word[1..]
  }

  /** `render`. */
  function Rendered(p: Pair): string { Capitalised(p.descriptor) + Capitalised(p.subject) }

  predicate IsWord(w: string) { w != [] && forall c <- w :: Lower(c) }

  predicate IsPair(p: Pair) { IsWord(p.descriptor) && IsWord(p.subject) }

  method Render(p: Pair) returns (name: string)
    ensures name == Rendered(p)
  {
    name := "";
    var halves := [p.descriptor, p.subject];
    for i := 0 to 2
      invariant name == if i == 0 then "" else if i == 1 then Capitalised(p.descriptor) else Rendered(p)
    {
      var word := halves[i];
      if word != [] {
        name := name + [ToUpper(word[0])];
        name := name + word[1..];
      }
    }
  }

  // ----- rendering is injective ---------------------------------------------------------------------

  function ToLower(c: char): char { if UpperCase(c) then ((c as int) + 32) as char else c }

  lemma ToLowerInverts(c: char)
    requires Lower(c)
    ensures ToLower(ToUpper(c)) == c
  {
  }

  function Uncapitalised(word: string): string {
    if word == [] then [] else [ToLower(word[0])] + word[1..]
  }

  /** Where the second capital stands, reading from `i`. */
  function NextCapital(name: string, i: nat): nat
    requires i <= |name|
    decreases |name| - i
  {
    if i == |name| || UpperCase(name[i]) then i else NextCapital(name, i + 1)
  }

  function Split(name: string): Pair
    requires |name| > 0
  {
    NextCapitalInRange(name, 1);
    var cut := NextCapital(name, 1);
    Pair(Uncapitalised(name[..cut]), Uncapitalised(name[cut..]))
  }

  lemma {:induction false} NextCapitalInRange(name: string, i: nat)
    requires i <= |name|
    ensures i <= NextCapital(name, i) <= |name|
    decreases |name| - i
  {
    if i < |name| && !UpperCase(name[i]) {
      NextCapitalInRange(name, i + 1);
    }
  }

  lemma {:induction false} NextCapitalIs(name: string, i: nat, cut: nat)
    requires i <= cut < |name| && UpperCase(name[cut]) && forall j :: i <= j < cut ==> !UpperCase(name[j])
    ensures NextCapital(name, i) == cut
    decreases cut - i
  {
    if i < cut {
      NextCapitalIs(name, i + 1, cut);
    }
  }

  lemma CapitalisedWord(w: string)
    requires IsWord(w)
    ensures |Capitalised(w)| == |w| && UpperCase(Capitalised(w)[0]) && Uncapitalised(Capitalised(w)) == w
    ensures forall j :: 1 <= j < |w| ==> !UpperCase(Capitalised(w)[j])
  {
    ToLowerInverts(w[0]);
    assert [w[0]] + w[1..] == w;
    forall j | 1 <= j < |w| ensures !UpperCase(Capitalised(w)[j]) { assert w[j] in w; }
  }

  /** The two words can be read back from the name. */
  lemma SplitInvertsRender(p: Pair)
    requires IsPair(p)
    ensures |Rendered(p)| == |p.descriptor| + |p.subject| && Split(Rendered(p)) == p
  {
    CapitalisedWord(p.descriptor);
    CapitalisedWord(p.subject);
    var name, cut := Rendered(p), |p.descriptor|;
    assert name[..cut] == Capitalised(p.descriptor) && name[cut..] == Capitalised(p.subject);
    assert forall j :: 1 <= j < cut ==> name[j] == Capitalised(p.descriptor)[j];
    NextCapitalIs(name, 1, cut);
  }

  lemma RenderIsInjective(p: Pair, q: Pair)
    requires IsPair(p) && IsPair(q) && Rendered(p) == Rendered(q)
    ensures p == q
  {
    SplitInvertsRender(p);
    SplitInvertsRender(q);
  }

  function Values(names: map<Key, string>): set<string> { set k <- names :: names[k] }

  lemma ValuesAdd(names: map<Key, string>, k: Key, name: string)
    requires k !in names
    ensures Values(names[k := name]) == Values(names) + {name}
  {
    var names' := names[k := name];
    forall x | x in Values(names) + {name} ensures x in Values(names') {
      if x == name {
        assert names'[k] == name;
      } else {
        var j :| j in names && names[j] == x;
        assert names'[j] == x;
      }
    }
  }

  lemma SameMap(a: map<Key, string>, b: map<Key, string>)
    requires a.Keys == b.Keys && forall k <- a :: a[k] == b[k]
    ensures a == b
  {
  }

  /** Startup, with the names in `todo` still to be put back. */
  ghost predicate Restoring(names: map<Key, string>, todo: set<Key>, byPubkey: map<Key, string>, taken: set<string>) {
    && todo <= names.Keys && byPubkey.Keys == names.Keys - todo
    && (forall k <- byPubkey :: byPubkey[k] == names[k]) && taken == Values(byPubkey)
  }

  lemma RestoringOne(names: map<Key, string>, todo: set<Key>, byPubkey: map<Key, string>, taken: set<string>, k: Key)
    requires Restoring(names, todo, byPubkey, taken) && k in todo
    ensures Restoring(names, todo - {k}, byPubkey[k := names[k]], taken + {names[k]})
  {
    ValuesAdd(byPubkey, k, names[k]);
    assert (byPubkey[k := names[k]]).Keys == names.Keys - (todo - {k});
  }

  lemma WrapsOnce(start: nat, offset: nat, n: nat)
    requires start < n && offset < n
    ensures (start + offset) % n == if start + offset < n then start + offset else start + offset - n
  {
  }

  // ----- the registry ---------------------------------------------------------------------------------

  ghost predicate OneNameEach(names: map<Key, string>) {
    forall j <- names, k <- names :: names[j] == names[k] ==> j == k
  }

  ghost predicate AllTaken(candidates: seq<Pair>, taken: set<string>) {
    forall p <- candidates :: Rendered(p) in taken
  }

  ghost predicate IsFresh(candidates: seq<Pair>, taken: set<string>, name: string) {
    name !in taken && exists p <- candidates :: Rendered(p) == name
  }

  /** The positions a wrapping scan from `start` has seen after `offset` of them. */
  predicate Visited(start: int, n: int, offset: int, i: int) {
    start <= i < start + offset || start <= i + n < start + offset
  }

  /** So far the scan has met only taken names. */
  ghost predicate Scanned(candidates: seq<Pair>, taken: set<string>, start: int, offset: int) {
    forall i :: 0 <= i < |candidates| && Visited(start, |candidates|, offset, i) ==> Rendered(candidates[i]) in taken
  }

  lemma ScanOne(candidates: seq<Pair>, taken: set<string>, start: nat, offset: nat)
    requires start < |candidates| && offset < |candidates| && Scanned(candidates, taken, start, offset)
    requires Rendered(candidates[(start + offset) % |candidates|]) in taken
    ensures Scanned(candidates, taken, start, offset + 1)
  {
    WrapsOnce(start, offset, |candidates|);
  }

  lemma ScannedAll(candidates: seq<Pair>, taken: set<string>, start: nat)
    requires start < |candidates| && Scanned(candidates, taken, start, |candidates|)
    ensures AllTaken(candidates, taken)
  {
    forall i | 0 <= i < |candidates| ensures Rendered(candidates[i]) in taken {
      assert Visited(start, |candidates|, |candidates|, i);
    }
  }

  class NameRegistry {
    var byPubkey: map<Key, string>
    var taken: set<string>
    const candidates: seq<Pair>

    /** Every name handed out is taken, and nobody shares one. */
    ghost predicate Valid()
      reads this
    {
      taken == Values(byPubkey) && OneNameEach(byPubkey)
    }

    constructor (candidates: seq<Pair>)
      ensures Valid() && byPubkey == map[] && this.candidates == candidates
    {
      byPubkey, taken, this.candidates := map[], {}, candidates;
    }

    method RestoreOne(pubkey: Key, name: string)
      modifies this
      ensures byPubkey == old(byPubkey)[pubkey := name] && taken == old(taken) + {name}
    {
      taken := taken + {name};
      byPubkey := byPubkey[pubkey := name];
    }

    /** Startup: the store's names put back one by one. A prior registry's own map comes
        back whole, with exactly its names taken. */
    method RestoreAll(names: map<Key, string>)
      requires byPubkey == map[] && taken == {} && OneNameEach(names)
      modifies this
      ensures Valid() && byPubkey == names
    {
      var todo := names.Keys;
      while todo != {}
        invariant Restoring(names, todo, byPubkey, taken)
        decreases |todo|
      {
        var k :| k in todo;
        RestoringOne(names, todo, byPubkey, taken, k);
        RestoreOne(k, names[k]);
        todo := todo - {k};
      }
      SameMap(byPubkey, names);
    }

    /** `draw`: the random probes, then one wrapping scan from a random offset, which visits
        every candidate once. `probes` and `start` are the random draws. */
    method Draw(probes: seq<nat>, start: nat) returns (r: Option<string>)
      requires |probes| == RANDOM_PROBES
      requires candidates != [] ==> start < |candidates| && forall i <- probes :: i < |candidates|
      ensures r.None? <==> AllTaken(candidates, taken)
      ensures r.Some? ==> IsFresh(candidates, taken, r.value)
    {
      if candidates == [] {
        return None;
      }
      for i := 0 to RANDOM_PROBES {
        assert probes[i] in probes;
        var pair := candidates[probes[i]];
        var name := Render(pair);
        if name !in taken {
          assert pair in candidates;
          return Some(name);
        }
      }
      r := Scan(start);
    }

    method Scan(start: nat) returns (r: Option<string>)
      requires start < |candidates|
      ensures r.None? <==> AllTaken(candidates, taken)
      ensures r.Some? ==> IsFresh(candidates, taken, r.value)
    {
      var n := |candidates|;
      for offset := 0 to n
        invariant Scanned(candidates, taken, start, offset)
      {
        var pair := candidates[(start + offset) % n];
        var name := Render(pair);
        if name !in taken {
          assert pair in candidates;
          return Some(name);
        }
        ScanOne(candidates, taken, start, offset);
      }
      ScannedAll(candidates, taken, start);
      return None;
    }

    /** `assign`: the name a key already has, or a fresh one; refused exactly when every
        candidate is taken. */
    method Assign(pubkey: Key, probes: seq<nat>, start: nat) returns (r: Option<(string, bool)>)
      requires Valid()
      requires |probes| == RANDOM_PROBES
      requires candidates != [] ==> start < |candidates| && forall i <- probes :: i < |candidates|
      modifies this
      ensures Valid() && (forall k <- old(byPubkey) :: k in byPubkey && byPubkey[k] == old(byPubkey)[k])
      ensures r.None? <==> pubkey !in old(byPubkey) && AllTaken(candidates, old(taken))
      ensures r.None? ==> byPubkey == old(byPubkey)
      ensures r.Some? ==> pubkey in byPubkey && byPubkey[pubkey] == r.value.0 && r.value.1 == (pubkey !in old(byPubkey))
      ensures r.Some? ==> byPubkey == old(byPubkey)[pubkey := r.value.0]
      ensures r.Some? && r.value.1 ==> IsFresh(candidates, old(taken), r.value.0)
    {
      if pubkey in byPubkey {
        return Some((byPubkey[pubkey], false));
      }
      var drawn := Draw(probes, start);
      if drawn.None? {
        return None;
      }
      ValuesAdd(byPubkey, pubkey, drawn.value);
      taken := taken + {drawn.value};
      byPubkey := byPubkey[pubkey := drawn.value];
      return Some((drawn.value, true));
    }

    /** `remaining`: exact when the pool's pairs are distinct words and every taken name
        comes from it. */
    method Remaining() returns (n: nat)
      ensures PoolOk(candidates) && taken <= Renders(candidates) ==> n == |Renders(candidates) - taken|
    {
      n := if |candidates| >= |taken| then |candidates| - |taken| else 0;
      if PoolOk(candidates) && taken <= Renders(candidates) {
        RendersCount(candidates);
        SizeOfRest(taken, Renders(candidates));
      }
    }
  }

  // ----- how many are left ------------------------------------------------------------------------------

  ghost predicate PoolOk(candidates: seq<Pair>) {
    && (forall p <- candidates :: IsPair(p))
    && forall i, j :: 0 <= i < j < |candidates| ==> candidates[i] != candidates[j]
  }

  function Renders(candidates: seq<Pair>): set<string> { set p <- candidates :: Rendered(p) }

  lemma NotRenderedAgain(p: Pair, rest: seq<Pair>)
    requires IsPair(p) && p !in rest && forall q <- rest :: IsPair(q)
    ensures Rendered(p) !in Renders(rest)
  {
    forall q | q in rest ensures Rendered(q) != Rendered(p) {
      if Rendered(q) == Rendered(p) {
        RenderIsInjective(p, q);
      }
    }
  }

  lemma {:induction false} RendersCount(candidates: seq<Pair>)
    requires PoolOk(candidates)
    ensures |Renders(candidates)| == |candidates|
    decreases |candidates|
  {
    if candidates != [] {
      var p, rest := candidates[0], candidates[1..];
      RendersCount(rest);
      assert candidates == [p] + rest;
      NotRenderedAgain(p, rest);
      assert Renders(candidates) == Renders(rest) + {Rendered(p)};
    }
  }

  lemma SizeOfRest(a: set<string>, b: set<string>)
    requires a <= b
    ensures |a| <= |b| && |b - a| == |b| - |a|
  {
  }

  // ----- runs -----------------------------------------------------------------------------------------------

  /** What the registry may do to the names: hand one out of the pool of its build, which
      another build may have changed, or come back from its own map. */
  ghost predicate Step(candidates: seq<Pair>, names: map<Key, string>, names': map<Key, string>) {
    || names' == names
    || exists k, name :: k !in names && IsFresh(candidates, Values(names), name) && names' == names[k := name]
  }

  ghost predicate IsRun(pools: seq<seq<Pair>>, history: seq<map<Key, string>>) {
    && |history| == |pools| + 1
    && forall i :: 0 <= i < |pools| ==> Step(pools[i], history[i], history[i + 1])
  }

  /** Every name handed out before is still the same. */
  ghost predicate Extends(names: map<Key, string>, names': map<Key, string>) {
    forall k <- names :: k in names' && names'[k] == names[k]
  }

  lemma StepKeepsNames(candidates: seq<Pair>, names: map<Key, string>, names': map<Key, string>)
    requires OneNameEach(names) && Step(candidates, names, names')
    ensures OneNameEach(names') && Extends(names, names')
  {
  }

  lemma ExtendsTransitive(a: map<Key, string>, b: map<Key, string>, c: map<Key, string>)
    requires Extends(a, b) && Extends(b, c)
    ensures Extends(a, c)
  {
  }

  lemma {:induction false} NobodySharesAName(pools: seq<seq<Pair>>, history: seq<map<Key, string>>, i: nat)
    requires IsRun(pools, history) && OneNameEach(history[0]) && i < |history|
    ensures OneNameEach(history[i])
  {
    if i > 0 {
      NobodySharesAName(pools, history, i - 1);
      StepKeepsNames(pools[i - 1], history[i - 1], history[i]);
    }
  }

  /** Over every run of assignments and restarts, whatever becomes of the wordlist in
      between, no two keys share a name, and no name ever changes. */
  lemma {:induction false} NamesArePermanent(pools: seq<seq<Pair>>, history: seq<map<Key, string>>, i: nat, j: nat)
    requires IsRun(pools, history) && OneNameEach(history[0]) && i <= j < |history|
    ensures OneNameEach(history[j]) && Extends(history[i], history[j])
    decreases j
  {
    NobodySharesAName(pools, history, j);
    if i < j {
      NamesArePermanent(pools, history, i, j - 1);
      StepKeepsNames(pools[j - 1], history[j - 1], history[j]);
      ExtendsTransitive(history[i], history[j - 1], history[j]);
    }
  }
}
