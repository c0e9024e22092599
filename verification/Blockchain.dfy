// The chain as the hub sees it: outputs, a node's mempool with its marks, and blocks
// that are permanent once mined. Transactions travel between nodes the hub cannot
// see, so any transaction ever put on the wire may be mined, whatever the queried
// node's own mempool holds.

module Blockchain {
  import opened Basics

  type Key = PublicKey

  datatype Hash = Hash(digest: int)

  datatype Output = Output(hash: Hash, owner: Key, value: nat)

  datatype Tx = Tx(inputs: seq<Hash>, outputs: seq<Output>)

  /** `outs` is every output a block or a coinbase ever created, `spent` those a block
      consumed, so the unspent set is their difference. `born` holds every output hash
      ever minted, on the chain or not: each build draws fresh ids. */
  datatype Chain = Chain(
    born: set<Hash>, built: set<Tx>, wire: set<Tx>, outs: map<Hash, Output>, spent: set<Hash>,
    mined: seq<Tx>, pool: set<Tx>, marked: set<Hash>)

  predicate Unspent(c: Chain, h: Hash) { h in c.outs && h !in c.spent }

  function Inputs(tx: Tx): set<Hash> { set h <- tx.inputs }

  function Created(tx: Tx): set<Hash> { set o <- tx.outputs :: o.hash }

  predicate DistinctHashes(outputs: seq<Output>) {
    forall i, j :: 0 <= i < j < |outputs| ==> outputs[i].hash != outputs[j].hash
  }

  predicate CanSpend(c: Chain, tx: Tx) {
    tx.inputs != [] && forall h <- tx.inputs :: Unspent(c, h)
  }

  predicate Conflicts(a: Tx, b: Tx) { exists h <- a.inputs :: h in b.inputs }

  function OutputMap(outputs: seq<Output>): map<Hash, Output> {
    if outputs == [] then map[] else OutputMap(outputs[1..])[outputs[0].hash := outputs[0]]
  }

  datatype Step =
    | Build(tx: Tx)
    | Submit(tx: Tx)
    | Accept(tx: Tx)
    | Evict(tx: Tx)
    | Mine(tx: Tx)
    | Coinbase(output: Output)

  predicate Enabled(c: Chain, s: Step) {
    match s
    case Build(tx) => tx !in c.built && DistinctHashes(tx.outputs) && Created(tx) !! c.born
    case Submit(tx) => tx in c.built
    case Accept(tx) => tx in c.wire && CanSpend(c, tx)
    case Evict(tx) => tx in c.pool
    case Mine(tx) => tx in c.wire && CanSpend(c, tx)
    case Coinbase(o) => o.hash !in c.born
  }

  /** `add_to_mempool` replaces what it conflicts with; a block removes the entries it
      leaves without an input, but does not unmark their other inputs. */
  function Do(c: Chain, s: Step): Chain
    requires Enabled(c, s)
  {
    match s
    case Build(tx) => c.(built := c.built + {tx}, born := c.born + Created(tx))
    case Submit(tx) => c.(wire := c.wire + {tx})
    case Accept(tx) =>
      var out := set p <- c.pool | Conflicts(p, tx);
      var freed := set p <- out, h <- p.inputs :: h;
      c.(pool := c.pool - out + {tx}, marked := c.marked - freed + Inputs(tx))
    case Evict(tx) => c.(pool := c.pool - {tx}, marked := c.marked - Inputs(tx))
    case Mine(tx) =>
      var c' := c.(outs := c.outs + OutputMap(tx.outputs), spent := c.spent + Inputs(tx), mined := c.mined + [tx],
                   marked := c.marked - Inputs(tx));
      c'.(pool := set p <- c.pool | forall h <- p.inputs :: Unspent(c', h))
    case Coinbase(o) => c.(born := c.born + {o.hash}, outs := c.outs[o.hash := o])
  }

  ghost predicate BuiltOk(c: Chain) {
    && (forall tx <- c.built :: DistinctHashes(tx.outputs) && Created(tx) <= c.born)
    && (forall a <- c.built, b <- c.built :: a == b || Created(a) !! Created(b))
  }

  ghost predicate OutsOk(c: Chain) {
    && c.outs.Keys <= c.born && c.spent <= c.outs.Keys
    && (forall h <- c.outs :: c.outs[h].hash == h)
    && (forall tx <- c.built, o <- tx.outputs :: o.hash in c.outs ==> tx in c.mined && c.outs[o.hash] == o)
  }

  ghost predicate MinedOk(c: Chain) {
    && (forall tx <- c.mined :: tx in c.built && tx.inputs != [] && Inputs(tx) <= c.spent && Created(tx) <= c.outs.Keys)
    && (forall i, j :: 0 <= i < j < |c.mined| ==> c.mined[i] != c.mined[j] && !Conflicts(c.mined[i], c.mined[j]))
  }

  ghost predicate PoolOk(c: Chain) {
    && c.pool <= c.wire <= c.built
    && (forall p <- c.pool :: CanSpend(c, p) && Inputs(p) <= c.marked)
    && (forall p <- c.pool, q <- c.pool :: p == q || !Conflicts(p, q))
  }

  ghost predicate ChainOk(c: Chain) {
    BuiltOk(c) && OutsOk(c) && MinedOk(c) && PoolOk(c)
  }

  /** What is on the chain stays on the chain. */
  ghost predicate Grows(c: Chain, c': Chain) {
    && c.built <= c'.built && c.spent <= c'.spent
    && c.outs.Keys <= c'.outs.Keys && (forall h <- c.outs :: c'.outs[h] == c.outs[h])
    && c.mined <= c'.mined
  }

  lemma HeadIsDistinct(outputs: seq<Output>)
    requires DistinctHashes(outputs) && outputs != []
    ensures DistinctHashes(outputs[1..]) && forall o <- outputs[1..] :: o.hash != outputs[0].hash
  {
    forall o | o in outputs[1..] ensures o.hash != outputs[0].hash {
      var i :| 0 <= i < |outputs[1..]| && outputs[1..][i] == o;
      assert outputs[i + 1] == o;
    }
  }

  lemma {:induction false} OutputMapIs(outputs: seq<Output>)
    requires DistinctHashes(outputs)
    ensures forall h :: h in OutputMap(outputs) <==> exists o <- outputs :: o.hash == h
    ensures forall o <- outputs :: o.hash in OutputMap(outputs) && OutputMap(outputs)[o.hash] == o
    ensures forall h <- OutputMap(outputs) :: OutputMap(outputs)[h].hash == h
    decreases |outputs|
  {
    if outputs != [] {
      OutputMapIs(outputs[1..]);
      HeadIsDistinct(outputs);
      assert outputs == [outputs[0]] + outputs[1..];
    }
  }

  /** What a transaction that is not mined yet would create is on the chain nowhere. */
  lemma OutputsAreNew(c: Chain, tx: Tx)
    requires BuiltOk(c) && OutsOk(c) && tx in c.built && tx !in c.mined
    ensures forall h <- OutputMap(tx.outputs) :: h in c.born && h !in c.outs && OutputMap(tx.outputs)[h].hash == h
  {
    OutputMapIs(tx.outputs);
    forall h | h in OutputMap(tx.outputs) ensures h in c.born && h !in c.outs {
      var o :| o in tx.outputs && o.hash == h;
      assert o.hash in Created(tx);
    }
  }

  /** An output that is on the chain once `tx` is mined was there before or is `tx`'s. */
  lemma OutputIsMined(c: Chain, tx: Tx, b: Tx, o: Output)
    requires BuiltOk(c) && OutsOk(c) && tx in c.built && tx !in c.mined
    requires b in c.built && o in b.outputs && o.hash in c.outs + OutputMap(tx.outputs)
    ensures (b in c.mined || b == tx) && (c.outs + OutputMap(tx.outputs))[o.hash] == o
  {
    OutputMapIs(tx.outputs);
    OutputsAreNew(c, tx);
    assert o.hash in Created(b);
    if o.hash in OutputMap(tx.outputs) {
      var p :| p in tx.outputs && p.hash == o.hash;
      assert o.hash in Created(tx);
    }
  }

  lemma MineKeepsOuts(c: Chain, tx: Tx)
    requires ChainOk(c) && Enabled(c, Mine(tx))
    ensures OutsOk(Do(c, Mine(tx))) && Grows(c, Do(c, Mine(tx)))
  {
    var c' := Do(c, Mine(tx));
    NotYetMined(c, tx);
    OutputsAreNew(c, tx);
    forall b, o | b in c.built && o in b.outputs && o.hash in c'.outs
      ensures b in c'.mined && c'.outs[o.hash] == o
    {
      OutputIsMined(c, tx, b, o);
    }
  }

  /** A transaction whose inputs are unspent has not been mined. */
  lemma NotYetMined(c: Chain, tx: Tx)
    requires ChainOk(c) && CanSpend(c, tx)
    ensures tx !in c.mined
  {
    assert tx.inputs[0] in Inputs(tx);
  }

  lemma MineKeepsMined(c: Chain, tx: Tx)
    requires ChainOk(c) && Enabled(c, Mine(tx))
    ensures MinedOk(Do(c, Mine(tx)))
  {
    NotYetMined(c, tx);
    OutputMapIs(tx.outputs);
    var c' := Do(c, Mine(tx));
    forall b | b in c'.mined
      ensures b in c.built && b.inputs != [] && Inputs(b) <= c'.spent && Created(b) <= c'.outs.Keys
    {
      assert b in c.mined || b == tx;
    }
    forall b | b in c.mined ensures !Conflicts(b, tx) {
      assert forall h <- b.inputs :: h in Inputs(b);
    }
  }

  lemma MineKeepsPool(c: Chain, tx: Tx)
    requires ChainOk(c) && Enabled(c, Mine(tx))
    ensures PoolOk(Do(c, Mine(tx)))
  {
  }

  lemma AcceptKeepsPool(c: Chain, tx: Tx)
    requires ChainOk(c) && Enabled(c, Accept(tx))
    ensures PoolOk(Do(c, Accept(tx)))
  {
    var c' := Do(c, Accept(tx));
    forall p | p in c'.pool ensures CanSpend(c', p) && Inputs(p) <= c'.marked {
      if p != tx {
        StaysMarked(c, tx, p);
      }
    }
    forall p, q | p in c'.pool && q in c'.pool && p != q ensures !Conflicts(p, q) {
      if p == tx {
        ConflictsSymmetric(p, q);
      }
    }
  }

  /** A pool entry that shares no input with the newcomer, or with what it replaces, keeps its marks. */
  lemma StaysMarked(c: Chain, tx: Tx, p: Tx)
    requires PoolOk(c) && Enabled(c, Accept(tx)) && p in c.pool && !Conflicts(p, tx)
    ensures Inputs(p) <= Do(c, Accept(tx)).marked
  {
    forall h, q | h in p.inputs && q in c.pool && Conflicts(q, tx) ensures h !in q.inputs {
    }
  }

  lemma ConflictsSymmetric(a: Tx, b: Tx)
    ensures Conflicts(a, b) <==> Conflicts(b, a)
  {
  }

  lemma EvictKeepsPool(c: Chain, tx: Tx)
    requires ChainOk(c) && Enabled(c, Evict(tx))
    ensures PoolOk(Do(c, Evict(tx)))
  {
  }

  lemma BuildKeepsOk(c: Chain, tx: Tx)
    requires ChainOk(c) && Enabled(c, Build(tx))
    ensures ChainOk(Do(c, Build(tx)))
  {
  }

  lemma CoinbaseKeepsOk(c: Chain, o: Output)
    requires ChainOk(c) && Enabled(c, Coinbase(o))
    ensures ChainOk(Do(c, Coinbase(o)))
  {
  }

  lemma StepKeepsOk(c: Chain, s: Step)
    requires ChainOk(c) && Enabled(c, s)
    ensures ChainOk(Do(c, s)) && Grows(c, Do(c, s))
  {
    match s
    case Build(tx) => BuildKeepsOk(c, tx);
    case Submit(tx) =>
      assert forall p <- c.pool :: CanSpend(c, p) ==> CanSpend(Do(c, s), p);
    case Accept(tx) => AcceptKeepsPool(c, tx);
    case Evict(tx) => EvictKeepsPool(c, tx);
    case Mine(tx) =>
      MineKeepsOuts(c, tx);
      MineKeepsMined(c, tx);
      MineKeepsPool(c, tx);
    case Coinbase(o) => CoinbaseKeepsOk(c, o);
  }

  lemma GrowsTransitive(a: Chain, b: Chain, c: Chain)
    requires Grows(a, b) && Grows(b, c)
    ensures Grows(a, c)
  {
  }
}
