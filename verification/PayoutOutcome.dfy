// `resolve_against`: what two UTXO reads say became of a fire-and-forget payment, and
// why each answer is sound against every chain the hub cannot otherwise see.

module PayoutOutcome {
  import opened Basics
  import opened Blockchain

  datatype Outcome = Confirmed | NeverLanded | HeldInMempool | Ambiguous

  /** One line of a `fetch_utxos` answer. */
  datatype Entry = Entry(marked: bool, output: Output)

  /** The entry a linear search finds first, as its mark. */
  function FirstMark(view: seq<Entry>, h: Hash): Option<bool> {
    if view == [] then None
    else if view[0].output.hash == h then Some(view[0].marked)
    else FirstMark(view[1..], h)
  }

  predicate Holds(view: seq<Entry>, h: Hash) { exists e <- view :: e.output.hash == h }

  ghost function ResolveAgainst(
    outputHash: Hash, spentInputs: seq<Hash>, recipientView: seq<Entry>, sourceView: seq<Entry>): Outcome
  {
    if Holds(recipientView, outputHash) then Confirmed
    else if spentInputs == [] || exists h <- spentInputs :: FirstMark(sourceView, h).None? then Ambiguous
    else if exists h <- spentInputs :: FirstMark(sourceView, h) == Some(true) then HeldInMempool
    else NeverLanded
  }

  method FindMark(view: seq<Entry>, wanted: Hash) returns (mark: Option<bool>)
    ensures mark == FirstMark(view, wanted)
  {
    var i := 0;
    while i < |view|
      invariant 0 <= i <= |view|
      invariant FirstMark(view, wanted) == FirstMark(view[i..], wanted)
    {
      if view[i].output.hash == wanted {
        return Some(view[i].marked);
      }
      assert view[i..][1..] == view[i + 1..];
      i := i + 1;
    }
    return None;
  }

  method Resolve(outputHash: Hash, spentInputs: seq<Hash>, recipientView: seq<Entry>, sourceView: seq<Entry>)
    returns (outcome: Outcome)
    ensures outcome == ResolveAgainst(outputHash, spentInputs, recipientView, sourceView)
  {
    if exists e <- recipientView :: e.output.hash == outputHash {
      return Confirmed;
    }
    if spentInputs == [] {
      return Ambiguous;
    }
    var anyVanished, anyMarked := false, false;
    var i := 0;
    while i < |spentInputs|
      invariant 0 <= i <= |spentInputs|
      invariant anyVanished <==> exists h <- spentInputs[..i] :: FirstMark(sourceView, h).None?
      invariant anyMarked <==> exists h <- spentInputs[..i] :: FirstMark(sourceView, h) == Some(true)
    {
      var wanted := spentInputs[i];
      var found := FindMark(sourceView, wanted);
      if found.None? {
        anyVanished := true;
      } else {
        anyMarked := anyMarked || found.value;
      }
      assert spentInputs[..i + 1] == spentInputs[..i] + [wanted];
      i := i + 1;
    }
    assert spentInputs[..i] == spentInputs;
    if anyVanished {
      outcome := Ambiguous;
    } else if anyMarked {
      outcome := HeldInMempool;
    } else {
      outcome := NeverLanded;
    }
  }

  // ----- reads of the chain -----------------------------------------------------------

  /** What `fetch_utxos` may answer for `owner`: its unspent outputs, in any order. */
  ghost predicate IsView(c: Chain, owner: Key, view: seq<Entry>) {
    && (forall e <- view ::
          && Unspent(c, e.output.hash) && c.outs[e.output.hash] == e.output
          && e.output.owner == owner && e.marked == (e.output.hash in c.marked))
    && (forall h <- c.outs :: Unspent(c, h) && c.outs[h].owner == owner ==> Holds(view, h))
  }

  lemma {:induction false} FirstMarkOf(view: seq<Entry>, h: Hash)
    ensures FirstMark(view, h).Some? <==> Holds(view, h)
    ensures FirstMark(view, h).Some? ==> exists e <- view :: e.output.hash == h && Some(e.marked) == FirstMark(view, h)
    decreases |view|
  {
    if view != [] {
      FirstMarkOf(view[1..], h);
      assert view == [view[0]] + view[1..];
    }
  }

  /** The answer from the two lists alone, whatever they hold: a listed output is confirmed; a
      payment with no recorded inputs, or with one that is not listed, is ambiguous; a marked
      entry of an input makes it held, and an unmarked one of each makes it never landed. */
  lemma ResolveReadsTheViews(
    outputHash: Hash, spentInputs: seq<Hash>, recipientView: seq<Entry>, sourceView: seq<Entry>)
    ensures
      var outcome := ResolveAgainst(outputHash, spentInputs, recipientView, sourceView);
      && (outcome.Confirmed? <==> exists e <- recipientView :: e.output.hash == outputHash)
      && (outcome.Ambiguous? <==>
            && !outcome.Confirmed?
            && (spentInputs == [] || exists h <- spentInputs :: forall e <- sourceView :: e.output.hash != h))
      && (outcome.HeldInMempool? ==> exists h <- spentInputs, e <- sourceView :: e.output.hash == h && e.marked)
      && (outcome.NeverLanded? ==>
            spentInputs != [] && forall h <- spentInputs :: exists e <- sourceView :: e.output.hash == h && !e.marked)
  {
    forall h | h in spentInputs
      ensures FirstMark(sourceView, h).None? <==> forall e <- sourceView :: e.output.hash != h
      ensures FirstMark(sourceView, h).Some? ==>
        exists e <- sourceView :: e.output.hash == h && Some(e.marked) == FirstMark(sourceView, h)
    {
      FirstMarkOf(sourceView, h);
    }
  }

  lemma ViewMark(c: Chain, owner: Key, view: seq<Entry>, h: Hash)
    requires ChainOk(c) && IsView(c, owner, view) && h in c.outs && c.outs[h].owner == owner
    ensures FirstMark(view, h) == if Unspent(c, h) then Some(h in c.marked) else None
  {
    FirstMarkOf(view, h);
    if FirstMark(view, h).Some? {
      var e :| e in view && e.output.hash == h && Some(e.marked) == FirstMark(view, h);
    }
  }

  lemma ViewHolds(c: Chain, owner: Key, view: seq<Entry>, o: Output)
    requires ChainOk(c) && IsView(c, owner, view) && o.owner == owner
    ensures Unspent(c, o.hash) && c.outs[o.hash] == o ==> Holds(view, o.hash)
    ensures Holds(view, o.hash) ==> Unspent(c, o.hash)
  {
  }

  /** A payment as the hub records it: which output of which transaction pays whom, and
      whose outputs it spends. */
  ghost predicate Recorded(c: Chain, tx: Tx, index: nat, recipient: Key, source: Key) {
    && tx in c.built && tx.inputs != []
    && index < |tx.outputs| && tx.outputs[index].owner == recipient
    && (forall h <- tx.inputs :: h in c.outs && c.outs[h].owner == source)
  }

  /** The recipient is read first, the source at the same moment or later, and the
      chain may move in between. `Confirmed` is a mined payment; `NeverLanded` and
      `HeldInMempool` are not mined at the second read, the first of them not even
      queued at the node; so a payment that was mined and spent onward is never read
      as lost. Conversely an unspent payment reads as `Confirmed`, and every other answer is
      exact: `Ambiguous` when some input is consumed, however many others are merely marked,
      `HeldInMempool` when none is and some is marked, `NeverLanded` when all are untouched. */
  lemma ResolveSound(
    c1: Chain, c2: Chain, tx: Tx, index: nat, recipient: Key, source: Key,
    recipientView: seq<Entry>, sourceView: seq<Entry>)
    requires ChainOk(c1) && ChainOk(c2) && Grows(c1, c2)
    requires Recorded(c1, tx, index, recipient, source)
    requires IsView(c1, recipient, recipientView) && IsView(c2, source, sourceView)
    ensures
      var o := tx.outputs[index];
      var outcome := ResolveAgainst(o.hash, tx.inputs, recipientView, sourceView);
      && (outcome.Confirmed? <==> tx in c1.mined && o.hash !in c1.spent)
      && (!outcome.Confirmed? ==>
            && (outcome.Ambiguous? <==> exists h <- tx.inputs :: h in c2.spent)
            && (outcome.HeldInMempool? <==>
                  (forall h <- tx.inputs :: h !in c2.spent) && exists h <- tx.inputs :: h in c2.marked)
            && (outcome.NeverLanded? <==> forall h <- tx.inputs :: h !in c2.spent && h !in c2.marked))
      && (outcome.NeverLanded? || outcome.HeldInMempool? ==> tx !in c2.mined)
      && (outcome.NeverLanded? ==> tx !in c2.pool)
      && (tx in c2.mined ==> outcome.Confirmed? || outcome.Ambiguous?)
      && (tx in c2.pool ==> outcome.HeldInMempool?)
  {
    var o := tx.outputs[index];
    assert o in tx.outputs;
    ViewHolds(c1, recipient, recipientView, o);
    ConfirmedIsMined(c1, tx, o, recipientView);
    assert c2.outs.Keys >= c1.outs.Keys;
    forall h | h in tx.inputs
      ensures FirstMark(sourceView, h) == if h in c2.spent then None else Some(h in c2.marked)
    {
      ViewMark(c2, source, sourceView, h);
    }
    MinedInputsSpent(c2, tx);
    PooledInputsMarked(c2, tx);
    MinedStaysMined(c1, c2, tx);
    assert tx.inputs[0] in tx.inputs;
  }

  lemma ConfirmedIsMined(c: Chain, tx: Tx, o: Output, view: seq<Entry>)
    requires ChainOk(c) && tx in c.built && o in tx.outputs && IsView(c, o.owner, view)
    ensures Holds(view, o.hash) <==> tx in c.mined && o.hash !in c.spent
  {
  }

  lemma MinedInputsSpent(c: Chain, tx: Tx)
    requires ChainOk(c)
    ensures tx in c.mined ==> tx.inputs != [] && forall h <- tx.inputs :: h in c.spent
  {
  }

  lemma PooledInputsMarked(c: Chain, tx: Tx)
    requires ChainOk(c)
    ensures tx in c.pool ==> tx.inputs != [] && forall h <- tx.inputs :: h !in c.spent && h in c.marked
  {
  }

  lemma MinedStaysMined(c1: Chain, c2: Chain, tx: Tx)
    requires Grows(c1, c2)
    ensures tx in c1.mined ==> tx in c2.mined
  {
  }
}
