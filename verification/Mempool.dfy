// `add_to_mempool` with all its checks, and that whatever it accepts is a step of the chain
// model, whose acceptance asks for less.

module Mempool {
  import opened Basics
  import opened Blockchain

  datatype MempoolError = InvalidTransaction | InvalidSignature

  function OutValue(outputs: seq<Output>): nat {
    if outputs == [] then 0 else outputs[0].value + OutValue(outputs[1..])
  }

  /** What the inputs are worth; the node reads it off its unspent outputs. */
  function InValue(c: Chain, inputs: seq<Hash>): nat
    requires forall h <- inputs :: h in c.outs
  {
    if inputs == [] then 0 else c.outs[inputs[0]].value + InValue(c, inputs[1..])
  }

  /** `transaction_fee`: checked sums, and no fee at all for a transaction that pays out more
      than it takes in. */
  function Fee(c: Chain, tx: Tx): Option<nat>
    requires forall h <- tx.inputs :: h in c.outs
  {
    var paid, spent := InValue(c, tx.inputs), OutValue(tx.outputs);
    if paid > U64_MAX || spent > U64_MAX || paid < spent then None else Some(paid - spent)
  }

  /** The first input, in order, that is unknown, repeated or badly signed. */
  function InputFault(c: Chain, inputs: seq<Hash>, known: set<Hash>, signed: set<Hash>): Option<MempoolError> {
    if inputs == [] then None
    else if !Unspent(c, inputs[0]) || inputs[0] in known then Some(InvalidTransaction)
    else if inputs[0] !in signed then Some(InvalidSignature)
    else InputFault(c, inputs[1..], known + {inputs[0]}, signed)
  }

  lemma {:induction false} NoInputFault(c: Chain, inputs: seq<Hash>, known: set<Hash>, signed: set<Hash>)
    ensures InputFault(c, inputs, known, signed).None? <==>
      && (forall h <- inputs :: Unspent(c, h) && h in signed && h !in known)
      && (forall i, j :: 0 <= i < j < |inputs| ==> inputs[i] != inputs[j])
    decreases |inputs|
  {
    if inputs != [] {
      assert inputs == [inputs[0]] + inputs[1..];
      NoInputFault(c, inputs[1..], known + {inputs[0]}, signed);
      if InputFault(c, inputs, known, signed).None? {
        forall i, j | 0 <= i < j < |inputs| ensures inputs[i] != inputs[j] {
          assert inputs[j] == inputs[1..][j - 1] && inputs[j] in inputs[1..];
          assert i > 0 ==> inputs[i] == inputs[1..][i - 1];
        }
      } else if forall i, j :: 0 <= i < j < |inputs| ==> inputs[i] != inputs[j] {
        RestIsDistinct(inputs);
      }
    }
  }

  lemma RestIsDistinct(inputs: seq<Hash>)
    requires inputs != [] && forall i, j :: 0 <= i < j < |inputs| ==> inputs[i] != inputs[j]
    ensures inputs[0] !in inputs[1..] && forall i, j :: 0 <= i < j < |inputs[1..]| ==> inputs[1..][i] != inputs[1..][j]
  {
    forall i, j | 0 <= i < j < |inputs[1..]| ensures inputs[1..][i] != inputs[1..][j] {
      assert inputs[1..][i] == inputs[i + 1] && inputs[1..][j] == inputs[j + 1];
    }
  }

  /** A queued payment that the newcomer may not push out: it pays at least as much. */
  predicate Outbid(c: Chain, tx: Tx, p: Tx)
    requires (forall h <- tx.inputs :: h in c.outs) && forall h <- p.inputs :: h in c.outs
  {
    Conflicts(p, tx) && (Fee(c, p).None? || Fee(c, tx).None? || Fee(c, tx).value <= Fee(c, p).value)
  }

  /** `add_to_mempool`; `signed` holds the inputs whose signature verifies. */
  function AddToMempool(c: Chain, tx: Tx, signed: set<Hash>): Result<Chain, MempoolError>
    requires PoolOk(c)
  {
    NoInputFault(c, tx.inputs, {}, signed);
    var fault := InputFault(c, tx.inputs, {}, signed);
    if fault.Some? then Err(fault.value)
    else if Fee(c, tx).None? || exists p <- c.pool :: Outbid(c, tx, p) then Err(InvalidTransaction)
    else
      var out := set p <- c.pool | Conflicts(p, tx);
      var unmarked := c.marked - set p <- out, h <- p.inputs :: h;
      Ok(c.(pool := c.pool - out + {tx}, marked := unmarked + Inputs(tx)))
  }

  /** The node accepts a transaction exactly when its inputs are unspent, distinct and signed, it
      pays out no more than it takes in, and it pays more than each payment it replaces. If it
      spends anything at all, that is then a step of the chain model. */
  lemma NodeAcceptsOnlySteps(c: Chain, tx: Tx, signed: set<Hash>)
    requires ChainOk(c) && tx in c.wire
    ensures AddToMempool(c, tx, signed).Ok? <==>
      && (forall h <- tx.inputs :: Unspent(c, h) && h in signed)
      && (forall i, j :: 0 <= i < j < |tx.inputs| ==> tx.inputs[i] != tx.inputs[j])
      && OutValue(tx.outputs) <= InValue(c, tx.inputs) <= U64_MAX
      && (forall p <- c.pool :: Conflicts(p, tx) ==>
            && OutValue(p.outputs) <= InValue(c, p.inputs) <= U64_MAX
            && InValue(c, p.inputs) - OutValue(p.outputs) < InValue(c, tx.inputs) - OutValue(tx.outputs))
    ensures AddToMempool(c, tx, signed).Ok? && tx.inputs != [] ==>
      Enabled(c, Accept(tx)) && AddToMempool(c, tx, signed).value == Do(c, Accept(tx))
  {
    NoInputFault(c, tx.inputs, {}, signed);
  }
}
