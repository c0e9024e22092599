// The payout protocol over whole runs of the hub beside the chain.

module PayoutRuns {
  import opened Basics
  import opened MapSums
  import opened Tasks
  import opened TaskInvariant
  import opened Blockchain
  import opened PayoutOutcome
  import opened Payouts
  import opened PayoutInvariant

  lemma {:induction false} RunInv(states: seq<System>, events: seq<Event>, i: nat)
    requires IsRun(states, events) && Initial(states[0]) && i < |states|
    ensures Inv(states[i])
  {
    if i == 0 {
      InitialOk(states[0]);
    } else {
      RunInv(states, events, i - 1);
      assert StepAt(states, events, i - 1);
      StepKeepsInv(states[i - 1], events[i - 1]);
    }
  }

  /** Block `p` of the chain carries a payment the hub built for `leg`. */
  ghost predicate PaidInBlock(s: System, leg: Leg, p: nat) {
    p < |s.chain.mined| && exists r <- s.sent :: r.leg == leg && r.tx == s.chain.mined[p]
  }

  predicate Sends(e: Event, leg: Leg) { e.Send? && leg.task == e.id && leg.recipient in e.recipients }

  /** A send adds one payment of its transaction for each of its recipients. */
  lemma {:induction false} SendAllSent(
    s: System, id: Uuid, recipients: seq<PublicKey>, outputs: seq<Output>, source: PublicKey, tx: Tx, now: Time)
    requires |recipients| <= |outputs|
    ensures s.sent <= SendAll(s, id, recipients, outputs, source, tx, now).sent
    ensures forall k <- recipients ::
      exists r <- SendAll(s, id, recipients, outputs, source, tx, now).sent :: r.leg == Leg(id, k) && r.tx == tx
    decreases |recipients|
  {
    if recipients != [] {
      var s' := SendOne(s, id, recipients[0], outputs[0], source, tx, now);
      var last := s'.sent[|s.sent|];
      SendAllSent(s', id, recipients[1..], outputs[1..], source, tx, now);
      var sent := SendAll(s, id, recipients, outputs, source, tx, now).sent;
      assert sent[|s.sent|] == last && last in sent && last.leg == Leg(id, recipients[0]) && last.tx == tx;
      assert recipients == [recipients[0]] + recipients[1..];
    }
  }

  // ----- paid at most once -------------------------------------------------------------------

  /** No two payments sent for one leg can both be mined. */
  ghost predicate Exclusive(sent: seq<Sent>) {
    forall i, j :: 0 <= i < j < |sent| && sent[i].leg == sent[j].leg ==> Conflicts(sent[i].tx, sent[j].tx)
  }

  /** Whatever was sent before for these recipients spends an output `tx` spends too. A
      leg that was never sent asks for nothing here. */
  ghost predicate SharesInput(sent: seq<Sent>, id: Uuid, recipients: seq<PublicKey>, tx: Tx) {
    forall r <- sent :: r.leg.task == id && r.leg.recipient in recipients ==> Conflicts(r.tx, tx)
  }

  ghost predicate Shares(s: System, e: Event) { e.Send? ==> SharesInput(s.sent, e.id, e.recipients, e.tx) }

  lemma SendOneExclusive(
    s: System, id: Uuid, recipients: seq<PublicKey>, output: Output, source: PublicKey, tx: Tx, now: Time)
    requires recipients != [] && forall i, j :: 0 <= i < j < |recipients| ==> recipients[i] != recipients[j]
    requires Exclusive(s.sent) && SharesInput(s.sent, id, recipients, tx)
    ensures
      var sent := SendOne(s, id, recipients[0], output, source, tx, now).sent;
      Exclusive(sent) && SharesInput(sent, id, recipients[1..], tx)
  {
    var sent := SendOne(s, id, recipients[0], output, source, tx, now).sent;
    forall i, j | 0 <= i < j < |sent| && sent[i].leg == sent[j].leg ensures Conflicts(sent[i].tx, sent[j].tx) {
      assert sent[i] == s.sent[i] && s.sent[i] in s.sent;
    }
  }

  lemma {:induction false} SendAllExclusive(
    s: System, id: Uuid, recipients: seq<PublicKey>, outputs: seq<Output>, source: PublicKey, tx: Tx, now: Time)
    requires |recipients| <= |outputs| && forall i, j :: 0 <= i < j < |recipients| ==> recipients[i] != recipients[j]
    requires Exclusive(s.sent) && SharesInput(s.sent, id, recipients, tx)
    ensures Exclusive(SendAll(s, id, recipients, outputs, source, tx, now).sent)
    decreases |recipients|
  {
    if recipients != [] {
      SendOneExclusive(s, id, recipients, outputs[0], source, tx, now);
      var s' := SendOne(s, id, recipients[0], outputs[0], source, tx, now);
      SendAllExclusive(s', id, recipients[1..], outputs[1..], source, tx, now);
    }
  }

  lemma StepExclusive(s: System, e: Event, s': System)
    requires Payouts.Enabled(s, e) && s' == Payouts.Do(s, e) && Shares(s, e) && Exclusive(s.sent)
    ensures Exclusive(s'.sent)
  {
    if e.Send? {
      var built := s.(chain := Blockchain.Do(s.chain, Build(e.tx)));
      SendAllExclusive(built, e.id, e.recipients, e.tx.outputs, e.source, e.tx, e.now);
    } else {
      assert s'.sent == s.sent;
    }
  }

  lemma {:induction false} RunExclusive(states: seq<System>, events: seq<Event>, i: nat)
    requires IsRun(states, events) && Initial(states[0]) && i < |states|
    requires forall j :: 0 <= j < i ==> Shares(states[j], events[j])
    ensures Exclusive(states[i].sent)
  {
    if i > 0 {
      RunExclusive(states, events, i - 1);
      assert StepAt(states, events, i - 1);
      StepExclusive(states[i - 1], events[i - 1], states[i]);
    }
  }

  lemma OneBlockPerLeg(s: System, leg: Leg, p: nat, q: nat)
    requires MinedOk(s.chain) && Exclusive(s.sent) && PaidInBlock(s, leg, p) && PaidInBlock(s, leg, q)
    ensures p == q
  {
    var m :| 0 <= m < |s.sent| && s.sent[m].leg == leg && s.sent[m].tx == s.chain.mined[p];
    var n :| 0 <= n < |s.sent| && s.sent[n].leg == leg && s.sent[n].tx == s.chain.mined[q];
    if m != n {
      ConflictsSymmetric(s.sent[m].tx, s.sent[n].tx);
    }
  }

  /** A leg whose later payments each spend an output an earlier one spends is mined at most
      once, however often it is sent or resent. */
  lemma PaidAtMostOnce(states: seq<System>, events: seq<Event>, i: nat, leg: Leg, p: nat, q: nat)
    requires IsRun(states, events) && Initial(states[0]) && i < |states|
    requires forall j :: 0 <= j < i ==> Shares(states[j], events[j])
    requires PaidInBlock(states[i], leg, p) && PaidInBlock(states[i], leg, q)
    ensures p == q
  {
    RunInv(states, events, i);
    RunExclusive(states, events, i);
    OneBlockPerLeg(states[i], leg, p, q);
  }

  // ----- the two disciplines of the hub's sends -------------------------------------------------

  /** The operator's path sends what `unsubmitted_payouts` names: legs with no attempt. */
  ghost predicate OfUnsubmitted(s: System, e: Event) {
    e.Send? ==> forall k <- e.recipients :: k in Unsubmitted(s.board, e.id)
  }

  /** The escrow's path always spends from the task's own deposit address, and that address
      has held one output. */
  ghost predicate FromOneOutput(s: System, e: Event) {
    e.Send? ==>
      && (forall r <- s.sent :: r.leg.task == e.id ==> r.source == e.source)
      && (forall h <- s.chain.outs, h' <- s.chain.outs ::
            s.chain.outs[h].owner == e.source && s.chain.outs[h'].owner == e.source ==> h == h')
  }

  lemma UnsubmittedShares(s: System, e: Event)
    requires BoardOk(s.board, s.sent) && OfUnsubmitted(s, e)
    ensures Shares(s, e)
  {
    if e.Send? {
      forall r | r in s.sent && r.leg.task == e.id ensures r.leg.recipient !in e.recipients {
        if r.leg.recipient in e.recipients {
          NotSentYet(s.board, s.sent, r.leg);
        }
      }
    }
  }

  lemma OneOutputShares(s: System, e: Event)
    requires Payouts.Enabled(s, e) && FromOneOutput(s, e) && forall r <- s.sent :: OnWire(s.chain, r)
    ensures Shares(s, e)
  {
    if e.Send? {
      forall r | r in s.sent && r.leg.task == e.id ensures Conflicts(r.tx, e.tx) {
        assert OnWire(s.chain, r);
        assert r.tx.inputs[0] in r.tx.inputs && e.tx.inputs[0] in e.tx.inputs;
        assert r.tx.inputs[0] == e.tx.inputs[0];
      }
    }
  }

  /** In every run whose sends keep to either discipline, a leg is mined at most once. */
  lemma HubPaysAtMostOnce(states: seq<System>, events: seq<Event>, i: nat, leg: Leg, p: nat, q: nat)
    requires IsRun(states, events) && Initial(states[0]) && i < |states|
    requires forall j :: 0 <= j < i ==> OfUnsubmitted(states[j], events[j]) || FromOneOutput(states[j], events[j])
    requires PaidInBlock(states[i], leg, p) && PaidInBlock(states[i], leg, q)
    ensures p == q
  {
    forall j | 0 <= j < i ensures Shares(states[j], events[j]) {
      RunInv(states, events, j);
      assert StepAt(states, events, j);
      if OfUnsubmitted(states[j], events[j]) {
        UnsubmittedShares(states[j], events[j]);
      } else {
        OneOutputShares(states[j], events[j]);
      }
    }
    PaidAtMostOnce(states, events, i, leg, p, q);
  }

  // ----- what is credited and what a status says --------------------------------------------------

  /** A block pays exactly this amount to this recipient for this task. */
  ghost predicate MinedFor(s: System, c: Credit, p: nat, o: Output) {
    PaidInBlock(s, c.leg, p) && o in s.chain.mined[p].outputs && o.owner == c.leg.recipient && o.value == c.amount
  }

  lemma CreditHasBlock(s: System, c: Credit)
    requires CreditOk(s, c) && forall r <- s.sent :: OnWire(s.chain, r)
    ensures exists p, o :: MinedFor(s, c, p, o)
  {
    var r :| r in s.sent && r.leg == c.leg && r.amount == c.amount && r.tx in s.chain.mined;
    var p: nat :| 0 <= p < |s.chain.mined| && s.chain.mined[p] == r.tx;
    assert OnWire(s.chain, r);
    var o :| o in r.tx.outputs && PaysLeg(r, o);
    assert MinedFor(s, c, p, o);
  }

  /** Every credit to reputation is for a mined payment of exactly that amount to that
      recipient, no leg is credited twice, and everything ever earned is what tasks
      have confirmed paid plus forfeited bonds. */
  lemma CreditedOnlyIfMined(states: seq<System>, events: seq<Event>, i: nat)
    requires IsRun(states, events) && Initial(states[0]) && i < |states|
    ensures forall c <- states[i].credits :: exists p, o :: MinedFor(states[i], c, p, o)
    ensures forall m, n :: 0 <= m < n < |states[i].credits| ==> states[i].credits[m].leg != states[i].credits[n].leg
    ensures Sum(states[i].board.reputation, EARNED) == Sum(states[i].board.tasks, CONFIRMED) + states[i].forfeited
  {
    RunInv(states, events, i);
    var s := states[i];
    forall c | c in s.credits ensures exists p, o :: MinedFor(s, c, p, o) { CreditHasBlock(s, c); }
  }

  /** A recipient a task counts as paid was credited, so its payment was mined. */
  lemma PaidMeansMined(states: seq<System>, events: seq<Event>, i: nat, id: Uuid, k: PublicKey)
    requires IsRun(states, events) && Initial(states[0]) && i < |states|
    requires id in states[i].board.tasks && k in PaidOut(states[i].board.tasks[id])
    ensures exists p, o :: MinedFor(states[i], Credit(Leg(id, k), PaidOut(states[i].board.tasks[id])[k]), p, o)
  {
    RunInv(states, events, i);
    CreditHasBlock(states[i], Credit(Leg(id, k), PaidOut(states[i].board.tasks[id])[k]));
  }

  /** `Submitted` says every owed recipient has a transaction in flight, so a task with
      an unsent leg is still `Verified`; a task that is neither holds no attempt; and an
      attempt is always for the amount owed. */
  lemma StatusTellsTheTruth(states: seq<System>, events: seq<Event>, i: nat, id: Uuid)
    requires IsRun(states, events) && Initial(states[0]) && i < |states| && id in states[i].board.tasks
    ensures
      var b := states[i].board;
      var t := b.tasks[id];
      && (t.status.Submitted? ==> Unsubmitted(b, id) == map[] && forall k <- Owed(t) :: Leg(id, k) in b.attempts)
      && (Unsubmitted(b, id) != map[] ==> t.status.Verified?)
      && (forall leg <- b.attempts :: leg.task == id ==>
            Payable(t.status) && leg.recipient in Owed(t) && b.attempts[leg].amount == Owed(t)[leg.recipient])
  {
    RunInv(states, events, i);
    var b := states[i].board;
    forall leg | leg in b.attempts && leg.task == id
      ensures Payable(b.tasks[id].status) && leg.recipient in Owed(b.tasks[id])
      ensures b.attempts[leg].amount == Owed(b.tasks[id])[leg.recipient]
    {
      assert AttemptOk(b, states[i].sent, leg, b.attempts[leg]);
    }
  }

  /** Whatever a sweep answers, at whatever two moments it read the chain, the answer is
      true of the chain at the second. */
  lemma SweepAnswersSound(states: seq<System>, events: seq<Event>, i: nat, r: Reading, view: seq<Entry>)
    requires IsRun(states, events) && Initial(states[0]) && i < |events| && events[i] == ReadSource(r, view)
    ensures r.RecipientRead?
    ensures
      var c := states[i].chain;
      var outcome := ResolveAgainst(r.attempt.outputHash, r.attempt.spentInputs, r.view, view);
      && BothRead(r.attempt, outcome) in states[i + 1].readings
      && (outcome.Confirmed? ==> r.attempt.tx in c.mined)
      && (outcome.NeverLanded? ==> r.attempt.tx !in c.mined && r.attempt.tx !in c.pool)
      && (outcome.HeldInMempool? ==> r.attempt.tx !in c.mined)
      && (r.attempt.tx in c.mined ==> outcome.Confirmed? || outcome.Ambiguous?)
  {
    RunInv(states, events, i);
    assert StepAt(states, events, i);
    ReadSourceSound(states[i], r, view);
  }

  // ----- why the recipient is read first --------------------------------------------------

  const FUNDS := Output(Hash(0), PublicKey(1), 5)
  const BOUNTY := Output(Hash(1), PublicKey(2), 5)
  const ONWARD := Output(Hash(2), PublicKey(3), 5)
  const PAYMENT := Tx([Hash(0)], [BOUNTY])
  const SPENDER := Tx([Hash(1)], [ONWARD])

  function OnlyFunds(): Chain { Chain({Hash(0)}, {}, {}, map[Hash(0) := FUNDS], {}, [], {}, {}) }

  lemma BuiltBoth() returns (c: Chain)
    ensures ChainOk(c) && c.outs == map[Hash(0) := FUNDS] && c.spent == {} && c.marked == {}
    ensures PAYMENT in c.wire && SPENDER in c.wire && PAYMENT in c.built
  {
    c := OnlyFunds();
    StepKeepsOk(c, Build(PAYMENT));
    c := Blockchain.Do(c, Build(PAYMENT));
    assert Created(SPENDER) == {Hash(2)} && Created(PAYMENT) == {Hash(1)};
    StepKeepsOk(c, Build(SPENDER));
    c := Blockchain.Do(c, Build(SPENDER));
    StepKeepsOk(c, Step.Submit(PAYMENT));
    c := Blockchain.Do(c, Step.Submit(PAYMENT));
    StepKeepsOk(c, Step.Submit(SPENDER));
    c := Blockchain.Do(c, Step.Submit(SPENDER));
  }

  lemma MinedFirst(c1: Chain) returns (c: Chain)
    requires ChainOk(c1) && c1.outs == map[Hash(0) := FUNDS] && c1.spent == {} && PAYMENT in c1.wire
    ensures ChainOk(c) && Grows(c1, c) && PAYMENT in c.mined && c.wire == c1.wire
    ensures c.outs == map[Hash(0) := FUNDS, Hash(1) := BOUNTY] && c.spent == {Hash(0)}
  {
    StepKeepsOk(c1, Mine(PAYMENT));
    c := Blockchain.Do(c1, Mine(PAYMENT));
    assert OutputMap([BOUNTY]) == map[Hash(1) := BOUNTY];
  }

  lemma MinedSecond(c1: Chain) returns (c: Chain)
    requires ChainOk(c1) && SPENDER in c1.wire
    requires c1.outs == map[Hash(0) := FUNDS, Hash(1) := BOUNTY] && c1.spent == {Hash(0)}
    ensures ChainOk(c) && Grows(c1, c) && forall h <- c.outs :: Unspent(c, h) ==> c.outs[h] == ONWARD
  {
    StepKeepsOk(c1, Mine(SPENDER));
    c := Blockchain.Do(c1, Mine(SPENDER));
    assert OutputMap([ONWARD]) == map[Hash(2) := ONWARD];
  }

  lemma MinedBoth(c1: Chain) returns (c2: Chain)
    requires ChainOk(c1) && c1.outs == map[Hash(0) := FUNDS] && c1.spent == {} && PAYMENT in c1.wire
    requires SPENDER in c1.wire
    ensures ChainOk(c2) && Grows(c1, c2) && PAYMENT in c2.mined
    ensures forall h <- c2.outs :: Unspent(c2, h) ==> c2.outs[h] == ONWARD
  {
    var c := MinedFirst(c1);
    c2 := MinedSecond(c);
    GrowsTransitive(c1, c, c2);
    MinedStaysMined(c, c2, PAYMENT);
  }

  /** The order of the two reads is part of the rule: with the source read first, a
      payment that is mined and spent onward in between is answered `NeverLanded`. */
  lemma SourceFirstIsUnsound() returns (c1: Chain, c2: Chain, sourceView: seq<Entry>, recipientView: seq<Entry>)
    ensures ChainOk(c1) && ChainOk(c2) && Grows(c1, c2) && Recorded(c1, PAYMENT, 0, PublicKey(2), PublicKey(1))
    ensures IsView(c1, PublicKey(1), sourceView) && IsView(c2, PublicKey(2), recipientView)
    ensures ResolveAgainst(BOUNTY.hash, PAYMENT.inputs, recipientView, sourceView).NeverLanded?
    ensures PAYMENT in c2.mined
  {
    c1 := BuiltBoth();
    c2 := MinedBoth(c1);
    sourceView, recipientView := [Entry(false, FUNDS)], [];
    assert sourceView[0] in sourceView;
    assert FirstMark(sourceView, Hash(0)) == Some(false);
  }
}
