// Each key's own reputation over a whole run: what it was paid for, what it was dinged for,
// and the bonds forfeited to it.

module PayoutReputation {
  import opened Basics
  import opened Tasks
  import opened TaskInvariant
  import TaskRuns
  import opened Payouts
  import opened PayoutInvariant
  import opened PayoutRuns

  /** The attempt pays its recipient an amount the task still owes it. */
  ghost predicate PaysNow(b: Board, leg: Leg) {
    && leg.task in b.tasks && Payable(b.tasks[leg.task].status)
    && leg.recipient in Owed(b.tasks[leg.task])
  }

  ghost function Completes(s: System, e: Event, k: PublicKey): nat {
    if e.Confirm? && e.reading.attempt.leg.recipient == k && PaysNow(s.board, e.reading.attempt.leg)
    then
      var t := s.board.tasks[e.reading.attempt.leg.task];
      if t.kind.Disputable? && t.kind.answers != [] && t.kind.picked.None? then 0 else 1
    else 0
  }

  ghost function Earns(s: System, e: Event, k: PublicKey): nat {
    if e.ForfeitBond? && e.recipient == k then e.amount
    else if e.Confirm? && e.reading.attempt.leg.recipient == k && PaysNow(s.board, e.reading.attempt.leg)
    then e.reading.attempt.amount
    else 0
  }

  ghost function Fails(s: System, e: Event, k: PublicKey): nat {
    if e.Operate? && e.id in s.board.tasks && k in Dinged(s.board.tasks[e.id], e.op) then 1 else 0
  }

  /** `record_confirmed_payout` credits the recipient, once, and nobody else. */
  lemma ConfirmCredits(b: Board, leg: Leg, amount: nat, now: Time, k: PublicKey)
    requires leg.task in b.tasks ==> TaskOk(b.tasks[leg.task])
    ensures
      var rep, rep' := ReputationOf(b, k), ReputationOf(ConfirmPayout(b, leg, amount, now).0, k);
      if k == leg.recipient && PaysNow(b, leg)
      then
        var t := b.tasks[leg.task];
        && rep'.totalEarned == rep.totalEarned + amount && rep'.failed == rep.failed
        && rep'.completed == rep.completed
                             + if t.kind.Disputable? && t.kind.answers != [] && t.kind.picked.None? then 0 else 1
      else rep' == rep
  {
    if leg.task in b.tasks && Payable(b.tasks[leg.task].status) {
      var t := b.tasks[leg.task];
      TaskRuns.MarkPaidAccepts(t, leg.recipient, now);
      if ApplyMarkPaid(t, leg.recipient, now).Done? {
        TaskRuns.MarkPaidMovesOne(t, leg.recipient, now);
        assert leg.recipient in Owed(t) <==> !IsPaid(t, leg.recipient);
      }
    }
  }

  lemma {:induction false} SendingCreditsNobody(
    s: System, id: Uuid, recipients: seq<PublicKey>, outputs: seq<Blockchain.Output>, source: PublicKey,
    tx: Blockchain.Tx, now: Time)
    requires |recipients| <= |outputs|
    ensures SendAll(s, id, recipients, outputs, source, tx, now).board.reputation == s.board.reputation
    decreases |recipients|
  {
    if recipients != [] {
      var s' := SendOne(s, id, recipients[0], outputs[0], source, tx, now);
      SendingCreditsNobody(s', id, recipients[1..], outputs[1..], source, tx, now);
    }
  }

  lemma {:induction false} ResendingCreditsNobody(b: Board, legs: seq<Leg>, now: Time)
    ensures BumpAll(b, legs, now).reputation == b.reputation
    decreases |legs|
  {
    if legs != [] {
      ResendingCreditsNobody(BumpOne(b, legs[0], now), legs[1..], now);
    }
  }

  /** Every event changes every reputation by exactly what that event was for it. */
  lemma StepReputation(s: System, e: Event, k: PublicKey)
    requires Enabled(s, e) && forall id <- s.board.tasks :: TaskOk(s.board.tasks[id])
    ensures
      var rep := ReputationOf(s.board, k);
      ReputationOf(Do(s, e).board, k) == Reputation(
        rep.completed + Completes(s, e, k), rep.failed + Fails(s, e, k), rep.totalEarned + Earns(s, e, k))
  {
    match e
    case Confirm(r, now) => ConfirmCredits(s.board, r.attempt.leg, r.attempt.amount, now, k);
    case Send(id, recipients, source, tx, now) =>
      SendingCreditsNobody(
        s.(chain := Blockchain.Do(s.chain, Blockchain.Build(tx))), id, recipients, tx.outputs, source, tx, now);
    case Resend(_, legs, now) => ResendingCreditsNobody(s.board, legs, now);
    case _ =>
  }

  /** What the first `i` events of a run were for `k`. */
  ghost function Record(states: seq<System>, events: seq<Event>, i: nat, k: PublicKey): Reputation
    requires i <= |events| && i <= |states|
  {
    if i == 0 then NO_REPUTATION
    else
      var s, e, rep := states[i - 1], events[i - 1], Record(states, events, i - 1, k);
      Reputation(rep.completed + Completes(s, e, k), rep.failed + Fails(s, e, k), rep.totalEarned + Earns(s, e, k))
  }

  /** Over every run a key's reputation counts its own confirmed payments and dings, and sums
      its own payments and the bonds forfeited to it. */
  lemma {:induction false} ReputationIsOnesOwn(states: seq<System>, events: seq<Event>, i: nat, k: PublicKey)
    requires IsRun(states, events) && Initial(states[0]) && i < |states|
    ensures ReputationOf(states[i].board, k) == Record(states, events, i, k)
  {
    if i > 0 {
      ReputationIsOnesOwn(states, events, i - 1, k);
      StepAddsUp(states, events, i - 1, k);
    }
  }

  lemma StepAddsUp(states: seq<System>, events: seq<Event>, j: nat, k: PublicKey)
    requires IsRun(states, events) && Initial(states[0]) && j < |events|
    ensures
      var s, e, rep := states[j], events[j], ReputationOf(states[j].board, k);
      ReputationOf(states[j + 1].board, k) == Reputation(
        rep.completed + Completes(s, e, k), rep.failed + Fails(s, e, k), rep.totalEarned + Earns(s, e, k))
  {
    RunTasksOk(states, events, j);
    assert StepAt(states, events, j);
    StepReputation(states[j], events[j], k);
  }

  lemma RunTasksOk(states: seq<System>, events: seq<Event>, i: nat)
    requires IsRun(states, events) && Initial(states[0]) && i < |states|
    ensures forall id <- states[i].board.tasks :: TaskOk(states[i].board.tasks[id])
  {
    RunInv(states, events, i);
  }
}
