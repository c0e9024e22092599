// What the board's payout records say, entry by entry: when a task counts as submitted or
// given up, what a confirmation does, and which send an attempt goes back to.

module PayoutRecords {
  import opened Basics
  import opened Tasks
  import opened TaskInvariant
  import TaskRuns
  import Blockchain
  import opened Payouts
  import opened PayoutInvariant
  import opened PayoutRuns
  import opened PayoutBudget
  import opened PayoutReputation

  // ----- one call ---------------------------------------------------------------------------------

  /** `record_payout_attempt` files the attempt under its leg, and a task turns from Verified to
      Submitted exactly when the last recipient it owes got an attempt. */
  lemma RecordedIff(b: Board, a: Attempt, id: Uuid)
    requires id in b.tasks
    ensures
      var b' := RecordAttempt(b, a);
      && b'.attempts == b.attempts[a.leg := a] && b'.reputation == b.reputation && b'.tasks.Keys == b.tasks.Keys
      && (b'.tasks[id] == b.tasks[id] || b'.tasks[id] == b.tasks[id].(status := Submitted))
      && (b'.tasks[id] != b.tasks[id] <==>
            && id == a.leg.task && b.tasks[id].status.Verified?
            && forall k <- Owed(b.tasks[id]) :: Leg(id, k) in b'.attempts)
  {
    if id == a.leg.task && b.tasks[id].status.Verified? {
      var recorded := b.(attempts := b.attempts[a.leg := a]);
      if k :| k in Owed(b.tasks[id]) && Leg(id, k) !in recorded.attempts {
        assert k in Unsubmitted(recorded, id);
      }
    }
  }

  /** `mark_payout_failed` takes a payable task, fails it, and drops its attempts and no other. */
  lemma GivenUpIff(b: Board, id: Uuid, leg: Leg)
    ensures MarkPayoutFailed(b, id).Ok? <==>
      id in b.tasks && (b.tasks[id].status.Verified? || b.tasks[id].status.Submitted?)
    ensures MarkPayoutFailed(b, id).Ok? ==>
      var b' := MarkPayoutFailed(b, id).value;
      && b'.tasks == b.tasks[id := b.tasks[id].(status := PayoutFailed)] && b'.reputation == b.reputation
      && (leg in b'.attempts <==> leg in b.attempts && leg.task != id)
      && (leg in b'.attempts ==> b'.attempts[leg] == b.attempts[leg])
    ensures MarkPayoutFailed(b, id).Err? ==>
      MarkPayoutFailed(b, id).error == if id in b.tasks then NotVerified else NotFound
  {
  }

  /** A confirmation pays exactly an amount still owed: the recipient moves to paid and the
      attempt goes. One already paid only loses its attempt, and anything else changes nothing. */
  lemma ConfirmedIff(b: Board, leg: Leg, amount: nat, now: Time)
    requires leg.task in b.tasks ==> TaskOk(b.tasks[leg.task])
    ensures
      var (b', credited) := ConfirmPayout(b, leg, amount, now);
      && (credited <==> PaysNow(b, leg))
      && (credited ==>
            && leg.task in b'.tasks && b'.tasks == b.tasks[leg.task := b'.tasks[leg.task]]
            && PaidOut(b'.tasks[leg.task])
               == PaidOut(b.tasks[leg.task])[leg.recipient := Owed(b.tasks[leg.task])[leg.recipient]])
      && (!credited ==> b'.tasks == b.tasks)
      && b'.attempts == if leg.task in b.tasks && Payable(b.tasks[leg.task].status)
                           && leg.recipient in Allocated(b.tasks[leg.task])
                        then b.attempts - {leg} else b.attempts
  {
    if leg.task in b.tasks && Payable(b.tasks[leg.task].status) {
      var t := b.tasks[leg.task];
      TaskRuns.MarkPaidAccepts(t, leg.recipient, now);
      if ApplyMarkPaid(t, leg.recipient, now).Done? {
        TaskRuns.MarkPaidMovesOne(t, leg.recipient, now);
        assert leg.recipient in Owed(t) <==> !IsPaid(t, leg.recipient);
      }
    }
  }

  /** What a sweep does with an answer: it confirms, or resends up to four times, only an attempt
      that is still the one on the board, and gives up only after the fourth. */
  lemma SweepActsIff(s: System, r: Reading, legs: seq<Leg>, now: Time)
    requires r.BothRead? && LegsOf(s.board, r.attempt, legs)
    ensures
      var live := r in s.readings && r.attempt.leg in s.board.attempts && s.board.attempts[r.attempt.leg] == r.attempt;
      && (Enabled(s, Event.Confirm(r, now)) <==> live && r.outcome.Confirmed?)
      && (Enabled(s, Resend(r, legs, now)) <==> live && r.outcome.NeverLanded? && r.attempt.submissions < 4)
      && (Enabled(s, Abandon(r)) <==> r in s.readings && r.outcome.NeverLanded? && r.attempt.submissions >= 4)
  {
  }

  // ----- whole runs -------------------------------------------------------------------------------

  /** The `n`-th recipient of a send gets the `n`-th output, and one more submission. */
  lemma {:induction false} SendRecords(
    s: System, id: Uuid, recipients: seq<PublicKey>, outputs: seq<Blockchain.Output>, source: PublicKey,
    tx: Blockchain.Tx, now: Time, n: nat)
    requires |recipients| <= |outputs| && n < |recipients|
    requires forall i, j :: 0 <= i < j < |recipients| ==> recipients[i] != recipients[j]
    ensures
      var leg, after := Leg(id, recipients[n]), SendAll(s, id, recipients, outputs, source, tx, now).board.attempts;
      && leg in after
      && after[leg] == Attempt(
           leg, outputs[n].value, outputs[n].hash, tx.inputs, source, now, Submissions(s.board, leg) + 1, tx)
    decreases |recipients|
  {
    var s' := SendOne(s, id, recipients[0], outputs[0], source, tx, now);
    var first := NewAttempt(s.board, Leg(id, recipients[0]), outputs[0], source, tx, now);
    assert s'.board.attempts == s.board.attempts[first.leg := first];
    if n == 0 {
      assert recipients[0] !in recipients[1..];
      SendAllIs(s', id, recipients[1..], outputs[1..], source, tx, now, first.leg);
    } else {
      SendRecords(s', id, recipients[1..], outputs[1..], source, tx, now, n - 1);
    }
  }

  /** The attempt `e` leaves for its `n`-th recipient, but for the count. */
  ghost predicate SentAs(e: Event, n: nat, a: Attempt) {
    && e.Send? && n < |e.recipients| <= |e.tx.outputs| && a.leg == Leg(e.id, e.recipients[n])
    && a.amount == e.tx.outputs[n].value && a.outputHash == e.tx.outputs[n].hash
    && a.spentInputs == e.tx.inputs && a.source == e.source && a.tx == e.tx
  }

  lemma SendStep(s: System, e: Event, leg: Leg)
    requires e.Send? && Enabled(s, e) && leg in Do(s, e).board.attempts
    ensures
      var a := Do(s, e).board.attempts[leg];
      if Carries(e, leg) then a.submittedAt == e.now && exists n :: SentAs(e, n, a)
      else leg in s.board.attempts && a == s.board.attempts[leg]
  {
    var built := s.(chain := Blockchain.Do(s.chain, Blockchain.Build(e.tx)));
    if leg.task == e.id && leg.recipient in e.recipients {
      var n :| 0 <= n < |e.recipients| && e.recipients[n] == leg.recipient;
      SendRecords(built, e.id, e.recipients, e.tx.outputs, e.source, e.tx, e.now, n);
      assert SentAs(e, n, Do(s, e).board.attempts[leg]);
    } else {
      SendAllIs(built, e.id, e.recipients, e.tx.outputs, e.source, e.tx, e.now, leg);
    }
  }

  lemma ResendStep(s: System, e: Event, leg: Leg)
    requires e.Resend? && Enabled(s, e) && leg in Do(s, e).board.attempts
    requires forall l <- s.board.attempts :: s.board.attempts[l].leg == l
    ensures leg in s.board.attempts
    ensures
      var was, a := s.board.attempts[leg], Do(s, e).board.attempts[leg];
      a == if Carries(e, leg) then was.(submittedAt := e.now, submissions := was.submissions + 1) else was
  {
    BumpAllIs(s.board, e.legs, e.now);
  }

  lemma FiledUnderTheirLegs(states: seq<System>, events: seq<Event>, i: nat)
    requires IsRun(states, events) && Initial(states[0]) && i < |states|
    ensures forall leg <- states[i].board.attempts :: states[i].board.attempts[leg].leg == leg
  {
    RunInv(states, events, i);
    var s := states[i];
    assert forall leg <- s.board.attempts :: AttemptOk(s.board, s.sent, leg, s.board.attempts[leg]);
  }

  lemma AttemptAtStep(states: seq<System>, events: seq<Event>, i: nat, leg: Leg)
    requires IsRun(states, events) && Initial(states[0]) && i < |events| && leg in states[i + 1].board.attempts
    ensures
      var e, a := events[i], states[i + 1].board.attempts[leg];
      if Sends(e, leg) then a.submittedAt == e.now && exists n :: SentAs(e, n, a)
      else
        && leg in states[i].board.attempts
        && var was := states[i].board.attempts[leg];
           && a == was.(submittedAt := a.submittedAt, submissions := a.submissions)
           && a.submittedAt == if Carries(e, leg) then e.now else was.submittedAt
  {
    FiledUnderTheirLegs(states, events, i);
    assert StepAt(states, events, i);
    var s, e := states[i], events[i];
    if e.Send? {
      SendStep(s, e, leg);
    } else if e.Resend? {
      ResendStep(s, e, leg);
    } else {
      OtherStepMoves(s, e);
    }
  }

  /** Every attempt on the board is one send's, to the letter: its amount, output, inputs,
      source and transaction; and is dated by the last send or resend that carried it. */
  lemma {:induction false} AttemptIsItsSend(states: seq<System>, events: seq<Event>, i: nat, leg: Leg)
    returns (j: nat, n: nat, m: nat)
    requires IsRun(states, events) && Initial(states[0]) && i < |states| && leg in states[i].board.attempts
    ensures j <= m < i && SentAs(events[j], n, states[i].board.attempts[leg])
    ensures Carries(events[m], leg) && events[m].now == states[i].board.attempts[leg].submittedAt
    ensures forall x :: m < x < i ==> !Carries(events[x], leg)
    decreases i
  {
    assert i > 0;
    AttemptAtStep(states, events, i - 1, leg);
    if Sends(events[i - 1], leg) {
      n :| SentAs(events[i - 1], n, states[i].board.attempts[leg]);
      j, m := i - 1, i - 1;
    } else {
      j, n, m := AttemptIsItsSend(states, events, i - 1, leg);
      m := if Carries(events[i - 1], leg) then i - 1 else m;
    }
  }
}
