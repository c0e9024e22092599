// The submission budget. In every run a leg is put on the wire at most four times per send;
// as long as each send finds its legs at one count, at most four times plus one for each
// send that found an attempt; and with sends of unsubmitted legs only, at most four times.

module PayoutBudget {
  import opened Basics
  import opened Tasks
  import opened Blockchain
  import opened PayoutOutcome
  import opened Payouts
  import opened PayoutInvariant
  import opened PayoutRuns

  type Attempts = map<Leg, Attempt>

  // ----- what each step does to the attempts --------------------------------------------------

  function Count(attempts: Attempts, leg: Leg): nat { if leg in attempts then attempts[leg].submissions else 0 }

  /** A send writes its own legs, each one more than before, with a transaction nobody had. */
  ghost predicate SendMoves(was: Attempts, e: Event, after: Attempts)
    requires e.Send?
  {
    && (forall leg <- was :: was[leg].tx != e.tx)
    && (forall leg :: Sends(e, leg) ==>
          leg in after && after[leg].tx == e.tx && after[leg].submissions == Count(was, leg) + 1)
    && (forall leg :: !Sends(e, leg) ==>
          (leg in after <==> leg in was) && (leg in was ==> after[leg] == was[leg]))
  }

  /** A resend counts once for every leg of the transaction it carries. */
  ghost predicate ResendMoves(was: Attempts, a: Attempt, legs: seq<Leg>, after: Attempts) {
    && a.leg in was && was[a.leg] == a && a.submissions < MAX_PAYOUT_SUBMISSIONS
    && (forall leg :: leg in legs <==> leg in was && leg.task == a.leg.task && was[leg].tx == a.tx)
    && after.Keys == was.Keys
    && (forall leg <- was :: after[leg].tx == was[leg].tx)
    && (forall leg <- was :: after[leg].submissions == was[leg].submissions + if leg in legs then 1 else 0)
  }

  ghost predicate OnlyDrops(was: Attempts, after: Attempts) {
    forall leg <- after :: leg in was && after[leg] == was[leg]
  }

  ghost predicate Moves(was: Attempts, e: Event, after: Attempts) {
    if e.Send? then SendMoves(was, e, after)
    else if e.Resend? then ResendMoves(was, e.reading.attempt, e.legs, after)
    else OnlyDrops(was, after)
  }

  lemma {:induction false} BumpAllIs(b: Board, legs: seq<Leg>, now: Time)
    requires forall leg <- legs :: leg in b.attempts
    requires forall leg <- b.attempts :: b.attempts[leg].leg == leg
    requires forall i, j :: 0 <= i < j < |legs| ==> legs[i] != legs[j]
    ensures
      var after := BumpAll(b, legs, now).attempts;
      && after.Keys == b.attempts.Keys
      && forall leg <- b.attempts :: after[leg] == if leg in legs then Bumped(b.attempts[leg], now) else b.attempts[leg]
    decreases |legs|
  {
    if legs != [] {
      var b' := BumpOne(b, legs[0], now);
      assert b'.attempts == b.attempts[legs[0] := Bumped(b.attempts[legs[0]], now)];
      assert legs == [legs[0]] + legs[1..];
      BumpAllIs(b', legs[1..], now);
    }
  }

  lemma {:induction false} SendAllIs(
    s: System, id: Uuid, recipients: seq<PublicKey>, outputs: seq<Output>, source: PublicKey, tx: Tx, now: Time,
    leg: Leg)
    requires |recipients| <= |outputs| && forall i, j :: 0 <= i < j < |recipients| ==> recipients[i] != recipients[j]
    ensures
      var before, after := s.board, SendAll(s, id, recipients, outputs, source, tx, now).board;
      if leg.task == id && leg.recipient in recipients
      then leg in after.attempts && after.attempts[leg].tx == tx
        && after.attempts[leg].submissions == Submissions(before, leg) + 1
      else (leg in after.attempts <==> leg in before.attempts)
           && (leg in before.attempts ==> after.attempts[leg] == before.attempts[leg])
    decreases |recipients|
  {
    if recipients != [] {
      var a := NewAttempt(s.board, Leg(id, recipients[0]), outputs[0], source, tx, now);
      var s' := SendOne(s, id, recipients[0], outputs[0], source, tx, now);
      assert s'.board.attempts == s.board.attempts[a.leg := a];
      assert recipients == [recipients[0]] + recipients[1..];
      SendAllIs(s', id, recipients[1..], outputs[1..], source, tx, now, leg);
    }
  }

  /** No attempt carries a transaction that was never built. */
  lemma AttemptsAreBuilt(s: System, tx: Tx)
    requires AttemptsOk(s.board, s.sent) && (forall r <- s.sent :: OnWire(s.chain, r)) && tx !in s.chain.built
    ensures forall leg <- s.board.attempts :: s.board.attempts[leg].tx != tx
  {
  }

  lemma SendStepMoves(s: System, e: Event)
    requires AttemptsOk(s.board, s.sent) && (forall r <- s.sent :: OnWire(s.chain, r))
    requires e.Send? && Payouts.Enabled(s, e)
    ensures SendMoves(s.board.attempts, e, Payouts.Do(s, e).board.attempts)
  {
    AttemptsAreBuilt(s, e.tx);
    var built := s.(chain := Blockchain.Do(s.chain, Build(e.tx)));
    forall leg ensures
      var after := Payouts.Do(s, e).board.attempts;
      if Sends(e, leg)
      then leg in after && after[leg].tx == e.tx && after[leg].submissions == Count(s.board.attempts, leg) + 1
      else (leg in after <==> leg in s.board.attempts)
           && (leg in s.board.attempts ==> after[leg] == s.board.attempts[leg])
    {
      SendAllIs(built, e.id, e.recipients, e.tx.outputs, e.source, e.tx, e.now, leg);
    }
  }

  lemma ResendStepMoves(s: System, e: Event)
    requires AttemptsOk(s.board, s.sent) && e.Resend? && Payouts.Enabled(s, e)
    ensures ResendMoves(s.board.attempts, e.reading.attempt, e.legs, Payouts.Do(s, e).board.attempts)
  {
    assert forall leg <- s.board.attempts :: AttemptOk(s.board, s.sent, leg, s.board.attempts[leg]);
    BumpAllIs(s.board, e.legs, e.now);
  }

  lemma OtherStepMoves(s: System, e: Event)
    requires !e.Send? && !e.Resend? && Payouts.Enabled(s, e)
    ensures OnlyDrops(s.board.attempts, Payouts.Do(s, e).board.attempts)
  {
  }

  lemma StepMoves(s: System, e: Event)
    requires AttemptsOk(s.board, s.sent) && (forall r <- s.sent :: OnWire(s.chain, r)) && Payouts.Enabled(s, e)
    ensures Moves(s.board.attempts, e, Payouts.Do(s, e).board.attempts)
  {
    if e.Send? {
      SendStepMoves(s, e);
    } else if e.Resend? {
      ResendStepMoves(s, e);
    } else {
      OtherStepMoves(s, e);
    }
  }

  lemma StepMovesAt(states: seq<System>, events: seq<Event>, i: nat)
    requires IsRun(states, events) && Initial(states[0]) && i < |events|
    ensures Moves(states[i].board.attempts, events[i], states[i + 1].board.attempts)
  {
    RunInv(states, events, i);
    assert StepAt(states, events, i);
    StepMoves(states[i], events[i]);
  }

  // ----- how often a leg is put on the wire ---------------------------------------------------------

  /** An event that hands the node a transaction paying `leg`. */
  predicate Carries(e: Event, leg: Leg) { Sends(e, leg) || (e.Resend? && leg in e.legs) }

  function TimesCarried(events: seq<Event>, leg: Leg): nat {
    if events == [] then 0
    else TimesCarried(events[..|events| - 1], leg) + if Carries(events[|events| - 1], leg) then 1 else 0
  }

  function TimesSent(events: seq<Event>, leg: Leg): nat {
    if events == [] then 0
    else TimesSent(events[..|events| - 1], leg) + if Sends(events[|events| - 1], leg) then 1 else 0
  }

  /** A send of a leg that already has an attempt. */
  predicate Repeats(s: System, e: Event, leg: Leg) { Sends(e, leg) && leg in s.board.attempts }

  function TimesRepeated(states: seq<System>, events: seq<Event>, i: nat, leg: Leg): nat
    requires i <= |events| < |states|
  {
    if i == 0 then 0
    else TimesRepeated(states, events, i - 1, leg) + if Repeats(states[i - 1], events[i - 1], leg) then 1 else 0
  }

  lemma CountsSnoc(events: seq<Event>, i: nat, leg: Leg)
    requires 0 < i <= |events|
    ensures TimesCarried(events[..i], leg)
         == TimesCarried(events[..i - 1], leg) + if Carries(events[i - 1], leg) then 1 else 0
    ensures TimesSent(events[..i], leg)
         == TimesSent(events[..i - 1], leg) + if Sends(events[i - 1], leg) then 1 else 0
  {
    assert events[..i][..i - 1] == events[..i - 1];
  }

  // ----- sends that find their legs at one count ------------------------------------------------------

  /** The legs of one transaction show the same count. */
  ghost predicate Lockstep(attempts: Attempts) {
    forall l <- attempts, m <- attempts ::
      l.task == m.task && attempts[l].tx == attempts[m].tx ==> attempts[l].submissions == attempts[m].submissions
  }

  /** A send of legs that were put on the wire equally often so far, as legs without an
      attempt are. */
  ghost predicate Even(s: System, e: Event) { EvenOver(s.board.attempts, e) }

  ghost predicate EvenOver(attempts: Attempts, e: Event) {
    forall l, m :: Sends(e, l) && Sends(e, m) ==> Count(attempts, l) == Count(attempts, m)
  }

  lemma StepKeepsLockstep(was: Attempts, e: Event, after: Attempts)
    requires Lockstep(was) && Moves(was, e, after) && EvenOver(was, e)
    ensures Lockstep(after)
  {
    forall l, m | l in after && m in after && l.task == m.task && after[l].tx == after[m].tx
      ensures after[l].submissions == after[m].submissions
    {
      if e.Send? {
        assert Sends(e, l) <==> Sends(e, m);
      } else if e.Resend? {
        assert l in e.legs <==> m in e.legs;
      }
    }
  }

  ghost predicate NeverSent(s: System, leg: Leg) { forall r <- s.sent :: r.leg != leg }

  /** What was carried, against the attempt while there is one and the log when there is not. */
  ghost predicate CountOk(s: System, leg: Leg, n: nat, repeated: nat) {
    && n <= MAX_PAYOUT_SUBMISSIONS + repeated
    && (leg in s.board.attempts ==> n == s.board.attempts[leg].submissions)
    && (NeverSent(s, leg) ==> n == 0)
  }

  lemma SentGrows(s: System, e: Event, s': System, leg: Leg)
    requires Payouts.Enabled(s, e) && s' == Payouts.Do(s, e) && NeverSent(s', leg)
    ensures NeverSent(s, leg) && !Sends(e, leg)
  {
    if e.Send? {
      var built := s.(chain := Blockchain.Do(s.chain, Build(e.tx)));
      SendAllSent(built, e.id, e.recipients, e.tx.outputs, e.source, e.tx, e.now);
      assert forall r <- s.sent :: r in s'.sent;
    }
  }

  /** A leg that is sent without an attempt was never sent before. */
  lemma FirstSend(s: System, e: Event, leg: Leg)
    requires BoardOk(s.board, s.sent) && Payouts.Enabled(s, e) && Sends(e, leg) && leg !in s.board.attempts
    ensures NeverSent(s, leg)
  {
    assert leg.recipient in Unsubmitted(s.board, leg.task);
    NotSentYet(s.board, s.sent, leg);
  }

  lemma AttemptWasSent(s: System, leg: Leg)
    requires AttemptsOk(s.board, s.sent) && leg in s.board.attempts
    ensures !NeverSent(s, leg)
  {
    assert AttemptOk(s.board, s.sent, leg, s.board.attempts[leg]);
    assert SentOf(s.board.attempts[leg]).leg == leg;
  }

  /** What one step says about a leg: sent for the first time, sent again, resent, or left. */
  ghost predicate Accounts(s: System, e: Event, s': System, leg: Leg) {
    && Moves(s.board.attempts, e, s'.board.attempts)
    && (NeverSent(s', leg) ==> NeverSent(s, leg) && !Carries(e, leg))
    && (Sends(e, leg) && leg !in s.board.attempts ==> NeverSent(s, leg))
  }

  lemma StepAccounts(s: System, e: Event, s': System, leg: Leg)
    requires BoardOk(s.board, s.sent) && (forall r <- s.sent :: OnWire(s.chain, r))
    requires Payouts.Enabled(s, e) && s' == Payouts.Do(s, e)
    ensures Accounts(s, e, s', leg)
  {
    StepMoves(s, e);
    if NeverSent(s', leg) {
      SentGrows(s, e, s', leg);
      if e.Resend? && leg in e.legs {
        AttemptWasSent(s, leg);
      }
    }
    if Sends(e, leg) && leg !in s.board.attempts {
      FirstSend(s, e, leg);
    }
  }

  lemma StepAccountsAt(states: seq<System>, events: seq<Event>, i: nat, leg: Leg)
    requires IsRun(states, events) && Initial(states[0]) && i < |events|
    ensures Accounts(states[i], events[i], states[i + 1], leg)
  {
    RunInv(states, events, i);
    assert StepAt(states, events, i);
    StepAccounts(states[i], events[i], states[i + 1], leg);
  }

  lemma StepCounts(s: System, e: Event, s': System, leg: Leg, n: nat, repeated: nat)
    requires Accounts(s, e, s', leg) && Lockstep(s.board.attempts) && CountOk(s, leg, n, repeated)
    ensures CountOk(s', leg, n + (if Carries(e, leg) then 1 else 0), repeated + if Repeats(s, e, leg) then 1 else 0)
  {
    if e.Resend? && leg in e.legs {
      assert s.board.attempts[leg].submissions == e.reading.attempt.submissions;
    }
  }

  lemma {:induction false} RunLockstep(states: seq<System>, events: seq<Event>, i: nat)
    requires IsRun(states, events) && Initial(states[0]) && i < |states|
    requires forall j :: 0 <= j < i ==> Even(states[j], events[j])
    ensures Lockstep(states[i].board.attempts)
  {
    if i > 0 {
      RunLockstep(states, events, i - 1);
      LockstepAt(states, events, i - 1);
    }
  }

  lemma LockstepAt(states: seq<System>, events: seq<Event>, i: nat)
    requires IsRun(states, events) && Initial(states[0]) && i < |events|
    requires Lockstep(states[i].board.attempts) && Even(states[i], events[i])
    ensures Lockstep(states[i + 1].board.attempts)
  {
    StepMovesAt(states, events, i);
    StepKeepsLockstep(states[i].board.attempts, events[i], states[i + 1].board.attempts);
  }

  lemma {:induction false} RunCounted(states: seq<System>, events: seq<Event>, i: nat, leg: Leg)
    requires IsRun(states, events) && Initial(states[0]) && i < |states|
    requires forall j :: 0 <= j < i ==> Even(states[j], events[j])
    ensures CountOk(states[i], leg, TimesCarried(events[..i], leg), TimesRepeated(states, events, i, leg))
    decreases i
  {
    if i > 0 {
      RunCounted(states, events, i - 1, leg);
      RunLockstep(states, events, i - 1);
      StepAccountsAt(states, events, i - 1, leg);
      CountsSnoc(events, i, leg);
      StepCounts(states[i - 1], events[i - 1], states[i], leg,
                 TimesCarried(events[..i - 1], leg), TimesRepeated(states, events, i - 1, leg));
    }
  }

  /** In every run whose sends each find their legs at one count, a leg is put on the wire at
      most four times plus one for each send that found an attempt; and the legs of one
      transaction always show the same count. */
  lemma EvenSendsStayInBudget(states: seq<System>, events: seq<Event>, i: nat, leg: Leg)
    requires IsRun(states, events) && Initial(states[0]) && i < |states|
    requires forall j :: 0 <= j < i ==> Even(states[j], events[j])
    ensures TimesCarried(events[..i], leg) <= MAX_PAYOUT_SUBMISSIONS + TimesRepeated(states, events, i, leg)
    ensures Lockstep(states[i].board.attempts)
  {
    RunCounted(states, events, i, leg);
    RunLockstep(states, events, i);
  }

  lemma UnsubmittedIsEven(s: System, e: Event, leg: Leg)
    requires OfUnsubmitted(s, e)
    ensures Even(s, e) && !Repeats(s, e, leg)
  {
    if e.Send? {
      assert forall l :: Sends(e, l) ==> l.recipient in Unsubmitted(s.board, e.id) && l !in s.board.attempts;
    }
  }

  lemma {:induction false} NeverRepeated(states: seq<System>, events: seq<Event>, i: nat, leg: Leg)
    requires i <= |events| < |states| && forall j :: 0 <= j < i ==> OfUnsubmitted(states[j], events[j])
    ensures TimesRepeated(states, events, i, leg) == 0
  {
    if i > 0 {
      NeverRepeated(states, events, i - 1, leg);
      UnsubmittedIsEven(states[i - 1], events[i - 1], leg);
    }
  }

  /** With sends of unsubmitted legs only, no task and recipient is put on the wire more than
      four times, first send and resends together. */
  lemma SubmissionsStayInBudget(states: seq<System>, events: seq<Event>, i: nat, leg: Leg)
    requires IsRun(states, events) && Initial(states[0]) && i < |states|
    requires forall j :: 0 <= j < i ==> OfUnsubmitted(states[j], events[j])
    ensures TimesCarried(events[..i], leg) <= MAX_PAYOUT_SUBMISSIONS && Lockstep(states[i].board.attempts)
  {
    forall j | 0 <= j < i ensures Even(states[j], events[j]) { UnsubmittedIsEven(states[j], events[j], leg); }
    EvenSendsStayInBudget(states, events, i, leg);
    NeverRepeated(states, events, i, leg);
  }

  // ----- every run ------------------------------------------------------------------------------------

  /** How often a leg was carried since it was last sent, one event on. */
  function Next(e: Event, leg: Leg, n: nat): nat {
    if Sends(e, leg) then 1 else if Carries(e, leg) then n + 1 else n
  }

  function Since(events: seq<Event>, leg: Leg): nat {
    if events == [] then 0 else Next(events[|events| - 1], leg, Since(events[..|events| - 1], leg))
  }

  /** Within a send the count cannot pass the budget, whatever the attempts had before. */
  ghost predicate SinceOk(attempts: Attempts, events: seq<Event>) {
    && (forall l :: Since(events, l) <= MAX_PAYOUT_SUBMISSIONS)
    && (forall l <- attempts :: 1 <= Since(events, l) <= attempts[l].submissions)
    && (forall l <- attempts, m <- attempts ::
          l.task == m.task && attempts[l].tx == attempts[m].tx ==> Since(events, l) == Since(events, m))
  }

  lemma StepKeepsSince(was: Attempts, e: Event, after: Attempts, events: seq<Event>, events': seq<Event>)
    requires SinceOk(was, events) && Moves(was, e, after) && events' == events + [e]
    ensures SinceOk(after, events')
  {
    assert events'[..|events'| - 1] == events;
    forall l ensures Since(events', l) == Next(e, l, Since(events, l)) {}
    forall l ensures Since(events', l) <= MAX_PAYOUT_SUBMISSIONS {
      if e.Resend? && l in e.legs {
        ResendHasRoom(was, e.reading.attempt, e.legs, after, events, l);
      }
    }
    forall l, m | l in after && m in after && l.task == m.task && after[l].tx == after[m].tx
      ensures Since(events', l) == Since(events', m)
    {
      if e.Send? {
        assert Sends(e, l) <==> Sends(e, m);
      } else if e.Resend? {
        assert l in e.legs <==> m in e.legs;
      }
    }
  }

  lemma ResendHasRoom(
    was: Attempts, a: Attempt, legs: seq<Leg>, after: Attempts, events: seq<Event>, leg: Leg)
    requires SinceOk(was, events) && ResendMoves(was, a, legs, after) && leg in legs
    ensures Since(events, leg) < MAX_PAYOUT_SUBMISSIONS
  {
    assert Since(events, leg) == Since(events, a.leg);
  }

  lemma {:induction false} RunSince(states: seq<System>, events: seq<Event>, i: nat)
    requires IsRun(states, events) && Initial(states[0]) && i < |states|
    ensures SinceOk(states[i].board.attempts, events[..i])
  {
    if i > 0 {
      RunSince(states, events, i - 1);
      StepMovesAt(states, events, i - 1);
      assert events[..i] == events[..i - 1] + [events[i - 1]];
      StepKeepsSince(states[i - 1].board.attempts, events[i - 1], states[i].board.attempts,
                     events[..i - 1], events[..i]);
    }
  }

  lemma SinceBounded(states: seq<System>, events: seq<Event>, i: nat, leg: Leg)
    requires IsRun(states, events) && Initial(states[0]) && i < |states|
    ensures Since(events[..i], leg) <= MAX_PAYOUT_SUBMISSIONS
  {
    RunSince(states, events, i);
  }

  /** What was carried fills the earlier sends at most, and the last one by the count since. */
  ghost predicate Filled(attempts: Attempts, leg: Leg, carried: nat, sent: nat, since: nat) {
    if sent == 0 then carried == 0 && leg !in attempts
    else carried + MAX_PAYOUT_SUBMISSIONS <= MAX_PAYOUT_SUBMISSIONS * sent + since
  }

  lemma StepKeepsFilled(
    was: Attempts, e: Event, after: Attempts, leg: Leg, carried: nat, sent: nat, since: nat)
    requires Moves(was, e, after) && Filled(was, leg, carried, sent, since) && since <= MAX_PAYOUT_SUBMISSIONS
    ensures Filled(after, leg, carried + (if Carries(e, leg) then 1 else 0), sent + (if Sends(e, leg) then 1 else 0),
                   Next(e, leg, since))
  {
  }

  lemma {:induction false} RunFilled(states: seq<System>, events: seq<Event>, i: nat, leg: Leg)
    requires IsRun(states, events) && Initial(states[0]) && i < |states|
    ensures Filled(states[i].board.attempts, leg, TimesCarried(events[..i], leg), TimesSent(events[..i], leg),
                   Since(events[..i], leg))
  {
    if i > 0 {
      RunFilled(states, events, i - 1, leg);
      FilledAt(states, events, i - 1, leg);
    }
  }

  lemma FilledAt(states: seq<System>, events: seq<Event>, i: nat, leg: Leg)
    requires IsRun(states, events) && Initial(states[0]) && i < |events|
    requires Filled(states[i].board.attempts, leg, TimesCarried(events[..i], leg), TimesSent(events[..i], leg),
                    Since(events[..i], leg))
    ensures Filled(states[i + 1].board.attempts, leg, TimesCarried(events[..i + 1], leg),
                   TimesSent(events[..i + 1], leg), Since(events[..i + 1], leg))
  {
    SinceBounded(states, events, i, leg);
    StepMovesAt(states, events, i);
    CountsSnoc(events, i + 1, leg);
    assert events[..i + 1][..i] == events[..i];
    StepKeepsFilled(states[i].board.attempts, events[i], states[i + 1].board.attempts, leg,
                    TimesCarried(events[..i], leg), TimesSent(events[..i], leg), Since(events[..i], leg));
  }

  /** In every run, whatever is sent when: a leg is put on the wire at most four times for each
      time it was sent. */
  lemma FourTimesPerSend(states: seq<System>, events: seq<Event>, i: nat, leg: Leg)
    requires IsRun(states, events) && Initial(states[0]) && i < |states|
    ensures TimesCarried(events[..i], leg) <= MAX_PAYOUT_SUBMISSIONS * TimesSent(events[..i], leg)
  {
    RunFilled(states, events, i, leg);
    SinceBounded(states, events, i, leg);
  }
}
