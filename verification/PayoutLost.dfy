// A payment that never lands: the sweep resends it until its budget is spent and then gives
// the task up; and what a settlement does that records its payment only after that.

module PayoutLost {
  import opened Basics
  import opened Tasks
  import opened TaskInvariant
  import opened Blockchain
  import opened PayoutOutcome
  import opened Payouts
  import opened PayoutInvariant
  import opened PayoutRuns
  import opened PayoutSends
  import opened PayoutBudget

  /** Nothing is sent. */
  predicate NoSends(events: seq<Event>) { forall i :: 0 <= i < |events| ==> !events[i].Send? }

  lemma NoSendInTwo(e: Event, e': Event)
    requires !e.Send? && !e'.Send?
    ensures NoSends([e]) && NoSends([e, e'])
  {
  }

  lemma NoSendsOn(events: seq<Event>, events': seq<Event>)
    requires NoSends(events) && NoSends(events')
    ensures NoSends(events + events')
  {
  }

  // ----- the sweep reads a lost payment --------------------------------------------------------

  /** In flight as the hub remembers it, and nowhere on the chain. */
  ghost predicate Lost(s: System, leg: Leg) {
    && leg in s.board.attempts && s.board.attempts[leg].tx !in s.chain.mined
    && forall h <- s.board.attempts[leg].tx.inputs :: Unspent(s.chain, h) && h !in s.chain.marked
  }

  lemma ViewExists(c: Chain, owner: PublicKey) returns (view: seq<Entry>)
    requires OutsOk(c)
    ensures IsView(c, owner, view)
  {
    var own := set h <- c.outs | Unspent(c, h) && c.outs[h].owner == owner;
    var q := Listed(own);
    view := seq(|q|, i requires 0 <= i < |q| => Entry(q[i] in c.marked, c.outs[q[i]]));
    forall h | h in c.outs && Unspent(c, h) && c.outs[h].owner == owner ensures Holds(view, h) {
      assert h in own;
      var i :| 0 <= i < |q| && q[i] == h;
      assert view[i] in view;
    }
  }

  /** An attempt's payment, as the chain would hold it. */
  lemma AttemptOnWire(s: System, leg: Leg)
    requires Inv(s) && leg in s.board.attempts
    ensures
      var a := s.board.attempts[leg];
      a.leg == leg && OnWire(s.chain, SentOf(a)) && a.spentInputs == a.tx.inputs
  {
    assert AttemptOk(s.board, s.sent, leg, s.board.attempts[leg]);
  }

  /** Whatever the two reads return, they say that it never landed. */
  lemma LostReadsNeverLanded(c: Chain, a: Attempt, recipientView: seq<Entry>, sourceView: seq<Entry>)
    requires ChainOk(c) && OnWire(c, SentOf(a)) && a.spentInputs == a.tx.inputs && a.tx !in c.mined
    requires forall h <- a.tx.inputs :: Unspent(c, h) && h !in c.marked
    requires IsView(c, a.leg.recipient, recipientView) && IsView(c, a.source, sourceView)
    ensures ResolveAgainst(a.outputHash, a.spentInputs, recipientView, sourceView).NeverLanded?
  {
    var o :| o in a.tx.outputs && PaysLeg(SentOf(a), o);
    assert !Holds(recipientView, a.outputHash);
    forall h | h in a.spentInputs ensures FirstMark(sourceView, h) == Some(false) {
      ViewMark(c, a.source, sourceView, h);
    }
  }

  /** The sweep's two reads of a lost payment. */
  lemma ReadLost(s: System, leg: Leg) returns (states: seq<System>, events: seq<Event>, s': System)
    requires Inv(s) && Lost(s, leg)
    ensures Leads(s, states, events, s') && Inv(s') && s' == s.(readings := s'.readings)
    ensures BothRead(s.board.attempts[leg], NeverLanded) in s'.readings && NoSends(events)
  {
    var a := s.board.attempts[leg];
    AttemptOnWire(s, leg);
    var recipientView := ViewExists(s.chain, leg.recipient);
    var sourceView := ViewExists(s.chain, a.source);
    LostReadsNeverLanded(s.chain, a, recipientView, sourceView);
    states, events, s' := ReadTwice(s, leg, recipientView, sourceView);
  }

  lemma ReadTwice(s: System, leg: Leg, recipientView: seq<Entry>, sourceView: seq<Entry>)
    returns (states: seq<System>, events: seq<Event>, s': System)
    requires Inv(s) && leg in s.board.attempts
    requires IsView(s.chain, leg.recipient, recipientView) && IsView(s.chain, s.board.attempts[leg].source, sourceView)
    ensures Leads(s, states, events, s') && Inv(s') && s' == s.(readings := s'.readings)
    ensures
      var a := s.board.attempts[leg];
      BothRead(a, ResolveAgainst(a.outputHash, a.spentInputs, recipientView, sourceView)) in s'.readings
    ensures NoSends(events)
  {
    var a := s.board.attempts[leg];
    var r := RecipientRead(a, s.chain, recipientView);
    states, events, s' := LeadsTwo(s, ReadRecipient(leg, recipientView), ReadSource(r, sourceView));
    LeadsKeepsInv(s, states, events, 2);
    NoSendInTwo(ReadRecipient(leg, recipientView), ReadSource(r, sourceView));
  }

  // ----- resent, then given up --------------------------------------------------------------------

  /** One more submission of a lost payment that has budget left. */
  lemma ResendLost(s: System, leg: Leg, legs: seq<Leg>)
    returns (states: seq<System>, events: seq<Event>, s': System)
    requires Inv(s) && Lost(s, leg) && s.board.attempts[leg].submissions < MAX_PAYOUT_SUBMISSIONS
    requires s.board.attempts[leg].leg == leg && LegsOf(s.board, s.board.attempts[leg], legs)
    ensures Leads(s, states, events, s') && Inv(s') && s'.chain == s.chain && s'.sent == s.sent
    ensures ResendMoves(s.board.attempts, s.board.attempts[leg], legs, s'.board.attempts) && NoSends(events)
  {
    var st1, ev1, s1 := ReadLost(s, leg);
    var st2, ev2;
    st2, ev2, s' := ResendRead(s1, s.board.attempts[leg], legs);
    NoSendsOn(ev1, ev2);
    states := LeadsOn(s, st1, ev1, s1, st2, ev2, s');
    events := ev1 + ev2;
  }

  lemma LegsExist(b: Board, a: Attempt) returns (legs: seq<Leg>)
    ensures LegsOf(b, a, legs)
  {
    var s := set l <- b.attempts | l.task == a.leg.task && b.attempts[l].tx == a.tx;
    legs := Listed(s);
    forall l ensures l in legs <==> l in s {
      if l in legs {
        var i :| 0 <= i < |legs| && legs[i] == l;
      }
    }
  }

  lemma ResendRead(s: System, a: Attempt, legs: seq<Leg>) returns (states: seq<System>, events: seq<Event>, s': System)
    requires Inv(s) && BothRead(a, NeverLanded) in s.readings && LegsOf(s.board, a, legs)
    requires a.leg in s.board.attempts && s.board.attempts[a.leg] == a && a.submissions < MAX_PAYOUT_SUBMISSIONS
    ensures Leads(s, states, events, s') && Inv(s') && s'.chain == s.chain && s'.sent == s.sent
    ensures ResendMoves(s.board.attempts, a, legs, s'.board.attempts) && NoSends(events)
  {
    var e := Resend(BothRead(a, NeverLanded), legs, 0);
    states, events, s' := LeadsOne(s, e);
    StepKeepsInv(s, e);
    ResendStepMoves(s, e);
    NoSendInTwo(e, e);
  }

  /** A lost payment that has spent its budget is given up. */
  lemma AbandonLost(s: System, leg: Leg) returns (states: seq<System>, events: seq<Event>, s': System)
    requires Inv(s) && Lost(s, leg) && s.board.attempts[leg].submissions >= MAX_PAYOUT_SUBMISSIONS
    ensures Leads(s, states, events, s') && Inv(s') && s'.chain == s.chain && s'.sent == s.sent
    ensures leg.task in s.board.tasks
    ensures s'.board.tasks == s.board.tasks[leg.task := s.board.tasks[leg.task].(status := PayoutFailed)]
  {
    var a := s.board.attempts[leg];
    assert AttemptOk(s.board, s.sent, leg, a);
    var st1, ev1, s1 := ReadLost(s, leg);
    var e := Abandon(BothRead(a, NeverLanded));
    var st2, ev2;
    st2, ev2, s' := LeadsOne(s1, e);
    StepKeepsInv(s1, e);
    states := LeadsOn(s, st1, ev1, s1, st2, ev2, s');
    events := ev1 + ev2;
  }

  lemma ResentStaysLost(s: System, leg: Leg, legs: seq<Leg>, s': System)
    requires Lost(s, leg) && s'.chain == s.chain && s.board.attempts[leg].leg == leg
    requires ResendMoves(s.board.attempts, s.board.attempts[leg], legs, s'.board.attempts)
    ensures Lost(s', leg) && s'.board.attempts[leg].submissions == s.board.attempts[leg].submissions + 1
  {
    assert leg in legs;
  }

  /** A payment that never lands is resent while it has budget and then given up, from any
      state of any run, whatever else is in flight. */
  lemma {:induction false} LostIsGivenUp(s: System, leg: Leg)
    returns (states: seq<System>, events: seq<Event>, s': System)
    requires Inv(s) && Lost(s, leg)
    ensures Leads(s, states, events, s') && Inv(s') && s'.chain == s.chain && s'.sent == s.sent
    ensures leg.task in s'.board.tasks && s'.board.tasks[leg.task].status.PayoutFailed?
    decreases MAX_PAYOUT_SUBMISSIONS - s.board.attempts[leg].submissions
  {
    if s.board.attempts[leg].submissions >= MAX_PAYOUT_SUBMISSIONS {
      states, events, s' := AbandonLost(s, leg);
    } else {
      AttemptOnWire(s, leg);
      var legs := LegsExist(s.board, s.board.attempts[leg]);
      var st1, ev1, s1 := ResendLost(s, leg, legs);
      ResentStaysLost(s, leg, legs, s1);
      var st2, ev2;
      st2, ev2, s' := LostIsGivenUp(s1, leg);
      states := LeadsOn(s, st1, ev1, s1, st2, ev2, s');
      events := ev1 + ev2;
    }
  }

  // ----- a send that finds its legs at different counts ------------------------------------------

  /** Every leg that rides with `leg` has been carried `n` times more. */
  ghost predicate CarriedOn(was: Attempts, leg: Leg, n: nat, after: Attempts) {
    && leg in was && after.Keys == was.Keys && (forall l <- was :: after[l].tx == was[l].tx)
    && forall l <- was ::
         l.task == leg.task && was[l].tx == was[leg].tx ==> after[l].submissions == was[l].submissions + n
  }

  lemma CarriedOnOnce(was: Attempts, leg: Leg, legs: seq<Leg>, mid: Attempts, n: nat, after: Attempts)
    requires leg in was && was[leg].leg == leg && ResendMoves(was, was[leg], legs, mid) && CarriedOn(mid, leg, n, after)
    ensures CarriedOn(was, leg, n + 1, after)
  {
  }

  /** A lost payment is resent as long as the leg that is asked about has budget, and every
      other leg of its transaction is carried along. */
  lemma {:induction false} ResendToTheLimit(s: System, leg: Leg)
    returns (states: seq<System>, events: seq<Event>, s': System)
    requires Inv(s) && Lost(s, leg) && s.board.attempts[leg].submissions <= MAX_PAYOUT_SUBMISSIONS
    ensures Leads(s, states, events, s') && NoSends(events) && s'.chain == s.chain
    ensures
      var left := MAX_PAYOUT_SUBMISSIONS - s.board.attempts[leg].submissions;
      CarriedOn(s.board.attempts, leg, left, s'.board.attempts)
    decreases MAX_PAYOUT_SUBMISSIONS - s.board.attempts[leg].submissions
  {
    if s.board.attempts[leg].submissions == MAX_PAYOUT_SUBMISSIONS {
      LeadsNowhere(s);
      return [s], [], s;
    }
    AttemptOnWire(s, leg);
    var legs := LegsExist(s.board, s.board.attempts[leg]);
    var st1, ev1, s1 := ResendLost(s, leg, legs);
    ResentStaysLost(s, leg, legs, s1);
    var st2, ev2;
    st2, ev2, s' := ResendToTheLimit(s1, leg);
    CarriedOnOnce(s.board.attempts, leg, legs, s1.board.attempts,
                  MAX_PAYOUT_SUBMISSIONS - s1.board.attempts[leg].submissions, s'.board.attempts);
    NoSendsOn(ev1, ev2);
    states := LeadsOn(s, st1, ev1, s1, st2, ev2, s');
    events := ev1 + ev2;
  }

  /** Four per send is exact: one send of `leg` together with a leg that has no attempt yet lets
      the hub carry `leg` four more times, whatever its count was. */
  lemma UnevenSendRefills(s: System, e: Event, leg: Leg, other: Leg)
    returns (states: seq<System>, events: seq<Event>, s': System)
    requires Inv(s) && Payouts.Enabled(s, e) && Sends(e, leg) && Sends(e, other) && other !in s.board.attempts
    requires forall h <- e.tx.inputs :: h !in s.chain.marked
    ensures Leads(s, states, [e] + events, s') && NoSends(events) && leg in s'.board.attempts
    ensures s'.board.attempts[leg].submissions == Count(s.board.attempts, leg) + MAX_PAYOUT_SUBMISSIONS
  {
    var st1, ev1, s1 := LeadsOne(s, e);
    SentIsLost(s, e, s1, other);
    var st2;
    st2, events, s' := RefillFrom(s.board.attempts, e, s1, leg, other);
    states := LeadsOn(s, st1, ev1, s1, st2, events, s');
  }

  lemma RefillFrom(was: Attempts, e: Event, s: System, leg: Leg, other: Leg)
    returns (states: seq<System>, events: seq<Event>, s': System)
    requires Inv(s) && Lost(s, other) && e.Send? && SendMoves(was, e, s.board.attempts)
    requires Sends(e, leg) && Sends(e, other) && other !in was
    ensures Leads(s, states, events, s') && NoSends(events) && leg in s'.board.attempts
    ensures s'.board.attempts[leg].submissions == Count(was, leg) + MAX_PAYOUT_SUBMISSIONS
  {
    states, events, s' := ResendToTheLimit(s, other);
    Refilled(was, e, s.board.attempts, leg, other, s'.board.attempts);
  }

  lemma Refilled(was: Attempts, e: Event, mid: Attempts, leg: Leg, other: Leg, after: Attempts)
    requires e.Send? && SendMoves(was, e, mid) && Sends(e, leg) && Sends(e, other) && other !in was
    requires CarriedOn(mid, other, MAX_PAYOUT_SUBMISSIONS - 1, after)
    ensures leg in after && after[leg].submissions == Count(was, leg) + MAX_PAYOUT_SUBMISSIONS
  {
  }

  /** A payment that was recorded and not yet submitted is on no chain. */
  lemma SentIsLost(s: System, e: Event, s': System, leg: Leg)
    requires Inv(s) && Payouts.Enabled(s, e) && s' == Payouts.Do(s, e) && Sends(e, leg)
    requires forall h <- e.tx.inputs :: h !in s.chain.marked
    ensures Inv(s') && SendMoves(s.board.attempts, e, s'.board.attempts) && Lost(s', leg)
  {
    StepKeepsInv(s, e);
    SendStepMoves(s, e);
    SendRecords(s, e, s');
    SpendsNow(s, e);
    NotMinedYet(s.chain, e.tx, s'.chain);
  }

  lemma NotMinedYet(c: Chain, tx: Tx, c': Chain)
    requires ChainOk(c) && Blockchain.Enabled(c, Build(tx)) && CanSpend(c, tx) && c' == Blockchain.Do(c, Build(tx))
    ensures tx !in c'.mined && c'.marked == c.marked && forall h <- tx.inputs :: Unspent(c', h)
  {
  }

  // ----- a settlement recorded late -----------------------------------------------------------------

  /** What a status promises of an attempt: its task is payable and owes it that amount. */
  ghost predicate Truthful(b: Board, leg: Leg) {
    leg in b.attempts ==>
      && leg.task in b.tasks && Payable(b.tasks[leg.task].status)
      && leg.recipient in Owed(b.tasks[leg.task]) && Owed(b.tasks[leg.task])[leg.recipient] == b.attempts[leg].amount
  }

  /** `record_payout_attempt` checks no status. A settlement of a leg that was sent before is
      recorded truthfully exactly when, at that moment, its task is still payable and the
      recipient not yet paid. */
  lemma LateRecordIff(s: System, a: Attempt, r: Sent)
    requires BoardOk(s.board, s.sent) && r in s.sent && r.leg == a.leg && r.amount == a.amount
    ensures a.leg.task in s.board.tasks
    ensures
      var t := s.board.tasks[a.leg.task];
      Truthful(RecordAttempt(s.board, a), a.leg) <==> Payable(t.status) && !IsPaid(t, a.leg.recipient)
  {
    assert LegOk(s.board, r);
    if s.board.tasks[a.leg.task].status.Verified? {
      MarkedSubmitted(s.board.tasks[a.leg.task]);
    }
  }

  /** A run in which one step and one send are followed by giving the sent leg up. */
  lemma GivenUpAfter(s: System, e: Event, send: Event, leg: Leg)
    returns (states: seq<System>, events: seq<Event>, s': System)
    requires Initial(s) && Payouts.Enabled(s, e) && Payouts.Enabled(Payouts.Do(s, e), send)
    requires Lost(Payouts.Do(Payouts.Do(s, e), send), leg)
    ensures IsRun(states, events) && |states| > 2 && states[0] == s && states[|states| - 1] == s'
    ensures states[2] == Payouts.Do(Payouts.Do(s, e), send) && Inv(states[2]) && Inv(s') && s'.sent == states[2].sent
    ensures leg.task in s'.board.tasks && s'.board.tasks[leg.task].status.PayoutFailed?
  {
    InitialOk(s);
    StepKeepsInv(s, e);
    StepKeepsInv(Payouts.Do(s, e), send);
    var st1, ev1, s2 := LeadsTwo(s, e, send);
    var st2, ev2;
    st2, ev2, s' := LostIsGivenUp(s2, leg);
    states := LeadsOn(s, st1, ev1, s2, st2, ev2, s');
    events := ev1 + ev2;
  }

  lemma FirstCanBeSent(s: System)
    requires s.board.tasks == map[TASK := CLAIMED.(status := Verified)]
    requires s.chain == Chain({Hash(0), Hash(1)}, {}, {}, map[Hash(0) := PART_A, Hash(1) := PART_B], {}, [], {}, {})
    ensures Payouts.Enabled(s, FIRST) && Sends(FIRST, LEG) && forall h <- FIRST.tx.inputs :: h !in s.chain.marked
    ensures Owed(s.board.tasks[TASK]) == map[WORKER := 5]
  {
    PartsRace(s);
    assert Owed(CLAIMED.(status := Verified)) == map[WORKER := 5];
  }

  /** The second settlement's record of its payment. */
  function Late(b: Board): Attempt { NewAttempt(b, LEG, SECOND.tx.outputs[0], DEPOSIT, SECOND.tx, 0) }

  /** What was sent for an attempt. */
  lemma SentFor(s: System, leg: Leg) returns (r: Sent)
    requires AttemptsOk(s.board, s.sent) && leg in s.board.attempts
    ensures r in s.sent && r.leg == leg && leg.task in s.board.tasks && leg.recipient in Owed(s.board.tasks[leg.task])
    ensures r.amount == Owed(s.board.tasks[leg.task])[leg.recipient]
  {
    assert AttemptOk(s.board, s.sent, leg, s.board.attempts[leg]);
    r := SentOf(s.board.attempts[leg]);
  }

  lemma LateIsUntruthful(s: System, r: Sent)
    requires BoardOk(s.board, s.sent) && r in s.sent && r.leg == LEG && r.amount == 5
    requires TASK in s.board.tasks && s.board.tasks[TASK].status.PayoutFailed?
    ensures
      var late := RecordAttempt(s.board, Late(s.board));
      LEG in late.attempts && late.tasks == s.board.tasks && !Truthful(late, LEG)
  {
    LateRecordIff(s, Late(s.board), r);
  }

  /** The failing run: the worker's payment is owed and sent, never lands, and the task is given
      up. A second settlement that read the debt before is recorded after: the failed task then
      holds an attempt. */
  lemma RecordedAfterGivingUp() returns (states: seq<System>, events: seq<Event>, late: Board)
    ensures IsRun(states, events) && |states| > 2 && Initial(states[0])
    ensures TASK in states[2].board.tasks && Payable(states[2].board.tasks[TASK].status)
    ensures Owed(states[2].board.tasks[TASK]) == map[WORKER := 5]
    ensures late == RecordAttempt(states[|states| - 1].board, Late(states[|states| - 1].board))
    ensures LEG in late.attempts && TASK in late.tasks && late.tasks[TASK].status.PayoutFailed? && !Truthful(late, LEG)
  {
    var s0 := TwoPartsInitial();
    VerifiedOwes(s0);
    InitialOk(s0);
    StepKeepsInv(s0, VERIFY);
    FirstCanBeSent(Payouts.Do(s0, VERIFY));
    SentIsLost(Payouts.Do(s0, VERIFY), FIRST, Payouts.Do(Payouts.Do(s0, VERIFY), FIRST), LEG);
    SendRecords(Payouts.Do(s0, VERIFY), FIRST, Payouts.Do(Payouts.Do(s0, VERIFY), FIRST));
    var s;
    states, events, s := GivenUpAfter(s0, VERIFY, FIRST, LEG);
    var r := SentFor(states[2], LEG);
    LateIsUntruthful(s, r);
    late := RecordAttempt(s.board, Late(s.board));
  }
}
