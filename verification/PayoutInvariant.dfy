// What every step of the payout protocol keeps.

module PayoutInvariant {
  import opened Basics
  import opened MapSums
  import opened Tasks
  import opened TaskInvariant
  import opened Blockchain
  import opened PayoutOutcome
  import opened Payouts
  import TaskRuns

  ghost const CONFIRMED: Task -> int := t => Total(PaidOut(t))
  const EARNED: Reputation -> int := (r: Reputation) => r.totalEarned

  ghost predicate TasksOk(b: Board) {
    forall id <- b.tasks :: b.tasks[id].id == id && TaskOk(b.tasks[id])
  }

  /** Every attempt is for a recipient its task still owes, at the amount owed, and was
      sent. A terminal task holds none. */
  ghost predicate AttemptsOk(b: Board, sent: seq<Sent>) {
    forall leg <- b.attempts :: AttemptOk(b, sent, leg, b.attempts[leg])
  }

  ghost predicate AttemptOk(b: Board, sent: seq<Sent>, leg: Leg, a: Attempt) {
    && a.leg == leg && leg.task in b.tasks && Payable(b.tasks[leg.task].status)
    && leg.recipient in Owed(b.tasks[leg.task]) && Owed(b.tasks[leg.task])[leg.recipient] == a.amount
    && SentOf(a) in sent && a.spentInputs == a.tx.inputs
  }

  /** `Submitted` means every owed recipient has a transaction in flight. */
  ghost predicate SubmittedOk(b: Board) {
    forall id <- b.tasks :: b.tasks[id].status.Submitted? ==> forall k <- Owed(b.tasks[id]) :: Leg(id, k) in b.attempts
  }

  /** Where a sent leg stands: in flight, paid, or given up with its task. */
  ghost predicate LegOk(b: Board, r: Sent) {
    && r.leg.task in b.tasks
    && var t := b.tasks[r.leg.task];
       && Decided(t.status) && r.leg.recipient in Allocated(t) && Allocated(t)[r.leg.recipient] == r.amount
       && (r.leg in b.attempts || IsPaid(t, r.leg.recipient) || t.status.PayoutFailed?)
  }

  ghost predicate BoardOk(b: Board, sent: seq<Sent>) {
    TasksOk(b) && AttemptsOk(b, sent) && SubmittedOk(b) && (forall r <- sent :: LegOk(b, r))
  }

  ghost predicate PaysLeg(r: Sent, o: Output) {
    o.hash == r.outputHash && o.owner == r.leg.recipient && o.value == r.amount
  }

  ghost predicate OnWire(c: Chain, r: Sent) {
    && r.tx in c.built && r.tx.inputs != []
    && (exists o <- r.tx.outputs :: PaysLeg(r, o))
    && (forall h <- r.tx.inputs :: h in c.outs && c.outs[h].owner == r.source)
  }

  ghost predicate ReadingOk(c: Chain, sent: seq<Sent>, r: Reading) {
    && SentOf(r.attempt) in sent && r.attempt.spentInputs == r.attempt.tx.inputs
    && match r
       case RecipientRead(a, at, view) =>
         ChainOk(at) && Grows(at, c) && OnWire(at, SentOf(a)) && IsView(at, a.leg.recipient, view)
       case BothRead(a, outcome) => outcome.Confirmed? ==> a.tx in c.mined
  }

  ghost predicate ReadingsOk(s: System) {
    forall r <- s.readings :: ReadingOk(s.chain, s.sent, r)
  }

  /** Every credit is for a mined payment of that amount, and marked on its task. */
  ghost predicate CreditOk(s: System, c: Credit) {
    && c.leg.task in s.board.tasks && c.leg.recipient in PaidOut(s.board.tasks[c.leg.task])
    && PaidOut(s.board.tasks[c.leg.task])[c.leg.recipient] == c.amount
    && exists r <- s.sent :: r.leg == c.leg && r.amount == c.amount && r.tx in s.chain.mined
  }

  ghost predicate CreditsOk(s: System) {
    && (forall c <- s.credits :: CreditOk(s, c))
    && (forall i, j :: 0 <= i < j < |s.credits| ==> s.credits[i].leg != s.credits[j].leg)
    && (forall id <- s.board.tasks, k <- PaidOut(s.board.tasks[id]) ::
          Credit(Leg(id, k), PaidOut(s.board.tasks[id])[k]) in s.credits)
  }

  ghost predicate EarnedOk(s: System) {
    Sum(s.board.reputation, EARNED) == Sum(s.board.tasks, CONFIRMED) + s.forfeited
  }

  ghost predicate Inv(s: System) {
    && ChainOk(s.chain) && BoardOk(s.board, s.sent) && (forall r <- s.sent :: OnWire(s.chain, r))
    && ReadingsOk(s) && CreditsOk(s) && EarnedOk(s)
  }

  lemma InitialOk(s: System)
    requires Initial(s)
    ensures Inv(s)
  {
    forall id | id in s.board.tasks ensures PaidOut(s.board.tasks[id]) == map[] {
      UndecidedPaysNothing(s.board.tasks[id]);
    }
    SumZero(s.board.tasks, CONFIRMED);
  }

  lemma UndecidedPaysNothing(t: Task)
    requires TaskOk(t) && !Decided(t.status)
    ensures PaidOut(t) == map[] && Total(PaidOut(t)) == 0
  {
  }

  // ----- the chain moves ----------------------------------------------------------------

  lemma WireGrows(c: Chain, c': Chain, r: Sent)
    requires Grows(c, c') && OnWire(c, r)
    ensures OnWire(c', r)
  {
  }

  lemma ChainKeepsInv(s: System, step: Blockchain.Step)
    requires Inv(s) && Blockchain.Enabled(s.chain, step)
    ensures Inv(s.(chain := Blockchain.Do(s.chain, step)))
  {
    var c, c' := s.chain, Blockchain.Do(s.chain, step);
    var s' := s.(chain := c');
    StepKeepsOk(c, step);
    forall r | r in s.sent ensures OnWire(c', r) { WireGrows(c, c', r); }
    forall r | r in s.readings ensures ReadingOk(c', s.sent, r) {
      match r
      case RecipientRead(a, at, view) => GrowsTransitive(at, c, c');
      case BothRead(a, outcome) => MinedStaysMined(c, c', a.tx);
    }
    forall x | x in s.credits ensures CreditOk(s', x) {
      assert CreditOk(s, x);
      var r :| r in s.sent && r.leg == x.leg && r.amount == x.amount && r.tx in c.mined;
      MinedStaysMined(c, c', r.tx);
    }
  }

  // ----- the board moves --------------------------------------------------------------

  /** Nothing but the payout methods touches a decided task. */
  lemma DecidedInert(t: Task, op: Op)
    requires Decided(t.status) && Apply(t, op).Done? && !op.MarkPaid? && !op.MarkSubmitted? && !op.MarkFailed?
    ensures Apply(t, op).task == t
  {
  }

  lemma UndecidedStep(t: Task, op: Op)
    requires TaskOk(t) && !Decided(t.status) && Apply(t, op).Done?
    requires !op.MarkPaid? && !op.MarkSubmitted? && !op.MarkFailed?
    ensures TaskOk(Apply(t, op).task) && !Apply(t, op).task.status.Submitted? && Apply(t, op).task.id == t.id
    ensures PaidOut(Apply(t, op).task) == map[] && Total(PaidOut(Apply(t, op).task)) == 0
  {
    ApplyKeepsOk(t, op);
    var t' := Apply(t, op).task;
    TaskRuns.StepProgress(t, op, t');
    StaysUnpaid(t, op);
    if !Decided(t'.status) {
      UndecidedPaysNothing(t');
    } else {
      assert forall k :: !IsPaid(t', k);
      assert PaidOut(t') == map[];
    }
  }

  lemma StaysUnpaid(t: Task, op: Op)
    requires TaskOk(t) && !Decided(t.status) && Apply(t, op).Done?
    requires !op.MarkPaid? && !op.MarkSubmitted? && !op.MarkFailed?
    ensures Decided(Apply(t, op).task.status) ==>
      Apply(t, op).task.status.Verified? && forall k :: !IsPaid(Apply(t, op).task, k)
  {
    if op.Pick? {
      FindAnswerInRange(t.kind.answers, op.answerer);
    } else if op.SubmitConsensus? {
      VoteStaysUnpaid(t, op.agent, op.answer, op.now);
    }
  }

  lemma VoteStaysUnpaid(t: Task, agent: PublicKey, answer: string, now: Time)
    requires TaskOk(t) && !Decided(t.status) && ApplySubmitConsensus(t, agent, answer, now).Done?
    ensures
      var t' := ApplySubmitConsensus(t, agent, answer, now).task;
      Decided(t'.status) ==> t'.status.Verified? && forall k :: !IsPaid(t', k)
  {
  }

  /** No attempt, sent payment or credit points at an undecided task. */
  lemma UntouchedByUndecided(s: System, id: Uuid)
    requires Inv(s) && (id in s.board.tasks ==> !Decided(s.board.tasks[id].status))
    ensures forall leg <- s.board.attempts :: leg.task != id
    ensures forall r <- s.sent :: r.leg.task != id
    ensures forall c <- s.credits :: c.leg.task != id
  {
  }

  // What an attempt, a sent payment or a credit says only depends on its own task.

  lemma AttemptFrame(b: Board, b': Board, sent: seq<Sent>, leg: Leg)
    requires leg in b.attempts && AttemptOk(b, sent, leg, b.attempts[leg])
    requires leg.task in b'.tasks && b'.tasks[leg.task] == b.tasks[leg.task]
    ensures AttemptOk(b', sent, leg, b.attempts[leg])
  {
  }

  lemma LegFrame(b: Board, b': Board, r: Sent)
    requires LegOk(b, r) && r.leg.task in b'.tasks && b'.tasks[r.leg.task] == b.tasks[r.leg.task]
    requires r.leg in b.attempts ==> r.leg in b'.attempts
    ensures LegOk(b', r)
  {
  }

  lemma SetTaskBoardOk(b: Board, sent: seq<Sent>, id: Uuid, t': Task, reputation: map<PublicKey, Reputation>)
    requires BoardOk(b, sent) && t'.id == id && TaskOk(t') && !t'.status.Submitted?
    requires (forall leg <- b.attempts :: leg.task != id) && (forall r <- sent :: r.leg.task != id)
    ensures BoardOk(b.(tasks := b.tasks[id := t'], reputation := reputation), sent)
  {
  }

  lemma SetTaskCredits(s: System, id: Uuid, t': Task, s': System)
    requires CreditsOk(s) && (forall c <- s.credits :: c.leg.task != id) && PaidOut(t') == map[]
    requires s'.board.tasks == s.board.tasks[id := t'] && s'.sent == s.sent && s'.chain == s.chain
    requires s'.credits == s.credits
    ensures CreditsOk(s')
  {
  }

  lemma SetTaskEarned(s: System, id: Uuid, t': Task, reputation: map<PublicKey, Reputation>)
    requires EarnedOk(s) && TasksOk(s.board) && (id in s.board.tasks ==> !Decided(s.board.tasks[id].status))
    requires PaidOut(t') == map[] && Sum(reputation, EARNED) == Sum(s.board.reputation, EARNED)
    ensures EarnedOk(s.(board := s.board.(tasks := s.board.tasks[id := t'], reputation := reputation)))
  {
    SumUpdate(s.board.tasks, id, t', CONFIRMED);
    if id in s.board.tasks {
      UndecidedPaysNothing(s.board.tasks[id]);
    }
  }

  lemma SetTaskKeepsInv(s: System, id: Uuid, t': Task, reputation: map<PublicKey, Reputation>)
    requires Inv(s) && (id in s.board.tasks ==> !Decided(s.board.tasks[id].status))
    requires t'.id == id && TaskOk(t') && !t'.status.Submitted? && PaidOut(t') == map[]
    requires Sum(reputation, EARNED) == Sum(s.board.reputation, EARNED)
    ensures Inv(s.(board := s.board.(tasks := s.board.tasks[id := t'], reputation := reputation)))
  {
    var s' := s.(board := s.board.(tasks := s.board.tasks[id := t'], reputation := reputation));
    UntouchedByUndecided(s, id);
    SetTaskBoardOk(s.board, s.sent, id, t', reputation);
    SetTaskCredits(s, id, t', s');
    SetTaskEarned(s, id, t', reputation);
  }

  lemma DingsEarnNothing(reputation: map<PublicKey, Reputation>, losers: set<PublicKey>)
    ensures Sum(DingAll(reputation, losers), EARNED) == Sum(reputation, EARNED)
  {
    SumAgrees(reputation, DingAll(reputation, losers), EARNED);
  }

  lemma ReputationKeepsInv(s: System, reputation: map<PublicKey, Reputation>, extra: nat)
    requires Inv(s) && Sum(reputation, EARNED) == Sum(s.board.reputation, EARNED) + extra
    ensures Inv(s.(board := s.board.(reputation := reputation), forfeited := s.forfeited + extra))
  {
    var s' := s.(board := s.board.(reputation := reputation), forfeited := s.forfeited + extra);
    ReputationKeepsBoard(s.board, s.sent, reputation);
    ReputationKeepsCredits(s, s');
  }

  lemma ReputationKeepsBoard(b: Board, sent: seq<Sent>, reputation: map<PublicKey, Reputation>)
    requires BoardOk(b, sent)
    ensures BoardOk(b.(reputation := reputation), sent)
  {
    var b' := b.(reputation := reputation);
    forall leg | leg in b.attempts ensures AttemptOk(b', sent, leg, b.attempts[leg]) { AttemptFrame(b, b', sent, leg); }
    forall r | r in sent ensures LegOk(b', r) { LegFrame(b, b', r); }
  }

  lemma ReputationKeepsCredits(s: System, s': System)
    requires CreditsOk(s) && s'.board.tasks == s.board.tasks && s'.credits == s.credits && s'.sent == s.sent
    requires s'.chain == s.chain
    ensures CreditsOk(s')
  {
    forall c | c in s'.credits ensures CreditOk(s', c) { assert CreditOk(s, c); }
  }

  lemma DecidedOperate(s: System, id: Uuid, op: Op)
    requires Payouts.Enabled(s, Operate(id, op)) && Decided(s.board.tasks[id].status)
    ensures DoOperate(s, id, op)
         == s.(board := s.board.(reputation := DingAll(s.board.reputation, Dinged(s.board.tasks[id], op))))
  {
    DecidedInert(s.board.tasks[id], op);
    assert s.board.tasks[id := s.board.tasks[id]] == s.board.tasks;
  }

  lemma OperateKeepsInv(s: System, id: Uuid, op: Op)
    requires Inv(s) && Payouts.Enabled(s, Operate(id, op))
    ensures Inv(DoOperate(s, id, op))
  {
    var t := s.board.tasks[id];
    DingsEarnNothing(s.board.reputation, Dinged(t, op));
    var reputation := DingAll(s.board.reputation, Dinged(t, op));
    if Decided(t.status) {
      DecidedOperate(s, id, op);
      ReputationKeepsInv(s, reputation, 0);
    } else {
      UndecidedStep(t, op);
      SetTaskKeepsInv(s, id, Apply(t, op).task, reputation);
    }
  }

  lemma CreateKeepsInv(s: System, t: Task)
    requires Inv(s) && t.id !in s.board.tasks && TaskRuns.Created(t)
    ensures Inv(s.(board := s.board.(tasks := s.board.tasks[t.id := t])))
  {
    assert TaskOk(t);
    UndecidedPaysNothing(t);
    SetTaskKeepsInv(s, t.id, t, s.board.reputation);
    assert s.board.(tasks := s.board.tasks[t.id := t], reputation := s.board.reputation)
      == s.board.(tasks := s.board.tasks[t.id := t]);
  }

  lemma EarningAdds(b: Board, k: PublicKey, rep': Reputation, amount: nat)
    requires rep'.totalEarned == ReputationOf(b, k).totalEarned + amount
    ensures Sum(b.reputation[k := rep'], EARNED) == Sum(b.reputation, EARNED) + amount
  {
    SumUpdate(b.reputation, k, rep', EARNED);
  }

  lemma ForfeitKeepsInv(s: System, k: PublicKey, amount: nat, s': System)
    requires Inv(s) && s' == DoForfeit(s, k, amount)
    ensures Inv(s')
  {
    EarningAdds(s.board, k, s'.board.reputation[k], amount);
    ReputationKeepsInv(s, s'.board.reputation, amount);
  }

  // ----- sending ---------------------------------------------------------------------------

  /** Nothing but the board's payout records and statuses moved. */
  ghost predicate SamePayments(s: System, s': System) {
    && s'.chain == s.chain && s'.readings == s.readings && s'.credits == s.credits && s'.forfeited == s.forfeited
    && s'.board.reputation == s.board.reputation && (forall r <- s.sent :: r in s'.sent)
    && s'.board.tasks.Keys == s.board.tasks.Keys
    && forall id <- s.board.tasks :: PaidOut(s'.board.tasks[id]) == PaidOut(s.board.tasks[id])
  }

  lemma SamePaymentsCredits(s: System, s': System)
    requires CreditsOk(s) && SamePayments(s, s')
    ensures CreditsOk(s')
  {
  }

  lemma SamePaymentsEarned(s: System, s': System)
    requires EarnedOk(s) && SamePayments(s, s')
    ensures EarnedOk(s')
  {
    SumAgrees(s.board.tasks, s'.board.tasks, CONFIRMED);
  }

  lemma SamePaymentsInv(s: System, s': System)
    requires Inv(s) && SamePayments(s, s') && BoardOk(s'.board, s'.sent) && forall r <- s'.sent :: OnWire(s'.chain, r)
    ensures Inv(s')
  {
    SamePaymentsCredits(s, s');
    SamePaymentsEarned(s, s');
  }

  /** A leg that is owed and has no attempt was never sent. */
  lemma NotSentYet(b: Board, sent: seq<Sent>, leg: Leg)
    requires BoardOk(b, sent) && leg.recipient in Unsubmitted(b, leg.task)
    ensures forall r <- sent :: r.leg != leg
  {
  }

  lemma MarkedSubmitted(t: Task)
    requires TaskOk(t) && t.status.Verified?
    ensures
      var t' := t.(status := Submitted);
      TaskOk(t') && Owed(t') == Owed(t) && PaidOut(t') == PaidOut(t) && Allocated(t') == Allocated(t)
      && forall k :: IsPaid(t', k) == IsPaid(t, k)
  {
  }

  lemma FlipKeepsBoard(b: Board, sent: seq<Sent>, id: Uuid)
    requires BoardOk(b, sent) && id in b.tasks && b.tasks[id].status.Verified? && Unsubmitted(b, id) == map[]
    ensures BoardOk(b.(tasks := b.tasks[id := b.tasks[id].(status := Submitted)]), sent)
  {
    var t' := b.tasks[id].(status := Submitted);
    var b' := b.(tasks := b.tasks[id := t']);
    MarkedSubmitted(b.tasks[id]);
    forall leg | leg in b'.attempts ensures AttemptOk(b', sent, leg, b'.attempts[leg]) {
      FlippedAttempt(b, sent, id, leg);
    }
    forall r | r in sent ensures LegOk(b', r) { FlippedLeg(b, id, r); }
    forall k | k in Owed(t') ensures Leg(id, k) in b'.attempts {
      assert k !in Unsubmitted(b, id);
    }
  }

  lemma FlippedAttempt(b: Board, sent: seq<Sent>, id: Uuid, leg: Leg)
    requires TasksOk(b) && id in b.tasks && b.tasks[id].status.Verified?
    requires leg in b.attempts && AttemptOk(b, sent, leg, b.attempts[leg])
    ensures AttemptOk(b.(tasks := b.tasks[id := b.tasks[id].(status := Submitted)]), sent, leg, b.attempts[leg])
  {
    MarkedSubmitted(b.tasks[id]);
  }

  lemma FlippedLeg(b: Board, id: Uuid, r: Sent)
    requires TasksOk(b) && id in b.tasks && b.tasks[id].status.Verified? && LegOk(b, r)
    ensures LegOk(b.(tasks := b.tasks[id := b.tasks[id].(status := Submitted)]), r)
  {
    MarkedSubmitted(b.tasks[id]);
  }

  /** A leg that is owed, at the amount it is owed, whatever is in flight for it. */
  ghost predicate CanRecord(b: Board, leg: Leg, amount: nat) {
    && leg.task in b.tasks && Payable(b.tasks[leg.task].status)
    && leg.recipient in Owed(b.tasks[leg.task]) && Owed(b.tasks[leg.task])[leg.recipient] == amount
  }

  lemma AddAttempt(b: Board, sent: seq<Sent>, a: Attempt)
    requires BoardOk(b, sent) && CanRecord(b, a.leg, a.amount) && a.spentInputs == a.tx.inputs
    ensures BoardOk(b.(attempts := b.attempts[a.leg := a]), sent + [SentOf(a)])
  {
    var b', sent' := b.(attempts := b.attempts[a.leg := a]), sent + [SentOf(a)];
    forall leg | leg in b'.attempts ensures AttemptOk(b', sent', leg, b'.attempts[leg]) {
      if leg != a.leg {
        assert AttemptOk(b, sent, leg, b.attempts[leg]);
      }
    }
    forall r | r in sent' ensures LegOk(b', r) {
      if r in sent {
        LegFrame(b, b', r);
      } else {
        assert r == SentOf(a);
      }
    }
  }

  lemma SendOneKeepsBoard(b: Board, sent: seq<Sent>, a: Attempt)
    requires BoardOk(b, sent) && CanRecord(b, a.leg, a.amount) && a.spentInputs == a.tx.inputs
    ensures BoardOk(RecordAttempt(b, a), sent + [SentOf(a)])
  {
    AddAttempt(b, sent, a);
    var recorded := b.(attempts := b.attempts[a.leg := a]);
    if Unsubmitted(recorded, a.leg.task) == map[] && b.tasks[a.leg.task].status.Verified? {
      FlipKeepsBoard(recorded, sent + [SentOf(a)], a.leg.task);
    }
  }

  lemma RecordPaysNobody(b: Board, a: Attempt)
    requires TasksOk(b)
    ensures RecordAttempt(b, a).tasks.Keys == b.tasks.Keys && RecordAttempt(b, a).reputation == b.reputation
    ensures forall id <- b.tasks :: PaidOut(RecordAttempt(b, a).tasks[id]) == PaidOut(b.tasks[id])
  {
    var id := a.leg.task;
    if id in b.tasks && b.tasks[id].status.Verified? {
      MarkedSubmitted(b.tasks[id]);
      assert RecordAttempt(b, a).tasks == b.tasks
        || RecordAttempt(b, a).tasks == b.tasks[id := b.tasks[id].(status := Submitted)];
    } else {
      assert RecordAttempt(b, a).tasks == b.tasks;
    }
  }

  lemma SendOneKeepsInv(s: System, a: Attempt, s': System)
    requires Inv(s) && CanRecord(s.board, a.leg, a.amount) && a.spentInputs == a.tx.inputs
    requires OnWire(s.chain, SentOf(a)) && s' == s.(board := RecordAttempt(s.board, a), sent := s.sent + [SentOf(a)])
    ensures Inv(s')
  {
    SendOneKeepsBoard(s.board, s.sent, a);
    RecordPaysNobody(s.board, a);
    WireAppend(s.chain, s.sent, SentOf(a));
    SamePaymentsInv(s, s');
  }

  lemma WireAppend(c: Chain, sent: seq<Sent>, last: Sent)
    requires (forall r <- sent :: OnWire(c, r)) && OnWire(c, last)
    ensures (forall r <- sent + [last] :: OnWire(c, r)) && forall r <- sent :: r in sent + [last]
  {
  }

  /** Recording one leg leaves every other leg of the task recordable. */
  lemma SendOneLeavesRest(b: Board, a: Attempt, k: PublicKey, amount: nat)
    requires TasksOk(b) && CanRecord(b, Leg(a.leg.task, k), amount)
    ensures CanRecord(RecordAttempt(b, a), Leg(a.leg.task, k), amount)
  {
    if b.tasks[a.leg.task].status.Verified? {
      MarkedSubmitted(b.tasks[a.leg.task]);
    }
  }

  /** Recipients to record, each with the output that pays it. */
  ghost predicate PayList(b: Board, id: Uuid, recipients: seq<PublicKey>, outputs: seq<Output>, tx: Tx) {
    && |recipients| <= |outputs| && (forall i, j :: 0 <= i < j < |recipients| ==> recipients[i] != recipients[j])
    && forall i :: 0 <= i < |recipients| ==> PaysOne(b, id, recipients[i], outputs[i], tx)
  }

  ghost predicate PaysOne(b: Board, id: Uuid, recipient: PublicKey, output: Output, tx: Tx) {
    CanRecord(b, Leg(id, recipient), output.value) && output in tx.outputs && output.owner == recipient
  }

  lemma PayListRest(b: Board, a: Attempt, id: Uuid, recipients: seq<PublicKey>, outputs: seq<Output>)
    requires TasksOk(b) && PayList(b, id, recipients, outputs, a.tx)
    requires recipients != [] && a.leg == Leg(id, recipients[0])
    ensures PayList(RecordAttempt(b, a), id, recipients[1..], outputs[1..], a.tx)
  {
    forall i | 0 <= i < |recipients| - 1
      ensures PaysOne(RecordAttempt(b, a), id, recipients[1..][i], outputs[1..][i], a.tx)
    {
      assert PaysOne(b, id, recipients[i + 1], outputs[i + 1], a.tx);
      SendOneLeavesRest(b, a, recipients[i + 1], outputs[i + 1].value);
    }
  }

  /** A transaction of `source`'s own outputs, built. */
  ghost predicate SpendsFrom(c: Chain, source: PublicKey, tx: Tx) {
    tx in c.built && tx.inputs != [] && forall h <- tx.inputs :: h in c.outs && c.outs[h].owner == source
  }

  lemma {:induction false} SendAllKeepsInv(
    s: System, id: Uuid, recipients: seq<PublicKey>, outputs: seq<Output>, source: PublicKey, tx: Tx, now: Time)
    requires Inv(s) && PayList(s.board, id, recipients, outputs, tx) && SpendsFrom(s.chain, source, tx)
    ensures Inv(SendAll(s, id, recipients, outputs, source, tx, now))
    decreases |recipients|
  {
    if recipients != [] {
      var a := NewAttempt(s.board, Leg(id, recipients[0]), outputs[0], source, tx, now);
      var s' := SendOne(s, id, recipients[0], outputs[0], source, tx, now);
      assert PaysOne(s.board, id, recipients[0], outputs[0], tx);
      assert OnWire(s.chain, SentOf(a)) by {
        assert PaysLeg(SentOf(a), outputs[0]);
      }
      PayListRest(s.board, a, id, recipients, outputs);
      SendOneKeepsInv(s, a, s');
      SendAllKeepsInv(s', id, recipients[1..], outputs[1..], source, tx, now);
    }
  }

  lemma SendList(s: System, id: Uuid, recipients: seq<PublicKey>, source: PublicKey, tx: Tx, now: Time)
    requires Payouts.Enabled(s, Send(id, recipients, source, tx, now))
    ensures PayList(s.board, id, recipients, tx.outputs, tx)
  {
    forall i | 0 <= i < |recipients| ensures PaysOne(s.board, id, recipients[i], tx.outputs[i], tx) {
      assert recipients[i] in recipients;
    }
  }

  lemma SendKeepsInv(s: System, id: Uuid, recipients: seq<PublicKey>, source: PublicKey, tx: Tx, now: Time)
    requires Inv(s) && Payouts.Enabled(s, Send(id, recipients, source, tx, now))
    ensures Inv(SendAll(s.(chain := Blockchain.Do(s.chain, Build(tx))), id, recipients, tx.outputs, source, tx, now))
  {
    ChainKeepsInv(s, Build(tx));
    SendList(s, id, recipients, source, tx, now);
    SendAllKeepsInv(s.(chain := Blockchain.Do(s.chain, Build(tx))), id, recipients, tx.outputs, source, tx, now);
  }

  // ----- resending -------------------------------------------------------------------------

  lemma ReplaceAttempt(b: Board, sent: seq<Sent>, a: Attempt)
    requires BoardOk(b, sent) && a.leg in b.attempts && SentOf(a) == SentOf(b.attempts[a.leg])
    requires a.spentInputs == a.tx.inputs
    ensures BoardOk(b.(attempts := b.attempts[a.leg := a]), sent)
  {
  }

  lemma RebumpKeepsBoard(b: Board, sent: seq<Sent>, a: Attempt)
    requires BoardOk(b, sent) && a.leg in b.attempts && SentOf(a) == SentOf(b.attempts[a.leg])
    requires a.spentInputs == a.tx.inputs
    ensures BoardOk(RecordAttempt(b, a), sent)
  {
    ReplaceAttempt(b, sent, a);
    var recorded := b.(attempts := b.attempts[a.leg := a]);
    if Unsubmitted(recorded, a.leg.task) == map[] && a.leg.task in b.tasks && b.tasks[a.leg.task].status.Verified? {
      FlipKeepsBoard(recorded, sent, a.leg.task);
    }
  }

  lemma BumpOneKeepsInv(s: System, leg: Leg, now: Time, s': System)
    requires Inv(s) && s' == s.(board := BumpOne(s.board, leg, now))
    ensures Inv(s')
  {
    if leg in s.board.attempts {
      var a := Bumped(s.board.attempts[leg], now);
      assert AttemptOk(s.board, s.sent, leg, s.board.attempts[leg]);
      RebumpKeepsBoard(s.board, s.sent, a);
      RecordPaysNobody(s.board, a);
      SamePaymentsInv(s, s');
    }
  }

  lemma {:induction false} BumpAllKeepsInv(s: System, legs: seq<Leg>, now: Time, s': System)
    requires Inv(s) && s' == s.(board := BumpAll(s.board, legs, now))
    ensures Inv(s')
    decreases |legs|
  {
    if legs != [] {
      var bumped := s.(board := BumpOne(s.board, legs[0], now));
      BumpOneKeepsInv(s, legs[0], now, bumped);
      BumpAllKeepsInv(bumped, legs[1..], now, s');
    }
  }

  // ----- giving up -------------------------------------------------------------------------

  lemma MarkedFailed(t: Task)
    requires TaskOk(t) && Payable(t.status)
    ensures
      var t' := t.(status := PayoutFailed);
      TaskOk(t') && PaidOut(t') == PaidOut(t) && Allocated(t') == Allocated(t)
  {
  }

  lemma FailKeepsBoard(b: Board, sent: seq<Sent>, id: Uuid)
    requires BoardOk(b, sent) && MarkPayoutFailed(b, id).Ok?
    ensures BoardOk(MarkPayoutFailed(b, id).value, sent)
  {
    var b' := MarkPayoutFailed(b, id).value;
    MarkedFailed(b.tasks[id]);
    forall leg | leg in b'.attempts ensures AttemptOk(b', sent, leg, b'.attempts[leg]) {
      AttemptFrame(b, b', sent, leg);
    }
    forall r | r in sent ensures LegOk(b', r) {
      assert LegOk(b, r);
      if r.leg.task != id {
        LegFrame(b, b', r);
      }
    }
  }

  lemma FailPaysNobody(b: Board, id: Uuid)
    requires TasksOk(b) && MarkPayoutFailed(b, id).Ok?
    ensures
      var b' := MarkPayoutFailed(b, id).value;
      && b'.tasks.Keys == b.tasks.Keys && b'.reputation == b.reputation
      && forall i <- b.tasks :: PaidOut(b'.tasks[i]) == PaidOut(b.tasks[i])
  {
    MarkedFailed(b.tasks[id]);
  }

  lemma AbandonKeepsInv(s: System, id: Uuid, s': System)
    requires Inv(s) && s' == DoAbandon(s, id)
    ensures Inv(s')
  {
    if MarkPayoutFailed(s.board, id).Ok? {
      FailKeepsBoard(s.board, s.sent, id);
      FailPaysNobody(s.board, id);
      SamePaymentsInv(s, s');
    }
  }

  // ----- reading the chain -----------------------------------------------------------------

  lemma AddReading(s: System, r: Reading, s': System)
    requires Inv(s) && ReadingOk(s.chain, s.sent, r) && s' == s.(readings := s.readings + {r})
    ensures Inv(s')
  {
    ReadingAdded(s, r, s');
    ReadingPaysNobody(s, s');
  }

  lemma ReadingAdded(s: System, r: Reading, s': System)
    requires ReadingsOk(s) && ReadingOk(s.chain, s.sent, r) && s' == s.(readings := s.readings + {r})
    ensures ReadingsOk(s')
  {
  }

  lemma ReadingPaysNobody(s: System, s': System)
    requires CreditsOk(s) && EarnedOk(s) && s' == s.(readings := s'.readings)
    ensures CreditsOk(s') && EarnedOk(s')
  {
  }

  lemma ReadRecipientOk(s: System, leg: Leg, view: seq<Entry>)
    requires ChainOk(s.chain) && AttemptsOk(s.board, s.sent) && (forall r <- s.sent :: OnWire(s.chain, r))
    requires leg in s.board.attempts && IsView(s.chain, leg.recipient, view)
    ensures ReadingOk(s.chain, s.sent, RecipientRead(s.board.attempts[leg], s.chain, view))
  {
  }

  /** The answer a sweep computes from its two reads, and what it implies about the
      chain at the second. */
  lemma ReadSourceSound(s: System, r: Reading, view: seq<Entry>)
    requires Inv(s) && Payouts.Enabled(s, ReadSource(r, view))
    ensures
      var a := r.attempt;
      var outcome := ResolveAgainst(a.outputHash, a.spentInputs, r.view, view);
      && (outcome.Confirmed? ==> a.tx in s.chain.mined)
      && (outcome.NeverLanded? ==> a.tx !in s.chain.mined && a.tx !in s.chain.pool)
      && (outcome.HeldInMempool? ==> a.tx !in s.chain.mined)
      && (a.tx in s.chain.mined ==> outcome.Confirmed? || outcome.Ambiguous?)
  {
    var a := r.attempt;
    assert ReadingOk(s.chain, s.sent, r);
    var o :| o in a.tx.outputs && PaysLeg(SentOf(a), o);
    var index :| 0 <= index < |a.tx.outputs| && a.tx.outputs[index] == o;
    ResolveSound(r.at, s.chain, a.tx, index, a.leg.recipient, a.source, r.view, view);
    MinedStaysMined(r.at, s.chain, a.tx);
  }

  // ----- confirming ------------------------------------------------------------------------

  lemma ConfirmSettles(b: Board, sent: seq<Sent>, a: Attempt, now: Time)
    requires BoardOk(b, sent) && a.leg in b.attempts && b.attempts[a.leg] == a
    ensures a.leg.task in b.tasks && ApplyMarkPaid(b.tasks[a.leg.task], a.leg.recipient, now).Done?
    ensures TaskRuns.Settles(b.tasks[a.leg.task], a.leg.recipient, a.amount,
      ApplyMarkPaid(b.tasks[a.leg.task], a.leg.recipient, now).task)
  {
    assert AttemptOk(b, sent, a.leg, a);
    TaskRuns.PaymentSettles(b.tasks[a.leg.task], a.leg.recipient, now);
  }

  ghost predicate Pays(b: Board, a: Attempt, t': Task, b': Board) {
    && a.leg.task in b.tasks && b'.tasks == b.tasks[a.leg.task := t'] && b'.attempts == b.attempts - {a.leg}
  }

  lemma ConfirmAttempts(b: Board, sent: seq<Sent>, a: Attempt, t': Task, b': Board)
    requires BoardOk(b, sent) && a.leg in b.attempts && b.attempts[a.leg] == a && Pays(b, a, t', b')
    requires t'.status.Paid? || t'.status == b.tasks[a.leg.task].status
    requires Owed(t') == Owed(b.tasks[a.leg.task]) - {a.leg.recipient} && (t'.status.Paid? ==> Owed(t') == map[])
    ensures AttemptsOk(b', sent)
  {
    forall leg | leg in b'.attempts ensures AttemptOk(b', sent, leg, b'.attempts[leg]) {
      if leg.task == a.leg.task {
        AttemptBesideConfirmed(b, sent, a, t', b', leg);
      } else {
        AttemptFrame(b, b', sent, leg);
      }
    }
  }

  /** The other legs of a task are owed what they were before one of them was paid. */
  lemma AttemptBesideConfirmed(b: Board, sent: seq<Sent>, a: Attempt, t': Task, b': Board, leg: Leg)
    requires leg in b.attempts && AttemptOk(b, sent, leg, b.attempts[leg]) && leg != a.leg && leg.task == a.leg.task
    requires Pays(b, a, t', b') && (t'.status.Paid? || t'.status == b.tasks[a.leg.task].status)
    requires Owed(t') == Owed(b.tasks[a.leg.task]) - {a.leg.recipient} && (t'.status.Paid? ==> Owed(t') == map[])
    ensures AttemptOk(b', sent, leg, b.attempts[leg])
  {
    assert leg.recipient != a.leg.recipient;
    assert leg.recipient in Owed(t');
  }

  lemma ConfirmSubmitted(b: Board, a: Attempt, t': Task, b': Board)
    requires SubmittedOk(b) && Pays(b, a, t', b')
    requires t'.status.Paid? || t'.status == b.tasks[a.leg.task].status
    requires Owed(t') == Owed(b.tasks[a.leg.task]) - {a.leg.recipient}
    ensures SubmittedOk(b')
  {
  }

  lemma ConfirmLegs(b: Board, sent: seq<Sent>, a: Attempt, t': Task, b': Board)
    requires BoardOk(b, sent) && a.leg in b.attempts && b.attempts[a.leg] == a && Pays(b, a, t', b')
    requires TaskRuns.Progress(b.tasks[a.leg.task], t') && a.leg.recipient in PaidOut(t')
    ensures forall r <- sent :: LegOk(b', r)
  {
  }

  lemma ConfirmTasks(b: Board, a: Attempt, t': Task, b': Board)
    requires TasksOk(b) && Pays(b, a, t', b') && t'.id == a.leg.task && TaskOk(t')
    ensures TasksOk(b')
  {
  }

  lemma ConfirmBoard(b: Board, sent: seq<Sent>, a: Attempt, t': Task, b': Board)
    requires BoardOk(b, sent) && a.leg in b.attempts && b.attempts[a.leg] == a
    requires Pays(b, a, t', b') && TaskRuns.Settles(b.tasks[a.leg.task], a.leg.recipient, a.amount, t')
    ensures BoardOk(b', sent)
  {
    ConfirmTasks(b, a, t', b');
    ConfirmAttempts(b, sent, a, t', b');
    ConfirmSubmitted(b, a, t', b');
    ConfirmLegs(b, sent, a, t', b');
  }

  lemma ConfirmCredits(s: System, a: Attempt, t': Task, s': System)
    requires CreditsOk(s) && Pays(s.board, a, t', s'.board) && s'.sent == s.sent && s'.chain == s.chain
    requires s'.credits == s.credits + [Credit(a.leg, a.amount)]
    requires SentOf(a) in s.sent && a.tx in s.chain.mined
    requires a.leg.recipient !in PaidOut(s.board.tasks[a.leg.task])
    requires PaidOut(t') == PaidOut(s.board.tasks[a.leg.task])[a.leg.recipient := a.amount]
    ensures CreditsOk(s')
  {
    forall c | c in s'.credits ensures CreditOk(s', c) {
      if c in s.credits {
        CreditStays(s, a, t', s', c);
      } else {
        assert c == Credit(a.leg, a.amount) && SentOf(a).leg == c.leg;
      }
    }
    forall i, j | 0 <= i < j < |s'.credits| ensures s'.credits[i].leg != s'.credits[j].leg {
      assert CreditOk(s, s.credits[i]);
    }
    forall id, k | id in s'.board.tasks && k in PaidOut(s'.board.tasks[id])
      ensures Credit(Leg(id, k), PaidOut(s'.board.tasks[id])[k]) in s'.credits
    {
      if id == a.leg.task && k == a.leg.recipient {
        assert s'.credits[|s.credits|] == Credit(a.leg, a.amount);
      } else {
        assert Credit(Leg(id, k), PaidOut(s.board.tasks[id])[k]) in s.credits;
      }
    }
  }

  lemma CreditStays(s: System, a: Attempt, t': Task, s': System, c: Credit)
    requires CreditOk(s, c) && Pays(s.board, a, t', s'.board) && s'.sent == s.sent && s'.chain == s.chain
    requires a.leg.recipient !in PaidOut(s.board.tasks[a.leg.task])
    requires PaidOut(t') == PaidOut(s.board.tasks[a.leg.task])[a.leg.recipient := a.amount]
    ensures CreditOk(s', c)
  {
  }

  lemma ConfirmEarned(s: System, a: Attempt, t': Task, rep': Reputation, s': System)
    requires EarnedOk(s) && Pays(s.board, a, t', s'.board) && s'.forfeited == s.forfeited
    requires Total(PaidOut(t')) == Total(PaidOut(s.board.tasks[a.leg.task])) + a.amount
    requires rep'.totalEarned == ReputationOf(s.board, a.leg.recipient).totalEarned + a.amount
    requires s'.board.reputation == s.board.reputation[a.leg.recipient := rep']
    ensures EarnedOk(s')
  {
    SumUpdate(s.board.tasks, a.leg.task, t', CONFIRMED);
    EarningAdds(s.board, a.leg.recipient, rep', a.amount);
  }

  lemma ConfirmKeepsInv(s: System, r: Reading, now: Time, s': System)
    requires Inv(s) && Live(s, r) && r.outcome.Confirmed? && s' == DoConfirm(s, r.attempt, now)
    ensures Inv(s')
  {
    var a := r.attempt;
    assert ReadingOk(s.chain, s.sent, r);
    ConfirmSettles(s.board, s.sent, a, now);
    var t' := ApplyMarkPaid(s.board.tasks[a.leg.task], a.leg.recipient, now).task;
    assert a.leg.recipient in Owed(s.board.tasks[a.leg.task]) && a.leg.recipient !in Owed(t');
    ConfirmBoard(s.board, s.sent, a, t', s'.board);
    ConfirmCredits(s, a, t', s');
    ConfirmEarned(s, a, t', s'.board.reputation[a.leg.recipient], s');
  }

  // ----- every step --------------------------------------------------------------------------

  /** A step of a sweep over the payouts in flight. */
  predicate OfSweep(e: Event) { e.ReadRecipient? || e.ReadSource? || e.Confirm? || e.Resend? || e.Abandon? }

  lemma SweepKeepsInv(s: System, e: Event, s': System)
    requires Inv(s) && OfSweep(e) && Payouts.Enabled(s, e) && s' == Payouts.Do(s, e)
    ensures Inv(s')
  {
    match e
    case ReadRecipient(leg, view) => ReadRecipientKeepsInv(s, leg, view, s');
    case ReadSource(r, view) => ReadSourceKeepsInv(s, r, view, s');
    case Confirm(r, now) => ConfirmKeepsInv(s, r, now, s');
    case Resend(r, legs, now) => BumpAllKeepsInv(s, legs, now, s');
    case Abandon(r) => AbandonKeepsInv(s, r.attempt.leg.task, s');
  }

  lemma OtherKeepsInv(s: System, e: Event, s': System)
    requires Inv(s) && !OfSweep(e) && Payouts.Enabled(s, e) && s' == Payouts.Do(s, e)
    ensures Inv(s')
  {
    match e
    case OnChain(step) => ChainKeepsInv(s, step);
    case CreateTask(t) => CreateKeepsInv(s, t);
    case Operate(id, op) => OperateKeepsInv(s, id, op);
    case ForfeitBond(k, amount) => ForfeitKeepsInv(s, k, amount, s');
    case Send(id, recipients, source, tx, now) => SendKeepsInv(s, id, recipients, source, tx, now);
  }

  lemma StepKeepsInv(s: System, e: Event)
    requires Inv(s) && Payouts.Enabled(s, e)
    ensures Inv(Payouts.Do(s, e))
  {
    if OfSweep(e) {
      SweepKeepsInv(s, e, Payouts.Do(s, e));
    } else {
      OtherKeepsInv(s, e, Payouts.Do(s, e));
    }
  }

  lemma ReadRecipientKeepsInv(s: System, leg: Leg, view: seq<Entry>, s': System)
    requires Inv(s) && leg in s.board.attempts && IsView(s.chain, leg.recipient, view)
    requires s' == s.(readings := s.readings + {RecipientRead(s.board.attempts[leg], s.chain, view)})
    ensures Inv(s')
  {
    ReadRecipientOk(s, leg, view);
    AddReading(s, RecipientRead(s.board.attempts[leg], s.chain, view), s');
  }

  lemma ReadSourceKeepsInv(s: System, r: Reading, view: seq<Entry>, s': System)
    requires Inv(s) && Payouts.Enabled(s, ReadSource(r, view)) && s' == Payouts.Do(s, ReadSource(r, view))
    ensures Inv(s')
  {
    ReadSourceSound(s, r, view);
    assert ReadingOk(s.chain, s.sent, r);
    AddReading(s, BothRead(r.attempt, ResolveAgainst(r.attempt.outputHash, r.attempt.spentInputs, r.view, view)), s');
  }
}
