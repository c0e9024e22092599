// Histories of one task: what each step keeps, what settles for good, and what
// every payment moves from owed to paid.

module TaskRuns {
  import opened Basics
  import opened MapSums
  import opened Tasks
  import opened TaskInvariant

  ghost predicate Next(t: Task, op: Op, t': Task) {
    Apply(t, op) == Done(t') || (Apply(t, op).Fail? && t' == t)
  }

  /** The states a task goes through under `ops`. */
  ghost predicate IsRun(states: seq<Task>, ops: seq<Op>) {
    && |states| == |ops| + 1
    && forall i :: 0 <= i < |ops| ==> StepAt(states, ops, i)
  }

  ghost predicate StepAt(states: seq<Task>, ops: seq<Op>, i: nat)
    requires |states| == |ops| + 1 && i < |ops|
  {
    Next(states[i], ops[i], states[i + 1])
  }

  /** `create_task`, `create_consensus_task` and `create_disputable_task`. */
  predicate Created(t: Task) {
    && t.status.Open? && t.claimant.None? && t.claimDeadline.None? && t.settledAt.None? && t.closeReason.None?
    && (t.kind.Consensus? ==> t.kind.assignees == map[] && t.kind.submissionDeadline.None?)
    && (t.kind.Disputable? ==>
          && t.kind.answer.None? && t.kind.disputeDeadline.None? && t.kind.dispute.None? && t.kind.answers == []
          && t.kind.pickDeadline.None? && t.kind.picked.None?)
  }

  predicate Absorbing(s: Status) { s.Paid? || s.Closed? || s.PayoutFailed? }

  predicate SameAnswer(a: ContestAnswer, b: ContestAnswer) {
    a.pubkey == b.pubkey && a.answer == b.answer && a.submittedAt == b.submittedAt
  }

  predicate SameAnswers(a: seq<ContestAnswer>, b: seq<ContestAnswer>) {
    |a| == |b| && forall i :: 0 <= i < |a| ==> SameAnswer(a[i], b[i])
  }

  predicate Contest(t: Task) { t.kind.Disputable? && t.kind.answers != [] }

  /** How a later state of a task relates to an earlier one. */
  ghost predicate Progress(t: Task, t': Task) {
    && t'.id == t.id && t'.bounty == t.bounty && t'.poster == t.poster && t'.escrowId == t.escrowId
    && (Absorbing(t.status) ==> t' == t)
    && (Decided(t.status) ==>
          Decided(t'.status) && Allocated(t') == Allocated(t) && forall k :: IsPaid(t, k) ==> IsPaid(t', k))
    && (t.status.Submitted? ==> !t'.status.Verified?)
    && (Contest(t) && !t.status.Open? ==>
          t'.kind.Disputable? && !t'.status.Open? && SameAnswers(t.kind.answers, t'.kind.answers))
    && (t.kind.Consensus? ==>
          && t'.kind.Consensus? && (t'.status.Open? ==> t.status.Open?)
          && (t'.status.Claimed? ==> t.status.Claimed? || t.status.Open?))
  }

  lemma PaidAssigneeProgress(t: Task, recipient: Key, now: Time)
    requires TaskOk(t) && t.kind.Consensus? && ApplyMarkPaid(t, recipient, now).Done?
    ensures Progress(t, ApplyMarkPaid(t, recipient, now).task)
  {
  }

  lemma AnswerMarkedPaid(answers: seq<ContestAnswer>, r: nat)
    requires r < |answers| && DistinctAnswers(answers)
    ensures
      var answers' := answers[r := answers[r].(paid := true)];
      forall k :: AnswerPaid(answers', k) <==> AnswerPaid(answers, k) || k == answers[r].pubkey
  {
    var answers' := answers[r := answers[r].(paid := true)];
    assert answers'[r] in answers' && answers[r] in answers;
    forall k ensures AnswerPaid(answers', k) <==> AnswerPaid(answers, k) || k == answers[r].pubkey {
      if AnswerPaid(answers, k) {
        var i :| 0 <= i < |answers| && answers[i].pubkey == k && answers[i].paid;
        assert answers'[i] in answers' && answers'[i].pubkey == k && answers'[i].paid;
      }
      if AnswerPaid(answers', k) && k != answers[r].pubkey {
        var i :| 0 <= i < |answers'| && answers'[i].pubkey == k && answers'[i].paid;
        assert answers[i] in answers && i != r;
      }
    }
  }

  lemma PaidAnswerProgress(t: Task, recipient: Key, now: Time)
    requires TaskOk(t) && Contest(t) && ApplyMarkPaid(t, recipient, now).Done?
    ensures Progress(t, ApplyMarkPaid(t, recipient, now).task)
  {
    var answers := t.kind.answers;
    FindAnswerInRange(answers, recipient);
    var r := FindAnswer(answers, recipient).value;
    if !answers[r].paid {
      var answers' := answers[r := answers[r].(paid := true)];
      SameContestShares(answers, answers');
      AnswerMarkedPaid(answers, r);
      assert SameAnswers(answers, answers');
    }
  }

  lemma DisputableProgress(t: Task, op: Op)
    requires TaskOk(t) && t.kind.Disputable? && Apply(t, op).Done? && !op.MarkPaid?
    ensures Progress(t, Apply(t, op).task)
  {
    if Contest(t) {
      ContestProgress(t, op);
    } else {
      LegacyProgress(t, op);
    }
  }

  lemma ContestProgress(t: Task, op: Op)
    requires TaskOk(t) && Contest(t) && Apply(t, op).Done? && !op.MarkPaid?
    ensures Progress(t, Apply(t, op).task)
  {
    if op.Pick? {
      PickProgress(t, op.caller, op.answerer, op.now);
    } else if op.SplitUnpicked? || op.SubmitContest? {
      AnswersProgress(t, op);
    } else {
      assert Apply(t, op).task.kind.Disputable? && Apply(t, op).task.kind.answers == t.kind.answers;
    }
  }

  lemma AnswersProgress(t: Task, op: Op)
    requires TaskOk(t) && Contest(t) && Apply(t, op).Done? && (op.SplitUnpicked? || op.SubmitContest?)
    ensures Progress(t, Apply(t, op).task)
  {
  }

  lemma PickProgress(t: Task, caller: Key, answerer: Key, now: Time)
    requires TaskOk(t) && ApplyPick(t, caller, answerer, now).Done?
    ensures Progress(t, ApplyPick(t, caller, answerer, now).task)
  {
    FindAnswerInRange(t.kind.answers, answerer);
  }

  lemma LegacyProgress(t: Task, op: Op)
    requires TaskOk(t) && t.kind.Disputable? && !Contest(t) && Apply(t, op).Done? && !op.MarkPaid?
    ensures Progress(t, Apply(t, op).task)
  {
  }

  lemma ConsensusProgress(t: Task, op: Op)
    requires TaskOk(t) && t.kind.Consensus? && Apply(t, op).Done? && !op.MarkPaid?
    ensures Progress(t, Apply(t, op).task)
  {
    if op.SubmitConsensus? {
      VoteProgress(t, op.agent, op.answer, op.now);
    }
  }

  lemma VoteProgress(t: Task, agent: Key, answer: string, now: Time)
    requires TaskOk(t) && ApplySubmitConsensus(t, agent, answer, now).Done?
    ensures Progress(t, ApplySubmitConsensus(t, agent, answer, now).task)
  {
  }

  lemma OtherProgress(t: Task, op: Op)
    requires TaskOk(t) && Apply(t, op).Done? && !op.MarkPaid?
    ensures Progress(t, Apply(t, op).task)
  {
    if t.kind.Disputable? {
      DisputableProgress(t, op);
    } else if t.kind.Consensus? {
      ConsensusProgress(t, op);
    }
  }

  lemma StepProgress(t: Task, op: Op, t': Task)
    requires TaskOk(t) && Next(t, op, t')
    ensures Progress(t, t')
  {
    if Apply(t, op).Done? {
      if op.MarkPaid? {
        if t.kind.Consensus? {
          PaidAssigneeProgress(t, op.recipient, op.now);
        } else if Contest(t) {
          PaidAnswerProgress(t, op.recipient, op.now);
        }
      } else {
        OtherProgress(t, op);
      }
    }
  }

  lemma ProgressTransitive(a: Task, b: Task, c: Task)
    requires Progress(a, b) && Progress(b, c)
    ensures Progress(a, c)
  {
  }

  /** Every state a task reaches satisfies its kind/status invariant, and no
      operation applied there panics. */
  lemma {:induction false} RunOk(states: seq<Task>, ops: seq<Op>, i: nat, op: Op)
    requires IsRun(states, ops) && (Created(states[0]) || TaskOk(states[0])) && i < |states|
    ensures TaskOk(states[i]) && !Apply(states[i], op).Panic?
  {
    if i > 0 {
      RunOk(states, ops, i - 1, op);
      assert StepAt(states, ops, i - 1);
      if Apply(states[i - 1], ops[i - 1]).Done? {
        ApplyKeepsOk(states[i - 1], ops[i - 1]);
      }
    }
    NeverPanics(states[i], op);
  }

  /** What is settled at one point of a history stays settled at every later one. */
  lemma {:induction false} RunProgress(states: seq<Task>, ops: seq<Op>, i: nat, j: nat)
    requires IsRun(states, ops) && (Created(states[0]) || TaskOk(states[0])) && i <= j < |states|
    ensures Progress(states[i], states[j])
    decreases j
  {
    if i < j {
      RunProgress(states, ops, i, j - 1);
      RunOk(states, ops, j - 1, Cancel);
      assert StepAt(states, ops, j - 1);
      StepProgress(states[j - 1], ops[j - 1], states[j]);
      ProgressTransitive(states[i], states[j - 1], states[j]);
    } else {
      RunOk(states, ops, i, Cancel);
    }
  }

  // ----- owed and paid -------------------------------------------------------------------

  lemma AllocatedBounded(t: Task)
    requires TaskOk(t) && Decided(t.status)
    ensures 0 <= Total(Allocated(t)) <= t.bounty
    ensures Allocated(t) != map[]
  {
    SumNonNegative(Allocated(t), AMOUNT);
    if t.kind.HashMatch? {
      SumConst(Allocated(t), t.bounty);
      assert |Allocated(t).Keys| == 1;
    } else if t.kind.Consensus? {
      var k :| k in t.kind.assignees && t.kind.assignees[k].share.Some?;
      assert k in AssigneeShares(t.kind.assignees);
    } else if Contest(t) {
      var i :| 0 <= i < |t.kind.answers| && t.kind.answers[i].share.Some?;
      ContestSharesAt(t.kind.answers, i);
    } else {
      SumConst(Allocated(t), t.bounty);
      assert |Allocated(t).Keys| == 1;
    }
  }

  /** Nothing is owed exactly when every recipient has been paid. */
  lemma PaidMeansNothingOwed(t: Task)
    requires TaskOk(t) && Decided(t.status) && !t.status.PayoutFailed?
    ensures t.status.Paid? <==> Owed(t) == map[]
  {
    AllocatedBounded(t);
    if t.kind.Consensus? {
      var assignees := t.kind.assignees;
      if !t.status.Paid? {
        var k :| k in assignees && assignees[k].share.Some? && !assignees[k].paid;
        assert k in Owed(t);
      }
    } else if Contest(t) {
      ContestPaidMeansNothingOwed(t);
    } else {
      var k := MapSums.Pick(Allocated(t));
      assert t.status.Paid? || k in Owed(t);
    }
  }

  lemma ContestPaidMeansNothingOwed(t: Task)
    requires TaskOk(t) && Contest(t) && Decided(t.status)
    ensures AllSharesPaid(t.kind.answers) <==> Owed(t) == map[]
  {
    var answers := t.kind.answers;
    if AllSharesPaid(answers) {
      ContestSharesSize(answers);
      forall k | k in Allocated(t) ensures IsPaid(t, k) {
        var i :| 0 <= i < |answers| && answers[i].pubkey == k && answers[i].share == Some(ContestShares(answers)[k]);
        assert answers[i] in answers;
      }
    } else {
      var i :| 0 <= i < |answers| && answers[i].share.Some? && !answers[i].paid;
      ContestSharesAt(answers, i);
      OnlyOwnAnswer(answers, i);
      assert answers[i].pubkey in Owed(t);
    }
  }

  lemma OnlyOwnAnswer(answers: seq<ContestAnswer>, i: nat)
    requires i < |answers| && DistinctAnswers(answers)
    ensures AnswerPaid(answers, answers[i].pubkey) <==> answers[i].paid
  {
  }

  /** `paid_payouts` and `owed_payouts` split a decided task's allocation, which is at
      most the bounty; and `Paid` is exactly the state in which nothing is owed. */
  lemma OwedAndPaidPartition(t: Task)
    requires TaskOk(t) && Decided(t.status)
    ensures Owed(t).Keys !! PaidOut(t).Keys && Owed(t).Keys + PaidOut(t).Keys == Allocated(t).Keys
    ensures Total(Owed(t)) + Total(PaidOut(t)) == Total(Allocated(t)) <= t.bounty
    ensures !t.status.PayoutFailed? ==> (t.status.Paid? <==> Owed(t) == map[])
  {
    AllocatedBounded(t);
    assert Owed(t).Keys + PaidOut(t).Keys == Allocated(t).Keys;
    SumUnion(Owed(t), PaidOut(t), AMOUNT);
    assert Allocated(t) == Owed(t) + PaidOut(t);
    if !t.status.PayoutFailed? {
      PaidMeansNothingOwed(t);
    }
  }

  /** `mark_recipient_paid` is refused exactly for a key the task pays nothing. */
  lemma MarkPaidAccepts(t: Task, recipient: Key, now: Time)
    requires TaskOk(t) && (t.status.Verified? || t.status.Submitted?)
    ensures ApplyMarkPaid(t, recipient, now).Done? <==> recipient in Allocated(t)
  {
    if Contest(t) {
      FindAnswerInRange(t.kind.answers, recipient);
      FindsItsShare(t.kind.answers, recipient);
    }
  }

  /** An answerer has a share exactly when the answer found under its key has one. */
  lemma FindsItsShare(answers: seq<ContestAnswer>, k: Key)
    requires DistinctAnswers(answers)
    ensures k in ContestShares(answers) <==>
      && FindAnswer(answers, k).Some? && FindAnswer(answers, k).value < |answers|
      && answers[FindAnswer(answers, k).value].share.Some?
  {
    FindAnswerInRange(answers, k);
    if FindAnswer(answers, k).Some? {
      ContestSharesAt(answers, FindAnswer(answers, k).value);
    } else {
      ContestSharesSize(answers);
    }
  }

  lemma MarkPaidIsPaid(t: Task, recipient: Key, now: Time)
    requires TaskOk(t) && ApplyMarkPaid(t, recipient, now).Done?
    ensures forall k :: k in Allocated(t) ==>
      (IsPaid(ApplyMarkPaid(t, recipient, now).task, k) <==> IsPaid(t, k) || k == recipient)
  {
    MarkPaidAccepts(t, recipient, now);
    if Contest(t) {
      var answers := t.kind.answers;
      FindAnswerInRange(answers, recipient);
      var r := FindAnswer(answers, recipient).value;
      OnlyOwnAnswer(answers, r);
      AnswerMarkedPaid(answers, r);
    }
  }

  lemma RepeatedPayment(t: Task, recipient: Key, now: Time)
    requires TaskOk(t) && ApplyMarkPaid(t, recipient, now).Done? && IsPaid(t, recipient)
    ensures ApplyMarkPaid(t, recipient, now).task == t
  {
    if Contest(t) {
      FindAnswerInRange(t.kind.answers, recipient);
      OnlyOwnAnswer(t.kind.answers, FindAnswer(t.kind.answers, recipient).value);
    }
  }

  lemma PaymentMoves(t: Task, t': Task, recipient: Key)
    requires Allocated(t') == Allocated(t) && recipient in Allocated(t) && !IsPaid(t, recipient)
    requires forall k :: k in Allocated(t) ==> (IsPaid(t', k) <==> IsPaid(t, k) || k == recipient)
    ensures recipient in Owed(t)
    ensures Owed(t') == Owed(t) - {recipient}
    ensures PaidOut(t') == PaidOut(t)[recipient := Owed(t)[recipient]]
    ensures Total(PaidOut(t')) == Total(PaidOut(t)) + Owed(t)[recipient]
  {
    SumUpdate(PaidOut(t), recipient, Owed(t)[recipient], AMOUNT);
  }

  /** A payment moves exactly one recipient, with the amount it was owed, from owed to
      paid; repeating it changes nothing. */
  lemma MarkPaidMovesOne(t: Task, recipient: Key, now: Time)
    requires TaskOk(t) && ApplyMarkPaid(t, recipient, now).Done?
    ensures
      var t' := ApplyMarkPaid(t, recipient, now).task;
      if IsPaid(t, recipient) then t' == t
      else
        && recipient in Owed(t)
        && Owed(t') == Owed(t) - {recipient}
        && PaidOut(t') == PaidOut(t)[recipient := Owed(t)[recipient]]
        && Total(PaidOut(t')) == Total(PaidOut(t)) + Owed(t)[recipient]
  {
    if IsPaid(t, recipient) {
      RepeatedPayment(t, recipient, now);
    } else {
      var t' := ApplyMarkPaid(t, recipient, now).task;
      MarkPaidAccepts(t, recipient, now);
      MarkPaidIsPaid(t, recipient, now);
      StepProgress(t, MarkPaid(recipient, now), t');
      PaymentMoves(t, t', recipient);
    }
  }

  lemma MarkPaidStatus(t: Task, recipient: Key, now: Time)
    requires TaskOk(t) && ApplyMarkPaid(t, recipient, now).Done?
    ensures
      var t' := ApplyMarkPaid(t, recipient, now).task;
      (t'.status.Paid? || t'.status == t.status) && (t'.status.Paid? ==> Owed(t') == map[])
  {
    MarkPaidOk(t, recipient, now);
    PaidMeansNothingOwed(ApplyMarkPaid(t, recipient, now).task);
  }

  /** What one payment of an owed amount does to a task. */
  ghost predicate Settles(t: Task, recipient: Key, amount: nat, t': Task) {
    MovesAmount(t, recipient, amount, t') && StaysOnTrack(t, t')
  }

  ghost predicate MovesAmount(t: Task, recipient: Key, amount: nat, t': Task) {
    && recipient in Owed(t) && Owed(t') == Owed(t) - {recipient}
    && recipient !in PaidOut(t) && PaidOut(t') == PaidOut(t)[recipient := amount]
    && Total(PaidOut(t')) == Total(PaidOut(t)) + amount
  }

  ghost predicate StaysOnTrack(t: Task, t': Task) {
    && t'.id == t.id && TaskOk(t') && Progress(t, t')
    && (t'.status.Paid? || t'.status == t.status) && (t'.status.Paid? ==> Owed(t') == map[])
  }

  lemma PaymentMovesAmount(t: Task, recipient: Key, now: Time)
    requires TaskOk(t) && recipient in Owed(t) && ApplyMarkPaid(t, recipient, now).Done?
    ensures MovesAmount(t, recipient, Owed(t)[recipient], ApplyMarkPaid(t, recipient, now).task)
  {
    MarkPaidMovesOne(t, recipient, now);
  }

  lemma PaymentStaysOnTrack(t: Task, recipient: Key, now: Time)
    requires TaskOk(t) && ApplyMarkPaid(t, recipient, now).Done?
    ensures StaysOnTrack(t, ApplyMarkPaid(t, recipient, now).task)
  {
    MarkPaidOk(t, recipient, now);
    MarkPaidStatus(t, recipient, now);
    StepProgress(t, MarkPaid(recipient, now), ApplyMarkPaid(t, recipient, now).task);
  }

  lemma PaymentSettles(t: Task, recipient: Key, now: Time)
    requires TaskOk(t) && (t.status.Verified? || t.status.Submitted?) && recipient in Owed(t)
    ensures ApplyMarkPaid(t, recipient, now).Done?
    ensures Settles(t, recipient, Owed(t)[recipient], ApplyMarkPaid(t, recipient, now).task)
  {
    MarkPaidAccepts(t, recipient, now);
    PaymentMovesAmount(t, recipient, now);
    PaymentStaysOnTrack(t, recipient, now);
  }

  // ----- consensus -------------------------------------------------------------------------

  /** The step that calls `resolve_consensus`. */
  ghost predicate Resolves(t: Task, op: Op) {
    && t.kind.Consensus? && t.status.Claimed?
    && match op
       case SubmitConsensus(agent, answer, now) =>
         && ApplySubmitConsensus(t, agent, answer, now).Done?
         && forall k <- t.kind.assignees :: k == agent || t.kind.assignees[k].answer.Some?
       case ResolveExpired(now) => t.kind.submissionDeadline.Some? && now > t.kind.submissionDeadline.value
       case _ => false
  }

  /** The votes `resolve_consensus` counts at that step: the last one is the agent's own answer. */
  ghost function VotesAt(t: Task, op: Op): map<Key, Assignment>
    requires Resolves(t, op)
  {
    var cast := t.kind.assignees;
    if op.SubmitConsensus? then cast[op.agent := cast[op.agent].(answer := Some(op.answer))] else cast
  }

  lemma LastVote(t: Task, agent: Key, answer: string)
    requires t.kind.Consensus? && agent in t.kind.assignees
    ensures
      var all := Answered(t, agent, answer).kind.assignees;
      (forall k <- all :: all[k].answer.Some?)
        <==> forall k <- t.kind.assignees :: k == agent || t.kind.assignees[k].answer.Some?
  {
    var all := Answered(t, agent, answer).kind.assignees;
    assert forall k <- t.kind.assignees :: k in all && (k != agent ==> all[k] == t.kind.assignees[k]);
  }

  /** Both resolving steps are `resolve_consensus` on the votes they find. */
  lemma ResolutionIs(t: Task, op: Op)
    requires TaskOk(t) && Resolves(t, op)
    ensures
      var voted := t.(kind := t.kind.(assignees := VotesAt(t, op)));
      && Apply(t, op) == Done(Resolved(voted)) && Dinged(t, op) == Losers(voted)
      && forall k <- voted.kind.assignees :: voted.kind.assignees[k].share.None?
  {
    if op.SubmitConsensus? {
      LastVote(t, op.agent, op.answer);
    }
  }

  /** Each of the k winners gets bounty / k, less than k is left over, every other
      assignee is dinged; without a majority the task closes and nobody is. */
  lemma ResolutionPays(t: Task, op: Op)
    requires TaskOk(t) && Resolves(t, op)
    ensures Apply(t, op).Done?
    ensures
      var votes, t' := VotesAt(t, op), Apply(t, op).task;
      match Majority(votes)
      case None => t'.status.Closed? && t'.closeReason == Some(NoMajority) && Dinged(t, op) == {}
      case Some(a) =>
        var winners := Voters(votes, a);
        && t'.status.Verified?
        && 0 < |winners| && Allocated(t').Keys == winners
        && (forall k <- winners :: Allocated(t')[k] == t.bounty / |winners|)
        && Total(Allocated(t')) <= t.bounty < Total(Allocated(t')) + |winners|
        && Dinged(t, op) == votes.Keys - winners
  {
    var votes := VotesAt(t, op);
    ResolutionIs(t, op);
    MajorityVoters(votes);
    if Majority(votes).Some? {
      WinnersTotal(votes, Voters(votes, Majority(votes).value), t.bounty);
    }
  }

  /** A task is resolved at most once in its life. */
  lemma ResolvesAtMostOnce(states: seq<Task>, ops: seq<Op>, i: nat, j: nat)
    requires IsRun(states, ops) && (Created(states[0]) || TaskOk(states[0])) && i <= j < |ops|
    requires Resolves(states[i], ops[i]) && Resolves(states[j], ops[j])
    ensures i == j
  {
    if i < j {
      RunOk(states, ops, i, Cancel);
      ResolutionPays(states[i], ops[i]);
      assert StepAt(states, ops, i);
      RunProgress(states, ops, i + 1, j);
    }
  }

  // ----- contests and disputes ---------------------------------------------------------------

  function Answerers(answers: seq<ContestAnswer>): set<Key> { set a <- answers :: a.pubkey }

  lemma HeadIsNew(answers: seq<ContestAnswer>)
    requires DistinctAnswers(answers) && answers != []
    ensures answers[0].pubkey !in Answerers(answers[1..])
    ensures Answerers(answers) == Answerers(answers[1..]) + {answers[0].pubkey}
  {
    assert answers == [answers[0]] + answers[1..];
  }

  lemma OneKeyMore(m: map<Key, nat>, k: Key, c: nat)
    requires k !in m
    ensures m[k := c].Keys == m.Keys + {k} && |m[k := c]| == |m| + 1
  {
    assert m[k := c].Keys == m.Keys + {k};
    assert |m[k := c]| == |m[k := c].Keys|;
  }

  lemma {:induction false} EveryoneShares(answers: seq<ContestAnswer>, c: nat)
    requires DistinctAnswers(answers) && forall a <- answers :: a.share == Some(c)
    ensures ContestShares(answers).Keys == Answerers(answers) && |ContestShares(answers)| == |answers|
    ensures forall k <- ContestShares(answers) :: ContestShares(answers)[k] == c
    decreases |answers|
  {
    if answers != [] {
      EveryoneShares(answers[1..], c);
      HeadIsNew(answers);
      OneKeyMore(ContestShares(answers[1..]), answers[0].pubkey, c);
    }
  }

  /** `pick_answer` pays the whole bounty to the answer picked. */
  lemma PickPaysTheBounty(t: Task, caller: Key, answerer: Key, now: Time)
    requires TaskOk(t) && ApplyPick(t, caller, answerer, now).Done?
    ensures
      var t' := ApplyPick(t, caller, answerer, now).task;
      && caller == t.poster && t'.status.Verified? && t'.kind.picked == Some(answerer)
      && answerer in Answerers(t.kind.answers) && Allocated(t') == map[answerer := t.bounty]
  {
    var answers := t.kind.answers;
    FindAnswerInRange(answers, answerer);
    OneShare(answers, FindAnswer(answers, answerer).value, t.bounty);
  }

  /** A contest nobody picked is split evenly over every answer, less than one each left over. */
  lemma SplitPaysEvenly(t: Task, now: Time)
    requires TaskOk(t) && Contest(t) && Apply(t, SplitUnpicked(now)).task != t
    ensures
      var t', n := Apply(t, SplitUnpicked(now)).task, |t.kind.answers|;
      && t'.status.Verified? && t'.kind.picked == t.kind.picked
      && Allocated(t').Keys == Answerers(t.kind.answers)
      && (forall k <- Allocated(t') :: Allocated(t')[k] == t.bounty / n)
      && Total(Allocated(t')) <= t.bounty < Total(Allocated(t')) + n
  {
    SplitAllocates(t.kind.answers, t.bounty);
  }

  lemma SplitAllocates(answers: seq<ContestAnswer>, bounty: nat)
    requires DistinctAnswers(answers) && answers != []
    ensures
      var n := |answers|;
      var shares := ContestShares(SplitShares(answers, ShareOf(bounty, n)));
      && shares.Keys == Answerers(answers) && (forall k <- shares :: shares[k] == bounty / n)
      && Total(shares) <= bounty < Total(shares) + n
  {
    var n := |answers|;
    var share := ShareOf(bounty, n);
    var split := SplitShares(answers, share);
    EveryoneShares(split, share);
    SameAnswerers(answers, split);
    SumConst(ContestShares(split), share);
    EvenShares(bounty, n, n);
  }

  lemma SameAnswerers(a: seq<ContestAnswer>, b: seq<ContestAnswer>)
    requires |a| == |b| && forall i :: 0 <= i < |a| ==> a[i].pubkey == b[i].pubkey
    ensures Answerers(a) == Answerers(b)
  {
    forall k | k in Answerers(a) ensures k in Answerers(b) {
      var i :| 0 <= i < |a| && a[i].pubkey == k;
      assert b[i] in b;
    }
    forall k | k in Answerers(b) ensures k in Answerers(a) {
      var i :| 0 <= i < |b| && b[i].pubkey == k;
      assert a[i] in a;
    }
  }

  /** A resolved dispute owes the whole bounty to the winner and dings only the loser, who
      is someone else. */
  lemma DisputePaysTheWinner(t: Task, outcome: Resolution)
    requires TaskOk(t) && t.status.Disputed?
    ensures Apply(t, ResolveDispute(outcome)).Done?
    ensures
      var t', d := Apply(t, ResolveDispute(outcome)).task, t.kind.dispute.value;
      var winner := if outcome.ChallengerWins? then d.challenger else t.claimant.value;
      && t'.status.Verified? && Allocated(t') == map[winner := t.bounty]
      && |Dinged(t, ResolveDispute(outcome))| == 1 && winner !in Dinged(t, ResolveDispute(outcome))
  {
  }

  /** The only ways a task gets a winner: the claimant's matching hash; a vote with a
      majority; the poster's pick in time, or the split after it; an unchallenged answer
      once its window is over, or a dispute's resolution. */
  lemma WhatDecides(t: Task, op: Op)
    requires TaskOk(t) && !Decided(t.status) && Apply(t, op).Done? && Decided(Apply(t, op).task.status)
    ensures Apply(t, op).task.status.Verified?
    ensures t.kind.HashMatch? ==>
      op == Submit(t.claimant.value, t.kind.expectedOutputHash)
        && Allocated(Apply(t, op).task) == map[t.claimant.value := t.bounty]
    ensures t.kind.Consensus? ==> Resolves(t, op) && Majority(VotesAt(t, op)).Some?
    ensures Contest(t) ==>
      && t.status.AwaitingPick?
      && ((op.Pick? && op.caller == t.poster && op.now <= t.kind.pickDeadline.value)
          || (op.SplitUnpicked? && op.now > t.kind.pickDeadline.value))
    ensures t.kind.Disputable? && !Contest(t) ==>
      || (op.FinalizeUnchallenged? && t.kind.dispute.None? && op.now > t.kind.disputeDeadline.value
          && Allocated(Apply(t, op).task) == map[t.claimant.value := t.bounty])
      || (op.ResolveDispute? && t.status.Disputed?)
  {
    if t.kind.Consensus? {
      ConsensusDecides(t, op);
    } else if Contest(t) {
      ContestDecides(t, op);
    }
  }

  lemma ConsensusDecides(t: Task, op: Op)
    requires TaskOk(t) && t.kind.Consensus? && !Decided(t.status) && Apply(t, op).Done?
    requires Decided(Apply(t, op).task.status)
    ensures Apply(t, op).task.status.Verified? && Resolves(t, op) && Majority(VotesAt(t, op)).Some?
  {
    if op.SubmitConsensus? {
      LastVote(t, op.agent, op.answer);
    }
  }

  lemma ContestDecides(t: Task, op: Op)
    requires TaskOk(t) && Contest(t) && !Decided(t.status) && Apply(t, op).Done? && Decided(Apply(t, op).task.status)
    ensures Apply(t, op).task.status.Verified? && t.status.AwaitingPick?
    ensures
      || (op.Pick? && op.caller == t.poster && op.now <= t.kind.pickDeadline.value)
      || (op.SplitUnpicked? && op.now > t.kind.pickDeadline.value)
  {
  }
}
