// Where what a task records comes from: exactly which requests the board accepts, what each
// one changes, and which earlier request every vote, answer, claim and dispute goes back to.

module TaskHistory {
  import opened Basics
  import opened Tasks
  import opened TaskInvariant
  import opened TaskRuns

  // ----- what the board accepts -----------------------------------------------------------

  /** The requests a task takes. The sweeps visit every task and are never refused. */
  ghost predicate Allows(t: Task, op: Op) {
    match op
    case Claim(agent, _, have) =>
      t.kind.HashMatch? && t.status.Open? && agent != t.poster && have >= t.minReputation
    case Join(agent, now, have) =>
      && t.kind.Consensus? && t.status.Open? && agent != t.poster && have >= t.minReputation
      && now <= t.kind.joinDeadline && agent !in t.kind.assignees
    case Submit(agent, _) => t.kind.HashMatch? && t.status.Claimed? && t.claimant == Some(agent)
    case SubmitContest(agent, _, now, have) =>
      && t.kind.Disputable? && t.status.Open? && agent != t.poster && have >= t.minReputation
      && now <= t.createdAt + t.kind.window && agent !in Answerers(t.kind.answers) && |t.kind.answers| < 10
    case CloseContest(caller, now) =>
      t.kind.Disputable? && t.status.Open? && caller == t.poster && now <= t.createdAt + t.kind.window
    case Pick(caller, answerer, now) =>
      && t.kind.Disputable? && t.status.AwaitingPick? && caller == t.poster
      && t.kind.pickDeadline.Some? && now <= t.kind.pickDeadline.value && answerer in Answerers(t.kind.answers)
    case SubmitConsensus(agent, _, now) =>
      && t.kind.Consensus? && t.status.Claimed?
      && t.kind.submissionDeadline.Some? && now <= t.kind.submissionDeadline.value
      && agent in t.kind.assignees && t.kind.assignees[agent].answer.None?
    case FileDispute(challenger, _, _, now) =>
      && t.kind.Disputable? && t.status.AwaitingDispute?
      && t.kind.disputeDeadline.Some? && now <= t.kind.disputeDeadline.value && t.claimant != Some(challenger)
    case ResolveDispute(_) => t.status.Disputed?
    case Cancel => t.status.Open? || t.status.Claimed? || t.status.AwaitingDispute? || t.status.AwaitingPick?
    case MarkPaid(recipient, _) => (t.status.Verified? || t.status.Submitted?) && recipient in Allocated(t)
    case MarkFailed => t.status.Verified? || t.status.Submitted?
    case _ => true
  }

  lemma AcceptedIff(t: Task, op: Op)
    requires TaskOk(t)
    ensures Apply(t, op).Done? <==> Allows(t, op)
  {
    if op.MarkPaid? && (t.status.Verified? || t.status.Submitted?) {
      MarkPaidAccepts(t, op.recipient, op.now);
    } else if op.Pick? && t.kind.Disputable? {
      FindAnswerInRange(t.kind.answers, op.answerer);
    }
  }

  /** What a refusal says is so. */
  ghost predicate Blames(t: Task, op: Op, e: Error) {
    match e
    case NotOpen => (op.Claim? || op.Join? || op.CloseContest?) && !t.status.Open?
    case NotClaimed => (op.Submit? || op.SubmitConsensus?) && !t.status.Claimed?
    case NotClaimant =>
      || (op.Submit? && t.claimant != Some(op.submitter))
      || (op.SubmitConsensus? && t.kind.Consensus? && op.agent !in t.kind.assignees)
      || (op.MarkPaid? && op.recipient !in Allocated(t))
    case NotVerified => (op.MarkPaid? || op.MarkFailed?) && !t.status.Verified? && !t.status.Submitted?
    case AlreadyJoined => op.Join? && t.kind.Consensus? && op.agent in t.kind.assignees
    case JoinWindowExpired => op.Join? && t.kind.Consensus? && op.now > t.kind.joinDeadline
    case SubmissionWindowExpired =>
      || (op.SubmitConsensus? && t.kind.Consensus? && t.kind.submissionDeadline.Some?
          && op.now > t.kind.submissionDeadline.value)
      || ((op.SubmitContest? || op.CloseContest?) && t.kind.Disputable? && op.now > t.createdAt + t.kind.window)
    case WrongTaskKind =>
      || ((op.Join? || op.SubmitConsensus?) && !t.kind.Consensus?)
      || (op.Submit? && !t.kind.HashMatch?)
      || (op.Claim? && t.kind.Consensus?)
      || ((op.SubmitContest? || op.CloseContest? || op.Pick? || op.FileDispute?) && !t.kind.Disputable?)
    case ContestTakesNoClaim => op.Claim? && t.kind.Disputable?
    case AlreadySubmitted =>
      || (op.SubmitConsensus? && t.kind.Consensus? && op.agent in t.kind.assignees
          && t.kind.assignees[op.agent].answer.Some?)
      || (op.SubmitContest? && t.kind.Disputable? && op.submitter in Answerers(t.kind.answers))
    case InsufficientReputation => (op.Claim? || op.Join? || op.SubmitContest?) && op.have < t.minReputation
    case PosterCannotClaimOwnTask =>
      (op.Claim? && op.claimant == t.poster) || (op.Join? && op.agent == t.poster)
    case PosterCannotAnswerOwnTask => op.SubmitContest? && op.submitter == t.poster
    case SubmissionsClosed => op.SubmitContest? && !t.status.Open?
    case ContestFull => op.SubmitContest? && t.kind.Disputable? && |t.kind.answers| >= 10
    case NotPoster => (op.CloseContest? || op.Pick?) && op.caller != t.poster
    case NotAwaitingPick => op.Pick? && !t.status.AwaitingPick?
    case PickWindowClosed =>
      op.Pick? && t.kind.Disputable? && t.kind.pickDeadline.Some? && op.now > t.kind.pickDeadline.value
    case NotAnAnswer => op.Pick? && t.kind.Disputable? && op.answerer !in Answerers(t.kind.answers)
    case NotDisputed => op.ResolveDispute? && !t.status.Disputed?
    case CannotCancelWhileDisputed => op.Cancel? && t.status.Disputed?
    case AlreadyTerminal => op.Cancel? && (t.status.Closed? || Decided(t.status))
    case DisputeWindowClosed =>
      && op.FileDispute? && t.kind.Disputable?
      && (!t.status.AwaitingDispute? || t.kind.disputeDeadline.None? || op.now > t.kind.disputeDeadline.value)
    case AssigneeCannotDisputeOwnSubmission => op.FileDispute? && t.claimant == Some(op.challenger)
    case _ => false
  }

  lemma RefusedForCause(t: Task, op: Op)
    requires TaskOk(t) && Apply(t, op).Fail?
    ensures Blames(t, op, Apply(t, op).error)
  {
    if op.MarkPaid? {
      PaymentRefused(t, op);
    } else if op.Pick? {
      PickRefused(t, op);
    } else if OfDisputable(op) {
      DisputableRefused(t, op);
    } else {
      OtherRefused(t, op);
    }
  }

  lemma PaymentRefused(t: Task, op: Op)
    requires TaskOk(t) && op.MarkPaid? && Apply(t, op).Fail?
    ensures Blames(t, op, Apply(t, op).error)
  {
    if t.status.Verified? || t.status.Submitted? {
      MarkPaidAccepts(t, op.recipient, op.now);
    }
  }

  lemma PickRefused(t: Task, op: Op)
    requires op.Pick? && Apply(t, op).Fail?
    ensures Blames(t, op, Apply(t, op).error)
  {
    if t.kind.Disputable? {
      FindAnswerInRange(t.kind.answers, op.answerer);
    }
  }

  lemma DisputableRefused(t: Task, op: Op)
    requires TaskOk(t) && OfDisputable(op) && Apply(t, op).Fail?
    ensures Blames(t, op, Apply(t, op).error)
  {
  }

  lemma OtherRefused(t: Task, op: Op)
    requires Apply(t, op).Fail? && !op.MarkPaid? && !op.Pick? && !OfDisputable(op)
    ensures Blames(t, op, Apply(t, op).error)
  {
  }

  // ----- what changes the status -------------------------------------------------------------

  /** The steps that give a task its winner, from what the task and the request say. */
  ghost predicate Decides(t: Task, op: Op) {
    match op
    case Submit(_, hash) => t.kind.HashMatch? && hash == t.kind.expectedOutputHash
    case Pick(_, _, _) => true
    case SplitUnpicked(now) =>
      t.kind.Disputable? && t.status.AwaitingPick? && t.kind.pickDeadline.Some? && now > t.kind.pickDeadline.value
    case FinalizeUnchallenged(now) =>
      && t.kind.Disputable? && t.status.AwaitingDispute?
      && t.kind.disputeDeadline.Some? && now > t.kind.disputeDeadline.value && t.kind.dispute.None?
    case ResolveDispute(_) => true
    case _ => Resolves(t, op) && Majority(VotesAt(t, op)).Some?
  }

  /** Why the board closes a task without paying anyone. */
  ghost predicate Closes(t: Task, op: Op, why: CloseReason) {
    match why
    case NoMajority => Resolves(t, op) && Majority(VotesAt(t, op)).None?
    case Understaffed =>
      op.CancelUnderstaffed? && t.kind.Consensus? && t.status.Open? && op.now > t.kind.joinDeadline
    case CancelledByOperator => op.Cancel?
    case NoAnswers => op.CloseContest? && t.kind.Disputable? && t.kind.answers == []
    case NeverClosed =>
      op.CloseUnclosed? && t.kind.Disputable? && t.status.Open? && op.now > t.createdAt + t.kind.window
  }

  /** Every change of status, both ways round. */
  lemma StatusChangesIff(t: Task, op: Op, t': Task)
    requires Apply(t, op) == Done(t')
    ensures t'.status.Open? && !t.status.Open? <==>
      || (op.Submit? && op.outputHash != t.kind.expectedOutputHash)
      || (op.ExpireClaims? && t.status.Claimed? && t.claimDeadline.Some? && op.now > t.claimDeadline.value)
    ensures t'.status.Claimed? && !t.status.Claimed? <==>
      op.Claim? || (op.Join? && |t.kind.assignees| + 1 >= t.kind.numAssignees)
    ensures t'.status.AwaitingPick? && !t.status.AwaitingPick? <==> op.CloseContest? && t.kind.answers != []
    ensures t'.status.Disputed? && !t.status.Disputed? <==> op.FileDispute?
    ensures t'.status.Verified? && !t.status.Verified? <==> Decides(t, op)
    ensures t'.status.Submitted? && !t.status.Submitted? <==> op.MarkSubmitted? && t.status.Verified?
    ensures t'.status.PayoutFailed? && !t.status.PayoutFailed? <==> op.MarkFailed?
    ensures t'.status.AwaitingDispute? ==> t.status.AwaitingDispute?
  {
    if op.SubmitConsensus? {
      LastVote(t, op.agent, op.answer);
    }
  }

  lemma ClosedIff(t: Task, op: Op, t': Task, why: CloseReason)
    requires Apply(t, op) == Done(t')
    ensures !t.status.Closed? && t'.status.Closed? && t'.closeReason == Some(why) <==> Closes(t, op, why)
    ensures !t.status.Closed? && t'.status.Closed? ==> t'.closeReason.Some?
    ensures !t'.status.Closed? ==> t'.closeReason == t.closeReason
  {
    if op.SubmitConsensus? {
      LastVote(t, op.agent, op.answer);
    }
  }

  lemma PaidIff(t: Task, op: Op, t': Task)
    requires TaskOk(t) && Apply(t, op) == Done(t')
    ensures !t.status.Paid? && t'.status.Paid? <==>
      op.MarkPaid? && forall k <- Allocated(t) :: IsPaid(t, k) || k == op.recipient
    ensures !t.status.Paid? && t'.status.Paid? ==> t'.settledAt == Some(op.now)
  {
    if op.MarkPaid? {
      LastPayment(t, op.recipient, op.now, t');
    } else {
      OnlyPaymentsPay(t, op, t');
    }
  }

  lemma OnlyPaymentsPay(t: Task, op: Op, t': Task)
    requires Apply(t, op) == Done(t') && !op.MarkPaid?
    ensures t'.status.Paid? ==> t.status.Paid?
  {
  }

  lemma LastPayment(t: Task, recipient: Key, now: Time, t': Task)
    requires TaskOk(t) && ApplyMarkPaid(t, recipient, now) == Done(t')
    ensures t'.status.Paid? <==> forall k <- Allocated(t) :: IsPaid(t, k) || k == recipient
    ensures t'.status.Paid? ==> t'.settledAt == Some(now)
  {
    MarkPaidIsPaid(t, recipient, now);
    PaymentKeepsDecided(t, recipient, now, t');
    PaidMeansNothingOwed(t');
    NothingOwed(t');
  }

  lemma PaymentKeepsDecided(t: Task, recipient: Key, now: Time, t': Task)
    requires TaskOk(t) && ApplyMarkPaid(t, recipient, now) == Done(t')
    ensures TaskOk(t') && Decided(t'.status) && !t'.status.PayoutFailed? && Allocated(t') == Allocated(t)
    ensures t'.status.Paid? ==> t'.settledAt == Some(now)
  {
    MarkPaidOk(t, recipient, now);
    MarkPaidStatus(t, recipient, now);
    StepProgress(t, MarkPaid(recipient, now), t');
  }

  lemma NothingOwed(t: Task)
    ensures Owed(t) == map[] <==> forall k <- Allocated(t) :: IsPaid(t, k)
  {
    if k :| k in Allocated(t) && !IsPaid(t, k) {
      assert k in Owed(t);
    }
  }

  /** Who an accepted step dings: the claimant whose hash was wrong, the loser of a dispute,
      and every assignee that did not vote with the majority. */
  lemma DingedIff(t: Task, op: Op, t': Task, k: Key)
    requires TaskOk(t) && Apply(t, op) == Done(t')
    ensures k in Dinged(t, op) <==>
      || (op.Submit? && t.claimant == Some(k) && op.outputHash != t.kind.expectedOutputHash)
      || (op.ResolveDispute? && (t.claimant == Some(k) || t.kind.dispute.value.challenger == k) && k !in Allocated(t'))
      || (Resolves(t, op) && Majority(VotesAt(t, op)).Some? && k in VotesAt(t, op)
          && VotesAt(t, op)[k].answer != Majority(VotesAt(t, op)))
  {
    if op.SubmitConsensus? {
      LastVote(t, op.agent, op.answer);
    }
  }

  // ----- what else a step records --------------------------------------------------------------

  /** What is agreed when a task is created, and its funding. */
  predicate SameTerms(t: Task, t': Task) {
    && t'.id == t.id && t'.bounty == t.bounty && t'.poster == t.poster && t'.createdAt == t.createdAt
    && t'.minReputation == t.minReputation && t'.escrowId == t.escrowId && SameKind(t.kind, t'.kind)
  }

  predicate SameKind(kind: Kind, kind': Kind) {
    match kind
    case HashMatch(hash) => kind' == HashMatch(hash)
    case Consensus(n, joinDeadline, window, _, _) =>
      && kind'.Consensus? && kind'.numAssignees == n && kind'.joinDeadline == joinDeadline
      && kind'.submissionWindow == window
    case Disputable(answer, window, disputeDeadline, _, _, _, _) =>
      && kind'.Disputable? && kind'.answer == answer && kind'.window == window
      && kind'.disputeDeadline == disputeDeadline
  }

  lemma StepKeepsKind(t: Task, op: Op, t': Task)
    requires Next(t, op, t')
    ensures SameKind(t.kind, t'.kind)
  {
  }

  lemma StepKeepsTerms(t: Task, op: Op, t': Task)
    requires Next(t, op, t')
    ensures SameTerms(t, t')
  {
    StepKeepsKind(t, op, t');
  }

  lemma {:induction false} TermsNeverChange(states: seq<Task>, ops: seq<Op>, i: nat, j: nat)
    requires IsRun(states, ops) && i <= j < |states|
    ensures SameTerms(states[i], states[j])
    decreases j
  {
    if i < j {
      TermsNeverChange(states, ops, i, j - 1);
      assert StepAt(states, ops, j - 1);
      StepKeepsTerms(states[j - 1], ops[j - 1], states[j]);
    }
  }

  /** Deadlines run from the request that sets them, and only the request for it counts or picks. */
  lemma StepRecords(t: Task, op: Op, t': Task)
    requires Apply(t, op) == Done(t') && SameTerms(t, t')
    ensures t'.failedAttempts == t.failedAttempts + if op.Submit? && t'.status.Open? then 1 else 0
    ensures t.kind.Consensus? ==>
      t'.kind.submissionDeadline == if op.Join? && t'.status.Claimed?
                                    then Some(op.now + t.kind.submissionWindow) else t.kind.submissionDeadline
    ensures t.kind.Disputable? ==>
      t'.kind.pickDeadline == if op.CloseContest? && t'.status.AwaitingPick?
                              then Some(op.now + t.kind.window) else t.kind.pickDeadline
    ensures t.kind.Disputable? ==> t'.kind.picked == if op.Pick? then Some(op.answerer) else t.kind.picked
  {
  }

  /** A dispute is its challenger's own, and stays as filed but for the outcome. */
  lemma StepDisputes(t: Task, op: Op, t': Task)
    requires Apply(t, op) == Done(t') && t.kind.Disputable? && t'.kind.Disputable?
    ensures op.FileDispute? ==>
      t'.kind.dispute == Some(Dispute(op.challenger, op.bondEscrowId, op.bondAmount, op.now, None))
    ensures op.ResolveDispute? ==>
      t.kind.dispute.Some? && t'.kind.dispute == Some(t.kind.dispute.value.(resolution := Some(op.outcome)))
    ensures !op.FileDispute? && !op.ResolveDispute? ==> t'.kind.dispute == t.kind.dispute
  {
  }

  // ----- votes ---------------------------------------------------------------------------------

  predicate Voted(t: Task, k: Key, a: string) {
    t.kind.Consensus? && k in t.kind.assignees && t.kind.assignees[k].answer == Some(a)
  }

  predicate Seated(t: Task, k: Key) { t.kind.Consensus? && k in t.kind.assignees }

  /** An accepted vote records the agent's own answer, and nobody else's changes. */
  lemma VoteRecords(t: Task, agent: Key, answer: string, now: Time, t': Task)
    requires Apply(t, SubmitConsensus(agent, answer, now)) == Done(t')
    ensures t.kind.Consensus? && t'.kind.Consensus? && t'.kind.assignees.Keys == t.kind.assignees.Keys
    ensures agent in t'.kind.assignees && t'.kind.assignees[agent].answer == Some(answer)
    ensures forall k <- t.kind.assignees :: k != agent ==>
      t'.kind.assignees[k].answer == t.kind.assignees[k].answer
  {
  }

  lemma VotedStep(t: Task, op: Op, t': Task, k: Key, a: string)
    requires Next(t, op, t')
    ensures Voted(t', k, a) <==>
      Voted(t, k, a) || (op.SubmitConsensus? && op.agent == k && op.answer == a && Apply(t, op).Done?)
  {
    if op.SubmitConsensus? && Apply(t, op).Done? {
      VoteRecords(t, op.agent, op.answer, op.now, t');
    }
  }

  lemma SeatedStep(t: Task, op: Op, t': Task, k: Key)
    requires Next(t, op, t')
    ensures Seated(t', k) <==> Seated(t, k) || (op.Join? && op.agent == k && Apply(t, op).Done?)
  {
    if op.SubmitConsensus? && Apply(t, op).Done? {
      VoteRecords(t, op.agent, op.answer, op.now, t');
    }
  }

  /** `k` voted `a` at step `j`, in time, seated and for the first time. */
  ghost predicate CastAt(states: seq<Task>, ops: seq<Op>, j: nat, k: Key, a: string)
    requires j < |states| && j < |ops|
  {
    ops[j].SubmitConsensus? && ops[j].agent == k && ops[j].answer == a && Allows(states[j], ops[j])
  }

  /** `k` joined at step `j`, in time, with the reputation asked for and not as the poster. */
  ghost predicate JoinedAt(states: seq<Task>, ops: seq<Op>, j: nat, k: Key)
    requires j < |states| && j < |ops|
  {
    ops[j].Join? && ops[j].agent == k && Allows(states[j], ops[j])
  }

  /** The answer recorded for an assignee is the one it submitted. */
  lemma {:induction false} VotesAreTheVotersOwn(states: seq<Task>, ops: seq<Op>, i: nat, k: Key, a: string)
    requires IsRun(states, ops) && Created(states[0]) && i < |states|
    ensures Voted(states[i], k, a) <==> exists j :: 0 <= j < i && CastAt(states, ops, j, k, a)
  {
    if i > 0 {
      VotesAreTheVotersOwn(states, ops, i - 1, k, a);
      VoteAtStep(states, ops, i - 1, k, a);
    }
  }

  lemma VoteAtStep(states: seq<Task>, ops: seq<Op>, j: nat, k: Key, a: string)
    requires IsRun(states, ops) && Created(states[0]) && j < |ops|
    ensures Voted(states[j + 1], k, a) <==> Voted(states[j], k, a) || CastAt(states, ops, j, k, a)
  {
    RunOk(states, ops, j, ops[j]);
    AcceptedIff(states[j], ops[j]);
    assert StepAt(states, ops, j);
    VotedStep(states[j], ops[j], states[j + 1], k, a);
  }

  /** The assignees are the agents that joined. */
  lemma {:induction false} AssigneesJoined(states: seq<Task>, ops: seq<Op>, i: nat, k: Key)
    requires IsRun(states, ops) && Created(states[0]) && i < |states|
    ensures Seated(states[i], k) <==> exists j :: 0 <= j < i && JoinedAt(states, ops, j, k)
  {
    if i > 0 {
      AssigneesJoined(states, ops, i - 1, k);
      SeatAtStep(states, ops, i - 1, k);
    }
  }

  lemma SeatAtStep(states: seq<Task>, ops: seq<Op>, j: nat, k: Key)
    requires IsRun(states, ops) && Created(states[0]) && j < |ops|
    ensures Seated(states[j + 1], k) <==> Seated(states[j], k) || JoinedAt(states, ops, j, k)
  {
    RunOk(states, ops, j, ops[j]);
    AcceptedIff(states[j], ops[j]);
    assert StepAt(states, ops, j);
    SeatedStep(states[j], ops[j], states[j + 1], k);
  }

  // ----- contest answers -------------------------------------------------------------------------

  predicate EnteredIn(answers: seq<ContestAnswer>, k: Key, a: string, at: Time) {
    exists x <- answers :: x.pubkey == k && x.answer == a && x.submittedAt == at
  }

  predicate Entered(t: Task, k: Key, a: string, at: Time) {
    t.kind.Disputable? && EnteredIn(t.kind.answers, k, a, at)
  }

  lemma SameEntries(was: seq<ContestAnswer>, now: seq<ContestAnswer>, k: Key, a: string, at: Time)
    requires SameAnswers(was, now)
    ensures EnteredIn(was, k, a, at) <==> EnteredIn(now, k, a, at)
  {
    forall x | x in was && x.pubkey == k && x.answer == a && x.submittedAt == at ensures EnteredIn(now, k, a, at) {
      var i :| 0 <= i < |was| && was[i] == x;
      assert SameAnswer(was[i], now[i]) && now[i] in now;
    }
    forall x | x in now && x.pubkey == k && x.answer == a && x.submittedAt == at ensures EnteredIn(was, k, a, at) {
      var i :| 0 <= i < |now| && now[i] == x;
      assert SameAnswer(was[i], now[i]) && was[i] in was;
    }
  }

  lemma EnteredStep(t: Task, op: Op, t': Task, k: Key, a: string, at: Time)
    requires TaskOk(t) && Next(t, op, t')
    ensures Entered(t', k, a, at) <==>
      || Entered(t, k, a, at)
      || (op.SubmitContest? && op.submitter == k && op.answer == a && op.now == at && Allows(t, op))
  {
    AcceptedIff(t, op);
    StepKeepsTerms(t, op, t');
    if !t.kind.Disputable? {
    } else if Contest(t) && !t.status.Open? {
      StepProgress(t, op, t');
      SameEntries(t.kind.answers, t'.kind.answers, k, a, at);
    } else if op.SubmitContest? && Apply(t, op).Done? {
      OneEntryMore(t.kind.answers, ContestAnswer(op.submitter, op.answer, op.now, None, false), k, a, at);
    } else {
      assert t'.kind.answers == t.kind.answers;
    }
  }

  lemma OneEntryMore(answers: seq<ContestAnswer>, x: ContestAnswer, k: Key, a: string, at: Time)
    ensures EnteredIn(answers + [x], k, a, at) <==>
      EnteredIn(answers, k, a, at) || (x.pubkey == k && x.answer == a && x.submittedAt == at)
  {
    assert x in answers + [x];
    assert forall y :: y in answers + [x] <==> y in answers || y == x;
  }

  /** `k` answered the contest with `a` at step `j`, when the clock showed `at`. */
  ghost predicate AnsweredAt(states: seq<Task>, ops: seq<Op>, j: nat, k: Key, a: string, at: Time)
    requires j < |states| && j < |ops|
  {
    && ops[j].SubmitContest? && ops[j].submitter == k && ops[j].answer == a && ops[j].now == at
    && Allows(states[j], ops[j])
  }

  /** A contest's answers are the ones submitted, under the keys that submitted them. */
  lemma {:induction false} AnswersAreTheAnswerersOwn(
    states: seq<Task>, ops: seq<Op>, i: nat, k: Key, a: string, at: Time)
    requires IsRun(states, ops) && Created(states[0]) && i < |states|
    ensures Entered(states[i], k, a, at) <==> exists j :: 0 <= j < i && AnsweredAt(states, ops, j, k, a, at)
  {
    if i > 0 {
      AnswersAreTheAnswerersOwn(states, ops, i - 1, k, a, at);
      AnswerAtStep(states, ops, i - 1, k, a, at);
    }
  }

  lemma AnswerAtStep(states: seq<Task>, ops: seq<Op>, j: nat, k: Key, a: string, at: Time)
    requires IsRun(states, ops) && Created(states[0]) && j < |ops|
    ensures Entered(states[j + 1], k, a, at) <==>
      Entered(states[j], k, a, at) || AnsweredAt(states, ops, j, k, a, at)
  {
    RunOk(states, ops, j, ops[j]);
    assert StepAt(states, ops, j);
    EnteredStep(states[j], ops[j], states[j + 1], k, a, at);
  }

  // ----- claims ----------------------------------------------------------------------------------

  lemma ClaimStep(t: Task, op: Op, t': Task)
    requires TaskOk(t) && Next(t, op, t') && t.kind.HashMatch?
    ensures op.Claim? && Apply(t, op).Done? ==>
      t'.claimant == Some(op.claimant) && t'.claimDeadline == Some(op.deadline)
    ensures !(op.Claim? && Apply(t, op).Done?) ==>
      if t.status.Claimed? && t'.status.Open?
      then t'.claimant.None? && t'.claimDeadline.None?
      else t'.claimant == t.claimant && t'.claimDeadline == t.claimDeadline
  {
  }

  /** `k` claimed the task at step `j` and has held it up to state `i`. */
  ghost predicate HeldSince(states: seq<Task>, ops: seq<Op>, j: nat, i: nat, k: Key)
    requires j < i < |states| && j < |ops|
  {
    && ops[j].Claim? && ops[j].claimant == k && Allows(states[j], ops[j])
    && forall m :: j < m <= i ==>
         !states[m].status.Open? && states[m].claimant == Some(k) && states[m].claimDeadline == Some(ops[j].deadline)
  }

  /** A claimant claimed the task itself, by the rules, and it has not been free since. */
  lemma {:induction false} ClaimantClaimed(states: seq<Task>, ops: seq<Op>, i: nat, k: Key) returns (j: nat)
    requires IsRun(states, ops) && Created(states[0]) && states[0].kind.HashMatch?
    requires i < |states| && states[i].claimant == Some(k)
    ensures j < i && HeldSince(states, ops, j, i, k)
  {
    assert i > 0;
    var t, op, t' := states[i - 1], ops[i - 1], states[i];
    TermsNeverChange(states, ops, 0, i - 1);
    RunOk(states, ops, i - 1, op);
    assert StepAt(states, ops, i - 1);
    AcceptedIff(t, op);
    ClaimStep(t, op, t');
    if op.Claim? && Apply(t, op).Done? {
      j := i - 1;
    } else {
      j := ClaimantClaimed(states, ops, i - 1, k);
    }
  }

  /** A hash-match bounty goes to an agent that claimed the task, held it and gave the hash. */
  lemma {:induction false} SolverIsPaid(states: seq<Task>, ops: seq<Op>, i: nat) returns (k: Key, j: nat, m: nat)
    requires IsRun(states, ops) && Created(states[0]) && states[0].kind.HashMatch?
    requires i < |states| && Decided(states[i].status)
    ensures j < m < i && HeldSince(states, ops, j, m, k)
    ensures ops[m] == Submit(k, states[0].kind.expectedOutputHash)
    ensures Allocated(states[i]) == map[k := states[0].bounty]
  {
    assert i > 0;
    var t, op, t' := states[i - 1], ops[i - 1], states[i];
    TermsNeverChange(states, ops, 0, i - 1);
    RunOk(states, ops, i - 1, op);
    assert StepAt(states, ops, i - 1);
    if Decided(t.status) {
      k, j, m := SolverIsPaid(states, ops, i - 1);
      StepProgress(t, op, t');
    } else {
      WhatDecides(t, op);
      k, m := t.claimant.value, i - 1;
      j := ClaimantClaimed(states, ops, m, k);
    }
  }

  // ----- who a vote pays ---------------------------------------------------------------------------

  lemma {:induction false} DecidedByVote(states: seq<Task>, ops: seq<Op>, i: nat) returns (m: nat)
    requires IsRun(states, ops) && Created(states[0]) && states[0].kind.Consensus?
    requires i < |states| && Decided(states[i].status)
    ensures m < i && TaskOk(states[m]) && Resolves(states[m], ops[m]) && Majority(VotesAt(states[m], ops[m])).Some?
    ensures Apply(states[m], ops[m]) == Done(states[m + 1]) && states[m].bounty == states[0].bounty
    ensures Allocated(states[i]) == Allocated(states[m + 1])
  {
    assert i > 0;
    var t, op, t' := states[i - 1], ops[i - 1], states[i];
    TermsNeverChange(states, ops, 0, i - 1);
    RunOk(states, ops, i - 1, op);
    assert StepAt(states, ops, i - 1);
    if Decided(t.status) {
      m := DecidedByVote(states, ops, i - 1);
      StepProgress(t, op, t');
    } else {
      WhatDecides(t, op);
      m := i - 1;
    }
  }

  /** A consensus bounty is shared evenly by exactly the agents that voted for one answer,
      who are more than half of those that joined. */
  lemma MajorityIsPaid(states: seq<Task>, ops: seq<Op>, i: nat) returns (m: nat, a: string)
    requires IsRun(states, ops) && Created(states[0]) && states[0].kind.Consensus?
    requires i < |states| && Decided(states[i].status)
    ensures m < i
    ensures forall k :: k in Allocated(states[i]) <==> exists j :: 0 <= j <= m && CastAt(states, ops, j, k, a)
    ensures states[m + 1].kind.Consensus? && 2 * |Allocated(states[i])| > |states[m + 1].kind.assignees|
    ensures forall k <- Allocated(states[i]) ::
      Allocated(states[i])[k] == states[0].bounty / |Allocated(states[i])|
  {
    m := DecidedByVote(states, ops, i);
    a := WinningVote(states[m], ops[m], states[m + 1]);
    forall k ensures k in Allocated(states[i]) <==> exists j :: 0 <= j <= m && CastAt(states, ops, j, k, a) {
      VotesAreTheVotersOwn(states, ops, m + 1, k, a);
    }
  }

  lemma WinningVote(t: Task, op: Op, t': Task) returns (a: string)
    requires TaskOk(t) && Resolves(t, op) && Majority(VotesAt(t, op)).Some? && Apply(t, op) == Done(t')
    ensures forall k :: k in Allocated(t') <==> Voted(t', k, a)
    ensures t'.kind.Consensus? && 2 * |Allocated(t')| > |t'.kind.assignees|
    ensures forall k <- Allocated(t') :: Allocated(t')[k] == t.bounty / |Allocated(t')|
  {
    var votes := VotesAt(t, op);
    a := Majority(votes).value;
    ResolutionPays(t, op);
    ResolutionIs(t, op);
    assert t'.kind.assignees.Keys == votes.Keys;
    assert |t'.kind.assignees| == |t'.kind.assignees.Keys| == |votes.Keys| == |votes|;
    assert |Allocated(t')| == |Allocated(t').Keys| == |Voters(votes, a)|;
  }
}
