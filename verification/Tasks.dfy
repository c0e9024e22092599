// A task of hub/src/board.rs: three verification kinds, ten statuses, and every
// transition the board makes on one task.

module Tasks {
  import opened Basics

  type Key = PublicKey
  type Time = int

  datatype Status =
    | Open
    | Claimed
    | AwaitingDispute
    | Disputed
    | AwaitingPick
    | Verified
    | Submitted
    | Paid
    | PayoutFailed
    | Closed

  datatype CloseReason = NoMajority | Understaffed | CancelledByOperator | NoAnswers | NeverClosed

  datatype Assignment = Assignment(answer: Option<string>, paid: bool, share: Option<nat>)

  datatype ContestAnswer = ContestAnswer(pubkey: Key, answer: string, submittedAt: Time, share: Option<nat>, paid: bool)

  datatype Resolution = ChallengerWins | AssigneeWins

  datatype Dispute = Dispute(
    challenger: Key, bondEscrowId: Uuid, bondAmount: nat, filedAt: Time, resolution: Option<Resolution>)

  datatype Kind =
    | HashMatch(expectedOutputHash: int)
    | Consensus(
        numAssignees: nat, joinDeadline: Time, submissionWindow: int, submissionDeadline: Option<Time>,
        assignees: map<Key, Assignment>)
    | Disputable(
        answer: Option<string>, window: int, disputeDeadline: Option<Time>, dispute: Option<Dispute>,
        answers: seq<ContestAnswer>, pickDeadline: Option<Time>, picked: Option<Key>)

  datatype Task = Task(
    id: Uuid, bounty: nat, kind: Kind, poster: Key, status: Status, claimant: Option<Key>,
    claimDeadline: Option<Time>, failedAttempts: nat, createdAt: Time, minReputation: nat,
    closeReason: Option<CloseReason>, escrowId: Option<Uuid>, settledAt: Option<Time>)

  const MAX_CONTEST_ANSWERS := 10

  datatype Error =
    | NotFound | NotOpen | NotClaimed | NotClaimant | NotVerified | AlreadyJoined | JoinWindowExpired
    | SubmissionWindowExpired | WrongTaskKind | AlreadySubmitted | InsufficientReputation | AlreadyTerminal
    | PosterCannotClaimOwnTask | DisputeWindowClosed | AssigneeCannotDisputeOwnSubmission | AlreadyDisputed
    | NotDisputed | CannotCancelWhileDisputed | NotPoster | PosterCannotAnswerOwnTask | ContestTakesNoClaim
    | SubmissionsClosed | ContestFull | NotAwaitingPick | PickWindowClosed | NotAnAnswer
    | EscrowNotFound | WrongEscrowPurpose | EscrowNotReserved | EscrowExpired | EscrowUnderfunded

  /** `Panic` is what an `expect` that fails would do. */
  datatype TaskResult = Done(task: Task) | Fail(error: Error) | Panic

  // ----- who a task pays --------------------------------------------------------------

  function AssigneeShares(assignees: map<Key, Assignment>): map<Key, nat> {
    map k <- assignees | assignees[k].share.Some? :: assignees[k].share.value
  }

  function ContestShares(answers: seq<ContestAnswer>): map<Key, nat> {
    if answers == [] then map[]
    else
      var rest := ContestShares(answers[1..]);
      if answers[0].share.Some? then rest[answers[0].pubkey := answers[0].share.value] else rest
  }

  function Single(k: Option<Key>, amount: nat): map<Key, nat> {
    if k.Some? then map[k.value := amount] else map[]
  }

  /** Who is owed the bounty of a task settled before contests. */
  function DisputeWinner(t: Task): Option<Key>
    requires t.kind.Disputable?
  {
    match t.kind.dispute
    case None => t.claimant
    case Some(d) =>
      match d.resolution
      case None => None
      case Some(ChallengerWins) => Some(d.challenger)
      case Some(AssigneeWins) => t.claimant
  }

  /** `allocated_payouts`: everything the task will ever pay. */
  function Allocated(t: Task): map<Key, nat> {
    match t.kind
    case HashMatch(_) => Single(t.claimant, t.bounty)
    case Consensus(_, _, _, _, assignees) => AssigneeShares(assignees)
    case Disputable(_, _, _, _, answers, _, _) =>
      if answers != [] then ContestShares(answers) else Single(DisputeWinner(t), t.bounty)
  }

  predicate AnswerPaid(answers: seq<ContestAnswer>, k: Key) {
    exists a <- answers :: a.pubkey == k && a.paid
  }

  /** `is_recipient_paid`. */
  predicate IsPaid(t: Task, k: Key) {
    match t.kind
    case HashMatch(_) => t.status.Paid? && t.claimant == Some(k)
    case Consensus(_, _, _, _, assignees) => k in assignees && assignees[k].paid
    case Disputable(_, _, _, dispute, answers, _, _) =>
      if answers != [] then AnswerPaid(answers, k)
      else
        t.status.Paid? &&
        Some(k) == if dispute.Some? && dispute.value.resolution == Some(ChallengerWins)
                   then Some(dispute.value.challenger) else t.claimant
  }

  /** `owed_payouts`. */
  function Owed(t: Task): map<Key, nat> {
    map k <- Allocated(t) | !IsPaid(t, k) :: Allocated(t)[k]
  }

  /** `paid_payouts`. */
  function PaidOut(t: Task): map<Key, nat> {
    map k <- Allocated(t) | IsPaid(t, k) :: Allocated(t)[k]
  }

  /** `pending_payouts`. */
  function Pending(t: Task): map<Key, nat> {
    if t.status.Verified? || t.status.Submitted? then Owed(t) else map[]
  }

  // ----- majority -----------------------------------------------------------------------

  function Voters(assignees: map<Key, Assignment>, a: string): set<Key> {
    set k <- assignees | assignees[k].answer == Some(a)
  }

  ghost predicate IsMajority(assignees: map<Key, Assignment>, a: string) {
    2 * |Voters(assignees, a)| > |assignees|
  }

  /** The answer strictly more than half of all assignees gave, if there is one. */
  ghost function Majority(assignees: map<Key, Assignment>): Option<string> {
    if exists a :: IsMajority(assignees, a) then var a :| IsMajority(assignees, a); Some(a) else None
  }

  function WithShares(assignees: map<Key, Assignment>, winners: set<Key>, share: nat): map<Key, Assignment> {
    map k <- assignees :: if k in winners then assignees[k].(share := Some(share)) else assignees[k]
  }

  function ShareOf(bounty: nat, winners: nat): nat {
    bounty / if winners == 0 then 1 else winners
  }

  /** `resolve_consensus`, its effect on the task. */
  ghost function Resolved(t: Task): Task
    requires t.kind.Consensus?
  {
    match Majority(t.kind.assignees)
    case None => t.(status := Closed, closeReason := Some(NoMajority))
    case Some(a) =>
      var winners := Voters(t.kind.assignees, a);
      t.(kind := t.kind.(assignees := WithShares(t.kind.assignees, winners, ShareOf(t.bounty, |winners|))),
         status := Verified)
  }

  /** `resolve_consensus`, whose reputation it dings. */
  ghost function Losers(t: Task): set<Key>
    requires t.kind.Consensus?
  {
    match Majority(t.kind.assignees)
    case None => {}
    case Some(a) => t.kind.assignees.Keys - Voters(t.kind.assignees, a)
  }

  // ----- transitions ----------------------------------------------------------------------

  function SubmissionDeadline(t: Task): Time
    requires t.kind.Disputable?
  {
    t.createdAt + t.kind.window
  }

  function FindAnswer(answers: seq<ContestAnswer>, k: Key): Option<nat> {
    if answers == [] then None
    else if answers[0].pubkey == k then Some(0)
    else match FindAnswer(answers[1..], k) case None => None case Some(i) => Some(i + 1)
  }

  function SplitShares(answers: seq<ContestAnswer>, share: nat): seq<ContestAnswer> {
    seq(|answers|, i requires 0 <= i < |answers| => answers[i].(share := Some(share)))
  }

  predicate AllSharesPaid(answers: seq<ContestAnswer>) {
    forall a <- answers :: a.share.None? || a.paid
  }

  datatype Op =
    | Claim(claimant: Key, deadline: Time, have: nat)
    | Join(agent: Key, now: Time, have: nat)
    | Submit(submitter: Key, outputHash: int)
    | SubmitContest(submitter: Key, answer: string, now: Time, have: nat)
    | CloseContest(caller: Key, now: Time)
    | Pick(caller: Key, answerer: Key, now: Time)
    | CloseUnclosed(now: Time)
    | SplitUnpicked(now: Time)
    | FinalizeUnchallenged(now: Time)
    | ResolveDispute(outcome: Resolution)
    | SubmitConsensus(agent: Key, answer: string, now: Time)
    | ResolveExpired(now: Time)
    | CancelUnderstaffed(now: Time)
    | Cancel
    | ExpireClaims(now: Time)
    | FileDispute(challenger: Key, bondEscrowId: Uuid, bondAmount: nat, now: Time)
    | MarkPaid(recipient: Key, now: Time)
    | MarkSubmitted
    | MarkFailed

  /** One board operation, as it acts on the task it names. A sweep that does not
      apply to a task leaves it as it is. */
  ghost function Apply(t: Task, op: Op): TaskResult {
    match op
    case Claim(claimant, deadline, have) => ApplyClaim(t, claimant, deadline, have)
    case Join(agent, now, have) => ApplyJoin(t, agent, now, have)
    case Submit(submitter, hash) => ApplySubmit(t, submitter, hash)
    case SubmitContest(submitter, answer, now, have) => ApplySubmitContest(t, submitter, answer, now, have)
    case CloseContest(caller, now) => ApplyCloseContest(t, caller, now)
    case Pick(caller, answerer, now) => ApplyPick(t, caller, answerer, now)
    case CloseUnclosed(now) =>
      if t.status.Open? && t.kind.Disputable? && now > SubmissionDeadline(t)
      then Done(t.(status := Closed, closeReason := Some(NeverClosed))) else Done(t)
    case SplitUnpicked(now) =>
      if t.status.AwaitingPick? && t.kind.Disputable? && t.kind.pickDeadline.Some? && now > t.kind.pickDeadline.value
      then Done(t.(kind := t.kind.(answers := SplitShares(t.kind.answers, ShareOf(t.bounty, |t.kind.answers|))),
                   status := Verified))
      else Done(t)
    case FinalizeUnchallenged(now) =>
      if t.status.AwaitingDispute? && t.kind.Disputable? && t.kind.dispute.None?
         && t.kind.disputeDeadline.Some? && now > t.kind.disputeDeadline.value
      then Done(t.(status := Verified)) else Done(t)
    case ResolveDispute(outcome) => ApplyResolveDispute(t, outcome)
    case SubmitConsensus(agent, answer, now) => ApplySubmitConsensus(t, agent, answer, now)
    case ResolveExpired(now) =>
      if t.status.Claimed? && t.kind.Consensus? && t.kind.submissionDeadline.Some?
         && now > t.kind.submissionDeadline.value
      then Done(Resolved(t)) else Done(t)
    case CancelUnderstaffed(now) =>
      if t.status.Open? && t.kind.Consensus? && now > t.kind.joinDeadline
      then Done(t.(status := Closed, closeReason := Some(Understaffed))) else Done(t)
    case Cancel =>
      if t.status.Verified? || t.status.Submitted? || t.status.PayoutFailed? || t.status.Paid? || t.status.Closed?
      then Fail(AlreadyTerminal)
      else if t.status.Disputed? then Fail(CannotCancelWhileDisputed)
      else Done(t.(status := Closed, closeReason := Some(CancelledByOperator)))
    case ExpireClaims(now) =>
      if t.status.Claimed? && t.claimDeadline.Some? && now > t.claimDeadline.value
      then Done(t.(status := Open, claimant := None, claimDeadline := None)) else Done(t)
    case FileDispute(challenger, bond, amount, now) => ApplyFileDispute(t, challenger, bond, amount, now)
    case MarkPaid(recipient, now) => ApplyMarkPaid(t, recipient, now)
    case MarkSubmitted => if t.status.Verified? then Done(t.(status := Submitted)) else Done(t)
    case MarkFailed =>
      if t.status.Verified? || t.status.Submitted? then Done(t.(status := PayoutFailed)) else Fail(NotVerified)
  }

  function ApplyClaim(t: Task, claimant: Key, deadline: Time, have: nat): TaskResult {
    if t.kind.Disputable? then Fail(ContestTakesNoClaim)
    else if t.kind.Consensus? then Fail(WrongTaskKind)
    else if !t.status.Open? then Fail(NotOpen)
    else if t.poster == claimant then Fail(PosterCannotClaimOwnTask)
    else if have < t.minReputation then Fail(InsufficientReputation)
    else Done(t.(status := Claimed, claimant := Some(claimant), claimDeadline := Some(deadline)))
  }

  function ApplyJoin(t: Task, agent: Key, now: Time, have: nat): TaskResult {
    if !t.kind.Consensus? then Fail(WrongTaskKind)
    else if !t.status.Open? then Fail(NotOpen)
    else if now > t.kind.joinDeadline then Fail(JoinWindowExpired)
    else if t.poster == agent then Fail(PosterCannotClaimOwnTask)
    else if have < t.minReputation then Fail(InsufficientReputation)
    else if agent in t.kind.assignees then Fail(AlreadyJoined)
    else
      var joined := t.kind.assignees[agent := Assignment(None, false, None)];
      if |joined| >= t.kind.numAssignees
      then Done(t.(kind := t.kind.(assignees := joined, submissionDeadline := Some(now + t.kind.submissionWindow)),
                   status := Claimed))
      else Done(t.(kind := t.kind.(assignees := joined)))
  }

  function ApplySubmit(t: Task, submitter: Key, hash: int): TaskResult {
    if !t.kind.HashMatch? then Fail(WrongTaskKind)
    else if !t.status.Claimed? then Fail(NotClaimed)
    else if t.claimant != Some(submitter) then Fail(NotClaimant)
    else if hash == t.kind.expectedOutputHash then Done(t.(status := Verified))
    else Done(t.(status := Open, claimant := None, claimDeadline := None, failedAttempts := t.failedAttempts + 1))
  }

  function ApplySubmitContest(t: Task, submitter: Key, answer: string, now: Time, have: nat): TaskResult {
    if !t.kind.Disputable? then Fail(WrongTaskKind)
    else if !t.status.Open? then Fail(SubmissionsClosed)
    else if now > SubmissionDeadline(t) then Fail(SubmissionWindowExpired)
    else if t.poster == submitter then Fail(PosterCannotAnswerOwnTask)
    else if have < t.minReputation then Fail(InsufficientReputation)
    else if exists a <- t.kind.answers :: a.pubkey == submitter then Fail(AlreadySubmitted)
    else if |t.kind.answers| >= MAX_CONTEST_ANSWERS then Fail(ContestFull)
    else Done(t.(kind := t.kind.(answers := t.kind.answers + [ContestAnswer(submitter, answer, now, None, false)])))
  }

  function ApplyCloseContest(t: Task, caller: Key, now: Time): TaskResult {
    if !t.kind.Disputable? then Fail(WrongTaskKind)
    else if t.poster != caller then Fail(NotPoster)
    else if !t.status.Open? then Fail(NotOpen)
    else if now > SubmissionDeadline(t) then Fail(SubmissionWindowExpired)
    else if t.kind.answers == [] then Done(t.(status := Closed, closeReason := Some(NoAnswers)))
    else Done(t.(kind := t.kind.(pickDeadline := Some(now + t.kind.window)), status := AwaitingPick))
  }

  function ApplyPick(t: Task, caller: Key, answerer: Key, now: Time): TaskResult {
    if !t.kind.Disputable? then Fail(WrongTaskKind)
    else if t.poster != caller then Fail(NotPoster)
    else if !t.status.AwaitingPick? then Fail(NotAwaitingPick)
    else if t.kind.pickDeadline.Some? && now > t.kind.pickDeadline.value then Fail(PickWindowClosed)
    else
      FindAnswerInRange(t.kind.answers, answerer);
      match FindAnswer(t.kind.answers, answerer)
      case None => Fail(NotAnAnswer)
      case Some(i) =>
        var answers := t.kind.answers[i := t.kind.answers[i].(share := Some(t.bounty))];
        Done(t.(kind := t.kind.(answers := answers, picked := Some(answerer)), status := Verified))
  }

  function ApplyResolveDispute(t: Task, outcome: Resolution): TaskResult {
    if !t.status.Disputed? then Fail(NotDisputed)
    else if t.claimant.None? then Panic
    else if !t.kind.Disputable? then Fail(WrongTaskKind)
    else if t.kind.dispute.None? then Panic
    else
      var d := t.kind.dispute.value.(resolution := Some(outcome));
      Done(t.(kind := t.kind.(dispute := Some(d)), status := Verified))
  }

  ghost function ApplySubmitConsensus(t: Task, agent: Key, answer: string, now: Time): TaskResult {
    if !t.kind.Consensus? then Fail(WrongTaskKind)
    else if !t.status.Claimed? then Fail(NotClaimed)
    else if t.kind.submissionDeadline.None? then Panic
    else if now > t.kind.submissionDeadline.value then Fail(SubmissionWindowExpired)
    else if agent !in t.kind.assignees then Fail(NotClaimant)
    else if t.kind.assignees[agent].answer.Some? then Fail(AlreadySubmitted)
    else
      var answered := Answered(t, agent, answer);
      if forall k <- answered.kind.assignees :: answered.kind.assignees[k].answer.Some?
      then Done(Resolved(answered)) else Done(answered)
  }

  function Answered(t: Task, agent: Key, answer: string): Task
    requires t.kind.Consensus? && agent in t.kind.assignees
  {
    t.(kind := t.kind.(assignees := t.kind.assignees[agent := t.kind.assignees[agent].(answer := Some(answer))]))
  }

  function ApplyFileDispute(t: Task, challenger: Key, bond: Uuid, amount: nat, now: Time): TaskResult {
    if !t.kind.Disputable? then Fail(WrongTaskKind)
    else if !t.status.AwaitingDispute? then Fail(DisputeWindowClosed)
    else if t.kind.disputeDeadline.None? then Panic
    else if now > t.kind.disputeDeadline.value then Fail(DisputeWindowClosed)
    else if t.kind.dispute.Some? then Fail(AlreadyDisputed)
    else if t.claimant == Some(challenger) then Fail(AssigneeCannotDisputeOwnSubmission)
    else Done(t.(kind := t.kind.(dispute := Some(Dispute(challenger, bond, amount, now, None))), status := Disputed))
  }

  function SettledAt(t: Task, now: Time): Option<Time> {
    if t.settledAt.Some? then t.settledAt else Some(now)
  }

  /** `mark_recipient_paid`, its effect on the task. */
  function ApplyMarkPaid(t: Task, recipient: Key, now: Time): TaskResult {
    if !(t.status.Verified? || t.status.Submitted?) then Fail(NotVerified)
    else
      match t.kind
      case HashMatch(_) =>
        if t.claimant != Some(recipient) then Fail(NotClaimant)
        else Done(t.(status := Paid, settledAt := SettledAt(t, now)))
      case Consensus(_, _, _, _, assignees) =>
        if recipient !in assignees || assignees[recipient].share.None? then Fail(NotClaimant)
        else if assignees[recipient].paid then Done(t)
        else
          var assignees' := assignees[recipient := assignees[recipient].(paid := true)];
          var t' := t.(kind := t.kind.(assignees := assignees'));
          if forall k <- assignees' :: assignees'[k].share.None? || assignees'[k].paid
          then Done(t'.(status := Paid, settledAt := SettledAt(t, now))) else Done(t')
      case Disputable(_, _, _, dispute, answers, _, _) =>
        if answers != [] then
          FindAnswerInRange(answers, recipient);
          match FindAnswer(answers, recipient)
          case None => Fail(NotClaimant)
          case Some(i) =>
            if answers[i].share.None? then Fail(NotClaimant)
            else if answers[i].paid then Done(t)
            else
              var answers' := answers[i := answers[i].(paid := true)];
              var t' := t.(kind := t.kind.(answers := answers'));
              if AllSharesPaid(answers') then Done(t'.(status := Paid, settledAt := SettledAt(t, now))) else Done(t')
        else
          var expected := if dispute.Some? && dispute.value.resolution == Some(ChallengerWins)
                          then Some(dispute.value.challenger) else t.claimant;
          if expected != Some(recipient) then Fail(NotClaimant)
          else Done(t.(status := Paid, settledAt := SettledAt(t, now)))
  }

  lemma {:induction false} FindAnswerInRange(answers: seq<ContestAnswer>, k: Key)
    ensures FindAnswer(answers, k).Some? ==>
      && FindAnswer(answers, k).value < |answers|
      && answers[FindAnswer(answers, k).value].pubkey == k
    ensures FindAnswer(answers, k).None? ==> forall a <- answers :: a.pubkey != k
    decreases |answers|
  {
    if answers != [] && answers[0].pubkey != k {
      FindAnswerInRange(answers[1..], k);
    }
  }

  /** Whether `mark_recipient_paid` counts the payment as a completed task. */
  predicate Credited(t: Task) {
    t.kind.Disputable? && t.kind.answers != [] ==> t.kind.picked.Some?
  }

  /** Whose reputation an operation dings when it succeeds. */
  ghost function Dinged(t: Task, op: Op): set<Key> {
    match op
    case Submit(submitter, hash) => if t.kind.HashMatch? && hash != t.kind.expectedOutputHash then {submitter} else {}
    case ResolveDispute(outcome) =>
      if t.kind.Disputable? && t.kind.dispute.Some? && t.claimant.Some?
      then if outcome.ChallengerWins? then {t.claimant.value} else {t.kind.dispute.value.challenger}
      else {}
    case SubmitConsensus(agent, answer, _) =>
      if t.kind.Consensus? && agent in t.kind.assignees
      then
        var answered := Answered(t, agent, answer);
        if forall k <- answered.kind.assignees :: answered.kind.assignees[k].answer.Some? then Losers(answered) else {}
      else {}
    case ResolveExpired(now) =>
      if t.status.Claimed? && t.kind.Consensus? && t.kind.submissionDeadline.Some?
         && now > t.kind.submissionDeadline.value
      then Losers(t) else {}
    case _ => {}
  }
}
