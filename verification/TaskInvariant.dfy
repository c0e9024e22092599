// What every reachable task satisfies, and what no transition can take back.

module TaskInvariant {
  import opened Basics
  import opened MapSums
  import opened Tasks

  /** A winner is fixed: from here the task only pays what it already owes. */
  predicate Decided(s: Status) {
    s.Verified? || s.Submitted? || s.Paid? || s.PayoutFailed?
  }

  const AMOUNT: nat -> int := (x: nat) => x

  ghost function Total(m: map<Key, nat>): int { Sum(m, AMOUNT) }

  ghost predicate DistinctAnswers(answers: seq<ContestAnswer>) {
    forall i, j :: 0 <= i < j < |answers| ==> answers[i].pubkey != answers[j].pubkey
  }

  ghost predicate HashMatchOk(t: Task)
    requires t.kind.HashMatch?
  {
    && (t.status.Open? || t.status.Claimed? || t.status.Closed? || Decided(t.status))
    && (t.status.Claimed? || Decided(t.status) ==> t.claimant.Some?)
    && (t.status.Claimed? ==> t.claimDeadline.Some?)
  }

  ghost predicate ConsensusOk(t: Task)
    requires t.kind.Consensus?
  {
    var assignees := t.kind.assignees;
    && (t.status.Open? || t.status.Claimed? || t.status.Closed? || Decided(t.status))
    && t.claimDeadline.None?
    && (t.status.Claimed? ==> t.kind.submissionDeadline.Some?)
    && (t.status.Open? ==> forall k <- assignees :: assignees[k].answer.None?)
    && (!Decided(t.status) ==> forall k <- assignees :: assignees[k].share.None? && !assignees[k].paid)
    && (Decided(t.status) ==>
          && (exists k :: k in assignees && assignees[k].share.Some?)
          && (forall k <- assignees :: assignees[k].paid ==> assignees[k].share.Some?)
          && Total(AssigneeShares(assignees)) <= t.bounty
          && (t.status.Paid? <==> forall k <- assignees :: assignees[k].share.None? || assignees[k].paid))
  }

  /** A contest: answers first, the poster's pick or a split after. */
  ghost predicate ContestOk(t: Task)
    requires t.kind.Disputable?
  {
    var answers := t.kind.answers;
    && (t.status.Open? || t.status.AwaitingPick? || t.status.Closed? || Decided(t.status))
    && t.kind.dispute.None?
    && (t.status.AwaitingPick? || Decided(t.status) ==> t.kind.pickDeadline.Some?)
    && (!Decided(t.status) ==> forall a <- answers :: a.share.None? && !a.paid)
    && (Decided(t.status) ==>
          && (exists i :: 0 <= i < |answers| && answers[i].share.Some?)
          && (forall a <- answers :: a.paid ==> a.share.Some?)
          && Total(ContestShares(answers)) <= t.bounty
          && (t.status.Paid? <==> AllSharesPaid(answers)))
  }

  /** A task answered before contests: one claimant, and perhaps one challenger. */
  ghost predicate LegacyOk(t: Task)
    requires t.kind.Disputable?
  {
    && !t.status.AwaitingPick?
    && (t.status.Open? || t.status.Claimed? || t.status.AwaitingDispute? ==> t.kind.dispute.None?)
    && (t.status.Claimed? ==> t.claimant.Some? && t.claimDeadline.Some?)
    && (t.status.AwaitingDispute? ==> t.claimant.Some? && t.kind.disputeDeadline.Some?)
    && (t.status.Disputed? ==>
          && t.claimant.Some? && t.kind.dispute.Some? && t.kind.dispute.value.resolution.None?
          && t.kind.dispute.value.challenger != t.claimant.value)
    && (Decided(t.status) ==> DisputeWinner(t).Some?)
  }

  ghost predicate DisputableOk(t: Task)
    requires t.kind.Disputable?
  {
    && DistinctAnswers(t.kind.answers)
    && |t.kind.answers| <= MAX_CONTEST_ANSWERS
    && (forall a <- t.kind.answers :: a.pubkey != t.poster)
    && (if t.kind.answers != [] then ContestOk(t) else LegacyOk(t))
  }

  ghost predicate TaskOk(t: Task) {
    && (t.status.Paid? <==> t.settledAt.Some?)
    && match t.kind
       case HashMatch(_) => HashMatchOk(t)
       case Consensus(_, _, _, _, _) => ConsensusOk(t)
       case Disputable(_, _, _, _, _, _, _) => DisputableOk(t)
  }

  // ----- shares ---------------------------------------------------------------------

  lemma {:induction false} SumConst(m: map<Key, nat>, c: nat)
    requires forall k <- m :: m[k] == c
    ensures Total(m) == |m| * c
    decreases |m|
  {
    if m != map[] {
      var k := MapSums.Pick(m);
      var rest := m - {k};
      SumConst(rest, c);
      assert rest.Keys == m.Keys - {k};
      assert |rest| == |m| - 1;
    }
  }

  /** An even division never pays out more than the bounty, and leaves less than one each. */
  lemma EvenShares(bounty: nat, n: nat, paid: nat)
    requires 0 < n && paid <= n
    ensures paid * ShareOf(bounty, n) <= bounty
    ensures 0 <= bounty - n * ShareOf(bounty, n) < n
  {
  }

  lemma {:induction false} ContestSharesSize(answers: seq<ContestAnswer>)
    ensures |ContestShares(answers)| <= |answers|
    ensures forall k <- ContestShares(answers) ::
      exists i :: 0 <= i < |answers| && answers[i].pubkey == k && answers[i].share == Some(ContestShares(answers)[k])
    decreases |answers|
  {
    if answers != [] {
      ContestSharesSize(answers[1..]);
      var rest := ContestShares(answers[1..]);
      forall k <- ContestShares(answers)
        ensures exists i :: 0 <= i < |answers| && answers[i].pubkey == k
                            && answers[i].share == Some(ContestShares(answers)[k])
      {
        if answers[0].share.Some? && k == answers[0].pubkey {
        } else {
          var i :| 0 <= i < |answers[1..]| && answers[1..][i].pubkey == k && answers[1..][i].share == Some(rest[k]);
          assert answers[i + 1].pubkey == k;
        }
      }
      if answers[0].share.Some? {
        var k := answers[0].pubkey;
        assert ContestShares(answers).Keys == rest.Keys + {k};
        assert |ContestShares(answers)| == |ContestShares(answers).Keys| <= |rest.Keys| + 1;
      }
    }
  }

  /** Distinct answers keep their own shares. */
  lemma {:induction false} ContestSharesAt(answers: seq<ContestAnswer>, i: nat)
    requires DistinctAnswers(answers) && i < |answers|
    ensures answers[i].share.Some? <==> answers[i].pubkey in ContestShares(answers)
    ensures answers[i].share.Some? ==> ContestShares(answers)[answers[i].pubkey] == answers[i].share.value
    decreases |answers|
  {
    ContestSharesSize(answers);
    if i > 0 {
      ContestSharesAt(answers[1..], i - 1);
    } else {
      ContestSharesSize(answers[1..]);
      assert answers[0].pubkey !in ContestShares(answers[1..]);
    }
  }

  lemma {:induction false} SameContestShares(a: seq<ContestAnswer>, b: seq<ContestAnswer>)
    requires |a| == |b| && forall i :: 0 <= i < |a| ==> a[i].pubkey == b[i].pubkey && a[i].share == b[i].share
    ensures ContestShares(a) == ContestShares(b)
    decreases |a|
  {
    if a != [] {
      SameContestShares(a[1..], b[1..]);
    }
  }

  lemma {:induction false} NoShares(answers: seq<ContestAnswer>)
    requires forall a <- answers :: a.share.None?
    ensures ContestShares(answers) == map[]
    decreases |answers|
  {
    if answers != [] {
      NoShares(answers[1..]);
    }
  }

  lemma {:induction false} OneShare(answers: seq<ContestAnswer>, i: nat, share: nat)
    requires i < |answers| && forall a <- answers :: a.share.None?
    ensures ContestShares(answers[i := answers[i].(share := Some(share))]) == map[answers[i].pubkey := share]
    decreases |answers|
  {
    var picked := answers[i := answers[i].(share := Some(share))];
    if i == 0 {
      NoShares(answers[1..]);
      assert picked[1..] == answers[1..];
    } else {
      OneShare(answers[1..], i - 1, share);
      assert picked[1..] == answers[1..][i - 1 := answers[1..][i - 1].(share := Some(share))];
    }
  }

  lemma SplitTotal(answers: seq<ContestAnswer>, bounty: nat)
    requires answers != []
    ensures Total(ContestShares(SplitShares(answers, ShareOf(bounty, |answers|)))) <= bounty
  {
    var share := ShareOf(bounty, |answers|);
    var split := SplitShares(answers, share);
    ContestSharesSize(split);
    SumConst(ContestShares(split), share);
    EvenShares(bounty, |answers|, |ContestShares(split)|);
  }

  lemma PickTotal(answers: seq<ContestAnswer>, i: nat, bounty: nat)
    requires i < |answers| && forall a <- answers :: a.share.None?
    ensures Total(ContestShares(answers[i := answers[i].(share := Some(bounty))])) == bounty
  {
    OneShare(answers, i, bounty);
    var m := map[answers[i].pubkey := bounty];
    SumConst(m, bounty);
    assert |m.Keys| == 1;
  }

  /** The winners of a consensus task share at most the bounty. */
  lemma WinnersTotal(assignees: map<Key, Assignment>, winners: set<Key>, bounty: nat)
    requires winners <= assignees.Keys && winners != {} && forall k <- assignees :: assignees[k].share.None?
    ensures
      var shares := AssigneeShares(WithShares(assignees, winners, ShareOf(bounty, |winners|)));
      && shares.Keys == winners
      && (forall k <- winners :: shares[k] == ShareOf(bounty, |winners|))
      && Total(shares) == |winners| * ShareOf(bounty, |winners|) <= bounty
      && bounty - Total(shares) < |winners|
  {
    var share := ShareOf(bounty, |winners|);
    var shares := AssigneeShares(WithShares(assignees, winners, share));
    assert shares.Keys == winners;
    SumConst(shares, share);
    EvenShares(bounty, |winners|, |winners|);
  }

  // ----- majority --------------------------------------------------------------------

  lemma MajorityVoters(assignees: map<Key, Assignment>)
    ensures Majority(assignees).Some? ==> Voters(assignees, Majority(assignees).value) != {}
  {
  }

  /** Two answers cannot both have more than half. */
  lemma MajorityUnique(assignees: map<Key, Assignment>, a: string, b: string)
    requires IsMajority(assignees, a) && IsMajority(assignees, b)
    ensures a == b
  {
    if a != b {
      DisjointSizes(Voters(assignees, a), Voters(assignees, b), assignees.Keys);
    }
  }

  lemma DisjointSizes(s: set<Key>, t: set<Key>, whole: set<Key>)
    requires s !! t && s <= whole && t <= whole
    ensures |s| + |t| <= |whole|
  {
    SubsetSize(s + t, whole);
    assert |s + t| == |s| + |t|;
  }

  lemma {:induction false} SubsetSize(s: set<Key>, t: set<Key>)
    requires s <= t
    ensures |s| <= |t|
    decreases |s|
  {
    if s != {} {
      var k := Member(s);
      SubsetSize(s - {k}, t - {k});
    }
  }

  // ----- every transition ----------------------------------------------------------------

  lemma ResolvedOk(t: Task)
    requires t.kind.Consensus? && TaskOk(t) && t.status.Claimed?
    ensures TaskOk(Resolved(t))
  {
    MajorityVoters(t.kind.assignees);
    if Majority(t.kind.assignees).Some? {
      var winners := Voters(t.kind.assignees, Majority(t.kind.assignees).value);
      WinnersTotal(t.kind.assignees, winners, t.bounty);
      var k := Member(winners);
      var assignees' := Resolved(t).kind.assignees;
      assert k in assignees' && assignees'[k].share.Some? && !assignees'[k].paid;
    }
  }

  lemma SubmitConsensusOk(t: Task, agent: Key, answer: string, now: Time)
    requires TaskOk(t) && ApplySubmitConsensus(t, agent, answer, now).Done?
    ensures TaskOk(ApplySubmitConsensus(t, agent, answer, now).task)
  {
    var answered := Answered(t, agent, answer);
    assert TaskOk(answered);
    ResolvedOk(answered);
  }

  lemma PickOk(t: Task, caller: Key, answerer: Key, now: Time)
    requires TaskOk(t) && ApplyPick(t, caller, answerer, now).Done?
    ensures TaskOk(ApplyPick(t, caller, answerer, now).task)
  {
    var answers := t.kind.answers;
    FindAnswerInRange(answers, answerer);
    var i := FindAnswer(answers, answerer).value;
    PickTotal(answers, i, t.bounty);
    var answers' := ApplyPick(t, caller, answerer, now).task.kind.answers;
    assert answers'[i].share.Some? && !answers'[i].paid && answers'[i] in answers';
  }

  lemma SplitOk(t: Task, now: Time)
    requires TaskOk(t) && t.status.AwaitingPick? && t.kind.Disputable?
    ensures TaskOk(t.(kind := t.kind.(answers := SplitShares(t.kind.answers, ShareOf(t.bounty, |t.kind.answers|))),
                      status := Verified))
  {
    var answers := t.kind.answers;
    SplitTotal(answers, t.bounty);
    var answers' := SplitShares(answers, ShareOf(t.bounty, |answers|));
    assert answers'[0].share.Some? && !answers'[0].paid && answers'[0] in answers';
  }

  lemma PayAssignee(t: Task, recipient: Key, now: Time)
    requires TaskOk(t) && t.kind.Consensus? && ApplyMarkPaid(t, recipient, now).Done?
    ensures TaskOk(ApplyMarkPaid(t, recipient, now).task)
  {
    var t' := ApplyMarkPaid(t, recipient, now).task;
    var assignees, assignees' := t.kind.assignees, t'.kind.assignees;
    assert AssigneeShares(assignees') == AssigneeShares(assignees);
    var k :| k in assignees && assignees[k].share.Some?;
    assert k in assignees' && assignees'[k].share.Some?;
  }

  lemma AnswerMarked(answers: seq<ContestAnswer>, r: nat, poster: Key)
    requires r < |answers| && DistinctAnswers(answers) && answers[r].share.Some?
    requires forall a <- answers :: a.pubkey != poster && (a.paid ==> a.share.Some?)
    ensures
      var answers' := answers[r := answers[r].(paid := true)];
      && DistinctAnswers(answers')
      && (forall a <- answers' :: a.pubkey != poster && (a.paid ==> a.share.Some?))
      && ContestShares(answers') == ContestShares(answers)
      && (exists i :: 0 <= i < |answers'| && answers'[i].share.Some?)
  {
    var answers' := answers[r := answers[r].(paid := true)];
    SameContestShares(answers, answers');
    assert answers'[r].share.Some?;
    assert forall i :: 0 <= i < |answers| && i != r ==> answers'[i] == answers[i] && answers[i] in answers;
  }

  lemma PayAnswer(t: Task, recipient: Key, now: Time)
    requires TaskOk(t) && t.kind.Disputable? && t.kind.answers != [] && ApplyMarkPaid(t, recipient, now).Done?
    ensures TaskOk(ApplyMarkPaid(t, recipient, now).task)
  {
    var answers := t.kind.answers;
    FindAnswerInRange(answers, recipient);
    var r := FindAnswer(answers, recipient).value;
    if !answers[r].paid {
      AnswerMarked(answers, r, t.poster);
    }
  }

  lemma MarkPaidOk(t: Task, recipient: Key, now: Time)
    requires TaskOk(t) && ApplyMarkPaid(t, recipient, now).Done?
    ensures TaskOk(ApplyMarkPaid(t, recipient, now).task)
  {
    if t.kind.Consensus? {
      PayAssignee(t, recipient, now);
    } else if t.kind.Disputable? && t.kind.answers != [] {
      PayAnswer(t, recipient, now);
    }
  }

  /** Every operation keeps the kind/status invariant. */
  lemma ApplyKeepsOk(t: Task, op: Op)
    requires TaskOk(t) && Apply(t, op).Done?
    ensures TaskOk(Apply(t, op).task)
  {
    if SharesOut(op) {
      SharingOpsOk(t, op);
    } else if OfDisputable(op) {
      DisputableOpsOk(t, op);
    } else {
      SimpleOpsOk(t, op);
    }
  }

  /** The operations that hand out shares or mark them paid. */
  predicate SharesOut(op: Op) {
    op.SubmitConsensus? || op.ResolveExpired? || op.Pick? || op.SplitUnpicked? || op.MarkPaid?
  }

  /** The rest of what moves a disputable task only. */
  predicate OfDisputable(op: Op) {
    || op.SubmitContest? || op.CloseContest? || op.CloseUnclosed?
    || op.FinalizeUnchallenged? || op.ResolveDispute? || op.FileDispute?
  }

  lemma SharingOpsOk(t: Task, op: Op)
    requires TaskOk(t) && SharesOut(op) && Apply(t, op).Done?
    ensures TaskOk(Apply(t, op).task)
  {
    match op
    case SubmitConsensus(agent, answer, now) => SubmitConsensusOk(t, agent, answer, now);
    case ResolveExpired(now) => if Apply(t, op).task != t { ResolvedOk(t); }
    case Pick(caller, answerer, now) => PickOk(t, caller, answerer, now);
    case SplitUnpicked(now) => if Apply(t, op).task != t { SplitOk(t, now); }
    case MarkPaid(recipient, now) => MarkPaidOk(t, recipient, now);
  }

  lemma SubmitContestOk(t: Task, submitter: Key, answer: string, now: Time, have: nat)
    requires TaskOk(t) && ApplySubmitContest(t, submitter, answer, now, have).Done?
    ensures TaskOk(ApplySubmitContest(t, submitter, answer, now, have).task)
  {
  }

  lemma DisputableOpsOk(t: Task, op: Op)
    requires TaskOk(t) && OfDisputable(op) && Apply(t, op).Done?
    ensures TaskOk(Apply(t, op).task)
  {
    if op.SubmitContest? {
      SubmitContestOk(t, op.submitter, op.answer, op.now, op.have);
    }
  }

  lemma JoinOk(t: Task, agent: Key, now: Time, have: nat)
    requires TaskOk(t) && ApplyJoin(t, agent, now, have).Done?
    ensures TaskOk(ApplyJoin(t, agent, now, have).task)
  {
  }

  lemma SimpleOpsOk(t: Task, op: Op)
    requires TaskOk(t) && !SharesOut(op) && !OfDisputable(op) && Apply(t, op).Done?
    ensures TaskOk(Apply(t, op).task)
  {
    if op.Join? {
      JoinOk(t, op.agent, op.now, op.have);
    }
  }

  /** No `expect` of the task operations can fail on a task in a reachable state. */
  lemma NeverPanics(t: Task, op: Op)
    requires TaskOk(t)
    ensures !Apply(t, op).Panic?
  {
  }
}
