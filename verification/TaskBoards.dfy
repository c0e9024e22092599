// `TaskBoard`, the part that settles tasks: its methods change the maps in place, and
// each is proved against the function the payout protocol is stated with.

module TaskBoards {
  import opened Basics
  import opened Tasks
  import opened TaskInvariant
  import opened Payouts
  import opened ConsensusVotes

  function Dinged1(reputation: map<PublicKey, Reputation>, k: PublicKey): map<PublicKey, Reputation> {
    var rep := if k in reputation then reputation[k] else NO_REPUTATION;
    reputation[k := rep.(failed := rep.failed + 1)]
  }

  /** Every loser is dinged, but for those in `todo`. */
  ghost predicate DingedBut(
    was: map<PublicKey, Reputation>, losers: set<PublicKey>, todo: set<PublicKey>,
    reputation: map<PublicKey, Reputation>)
  {
    todo <= losers && reputation == DingAll(was, losers - todo)
  }

  lemma DingOneMore(
    was: map<PublicKey, Reputation>, losers: set<PublicKey>, todo: set<PublicKey>,
    reputation: map<PublicKey, Reputation>, k: PublicKey)
    requires DingedBut(was, losers, todo, reputation) && k in todo
    ensures DingedBut(was, losers, todo - {k}, Dinged1(reputation, k))
  {
    DingAdds(was, losers - todo, k);
    assert losers - (todo - {k}) == (losers - todo) + {k};
  }

  lemma DingAdds(was: map<PublicKey, Reputation>, done: set<PublicKey>, k: PublicKey)
    requires k !in done
    ensures DingAll(was, done + {k}) == Dinged1(DingAll(was, done), k)
  {
  }

  lemma DingNobody(reputation: map<PublicKey, Reputation>, losers: set<PublicKey>)
    ensures DingedBut(reputation, losers, losers, reputation)
  {
    NoDings(reputation);
    assert losers - losers == {};
  }

  /** The winners' shares are fixed, but for the assignees in `todo`. */
  ghost predicate SharedBut(
    assignees: map<Key, Assignment>, winning: string, share: nat, todo: set<Key>, r: map<Key, Assignment>)
  {
    && todo <= assignees.Keys && r.Keys == assignees.Keys
    && forall k <- assignees ::
         r[k] == if k !in todo && assignees[k].answer == Some(winning)
                 then assignees[k].(share := Some(share)) else assignees[k]
  }

  lemma ShareOneMore(
    assignees: map<Key, Assignment>, winning: string, share: nat, todo: set<Key>, r: map<Key, Assignment>, k: Key)
    requires SharedBut(assignees, winning, share, todo, r) && k in todo
    ensures
      var r' := if assignees[k].answer == Some(winning) then r[k := r[k].(share := Some(share))] else r;
      SharedBut(assignees, winning, share, todo - {k}, r')
  {
  }

  lemma SharedAll(assignees: map<Key, Assignment>, winning: string, share: nat, r: map<Key, Assignment>)
    requires SharedBut(assignees, winning, share, {}, r)
    ensures r == WithShares(assignees, Voters(assignees, winning), share)
  {
  }

  lemma NoDings(reputation: map<PublicKey, Reputation>)
    ensures DingAll(reputation, {}) == reputation
  {
  }

  /** Fixes the winners' shares, one assignment at a time. */
  method GiveShares(assignees: map<Key, Assignment>, winning: string, share: nat) returns (r: map<Key, Assignment>)
    ensures r == WithShares(assignees, Voters(assignees, winning), share)
  {
    r := assignees;
    var todo := assignees.Keys;
    while todo != {}
      invariant SharedBut(assignees, winning, share, todo, r)
      decreases |todo|
    {
      var k :| k in todo;
      ShareOneMore(assignees, winning, share, todo, r, k);
      if assignees[k].answer == Some(winning) {
        r := r[k := r[k].(share := Some(share))];
      }
      todo := todo - {k};
    }
    SharedAll(assignees, winning, share, r);
  }

  predicate Overdue(t: Task, now: Time) { t.status.Claimed? && t.claimDeadline.Some? && now > t.claimDeadline.value }

  function Reopened(t: Task): Task { t.(status := Open, claimant := None, claimDeadline := None) }

  /** The overdue claims are reopened, but for the tasks in `todo`. */
  ghost predicate ExpiredBut(
    was: map<Uuid, Task>, now: Time, todo: set<Uuid>, tasks: map<Uuid, Task>, reopened: set<Uuid>)
  {
    && tasks.Keys == was.Keys && todo <= was.Keys
    && (forall id <- was :: tasks[id] == if id !in todo && Overdue(was[id], now) then Reopened(was[id]) else was[id])
    && (forall id :: id in reopened <==> id in was && id !in todo && Overdue(was[id], now))
  }

  lemma NoneExpired(was: map<Uuid, Task>, now: Time)
    ensures ExpiredBut(was, now, was.Keys, was, {})
  {
  }

  lemma AllExpired(was: map<Uuid, Task>, now: Time, tasks: map<Uuid, Task>, reopened: set<Uuid>)
    requires ExpiredBut(was, now, {}, tasks, reopened)
    ensures forall id <- tasks :: Apply(was[id], ExpireClaims(now)) == Done(tasks[id])
    ensures forall id :: id in reopened <==> id in tasks && tasks[id] != was[id]
  {
  }

  lemma ExpireOneMore(
    was: map<Uuid, Task>, now: Time, todo: set<Uuid>, tasks: map<Uuid, Task>, reopened: set<Uuid>, id: Uuid)
    requires ExpiredBut(was, now, todo, tasks, reopened) && id in todo
    ensures
      if Overdue(tasks[id], now)
      then ExpiredBut(was, now, todo - {id}, tasks[id := Reopened(tasks[id])], reopened + {id})
      else ExpiredBut(was, now, todo - {id}, tasks, reopened)
  {
  }

  class TaskBoard {
    var tasks: map<Uuid, Task>
    var reputation: map<PublicKey, Reputation>
    var payoutAttempts: map<Leg, Attempt>

    ghost function State(): Board
      reads this
    {
      Board(tasks, reputation, payoutAttempts)
    }

    constructor ()
      ensures State() == Board(map[], map[], map[])
    {
      tasks, reputation, payoutAttempts := map[], map[], map[];
    }

    method DingLosers(losers: set<PublicKey>)
      modifies this`reputation
      ensures reputation == DingAll(old(reputation), losers)
    {
      var todo := losers;
      DingNobody(reputation, losers);
      while todo != {}
        invariant DingedBut(old(reputation), losers, todo, reputation)
        decreases |todo|
      {
        var loser :| loser in todo;
        DingOneMore(old(reputation), losers, todo, reputation, loser);
        reputation := Dinged1(reputation, loser);
        todo := todo - {loser};
      }
      assert losers - {} == losers;
    }

    /** `resolve_consensus`. */
    method ResolveConsensus(id: Uuid)
      modifies this`tasks, this`reputation
      ensures id in old(tasks) && old(tasks[id]).kind.Consensus? ==>
        && tasks == old(tasks)[id := Resolved(old(tasks[id]))]
        && reputation == DingAll(old(reputation), Losers(old(tasks[id])))
      ensures !(id in old(tasks) && old(tasks[id]).kind.Consensus?)
        ==> tasks == old(tasks) && reputation == old(reputation)
    {
      if id !in tasks || !tasks[id].kind.Consensus? {
        return;
      }
      var t := tasks[id];
      var assignees := t.kind.assignees;
      var winning := MajorityAnswer(assignees);
      match winning
      case None =>
        NoDings(reputation);
        tasks := tasks[id := t.(status := Closed, closeReason := Some(NoMajority))];
      case Some(answer) =>
        var winners := set k <- assignees | assignees[k].answer == Some(answer);
        var share := t.bounty / (if |winners| == 0 then 1 else |winners|);
        var losers := set k <- assignees | assignees[k].answer != Some(answer);
        assert losers == assignees.Keys - Voters(assignees, answer);
        DingLosers(losers);
        var shared := GiveShares(assignees, answer, share);
        tasks := tasks[id := t.(kind := t.kind.(assignees := shared), status := Verified)];
    }

    /** `unsubmitted_payouts`. */
    method UnsubmittedPayouts(id: Uuid) returns (r: map<PublicKey, nat>)
      ensures r == Unsubmitted(State(), id)
    {
      if id !in tasks {
        return map[];
      }
      var pending := Pending(tasks[id]);
      r := map k <- pending | Leg(id, k) !in payoutAttempts :: pending[k];
    }

    /** `record_payout_attempt`. */
    method RecordPayoutAttempt(a: Attempt)
      modifies this`tasks, this`payoutAttempts
      ensures State() == RecordAttempt(old(State()), a)
    {
      payoutAttempts := payoutAttempts[a.leg := a];
      var unsent := UnsubmittedPayouts(a.leg.task);
      if unsent != map[] {
        return;
      }
      if a.leg.task in tasks && tasks[a.leg.task].status.Verified? {
        tasks := tasks[a.leg.task := tasks[a.leg.task].(status := Submitted)];
      }
    }

    /** `clear_payout_attempt`. */
    method ClearPayoutAttempt(leg: Leg) returns (was: Option<Attempt>)
      modifies this`payoutAttempts
      ensures State() == ClearAttempt(old(State()), leg)
      ensures was == if leg in old(payoutAttempts) then Some(old(payoutAttempts)[leg]) else None
    {
      was := if leg in payoutAttempts then Some(payoutAttempts[leg]) else None;
      payoutAttempts := payoutAttempts - {leg};
    }

    /** `mark_recipient_paid`: the result says whether the whole task is now paid. */
    method MarkRecipientPaid(id: Uuid, recipient: PublicKey, amount: nat, now: Time) returns (r: Result<bool, Error>)
      modifies this`tasks, this`reputation
      ensures
        match Payouts.MarkRecipientPaid(old(State()), id, recipient, amount, now)
        case Err(e) => r == Err(e) && State() == old(State())
        case Ok((b, credited)) => State() == b && r == Ok(credited && tasks[id].status.Paid?)
    {
      if id !in tasks {
        return Err(NotFound);
      }
      var t := tasks[id];
      match ApplyMarkPaid(t, recipient, now)
      case Fail(e) => return Err(e);
      case Panic => return Err(NotFound);
      case Done(t') =>
        if t' == t {
          return Ok(false);
        }
        var rep := if recipient in reputation then reputation[recipient] else NO_REPUTATION;
        if Credited(t) {
          rep := rep.(completed := rep.completed + 1);
        }
        rep := rep.(totalEarned := rep.totalEarned + amount);
        tasks := tasks[id := t'];
        reputation := reputation[recipient := rep];
        return Ok(t'.status.Paid?);
    }

    /** `record_confirmed_payout`: the payment is marked and its attempt dropped together, or
        nothing is changed. */
    method RecordConfirmedPayout(leg: Leg, amount: nat, now: Time) returns (recorded: bool)
      modifies this
      ensures State() == ConfirmPayout(old(State()), leg, amount, now).0
      ensures recorded <==> Payouts.MarkRecipientPaid(old(State()), leg.task, leg.recipient, amount, now).Ok?
      ensures recorded ==> leg !in payoutAttempts
    {
      var r := MarkRecipientPaid(leg.task, leg.recipient, amount, now);
      if r.Err? {
        return false;
      }
      var _ := ClearPayoutAttempt(leg);
      return true;
    }

    /** `mark_payout_failed`: drops, and returns, every attempt of the task. */
    method MarkPayoutFailed(id: Uuid) returns (r: Result<set<Attempt>, Error>)
      modifies this`tasks, this`payoutAttempts
      ensures
        match Payouts.MarkPayoutFailed(old(State()), id)
        case Err(e) => r == Err(e) && State() == old(State())
        case Ok(b) =>
          State() == b && r == Ok(set leg <- old(payoutAttempts) | leg.task == id :: old(payoutAttempts)[leg])
    {
      if id !in tasks {
        return Err(NotFound);
      }
      if !(tasks[id].status.Verified? || tasks[id].status.Submitted?) {
        return Err(NotVerified);
      }
      tasks := tasks[id := tasks[id].(status := PayoutFailed)];
      var dropped := DropAttempts(id);
      return Ok(dropped);
    }

    method DropAttempts(id: Uuid) returns (dropped: set<Attempt>)
      modifies this`payoutAttempts
      ensures payoutAttempts == map leg <- old(payoutAttempts) | leg.task != id :: old(payoutAttempts)[leg]
      ensures dropped == set leg <- old(payoutAttempts) | leg.task == id :: old(payoutAttempts)[leg]
    {
      var todo := set leg <- payoutAttempts | leg.task == id;
      dropped := {};
      while todo != {}
        invariant forall leg <- todo :: leg in payoutAttempts && leg.task == id
        invariant forall leg <- payoutAttempts ::
          leg in old(payoutAttempts) && payoutAttempts[leg] == old(payoutAttempts)[leg]
        invariant forall leg <- old(payoutAttempts) :: leg in payoutAttempts <==> leg.task != id || leg in todo
        invariant dropped == set leg <- old(payoutAttempts) | leg.task == id && leg !in todo :: old(payoutAttempts)[leg]
        decreases |todo|
      {
        var leg :| leg in todo;
        dropped := dropped + {payoutAttempts[leg]};
        payoutAttempts := payoutAttempts - {leg};
        todo := todo - {leg};
      }
    }

    /** `expire_claims`: reopens exactly the overdue claims. */
    method ExpireOverdueClaims(now: Time) returns (reopened: set<Uuid>)
      modifies this`tasks
      ensures tasks.Keys == old(tasks).Keys
      ensures forall id <- tasks :: Apply(old(tasks)[id], ExpireClaims(now)) == Done(tasks[id])
      ensures forall id :: id in reopened <==> id in tasks && tasks[id] != old(tasks)[id]
    {
      reopened := {};
      var todo := tasks.Keys;
      NoneExpired(tasks, now);
      while todo != {}
        invariant ExpiredBut(old(tasks), now, todo, tasks, reopened)
        decreases |todo|
      {
        var id :| id in todo;
        var t := tasks[id];
        ExpireOneMore(old(tasks), now, todo, tasks, reopened, id);
        if t.status.Claimed? && t.claimDeadline.Some? && now > t.claimDeadline.value {
          tasks := tasks[id := t.(status := Open, claimant := None, claimDeadline := None)];
          reopened := reopened + {id};
        }
        todo := todo - {id};
      }
      AllExpired(old(tasks), now, tasks, reopened);
    }
  }
}
