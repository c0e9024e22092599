// Exactly when a leg can be paid twice: which payments of it are still open, and a run of
// the hub in which two settlements of one escrow both land.

module PayoutSends {
  import opened Basics
  import opened Tasks
  import opened TaskInvariant
  import opened Blockchain
  import opened PayoutOutcome
  import opened Payouts
  import opened PayoutInvariant
  import opened PayoutRuns

  // ----- continuing a run ---------------------------------------------------------------------

  /** What may happen from `s` on, ending in `s'`. */
  ghost predicate Leads(s: System, states: seq<System>, events: seq<Event>, s': System) {
    IsRun(states, events) && states[0] == s && states[|states| - 1] == s'
  }

  lemma LeadsNowhere(s: System)
    ensures Leads(s, [s], [], s)
  {
  }

  lemma LeadsOne(s: System, e: Event) returns (states: seq<System>, events: seq<Event>, s': System)
    requires Payouts.Enabled(s, e)
    ensures Leads(s, states, events, s') && events == [e] && s' == Payouts.Do(s, e)
  {
    s' := Payouts.Do(s, e);
    states, events := [s, s'], [e];
    assert StepAt(states, events, 0);
  }

  lemma LeadsTwo(s: System, e: Event, e': Event) returns (states: seq<System>, events: seq<Event>, s': System)
    requires Payouts.Enabled(s, e) && Payouts.Enabled(Payouts.Do(s, e), e')
    ensures Leads(s, states, events, s') && events == [e, e'] && s' == Payouts.Do(Payouts.Do(s, e), e')
    ensures |states| == 3 && states[2] == s'
  {
    var s1 := Payouts.Do(s, e);
    s' := Payouts.Do(s1, e');
    states, events := [s, s1, s'], [e, e'];
    assert StepAt(states, events, 0) && StepAt(states, events, 1);
  }

  lemma LeadsOn(
    s: System, states: seq<System>, events: seq<Event>, s1: System,
    states': seq<System>, events': seq<Event>, s2: System)
    returns (all: seq<System>)
    requires Leads(s, states, events, s1) && Leads(s1, states', events', s2)
    ensures Leads(s, all, events + events', s2) && states <= all
  {
    all := states + states'[1..];
    var es := events + events';
    forall i | 0 <= i < |es| ensures StepAt(all, es, i) {
      if i < |events| {
        assert StepAt(states, events, i);
        assert all[i] == states[i] && all[i + 1] == states[i + 1];
      } else {
        assert StepAt(states', events', i - |events|);
        assert all[i] == states'[i - |events|] && all[i + 1] == states'[i + 1 - |events|];
      }
    }
  }

  lemma {:induction false} LeadsKeepsInv(s: System, states: seq<System>, events: seq<Event>, i: nat)
    requires Inv(s) && IsRun(states, events) && states[0] == s && i < |states|
    ensures Inv(states[i])
  {
    if i > 0 {
      LeadsKeepsInv(s, states, events, i - 1);
      assert StepAt(states, events, i - 1);
      StepKeepsInv(states[i - 1], events[i - 1]);
    }
  }

  // ----- open payments ---------------------------------------------------------------------------

  /** A payment that is in a block or still can be. */
  predicate Open(c: Chain, tx: Tx) { tx in c.mined || CanSpend(c, tx) }

  /** What is closed stays closed. */
  lemma ChainStaysClosed(c: Chain, step: Step, tx: Tx)
    requires ChainOk(c) && Blockchain.Enabled(c, step) && Open(Blockchain.Do(c, step), tx)
    requires tx.inputs != [] && forall h <- tx.inputs :: h in c.outs
    ensures Open(c, tx)
  {
    var c' := Blockchain.Do(c, step);
    StepKeepsOk(c, step);
    if tx !in c'.mined {
      assert forall h <- tx.inputs :: Unspent(c', h);
    }
  }

  lemma {:induction false} SendAllSends(
    s: System, id: Uuid, recipients: seq<PublicKey>, outputs: seq<Output>, source: PublicKey, tx: Tx, now: Time,
    r: Sent)
    requires |recipients| <= |outputs| && r in SendAll(s, id, recipients, outputs, source, tx, now).sent
    ensures r in s.sent || (r.leg.task == id && r.leg.recipient in recipients)
    ensures SendAll(s, id, recipients, outputs, source, tx, now).chain == s.chain
    decreases |recipients|
  {
    if recipients != [] {
      var s' := SendOne(s, id, recipients[0], outputs[0], source, tx, now);
      SendAllSends(s', id, recipients[1..], outputs[1..], source, tx, now, r);
    }
  }

  /** A step that does not send `leg` adds no payment of it and reopens none. */
  lemma QuietStep(s: System, e: Event, s': System, r: Sent)
    requires Inv(s) && Payouts.Enabled(s, e) && s' == Payouts.Do(s, e) && !Sends(e, r.leg)
    requires r in s'.sent && Open(s'.chain, r.tx)
    ensures r in s.sent && Open(s.chain, r.tx)
  {
    QuietSent(s, e, s', r);
    if s'.chain != s.chain {
      assert OnWire(s.chain, r);
      ChainStaysClosed(s.chain, if e.Send? then Build(e.tx) else e.step, r.tx);
    }
  }

  lemma QuietSent(s: System, e: Event, s': System, r: Sent)
    requires Payouts.Enabled(s, e) && s' == Payouts.Do(s, e) && !Sends(e, r.leg) && r in s'.sent
    ensures r in s.sent
    ensures s'.chain == if e.Send? then Blockchain.Do(s.chain, Build(e.tx))
                        else if e.OnChain? then Blockchain.Do(s.chain, e.step) else s.chain
  {
    if e.Send? {
      var built := s.(chain := Blockchain.Do(s.chain, Build(e.tx)));
      SendAllSends(built, e.id, e.recipients, e.tx.outputs, e.source, e.tx, e.now, r);
    }
  }

  lemma QuietRun(s: System, states: seq<System>, events: seq<Event>, i: nat, r: Sent)
    requires Inv(s) && IsRun(states, events) && states[0] == s && i < |states|
    requires forall e <- events :: !Sends(e, r.leg)
    requires OpenAt(states[i], r)
    ensures OpenAt(s, r)
  {
    forall j | 0 <= j < i ensures OpenAt(states[j + 1], r) ==> OpenAt(states[j], r) {
      LeadsKeepsInv(s, states, events, j);
      if OpenAt(states[j + 1], r) {
        QuietStepAt(states, events, j, r);
      }
    }
    BackToTheStart(states, i, r);
  }

  ghost predicate OpenAt(s: System, r: Sent) { r in s.sent && Open(s.chain, r.tx) }

  lemma {:induction false} BackToTheStart(states: seq<System>, i: nat, r: Sent)
    requires i < |states| && OpenAt(states[i], r)
    requires forall j :: 0 <= j < i ==> OpenAt(states[j + 1], r) ==> OpenAt(states[j], r)
    ensures OpenAt(states[0], r)
    decreases i
  {
    if i > 0 {
      assert OpenAt(states[i - 1 + 1], r);
      BackToTheStart(states, i - 1, r);
    }
  }

  lemma QuietStepAt(states: seq<System>, events: seq<Event>, i: nat, r: Sent)
    requires IsRun(states, events) && i < |events| && Inv(states[i]) && forall e <- events :: !Sends(e, r.leg)
    requires OpenAt(states[i + 1], r)
    ensures OpenAt(states[i], r)
  {
    assert StepAt(states, events, i) && events[i] in events;
    QuietStep(states[i], events[i], states[i + 1], r);
  }

  // ----- exactly when ------------------------------------------------------------------------------

  ghost predicate PaidTwice(s: System, leg: Leg) {
    exists p: nat, q: nat :: p < q && PaidInBlock(s, leg, p) && PaidInBlock(s, leg, q)
  }

  /** Some future of the system pays the leg twice although the hub sends it no more. */
  ghost predicate CanBePaidTwice(s: System, leg: Leg) {
    exists states, events, s' ::
      Leads(s, states, events, s') && (forall e <- events :: !Sends(e, leg)) && PaidTwice(s', leg)
  }

  ghost predicate OpenPair(s: System, leg: Leg, r: Sent, r': Sent) {
    && r in s.sent && r' in s.sent && r.leg == r'.leg == leg && r.tx != r'.tx
    && Open(s.chain, r.tx) && Open(s.chain, r'.tx) && !Conflicts(r.tx, r'.tx)
  }

  /** Mines one open payment, and leaves every other one open that shares no input with it. */
  lemma Land(s: System, tx: Tx, other: Tx) returns (states: seq<System>, events: seq<Event>, s': System)
    requires tx in s.chain.built && Open(s.chain, tx) && Open(s.chain, other) && !Conflicts(tx, other)
    ensures Leads(s, states, events, s') && (forall e <- events :: e.OnChain?)
    ensures s'.sent == s.sent && s'.chain.built == s.chain.built
    ensures tx in s'.chain.mined && Open(s'.chain, other) && s.chain.mined <= s'.chain.mined
  {
    if tx in s.chain.mined {
      LeadsNowhere(s);
      return [s], [], s;
    }
    MineOpen(s.chain, tx, other);
    states, events, s' := LeadsTwo(s, OnChain(Step.Submit(tx)), OnChain(Mine(tx)));
  }

  lemma MineOpen(c: Chain, tx: Tx, other: Tx)
    requires tx in c.built && CanSpend(c, tx) && Open(c, other) && !Conflicts(tx, other)
    ensures Blockchain.Enabled(c, Step.Submit(tx)) && Blockchain.Enabled(Blockchain.Do(c, Step.Submit(tx)), Mine(tx))
    ensures
      var c' := Blockchain.Do(Blockchain.Do(c, Step.Submit(tx)), Mine(tx));
      Open(c', other) && c'.mined == c.mined + [tx] && c'.built == c.built
  {
    var c' := Blockchain.Do(Blockchain.Do(c, Step.Submit(tx)), Mine(tx));
    assert c'.mined == c.mined + [tx];
    if other !in c.mined {
      forall h | h in other.inputs ensures Unspent(c', h) {
        assert Unspent(c, h) && h !in Inputs(tx);
      }
    }
  }

  lemma TwoBlocks(s: System, leg: Leg, r: Sent, r': Sent)
    requires r in s.sent && r' in s.sent && r.leg == r'.leg == leg && r.tx != r'.tx
    requires r.tx in s.chain.mined && r'.tx in s.chain.mined
    ensures PaidTwice(s, leg)
  {
    var p: nat :| p < |s.chain.mined| && s.chain.mined[p] == r.tx;
    var q: nat :| q < |s.chain.mined| && s.chain.mined[q] == r'.tx;
    assert PaidInBlock(s, leg, p) && PaidInBlock(s, leg, q);
    assert p < q || q < p;
  }

  lemma LandBoth(s: System, leg: Leg, r: Sent, r': Sent) returns (states: seq<System>, events: seq<Event>, s': System)
    requires Inv(s) && OpenPair(s, leg, r, r')
    ensures Leads(s, states, events, s') && (forall e <- events :: e.OnChain?) && PaidTwice(s', leg)
  {
    assert OnWire(s.chain, r) && OnWire(s.chain, r');
    ConflictsSymmetric(r.tx, r'.tx);
    var st1, ev1, s1 := Land(s, r.tx, r'.tx);
    assert !Conflicts(r'.tx, r.tx) && Open(s1.chain, r.tx);
    var st2, ev2;
    st2, ev2, s' := Land(s1, r'.tx, r.tx);
    states := LeadsOn(s, st1, ev1, s1, st2, ev2, s');
    events := ev1 + ev2;
    assert r.tx in s'.chain.mined;
    TwoBlocks(s', leg, r, r');
  }

  lemma PairOfBlocks(s: System, states: seq<System>, events: seq<Event>, s': System, leg: Leg)
    returns (r: Sent, r': Sent)
    requires Inv(s) && Leads(s, states, events, s') && (forall e <- events :: !Sends(e, leg)) && PaidTwice(s', leg)
    ensures OpenPair(s, leg, r, r')
  {
    LeadsKeepsInv(s, states, events, |states| - 1);
    r, r' := PairInBlocks(s', leg);
    QuietRun(s, states, events, |states| - 1, r);
    QuietRun(s, states, events, |states| - 1, r');
  }

  lemma PairInBlocks(s: System, leg: Leg) returns (r: Sent, r': Sent)
    requires MinedOk(s.chain) && PaidTwice(s, leg)
    ensures r in s.sent && r' in s.sent && r.leg == r'.leg == leg && r.tx != r'.tx
    ensures Open(s.chain, r.tx) && Open(s.chain, r'.tx) && !Conflicts(r.tx, r'.tx)
  {
    var p: nat, q: nat :| p < q && PaidInBlock(s, leg, p) && PaidInBlock(s, leg, q);
    r :| r in s.sent && r.leg == leg && r.tx == s.chain.mined[p];
    r' :| r' in s.sent && r'.leg == leg && r'.tx == s.chain.mined[q];
  }

  /** In any state a run reaches: some future pays a leg twice, without the hub sending it
      again, exactly when two different payments already sent for it are mined or still
      spendable and share no input. */
  lemma PaidTwiceIff(s: System, leg: Leg)
    requires Inv(s)
    ensures CanBePaidTwice(s, leg) <==> exists r, r' :: OpenPair(s, leg, r, r')
  {
    if CanBePaidTwice(s, leg) {
      var states, events, s' :|
        Leads(s, states, events, s') && (forall e <- events :: !Sends(e, leg)) && PaidTwice(s', leg);
      var r, r' := PairOfBlocks(s, states, events, s', leg);
    }
    if r, r' :| OpenPair(s, leg, r, r') {
      var states, events, s' := LandBoth(s, leg, r, r');
      assert forall e <- events :: !Sends(e, leg);
    }
  }

  /** The two waiting payments of a leg that has only these: both can land exactly when they
      share no input. */
  lemma BothLandIff(s: System, leg: Leg, r: Sent, r': Sent)
    requires Inv(s) && r in s.sent && r' in s.sent && r.leg == r'.leg == leg && r.tx != r'.tx
    requires CanSpend(s.chain, r.tx) && CanSpend(s.chain, r'.tx)
    requires forall x <- s.sent :: x.leg == leg ==> x.tx == r.tx || x.tx == r'.tx
    ensures CanBePaidTwice(s, leg) <==> !Conflicts(r.tx, r'.tx)
  {
    PaidTwiceIff(s, leg);
    OnlyPair(s, leg, r, r');
  }

  lemma OnlyPair(s: System, leg: Leg, r: Sent, r': Sent)
    requires r in s.sent && r' in s.sent && r.leg == r'.leg == leg && r.tx != r'.tx
    requires CanSpend(s.chain, r.tx) && CanSpend(s.chain, r'.tx)
    requires forall x <- s.sent :: x.leg == leg ==> x.tx == r.tx || x.tx == r'.tx
    ensures (exists x, x' :: OpenPair(s, leg, x, x')) <==> !Conflicts(r.tx, r'.tx)
  {
    ConflictsSymmetric(r.tx, r'.tx);
    if !Conflicts(r.tx, r'.tx) {
      assert OpenPair(s, leg, r, r');
    }
  }

  // ----- two settlements of one leg -------------------------------------------------------------

  /** A send touches no chain, and owes nobody less. */
  lemma {:induction false} SendAllOwes(
    s: System, id: Uuid, recipients: seq<PublicKey>, outputs: seq<Output>, source: PublicKey, tx: Tx, now: Time)
    requires |recipients| <= |outputs| && TasksOk(s.board) && id in s.board.tasks && Payable(s.board.tasks[id].status)
    ensures
      var s' := SendAll(s, id, recipients, outputs, source, tx, now);
      && s'.chain == s.chain && id in s'.board.tasks && Payable(s'.board.tasks[id].status)
      && Owed(s'.board.tasks[id]) == Owed(s.board.tasks[id])
    decreases |recipients|
  {
    if recipients != [] {
      RecordOwesTheSame(s.board, NewAttempt(s.board, Leg(id, recipients[0]), outputs[0], source, tx, now));
      var s' := SendOne(s, id, recipients[0], outputs[0], source, tx, now);
      SendAllOwes(s', id, recipients[1..], outputs[1..], source, tx, now);
    }
  }

  lemma RecordOwesTheSame(b: Board, a: Attempt)
    requires TasksOk(b) && a.leg.task in b.tasks && Payable(b.tasks[a.leg.task].status)
    ensures
      var b' := RecordAttempt(b, a);
      && TasksOk(b') && a.leg.task in b'.tasks && Payable(b'.tasks[a.leg.task].status)
      && Owed(b'.tasks[a.leg.task]) == Owed(b.tasks[a.leg.task])
  {
    if b.tasks[a.leg.task].status.Verified? {
      MarkedSubmitted(b.tasks[a.leg.task]);
    }
  }

  lemma SendRecords(s: System, e: Event, s': System)
    requires TasksOk(s.board) && e.Send? && Payouts.Enabled(s, e) && s' == Payouts.Do(s, e)
    ensures s'.chain == Blockchain.Do(s.chain, Build(e.tx)) && s.sent <= s'.sent
    ensures e.id in s'.board.tasks && Payable(s'.board.tasks[e.id].status)
    ensures Owed(s'.board.tasks[e.id]) == Owed(s.board.tasks[e.id])
    ensures forall k <- e.recipients :: exists r <- s'.sent :: r.leg == Leg(e.id, k) && r.tx == e.tx
  {
    var built := s.(chain := Blockchain.Do(s.chain, Build(e.tx)));
    SendAllOwes(built, e.id, e.recipients, e.tx.outputs, e.source, e.tx, e.now);
    SendAllSent(built, e.id, e.recipients, e.tx.outputs, e.source, e.tx, e.now);
  }

  /** Two settlements a task could make now, with different transactions. */
  ghost predicate Racing(s: System, first: Event, second: Event) {
    && first.Send? && second.Send? && first.id == second.id && first.tx != second.tx
    && Payouts.Enabled(s, first) && Payouts.Enabled(s, second) && Created(first.tx) !! Created(second.tx)
  }

  /** The first does not stop the second. */
  lemma SecondStillEnabled(s: System, first: Event, second: Event)
    requires TasksOk(s.board) && Racing(s, first, second)
    ensures Payouts.Enabled(Payouts.Do(s, first), second)
  {
    SendRecords(s, first, Payouts.Do(s, first));
  }

  lemma RacedPair(s: System, first: Event, second: Event, s1: System, s2: System, k: PublicKey)
    returns (r: Sent, r': Sent)
    requires TasksOk(s.board) && TasksOk(s1.board) && Racing(s, first, second)
    requires s1 == Payouts.Do(s, first) && Payouts.Enabled(s1, second) && s2 == Payouts.Do(s1, second)
    requires k in first.recipients && k in second.recipients && !Conflicts(first.tx, second.tx)
    ensures OpenPair(s2, Leg(first.id, k), r, r')
  {
    SendRecords(s, first, s1);
    SendRecords(s1, second, s2);
    SpendsNow(s, first);
    SpendsNow(s, second);
    SpendsNow(s1, second);
    r, r' := RecordedPair(s.chain, first.tx, second.tx, s1.sent, s2, Leg(first.id, k));
  }

  lemma SpendsNow(s: System, e: Event)
    requires e.Send? && Payouts.Enabled(s, e)
    ensures CanSpend(s.chain, e.tx) && Blockchain.Enabled(s.chain, Build(e.tx))
  {
  }

  lemma RecordedPair(c: Chain, first: Tx, second: Tx, earlier: seq<Sent>, s: System, leg: Leg)
    returns (r: Sent, r': Sent)
    requires CanSpend(c, first) && CanSpend(c, second) && first != second && !Conflicts(first, second)
    requires Blockchain.Enabled(c, Build(first)) && Blockchain.Enabled(Blockchain.Do(c, Build(first)), Build(second))
    requires s.chain == Blockchain.Do(Blockchain.Do(c, Build(first)), Build(second)) && earlier <= s.sent
    requires exists x <- earlier :: x.leg == leg && x.tx == first
    requires exists x <- s.sent :: x.leg == leg && x.tx == second
    ensures OpenPair(s, leg, r, r')
  {
    r :| r in earlier && r.leg == leg && r.tx == first;
    r' :| r' in s.sent && r'.leg == leg && r'.tx == second;
    BuildsLeaveOpen(c, first, second);
  }

  lemma BuildsLeaveOpen(c: Chain, first: Tx, second: Tx)
    requires CanSpend(c, first) && CanSpend(c, second)
    requires Blockchain.Enabled(c, Build(first)) && Blockchain.Enabled(Blockchain.Do(c, Build(first)), Build(second))
    ensures
      var c' := Blockchain.Do(Blockchain.Do(c, Build(first)), Build(second));
      Open(c', first) && Open(c', second)
  {
    var c' := Blockchain.Do(Blockchain.Do(c, Build(first)), Build(second));
    assert c'.outs == c.outs && c'.spent == c.spent;
    assert forall h <- first.inputs + second.inputs :: Unspent(c, h) == Unspent(c', h);
  }

  /** Whenever two settlements that share no input can be made, both can be made, and both can
      be mined: everyone they both pay is paid twice. */
  lemma RacingSettlementsPayTwice(s: System, first: Event, second: Event, k: PublicKey)
    returns (states: seq<System>, events: seq<Event>, s': System)
    requires Inv(s) && Racing(s, first, second) && !Conflicts(first.tx, second.tx)
    requires k in first.recipients && k in second.recipients
    ensures Leads(s, states, events, s') && |events| >= 2 && events[0] == first && events[1] == second
    ensures PaidTwice(s', Leg(first.id, k))
  {
    SecondStillEnabled(s, first, second);
    var s1 := Payouts.Do(s, first);
    var st1, ev1, s2 := LeadsTwo(s, first, second);
    StepKeepsInv(s, first);
    StepKeepsInv(s1, second);
    var r, r' := RacedPair(s, first, second, s1, s2, k);
    var st2, ev2;
    st2, ev2, s' := LandBoth(s2, Leg(first.id, k), r, r');
    states := LeadsOn(s, st1, ev1, s2, st2, ev2, s');
    events := ev1 + ev2;
  }

  // ----- the deposit with two outputs ---------------------------------------------------------

  /** `HUB_TRANSACTION_FEE`. */
  const FEE: nat := 1_000

  const TASK := Uuid(1)
  const DEPOSIT := PublicKey(1)
  const WORKER := PublicKey(2)
  const LEG := Leg(TASK, WORKER)
  const PART_A := Output(Hash(0), DEPOSIT, 5 + FEE)
  const PART_B := Output(Hash(1), DEPOSIT, 5 + FEE)
  const FIRST := Send(TASK, [WORKER], DEPOSIT, Tx([Hash(0)], [Output(Hash(2), WORKER, 5)]), 0)
  const SECOND := Send(TASK, [WORKER], DEPOSIT, Tx([Hash(1)], [Output(Hash(3), WORKER, 5)]), 0)

  /** An escrow-funded task its worker has claimed. */
  const CLAIMED :=
    Task(TASK, 5, HashMatch(7), PublicKey(3), Claimed, Some(WORKER), Some(0), 0, 0, 0, None, Some(Uuid(2)), None)

  const VERIFY := Operate(TASK, Tasks.Submit(WORKER, 7))

  /** A hub with that task, beside a chain that holds the two parts of its deposit. */
  ghost predicate TwoParts(s: System) {
    && s.chain == Chain({Hash(0), Hash(1)}, {}, {}, map[Hash(0) := PART_A, Hash(1) := PART_B], {}, [], {}, {})
    && s == System(s.chain, Board(map[TASK := CLAIMED], map[], map[]), {}, [], [], 0)
  }

  lemma TwoPartsInitial() returns (s: System)
    ensures TwoParts(s) && Initial(s)
  {
    var c := Chain({Hash(0), Hash(1)}, {}, {}, map[Hash(0) := PART_A, Hash(1) := PART_B], {}, [], {}, {});
    s := System(c, Board(map[TASK := CLAIMED], map[], map[]), {}, [], [], 0);
  }

  lemma VerifiedOwes(s: System)
    requires TwoParts(s)
    ensures Payouts.Enabled(s, VERIFY)
    ensures
      var s' := Payouts.Do(s, VERIFY);
      && s'.chain == s.chain && s'.board.tasks == map[TASK := CLAIMED.(status := Verified)]
      && s'.board.attempts == map[]
  {
    var s' := Payouts.Do(s, VERIFY);
    assert s'.board.tasks == map[TASK := CLAIMED.(status := Verified)];
  }

  lemma PartsRace(s: System)
    requires s.board.tasks == map[TASK := CLAIMED.(status := Verified)]
    requires s.chain == Chain({Hash(0), Hash(1)}, {}, {}, map[Hash(0) := PART_A, Hash(1) := PART_B], {}, [], {}, {})
    ensures Racing(s, FIRST, SECOND) && !Conflicts(FIRST.tx, SECOND.tx)
  {
    assert Owed(CLAIMED.(status := Verified)) == map[WORKER := 5];
    PartPays(s, Hash(0), Hash(2));
    PartPays(s, Hash(1), Hash(3));
  }

  lemma PartPays(s: System, h: Hash, o: Hash)
    requires TASK in s.board.tasks && s.board.tasks[TASK].status.Verified?
    requires Owed(s.board.tasks[TASK]) == map[WORKER := 5]
    requires Unspent(s.chain, h) && s.chain.outs[h].owner == DEPOSIT && s.chain.built == {} && o !in s.chain.born
    ensures
      var tx := Tx([h], [Output(o, WORKER, 5)]);
      Payouts.Enabled(s, Send(TASK, [WORKER], DEPOSIT, tx, 0)) && Created(tx) == {o}
  {
    assert Created(Tx([h], [Output(o, WORKER, 5)])) == {o};
  }

  /** The failing run: a deposit paid in two parts that each cover the bounty and the fee. Two
      racing settlements of the one owed leg spend one part each, and both are mined. */
  lemma TwoPartDepositPaysTwice() returns (states: seq<System>, events: seq<Event>)
    ensures IsRun(states, events) && Initial(states[0]) && TwoParts(states[0]) && |events| >= 3
    ensures events[0] == VERIFY && events[1] == FIRST && events[2] == SECOND
    ensures PART_A.value == PART_B.value == CLAIMED.bounty + FEE && PaidTwice(states[|states| - 1], LEG)
  {
    var s0 := TwoPartsInitial();
    VerifiedOwes(s0);
    PartsRace(Payouts.Do(s0, VERIFY));
    states, events := RaceAfter(s0, VERIFY, FIRST, SECOND, WORKER);
  }

  lemma RaceAfter(s: System, e: Event, first: Event, second: Event, k: PublicKey)
    returns (states: seq<System>, events: seq<Event>)
    requires Initial(s) && Payouts.Enabled(s, e) && Racing(Payouts.Do(s, e), first, second)
    requires !Conflicts(first.tx, second.tx) && k in first.recipients && k in second.recipients
    ensures IsRun(states, events) && states[0] == s && |events| >= 3
    ensures events[0] == e && events[1] == first && events[2] == second
    ensures PaidTwice(states[|states| - 1], Leg(first.id, k))
  {
    InitialOk(s);
    var st1, ev1, s1 := LeadsOne(s, e);
    StepKeepsInv(s, e);
    var st2, ev2, s2 := RacingSettlementsPayTwice(s1, first, second, k);
    states := LeadsOn(s, st1, ev1, s1, st2, ev2, s2);
    events := ev1 + ev2;
  }
}
