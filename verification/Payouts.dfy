// The payout protocol: the board's payout records, the sweep that resolves them against
// the chain, and every step the hub and the chain can take.

module Payouts {
  import opened Basics
  import opened Tasks
  import opened Blockchain
  import opened PayoutOutcome
  import TaskInvariant
  import TaskRuns

  const MAX_PAYOUT_SUBMISSIONS := 4

  /** One (task, recipient) pair: the key of `payout_attempts`. */
  datatype Leg = Leg(task: Uuid, recipient: PublicKey)

  datatype Attempt = Attempt(
    leg: Leg, amount: nat, outputHash: Hash, spentInputs: seq<Hash>, source: PublicKey,
    submittedAt: Time, submissions: nat, tx: Tx)

  datatype Reputation = Reputation(completed: nat, failed: nat, totalEarned: nat)

  const NO_REPUTATION := Reputation(0, 0, 0)

  datatype Board = Board(tasks: map<Uuid, Task>, reputation: map<PublicKey, Reputation>, attempts: map<Leg, Attempt>)

  // ----- the board's payout methods -------------------------------------------------------

  function ReputationOf(b: Board, k: PublicKey): Reputation {
    if k in b.reputation then b.reputation[k] else NO_REPUTATION
  }

  /** `unsubmitted_payouts`: owed, and with no transaction in flight. */
  function Unsubmitted(b: Board, id: Uuid): map<PublicKey, nat> {
    if id in b.tasks
    then map k <- Pending(b.tasks[id]) | Leg(id, k) !in b.attempts :: Pending(b.tasks[id])[k]
    else map[]
  }

  /** `record_payout_attempt`. */
  function RecordAttempt(b: Board, a: Attempt): Board {
    var recorded := b.(attempts := b.attempts[a.leg := a]);
    if Unsubmitted(recorded, a.leg.task) == map[] && a.leg.task in b.tasks && b.tasks[a.leg.task].status.Verified?
    then recorded.(tasks := b.tasks[a.leg.task := b.tasks[a.leg.task].(status := Submitted)])
    else recorded
  }

  /** `clear_payout_attempt`. */
  function ClearAttempt(b: Board, leg: Leg): Board { b.(attempts := b.attempts - {leg}) }

  /** `mark_payout_failed`. */
  function MarkPayoutFailed(b: Board, id: Uuid): Result<Board, Error> {
    if id !in b.tasks then Err(NotFound)
    else if !(b.tasks[id].status.Verified? || b.tasks[id].status.Submitted?) then Err(NotVerified)
    else Ok(b.(tasks := b.tasks[id := b.tasks[id].(status := PayoutFailed)],
               attempts := map leg <- b.attempts | leg.task != id :: b.attempts[leg]))
  }

  /** `mark_recipient_paid`; the flag says whether anything was newly credited. */
  function MarkRecipientPaid(b: Board, id: Uuid, recipient: PublicKey, amount: nat, now: Time)
    : Result<(Board, bool), Error>
  {
    if id !in b.tasks then Err(NotFound)
    else
      var t := b.tasks[id];
      match ApplyMarkPaid(t, recipient, now)
      case Fail(e) => Err(e)
      case Panic => Err(NotFound)
      case Done(t') =>
        if t' == t then Ok((b, false))
        else
          var rep := ReputationOf(b, recipient);
          var rep' := rep.(completed := rep.completed + (if Credited(t) then 1 else 0),
            totalEarned := rep.totalEarned + amount);
          Ok((b.(tasks := b.tasks[id := t'], reputation := b.reputation[recipient := rep']), true))
  }

  /** The dings of a resolution. */
  function DingAll(reputation: map<PublicKey, Reputation>, losers: set<PublicKey>): map<PublicKey, Reputation> {
    map k <- reputation.Keys + losers ::
      var rep := if k in reputation then reputation[k] else NO_REPUTATION;
      if k in losers then rep.(failed := rep.failed + 1) else rep
  }

  // ----- the step system ------------------------------------------------------------------

  /** A payment the hub built and handed out, once per output. */
  datatype Sent = Sent(leg: Leg, amount: nat, outputHash: Hash, source: PublicKey, tx: Tx)

  /** A sweep between its node reads and its action: the attempt it copied off the board,
      and the recipient's UTXOs as the chain stood then, or the answer. */
  datatype Reading =
    | RecipientRead(attempt: Attempt, at: Chain, view: seq<Entry>)
    | BothRead(attempt: Attempt, outcome: Outcome)

  datatype Credit = Credit(leg: Leg, amount: nat)

  datatype System = System(
    chain: Chain, board: Board, readings: set<Reading>, sent: seq<Sent>, credits: seq<Credit>, forfeited: nat)

  function SentOf(a: Attempt): Sent { Sent(a.leg, a.amount, a.outputHash, a.source, a.tx) }

  datatype Event =
    | OnChain(step: Blockchain.Step)
    | CreateTask(task: Task)
    | Operate(id: Uuid, op: Op)
    | ForfeitBond(recipient: PublicKey, amount: nat)
    | Send(id: Uuid, recipients: seq<PublicKey>, source: PublicKey, tx: Tx, now: Time)
    | ReadRecipient(leg: Leg, view: seq<Entry>)
    | ReadSource(reading: Reading, view: seq<Entry>)
    | Confirm(reading: Reading, now: Time)
    | Resend(reading: Reading, legs: seq<Leg>, now: Time)
    | Abandon(reading: Reading)

  /** How often a leg has been put on the wire, as its attempt remembers it. */
  function Submissions(b: Board, leg: Leg): nat { if leg in b.attempts then b.attempts[leg].submissions else 0 }

  /** What `submit_task_payout` records for one output of the transaction it built. */
  function NewAttempt(b: Board, leg: Leg, output: Output, source: PublicKey, tx: Tx, now: Time): Attempt {
    Attempt(leg, output.value, output.hash, tx.inputs, source, now, Submissions(b, leg) + 1, tx)
  }

  ghost predicate PaysInOrder(owed: map<PublicKey, nat>, recipients: seq<PublicKey>, tx: Tx) {
    && |recipients| <= |tx.outputs|
    && (forall i, j :: 0 <= i < j < |recipients| ==> recipients[i] != recipients[j])
    && forall i :: 0 <= i < |recipients| ==>
         recipients[i] in owed && tx.outputs[i].owner == recipients[i] && tx.outputs[i].value == owed[recipients[i]]
  }

  predicate Payable(s: Status) { s.Verified? || s.Submitted? }

  /** A transaction the hub can build from `source` now. */
  ghost predicate Fundable(c: Chain, source: PublicKey, tx: Tx) {
    && Blockchain.Enabled(c, Build(tx))
    && tx.inputs != [] && forall h <- tx.inputs :: Unspent(c, h) && c.outs[h].owner == source
  }

  /** The legs of a task that ride in one transaction. */
  ghost predicate LegsOf(b: Board, a: Attempt, legs: seq<Leg>) {
    && (forall i, j :: 0 <= i < j < |legs| ==> legs[i] != legs[j])
    && forall leg :: leg in legs <==> leg in b.attempts && leg.task == a.leg.task && b.attempts[leg].tx == a.tx
  }

  ghost predicate Live(s: System, r: Reading) {
    r in s.readings && r.BothRead? && r.attempt.leg in s.board.attempts && s.board.attempts[r.attempt.leg] == r.attempt
  }

  ghost predicate Enabled(s: System, e: Event) {
    match e
    case OnChain(step) => Blockchain.Enabled(s.chain, step)
    case CreateTask(t) => t.id !in s.board.tasks && TaskRuns.Created(t)
    case Operate(id, op) =>
      id in s.board.tasks && !op.MarkPaid? && !op.MarkSubmitted? && !op.MarkFailed?
        && Apply(s.board.tasks[id], op).Done?
    case ForfeitBond(_, _) => true
    case Send(id, recipients, source, tx, now) =>
      && id in s.board.tasks && Payable(s.board.tasks[id].status)
      && recipients != [] && PaysInOrder(Owed(s.board.tasks[id]), recipients, tx) && Fundable(s.chain, source, tx)
    case ReadRecipient(leg, view) => leg in s.board.attempts && IsView(s.chain, leg.recipient, view)
    case ReadSource(r, view) => r in s.readings && r.RecipientRead? && IsView(s.chain, r.attempt.source, view)
    case Confirm(r, now) => Live(s, r) && r.outcome.Confirmed?
    case Resend(r, legs, now) =>
      Live(s, r) && r.outcome.NeverLanded? && r.attempt.submissions < MAX_PAYOUT_SUBMISSIONS
        && LegsOf(s.board, r.attempt, legs)
    case Abandon(r) =>
      r in s.readings && r.BothRead? && r.outcome.NeverLanded? && r.attempt.submissions >= MAX_PAYOUT_SUBMISSIONS
  }

  function SendOne(
    s: System, id: Uuid, recipient: PublicKey, output: Output, source: PublicKey, tx: Tx, now: Time): System
  {
    var a := NewAttempt(s.board, Leg(id, recipient), output, source, tx, now);
    s.(board := RecordAttempt(s.board, a), sent := s.sent + [SentOf(a)])
  }

  /** Records the attempts of a send one after the other, in the transaction's output order. */
  function SendAll(
    s: System, id: Uuid, recipients: seq<PublicKey>, outputs: seq<Output>, source: PublicKey, tx: Tx, now: Time): System
    requires |recipients| <= |outputs|
    decreases |recipients|
  {
    if recipients == [] then s
    else
      var s' := SendOne(s, id, recipients[0], outputs[0], source, tx, now);
      SendAll(s', id, recipients[1..], outputs[1..], source, tx, now)
  }

  function Bumped(a: Attempt, now: Time): Attempt { a.(submissions := a.submissions + 1, submittedAt := now) }

  function BumpOne(b: Board, leg: Leg, now: Time): Board {
    if leg in b.attempts then RecordAttempt(b, Bumped(b.attempts[leg], now)) else b
  }

  /** Bumps every leg of a resent transaction. */
  function BumpAll(b: Board, legs: seq<Leg>, now: Time): Board
    decreases |legs|
  {
    if legs == [] then b else BumpAll(BumpOne(b, legs[0], now), legs[1..], now)
  }

  ghost function Do(s: System, e: Event): System
    requires Enabled(s, e)
  {
    match e
    case OnChain(step) => s.(chain := Blockchain.Do(s.chain, step))
    case CreateTask(t) => s.(board := s.board.(tasks := s.board.tasks[t.id := t]))
    case Operate(id, op) => DoOperate(s, id, op)
    case ForfeitBond(k, amount) => DoForfeit(s, k, amount)
    case Send(id, recipients, source, tx, now) =>
      SendAll(s.(chain := Blockchain.Do(s.chain, Build(tx))), id, recipients, tx.outputs, source, tx, now)
    case ReadRecipient(leg, view) => s.(readings := s.readings + {RecipientRead(s.board.attempts[leg], s.chain, view)})
    case ReadSource(r, view) =>
      var outcome := ResolveAgainst(r.attempt.outputHash, r.attempt.spentInputs, r.view, view);
      s.(readings := s.readings + {BothRead(r.attempt, outcome)})
    case Confirm(r, now) => DoConfirm(s, r.attempt, now)
    case Resend(r, legs, now) => s.(board := BumpAll(s.board, legs, now))
    case Abandon(r) => DoAbandon(s, r.attempt.leg.task)
  }

  ghost function DoOperate(s: System, id: Uuid, op: Op): System
    requires id in s.board.tasks && Apply(s.board.tasks[id], op).Done?
  {
    var t := s.board.tasks[id];
    s.(board := s.board.(tasks := s.board.tasks[id := Apply(t, op).task],
                         reputation := DingAll(s.board.reputation, Dinged(t, op))))
  }

  /** `credit_forfeited_bond`. */
  function DoForfeit(s: System, k: PublicKey, amount: nat): System {
    var rep := ReputationOf(s.board, k);
    s.(board := s.board.(reputation := s.board.reputation[k := rep.(totalEarned := rep.totalEarned + amount)]),
       forfeited := s.forfeited + amount)
  }

  function DoAbandon(s: System, id: Uuid): System {
    var failed := MarkPayoutFailed(s.board, id);
    if failed.Ok? then s.(board := failed.value) else s
  }

  /** `record_confirmed_payout` on the board, and whether it credited anything. */
  function ConfirmPayout(b: Board, leg: Leg, amount: nat, now: Time): (Board, bool) {
    match MarkRecipientPaid(b, leg.task, leg.recipient, amount, now)
    case Err(_) => (b, false)
    case Ok((b', credited)) => (ClearAttempt(b', leg), credited)
  }

  function DoConfirm(s: System, a: Attempt, now: Time): System {
    var (b, credited) := ConfirmPayout(s.board, a.leg, a.amount, now);
    s.(board := b, credits := if credited then s.credits + [Credit(a.leg, a.amount)] else s.credits)
  }

  ghost predicate IsRun(states: seq<System>, events: seq<Event>) {
    && |states| == |events| + 1
    && forall i :: 0 <= i < |events| ==> StepAt(states, events, i)
  }

  ghost predicate StepAt(states: seq<System>, events: seq<Event>, i: nat)
    requires |states| == |events| + 1 && i < |events|
  {
    Enabled(states[i], events[i]) && states[i + 1] == Do(states[i], events[i])
  }

  /** A hub that has not paid anyone, beside any valid chain. */
  ghost predicate Initial(s: System) {
    && ChainOk(s.chain) && s.board.reputation == map[] && s.board.attempts == map[]
    && (forall id <- s.board.tasks ::
          var t := s.board.tasks[id];
          t.id == id && TaskInvariant.TaskOk(t) && !TaskInvariant.Decided(t.status))
    && s.readings == {} && s.sent == [] && s.credits == [] && s.forfeited == 0
  }
}
