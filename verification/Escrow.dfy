// One-time escrow deposits: reserved, then consumed by exactly one task, dispute or
// exchange credit, or given back.

module Escrow {
  import opened Basics
  import opened Tasks
  import Exchange
  import ExchangeInvariant
  import TaskInvariant
  import TaskRuns

  datatype TaskIntent =
    | HashMatchIntent(bounty: nat, expectedOutputHash: int, minReputation: nat)
    | ConsensusIntent(bounty: nat, numAssignees: nat, joinWindow: int, submissionWindow: int, minReputation: nat)
    | DisputableIntent(bounty: nat, disputeWindow: int, minReputation: nat)

  datatype Purpose = FundTask(intent: TaskIntent) | DisputeBond(task: Uuid) | FundExchangeAccount

  datatype EscrowStatus = Disbursing | Reserved | Consumed | Refunded

  datatype Deposit = Deposit(
    id: Uuid, depositor: PublicKey, requiredAmount: nat, purpose: Purpose, status: EscrowStatus, expiresAt: Time)

  /** What a deposit was turned into, when, and how much was seen on its address. */
  datatype Use =
    | TaskUse(escrow: Uuid, task: Uuid, observed: nat, at: Time)
    | DisputeUse(escrow: Uuid, task: Uuid, observed: nat, at: Time)
    | ExchangeUse(escrow: Uuid, credited: nat, observed: nat, at: Time)

  /** `ledger` is the exchange's own book. */
  datatype Bank = Bank(tasks: map<Uuid, Task>, deposits: map<Uuid, Deposit>, ledger: Exchange.Book, uses: seq<Use>)

  /** `create_task`, `create_consensus_task`, `create_disputable_task`, as `confirm_escrow`
      calls them. */
  function NewTask(id: Uuid, poster: PublicKey, intent: TaskIntent, escrow: Uuid, now: Time): (t: Task)
    ensures TaskRuns.Created(t) && t.id == id && t.poster == poster && t.escrowId == Some(escrow)
    ensures t.bounty == intent.bounty
  {
    var kind :=
      match intent
      case HashMatchIntent(_, hash, _) => HashMatch(hash)
      case ConsensusIntent(_, n, joinWindow, window, _) => Consensus(n, now + joinWindow, window, None, map[])
      case DisputableIntent(_, window, _) => Disputable(None, window, None, None, [], None, None);
    Task(id, intent.bounty, kind, poster, Open, None, None, 0, now, intent.minReputation, None, Some(escrow), None)
  }

  /** The checks every confirmation makes, in their order. */
  function Refusal(b: Bank, id: Uuid, rightPurpose: bool, observed: nat, now: Time): Option<Error> {
    if id !in b.deposits then Some(EscrowNotFound)
    else if !rightPurpose then Some(WrongEscrowPurpose)
    else if !b.deposits[id].status.Reserved? then Some(EscrowNotReserved)
    else if now > b.deposits[id].expiresAt then Some(EscrowExpired)
    else if observed < b.deposits[id].requiredAmount then Some(EscrowUnderfunded)
    else None
  }

  function Consume(b: Bank, id: Uuid, use: Use): Bank
    requires id in b.deposits
  {
    b.(deposits := b.deposits[id := b.deposits[id].(status := Consumed)], uses := b.uses + [use])
  }

  /** `confirm_escrow`; `task` is the fresh id it draws. */
  function ConfirmEscrow(b: Bank, id: Uuid, task: Uuid, observed: nat, now: Time): Result<Bank, Error> {
    var refused := Refusal(b, id, id in b.deposits && b.deposits[id].purpose.FundTask?, observed, now);
    if refused.Some? then Err(refused.value)
    else
      var t := NewTask(task, b.deposits[id].depositor, b.deposits[id].purpose.intent, id, now);
      Ok(Consume(b, id, TaskUse(id, task, observed, now)).(tasks := b.tasks[task := t]))
  }

  /** How a bond's confirmation ends; it panics on a task that awaits disputes without a
      deadline for them. */
  datatype BondResult = Bonded(bank: Bank) | NotBonded(error: Error) | BondPanics

  /** `confirm_dispute_bond`: a refusal by the task leaves the deposit reserved, to be refunded. */
  function ConfirmDisputeBond(b: Bank, id: Uuid, observed: nat, now: Time): BondResult {
    var refused := Refusal(b, id, id in b.deposits && b.deposits[id].purpose.DisputeBond?, observed, now);
    if refused.Some? then NotBonded(refused.value)
    else
      var task := b.deposits[id].purpose.task;
      if task !in b.tasks then NotBonded(NotFound)
      else
        match ApplyFileDispute(b.tasks[task], b.deposits[id].depositor, id, b.deposits[id].requiredAmount, now)
        case Fail(e) => NotBonded(e)
        case Panic => BondPanics
        case Done(t) => Bonded(Consume(b, id, DisputeUse(id, task, observed, now)).(tasks := b.tasks[task := t]))
  }

  /** `confirm_exchange_deposit`: the network fee comes off, saturating at zero. */
  function ConfirmExchangeDeposit(b: Bank, id: Uuid, observed: nat, networkFee: nat, now: Time): Result<Bank, Error> {
    var refused := Refusal(b, id, id in b.deposits && b.deposits[id].purpose.FundExchangeAccount?, observed, now);
    if refused.Some? then Err(refused.value)
    else
      var credited := if observed >= networkFee then observed - networkFee else 0;
      var ledger := Exchange.CreditBase(b.ledger, b.deposits[id].depositor, credited);
      Ok(Consume(b, id, ExchangeUse(id, credited, observed, now)).(ledger := ledger))
  }

  // ----- exactly when a confirmation succeeds ------------------------------------------------------

  /** A deposit that is still reserved, not overdue, and funded. */
  predicate Funded(b: Bank, id: Uuid, observed: nat, now: Time) {
    && id in b.deposits && b.deposits[id].status == Reserved
    && now <= b.deposits[id].expiresAt && b.deposits[id].requiredAmount <= observed
  }

  /** What a refusal of the deposit says is so. */
  predicate Blames(b: Bank, id: Uuid, rightPurpose: bool, observed: nat, now: Time, e: Error) {
    match e
    case EscrowNotFound => id !in b.deposits
    case WrongEscrowPurpose => id in b.deposits && !rightPurpose
    case EscrowNotReserved => id in b.deposits && b.deposits[id].status != Reserved
    case EscrowExpired => id in b.deposits && now > b.deposits[id].expiresAt
    case EscrowUnderfunded => id in b.deposits && observed < b.deposits[id].requiredAmount
    case _ => false
  }

  /** A task is created exactly for a reserved, timely and funded deposit that was made for one,
      by and for its depositor, on the terms it was reserved with. */
  lemma ConfirmEscrowIff(b: Bank, id: Uuid, task: Uuid, observed: nat, now: Time)
    ensures ConfirmEscrow(b, id, task, observed, now).Ok? <==>
      Funded(b, id, observed, now) && b.deposits[id].purpose.FundTask?
    ensures ConfirmEscrow(b, id, task, observed, now).Ok? ==>
      var b', d := ConfirmEscrow(b, id, task, observed, now).value, b.deposits[id];
      && b'.deposits == b.deposits[id := d.(status := Consumed)] && b'.ledger == b.ledger
      && task in b'.tasks && b'.tasks == b.tasks[task := b'.tasks[task]]
      && OnTerms(b'.tasks[task], task, d.depositor, d.purpose.intent, id, now)
    ensures ConfirmEscrow(b, id, task, observed, now).Err? ==>
      Blames(b, id, id in b.deposits && b.deposits[id].purpose.FundTask?, observed, now,
             ConfirmEscrow(b, id, task, observed, now).error)
  {
  }

  /** An open task with its poster's bounty and windows, counted from now. */
  ghost predicate OnTerms(t: Task, id: Uuid, poster: PublicKey, intent: TaskIntent, escrow: Uuid, now: Time) {
    && t.id == id && t.poster == poster && t.bounty == intent.bounty && t.status == Open
    && t.escrowId == Some(escrow) && t.createdAt == now && t.minReputation == intent.minReputation
    && t.claimant.None? && t.failedAttempts == 0
    && match intent
       case HashMatchIntent(_, hash, _) => t.kind == HashMatch(hash)
       case ConsensusIntent(_, n, joinWindow, window, _) =>
         && t.kind.Consensus? && t.kind.numAssignees == n && t.kind.joinDeadline == now + joinWindow
         && t.kind.submissionWindow == window && t.kind.assignees == map[]
       case DisputableIntent(_, window, _) =>
         t.kind.Disputable? && t.kind.window == window && t.kind.answers == [] && t.kind.dispute.None?
  }

  /** A dispute is filed exactly with such a bond, against an answered task within its window
      that nobody disputes yet, by somebody else than who answered. */
  lemma BondIff(b: Bank, id: Uuid, observed: nat, now: Time)
    requires TasksValid(b)
    ensures ConfirmDisputeBond(b, id, observed, now).Bonded? <==>
      && Funded(b, id, observed, now) && b.deposits[id].purpose.DisputeBond? && b.deposits[id].purpose.task in b.tasks
      && var t := b.tasks[b.deposits[id].purpose.task];
         && t.kind.Disputable? && t.status == AwaitingDispute && t.kind.dispute.None?
         && t.kind.disputeDeadline.Some? && now <= t.kind.disputeDeadline.value
         && t.claimant != Some(b.deposits[id].depositor)
    ensures ConfirmDisputeBond(b, id, observed, now).Bonded? ==>
      var b', d := ConfirmDisputeBond(b, id, observed, now).bank, b.deposits[id];
      var task := d.purpose.task;
      && b'.deposits == b.deposits[id := d.(status := Consumed)] && b'.ledger == b.ledger
      && task in b'.tasks && b'.tasks == b.tasks[task := b'.tasks[task]]
      && b'.tasks[task].status == Disputed && b'.tasks[task].kind.Disputable?
      && b'.tasks[task].kind.dispute == Some(Dispute(d.depositor, id, d.requiredAmount, now, None))
  {
    if id in b.deposits && b.deposits[id].purpose.DisputeBond? && b.deposits[id].purpose.task in b.tasks {
      FileDisputeKeepsTask(b, id, now);
    }
  }

  /** An exchange account is credited exactly with such a deposit: its depositor's, by what was
      seen less the fee. */
  lemma ExchangeFundingIff(b: Bank, id: Uuid, observed: nat, fee: nat, now: Time)
    ensures ConfirmExchangeDeposit(b, id, observed, fee, now).Ok? <==>
      Funded(b, id, observed, now) && b.deposits[id].purpose.FundExchangeAccount?
    ensures ConfirmExchangeDeposit(b, id, observed, fee, now).Ok? ==>
      var b', d := ConfirmExchangeDeposit(b, id, observed, fee, now).value, b.deposits[id];
      var credited := if observed >= fee then observed - fee else 0;
      && b'.deposits == b.deposits[id := d.(status := Consumed)] && b'.tasks == b.tasks
      && b'.ledger.orders == b.ledger.orders
      && forall k ::
           Exchange.AccountOf(b'.ledger.accounts, k)
           == var a := Exchange.AccountOf(b.ledger.accounts, k);
              if k == d.depositor then a.(base := a.base + credited) else a
    ensures ConfirmExchangeDeposit(b, id, observed, fee, now).Err? ==>
      Blames(b, id, id in b.deposits && b.deposits[id].purpose.FundExchangeAccount?, observed, now,
             ConfirmExchangeDeposit(b, id, observed, fee, now).error)
  {
  }

  // ----- runs ---------------------------------------------------------------------------------

  datatype Event =
    | Reserve(deposit: Deposit)
    | Confirm(id: Uuid, task: Uuid, observed: nat)
    | ConfirmBond(id: Uuid, observed: nat)
    | ConfirmExchange(id: Uuid, observed: nat, networkFee: nat)
    | MarkRefunded(id: Uuid)
    | Disburse(id: Uuid)
    | Operate(id: Uuid, op: Op)

  datatype Timed = Timed(event: Event, now: Time)

  predicate Enabled(b: Bank, e: Event) {
    match e
    case Reserve(d) => d.id !in b.deposits && d.status.Reserved?
    case Confirm(_, task, _) => task !in b.tasks
    case MarkRefunded(id) => id in b.deposits
    case Disburse(id) => id in b.deposits && !b.deposits[id].status.Refunded? && !b.deposits[id].status.Disbursing?
    case Operate(id, op) => id in b.tasks && !op.FileDispute?
    case _ => true
  }

  function OrSame(r: Result<Bank, Error>, b: Bank): Bank { if r.Ok? then r.value else b }

  function SetStatus(b: Bank, id: Uuid, status: EscrowStatus): Bank
    requires id in b.deposits
  {
    b.(deposits := b.deposits[id := b.deposits[id].(status := status)])
  }

  ghost function Do(b: Bank, e: Event, now: Time): Bank
    requires Enabled(b, e)
  {
    match e
    case Reserve(d) => b.(deposits := b.deposits[d.id := d])
    case Confirm(id, task, observed) => OrSame(ConfirmEscrow(b, id, task, observed, now), b)
    case ConfirmBond(id, observed) =>
      var r := ConfirmDisputeBond(b, id, observed, now);
      if r.Bonded? then r.bank else b
    case ConfirmExchange(id, observed, fee) => OrSame(ConfirmExchangeDeposit(b, id, observed, fee, now), b)
    case MarkRefunded(id) => SetStatus(b, id, Refunded)
    case Disburse(id) => SetStatus(b, id, Disbursing)
    case Operate(id, op) =>
      var r := Apply(b.tasks[id], op);
      if r.Done? then b.(tasks := b.tasks[id := r.task]) else b
  }

  /** Every change of a deposit's status, both ways round. */
  lemma DepositStatusIff(b: Bank, e: Event, now: Time, id: Uuid)
    requires Enabled(b, e) && TasksValid(b) && id in b.deposits
    ensures
      var b' := Do(b, e, now);
      && id in b'.deposits && b'.deposits[id] == b.deposits[id].(status := b'.deposits[id].status)
      && (b'.deposits[id].status != b.deposits[id].status <==>
            || (e == MarkRefunded(id) && !b.deposits[id].status.Refunded?)
            || e == Disburse(id)
            || (e.Confirm? && e.id == id && ConfirmEscrow(b, id, e.task, e.observed, now).Ok?)
            || (e.ConfirmBond? && e.id == id && ConfirmDisputeBond(b, id, e.observed, now).Bonded?)
            || (e.ConfirmExchange? && e.id == id
                && ConfirmExchangeDeposit(b, id, e.observed, e.networkFee, now).Ok?))
      && (b'.deposits[id].status != b.deposits[id].status ==>
            b'.deposits[id].status ==
              if e.MarkRefunded? then Refunded else if e.Disburse? then Disbursing else Consumed)
  {
  }

  ghost predicate StepAt(states: seq<Bank>, events: seq<Timed>, i: nat)
    requires |states| == |events| + 1 && i < |events|
  {
    Enabled(states[i], events[i].event) && states[i + 1] == Do(states[i], events[i].event, events[i].now)
  }

  /** A history with a clock that never runs backwards. */
  ghost predicate IsRun(states: seq<Bank>, events: seq<Timed>) {
    && |states| == |events| + 1
    && (forall i :: 0 <= i < |events| ==> StepAt(states, events, i))
    && (forall i, j :: 0 <= i < j < |events| ==> events[i].now <= events[j].now)
  }

  /** No deposits yet, and no task with one. */
  ghost predicate Initial(b: Bank) {
    && b.deposits == map[] && b.uses == [] && TasksValid(b)
    && forall id <- b.tasks :: b.tasks[id].escrowId.None? && NoBond(b.tasks[id])
  }

  /** Every task satisfies its own kind/status invariant. */
  ghost predicate TasksValid(b: Bank) { forall id <- b.tasks :: TaskInvariant.TaskOk(b.tasks[id]) }

  predicate NoBond(t: Task) { t.kind.Disputable? ==> t.kind.dispute.None? }

  // ----- the invariant -----------------------------------------------------------------------

  ghost predicate UseOk(b: Bank, u: Use) {
    && u.escrow in b.deposits && !b.deposits[u.escrow].status.Reserved? && u.at <= b.deposits[u.escrow].expiresAt
    && u.observed >= b.deposits[u.escrow].requiredAmount
    && match u
       case TaskUse(e, task, _, _) =>
         b.deposits[e].purpose.FundTask? && task in b.tasks && b.tasks[task].escrowId == Some(e)
       case DisputeUse(e, task, _, _) =>
         b.deposits[e].purpose == DisputeBond(task) && task in b.tasks && BondOf(b.tasks[task]) == Some(e)
       case ExchangeUse(e, _, _, _) => b.deposits[e].purpose.FundExchangeAccount?
  }

  function BondOf(t: Task): Option<Uuid> {
    if t.kind.Disputable? && t.kind.dispute.Some? then Some(t.kind.dispute.value.bondEscrowId) else None
  }

  ghost predicate UsesOk(b: Bank) {
    && (forall u <- b.uses :: UseOk(b, u))
    && (forall i, j :: 0 <= i < j < |b.uses| ==> b.uses[i].escrow != b.uses[j].escrow)
  }

  ghost predicate HasTaskUse(b: Bank, e: Uuid, task: Uuid) {
    exists u <- b.uses :: u.TaskUse? && u.escrow == e && u.task == task
  }

  ghost predicate HasDisputeUse(b: Bank, e: Uuid, task: Uuid) {
    exists u <- b.uses :: u.DisputeUse? && u.escrow == e && u.task == task
  }

  ghost predicate TasksOk(b: Bank) {
    forall id <- b.tasks ::
      && (b.tasks[id].escrowId.Some? ==> HasTaskUse(b, b.tasks[id].escrowId.value, id))
      && (BondOf(b.tasks[id]).Some? ==> HasDisputeUse(b, BondOf(b.tasks[id]).value, id))
  }

  ghost predicate Inv(b: Bank) { UsesOk(b) && TasksOk(b) }

  lemma OpKeepsMoney(t: Task, op: Op)
    requires Apply(t, op).Done? && !op.FileDispute?
    ensures Apply(t, op).task.escrowId == t.escrowId && BondOf(Apply(t, op).task) == BondOf(t)
  {
  }

  lemma OperateKeepsInv(b: Bank, id: Uuid, op: Op)
    requires Inv(b) && id in b.tasks && !op.FileDispute? && Apply(b.tasks[id], op).Done?
    ensures Inv(b.(tasks := b.tasks[id := Apply(b.tasks[id], op).task]))
  {
    OpKeepsMoney(b.tasks[id], op);
    var b' := b.(tasks := b.tasks[id := Apply(b.tasks[id], op).task]);
    forall u | u in b.uses ensures UseOk(b', u) { assert UseOk(b, u); }
    TasksStay(b, b');
  }

  lemma TasksStay(b: Bank, b': Bank)
    requires TasksOk(b) && b.uses <= b'.uses && b'.tasks.Keys == b.tasks.Keys
    requires forall id <- b.tasks ::
      b'.tasks[id].escrowId == b.tasks[id].escrowId && BondOf(b'.tasks[id]) == BondOf(b.tasks[id])
    ensures TasksOk(b')
  {
  }

  lemma UsesStay(b: Bank, b': Bank, id: Uuid)
    requires b.uses <= b'.uses
    ensures forall e :: HasTaskUse(b, e, id) ==> HasTaskUse(b', e, id)
    ensures forall e :: HasDisputeUse(b, e, id) ==> HasDisputeUse(b', e, id)
  {
  }

  lemma StatusKeepsInv(b: Bank, id: Uuid, status: EscrowStatus)
    requires Inv(b) && id in b.deposits && !status.Reserved?
    ensures Inv(SetStatus(b, id, status))
  {
  }

  lemma ReserveKeepsInv(b: Bank, d: Deposit)
    requires Inv(b) && d.id !in b.deposits
    ensures Inv(b.(deposits := b.deposits[d.id := d]))
  {
  }

  /** A use is recorded against a deposit that has had none. */
  lemma ConsumeKeepsUses(b: Bank, u: Use, b': Bank)
    requires UsesOk(b) && u.escrow in b.deposits && b.deposits[u.escrow].status.Reserved?
    requires b'.uses == b.uses + [u] && b'.deposits == b.deposits[u.escrow := b.deposits[u.escrow].(status := Consumed)]
    requires UseOk(b', u)
    requires forall id <- b.tasks ::
      id in b'.tasks && b'.tasks[id].escrowId == b.tasks[id].escrowId
      && (BondOf(b.tasks[id]).Some? ==> BondOf(b'.tasks[id]) == BondOf(b.tasks[id]))
    ensures UsesOk(b')
  {
    forall v | v in b'.uses ensures UseOk(b', v) {
      if v != u {
        assert v in b.uses && UseOk(b, v);
      }
    }
    forall i, j | 0 <= i < j < |b'.uses| ensures b'.uses[i].escrow != b'.uses[j].escrow {
      assert UseOk(b, b.uses[i]);
    }
  }

  lemma ConfirmKeepsInv(b: Bank, id: Uuid, task: Uuid, observed: nat, now: Time)
    requires Inv(b) && task !in b.tasks && ConfirmEscrow(b, id, task, observed, now).Ok?
    ensures Inv(ConfirmEscrow(b, id, task, observed, now).value)
  {
    var b' := ConfirmEscrow(b, id, task, observed, now).value;
    var u := TaskUse(id, task, observed, now);
    ConsumeKeepsUses(b, u, b');
    forall t | t in b'.tasks
      ensures b'.tasks[t].escrowId.Some? ==> HasTaskUse(b', b'.tasks[t].escrowId.value, t)
      ensures BondOf(b'.tasks[t]).Some? ==> HasDisputeUse(b', BondOf(b'.tasks[t]).value, t)
    {
      UsesStay(b, b', t);
      assert u in b'.uses;
    }
  }

  lemma BondKeepsInv(b: Bank, id: Uuid, observed: nat, now: Time)
    requires Inv(b) && ConfirmDisputeBond(b, id, observed, now).Bonded?
    ensures Inv(ConfirmDisputeBond(b, id, observed, now).bank)
  {
    var b' := ConfirmDisputeBond(b, id, observed, now).bank;
    var task := b.deposits[id].purpose.task;
    var u := DisputeUse(id, task, observed, now);
    ConsumeKeepsUses(b, u, b');
    forall t | t in b'.tasks
      ensures b'.tasks[t].escrowId.Some? ==> HasTaskUse(b', b'.tasks[t].escrowId.value, t)
      ensures BondOf(b'.tasks[t]).Some? ==> HasDisputeUse(b', BondOf(b'.tasks[t]).value, t)
    {
      UsesStay(b, b', t);
      assert u in b'.uses;
    }
  }

  /** A confirmed deposit keeps the exchange's own invariant and adds what it credited. */
  lemma FundingKeepsTheLedger(b: Bank, id: Uuid, observed: nat, fee: nat, now: Time)
    requires ExchangeInvariant.Inv(b.ledger) && ConfirmExchangeDeposit(b, id, observed, fee, now).Ok?
    ensures
      var after := ConfirmExchangeDeposit(b, id, observed, fee, now).value.ledger;
      var credited := if observed >= fee then observed - fee else 0;
      && ExchangeInvariant.Inv(after)
      && ExchangeInvariant.TotalCompute(after) == ExchangeInvariant.TotalCompute(b.ledger)
      && ExchangeInvariant.TotalBase(after) == ExchangeInvariant.TotalBase(b.ledger) + credited
  {
    var credited := if observed >= fee then observed - fee else 0;
    ExchangeInvariant.CreditBaseKeepsInv(b.ledger, b.deposits[id].depositor, credited);
  }

  lemma ExchangeKeepsInv(b: Bank, id: Uuid, observed: nat, fee: nat, now: Time)
    requires Inv(b) && ConfirmExchangeDeposit(b, id, observed, fee, now).Ok?
    ensures Inv(ConfirmExchangeDeposit(b, id, observed, fee, now).value)
  {
    var b' := ConfirmExchangeDeposit(b, id, observed, fee, now).value;
    ConsumeKeepsUses(b, b'.uses[|b.uses|], b');
    TasksStay(b, b');
  }

  /** What one deposit may go through: it never returns to `Reserved`, keeps its terms,
      and is used only while `Reserved` and not overdue. */
  ghost predicate DepositMoves(b: Bank, b': Bank, since: Time) {
    && (forall id <- b.deposits ::
          && id in b'.deposits && b'.deposits[id].expiresAt == b.deposits[id].expiresAt
          && b'.deposits[id].purpose == b.deposits[id].purpose && b'.deposits[id].depositor == b.deposits[id].depositor
          && b'.deposits[id].requiredAmount == b.deposits[id].requiredAmount
          && (b'.deposits[id].status.Reserved? ==> b.deposits[id].status.Reserved?))
    && b.uses <= b'.uses
    && (forall i :: |b.uses| <= i < |b'.uses| ==> b'.uses[i].at >= since)
  }

  lemma MovesReflexive(b: Bank, since: Time)
    ensures DepositMoves(b, b, since)
  {
  }

  lemma ReserveMoves(b: Bank, d: Deposit, since: Time)
    requires d.id !in b.deposits
    ensures DepositMoves(b, b.(deposits := b.deposits[d.id := d]), since)
  {
  }

  lemma StatusMoves(b: Bank, id: Uuid, status: EscrowStatus, since: Time)
    requires id in b.deposits && !status.Reserved?
    ensures DepositMoves(b, SetStatus(b, id, status), since)
  {
  }

  lemma ConsumeMoves(b: Bank, id: Uuid, use: Use, b': Bank)
    requires id in b.deposits
    requires b'.deposits == Consume(b, id, use).deposits && b'.uses == Consume(b, id, use).uses
    ensures DepositMoves(b, b', use.at)
  {
  }

  lemma BondMoves(b: Bank, id: Uuid, observed: nat, now: Time)
    requires ConfirmDisputeBond(b, id, observed, now).Bonded?
    ensures DepositMoves(b, ConfirmDisputeBond(b, id, observed, now).bank, now)
  {
    ConsumeMoves(b, id, DisputeUse(id, b.deposits[id].purpose.task, observed, now),
      ConfirmDisputeBond(b, id, observed, now).bank);
  }

  lemma ExchangeMoves(b: Bank, id: Uuid, observed: nat, fee: nat, now: Time)
    requires ConfirmExchangeDeposit(b, id, observed, fee, now).Ok?
    ensures DepositMoves(b, ConfirmExchangeDeposit(b, id, observed, fee, now).value, now)
  {
    var credited := if observed >= fee then observed - fee else 0;
    var b' := ConfirmExchangeDeposit(b, id, observed, fee, now).value;
    ConsumeMoves(b, id, ExchangeUse(id, credited, observed, now), b');
  }

  lemma EventMoves(b: Bank, e: Event, now: Time)
    requires Enabled(b, e)
    ensures DepositMoves(b, Do(b, e, now), now)
  {
    MovesReflexive(b, now);
    match e
    case Reserve(d) => ReserveMoves(b, d, now);
    case Confirm(id, task, observed) =>
      var r := ConfirmEscrow(b, id, task, observed, now);
      if r.Ok? { ConsumeMoves(b, id, TaskUse(id, task, observed, now), r.value); }
    case ConfirmBond(id, observed) =>
      if ConfirmDisputeBond(b, id, observed, now).Bonded? { BondMoves(b, id, observed, now); }
    case ConfirmExchange(id, observed, fee) =>
      if ConfirmExchangeDeposit(b, id, observed, fee, now).Ok? { ExchangeMoves(b, id, observed, fee, now); }
    case MarkRefunded(id) => StatusMoves(b, id, Refunded, now);
    case Disburse(id) => StatusMoves(b, id, Disbursing, now);
    case Operate(_, _) =>
  }

  lemma StepKeepsInv(b: Bank, e: Event, now: Time)
    requires Inv(b) && Enabled(b, e)
    ensures Inv(Do(b, e, now))
  {
    match e
    case Reserve(d) => ReserveKeepsInv(b, d);
    case Confirm(id, task, observed) =>
      if ConfirmEscrow(b, id, task, observed, now).Ok? { ConfirmKeepsInv(b, id, task, observed, now); }
    case ConfirmBond(id, observed) =>
      if ConfirmDisputeBond(b, id, observed, now).Bonded? { BondKeepsInv(b, id, observed, now); }
    case ConfirmExchange(id, observed, fee) =>
      if ConfirmExchangeDeposit(b, id, observed, fee, now).Ok? { ExchangeKeepsInv(b, id, observed, fee, now); }
    case MarkRefunded(id) => StatusKeepsInv(b, id, Refunded);
    case Disburse(id) => StatusKeepsInv(b, id, Disbursing);
    case Operate(id, op) => if Apply(b.tasks[id], op).Done? { OperateKeepsInv(b, id, op); }
  }

  lemma {:induction false} RunInv(states: seq<Bank>, events: seq<Timed>, i: nat)
    requires IsRun(states, events) && Initial(states[0]) && i < |states|
    ensures Inv(states[i])
  {
    if i > 0 {
      RunInv(states, events, i - 1);
      assert StepAt(states, events, i - 1);
      StepKeepsInv(states[i - 1], events[i - 1].event, events[i - 1].now);
    }
  }

  // ----- no confirmation panics ------------------------------------------------------------------

  lemma StepKeepsTasks(b: Bank, e: Event, now: Time)
    requires TasksValid(b) && Enabled(b, e)
    ensures TasksValid(Do(b, e, now))
  {
    match e
    case ConfirmBond(id, observed) =>
      var r := ConfirmDisputeBond(b, id, observed, now);
      if r.Bonded? { FileDisputeKeepsTask(b, id, now); }
    case Operate(id, op) =>
      if Apply(b.tasks[id], op).Done? { TaskInvariant.ApplyKeepsOk(b.tasks[id], op); }
    case _ =>
  }

  lemma FileDisputeKeepsTask(b: Bank, id: Uuid, now: Time)
    requires TasksValid(b) && id in b.deposits && b.deposits[id].purpose.DisputeBond?
    requires b.deposits[id].purpose.task in b.tasks
    ensures
      var d := b.deposits[id];
      var r := ApplyFileDispute(b.tasks[d.purpose.task], d.depositor, id, d.requiredAmount, now);
      !r.Panic? && (r.Done? ==> TaskInvariant.TaskOk(r.task))
  {
    var d := b.deposits[id];
    var op := FileDispute(d.depositor, id, d.requiredAmount, now);
    TaskInvariant.NeverPanics(b.tasks[d.purpose.task], op);
    if Apply(b.tasks[d.purpose.task], op).Done? {
      TaskInvariant.ApplyKeepsOk(b.tasks[d.purpose.task], op);
    }
  }

  lemma {:induction false} RunTasksValid(states: seq<Bank>, events: seq<Timed>, i: nat)
    requires IsRun(states, events) && Initial(states[0]) && i < |states|
    ensures TasksValid(states[i])
  {
    if i > 0 {
      RunTasksValid(states, events, i - 1);
      assert StepAt(states, events, i - 1);
      StepKeepsTasks(states[i - 1], events[i - 1].event, events[i - 1].now);
    }
  }

  /** In no state a run reaches does the confirmation of a bond panic. */
  lemma BondNeverPanics(states: seq<Bank>, events: seq<Timed>, i: nat, id: Uuid, observed: nat, now: Time)
    requires IsRun(states, events) && Initial(states[0]) && i < |states|
    ensures !ConfirmDisputeBond(states[i], id, observed, now).BondPanics?
  {
    RunTasksValid(states, events, i);
    if ConfirmDisputeBond(states[i], id, observed, now).BondPanics? {
      FileDisputeKeepsTask(states[i], id, now);
    }
  }

  // ----- what it gives ------------------------------------------------------------------------

  /** A deposit backs at most one thing, whatever kinds of thing they are. */
  lemma UsedAtMostOnce(states: seq<Bank>, events: seq<Timed>, i: nat, u: Use, v: Use)
    requires IsRun(states, events) && Initial(states[0]) && i < |states|
    requires u in states[i].uses && v in states[i].uses && u.escrow == v.escrow
    ensures u == v && u.escrow in states[i].deposits && !states[i].deposits[u.escrow].status.Reserved?
  {
    RunInv(states, events, i);
    var m :| 0 <= m < |states[i].uses| && states[i].uses[m] == u;
    var n :| 0 <= n < |states[i].uses| && states[i].uses[n] == v;
    assert m == n;
    assert UseOk(states[i], u);
  }

  /** No two tasks share an escrow, and no escrow that funds a task is anyone's bond. */
  lemma NoSharedEscrow(states: seq<Bank>, events: seq<Timed>, i: nat, t: Uuid, t': Uuid)
    requires IsRun(states, events) && Initial(states[0]) && i < |states|
    requires t in states[i].tasks && t' in states[i].tasks && states[i].tasks[t].escrowId.Some?
    ensures states[i].tasks[t'].escrowId == states[i].tasks[t].escrowId ==> t == t'
    ensures BondOf(states[i].tasks[t']) != states[i].tasks[t].escrowId
  {
    RunInv(states, events, i);
    var b := states[i];
    var e := b.tasks[t].escrowId.value;
    var u :| u in b.uses && u.TaskUse? && u.escrow == e && u.task == t;
    if b.tasks[t'].escrowId == Some(e) {
      var v :| v in b.uses && v.TaskUse? && v.escrow == e && v.task == t';
      UsedAtMostOnce(states, events, i, u, v);
    }
  }

  lemma MovesTransitive(a: Bank, b: Bank, c: Bank, since: Time, later: Time)
    requires DepositMoves(a, b, since) && DepositMoves(b, c, later) && since <= later
    ensures DepositMoves(a, c, since)
  {
  }

  lemma StepMoves(states: seq<Bank>, events: seq<Timed>, i: nat, j: nat)
    requires IsRun(states, events) && i <= j < |events|
    ensures DepositMoves(states[j], states[j + 1], events[j].now) && events[i].now <= events[j].now
  {
    assert StepAt(states, events, j);
    EventMoves(states[j], events[j].event, events[j].now);
  }

  lemma {:induction false} RunMoves(states: seq<Bank>, events: seq<Timed>, i: nat, j: nat, since: Time)
    requires IsRun(states, events) && i <= j < |states| && (i < |events| ==> since == events[i].now)
    ensures DepositMoves(states[i], states[j], since)
    decreases j
  {
    if i == j {
      MovesReflexive(states[i], since);
    } else {
      RunMoves(states, events, i, j - 1, since);
      StepMoves(states, events, i, j - 1);
      MovesTransitive(states[i], states[j - 1], states[j], since, events[j - 1].now);
    }
  }

  /** Once a deposit has left `Reserved` it never returns, so it leaves at most once. */
  lemma LeavesReservedOnce(states: seq<Bank>, events: seq<Timed>, i: nat, j: nat, id: Uuid)
    requires IsRun(states, events) && Initial(states[0]) && i <= j < |states|
    requires id in states[i].deposits && !states[i].deposits[id].status.Reserved?
    ensures id in states[j].deposits && !states[j].deposits[id].status.Reserved?
  {
    RunMoves(states, events, i, j, if i < |events| then events[i].now else 0);
  }

  function Rank(s: EscrowStatus): nat {
    match s
    case Reserved => 0
    case Consumed => 1
    case Disbursing => 2
    case Refunded => 3
  }

  lemma StatusStep(b: Bank, e: Event, now: Time, id: Uuid)
    requires Enabled(b, e) && id in b.deposits
    ensures id in Do(b, e, now).deposits
    ensures Rank(b.deposits[id].status) <= Rank(Do(b, e, now).deposits[id].status)
  {
  }

  /** A deposit is reserved, consumed, being paid out, given back, in that order: it may skip
      but never go back, so nothing is paid out of it after its refund. */
  lemma {:induction false} StatusOnlyAdvances(states: seq<Bank>, events: seq<Timed>, i: nat, j: nat, id: Uuid)
    requires IsRun(states, events) && i <= j < |states| && id in states[i].deposits
    ensures id in states[j].deposits
    ensures Rank(states[i].deposits[id].status) <= Rank(states[j].deposits[id].status)
    decreases j
  {
    if i < j {
      StatusOnlyAdvances(states, events, i, j - 1, id);
      assert StepAt(states, events, j - 1);
      StatusStep(states[j - 1], events[j - 1].event, events[j - 1].now, id);
    }
  }

  /** A deposit listed as overdue is never turned into anything later. */
  lemma OverdueNeverUsed(states: seq<Bank>, events: seq<Timed>, i: nat, j: nat, id: Uuid, u: Use)
    requires IsRun(states, events) && Initial(states[0]) && i <= j < |states| && i < |events|
    requires id in states[i].deposits && states[i].deposits[id].status.Reserved?
    requires events[i].now > states[i].deposits[id].expiresAt
    requires u in states[j].uses
    ensures u.escrow != id
  {
    RunInv(states, events, i);
    RunInv(states, events, j);
    RunMoves(states, events, i, j, events[i].now);
    var k :| 0 <= k < |states[j].uses| && states[j].uses[k] == u;
    if k < |states[i].uses| {
      assert u == states[i].uses[k] && UseOk(states[i], u);
    } else {
      assert UseOk(states[j], u);
    }
  }

  /** The step that made a use. */
  ghost predicate MadeAt(states: seq<Bank>, events: seq<Timed>, j: nat, u: Use)
    requires |states| == |events| + 1 && j < |events|
  {
    && u !in states[j].uses && u in states[j + 1].uses && u.at == events[j].now
    && Funded(states[j], u.escrow, u.observed, u.at)
    && match u
       case TaskUse(e, task, observed, _) =>
         events[j].event == Confirm(e, task, observed) && states[j].deposits[e].purpose.FundTask?
       case DisputeUse(e, task, observed, _) =>
         events[j].event == ConfirmBond(e, observed) && states[j].deposits[e].purpose == DisputeBond(task)
       case ExchangeUse(e, credited, observed, _) =>
         && events[j].event.ConfirmExchange? && events[j].event.id == e && events[j].event.observed == observed
         && states[j].deposits[e].purpose.FundExchangeAccount?
         && credited == if observed >= events[j].event.networkFee then observed - events[j].event.networkFee else 0
  }

  lemma StepMakes(b: Bank, e: Event, now: Time, u: Use)
    requires Enabled(b, e) && u !in b.uses && u in Do(b, e, now).uses
    ensures e.Confirm? || e.ConfirmBond? || e.ConfirmExchange?
    ensures u.escrow == e.id && u.observed == e.observed && u.at == now && Funded(b, u.escrow, u.observed, now)
    ensures e.Confirm? <==> u.TaskUse?
    ensures e.ConfirmBond? <==> u.DisputeUse?
    ensures e.Confirm? ==> u.task == e.task && b.deposits[u.escrow].purpose.FundTask?
    ensures e.ConfirmBond? ==> b.deposits[u.escrow].purpose == DisputeBond(u.task)
    ensures e.ConfirmExchange? ==> b.deposits[u.escrow].purpose.FundExchangeAccount?
    ensures e.ConfirmExchange? ==>
      u.credited == if e.observed >= e.networkFee then e.observed - e.networkFee else 0
  {
  }

  /** Every use of every run was made by the confirmation of that deposit, reserved, in time
      and funded, for what it was reserved for. */
  lemma {:induction false} EveryUseWasFunded(states: seq<Bank>, events: seq<Timed>, i: nat, u: Use) returns (j: nat)
    requires IsRun(states, events) && Initial(states[0]) && i < |states| && u in states[i].uses
    ensures j < i && MadeAt(states, events, j, u)
    decreases i
  {
    assert i > 0;
    assert StepAt(states, events, i - 1);
    if u in states[i - 1].uses {
      j := EveryUseWasFunded(states, events, i - 1, u);
    } else {
      j := i - 1;
      StepMakes(states[j], events[j].event, events[j].now, u);
    }
  }

  // ----- the board's own methods ------------------------------------------------------------------

  class EscrowBoard {
    var tasks: map<Uuid, Task>
    var pendingDeposits: map<Uuid, Deposit>
    var accounts: map<PublicKey, Exchange.Account>
    const orders: map<Uuid, Exchange.Order>
    ghost var uses: seq<Use>

    ghost function State(): Bank
      reads this
    {
      Bank(tasks, pendingDeposits, Exchange.Book(accounts, orders), uses)
    }

    constructor ()
      ensures Initial(State()) && State() == Bank(map[], map[], Exchange.Book(map[], map[]), [])
    {
      tasks, pendingDeposits, accounts, orders, uses := map[], map[], map[], map[], [];
    }

    method ReserveEscrow(id: Uuid, depositor: PublicKey, requiredAmount: nat, purpose: Purpose, expiresAt: Time)
      returns (d: Deposit)
      modifies this
      ensures d == Deposit(id, depositor, requiredAmount, purpose, Reserved, expiresAt)
      ensures State() == old(State()).(deposits := old(pendingDeposits)[id := d])
      ensures id !in old(pendingDeposits) ==> forall now: Time :: State() == Do(old(State()), Reserve(d), now)
    {
      d := Deposit(id, depositor, requiredAmount, purpose, Reserved, expiresAt);
      pendingDeposits := pendingDeposits[id := d];
    }

    method Checks(id: Uuid, rightPurpose: bool, observed: nat, now: Time) returns (refused: Option<Error>)
      ensures refused == Refusal(State(), id, rightPurpose, observed, now)
    {
      if id !in pendingDeposits {
        return Some(EscrowNotFound);
      }
      if !rightPurpose {
        return Some(WrongEscrowPurpose);
      }
      var deposit := pendingDeposits[id];
      if !deposit.status.Reserved? {
        return Some(EscrowNotReserved);
      }
      if now > deposit.expiresAt {
        return Some(EscrowExpired);
      }
      if observed < deposit.requiredAmount {
        return Some(EscrowUnderfunded);
      }
      return None;
    }

    /** `confirm_escrow`: every check comes before any change. */
    method ConfirmTaskEscrow(id: Uuid, task: Uuid, observed: nat, now: Time) returns (r: Result<Task, Error>)
      modifies this
      ensures
        match ConfirmEscrow(old(State()), id, task, observed, now)
        case Err(e) => r == Err(e) && State() == old(State())
        case Ok(b) => State() == b && r == Ok(tasks[task])
      ensures task !in old(tasks) ==> State() == Do(old(State()), Confirm(id, task, observed), now)
    {
      var refused := Checks(id, id in pendingDeposits && pendingDeposits[id].purpose.FundTask?, observed, now);
      if refused.Some? {
        return Err(refused.value);
      }
      var deposit := pendingDeposits[id];
      pendingDeposits := pendingDeposits[id := deposit.(status := Consumed)];
      uses := uses + [TaskUse(id, task, observed, now)];
      var t := NewTask(task, deposit.depositor, deposit.purpose.intent, id, now);
      tasks := tasks[task := t];
      return Ok(t);
    }

    /** `confirm_dispute_bond`: consumes the deposit only if the task takes the dispute. */
    method ConfirmDispute(id: Uuid, observed: nat, now: Time) returns (r: Result<Task, Error>, panicked: bool)
      modifies this
      ensures panicked <==> ConfirmDisputeBond(old(State()), id, observed, now).BondPanics?
      ensures !panicked ==>
        match ConfirmDisputeBond(old(State()), id, observed, now)
        case NotBonded(e) => r == Err(e) && State() == old(State())
        case Bonded(b) => State() == b && r.Ok? && r.value.status.Disputed? && BondOf(r.value) == Some(id)
        case BondPanics => false
      ensures State() == Do(old(State()), ConfirmBond(id, observed), now)
      ensures TasksValid(old(State())) ==> !panicked
    {
      panicked := false;
      if TasksValid(State()) && ConfirmDisputeBond(State(), id, observed, now).BondPanics? {
        FileDisputeKeepsTask(State(), id, now);
      }
      var refused := Checks(id, id in pendingDeposits && pendingDeposits[id].purpose.DisputeBond?, observed, now);
      if refused.Some? {
        return Err(refused.value), false;
      }
      var deposit := pendingDeposits[id];
      var task := deposit.purpose.task;
      if task !in tasks {
        return Err(NotFound), false;
      }
      match ApplyFileDispute(tasks[task], deposit.depositor, id, deposit.requiredAmount, now)
      case Fail(e) => return Err(e), false;
      case Panic => return Err(DisputeWindowClosed), true;
      case Done(t) =>
        tasks := tasks[task := t];
        pendingDeposits := pendingDeposits[id := deposit.(status := Consumed)];
        uses := uses + [DisputeUse(id, task, observed, now)];
        return Ok(t), false;
    }

    /** `confirm_exchange_deposit`. */
    method ConfirmExchangeFunding(id: Uuid, observed: nat, networkFee: nat, now: Time)
      returns (r: Result<(PublicKey, nat), Error>)
      modifies this
      ensures
        match ConfirmExchangeDeposit(old(State()), id, observed, networkFee, now)
        case Err(e) => r == Err(e) && State() == old(State())
        case Ok(b) =>
          && State() == b && r.Ok? && r.value.1 <= observed <= r.value.1 + networkFee
          && b.ledger == Exchange.CreditBase(old(State()).ledger, r.value.0, r.value.1)
      ensures State() == Do(old(State()), ConfirmExchange(id, observed, networkFee), now)
    {
      var funds := id in pendingDeposits && pendingDeposits[id].purpose.FundExchangeAccount?;
      var refused := Checks(id, funds, observed, now);
      if refused.Some? {
        return Err(refused.value);
      }
      var deposit := pendingDeposits[id];
      var credited := if observed >= networkFee then observed - networkFee else 0;
      pendingDeposits := pendingDeposits[id := deposit.(status := Consumed)];
      uses := uses + [ExchangeUse(id, credited, observed, now)];
      var k := deposit.depositor;
      var account := if k in accounts then accounts[k] else Exchange.EMPTY_ACCOUNT;
      accounts := accounts[k := account.(base := account.base + credited)];
      return Ok((k, credited));
    }

    /** `mark_escrow_refunded`: whatever the status was. */
    method MarkEscrowRefunded(id: Uuid) returns (r: Result<(), Error>)
      modifies this`pendingDeposits
      ensures r.Ok? <==> id in old(pendingDeposits)
      ensures id !in old(pendingDeposits) ==> State() == old(State())
      ensures id in old(pendingDeposits) ==> forall now: Time :: State() == Do(old(State()), MarkRefunded(id), now)
    {
      if id !in pendingDeposits {
        return Err(EscrowNotFound);
      }
      pendingDeposits := pendingDeposits[id := pendingDeposits[id].(status := Refunded)];
      return Ok(());
    }
  }
}
