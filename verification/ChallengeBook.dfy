// The faucet's challenge book: single-use puzzles in memory and on disk, across
// issue, redemption, sweeps and restarts.

module ChallengeProtocol {
  import opened Basics

  type Seconds = int

  const CHALLENGE_TTL_SECONDS := 600
  const REDEEMED_RETENTION_SECONDS := 3_600

  datatype Challenge = Challenge(
    id: Uuid, pubkey: PublicKey, issuedAt: Seconds, expiresAt: Seconds, redeemedAt: Option<Seconds>)
  {
    predicate Expired(now: Seconds) { now > expiresAt }
    predicate Redeemed() { redeemedAt.Some? }
    /** The last second at which the record can still matter. */
    function Horizon(): Seconds { if Redeemed() then expiresAt + REDEEMED_RETENTION_SECONDS else expiresAt }
  }

  datatype RedemptionError = Unknown | WrongKey | Expired | AlreadyRedeemed | Unsolved | NotRecorded

  datatype Book = Book(byId: map<Uuid, Challenge>, outstanding: map<PublicKey, Uuid>, rows: map<Uuid, Challenge>)

  function NewChallenge(id: Uuid, pubkey: PublicKey, now: Seconds): Challenge {
    Challenge(id, pubkey, now, now + CHALLENGE_TTL_SECONDS, None)
  }

  /** `validate`; whether the solution meets the target is the caller's to say. */
  function Validate(c: Challenge, pubkey: PublicKey, solved: bool, now: Seconds): Option<RedemptionError> {
    if c.pubkey != pubkey then Some(WrongKey)
    else if c.Redeemed() then Some(AlreadyRedeemed)
    else if c.Expired(now) then Some(Expired)
    else if !solved then Some(Unsolved)
    else None
  }

  /** How a durable write ends: committed, or reported failed with or without the row. */
  datatype Write = Committed | Failed(onDisk: bool)

  function Saved(rows: map<Uuid, Challenge>, c: Challenge, w: Write): map<Uuid, Challenge> {
    if w.Committed? || w.onDisk then rows[c.id := c] else rows
  }

  /** `issue_at_target`: replaces what the key had outstanding, in memory. */
  function Issued(b: Book, c: Challenge, w: Write): Book {
    var b' := b.(rows := Saved(b.rows, c, w));
    if w.Failed? then b'
    else
      var kept := if c.pubkey in b.outstanding then b.byId - {b.outstanding[c.pubkey]} else b.byId;
      b'.(outstanding := b.outstanding[c.pubkey := c.id], byId := kept[c.id := c])
  }

  function Refusal(b: Book, id: Uuid, pubkey: PublicKey, solved: bool, now: Seconds): Option<RedemptionError> {
    if id !in b.byId then Some(Unknown) else Validate(b.byId[id], pubkey, solved, now)
  }

  /** `redeem`, when nothing refuses it: written first, then spent in memory. */
  function RedeemedBook(b: Book, id: Uuid, now: Seconds, w: Write): Book
    requires id in b.byId
  {
    var c := b.byId[id].(redeemedAt := Some(now));
    var b' := b.(rows := Saved(b.rows, c, w));
    if w.Failed? then b' else b'.(byId := b.byId[id := c], outstanding := b.outstanding - {c.pubkey})
  }

  /** `cleanup`. */
  function CleanedUp(b: Book, now: Seconds, pruned: bool): Book {
    var byId := map id <- b.byId | now <= b.byId[id].Horizon() :: b.byId[id];
    Book(byId, map k <- b.outstanding | b.outstanding[k] in byId :: b.outstanding[k],
         if pruned then map id <- b.rows | now <= b.rows[id].Horizon() :: b.rows[id] else b.rows)
  }

  /** Which rows `restore` loads. */
  function Loaded(rows: map<Uuid, Challenge>, now: Seconds): map<Uuid, Challenge> {
    map id <- rows | now <= rows[id].Horizon() :: rows[id]
  }

  /** What `restore` may build: of several live challenges of one key, the last row read
      is the one outstanding. */
  ghost predicate IsRestored(b: Book, rows: map<Uuid, Challenge>, now: Seconds) {
    && b.rows == rows && b.byId == Loaded(rows, now)
    && (forall k <- b.outstanding :: Live(b, k, b.outstanding[k]))
    && (forall id <- b.byId :: !b.byId[id].Redeemed() ==> b.byId[id].pubkey in b.outstanding)
  }

  /** An unredeemed challenge of `k` the book holds. */
  predicate Live(b: Book, k: PublicKey, id: Uuid) { id in b.byId && !b.byId[id].Redeemed() && b.byId[id].pubkey == k }

  // ----- the step system ------------------------------------------------------------------------

  datatype State = State(book: Book, issued: set<Uuid>, redeemed: seq<Uuid>)

  datatype Step =
    | Issue(id: Uuid, pubkey: PublicKey, now: Seconds, write: Write)
    | Redeem(id: Uuid, pubkey: PublicKey, solved: bool, now: Seconds, write: Write)
    | Cleanup(now: Seconds, pruned: bool)
    | Restart(restored: Book, now: Seconds)

  ghost predicate Enabled(st: State, s: Step) {
    match s
    case Issue(id, _, _, _) => id !in st.issued
    case Redeem(id, pubkey, solved, now, _) => Refusal(st.book, id, pubkey, solved, now).None?
    case Cleanup(_, _) => true
    case Restart(b, now) => IsRestored(b, st.book.rows, now)
  }

  ghost function Do(st: State, s: Step): State
    requires Enabled(st, s)
  {
    match s
    case Issue(id, pubkey, now, w) =>
      st.(book := Issued(st.book, NewChallenge(id, pubkey, now), w), issued := st.issued + {id})
    case Redeem(id, pubkey, solved, now, w) =>
      st.(book := RedeemedBook(st.book, id, now, w),
          redeemed := if w.Committed? then st.redeemed + [id] else st.redeemed)
    case Cleanup(now, pruned) => st.(book := CleanedUp(st.book, now, pruned))
    case Restart(b, _) => st.(book := b)
  }

  ghost predicate IsRun(states: seq<State>, steps: seq<Step>) {
    && |states| == |steps| + 1
    && forall i :: 0 <= i < |steps| ==> StepAt(states, steps, i)
  }

  ghost predicate StepAt(states: seq<State>, steps: seq<Step>, i: nat)
    requires |states| == |steps| + 1 && i < |steps|
  {
    Enabled(states[i], steps[i]) && states[i + 1] == Do(states[i], steps[i])
  }

  predicate Initial(st: State) { st == State(Book(map[], map[], map[]), {}, []) }

  // ----- redeemed once -------------------------------------------------------------------------

  ghost predicate RecordsOk(records: map<Uuid, Challenge>, st: State) {
    forall id <- records :: records[id].id == id && id in st.issued && (id in st.redeemed ==> records[id].Redeemed())
  }

  ghost predicate Inv(st: State) {
    && RecordsOk(st.book.byId, st) && RecordsOk(st.book.rows, st)
    && (forall id <- st.redeemed :: id in st.issued)
    && (forall i, j :: 0 <= i < j < |st.redeemed| ==> st.redeemed[i] != st.redeemed[j])
  }

  lemma IssueKeepsInv(st: State, id: Uuid, pubkey: PublicKey, now: Seconds, w: Write, st': State)
    requires Inv(st) && id !in st.issued && st' == Do(st, Issue(id, pubkey, now, w))
    ensures Inv(st')
  {
  }

  lemma RedeemKeepsInv(st: State, id: Uuid, pubkey: PublicKey, solved: bool, now: Seconds, w: Write, st': State)
    requires Inv(st) && Enabled(st, Redeem(id, pubkey, solved, now, w))
    requires st' == Do(st, Redeem(id, pubkey, solved, now, w))
    ensures Inv(st')
  {
    assert id !in st.redeemed;
  }

  lemma CleanupKeepsInv(st: State, now: Seconds, pruned: bool)
    requires Inv(st)
    ensures Inv(st.(book := CleanedUp(st.book, now, pruned)))
  {
  }

  lemma RestartKeepsInv(st: State, b: Book, now: Seconds)
    requires Inv(st) && IsRestored(b, st.book.rows, now)
    ensures Inv(st.(book := b))
  {
  }

  lemma StepKeepsInv(st: State, s: Step)
    requires Inv(st) && Enabled(st, s)
    ensures Inv(Do(st, s))
  {
    match s
    case Issue(id, pubkey, now, w) => IssueKeepsInv(st, id, pubkey, now, w, Do(st, s));
    case Redeem(id, pubkey, solved, now, w) => RedeemKeepsInv(st, id, pubkey, solved, now, w, Do(st, s));
    case Cleanup(now, pruned) => CleanupKeepsInv(st, now, pruned);
    case Restart(b, now) => RestartKeepsInv(st, b, now);
  }

  lemma {:induction false} RunInv(states: seq<State>, steps: seq<Step>, i: nat)
    requires IsRun(states, steps) && Initial(states[0]) && i < |states|
    ensures Inv(states[i])
  {
    if i > 0 {
      RunInv(states, steps, i - 1);
      assert StepAt(states, steps, i - 1);
      StepKeepsInv(states[i - 1], steps[i - 1]);
    }
  }

  /** Every challenge is successfully redeemed at most once, whatever the clock, the sweep,
      failed writes and restarts do. */
  lemma RedeemedAtMostOnce(states: seq<State>, steps: seq<Step>, i: nat, m: nat, n: nat)
    requires IsRun(states, steps) && Initial(states[0]) && i < |states|
    requires m < |states[i].redeemed| && n < |states[i].redeemed| && states[i].redeemed[m] == states[i].redeemed[n]
    ensures m == n
  {
    RunInv(states, steps, i);
  }

  // ----- redeemed by whom, and when ---------------------------------------------------------------

  /** A redemption goes through exactly for a challenge the book holds, by the key it was
      issued to, once, in time, with a solution. */
  lemma RedeemableIff(st: State, id: Uuid, pubkey: PublicKey, solved: bool, now: Seconds, w: Write)
    ensures Enabled(st, Redeem(id, pubkey, solved, now, w)) <==>
      && id in st.book.byId && st.book.byId[id].pubkey == pubkey && st.book.byId[id].redeemedAt.None?
      && now <= st.book.byId[id].expiresAt && solved
    ensures Enabled(st, Redeem(id, pubkey, solved, now, w)) ==>
      Do(st, Redeem(id, pubkey, solved, now, w)).redeemed == if w.Committed? then st.redeemed + [id] else st.redeemed
  {
  }

  /** Some step issued this very challenge, to this key, to expire ten minutes later. */
  ghost predicate WasIssued(steps: seq<Step>, c: Challenge) {
    exists j :: 0 <= j < |steps| && steps[j].Issue? && steps[j].id == c.id && steps[j].pubkey == c.pubkey
                && c.issuedAt == steps[j].now && c.expiresAt == steps[j].now + 600
  }

  /** Some step redeemed it, with a solution, by that key and in time. */
  ghost predicate WasRedeemed(steps: seq<Step>, id: Uuid) {
    exists k, c: Challenge :: 0 <= k < |steps| && WasIssued(steps[..k], c) && c.id == id
      && steps[k] == Redeem(id, c.pubkey, true, steps[k].now, Committed) && steps[k].now <= c.expiresAt
  }

  ghost predicate Issuances(steps: seq<Step>, st: State) {
    && (forall id <- st.book.byId :: st.book.byId[id].id == id && WasIssued(steps, st.book.byId[id]))
    && (forall id <- st.book.rows :: st.book.rows[id].id == id && WasIssued(steps, st.book.rows[id]))
  }

  lemma IssuedStays(steps: seq<Step>, more: seq<Step>, c: Challenge)
    requires WasIssued(steps, c) && steps <= more
    ensures WasIssued(more, c)
  {
    var j :| 0 <= j < |steps| && steps[j].Issue? && steps[j].id == c.id && steps[j].pubkey == c.pubkey
             && c.issuedAt == steps[j].now && c.expiresAt == steps[j].now + 600;
    assert more[j] == steps[j];
  }

  /** Redeeming marks a record and changes nothing else about it. */
  lemma SameIssue(steps: seq<Step>, c: Challenge, c': Challenge)
    requires WasIssued(steps, c) && c' == c.(redeemedAt := c'.redeemedAt)
    ensures WasIssued(steps, c')
  {
  }

  lemma StepKeepsIssuances(steps: seq<Step>, st: State, s: Step, steps': seq<Step>, st': State)
    requires Issuances(steps, st) && Enabled(st, s) && st' == Do(st, s) && steps' == steps + [s]
    ensures Issuances(steps', st')
  {
    assert steps'[|steps|] == s;
    forall id | id in st.book.byId ensures WasIssued(steps', st.book.byId[id]) {
      IssuedStays(steps, steps', st.book.byId[id]);
    }
    forall id | id in st.book.rows ensures WasIssued(steps', st.book.rows[id]) {
      IssuedStays(steps, steps', st.book.rows[id]);
    }
    if s.Redeem? {
      SameIssue(steps', st.book.byId[s.id], st.book.byId[s.id].(redeemedAt := Some(s.now)));
    } else if s.Issue? {
      assert WasIssued(steps', NewChallenge(s.id, s.pubkey, s.now));
    }
  }

  lemma {:induction false} RunIssuances(states: seq<State>, steps: seq<Step>, i: nat)
    requires IsRun(states, steps) && Initial(states[0]) && i < |states|
    ensures Issuances(steps[..i], states[i])
  {
    if i > 0 {
      RunIssuances(states, steps, i - 1);
      assert StepAt(states, steps, i - 1);
      assert steps[..i] == steps[..i - 1] + [steps[i - 1]];
      StepKeepsIssuances(steps[..i - 1], states[i - 1], steps[i - 1], steps[..i], states[i]);
    }
  }

  lemma RedemptionStays(steps: seq<Step>, more: seq<Step>, id: Uuid)
    requires WasRedeemed(steps, id) && steps <= more
    ensures WasRedeemed(more, id)
  {
    var k, c: Challenge :| 0 <= k < |steps| && WasIssued(steps[..k], c) && c.id == id
      && steps[k] == Redeem(id, c.pubkey, true, steps[k].now, Committed) && steps[k].now <= c.expiresAt;
    assert more[..k] == steps[..k] && more[k] == steps[k];
  }

  /** Every redemption of every run was made with a solution, by the key the challenge was
      issued to, no later than ten minutes after it was issued. */
  lemma {:induction false} RedeemedFairly(states: seq<State>, steps: seq<Step>, i: nat, id: Uuid)
    requires IsRun(states, steps) && Initial(states[0]) && i < |states| && id in states[i].redeemed
    ensures WasRedeemed(steps[..i], id)
    decreases i
  {
    assert i > 0;
    assert StepAt(states, steps, i - 1);
    if id in states[i - 1].redeemed {
      RedeemedFairly(states, steps, i - 1, id);
      RedemptionStays(steps[..i - 1], steps[..i], id);
    } else {
      RunIssuances(states, steps, i - 1);
      RedeemedNow(states[i - 1], steps, i - 1, id);
    }
  }

  lemma RedeemedNow(st: State, steps: seq<Step>, i: nat, id: Uuid)
    requires i < |steps| && Enabled(st, steps[i]) && Issuances(steps[..i], st)
    requires id !in st.redeemed && id in Do(st, steps[i]).redeemed
    ensures WasRedeemed(steps[..i + 1], id)
  {
    var s := steps[i];
    RedeemableIff(st, id, s.pubkey, s.solved, s.now, s.write);
    assert steps[..i + 1][..i] == steps[..i] && steps[..i + 1][i] == s;
    assert WasIssued(steps[..i], st.book.byId[id]);
  }

  // ----- a redemption is remembered ----------------------------------------------------------------

  /** A sweep forgets exactly the unredeemed challenges past their expiry and the redeemed ones
      an hour past it, and a restart loads exactly the rest. */
  lemma ForgetsExactly(b: Book, now: Seconds, id: Uuid)
    ensures
      var b' := CleanedUp(b, now, true);
      && (id in b'.byId <==> id in b.byId && now <= b.byId[id].expiresAt + LateBy(b.byId[id]))
      && (id in b'.rows <==> id in b.rows && now <= b.rows[id].expiresAt + LateBy(b.rows[id]))
      && (id in Loaded(b.rows, now) <==> id in b'.rows)
      && CleanedUp(b, now, false) == b'.(rows := b.rows)
  {
  }

  function LateBy(c: Challenge): Seconds { if c.redeemedAt.Some? then 3_600 else 0 }

  /** Memory and table both know that `id`, expiring then, is redeemed. */
  ghost predicate Remembers(st: State, id: Uuid, expiresAt: Seconds) {
    && id in st.issued
    && id in st.book.byId && st.book.byId[id].redeemedAt.Some? && st.book.byId[id].expiresAt == expiresAt
    && id in st.book.rows && st.book.rows[id].redeemedAt.Some? && st.book.rows[id].expiresAt == expiresAt
  }

  /** What a key has outstanding is its own, held, and not redeemed. */
  ghost predicate OutstandingLive(b: Book) {
    forall k <- b.outstanding :: Live(b, k, b.outstanding[k])
  }

  lemma StepKeepsOutstanding(st: State, s: Step)
    requires Inv(st) && OutstandingLive(st.book) && Enabled(st, s)
    ensures OutstandingLive(Do(st, s).book)
  {
  }

  lemma {:induction false} RunOutstanding(states: seq<State>, steps: seq<Step>, i: nat)
    requires IsRun(states, steps) && Initial(states[0]) && i < |states|
    ensures OutstandingLive(states[i].book)
  {
    if i > 0 {
      RunOutstanding(states, steps, i - 1);
      RunInv(states, steps, i - 1);
      assert StepAt(states, steps, i - 1);
      StepKeepsOutstanding(states[i - 1], steps[i - 1]);
    }
  }

  lemma StepRemembers(st: State, s: Step, id: Uuid, expiresAt: Seconds)
    requires Inv(st) && OutstandingLive(st.book) && Enabled(st, s) && Remembers(st, id, expiresAt)
    requires s.Cleanup? || s.Restart? ==> s.now <= expiresAt + 3_600
    ensures Remembers(Do(st, s), id, expiresAt)
  {
  }

  /** Until an hour past its expiry, through sweeps and restarts, a redeemed challenge is
      answered as redeemed. */
  lemma {:induction false} RedemptionIsRemembered(states: seq<State>, steps: seq<Step>, k: nat, i: nat)
    requires IsRun(states, steps) && Initial(states[0]) && k < i < |states|
    requires steps[k].Redeem? && steps[k].write.Committed?
    requires steps[k].id in states[k].book.byId
    requires forall m :: k < m < i && (steps[m].Cleanup? || steps[m].Restart?) ==>
      steps[m].now <= states[k].book.byId[steps[k].id].expiresAt + 3_600
    ensures Remembers(states[i], steps[k].id, states[k].book.byId[steps[k].id].expiresAt)
    ensures forall solved, now ::
      Refusal(states[i].book, steps[k].id, states[i].book.byId[steps[k].id].pubkey, solved, now)
      == Some(AlreadyRedeemed)
    decreases i
  {
    RunInv(states, steps, i - 1);
    RunOutstanding(states, steps, i - 1);
    assert StepAt(states, steps, i - 1);
    if k < i - 1 {
      RedemptionIsRemembered(states, steps, k, i - 1);
      StepRemembers(states[i - 1], steps[i - 1], steps[k].id, states[k].book.byId[steps[k].id].expiresAt);
    }
  }

  // ----- one outstanding challenge per key -------------------------------------------------------

  /** `outstanding` is exactly a one-to-one map onto the unredeemed challenges held. */
  ghost predicate Exact(b: Book) {
    && (forall k <- b.outstanding :: Live(b, k, b.outstanding[k]))
    && (forall id <- b.byId ::
          !b.byId[id].Redeemed() ==> b.byId[id].pubkey in b.outstanding && b.outstanding[b.byId[id].pubkey] == id)
  }

  lemma IssueKeepsExact(b: Book, c: Challenge, w: Write)
    requires Exact(b) && c.id !in b.byId && !c.Redeemed()
    ensures Exact(Issued(b, c, w))
  {
  }

  lemma RedeemKeepsExact(b: Book, id: Uuid, pubkey: PublicKey, solved: bool, now: Seconds, w: Write)
    requires Exact(b) && Refusal(b, id, pubkey, solved, now).None?
    ensures Exact(RedeemedBook(b, id, now, w))
  {
  }

  lemma CleanupKeepsExact(b: Book, now: Seconds, pruned: bool)
    requires Exact(b)
    ensures Exact(CleanedUp(b, now, pruned))
  {
    var b' := CleanedUp(b, now, pruned);
    assert forall k <- b'.outstanding :: Live(b, k, b.outstanding[k]);
  }

  lemma StepKeepsExact(st: State, s: Step)
    requires Inv(st) && Exact(st.book) && Enabled(st, s) && !s.Restart?
    ensures Exact(Do(st, s).book)
  {
    match s
    case Issue(id, pubkey, now, w) => IssueKeepsExact(st.book, NewChallenge(id, pubkey, now), w);
    case Redeem(id, pubkey, solved, now, w) => RedeemKeepsExact(st.book, id, pubkey, solved, now, w);
    case Cleanup(now, pruned) => CleanupKeepsExact(st.book, now, pruned);
  }

  /** No key has two unredeemed rows that have not expired. */
  ghost predicate OneLiveRowPerKey(rows: map<Uuid, Challenge>, now: Seconds) {
    forall i <- rows, j <- rows ::
      && !rows[i].Redeemed() && !rows[j].Redeemed() && !rows[i].Expired(now) && !rows[j].Expired(now)
      && rows[i].pubkey == rows[j].pubkey
      ==> i == j
  }

  /** A restart rebuilds the one-to-one map exactly when the table holds one live row per
      key; a challenge replaced in memory but still on disk breaks it. */
  lemma RestartIsExactIff(b: Book, rows: map<Uuid, Challenge>, now: Seconds)
    requires IsRestored(b, rows, now)
    ensures Exact(b) <==> OneLiveRowPerKey(rows, now)
  {
    if OneLiveRowPerKey(rows, now) {
      forall id | id in b.byId && !b.byId[id].Redeemed() ensures b.outstanding[b.byId[id].pubkey] == id {
        var k := b.byId[id].pubkey;
        assert Live(b, k, b.outstanding[k]);
      }
    }
    if Exact(b) {
      forall i, j | i in rows && j in rows && !rows[i].Redeemed() && !rows[j].Redeemed()
                    && !rows[i].Expired(now) && !rows[j].Expired(now) && rows[i].pubkey == rows[j].pubkey
        ensures i == j
      {
        assert i in b.byId && j in b.byId;
      }
    }
  }

  /** From an empty book, as long as every restart finds at most one live row per key, a
      key has one live challenge and `outstanding` names it. */
  lemma {:induction false} OutstandingIsExact(states: seq<State>, steps: seq<Step>, i: nat)
    requires IsRun(states, steps) && Initial(states[0]) && i < |states|
    requires forall j :: 0 <= j < i && steps[j].Restart? ==> OneLiveRowPerKey(states[j].book.rows, steps[j].now)
    ensures Exact(states[i].book)
  {
    if i > 0 {
      OutstandingIsExact(states, steps, i - 1);
      assert StepAt(states, steps, i - 1);
      RunInv(states, steps, i - 1);
      if steps[i - 1].Restart? {
        RestartIsExactIff(states[i].book, states[i - 1].book.rows, steps[i - 1].now);
      } else {
        StepKeepsExact(states[i - 1], steps[i - 1]);
      }
    }
  }

  /** A sweep changes no redemption: at any later moment the same challenges are redeemable. */
  lemma SweepChangesNoRedemption(
    b: Book, swept: Seconds, pruned: bool, id: Uuid, pubkey: PublicKey, solved: bool, now: Seconds)
    requires swept <= now
    ensures Refusal(CleanedUp(b, swept, pruned), id, pubkey, solved, now).None?
      <==> Refusal(b, id, pubkey, solved, now).None?
  {
  }

  /** The table after one key was issued challenge 1 and then challenge 2. */
  function BothRows(k: PublicKey, now: Seconds): map<Uuid, Challenge> {
    map[Uuid(1) := NewChallenge(Uuid(1), k, now), Uuid(2) := NewChallenge(Uuid(2), k, now)]
  }

  lemma IssuedTwice(k: PublicKey, now: Seconds) returns (states: seq<State>)
    ensures |states| == 3 && Initial(states[0])
    ensures Enabled(states[0], Issue(Uuid(1), k, now, Committed))
    ensures states[1] == Do(states[0], Issue(Uuid(1), k, now, Committed))
    ensures Enabled(states[1], Issue(Uuid(2), k, now, Committed))
    ensures states[2] == Do(states[1], Issue(Uuid(2), k, now, Committed))
    ensures Exact(states[2].book) && Uuid(1) !in states[2].book.byId
    ensures states[2].book.rows == BothRows(k, now) && states[2].issued == {Uuid(1), Uuid(2)}
    ensures states[2].redeemed == []
  {
    var s0 := State(Book(map[], map[], map[]), {}, []);
    var s1 := Do(s0, Issue(Uuid(1), k, now, Committed));
    var s2 := Do(s1, Issue(Uuid(2), k, now, Committed));
    assert s2.book.rows == BothRows(k, now);
    assert s2.book.byId == map[Uuid(2) := NewChallenge(Uuid(2), k, now)];
    states := [s0, s1, s2];
  }

  lemma BothRestored(k: PublicKey, now: Seconds) returns (b: Book)
    ensures IsRestored(b, BothRows(k, now), now) && b.byId == b.rows == BothRows(k, now) && !Exact(b)
  {
    var rows := BothRows(k, now);
    b := Book(rows, map[k := Uuid(2)], rows);
    assert Loaded(rows, now) == rows;
    assert Uuid(1) in b.byId;
  }

  lemma BothRedeemed(k: PublicKey, now: Seconds, s0: State) returns (states: seq<State>)
    requires s0.book.byId == BothRows(k, now) && s0.redeemed == []
    ensures |states| == 2
    ensures Enabled(s0, Redeem(Uuid(1), k, true, now, Committed))
    ensures states[0] == Do(s0, Redeem(Uuid(1), k, true, now, Committed))
    ensures Enabled(states[0], Redeem(Uuid(2), k, true, now, Committed))
    ensures states[1] == Do(states[0], Redeem(Uuid(2), k, true, now, Committed))
    ensures states[1].redeemed == [Uuid(1), Uuid(2)]
  {
    var s1 := Do(s0, Redeem(Uuid(1), k, true, now, Committed));
    assert s1.book.byId[Uuid(2)] == NewChallenge(Uuid(2), k, now);
    states := [s1, Do(s1, Redeem(Uuid(2), k, true, now, Committed))];
  }

  /** The failing family: replacing a challenge and restarting within its life brings the
      replaced one back, and both are then redeemed. */
  lemma ReplacedChallengeComesBack(k: PublicKey, now: Seconds)
    returns (states: seq<State>, steps: seq<Step>)
    ensures IsRun(states, steps) && Initial(states[0]) && |steps| == 5
    ensures steps[0] == Issue(Uuid(1), k, now, Committed) && steps[1] == Issue(Uuid(2), k, now, Committed)
    ensures steps[2].Restart?
    ensures Exact(states[2].book) && Uuid(1) !in states[2].book.byId
    ensures !Exact(states[3].book) && states[5].redeemed == [Uuid(1), Uuid(2)]
  {
    var issued := IssuedTwice(k, now);
    var restored := BothRestored(k, now);
    var s3 := issued[2].(book := restored);
    var redeemed := BothRedeemed(k, now, s3);
    states := issued + [s3] + redeemed;
    steps := [Issue(Uuid(1), k, now, Committed), Issue(Uuid(2), k, now, Committed), Restart(restored, now),
              Redeem(Uuid(1), k, true, now, Committed), Redeem(Uuid(2), k, true, now, Committed)];
    forall i | 0 <= i < |steps| ensures StepAt(states, steps, i) {
      assert i == 0 || i == 1 || i == 2 || i == 3 || i == 4;
    }
  }
}

/** The book as it runs: two maps beside a table, changed in place. */
module FaucetPow {
  import opened Basics
  import opened ChallengeProtocol

  /** A partly loaded book: the rows read so far, and one live challenge named per key. */
  ghost predicate Loading(
    rows: map<Uuid, Challenge>, todo: set<Uuid>, now: Seconds, byId: map<Uuid, Challenge>,
    outstanding: map<PublicKey, Uuid>)
  {
    && todo <= rows.Keys
    && byId == (map id <- rows | id !in todo && now <= rows[id].Horizon() :: rows[id])
    && (forall k <- outstanding :: Live(Book(byId, outstanding, rows), k, outstanding[k]))
    && (forall id <- byId :: !byId[id].Redeemed() ==> byId[id].pubkey in outstanding)
  }

  /** The loop of `restore`: one row after the other, in the table's order. */
  method LoadRows(rows: map<Uuid, Challenge>, now: Seconds)
    returns (byId: map<Uuid, Challenge>, outstanding: map<PublicKey, Uuid>)
    ensures IsRestored(Book(byId, outstanding, rows), rows, now)
  {
    byId, outstanding := map[], map[];
    var todo := rows.Keys;
    while todo != {}
      invariant Loading(rows, todo, now, byId, outstanding)
      decreases |todo|
    {
      var id :| id in todo;
      var c := rows[id];
      if c.Redeemed() {
        if now <= c.expiresAt + REDEEMED_RETENTION_SECONDS {
          byId := byId[id := c];
        }
      } else if !c.Expired(now) {
        outstanding := outstanding[c.pubkey := id];
        byId := byId[id := c];
      }
      todo := todo - {id};
    }
    assert byId == Loaded(rows, now);
  }

  class ChallengeBook {
    var byId: map<Uuid, Challenge>
    var outstanding: map<PublicKey, Uuid>
    var rows: map<Uuid, Challenge>

    ghost function State(): Book
      reads this
    {
      Book(byId, outstanding, rows)
    }

    /** `restore`. */
    constructor Restore(rows: map<Uuid, Challenge>, now: Seconds)
      ensures IsRestored(State(), rows, now)
    {
      this.rows := rows;
      new;
      byId, outstanding := LoadRows(rows, now);
    }

    method IssueChallenge(id: Uuid, pubkey: PublicKey, now: Seconds, w: Write)
      returns (r: Result<Challenge, RedemptionError>)
      modifies this
      ensures State() == Issued(old(State()), NewChallenge(id, pubkey, now), w)
      ensures r == if w.Committed? then Ok(NewChallenge(id, pubkey, now)) else Err(NotRecorded)
    {
      var c := NewChallenge(id, pubkey, now);
      rows := Saved(rows, c, w);
      if w.Failed? {
        return Err(NotRecorded);
      }
      if pubkey in outstanding {
        byId := byId - {outstanding[pubkey]};
      }
      outstanding := outstanding[pubkey := id];
      byId := byId[id := c];
      return Ok(c);
    }

    /** Everything `redeem` checks, spending nothing. */
    method Check(id: Uuid, pubkey: PublicKey, solved: bool, now: Seconds) returns (r: Result<(), RedemptionError>)
      ensures r == match Refusal(State(), id, pubkey, solved, now) case None => Ok(()) case Some(e) => Err(e)
      ensures r == Err(Unknown) <==> id !in byId
      ensures r == Err(WrongKey) <==> id in byId && byId[id].pubkey != pubkey
      ensures r == Err(AlreadyRedeemed) <==> id in byId && byId[id].pubkey == pubkey && byId[id].redeemedAt.Some?
      ensures r == Err(RedemptionError.Expired) <==>
        id in byId && byId[id].pubkey == pubkey && byId[id].redeemedAt.None? && now > byId[id].expiresAt
      ensures r.Ok? <==>
        id in byId && byId[id].pubkey == pubkey && byId[id].redeemedAt.None? && now <= byId[id].expiresAt && solved
    {
      if id !in byId {
        return Err(Unknown);
      }
      var refused := Validate(byId[id], pubkey, solved, now);
      r := if refused.Some? then Err(refused.value) else Ok(());
    }

    method RedeemChallenge(id: Uuid, pubkey: PublicKey, solved: bool, now: Seconds, w: Write)
      returns (r: Result<Challenge, RedemptionError>)
      modifies this
      ensures
        match Refusal(old(State()), id, pubkey, solved, now)
        case Some(e) => r == Err(e) && State() == old(State())
        case None =>
          && State() == RedeemedBook(old(State()), id, now, w)
          && (w.Failed? ==> r == Err(NotRecorded) && byId == old(byId) && outstanding == old(outstanding))
          && (w.Committed? ==> r.Ok? && r.value.Redeemed() && id in byId && byId[id] == r.value)
          && (w.Committed? ==> r.value.pubkey !in outstanding)
          && (w.Committed? ==> r.value.id in rows && rows[r.value.id] == r.value)
      ensures r.Ok? <==>
        && id in old(byId) && old(byId)[id].pubkey == pubkey && old(byId)[id].redeemedAt.None?
        && now <= old(byId)[id].expiresAt && solved && w.Committed?
      ensures r.Ok? ==> r.value == old(byId)[id].(redeemedAt := Some(now))
    {
      var checked := Check(id, pubkey, solved, now);
      if checked.Err? {
        return Err(checked.error);
      }
      var redeemed := byId[id].(redeemedAt := Some(now));
      rows := Saved(rows, redeemed, w);
      if w.Failed? {
        return Err(NotRecorded);
      }
      byId := byId[id := redeemed];
      outstanding := outstanding - {redeemed.pubkey};
      return Ok(redeemed);
    }

    method Sweep(now: Seconds, pruned: bool)
      modifies this
      ensures State() == CleanedUp(old(State()), now, pruned)
    {
      byId := map id <- byId | now <= byId[id].Horizon() :: byId[id];
      outstanding := map k <- outstanding | outstanding[k] in byId :: outstanding[k];
      if pruned {
        rows := map id <- rows | now <= rows[id].Horizon() :: rows[id];
      }
    }
  }
}
