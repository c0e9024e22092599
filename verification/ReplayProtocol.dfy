// The signed-envelope replay guard of hub/src/auth.rs: a memory set, its durable twin
// truncated to whole seconds, a sweep, and restarts with or without that twin.

module ReplayProtocol {
  import opened Basics

  type Time = int

  /** Ticks per second of the fine clock. */
  const SEC: int := 1_000_000_000

  /** `MAX_REQUEST_DRIFT_SECONDS` and `REPLAY_MEMORY_SECONDS`, in ticks. */
  const DRIFT: int := 120 * SEC
  const MEMORY: int := 2 * DRIFT

  /** A genuine signature covers one timestamp. */
  datatype Signature = Signature(bytes: int, timestamp: Time)

  /** `DateTime::timestamp`: whole seconds, rounded down. */
  function Seconds(t: Time): int { t / SEC }

  function ForgetBefore(now: Time): Time { now - (MEMORY + SEC) }

  /** The drift check of `verify_signature`. */
  predicate InDrift(s: Signature, now: Time) { now - DRIFT <= s.timestamp <= now + DRIFT }

  /** Past the drift check for good. */
  predicate Dead(s: Signature, now: Time) { s.timestamp + DRIFT < now }

  // ----- one guard and its store ------------------------------------------------------------

  /** What `seen` and the store hold: an instant in memory, a second on disk. */
  datatype Guard = Guard(seen: map<Signature, Time>, rows: map<Signature, int>, acceptingFrom: Option<Time>)

  predicate RefusesAt(g: Guard, now: Time) { g.acceptingFrom.Some? && now < g.acceptingFrom.value }

  /** `cleanup`: memory always, the table unless the store fails. */
  function CleanedUp(g: Guard, now: Time, pruned: bool): Guard {
    var cutoff := ForgetBefore(now);
    g.(seen := map s <- g.seen | g.seen[s] > cutoff :: g.seen[s],
       rows := if pruned then map s <- g.rows | g.rows[s] > Seconds(cutoff) :: g.rows[s] else g.rows)
  }

  /** `restore`. */
  function Restored(g: Guard, now: Time): Guard {
    Guard(map s <- g.rows | g.rows[s] > Seconds(ForgetBefore(now)) :: g.rows[s] * SEC, g.rows, None)
  }

  /** `booting`. */
  function Booting(g: Guard, now: Time): Guard { Guard(map[], g.rows, Some(now + MEMORY)) }

  /** How the durable write of a claim ends: committed and answered, or not answered,
      with the row on disk or without it. */
  datatype Write = Committed | Lost(onDisk: bool)

  /** `claim` for a request that read the clock at `now`: the insert overwrites, and only
      the first insert goes on to the durable write. */
  function Claimed(g: Guard, s: Signature, now: Time, w: Write): Guard {
    var first := s !in g.seen;
    g.(seen := g.seen[s := now],
       rows := if first && (w.Committed? || w.onDisk) then g.rows[s := Seconds(now)] else g.rows)
  }

  predicate ClaimAccepts(g: Guard, s: Signature, w: Write) { s !in g.seen && w.Committed? }

  // ----- the step system ----------------------------------------------------------------------

  /** What a deployment keeps to: a request reaches its claim within `stall` of its checks, and
      a guard boots without its table at least `margin` after the last acceptance. */
  datatype Timing = Timing(stall: nat, margin: int)

  /** A request between its checks and its claim. `n` tells two identical ones apart. */
  datatype Request = Request(n: int, signature: Signature, at: Time)

  datatype State = State(
    guard: Guard, inFlight: set<Request>, now: Time, accepted: seq<Signature>, lastAccepted: Option<Time>)

  datatype Step =
    | Tick(now: Time)
    | Arrive(request: Request)
    | Claim(request: Request, write: Write)
    | Cleanup(pruned: bool)
    | Restart
    | RestartBlind

  predicate Enabled(timing: Timing, st: State, step: Step) {
    match step
    case Tick(now) => st.now <= now && forall r <- st.inFlight :: now <= r.at + timing.stall
    case Arrive(r) =>
      && r !in st.inFlight && r.at == st.now && !RefusesAt(st.guard, st.now)
      && InDrift(r.signature, st.now) && r.signature !in st.guard.seen
    case Claim(r, _) => r in st.inFlight
    case Cleanup(_) => true
    case Restart => true
    case RestartBlind => st.lastAccepted.Some? ==> st.lastAccepted.value + timing.margin <= st.now
  }

  function Later(last: Option<Time>, t: Time): Option<Time> {
    if last.Some? && last.value >= t then last else Some(t)
  }

  function Do(st: State, step: Step): State {
    match step
    case Tick(now) => st.(now := now)
    case Arrive(r) => st.(inFlight := st.inFlight + {r})
    case Claim(r, w) =>
      var st' := st.(guard := Claimed(st.guard, r.signature, r.at, w), inFlight := st.inFlight - {r});
      if ClaimAccepts(st.guard, r.signature, w)
      then st'.(accepted := st.accepted + [r.signature], lastAccepted := Later(st.lastAccepted, r.at))
      else st'
    case Cleanup(pruned) => st.(guard := CleanedUp(st.guard, st.now, pruned))
    case Restart => st.(guard := Restored(st.guard, st.now), inFlight := {})
    case RestartBlind => st.(guard := Booting(st.guard, st.now), inFlight := {})
  }

  predicate Initial(st: State) {
    st.guard == Guard(map[], map[], None) && st.inFlight == {} && st.accepted == [] && st.lastAccepted.None?
  }

  ghost predicate IsRun(timing: Timing, states: seq<State>, steps: seq<Step>) {
    && |states| == |steps| + 1
    && forall i :: 0 <= i < |steps| ==> StepAt(timing, states, steps, i)
  }

  ghost predicate StepAt(timing: Timing, states: seq<State>, steps: seq<Step>, i: nat)
    requires |states| == |steps| + 1 && i < |steps|
  {
    Enabled(timing, states[i], steps[i]) && states[i + 1] == Do(states[i], steps[i])
  }

  /** Two stalls fit into the memory of a signature, and a blind boot is strictly later than
      what was accepted. */
  predicate Sound(timing: Timing) { 2 * timing.stall < MEMORY + SEC && timing.margin >= 1 }

  // ----- the invariant ------------------------------------------------------------------------

  /** An entry is never so old that its envelope outlives it by more than a drift and the
      second that truncation may have taken. */
  predicate EntryCovers(s: Signature, at: Time) { at + DRIFT + SEC > s.timestamp }

  predicate RowCovers(s: Signature, second: int) { (second + 1) * SEC + DRIFT > s.timestamp }

  /** Nothing accepted can pass the checks again: it is remembered, dead, or will be dead
      before the guard starts accepting. */
  predicate Remembered(g: Guard, s: Signature, now: Time) {
    || s in g.seen
    || Dead(s, now)
    || (g.acceptingFrom.Some? && Dead(s, g.acceptingFrom.value))
  }

  /** An accepted envelope that is on its way again is in memory, too young to be swept
      before that request is done. */
  predicate HeldFor(timing: Timing, g: Guard, r: Request) {
    r.signature in g.seen && g.seen[r.signature] >= r.at - timing.stall
  }

  ghost predicate Inv(timing: Timing, st: State) {
    && (forall s <- st.guard.seen :: EntryCovers(s, st.guard.seen[s]))
    && (forall s <- st.guard.rows :: RowCovers(s, st.guard.rows[s]))
    && (forall s <- st.accepted :: Remembered(st.guard, s, st.now) && (s in st.guard.rows || Dead(s, st.now)))
    && (forall s <- st.accepted :: st.lastAccepted.Some? && s.timestamp <= st.lastAccepted.value + DRIFT)
    && (forall r <- st.inFlight :: InDrift(r.signature, r.at) && r.at <= st.now <= r.at + timing.stall)
    && (forall r <- st.inFlight :: r.signature in st.accepted ==> HeldFor(timing, st.guard, r))
    && (forall i, j :: 0 <= i < j < |st.accepted| ==> st.accepted[i] != st.accepted[j])
  }

  /** What the sweep drops from disk, or a restart skips, is dead, although its second was
      rounded down. */
  lemma DroppedRowIsDead(s: Signature, second: int, now: Time)
    requires RowCovers(s, second) && second <= Seconds(ForgetBefore(now))
    ensures Dead(s, now)
  {
  }

  /** A sweep forgets nothing that could matter: at any later moment the same envelopes in
      drift are known. */
  lemma SweepForgetsOnlyTheDead(g: Guard, swept: Time, pruned: bool, s: Signature, now: Time)
    requires swept <= now && InDrift(s, now) && (s in g.seen ==> EntryCovers(s, g.seen[s]))
    ensures s in CleanedUp(g, swept, pruned).seen <==> s in g.seen
  {
  }

  /** A sweep forgets exactly what is 241 seconds old, the table by whole seconds. */
  lemma SweepForgetsExactly(g: Guard, now: Time, s: Signature)
    ensures s in CleanedUp(g, now, true).seen <==> s in g.seen && now - g.seen[s] < 241 * SEC
    ensures s in CleanedUp(g, now, true).rows <==> s in g.rows && now / SEC - g.rows[s] < 241
    ensures CleanedUp(g, now, false) == CleanedUp(g, now, true).(rows := g.rows)
  {
  }

  /** A restart knows exactly the rows younger than that and nothing else; a blind one knows
      nothing and refuses for four minutes. */
  lemma RestartKnowsTheTable(st: State, s: Signature, t: Time)
    ensures
      var st' := Do(st, Restart);
      && st'.inFlight == {} && st'.guard.rows == st.guard.rows && !RefusesAt(st'.guard, t)
      && (s in st'.guard.seen <==> s in st.guard.rows && st.now / SEC - st.guard.rows[s] < 241)
      && (s in st'.guard.seen ==> st'.guard.seen[s] == st.guard.rows[s] * SEC)
    ensures
      var st' := Do(st, RestartBlind);
      && st'.inFlight == {} && st'.guard.rows == st.guard.rows && st'.guard.seen == map[]
      && (RefusesAt(st'.guard, t) <==> t < st.now + 240 * SEC)
  {
  }

  lemma TickKeepsInv(timing: Timing, st: State, now: Time)
    requires Sound(timing) && Inv(timing, st) && Enabled(timing, st, Tick(now))
    ensures Inv(timing, st.(now := now))
  {
  }

  lemma ArriveKeepsInv(timing: Timing, st: State, r: Request)
    requires Sound(timing) && Inv(timing, st) && Enabled(timing, st, Arrive(r))
    ensures Inv(timing, st.(inFlight := st.inFlight + {r}))
  {
  }

  lemma ClaimKeepsInv(timing: Timing, st: State, r: Request, w: Write, st': State)
    requires Sound(timing) && Inv(timing, st) && r in st.inFlight && st' == Do(st, Claim(r, w))
    ensures Inv(timing, st')
  {
    if ClaimAccepts(st.guard, r.signature, w) {
      assert r.signature !in st.accepted;
    }
  }

  lemma SweepKeepsInv(timing: Timing, st: State, pruned: bool)
    requires Sound(timing) && Inv(timing, st)
    ensures Inv(timing, st.(guard := CleanedUp(st.guard, st.now, pruned)))
  {
  }

  lemma RestartKeepsInv(timing: Timing, st: State)
    requires Sound(timing) && Inv(timing, st)
    ensures Inv(timing, st.(guard := Restored(st.guard, st.now), inFlight := {}))
  {
  }

  lemma RestartBlindKeepsInv(timing: Timing, st: State)
    requires Sound(timing) && Inv(timing, st) && Enabled(timing, st, RestartBlind)
    ensures Inv(timing, st.(guard := Booting(st.guard, st.now), inFlight := {}))
  {
  }

  lemma StepKeepsInv(timing: Timing, st: State, step: Step)
    requires Sound(timing) && Inv(timing, st) && Enabled(timing, st, step)
    ensures Inv(timing, Do(st, step))
  {
    match step
    case Tick(now) => TickKeepsInv(timing, st, now);
    case Arrive(r) => ArriveKeepsInv(timing, st, r);
    case Claim(r, w) => ClaimKeepsInv(timing, st, r, w, Do(st, step));
    case Cleanup(pruned) => SweepKeepsInv(timing, st, pruned);
    case Restart => RestartKeepsInv(timing, st);
    case RestartBlind => RestartBlindKeepsInv(timing, st);
  }

  lemma {:induction false} RunInv(timing: Timing, states: seq<State>, steps: seq<Step>, i: nat)
    requires Sound(timing) && IsRun(timing, states, steps) && Initial(states[0]) && i < |states|
    ensures Inv(timing, states[i])
  {
    if i > 0 {
      RunInv(timing, states, steps, i - 1);
      assert StepAt(timing, states, steps, i - 1);
      StepKeepsInv(timing, states[i - 1], steps[i - 1]);
    }
  }

  /** No envelope is ever accepted twice, however requests, races, sweeps, failed writes
      and restarts of either kind are mixed. */
  lemma NeverAcceptedTwice(timing: Timing, states: seq<State>, steps: seq<Step>, i: nat, m: nat, n: nat)
    requires Sound(timing) && IsRun(timing, states, steps) && Initial(states[0]) && i < |states|
    requires m < |states[i].accepted| && n < |states[i].accepted| && states[i].accepted[m] == states[i].accepted[n]
    ensures m == n
  {
    RunInv(timing, states, steps, i);
  }

  // ----- and every fresh envelope is accepted --------------------------------------------------------

  /** A claim of `s` that no entry answers adds one row, of its own second, if the write
      reaches the disk; a repeat writes nothing. */
  lemma FirstClaimWrites(g: Guard, s: Signature, now: Time, w: Write)
    ensures s in g.seen ==> Claimed(g, s, now, w).rows == g.rows
    ensures s !in g.seen && w == Lost(false) ==> Claimed(g, s, now, w).rows == g.rows
    ensures s !in g.seen && w != Lost(false) ==> Claimed(g, s, now, w).rows == g.rows[s := now / SEC]
  {
  }

  /** A request with this signature has reached its claim. */
  ghost predicate ClaimedBy(steps: seq<Step>, s: Signature) {
    exists j :: 0 <= j < |steps| && steps[j].Claim? && steps[j].request.signature == s
  }

  lemma {:induction false} KnownWasClaimed(
    timing: Timing, states: seq<State>, steps: seq<Step>, i: nat, s: Signature)
    requires IsRun(timing, states, steps) && Initial(states[0]) && i < |states|
    requires s in states[i].guard.seen || s in states[i].guard.rows
    ensures ClaimedBy(steps[..i], s)
    decreases i
  {
    assert i > 0;
    assert StepAt(timing, states, steps, i - 1);
    assert steps[..i] == steps[..i - 1] + [steps[i - 1]];
    if s in states[i - 1].guard.seen || s in states[i - 1].guard.rows {
      KnownWasClaimed(timing, states, steps, i - 1, s);
      var j :| 0 <= j < i - 1 && steps[..i - 1][j].Claim? && steps[..i - 1][j].request.signature == s;
      assert steps[..i][j] == steps[..i - 1][j];
    } else {
      assert steps[..i][i - 1].Claim?;
    }
  }

  /** The other half of the promise: outside the window after a blind boot, an envelope in
      drift that never reached a claim is let in, and accepted once its write commits. */
  lemma FreshIsAccepted(timing: Timing, states: seq<State>, steps: seq<Step>, i: nat, r: Request)
    requires IsRun(timing, states, steps) && Initial(states[0]) && i < |states|
    requires !ClaimedBy(steps[..i], r.signature) && r !in states[i].inFlight
    requires r.at == states[i].now && InDrift(r.signature, r.at) && !RefusesAt(states[i].guard, r.at)
    ensures Enabled(timing, states[i], Arrive(r))
    ensures
      var st := Do(states[i], Arrive(r));
      && Enabled(timing, st, Claim(r, Committed))
      && Do(st, Claim(r, Committed)).accepted == states[i].accepted + [r.signature]
  {
    if r.signature in states[i].guard.seen {
      KnownWasClaimed(timing, states, steps, i, r.signature);
    }
  }

  // ----- the timing is exact -------------------------------------------------------------------------

  ghost predicate AcceptedTwice(timing: Timing, states: seq<State>, steps: seq<Step>, s: Signature) {
    IsRun(timing, states, steps) && Initial(states[0]) && states[|states| - 1].accepted == [s, s]
  }

  ghost predicate CanBeAcceptedTwice(timing: Timing) {
    exists states, steps, s :: AcceptedTwice(timing, states, steps, s)
  }

  function Fresh(): State { State(Guard(map[], map[], None), {}, 0, [], None) }

  /** Stamped a drift ahead: in drift from the start to the end of the memory window. */
  const AHEAD := Signature(0, DRIFT)

  /** Two requests in flight at once stall one after the other: the second arrives before the
      first claims, and claims after the first one's entry was swept. */
  lemma StalledRequestAcceptedTwice(timing: Timing) returns (states: seq<State>, steps: seq<Step>)
    requires 2 * timing.stall >= MEMORY + SEC
    ensures AcceptedTwice(timing, states, steps, AHEAD)
  {
    var late := if timing.stall < MEMORY then timing.stall else MEMORY;
    var r1, r2 := Request(1, AHEAD, 0), Request(2, AHEAD, late);
    var s1 := Do(Fresh(), Arrive(r1));
    var s2 := Do(s1, Tick(late));
    var s3 := Do(s2, Arrive(r2));
    var s4 := Do(s3, Claim(r1, Committed));
    var s5 := Do(s4, Tick(MEMORY + SEC));
    var s6 := Do(s5, Cleanup(true));
    var s7 := Do(s6, Claim(r2, Committed));
    assert s3.inFlight == {r1, r2} && s4.inFlight == {r2};
    assert AHEAD !in s6.guard.seen;
    states := [Fresh(), s1, s2, s3, s4, s5, s6, s7];
    steps := [Arrive(r1), Tick(late), Arrive(r2), Claim(r1, Committed), Tick(MEMORY + SEC), Cleanup(true),
              Claim(r2, Committed)];
  }

  /** A guard that boots without its table at the instant of an acceptance accepts the same
      envelope again when its window ends. */
  lemma EarlyBootAcceptsTwice(timing: Timing) returns (states: seq<State>, steps: seq<Step>)
    requires timing.margin <= 0
    ensures AcceptedTwice(timing, states, steps, AHEAD)
  {
    var r1, r2 := Request(1, AHEAD, 0), Request(2, AHEAD, MEMORY);
    var s1 := Do(Fresh(), Arrive(r1));
    var s2 := Do(s1, Claim(r1, Committed));
    var s3 := Do(s2, RestartBlind);
    var s4 := Do(s3, Tick(MEMORY));
    var s5 := Do(s4, Arrive(r2));
    var s6 := Do(s5, Claim(r2, Committed));
    states := [Fresh(), s1, s2, s3, s4, s5, s6];
    steps := [Arrive(r1), Claim(r1, Committed), RestartBlind, Tick(MEMORY), Arrive(r2), Claim(r2, Committed)];
  }

  /** Some run accepts an envelope twice exactly when two stalls outlast the memory of a
      signature or a blind boot may coincide with an acceptance. */
  lemma AcceptedTwiceIff(timing: Timing)
    ensures CanBeAcceptedTwice(timing) <==> !Sound(timing)
  {
    if Sound(timing) {
      forall states, steps, s ensures !AcceptedTwice(timing, states, steps, s) {
        if AcceptedTwice(timing, states, steps, s) {
          NeverAcceptedTwice(timing, states, steps, |states| - 1, 0, 1);
        }
      }
    } else if timing.margin <= 0 {
      var states, steps := EarlyBootAcceptsTwice(timing);
    } else {
      var states, steps := StalledRequestAcceptedTwice(timing);
    }
  }

  /** The second past the memory window is needed: without it a restart can forget a row
      whose envelope still passes the drift check. */
  lemma ExtraSecondNeeded(second: int)
    ensures exists s, at, now ::
      && InDrift(s, at) && Seconds(at) == second && InDrift(s, now) && at < now
      && Seconds(at) <= Seconds(now - MEMORY)
      && Seconds(at) > Seconds(ForgetBefore(now))
  {
    var at := second * SEC + SEC - 1;
    var s := Signature(0, at + DRIFT);
    var now := at + MEMORY;
    assert Seconds(at) == second && Seconds(now - MEMORY) == second;
    assert Seconds(ForgetBefore(now)) == second - 1;
    assert InDrift(s, at) && InDrift(s, now);
  }

  /** Half the memory is not enough: an envelope stamped ahead outlives it by a drift. */
  lemma OneDriftIsNotEnough(at: Time)
    ensures exists s, now :: InDrift(s, at) && InDrift(s, now) && at < now - DRIFT - SEC
  {
    var s := Signature(0, at + DRIFT);
    assert InDrift(s, at) && InDrift(s, at + MEMORY);
  }
}
