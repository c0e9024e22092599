// `ReplayGuard` as the hub runs it: a map updated in place beside a store, each method
// proved against the guard the step system is built from.

module Auth {
  import opened Basics
  import opened ReplayProtocol

  datatype AuthError = GuardWarmingUp | ClockDrift | BadSignature | Replayed | QuotaExceeded | GuardUnavailable

  /** The `REPLAY_GUARD_TABLE` of the hub's store. */
  class HubStore {
    var rows: map<Signature, int>

    constructor (rows: map<Signature, int>)
      ensures this.rows == rows
    {
      this.rows := rows;
    }

    method RecordSeenSignature(s: Signature, seenAt: int, w: Write) returns (ok: bool)
      modifies this
      ensures ok == w.Committed?
      ensures rows == if w.Committed? || w.onDisk then old(rows)[s := seenAt] else old(rows)
    {
      if w.Committed? || w.onDisk {
        rows := rows[s := seenAt];
      }
      ok := w.Committed?;
    }

    method LoadRecentSignatures(cutoff: int) returns (recent: map<Signature, int>)
      ensures recent == map s <- rows | rows[s] > cutoff :: rows[s]
    {
      recent := map s <- rows | rows[s] > cutoff :: rows[s];
    }

    method PruneSeenSignatures(cutoff: int)
      modifies this
      ensures rows == map s <- old(rows) | old(rows)[s] > cutoff :: old(rows)[s]
    {
      rows := map s <- rows | rows[s] > cutoff :: rows[s];
    }
  }

  class ReplayGuard {
    var seen: map<Signature, Time>
    const store: HubStore
    const acceptingFrom: Option<Time>

    ghost function State(): Guard
      reads this, store
    {
      Guard(seen, store.rows, acceptingFrom)
    }

    /** `restore`: reads the previous process's signatures back, one row at a time. */
    constructor Restore(store: HubStore, now: Time)
      ensures this.store == store
      ensures State() == Restored(Guard(map[], store.rows, None), now)
    {
      this.store := store;
      acceptingFrom := None;
      seen := map[];
      new;
      var recent := store.LoadRecentSignatures(Seconds(ForgetBefore(now)));
      var todo := recent.Keys;
      while todo != {}
        invariant todo <= recent.Keys
        invariant seen.Keys == recent.Keys - todo
        invariant forall s <- seen :: seen[s] == recent[s] * SEC
        decreases |todo|
      {
        var s :| s in todo;
        seen := seen[s := recent[s] * SEC];
        todo := todo - {s};
      }
      assert seen.Keys == recent.Keys;
      assert seen == Restored(Guard(map[], store.rows, None), now).seen;
    }

    /** `booting`: remembers nothing, and waits out what it cannot remember. */
    constructor Boot(store: HubStore, startedAt: Time)
      ensures this.store == store
      ensures State() == Booting(Guard(map[], store.rows, None), startedAt)
    {
      this.store := store;
      seen := map[];
      acceptingFrom := Some(startedAt + MEMORY);
    }

    method RefusesRequest(now: Time) returns (refused: bool)
      ensures refused == RefusesAt(State(), now)
    {
      refused := acceptingFrom.Some? && now < acceptingFrom.value;
    }

    method Claim(s: Signature, now: Time, w: Write) returns (r: Result<(), AuthError>)
      modifies this`seen, store
      ensures State() == Claimed(old(State()), s, now, w)
      ensures r.Ok? <==> ClaimAccepts(old(State()), s, w)
      ensures r.Err? ==> r.error == if s in old(seen) then Replayed else GuardUnavailable
    {
      var known := s in seen;
      seen := seen[s := now];
      if known {
        return Err(Replayed);
      }
      var ok := store.RecordSeenSignature(s, Seconds(now), w);
      if !ok {
        return Err(GuardUnavailable);
      }
      return Ok(());
    }

    method Cleanup(now: Time, pruned: bool)
      modifies this`seen, store
      ensures State() == CleanedUp(old(State()), now, pruned)
    {
      var cutoff := ForgetBefore(now);
      seen := map s <- seen | seen[s] > cutoff :: seen[s];
      if pruned {
        store.PruneSeenSignatures(Seconds(cutoff));
      }
    }

    /** `verify_charging`, from the instant it reads the clock. A request is let through
        exactly when it is genuine, in drift, new, within quota and durably recorded; one
        refused before the claim, for quota included, leaves the guard as it was. */
    method VerifyCharging(s: Signature, genuine: bool, withinQuota: bool, now: Time, w: Write)
      returns (r: Result<(), AuthError>)
      modifies this`seen, store
      ensures r.Ok? <==>
        && !RefusesAt(old(State()), now) && InDrift(s, now) && genuine && s !in old(seen) && withinQuota && w.Committed?
      ensures r.Ok? ==> State() == Claimed(old(State()), s, now, w) && s in seen && s in store.rows
      ensures r.Err? && r.error != GuardUnavailable ==> State() == old(State())
      ensures r == Err(GuardUnavailable) ==> State() == Claimed(old(State()), s, now, w) && s in seen
    {
      var refused := RefusesRequest(now);
      if refused {
        return Err(GuardWarmingUp);
      }
      if !InDrift(s, now) {
        return Err(ClockDrift);
      }
      if !genuine {
        return Err(BadSignature);
      }
      if s in seen {
        return Err(Replayed);
      }
      if !withinQuota {
        return Err(QuotaExceeded);
      }
      r := Claim(s, now, w);
    }
  }

  /** An uninterrupted request is the step system's arrival followed by its claim. */
  lemma RequestIsTwoSteps(timing: Timing, st: State, s: Signature, n: int, w: Write)
    requires Request(n, s, st.now) !in st.inFlight
    requires !RefusesAt(st.guard, st.now) && InDrift(s, st.now) && s !in st.guard.seen
    ensures
      var r := Request(n, s, st.now);
      && Enabled(timing, st, Arrive(r)) && Enabled(timing, Do(st, Arrive(r)), Claim(r, w))
      && var st' := Do(Do(st, Arrive(r)), Claim(r, w));
         && st'.guard == Claimed(st.guard, s, st.now, w) && st'.inFlight == st.inFlight && st'.now == st.now
         && st'.accepted == if w.Committed? then st.accepted + [s] else st.accepted
  {
  }
}
