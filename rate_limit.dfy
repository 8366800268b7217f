/**
 * The in-memory limiter guarding the signup endpoint: per identifier, at most
 * MaxAttempts admitted attempts in a window of WindowMs milliseconds. The window
 * is fixed and restarts lazily: the first call after it has ended opens a new one.
 * The clock is a parameter (`now`, in milliseconds).
 */
module RateLimit {

  const MaxAttempts: nat := 5
  const WindowMs: nat := 15 * 60 * 1000

  /** Attempts seen in the current window and the instant the window ends. */
  datatype Entry = Entry(count: nat, resetTime: int)

  /** The limiter's `attempts` map, keyed by client identifier. */
  type Table = map<string, Entry>

  /** What one admission check answers and the table it leaves behind. */
  datatype Admission = Admission(limited: bool, table: Table)

  /** An entry's window has ended once the clock is strictly past its reset time. */
  predicate Expired(e: Entry, now: int) {
    now > e.resetTime
  }

  /** The bookkeeping invariant: every stored count lies between 1 and MaxAttempts. */
  predicate Bounded(t: Table) {
    forall k :: k in t ==> 1 <= t[k].count <= MaxAttempts
  }

  /** The entry that opens a new window at `now`, counting the current call. */
  function FreshEntry(now: int): Entry {
    Entry(1, now + WindowMs)
  }

  /** `isRateLimited` on a table. */
  function Admit(t: Table, id: string, now: int): Admission {
    if id !in t || Expired(t[id], now) then
      Admission(false, t[id := FreshEntry(now)])
    else if t[id].count >= MaxAttempts then
      Admission(true, t)
    else
      Admission(false, t[id := t[id].(count := t[id].count + 1)])
  }

  /** `getRemainingAttempts` on a table. */
  function Remaining(t: Table, id: string, now: int): (r: nat)
    ensures r <= MaxAttempts
    ensures id !in t || Expired(t[id], now) ==> r == MaxAttempts
  {
    if id !in t || Expired(t[id], now) then MaxAttempts
    else if t[id].count >= MaxAttempts then 0
    else MaxAttempts - t[id].count
  }

  /** `getResetTime` on a table: the stored reset time, expired or not, or 0 without an entry. */
  function ResetTime(t: Table, id: string): int {
    if id in t then t[id].resetTime else 0
  }

  /** The table `cleanup` leaves: exactly the entries whose window has not ended. */
  function Sweep(t: Table, now: int): (r: Table)
    ensures forall k :: k in r <==> k in t && !Expired(t[k], now)
    ensures forall k :: k in r ==> r[k] == t[k]
  {
    map k | k in t && !Expired(t[k], now) :: t[k]
  }

  /** The answers of successive checks for one identifier at the given instants. */
  function Run(t: Table, id: string, times: seq<int>): (answers: seq<bool>)
    ensures |answers| == |times|
    decreases |times|
  {
    if times == [] then []
    else
      var a := Admit(t, id, times[0]);
      [a.limited] + Run(a.table, id, times[1..])
  }

  /** Admission keeps every count within [1, MaxAttempts]. */
  lemma AdmitKeepsBounded(t: Table, id: string, now: int)
    requires Bounded(t)
    ensures Bounded(Admit(t, id, now).table)
  {
  }

  /** Admission touches the entry of the given identifier only. */
  lemma AdmitIsLocal(t: Table, id: string, now: int, other: string)
    requires other != id
    ensures var t' := Admit(t, id, now).table;
      (other in t' <==> other in t) && (other in t ==> t'[other] == t[other])
  {
  }

  /** After a check the identifier always has a live entry. */
  lemma AdmitLeavesLiveEntry(t: Table, id: string, now: int)
    ensures var t' := Admit(t, id, now).table;
      id in t' && !Expired(t'[id], now) && t'[id].count >= 1
  {
  }

  /** Expiry self-heals: whatever the old count, the first call after the window opens a fresh one. */
  lemma ExpiredEntryRestarts(t: Table, id: string, now: int)
    requires id in t && Expired(t[id], now)
    ensures Admit(t, id, now) == Admission(false, t[id := Entry(1, now + WindowMs)])
  {
  }

  /** On a bounded table a check refuses exactly when no attempt remains. */
  lemma LimitedIffNoneRemaining(t: Table, id: string, now: int)
    requires Bounded(t)
    ensures Admit(t, id, now).limited <==> Remaining(t, id, now) == 0
  {
  }

  /**
   * Each admitted call uses up exactly one remaining attempt; a refused call
   * changes nothing.
   */
  lemma RemainingAfterAdmit(t: Table, id: string, now: int)
    requires Bounded(t)
    ensures var a := Admit(t, id, now);
      if a.limited then a.table == t && Remaining(t, id, now) == 0
      else Remaining(a.table, id, now) == Remaining(t, id, now) - 1
  {
  }

  /**
   * Inside a live window with count c, the i-th further check is refused
   * exactly when c + i has reached MaxAttempts.
   */
  lemma {:induction false} LiveWindowRun(t: Table, id: string, times: seq<int>)
    requires id in t
    requires forall i :: 0 <= i < |times| ==> times[i] <= t[id].resetTime
    ensures var answers := Run(t, id, times);
      forall i :: 0 <= i < |times| ==> answers[i] == (t[id].count + i >= MaxAttempts)
    decreases |times|
  {
    if times != [] {
      var a := Admit(t, id, times[0]);
      var rest := times[1..];
      assert a.table[id].resetTime == t[id].resetTime;
      assert forall i :: 0 <= i < |rest| ==> rest[i] == times[i + 1];
      LiveWindowRun(a.table, id, rest);
      var answers := Run(t, id, times);
      assert answers == [a.limited] + Run(a.table, id, rest);
      assert !Expired(t[id], times[0]);
      assert a.limited == (t[id].count >= MaxAttempts);
      assert a.table[id].count == if a.limited then t[id].count else t[id].count + 1;
      forall i | 0 <= i < |times| ensures answers[i] == (t[id].count + i >= MaxAttempts) {
        if i > 0 {
          assert answers[i] == Run(a.table, id, rest)[i - 1];
        }
      }
    }
  }

  /**
   * Within one window opened by the first call, calls 1 to MaxAttempts are
   * admitted and every later call is refused.
   */
  lemma FreshWindowRun(t: Table, id: string, times: seq<int>)
    requires |times| >= 1
    requires id !in t || Expired(t[id], times[0])
    requires forall i :: 1 <= i < |times| ==> times[i] <= times[0] + WindowMs
    ensures var answers := Run(t, id, times);
      forall i :: 0 <= i < |times| ==> answers[i] == (i >= MaxAttempts)
  {
    var a := Admit(t, id, times[0]);
    var rest := times[1..];
    assert forall i :: 0 <= i < |rest| ==> rest[i] == times[i + 1];
    LiveWindowRun(a.table, id, rest);
    var answers := Run(t, id, times);
    assert answers == [false] + Run(a.table, id, rest);
    forall i | 0 <= i < |times| ensures answers[i] == (i >= MaxAttempts) {
      if i > 0 {
        assert answers[i] == Run(a.table, id, rest)[i - 1];
      }
    }
  }

  /** Concretely: six calls at one instant on an empty table give five admissions, then a refusal. */
  lemma SixthCallRefused(id: string, now: int)
    ensures Run(map[], id, [now, now, now, now, now, now]) == [false, false, false, false, false, true]
  {
    FreshWindowRun(map[], id, [now, now, now, now, now, now]);
  }

  /**
   * Sweeping is never needed for correctness: for any later instant, checking
   * against the swept table gives the same answer and the same remaining attempts,
   * and leaves the table that sweeping the unswept result would leave.
   */
  lemma SweepIsInvisible(t: Table, id: string, swept: int, now: int)
    requires swept <= now
    ensures Admit(Sweep(t, swept), id, now).limited == Admit(t, id, now).limited
    ensures Remaining(Sweep(t, swept), id, now) == Remaining(t, id, now)
    ensures Admit(Sweep(t, swept), id, now).table == Sweep(Admit(t, id, now).table, swept)
  {
    var lhs := Admit(Sweep(t, swept), id, now).table;
    var rhs := Sweep(Admit(t, id, now).table, swept);
    assert forall k :: k in lhs <==> k in rhs;
    assert forall k :: k in lhs ==> lhs[k] == rhs[k];
  }

  /** Sweeping keeps the bookkeeping invariant. */
  lemma SweepKeepsBounded(t: Table, now: int)
    requires Bounded(t)
    ensures Bounded(Sweep(t, now))
  {
  }

  /** The limiter object: the attempts map that every check updates in place. */
  class RateLimiter {
    var attempts: Table

    ghost predicate Valid()
      reads this
    {
      Bounded(attempts)
    }

    constructor ()
      ensures Valid() && attempts == map[]
    {
      attempts := map[];
    }

    /** Counts the current call and says whether the identifier is over its limit. */
    method IsRateLimited(identifier: string, now: int) returns (limited: bool)
      requires Valid()
      modifies this
      ensures Valid()
      ensures Admission(limited, attempts) == Admit(old(attempts), identifier, now)
      ensures identifier !in old(attempts) || Expired(old(attempts)[identifier], now) ==>
        !limited && attempts == old(attempts)[identifier := Entry(1, now + WindowMs)]
      ensures identifier in old(attempts) && !Expired(old(attempts)[identifier], now)
              && old(attempts)[identifier].count >= MaxAttempts ==>
        limited && attempts == old(attempts)
      ensures identifier in old(attempts) && !Expired(old(attempts)[identifier], now)
              && old(attempts)[identifier].count < MaxAttempts ==>
        var e := old(attempts)[identifier];
        !limited && attempts == old(attempts)[identifier := Entry(e.count + 1, e.resetTime)]
    {
      if identifier !in attempts || now > attempts[identifier].resetTime {
        attempts := attempts[identifier := Entry(1, now + WindowMs)];
        return false;
      }
      var entry := attempts[identifier];
      if entry.count >= MaxAttempts {
        return true;
      }
      attempts := attempts[identifier := entry.(count := entry.count + 1)];
      return false;
    }

    /** Attempts left in the identifier's current window. */
    method GetRemainingAttempts(identifier: string, now: int) returns (remaining: nat)
      ensures remaining == Remaining(attempts, identifier, now)
      ensures Valid() ==> remaining == if identifier in attempts && !Expired(attempts[identifier], now)
                                       then MaxAttempts - attempts[identifier].count else MaxAttempts
    {
      if identifier !in attempts {
        return MaxAttempts;
      }
      var entry := attempts[identifier];
      if now > entry.resetTime {
        return MaxAttempts;
      }
      remaining := if MaxAttempts - entry.count >= 0 then MaxAttempts - entry.count else 0;
    }

    /** The end of the identifier's window, or 0 when it has no entry. */
    method GetResetTime(identifier: string) returns (resetTime: int)
      ensures resetTime == ResetTime(attempts, identifier)
      ensures identifier in attempts ==> resetTime == attempts[identifier].resetTime
      ensures identifier !in attempts ==> resetTime == 0
    {
      resetTime := if identifier in attempts then attempts[identifier].resetTime else 0;
    }

    /** Deletes every entry whose window has ended, one key at a time. */
    method Cleanup(now: int)
      requires Valid()
      modifies this
      ensures Valid()
      ensures attempts == Sweep(old(attempts), now)
    {
      var pending := attempts.Keys;
      while pending != {}
        invariant pending <= old(attempts).Keys
        invariant forall k :: k in attempts <==>
          k in old(attempts) && (k in pending || !Expired(old(attempts)[k], now))
        invariant forall k :: k in attempts ==> attempts[k] == old(attempts)[k]
        decreases pending
      {
        var key :| key in pending;
        if now > attempts[key].resetTime {
          attempts := attempts - {key};
        }
        pending := pending - {key};
      }
      assert attempts.Keys == Sweep(old(attempts), now).Keys;
    }
  }
}
