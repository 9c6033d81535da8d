/** The sliding-window attempt limiter of `src/utils/rateLimit.ts`: a map
    from key to `{attempts, windowStart}` that every `check` first purges of
    expired entries. `Date.now()` is a parameter; `cleanOldEntries` and
    `check` each read the clock, so `check` takes both readings. */
module RateLimit {
  import opened Common

  datatype Entry = Entry(attempts: int, windowStart: int)

  /** `{ allowed, msBeforeNext? }`. */
  datatype CheckResult = CheckResult(allowed: bool, msBeforeNext: Option<int>)

  /** An entry `cleanOldEntries` keeps at time `now`. */
  predicate Live(e: Entry, windowMs: int, now: int)
  {
    now - e.windowStart < windowMs
  }

  /** The cache after `cleanOldEntries` at time `now`. */
  function CleanOld(cache: map<string, Entry>, windowMs: int, now: int): (r: map<string, Entry>)
    ensures forall k :: k in r <==> k in cache && Live(cache[k], windowMs, now)
    ensures forall k :: k in r ==> r[k] == cache[k]
  {
    map k | k in cache && Live(cache[k], windowMs, now) :: cache[k]
  }

  /** The branch `check` takes for the key's entry after cleaning. */
  datatype Decision = Start | Restart | Deny(msBeforeNext: int) | Count

  function Decide(entry: Option<Entry>, maxAttempts: int, windowMs: int, now: int): Decision
  {
    if entry.None? then Start
    else if now - entry.value.windowStart >= windowMs then Restart
    else if entry.value.attempts >= maxAttempts then Deny(windowMs - (now - entry.value.windowStart))
    else Count
  }

  /** `check(key)` as a function of the cache before the call: the result
      and the cache after it. */
  function CheckSpec(cache: map<string, Entry>, maxAttempts: int, windowMs: int,
                     key: string, cleanNow: int, now: int): (map<string, Entry>, CheckResult)
  {
    var cleaned := CleanOld(cache, windowMs, cleanNow);
    var entry := if key in cleaned then Some(cleaned[key]) else None;
    match Decide(entry, maxAttempts, windowMs, now)
    case Start => (cleaned[key := Entry(1, now)], CheckResult(true, None))
    case Restart => (cleaned[key := Entry(1, now)], CheckResult(true, None))
    case Deny(ms) => (cleaned, CheckResult(false, Some(ms)))
    case Count => (cleaned[key := entry.value.(attempts := entry.value.attempts + 1)], CheckResult(true, None))
  }

  /** The limiter's invariant: every entry has counted at least one attempt
      and, for a positive limit, no more than the limit. */
  predicate Bounded(cache: map<string, Entry>, maxAttempts: int)
  {
    forall k :: k in cache ==> 1 <= cache[k].attempts && (maxAttempts >= 1 ==> cache[k].attempts <= maxAttempts)
  }

  /** A key with no live entry is admitted and opens a window at `now`. */
  lemma FreshKeyAllowed(cache: map<string, Entry>, maxAttempts: int, windowMs: int, key: string, cleanNow: int, now: int)
    requires key !in cache || !Live(cache[key], windowMs, cleanNow)
    ensures var (after, r) := CheckSpec(cache, maxAttempts, windowMs, key, cleanNow, now);
      r == CheckResult(true, None) && key in after && after[key] == Entry(1, now)
  {
  }

  /** With one clock reading for cleaning and checking, an entry that
      survives cleaning is still inside its window: the reset branch is
      never taken. */
  lemma NoResetWithOneClock(cache: map<string, Entry>, maxAttempts: int, windowMs: int, key: string, now: int)
    ensures var cleaned := CleanOld(cache, windowMs, now);
      Decide(if key in cleaned then Some(cleaned[key]) else None, maxAttempts, windowMs, now) != Restart
  {
  }

  /** An attempt is refused exactly when the key's entry survives cleaning,
      its window is still open at `now` and it has reached the limit. A
      refusal reports the time left in the window, which is positive and,
      when the window did not start after `now`, at most the window length;
      the cache is only cleaned. */
  lemma DenyReportsRemainingWindow(cache: map<string, Entry>, maxAttempts: int, windowMs: int, key: string, cleanNow: int, now: int)
    ensures var (after, r) := CheckSpec(cache, maxAttempts, windowMs, key, cleanNow, now);
      !r.allowed <==>
        && key in cache
        && Live(cache[key], windowMs, cleanNow)
        && now - cache[key].windowStart < windowMs
        && cache[key].attempts >= maxAttempts
    ensures var (after, r) := CheckSpec(cache, maxAttempts, windowMs, key, cleanNow, now);
      !r.allowed ==>
        && key in cache
        && cache[key].attempts >= maxAttempts
        && r.msBeforeNext == Some(windowMs - (now - cache[key].windowStart))
        && 0 < r.msBeforeNext.value
        && (cache[key].windowStart <= now ==> r.msBeforeNext.value <= windowMs)
        && after == CleanOld(cache, windowMs, cleanNow)
  {
  }

  /** Below the limit an attempt whose entry is inside the window at both
      clock readings is admitted and counted. */
  lemma CountedAttempt(cache: map<string, Entry>, maxAttempts: int, windowMs: int, key: string, cleanNow: int, now: int)
    requires key in cache && Live(cache[key], windowMs, cleanNow) && Live(cache[key], windowMs, now)
    requires cache[key].attempts < maxAttempts
    ensures var (after, r) := CheckSpec(cache, maxAttempts, windowMs, key, cleanNow, now);
      r.allowed && after[key] == cache[key].(attempts := cache[key].attempts + 1)
  {
  }

  /** A check on one key leaves every other key's live entry as it was and
      drops only expired ones. */
  lemma OtherKeysUntouched(cache: map<string, Entry>, maxAttempts: int, windowMs: int, key: string, cleanNow: int, now: int, other: string)
    requires other != key
    ensures var (after, r) := CheckSpec(cache, maxAttempts, windowMs, key, cleanNow, now);
      && (other in after <==> other in cache && Live(cache[other], windowMs, cleanNow))
      && (other in after ==> after[other] == cache[other])
  {
  }

  /** Every check keeps the invariant. */
  lemma CheckKeepsBounded(cache: map<string, Entry>, maxAttempts: int, windowMs: int, key: string, cleanNow: int, now: int)
    requires Bounded(cache, maxAttempts)
    ensures Bounded(CheckSpec(cache, maxAttempts, windowMs, key, cleanNow, now).0, maxAttempts)
  {
  }

  /** The two clock readings of one `check`: the one `cleanOldEntries`
      takes, and the one `check` takes after it. */
  datatype Reading = Reading(cleanNow: int, now: int)

  /** A reading pair whose cleaning reading is no later than its check
      reading, in which the entry is still inside its window. */
  predicate LiveAt(e: Entry, windowMs: int, t: Reading)
  {
    t.cleanNow <= t.now && Live(e, windowMs, t.now)
  }

  /** A run of checks on one key, each with its two clock readings: how
      many were admitted, and the final cache. */
  function Run(cache: map<string, Entry>, maxAttempts: int, windowMs: int, key: string, times: seq<Reading>): (map<string, Entry>, nat)
    decreases |times|
  {
    if times == [] then (cache, 0)
    else
      var (next, r) := CheckSpec(cache, maxAttempts, windowMs, key, times[0].cleanNow, times[0].now);
      var (final, n) := Run(next, maxAttempts, windowMs, key, times[1..]);
      (final, (if r.allowed then 1 else 0) + n)
  }

  function Min(a: int, b: int): int { if a <= b then a else b }

  /** Inside an open window that has counted `attempts`, a run admits
      exactly as many checks as the limit still has room for. */
  lemma {:induction false} RunInsideWindow(cache: map<string, Entry>, maxAttempts: int, windowMs: int, key: string, times: seq<Reading>)
    requires key in cache && 1 <= cache[key].attempts <= maxAttempts
    requires forall i :: 0 <= i < |times| ==> LiveAt(cache[key], windowMs, times[i])
    ensures Run(cache, maxAttempts, windowMs, key, times).1 == Min(|times|, maxAttempts - cache[key].attempts)
    decreases |times|
  {
    if times != [] {
      var (next, r) := CheckSpec(cache, maxAttempts, windowMs, key, times[0].cleanNow, times[0].now);
      assert next[key].windowStart == cache[key].windowStart;
      assert forall i :: 0 <= i < |times[1..]| ==> times[1..][i] == times[i + 1];
      RunInsideWindow(next, maxAttempts, windowMs, key, times[1..]);
    }
  }

  /** At most `maxAttempts` checks per key are admitted in one window: a
      run that opens a window at its first check and whose every check reads
      the clock inside it admits `min(|times|, maxAttempts)` checks. */
  lemma {:induction false} AtMostMaxPerWindow(cache: map<string, Entry>, maxAttempts: int, windowMs: int, key: string, times: seq<Reading>)
    requires maxAttempts >= 1
    requires |times| >= 1
    requires key !in cache || !Live(cache[key], windowMs, times[0].cleanNow)
    requires forall i :: 0 <= i < |times| ==> times[i].cleanNow <= times[i].now && times[i].now - times[0].now < windowMs
    ensures Run(cache, maxAttempts, windowMs, key, times).1 == Min(|times|, maxAttempts)
    ensures Run(cache, maxAttempts, windowMs, key, times).1 <= maxAttempts
  {
    var (next, r) := CheckSpec(cache, maxAttempts, windowMs, key, times[0].cleanNow, times[0].now);
    assert r.allowed && next[key] == Entry(1, times[0].now);
    assert forall i :: 0 <= i < |times[1..]| ==> times[1..][i] == times[i + 1];
    RunInsideWindow(next, maxAttempts, windowMs, key, times[1..]);
  }

  class RateLimiter {
    var cache: map<string, Entry>
    const maxAttempts: int
    const windowMs: int

    ghost predicate Valid()
      reads this
    {
      Bounded(cache, maxAttempts)
    }

    /** `new RateLimiter(config)`: an empty cache. */
    constructor (maxAttempts: int, windowMs: int)
      ensures Valid()
      ensures this.maxAttempts == maxAttempts && this.windowMs == windowMs
      ensures cache == map[]
    {
      this.maxAttempts := maxAttempts;
      this.windowMs := windowMs;
      cache := map[];
    }

    /** `cleanOldEntries`: deletes, while iterating, every entry whose window
        has run out at `now`. */
    method CleanOldEntries(now: int)
      requires Valid()
      modifies this
      ensures Valid()
      ensures cache == CleanOld(old(cache), windowMs, now)
    {
      var keys := cache.Keys;
      ghost var original := cache;
      while keys != {}
        invariant keys <= original.Keys
        invariant forall k :: k in cache <==> k in original && (k in keys || Live(original[k], windowMs, now))
        invariant forall k :: k in cache ==> cache[k] == original[k]
        decreases keys
      {
        var key :| key in keys;
        if now - cache[key].windowStart >= windowMs {
          cache := cache - {key};
        }
        keys := keys - {key};
      }
    }

    /** `check(key)`: cleans at `cleanNow`, then admits or refuses the
        attempt at `now`. */
    method Check(key: string, cleanNow: int, now: int) returns (r: CheckResult)
      requires Valid()
      modifies this
      ensures Valid()
      ensures (cache, r) == CheckSpec(old(cache), maxAttempts, windowMs, key, cleanNow, now)
    {
      CleanOldEntries(cleanNow);
      if key !in cache {
        cache := cache[key := Entry(1, now)];
        return CheckResult(true, None);
      }
      var entry := cache[key];
      if now - entry.windowStart >= windowMs {
        cache := cache[key := Entry(1, now)];
        return CheckResult(true, None);
      }
      if entry.attempts >= maxAttempts {
        var msBeforeNext := windowMs - (now - entry.windowStart);
        return CheckResult(false, Some(msBeforeNext));
      }
      cache := cache[key := entry.(attempts := entry.attempts + 1)];
      r := CheckResult(true, None);
    }
  }

  /** `authRateLimiter`: 5 attempts per 5 minutes. */
  method NewAuthRateLimiter() returns (limiter: RateLimiter)
    ensures fresh(limiter) && limiter.Valid() && limiter.cache == map[]
    ensures limiter.maxAttempts == 5 && limiter.windowMs == 300000
  {
    limiter := new RateLimiter(5, 300000);
  }

  /** `emailRateLimiter`: 3 attempts per 10 minutes. */
  method NewEmailRateLimiter() returns (limiter: RateLimiter)
    ensures fresh(limiter) && limiter.Valid() && limiter.cache == map[]
    ensures limiter.maxAttempts == 3 && limiter.windowMs == 600000
  {
    limiter := new RateLimiter(3, 600000);
  }
}
