/** The client-side ratelimit tracker of `src/modman/api.py` (class `Ratelimiter`).

    Times are whole seconds counted from `datetime.min` (0001-01-01T00:00), so
    `datetime.min` is the instant 0 and `timedelta(seconds=n)` is `+ n`. The clock
    (`datetime.now()`) is an explicit parameter `now`. */
module Ratelimit {
  import opened Wrappers

  /** The instant `datetime.min`. */
  const DATETIME_MIN: int := 0

  /** The four fields of a tracker, as a value. */
  datatype Limits = Limits(limit: int, remaining: int, reset: int, lastHit: int) {

    /** `reset_at`: the instant at which this window resets. */
    function ResetAt(): int { lastHit + reset }

    /** `are_ratelimited()` at instant `now`. */
    predicate Exhausted(now: int) { ResetAt() >= now && remaining == 0 }

    /** `sync(limit=, remaining=, reset=)` at instant `now`: a negative argument
        is the "header missing" sentinel and leaves its field alone. */
    function Synced(newLimit: int, newRemaining: int, newReset: int, now: int): Limits {
      Limits(if newLimit >= 0 then newLimit else limit,
             if newRemaining >= 0 then newRemaining else remaining,
             if newReset >= 0 then newReset else reset,
             now)
    }
  }

  /** Python's `x or d` for an optional integer: `None` and `0` are falsy. */
  function OrElse(x: Option<int>, d: int): (r: int)
    ensures x.Some? && x.value != 0 ==> r == x.value
    ensures x.None? || x.value == 0 ==> r == d
  {
    if x.Some? && x.value != 0 then x.value else d
  }

  /** `Ratelimiter(limit, remaining, reset)` constructed at instant `now`. */
  function Initial(limit: int, remaining: Option<int>, reset: Option<int>, now: int): Limits {
    var rst := OrElse(reset, 0);
    Limits(limit, OrElse(remaining, limit), rst, if rst == 0 then DATETIME_MIN else now)
  }

  class Ratelimiter {
    var limit: int
    var remaining: int
    var reset: int
    var lastHit: int

    function State(): Limits
      reads this
    {
      Limits(limit, remaining, reset, lastHit)
    }

    constructor (limit: int, remaining: Option<int>, reset: Option<int>, now: int)
      ensures State() == Initial(limit, remaining, reset, now)
    {
      this.limit := limit;
      this.remaining := OrElse(remaining, limit);
      this.reset := OrElse(reset, 0);
      this.lastHit := if OrElse(reset, 0) == 0 then DATETIME_MIN else now;
    }

    /** `reset_at`. */
    function ResetAt(): (t: int)
      reads this
      ensures t == State().ResetAt()
    {
      lastHit + reset
    }

    /** `are_ratelimited()` at instant `now`. */
    predicate AreRatelimited(now: int)
      reads this
      ensures AreRatelimited(now) <==> State().Exhausted(now)
    {
      ResetAt() >= now && remaining == 0
    }

    /** `sync`: overwrites each field whose argument is non-negative, stamps
        `lastHit`, and returns this same tracker. */
    method Sync(newLimit: int, newRemaining: int, newReset: int, now: int) returns (self: Ratelimiter)
      modifies this
      ensures self == this
      ensures limit == (if newLimit >= 0 then newLimit else old(limit))
      ensures remaining == (if newRemaining >= 0 then newRemaining else old(remaining))
      ensures reset == (if newReset >= 0 then newReset else old(reset))
      ensures lastHit == now
      ensures State() == old(State()).Synced(newLimit, newRemaining, newReset, now)
    {
      if newLimit >= 0 {
        limit := newLimit;
      }
      if newRemaining >= 0 {
        remaining := newRemaining;
      }
      if newReset >= 0 {
        reset := newReset;
      }
      lastHit := now;
      self := this;
    }
  }

  /** The `remaining >= 0` invariant: a tracker built with a non-negative
      `limit` and no negative `remaining` starts with it, and `sync` keeps it. */
  lemma InitialRemainingNonNegative(limit: int, remaining: Option<int>, reset: Option<int>, now: int)
    requires limit >= 0 && (remaining.Some? ==> remaining.value >= 0)
    ensures Initial(limit, remaining, reset, now).remaining >= 0
  {
  }

  lemma SyncedKeepsRemainingNonNegative(l: Limits, newLimit: int, newRemaining: int, newReset: int, now: int)
    requires l.remaining >= 0
    ensures l.Synced(newLimit, newRemaining, newReset, now).remaining >= 0
  {
  }

  /** A sync with every header missing only moves `lastHit`. */
  lemma SentinelSyncOnlyStamps(l: Limits, now: int)
    ensures l.Synced(-1, -1, -1, now) == l.(lastHit := now)
  {
  }

  /** Syncing twice with the same headers at the same instant is syncing once. */
  lemma SyncedIdempotent(l: Limits, a: int, b: int, c: int, now: int)
    ensures l.Synced(a, b, c, now).Synced(a, b, c, now) == l.Synced(a, b, c, now)
  {
  }

  /** After a sync at `t`, the tracker is exhausted at `now` exactly when the
      remaining budget it now holds is zero and `now` is at most `t` plus the
      reset it now holds. */
  lemma SyncedExhausted(l: Limits, a: int, b: int, c: int, t: int, now: int)
    ensures l.Synced(a, b, c, t).Exhausted(now)
        <==> (if b >= 0 then b else l.remaining) == 0 && now <= t + (if c >= 0 then c else l.reset)
  {
  }

  /** A positive remaining budget is never exhausted, whatever the time. */
  lemma RemainingNotExhausted(l: Limits, now: int)
    requires l.remaining > 0
    ensures !l.Exhausted(now)
  {
  }

  /** Exhaustion lasts up to and including `reset_at` and is over one second later. */
  lemma ExhaustionWindow(l: Limits, now: int, later: int)
    requires l.Exhausted(now)
    ensures now <= later <= l.ResetAt() ==> l.Exhausted(later)
    ensures !l.Exhausted(l.ResetAt() + 1)
  {
  }

  /** The constructor turns a missing or zero `remaining` into `limit`, and a
      missing or zero `reset` pins `lastHit` to `datetime.min`; so the client's
      `Ratelimiter(300)` is not ratelimited at any instant. */
  lemma InitialDefaults(limit: int, remaining: Option<int>, reset: Option<int>, now: int)
    ensures remaining.None? || remaining == Some(0) ==> Initial(limit, remaining, reset, now).remaining == limit
    ensures reset.None? || reset == Some(0) ==> Initial(limit, remaining, reset, now).ResetAt() == DATETIME_MIN
    ensures limit != 0 && (remaining.None? || remaining == Some(0)) ==> !Initial(limit, remaining, reset, now).Exhausted(now)
  {
  }
}
