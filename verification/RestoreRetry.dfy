/** The daemon's bounded retry of `Restore`, with the 64-bit arithmetic of its doubling backoff. */
module RestoreRetry {
  import opened Common

  /** Two's complement wrap-around. */
  function Wrap(x: int): Int64 {
    (x + 0x8000_0000_0000_0000) % 0x1_0000_0000_0000_0000 - 0x8000_0000_0000_0000
  }

  datatype Policy = Policy(maxAttempts: Int64, initialBackoff: Int64, maxBackoff: Int64)

  /** What happens around attempt number k, counted from zero. */
  datatype Round = Round(cancelledBefore: bool, failed: bool, cancelledAfter: bool, waitInterrupted: bool)

  datatype Result = BadPolicy | Cancelled | Restored | Exhausted

  predicate Acceptable(p: Policy) {
    p.maxAttempts > 0 && (p.maxAttempts > 1 ==> p.initialBackoff > 0 && p.maxBackoff > 0)
  }

  function Min(a: int, b: int): int {
    if a < b then a else b
  }

  function Pow2(k: nat): (r: nat)
    ensures r >= 1
  {
    if k == 0 then 1 else 2 * Pow2(k - 1)
  }

  /** The wait after attempt number k, counted from zero, in unbounded arithmetic. */
  function Backoff(p: Policy, k: nat): int {
    Min(p.initialBackoff * Pow2(k), p.maxBackoff)
  }

  function Sum(s: seq<int>): int {
    if s == [] then 0 else Sum(s[..|s| - 1]) + s[|s| - 1]
  }

  /** An attempt after which the loop goes on. */
  predicate Retries(r: Round) {
    !r.cancelledBefore && r.failed && !r.cancelledAfter && !r.waitInterrupted
  }

  /** The doubling step: overflow shows as a smaller number and is caught like excess. */
  function Doubled(b: Int64, maxBackoff: Int64): Int64 {
    var next := Wrap(b * 2);
    if next < b || (maxBackoff > 0 && next > maxBackoff) then maxBackoff else next
  }

  lemma WrapExactly(b: Int64)
    requires b > 0
    ensures Wrap(b * 2) == if b * 2 < 0x8000_0000_0000_0000 then b * 2 else b * 2 - 0x1_0000_0000_0000_0000
  {
  }

  /** Machine doubling follows the unbounded law, through any overflow. */
  lemma DoublingIsExact(p: Policy, k: nat)
    requires p.initialBackoff > 0 && p.maxBackoff > 0
    ensures 0 < Backoff(p, k) <= p.maxBackoff
    ensures Doubled(Backoff(p, k), p.maxBackoff) == Backoff(p, k + 1)
  {
    var x := p.initialBackoff * Pow2(k);
    assert x >= p.initialBackoff by {
      Grows(p.initialBackoff, Pow2(k));
    }
    assert p.initialBackoff * Pow2(k + 1) == 2 * x;
    WrapExactly(Backoff(p, k));
  }

  lemma Grows(a: nat, b: nat)
    requires b >= 1
    ensures a * b >= a
  {
  }

  /** Every wait is bounded by the maximum, so the total is bounded. */
  lemma {:induction false} TotalIsBounded(waits: seq<int>, maximum: int)
    requires forall k :: 0 <= k < |waits| ==> 0 <= waits[k] <= maximum
    ensures 0 <= Sum(waits) <= |waits| * maximum
  {
    if waits != [] {
      var init := waits[..|waits| - 1];
      TotalIsBounded(init, maximum);
      assert (|waits| - 1) * maximum + maximum == |waits| * maximum;
    }
  }

  /** How many restores and which waits lead to which result: every attempt before the last failed
      plainly and was followed by its wait, every wait follows the law, and the result is what ended the
      last attempt. */
  ghost predicate Ended(p: Policy, rounds: int -> Round, result: Result, restores: nat, waits: seq<int>) {
    && (forall k :: 0 <= k < |waits| ==> waits[k] == Backoff(p, k))
    && (forall k :: 0 <= k < restores - 1 ==> Retries(rounds(k)))
    && (match result
        case BadPolicy =>
          && (p.maxAttempts <= 0 || (p.maxAttempts > 1 && (p.initialBackoff <= 0 || p.maxBackoff <= 0)))
          && restores == 0 && waits == []
        case Restored => Ran(p, restores) && Succeeds(rounds(restores - 1)) && |waits| == restores - 1
        case Exhausted => Ran(p, restores) && Fails(rounds(restores - 1)) && restores == p.maxAttempts && |waits| == restores - 1
        case Cancelled =>
          || (CutBefore(p, rounds, restores) && |waits| == restores)
          || (CutAfter(p, rounds, restores) && |waits| == restores - 1)
          || (CutWaiting(p, rounds, restores) && |waits| == restores))
  }

  predicate Ran(p: Policy, restores: nat) {
    Acceptable(p) && 0 < restores <= p.maxAttempts
  }

  /** Cancelled before the next attempt, during the last one, or while waiting after it. */
  ghost predicate CutBefore(p: Policy, rounds: int -> Round, restores: nat) {
    Acceptable(p) && restores < p.maxAttempts && rounds(restores).cancelledBefore && (restores > 0 ==> Retries(rounds(restores - 1)))
  }

  ghost predicate CutAfter(p: Policy, rounds: int -> Round, restores: nat) {
    Ran(p, restores) && !rounds(restores - 1).cancelledBefore && rounds(restores - 1).cancelledAfter
  }

  ghost predicate CutWaiting(p: Policy, rounds: int -> Round, restores: nat) {
    Ran(p, restores) && restores < p.maxAttempts && Fails(rounds(restores - 1)) && rounds(restores - 1).waitInterrupted
  }

  /** Policy and rounds leave no choice: there is one way to end. */
  lemma EndIsUnique(p: Policy, rounds: int -> Round, r: Result, n: nat, w: seq<int>, r': Result, n': nat, w': seq<int>)
    requires Ended(p, rounds, r, n, w) && Ended(p, rounds, r', n', w')
    ensures r' == r && n' == n && w' == w
  {
    // The longer run retried what ended the shorter one.
    assert n < n' && n > 0 ==> Retries(rounds(n - 1));
    assert n' < n && n' > 0 ==> Retries(rounds(n' - 1));
    assert n < n' - 1 ==> Retries(rounds(n));
    assert n' < n - 1 ==> Retries(rounds(n'));
  }

  predicate Succeeds(r: Round) {
    !r.cancelledBefore && !r.failed && !r.cancelledAfter
  }

  predicate Fails(r: Round) {
    !r.cancelledBefore && r.failed && !r.cancelledAfter
  }

  /** The loop itself. */
  method Retry(p: Policy, rounds: int -> Round) returns (result: Result, restores: nat, waits: seq<int>)
    ensures Ended(p, rounds, result, restores, waits)
  {
    restores, waits := 0, [];
    if !Acceptable(p) {
      return BadPolicy, 0, [];
    }
    var backoff: Int64 := if p.initialBackoff < 0 then 0 else p.initialBackoff;
    if p.maxBackoff > 0 && backoff > p.maxBackoff {
      backoff := p.maxBackoff;
    }
    result := Exhausted;
    while restores < p.maxAttempts
      invariant 0 <= restores <= p.maxAttempts && |waits| == restores <= p.maxAttempts - 1
      invariant p.maxAttempts > 1 ==> backoff == Backoff(p, restores)
      invariant forall k :: 0 <= k < |waits| ==> waits[k] == Backoff(p, k)
      invariant forall k :: 0 <= k < restores ==> Retries(rounds(k))
      decreases p.maxAttempts - restores
    {
      var r := rounds(restores);
      if r.cancelledBefore {
        return Cancelled, restores, waits;
      }
      restores := restores + 1;
      if r.cancelledAfter {
        return Cancelled, restores, waits;
      }
      if !r.failed {
        return Restored, restores, waits;
      }
      if restores == p.maxAttempts {
        return Exhausted, restores, waits;
      }
      DoublingIsExact(p, restores - 1);
      waits := waits + [backoff];
      if r.waitInterrupted {
        return Cancelled, restores, waits;
      }
      if backoff != 0 {
        backoff := Doubled(backoff, p.maxBackoff);
      }
    }
  }

  /** `runRestoreRetry`; it also reports how often `Restore` ran and each wait that began.
      The k-th wait is exactly initial * 2^k cut off at the maximum; `Restore` runs at most
      maxAttempts times and never again after a success, a cancellation or an interrupted wait. */
  method RunRestoreRetry(p: Policy, rounds: int -> Round) returns (result: Result, restores: nat, waits: seq<int>)
    ensures Ended(p, rounds, result, restores, waits)
    ensures Acceptable(p) ==> 0 <= Sum(waits) <= (p.maxAttempts - 1) * (if p.maxAttempts > 1 then p.maxBackoff else 0)
  {
    result, restores, waits := Retry(p, rounds);
    if Acceptable(p) {
      WithinBudget(p, waits);
    }
  }

  lemma WithinBudget(p: Policy, waits: seq<int>)
    requires Acceptable(p) && |waits| <= p.maxAttempts - 1 && forall k :: 0 <= k < |waits| ==> waits[k] == Backoff(p, k)
    ensures 0 <= Sum(waits) <= (p.maxAttempts - 1) * (if p.maxAttempts > 1 then p.maxBackoff else 0)
  {
    if p.maxAttempts > 1 {
      forall k | 0 <= k < |waits| ensures 0 <= waits[k] <= p.maxBackoff {
        DoublingIsExact(p, k);
      }
      TotalIsBounded(waits, p.maxBackoff);
      Scale(|waits|, p.maxAttempts - 1, p.maxBackoff);
    }
  }

  lemma Scale(a: nat, b: nat, c: nat)
    requires a <= b
    ensures a * c <= b * c
  {
  }
}
