/** The retry policy and the bounded retry loop around one model. */
module Retry {
  import opened Common
  import opened ModelErrors

  const MAX_RETRIES := 5

  /** One provider invocation. A failure carries the flag its error info settles on. */
  datatype Reply = Succeed(content: string) | Fail(code: ErrorCode, retriable: bool)

  datatype RetryPolicy = RetryPolicy(maxRetries: nat, baseDelay: real, maxDelay: real)

  function Max(a: real, b: real): real { if a < b then b else a }

  function Min(a: real, b: real): real { if b < a then b else a }

  /** `RetryPolicy.__post_init__`. */
  function MakePolicy(maxRetries: int, baseDelay: real, maxDelay: real): (p: RetryPolicy)
    ensures WellClamped(p)
    ensures 0 <= maxRetries <= MAX_RETRIES ==> p.maxRetries == maxRetries
    ensures maxRetries < 0 ==> p.maxRetries == 0
    ensures maxRetries > MAX_RETRIES ==> p.maxRetries == MAX_RETRIES
    ensures p.maxDelay == if maxDelay > 0.0 then maxDelay else 0.0
    ensures p.baseDelay == if baseDelay <= 0.0 then 0.0
                           else if 0.0 < maxDelay < baseDelay then maxDelay else baseDelay
  {
    var retries := if maxRetries < 0 then 0 else if maxRetries > MAX_RETRIES then MAX_RETRIES else maxRetries;
    var (base, cap) := (Max(baseDelay, 0.0), Max(maxDelay, 0.0));
    RetryPolicy(retries, if cap != 0.0 && base > cap then cap else base, cap)
  }

  predicate WellClamped(p: RetryPolicy) {
    p.maxRetries <= MAX_RETRIES && 0.0 <= p.baseDelay && 0.0 <= p.maxDelay
    && (p.maxDelay > 0.0 ==> p.baseDelay <= p.maxDelay)
  }

  /** `_retry_policy`: the call's own limit, else the runtime's, else none. */
  function PolicyFor(
    requested: Option<int>, configured: Option<int>, allowRetry: bool, baseDelay: real, maxDelay: real)
    : (p: RetryPolicy)
    ensures WellClamped(p) && (!allowRetry ==> p.maxRetries == 0)
    ensures allowRetry && requested.Some? && 0 <= requested.value <= MAX_RETRIES ==> p.maxRetries == requested.value
    ensures allowRetry && requested.None? && configured.Some? && 0 <= configured.value <= MAX_RETRIES ==>
              p.maxRetries == configured.value
    ensures requested.None? && configured.None? ==> p.maxRetries == 0
    ensures p.maxDelay == if maxDelay > 0.0 then maxDelay else 0.0
    ensures p.baseDelay == if baseDelay <= 0.0 then 0.0
                           else if 0.0 < maxDelay < baseDelay then maxDelay else baseDelay
  {
    var retries := if requested.Some? then requested.value else if configured.Some? then configured.value else 0;
    MakePolicy(if allowRetry then retries else 0, baseDelay, maxDelay)
  }

  function MaxAttempts(p: RetryPolicy): nat { p.maxRetries + 1 }

  function Pow2(n: nat): real { if n == 0 then 1.0 else 2.0 * Pow2(n - 1) }

  /** `base * 2**n`, by doubling. */
  function Doubled(base: real, n: nat): real { if n == 0 then base else 2.0 * Doubled(base, n - 1) }

  lemma {:induction false} DoubledIsScaled(base: real, n: nat)
    ensures Doubled(base, n) == base * Pow2(n)
  {
    if n > 0 {
      DoubledIsScaled(base, n - 1);
      var x := Pow2(n - 1);
      assert base * (2.0 * x) == 2.0 * (base * x);
    }
  }

  /** `delay_seconds`: the wait before retry number 1, 2, ... */
  function Delay(p: RetryPolicy, retryIndex: int): real {
    var index := (if retryIndex < 1 then 1 else retryIndex) - 1;
    var delay := Doubled(p.baseDelay, index);
    Max(if p.maxDelay != 0.0 then Min(delay, p.maxDelay) else delay, 0.0)
  }

  /** Sleep over the first `r` retries. */
  function TotalDelay(p: RetryPolicy, r: nat): real {
    if r == 0 then 0.0 else TotalDelay(p, r - 1) + Delay(p, r)
  }

  // ---------- The loop ----------

  datatype RetryNote = RetryNote(attempt: nat, code: ErrorCode)

  predicate ShouldRetry(p: RetryPolicy, allowRetry: bool, reply: Reply, attempt: nat) {
    reply.Fail? && allowRetry && attempt < MaxAttempts(p) && reply.retriable
  }

  /** The loop ends at the first attempt that succeeds, fails for good, or is the last allowed. */
  ghost predicate EndsAt(p: RetryPolicy, allowRetry: bool, replies: nat -> Reply, attempts: nat) {
    && 1 <= attempts <= MaxAttempts(p)
    && (forall i | 1 <= i < attempts :: replies(i).Fail? && replies(i).retriable && allowRetry)
    && (replies(attempts).Fail? && replies(attempts).retriable && allowRetry ==> attempts == MaxAttempts(p))
  }

  function Notes(replies: nat -> Reply, n: nat): (notes: seq<RetryNote>)
    requires forall i | 1 <= i <= n :: replies(i).Fail?
    ensures |notes| == n && forall i | 0 <= i < n :: notes[i] == RetryNote(i + 1, replies(i + 1).code)
  {
    if n == 0 then [] else Notes(replies, n - 1) + [RetryNote(n, replies(n).code)]
  }

  method GenerateWithRetry(p: RetryPolicy, allowRetry: bool, replies: nat -> Reply)
    returns (result: Reply, attempts: nat, history: seq<RetryNote>, slept: real)
    ensures EndsAt(p, allowRetry, replies, attempts) && result == replies(attempts)
    ensures history == Notes(replies, attempts - 1)
    ensures WellClamped(p) ==> slept == TotalDelay(p, attempts - 1)
  {
    history := [];
    slept := 0.0;
    attempts := 0;
    result := Fail(ModelCallFailed, false);
    var attempt := 1;
    while attempt <= MaxAttempts(p)
      invariant 1 <= attempt <= MaxAttempts(p)
      invariant forall i | 1 <= i < attempt :: replies(i).Fail? && replies(i).retriable && allowRetry
      invariant history == Notes(replies, attempt - 1)
      invariant slept == if attempt == 1 then 0.0 else TotalDelay(p, attempt - 2)
    {
      if attempt > 1 {
        var delay := Delay(p, attempt - 1);
        if delay > 0.0 {
          slept := slept + delay;
        }
      }
      result := replies(attempt);
      attempts := attempt;
      if result.Succeed? {
        return;
      }
      if !ShouldRetry(p, allowRetry, result, attempt) {
        return;
      }
      history := history + [RetryNote(attempt, result.code)];
      attempt := attempt + 1;
    }
    assert false;  // the last allowed attempt is never retried
  }

  /** The replies determine where the loop ends. */
  lemma EndIsUnique(p: RetryPolicy, allowRetry: bool, replies: nat -> Reply, a: nat, b: nat)
    requires EndsAt(p, allowRetry, replies, a) && EndsAt(p, allowRetry, replies, b)
    ensures a == b
  {
    var x, y := replies(a), replies(b);
  }

  // ---------- Backoff ----------

  lemma {:induction false} DoubledGrows(base: real, i: nat, j: nat)
    requires 0.0 <= base && i <= j
    ensures 0.0 <= Doubled(base, i) <= Doubled(base, j)
    decreases j
  {
    if i < j { DoubledGrows(base, i, j - 1); } else if i > 0 { DoubledGrows(base, i - 1, i - 1); }
  }

  lemma DelayIs(p: RetryPolicy, i: int)
    requires WellClamped(p)
    ensures var d := Doubled(p.baseDelay, (if i < 1 then 1 else i) - 1);
            Delay(p, i) == if p.maxDelay > 0.0 then Min(d, p.maxDelay) else d
  {
    var index := (if i < 1 then 1 else i) - 1;
    DoubledGrows(p.baseDelay, index, index);
  }

  /** The wait before retry `i` is the base doubled `i - 1` times, cut to the cap if there is one. */
  lemma DelayDoubles(p: RetryPolicy, i: nat)
    requires WellClamped(p) && i >= 1
    ensures var full := p.baseDelay * Pow2(i - 1);
            Delay(p, i) == if 0.0 < p.maxDelay < full then p.maxDelay else full
  {
    DelayIs(p, i);
    DoubledIsScaled(p.baseDelay, i - 1);
  }

  /** Delays never shrink from one retry to the next, and a positive cap bounds them all. */
  lemma DelaysGrow(p: RetryPolicy, i: int, j: int)
    requires WellClamped(p) && i <= j
    ensures Delay(p, i) <= Delay(p, j)
    ensures p.maxDelay > 0.0 ==> Delay(p, j) <= p.maxDelay
  {
    DelayIs(p, i);
    DelayIs(p, j);
    DoubledGrows(p.baseDelay, (if i < 1 then 1 else i) - 1, (if j < 1 then 1 else j) - 1);
  }

  lemma {:induction false} TotalUnderSeries(p: RetryPolicy, r: nat)
    requires WellClamped(p)
    ensures TotalDelay(p, r) <= Doubled(p.baseDelay, r) - p.baseDelay
  {
    if r > 0 {
      TotalUnderSeries(p, r - 1);
      DelayIs(p, r);
    }
  }

  lemma Distribute(m: real, x: real, y: real)
    requires y == x + 1.0
    ensures y * m == x * m + m && m * y == m * x + m
  {
  }

  lemma AtMost(m: real, x: real, y: real)
    requires 0.0 <= m && x <= y
    ensures x * m <= y * m
  {
    assert (y - x) * m >= 0.0;
  }

  function Caps(cap: real, r: nat): real { if r == 0 then 0.0 else Caps(cap, r - 1) + cap }

  lemma {:induction false} CapsIsScaled(cap: real, r: nat)
    ensures Caps(cap, r) == r as real * cap
  {
    if r > 0 {
      CapsIsScaled(cap, r - 1);
      Distribute(cap, (r - 1) as real, r as real);
    }
  }

  lemma {:induction false} TotalUnderCap(p: RetryPolicy, r: nat)
    requires WellClamped(p) && p.maxDelay > 0.0
    ensures TotalDelay(p, r) <= Caps(p.maxDelay, r)
  {
    if r > 0 {
      TotalUnderCap(p, r - 1);
      DelaysGrow(p, r, r);
    }
  }

  /** The whole wait is bounded by the cap per retry ... */
  lemma TotalWithinCaps(p: RetryPolicy, r: nat)
    requires WellClamped(p) && p.maxDelay > 0.0
    ensures TotalDelay(p, r) <= r as real * p.maxDelay
  {
    TotalUnderCap(p, r);
    CapsIsScaled(p.maxDelay, r);
  }

  /** ... and by the doubling series. */
  lemma TotalWithinSeries(p: RetryPolicy, r: nat)
    requires WellClamped(p)
    ensures TotalDelay(p, r) <= p.baseDelay * (Pow2(r) - 1.0)
  {
    TotalUnderSeries(p, r);
    SeriesSum(p.baseDelay, r);
  }

  lemma SeriesSum(base: real, r: nat)
    ensures Doubled(base, r) - base == base * (Pow2(r) - 1.0)
  {
    DoubledIsScaled(base, r);
    Distribute(base, Pow2(r) - 1.0, Pow2(r));
  }

  /** What one retried call can cost at most: six invocations, and waits
      within five caps and 31 base delays. */
  lemma RetryBudget(p: RetryPolicy, allowRetry: bool, replies: nat -> Reply, attempts: nat)
    requires WellClamped(p) && EndsAt(p, allowRetry, replies, attempts)
    ensures attempts <= 6
    ensures p.maxDelay > 0.0 ==> TotalDelay(p, attempts - 1) <= 5.0 * p.maxDelay
    ensures TotalDelay(p, attempts - 1) <= 31.0 * p.baseDelay
  {
    var r := attempts - 1;
    TotalUnderSeries(p, r);
    DoubledGrows(p.baseDelay, r, 5);
    FifthDoubling(p.baseDelay);
    if p.maxDelay > 0.0 {
      TotalWithinCaps(p, r);
      AtMost(p.maxDelay, r as real, 5.0);
    }
  }

  lemma FifthDoubling(base: real)
    ensures Doubled(base, 5) == 32.0 * base
  {
    assert Doubled(base, 1) == 2.0 * base;
    assert Doubled(base, 2) == 4.0 * base;
    assert Doubled(base, 3) == 8.0 * base;
    assert Doubled(base, 4) == 16.0 * base;
  }
}
