/** Retry with capped exponential back-off (internal/transport/retry.go). Durations are nanoseconds. */
module Retry {
  import opened Wrappers

  datatype Config = Config(maxAttempts: int, baseDelay: int, maxDelay: int, multiplier: real, jitter: real)

  const DEFAULTS := Config(5, 200_000_000, 30_000_000_000, 2.0, 0.25)

  predicate Positive(c: Config) {
    c.maxAttempts > 0 && c.baseDelay > 0 && c.maxDelay > 0 && c.multiplier > 0.0 && c.jitter > 0.0
  }

  /** Every field that is not positive takes its default. */
  function WithDefaults(c: Config): (d: Config)
    ensures Positive(d)
    ensures c.maxAttempts > 0 ==> d.maxAttempts == c.maxAttempts
    ensures c.baseDelay > 0 ==> d.baseDelay == c.baseDelay
    ensures c.maxDelay > 0 ==> d.maxDelay == c.maxDelay
    ensures c.multiplier > 0.0 ==> d.multiplier == c.multiplier
    ensures c.jitter > 0.0 ==> d.jitter == c.jitter
    ensures (c.maxAttempts <= 0 ==> d.maxAttempts == 5) && (c.baseDelay <= 0 ==> d.baseDelay == 200_000_000)
    ensures (c.maxDelay <= 0 ==> d.maxDelay == 30_000_000_000) && (c.multiplier <= 0.0 ==> d.multiplier == 2.0)
    ensures c.jitter <= 0.0 ==> d.jitter == 0.25
  {
    Config(if c.maxAttempts > 0 then c.maxAttempts else DEFAULTS.maxAttempts,
           if c.baseDelay > 0 then c.baseDelay else DEFAULTS.baseDelay,
           if c.maxDelay > 0 then c.maxDelay else DEFAULTS.maxDelay,
           if c.multiplier > 0.0 then c.multiplier else DEFAULTS.multiplier,
           if c.jitter > 0.0 then c.jitter else DEFAULTS.jitter)
  }

  /** The structured payload of an RPC error, when its data decodes. */
  datatype Info = Info(kind: string, httpStatus: int)

  datatype Outcome = Success | ErrClosed | RpcError(code: int, info: Option<Info>) | OtherError

  /** isRetryable. */
  predicate Retryable(o: Outcome) {
    o.RpcError? &&
    ((o.info.Some? && (o.info.value.httpStatus == 429 || o.info.value.kind == "HttpConnectionFailed"))
        || o.code == -32603)
  }

  function Pow(m: real, k: nat): real {
    if k == 0 then 1.0 else m * Pow(m, k - 1)
  }

  function Min(a: real, b: real): real { if a <= b then a else b }

  /** Products are taken through this function so that proofs use only the laws below. */
  function Mul(a: real, b: real): real { a * b }

  lemma MulIs(a: real, b: real)
    ensures Mul(a, b) == a * b
  {
  }

  lemma MulAdd(a: real, b: real, c: real)
    ensures Mul(a, b + c) == Mul(a, b) + Mul(a, c)
  {
  }

  lemma MulMono(a: real, b: real, c: real)
    requires 0.0 <= a && b <= c
    ensures Mul(a, b) <= Mul(a, c)
  {
  }

  lemma MulZero(a: real)
    ensures Mul(a, 0.0) == 0.0
  {
  }

  /** BaseDelay * Multiplier^attempt, before and after the cap. */
  function Raw(c: Config, attempt: nat): real {
    Mul(c.baseDelay as real, Pow(c.multiplier, attempt))
  }

  function Capped(c: Config, attempt: nat): real {
    Min(Raw(c, attempt), c.maxDelay as real)
  }

  /** jitter * rnd * 2 - jitter, in [-jitter, jitter). */
  function JitterOf(c: Config, rnd: real): real {
    Mul(c.jitter, rnd) * 2.0 - c.jitter
  }

  /** The delay after `attempt`, for a random number in [0, 1). */
  function Backoff(c: Config, attempt: nat, rnd: real): int {
    var delay := Mul(Capped(c, attempt), 1.0 + JitterOf(c, rnd));
    if delay < 0.0 then 0 else delay.Floor
  }

  lemma {:induction false} PowPositive(m: real, k: nat)
    requires m > 0.0
    ensures Pow(m, k) > 0.0
  {
    if k == 0 {
    } else {
      PowPositive(m, k - 1);
    }
  }

  lemma CappedBound(c: Config, attempt: nat)
    requires Positive(c)
    ensures 0.0 <= Capped(c, attempt) <= c.maxDelay as real && 0.0 <= Raw(c, attempt)
        && Capped(c, attempt) <= Raw(c, attempt)
  {
    PowPositive(c.multiplier, attempt);
    MulZero(c.baseDelay as real);
    MulMono(c.baseDelay as real, 0.0, Pow(c.multiplier, attempt));
    hide Mul, Pow;
  }

  lemma BackoffBound(c: Config, attempt: nat, rnd: real)
    requires Positive(c) && 0.0 <= rnd < 1.0
    ensures 0 <= Backoff(c, attempt, rnd)
    ensures Backoff(c, attempt, rnd) as real <= Mul(1.0 + c.jitter, Capped(c, attempt))
  {
    CappedBound(c, attempt);
    MulMono(c.jitter, rnd, 1.0);
    assert Mul(c.jitter, 1.0) == c.jitter;
    MulMono(Capped(c, attempt), 1.0 + JitterOf(c, rnd), 1.0 + c.jitter);
    assert Mul(Capped(c, attempt), 1.0 + c.jitter) == Mul(1.0 + c.jitter, Capped(c, attempt));
    MulZero(1.0 + c.jitter);
    MulMono(1.0 + c.jitter, 0.0, Capped(c, attempt));
    hide Mul, Capped;
  }

  /** min(BaseDelay * M^attempt, MaxDelay), in plain arithmetic. */
  function Exponential(c: Config, attempt: nat): real {
    if c.baseDelay as real * Pow(c.multiplier, attempt) <= c.maxDelay as real
    then c.baseDelay as real * Pow(c.multiplier, attempt)
    else c.maxDelay as real
  }

  /** A delay lies within (1-J) and (1+J) times the capped exponential, cut to a whole nanosecond. */
  lemma BackoffRange(c: Config, attempt: nat, rnd: real)
    requires Positive(c) && 0.0 <= rnd < 1.0
    ensures Backoff(c, attempt, rnd) >= 0
    ensures (1.0 - c.jitter) * Exponential(c, attempt) - 1.0 < Backoff(c, attempt, rnd) as real
    ensures Backoff(c, attempt, rnd) as real <= (1.0 + c.jitter) * Exponential(c, attempt)
  {
    CappedIsExponential(c, attempt);
    hide Mul, Exponential, Capped, Pow;
    var cap := Capped(c, attempt);
    CappedBound(c, attempt);
    BackoffBound(c, attempt, rnd);
    MulZero(c.jitter);
    MulMono(c.jitter, 0.0, rnd);
    MulMono(cap, 1.0 - c.jitter, 1.0 + JitterOf(c, rnd));
    MulIs(1.0 - c.jitter, cap);
    MulIs(1.0 + c.jitter, cap);
    MulSwaps(1.0 - c.jitter, cap);
  }

  lemma MulSwaps(a: real, b: real)
    ensures Mul(a, b) == Mul(b, a)
  {
  }

  lemma CappedIsExponential(c: Config, attempt: nat)
    ensures Capped(c, attempt) == Exponential(c, attempt)
  {
    MulIs(c.baseDelay as real, Pow(c.multiplier, attempt));
    hide Mul, Pow;
  }

  /** The delay exactly: the random number moves it through the whole range. */
  lemma BackoffIs(c: Config, attempt: nat, rnd: real)
    ensures Backoff(c, attempt, rnd) ==
            var delay := Exponential(c, attempt) * (1.0 + (c.jitter * rnd * 2.0 - c.jitter));
            if delay < 0.0 then 0 else delay.Floor
  {
    MulIs(c.jitter, rnd);
    CappedIsExponential(c, attempt);
    assert JitterOf(c, rnd) == c.jitter * rnd * 2.0 - c.jitter;
    MulIs(Exponential(c, attempt), 1.0 + JitterOf(c, rnd));
    hide Mul, Exponential, Capped, JitterOf;
  }

  /** The sums of the first k uncapped delays, and of k capped ones at most. */
  function RawSum(c: Config, k: nat): real {
    if k == 0 then 0.0 else RawSum(c, k - 1) + Raw(c, k - 1)
  }

  function CapSum(c: Config, k: nat): real {
    if k == 0 then 0.0 else CapSum(c, k - 1) + c.maxDelay as real
  }

  /** The waiting done after k delays. */
  predicate Bounded(c: Config, k: nat, waited: real) {
    waited <= Mul(1.0 + c.jitter, CapSum(c, k)) && waited <= Mul(1.0 + c.jitter, RawSum(c, k))
  }

  lemma NothingWaited(c: Config)
    ensures Bounded(c, 0, 0.0)
  {
    MulZero(1.0 + c.jitter);
    hide Mul;
  }

  lemma Accumulate(c: Config, k: nat, rnd: real, waited: real)
    requires Positive(c) && 0.0 <= rnd < 1.0 && Bounded(c, k, waited)
    ensures Bounded(c, k + 1, waited + Backoff(c, k, rnd) as real)
  {
    BackoffBound(c, k, rnd);
    CappedBound(c, k);
    var j := 1.0 + c.jitter;
    MulMono(j, Capped(c, k), c.maxDelay as real);
    MulMono(j, Capped(c, k), Raw(c, k));
    MulAdd(j, CapSum(c, k), c.maxDelay as real);
    MulAdd(j, RawSum(c, k), Raw(c, k));
    hide Mul, Capped, Raw, Backoff;
  }

  lemma Shorter(c: Config, k: nat, less: real, waited: real)
    requires less <= waited && Bounded(c, k, waited)
    ensures Bounded(c, k, less)
  {
  }

  lemma {:induction false} SumsGrow(c: Config, k: nat, n: nat)
    requires Positive(c) && k <= n
    ensures RawSum(c, k) <= RawSum(c, n) && CapSum(c, k) <= CapSum(c, n)
    decreases n - k
  {
    hide Raw;
    if k < n {
      CappedBound(c, n - 1);
      SumsGrow(c, k, n - 1);
    }
  }

  lemma {:induction false} CapSumIs(c: Config, k: nat)
    ensures CapSum(c, k) == Mul(k as real, c.maxDelay as real)
  {
    if k == 0 {
    } else {
      CapSumIs(c, k - 1);
    }
  }

  lemma GeometricStep(b: real, p: real, m: real, r: real)
    requires Mul(r, m - 1.0) == Mul(b, p - 1.0)
    ensures Mul(r + Mul(b, p), m - 1.0) == Mul(b, m * p - 1.0)
  {
    var q := b * p;
    assert (r + q) * (m - 1.0) == r * (m - 1.0) + q * (m - 1.0);
    assert b * (p - 1.0) == q - b;
    assert q * (m - 1.0) == q * m - q;
    assert b * (m * p - 1.0) == b * (m * p) - b;
    assert b * (m * p) == q * m;
  }

  /** The geometric sum, multiplied out. */
  lemma {:induction false} RawSumIs(c: Config, k: nat)
    ensures Mul(RawSum(c, k), c.multiplier - 1.0) == Mul(c.baseDelay as real, Pow(c.multiplier, k) - 1.0)
  {
    if k == 0 {
    } else {
      RawSumIs(c, k - 1);
      hide Mul;
      GeometricStep(c.baseDelay as real, Pow(c.multiplier, k - 1), c.multiplier, RawSum(c, k - 1));
    }
  }

  /** At most (1+J) times (n-1)*MaxDelay and, for M > 1, (1+J) times BaseDelay*(M^(n-1)-1)/(M-1). */
  predicate WithinBounds(c: Config, waited: real)
    requires c.maxAttempts > 0
  {
    && waited <= Mul(1.0 + c.jitter, Mul((c.maxAttempts - 1) as real, c.maxDelay as real))
    && (c.multiplier > 1.0 ==>
          waited <= Mul(1.0 + c.jitter,
              Mul(c.baseDelay as real, Pow(c.multiplier, c.maxAttempts - 1) - 1.0) / (c.multiplier - 1.0)))
  }

  lemma Quotient(r: real, d: real, x: real)
    requires Mul(r, d) == x && d > 0.0
    ensures r == x / d
  {
    assert (r * d) / d == r;
  }

  /** Fewer delays than the limit allows stay within the bounds for the limit. */
  lemma Widen(c: Config, k: nat, waited: real)
    requires Positive(c) && k <= c.maxAttempts - 1 && Bounded(c, k, waited)
    ensures WithinBounds(c, waited)
  {
    var j, n := 1.0 + c.jitter, c.maxAttempts - 1;
    SumsGrow(c, k, n);
    MulMono(j, CapSum(c, k), CapSum(c, n));
    MulMono(j, RawSum(c, k), RawSum(c, n));
    CapSumIs(c, n);
    RawSumIs(c, n);
    hide Mul, RawSum, CapSum, Pow;
    if c.multiplier > 1.0 {
      Quotient(RawSum(c, n), c.multiplier - 1.0, Mul(c.baseDelay as real, Pow(c.multiplier, n) - 1.0));
    }
  }

  /** The back-offs from the j-th up to the k-th, added up. */
  function DelaysFrom(c: Config, rnd: nat -> real, j: nat, k: nat): int
    decreases k - j
  {
    if j >= k then 0 else Backoff(c, j, rnd(j)) + DelaysFrom(c, rnd, j + 1, k)
  }

  lemma {:induction false} DelaysSnoc(c: Config, rnd: nat -> real, j: nat, k: nat)
    requires j <= k
    ensures DelaysFrom(c, rnd, j, k + 1) == DelaysFrom(c, rnd, j, k) + Backoff(c, k, rnd(k))
    decreases k - j
  {
    hide Backoff;
    if j == k {
    } else {
      DelaysSnoc(c, rnd, j + 1, k);
    }
  }

  /** A rate limit, a failed HTTP connection, or an internal error of the server. */
  ghost predicate Passing(o: Outcome) {
    && o.RpcError?
    && (|| o.code == -32603
        || (o.info.Some? && o.info.value.httpStatus == 429)
        || (o.info.Some? && o.info.value.kind == "HttpConnectionFailed"))
  }

  /** What Call returns: the last inner outcome, or the context's error. */
  datatype Result = Finished(last: Outcome) | Cancelled

  /**
   RetryTransport.Call. `outcome(k)` is what the k-th inner call returns, `rnd(k)` the random
   number of its back-off, and `cut(k)` says whether the context ends during that wait and when.
   */
  method Call(cfg: Config, outcome: nat -> Outcome, rnd: nat -> real, cut: nat -> Option<nat>)
      returns (r: Result, calls: nat, waited: int)
    requires forall k :: 0.0 <= rnd(k) < 1.0
    ensures var c := WithDefaults(cfg);
            && 1 <= calls <= c.maxAttempts
            && (r.Cancelled? ==> cut(calls - 1).Some?)
            && waited == DelaysFrom(c, rnd, 0, calls - 1) + (if r.Cancelled? then cut(calls - 1).value else 0)
            && 0 <= waited && WithinBounds(c, waited as real)
            && (r.Cancelled? ==>
                  && calls < c.maxAttempts && Passing(outcome(calls - 1))
                  && cut(calls - 1).value <= Backoff(c, calls - 1, rnd(calls - 1)))
            && (r.Finished? ==>
                r.last == outcome(calls - 1) && (calls == c.maxAttempts || !Passing(outcome(calls - 1))))
    ensures forall k :: 0 <= k < calls - 1 ==>
        Passing(outcome(k)) && (cut(k).Some? ==> cut(k).value > Backoff(WithDefaults(cfg), k, rnd(k)))
  {
    assert forall o :: Retryable(o) <==> Passing(o);
    assert DelaysFrom(WithDefaults(cfg), rnd, 0, 0) == 0;
    hide WithDefaults, Retryable, Passing, DelaysFrom, Bounded, WithinBounds, Backoff, Mul, Pow, RawSum, CapSum;
    var c := WithDefaults(cfg);
    waited := 0;
    var attempt: nat := 0;
    NothingWaited(c);
    while true
      invariant attempt < c.maxAttempts && 0 <= waited
      invariant forall k :: 0 <= k < attempt ==>
          Retryable(outcome(k)) && (cut(k).Some? ==> cut(k).value > Backoff(c, k, rnd(k)))
      invariant waited == DelaysFrom(c, rnd, 0, attempt) && Bounded(c, attempt, waited as real)
      decreases c.maxAttempts - attempt
    {
      calls := attempt + 1;
      var o := outcome(attempt);
      if !Retryable(o) || attempt == c.maxAttempts - 1 {
        Widen(c, attempt, waited as real);
        return Finished(o), calls, waited;
      }
      BackoffBound(c, attempt, rnd(attempt));
      DelaysSnoc(c, rnd, 0, attempt);
      Accumulate(c, attempt, rnd(attempt), waited as real);
      var delay := Backoff(c, attempt, rnd(attempt));
      if cut(attempt).Some? && cut(attempt).value <= delay {
        Shorter(c, attempt + 1, (waited + cut(attempt).value) as real, (waited + delay) as real);
        Widen(c, attempt + 1, (waited + cut(attempt).value) as real);
        waited := waited + cut(attempt).value;
        return Cancelled, calls, waited;
      }
      waited := waited + delay;
      attempt := attempt + 1;
    }
  }
}
