/** The retry loop with exponential backoff. The retried closure, the context, the random
    source and the sleeps are scripted, one `Attempt` per turn of the loop. */
module RetryPolicy {
  import opened Common
  import opened Arithmetic

  datatype CallError = Cancelled | DeadlineExceeded | CircuitOpen | Other(code: int)

  // ----- delays: 64-bit durations -----

  const TWO_63 := 0x8000_0000_0000_0000
  const TWO_64 := 0x1_0000_0000_0000_0000

  function Pow2(k: nat): (p: int)
    ensures p >= 1
  {
    if k == 0 then 1 else 2 * Pow2(k - 1)
  }

  function Wrap64(x: int): (r: int)
    ensures -TWO_63 <= r < TWO_63
  {
    (x + TWO_63) % TWO_64 - TWO_63
  }

  /** A left shift of a signed 64-bit duration, one bit at a time: high bits are lost. */
  function ShiftLeft(d: int, k: nat): int { if k == 0 then Wrap64(d) else Wrap64(2 * ShiftLeft(d, k - 1)) }

  lemma {:induction false} WrapShift(x: int, m: int)
    ensures Wrap64(x + m * TWO_64) == Wrap64(x)
  {
    DivShift(x + TWO_63, TWO_64, m);
  }

  lemma {:induction false} WrapDouble(x: int)
    ensures Wrap64(2 * Wrap64(x)) == Wrap64(2 * x)
  {
    var q := (x + TWO_63) / TWO_64;
    assert Wrap64(x) == x - q * TWO_64;
    WrapShift(2 * x, -2 * q);
  }

  /** Shifting is multiplying by a power of two, modulo 2^64. */
  lemma {:induction false} ShiftIsMul(d: int, k: nat)
    ensures ShiftLeft(d, k) == Wrap64(d * Pow2(k))
  {
    if k > 0 {
      ShiftIsMul(d, k - 1);
      WrapDouble(d * Pow2(k - 1));
      DoublePower(d, k);
    }
  }

  lemma {:induction false} DoublePower(d: int, k: nat)
    requires k > 0
    ensures 2 * (d * Pow2(k - 1)) == d * Pow2(k)
  {
    Distribute(Pow2(k - 1), Pow2(k - 1), d);
  }

  /** The default jitter; `noise` stands for the random source. */
  function DefaultJitter(d: int, noise: nat): int {
    if d <= 0 then 0 else var half := d / 2; half + noise % (half + 1)
  }

  lemma {:induction false} DefaultJitterBounds(d: int, noise: nat)
    ensures d > 0 ==> d / 2 <= DefaultJitter(d, noise) <= d
    ensures d <= 0 ==> DefaultJitter(d, noise) == 0
  {
    if d > 0 {
      assert 0 <= noise % (d / 2 + 1) <= d / 2;
    }
  }

  datatype Policy = Policy(
    maxAttempts: int, baseDelay: int, maxDelay: int,
    jitter: (int, nat) -> int, shouldRetry: CallError -> bool)
  {
    function Attempts(): int { Max(1, maxAttempts) }

    /** The delay before jitter, after the `attempt`-th failure. */
    function RawDelay(attempt: nat): int
      requires attempt >= 1
    {
      var delay := if baseDelay > 0 then ShiftLeft(baseDelay, attempt - 1) else baseDelay;
      if maxDelay > 0 && delay > maxDelay then maxDelay else delay
    }

    function Delay(attempt: nat, noise: nat): int
      requires attempt >= 1
    {
      jitter(RawDelay(attempt), noise)
    }
  }

  /** The policy used when no `ShouldRetry` is given. */
  function DefaultShouldRetry(e: CallError): bool { e.Other? }

  /** What happens at one turn: the context may have ended, the closure ends in `outcome`,
      and the sleep after it may be cut short. */
  datatype Attempt = Attempt(cancelled: Option<CallError>, outcome: Option<CallError>, noise: nat, sleepError: Option<CallError>)

  /** One turn: whether the loop stops with `err`, whether the closure was called, and the
      sleep requested after it. */
  datatype Step = Step(stop: bool, err: Option<CallError>, called: bool, slept: seq<int>)

  function TurnAt(p: Policy, script: nat -> Attempt, attempt: nat): Step
    requires attempt >= 1
  {
    var turn := script(attempt);
    if turn.cancelled.Some? then Step(true, turn.cancelled, false, [])
    else if turn.outcome.None? || attempt >= p.Attempts() || !p.shouldRetry(turn.outcome.value)
    then Step(true, turn.outcome, true, [])
    else
      var delay := p.Delay(attempt, turn.noise);
      var slept := if delay > 0 then [delay] else [];
      Step(delay > 0 && turn.sleepError.Some?, turn.sleepError, true, slept)
  }

  /** From the given attempt on: the result, the number of calls, and the sleeps requested. */
  function RetryFrom(p: Policy, script: nat -> Attempt, attempt: nat): (Option<CallError>, nat, seq<int>)
    requires 1 <= attempt <= p.Attempts()
    decreases p.Attempts() - attempt
  {
    var step := TurnAt(p, script, attempt);
    if step.stop then (step.err, if step.called then 1 else 0, step.slept)
    else
      var (err, calls, sleeps) := RetryFrom(p, script, attempt + 1);
      (err, 1 + calls, step.slept + sleeps)
  }

  /** The sleeps of the turns before `n`, in order. */
  function SleptBefore(p: Policy, script: nat -> Attempt, n: nat): seq<int>
    requires n >= 1
  {
    if n == 1 then [] else SleptBefore(p, script, n - 1) + TurnAt(p, script, n - 1).slept
  }

  /** Nothing stops before turn `n`. */
  ghost predicate RunsTo(p: Policy, script: nat -> Attempt, n: nat) {
    1 <= n <= p.Attempts() && forall i :: 1 <= i < n ==> !TurnAt(p, script, i).stop
  }

  /** The loop's view: turns up to the one that stops, against the recursive view. */
  lemma {:induction false} Unrolled(p: Policy, script: nat -> Attempt, n: nat)
    requires RunsTo(p, script, n)
    ensures var all, rest := RetryFrom(p, script, 1), RetryFrom(p, script, n);
            all.0 == rest.0 && all.1 == n - 1 + rest.1 && all.2 == SleptBefore(p, script, n) + rest.2
  {
    if n > 1 {
      Unrolled(p, script, n - 1);
      assert !TurnAt(p, script, n - 1).stop;
      var a, b, c := SleptBefore(p, script, n - 1), TurnAt(p, script, n - 1).slept, RetryFrom(p, script, n).2;
      assert (a + b) + c == a + (b + c);
    } else {
      assert [] + RetryFrom(p, script, 1).2 == RetryFrom(p, script, 1).2;
    }
  }

  /** The loop ends at the first turn that stops. */
  lemma {:induction false} StopsAt(p: Policy, script: nat -> Attempt, n: nat)
    requires RunsTo(p, script, n) && TurnAt(p, script, n).stop
    ensures var step := TurnAt(p, script, n);
            RetryFrom(p, script, 1) == (step.err, if step.called then n else n - 1, SleptBefore(p, script, n) + step.slept)
  {
    Unrolled(p, script, n);
  }

  /** The last attempt always stops. */
  lemma {:induction false} GoesOn(p: Policy, script: nat -> Attempt, n: nat)
    requires RunsTo(p, script, n) && !TurnAt(p, script, n).stop
    ensures RunsTo(p, script, n + 1) && TurnAt(p, script, n).called
  {
  }

  /** `Do`: the loop always returns from inside, so nothing follows it. */
  method Do(p: Policy, script: nat -> Attempt) returns (err: Option<CallError>, calls: nat, sleeps: seq<int>)
    ensures (err, calls, sleeps) == RetryFrom(p, script, 1)
  {
    var attempts := if p.maxAttempts < 1 then 1 else p.maxAttempts;
    var attempt := 1;
    calls, sleeps := 0, [];
    while true
      invariant attempts == p.Attempts() && calls == attempt - 1
      invariant RunsTo(p, script, attempt) && sleeps == SleptBefore(p, script, attempt)
      decreases attempts - attempt
    {
      if TurnAt(p, script, attempt).stop { StopsAt(p, script, attempt); } else { GoesOn(p, script, attempt); }
      assert sleeps + [] == sleeps;
      var turn := script(attempt);
      if turn.cancelled.Some? { return turn.cancelled, calls, sleeps; }
      calls := calls + 1;
      if turn.outcome.None? { return None, calls, sleeps; }
      if attempt == attempts || !p.shouldRetry(turn.outcome.value) { return turn.outcome, calls, sleeps; }
      var delay := p.baseDelay;
      if delay > 0 { delay := ShiftLeft(delay, attempt - 1); }
      if p.maxDelay > 0 && delay > p.maxDelay { delay := p.maxDelay; }
      delay := p.jitter(delay, turn.noise);
      if delay > 0 {
        sleeps := sleeps + [delay];
        if turn.sleepError.Some? { return turn.sleepError, calls, sleeps; }
      }
      attempt := attempt + 1;
    }
  }

  // ----- when it succeeds, and how often it calls -----

  /** Turn `i` calls the closure, which fails retryably, and the sleep is not cut short. */
  ghost predicate Retried(p: Policy, script: nat -> Attempt, i: nat)
    requires i >= 1
  {
    && script(i).cancelled.None? && script(i).outcome.Some? && p.shouldRetry(script(i).outcome.value)
    && (p.Delay(i, script(i).noise) > 0 ==> script(i).sleepError.None?)
  }

  lemma {:induction false} RetryOutcome(p: Policy, script: nat -> Attempt, attempt: nat)
    requires 1 <= attempt <= p.Attempts()
    ensures var (err, calls, _) := RetryFrom(p, script, attempt); var last := attempt + calls - 1;
            && last <= p.Attempts()
            && (forall i :: attempt <= i < last ==> Retried(p, script, i))
            && (err.None? <==> calls >= 1 && script(last).cancelled.None? && script(last).outcome.None?)
    decreases p.Attempts() - attempt
  {
    var turn := script(attempt);
    if turn.cancelled.None? && turn.outcome.Some? && attempt < p.Attempts() && Retried(p, script, attempt) {
      RetryOutcome(p, script, attempt + 1);
    }
  }

  ghost predicate FirstSuccess(p: Policy, script: nat -> Attempt, n: nat) {
    && n >= 1 && script(n).cancelled.None? && script(n).outcome.None?
    && forall i :: 1 <= i < n ==> Retried(p, script, i)
  }

  lemma {:induction false} SuccessFrom(p: Policy, script: nat -> Attempt, attempt: nat, n: nat)
    requires 1 <= attempt <= n <= p.Attempts() && FirstSuccess(p, script, n)
    ensures RetryFrom(p, script, attempt).0.None? && RetryFrom(p, script, attempt).1 == n - attempt + 1
    decreases n - attempt
  {
    if attempt < n {
      assert Retried(p, script, attempt);
      SuccessFrom(p, script, attempt + 1, n);
    }
  }

  /** `Do` answers nil exactly when some call returned nil and every earlier turn was
      retried; that call is then its last, and it never makes more than
      `max(1, MaxAttempts)` calls. */
  lemma {:induction false} SucceedsExactly(p: Policy, script: nat -> Attempt)
    ensures var (err, calls, _) := RetryFrom(p, script, 1);
            && calls <= Max(1, p.maxAttempts)
            && (err.None? <==> exists n :: 1 <= n <= Max(1, p.maxAttempts) && FirstSuccess(p, script, n))
            && (err.None? ==> FirstSuccess(p, script, calls))
  {
    RetryOutcome(p, script, 1);
    var (err, calls, _) := RetryFrom(p, script, 1);
    if err.None? {
      assert 1 + calls - 1 == calls;
      assert FirstSuccess(p, script, calls);
    }
    if n :| 1 <= n <= p.Attempts() && FirstSuccess(p, script, n) {
      SuccessFrom(p, script, 1, n);
    }
  }

  // ----- what it answers -----

  /** Turns `1 .. n - 1` called the closure, which failed retryably, and slept in full. */
  ghost predicate Reaches(p: Policy, script: nat -> Attempt, n: nat) {
    1 <= n <= Max(1, p.maxAttempts) && forall i :: 1 <= i < n ==> Retried(p, script, i)
  }

  lemma {:induction false} ReachesRuns(p: Policy, script: nat -> Attempt, n: nat)
    requires Reaches(p, script, n)
    ensures RunsTo(p, script, n)
  {
    forall i | 1 <= i < n ensures !TurnAt(p, script, i).stop {
      assert Retried(p, script, i);
    }
  }

  /** What ends the loop at turn `n`: the context, a success, an error that is not retried or
      met at the last attempt, or a sleep cut short. */
  lemma {:induction false} AnswersExactly(p: Policy, script: nat -> Attempt, n: nat)
    requires Reaches(p, script, n)
    ensures var turn := script(n); var (err, calls, _) := RetryFrom(p, script, 1);
            if turn.cancelled.Some? then err == turn.cancelled && calls == n - 1
            else if turn.outcome.None? || n == Max(1, p.maxAttempts) || !p.shouldRetry(turn.outcome.value)
            then err == turn.outcome && calls == n
            else if !Retried(p, script, n) then err == turn.sleepError && calls == n
            else Reaches(p, script, n + 1)
  {
    ReachesRuns(p, script, n);
    if TurnAt(p, script, n).stop { StopsAt(p, script, n); } else { assert Retried(p, script, n); }
  }

  /** A retry under the default policy: the closure failed with a plain error, the context had
      not ended before, and the sleep after it was not cut short. */
  ghost predicate PlainFailure(p: Policy, script: nat -> Attempt, i: nat)
    requires i >= 1
  {
    && script(i).cancelled.None? && script(i).outcome.Some? && script(i).outcome.value.Other?
    && (p.Delay(i, script(i).noise) > 0 ==> script(i).sleepError.None?)
  }

  /** Under the default policy `Do` answers nil exactly when some attempt succeeded and all
      before it failed plainly. */
  lemma {:induction false} DefaultSucceedsExactly(p: Policy, script: nat -> Attempt)
    requires p.shouldRetry == DefaultShouldRetry
    ensures RetryFrom(p, script, 1).0.None? <==>
            exists n :: 1 <= n <= Max(1, p.maxAttempts) && script(n).cancelled.None? && script(n).outcome.None?
                        && forall i :: 1 <= i < n ==> PlainFailure(p, script, i)
  {
    SucceedsExactly(p, script);
    if n :| 1 <= n <= Max(1, p.maxAttempts) && FirstSuccess(p, script, n) {
      assert forall i :: 1 <= i < n ==> Retried(p, script, i) ==> PlainFailure(p, script, i);
    }
    if n :| 1 <= n <= Max(1, p.maxAttempts) && script(n).cancelled.None? && script(n).outcome.None?
            && forall i :: 1 <= i < n ==> PlainFailure(p, script, i) {
      assert forall i :: 1 <= i < n ==> PlainFailure(p, script, i) ==> Retried(p, script, i);
      assert FirstSuccess(p, script, n);
    }
  }

  /** And an attempt that it reaches and that ends in the context's errors or the breaker's is
      the last, with that error as the answer. */
  lemma {:induction false} DefaultStopsAt(p: Policy, script: nat -> Attempt, n: nat)
    requires p.shouldRetry == DefaultShouldRetry
    requires 1 <= n <= Max(1, p.maxAttempts) && forall i :: 1 <= i < n ==> PlainFailure(p, script, i)
    requires script(n).cancelled.None? && script(n).outcome in {Some(Cancelled), Some(DeadlineExceeded), Some(CircuitOpen)}
    ensures RetryFrom(p, script, 1).0 == script(n).outcome && RetryFrom(p, script, 1).1 == n
  {
    assert forall i :: 1 <= i < n ==> PlainFailure(p, script, i) ==> Retried(p, script, i);
    AnswersExactly(p, script, n);
  }

  /** While a plain error before the last attempt never is. */
  lemma {:induction false} DefaultGoesOn(p: Policy, script: nat -> Attempt, n: nat)
    requires p.shouldRetry == DefaultShouldRetry
    requires 1 <= n < Max(1, p.maxAttempts) && (forall i :: 1 <= i <= n ==> PlainFailure(p, script, i))
    requires script(n + 1).cancelled.None?
    ensures RetryFrom(p, script, 1).1 > n
  {
    assert forall i :: 1 <= i <= n ==> PlainFailure(p, script, i) ==> Retried(p, script, i);
    AnswersExactly(p, script, n + 1);
    RetryOutcome(p, script, 1);
    if RetryFrom(p, script, 1).1 <= n {
      ReachesRuns(p, script, n + 1);
      Unrolled(p, script, n + 1);
    }
  }

  // ----- how long it sleeps -----

  /** A jitter that only ever shortens a delay; the default one does. */
  ghost predicate Shortens(jitter: (int, nat) -> int) {
    forall d, noise :: jitter(d, noise) <= Max(0, d)
  }

  lemma {:induction false} DefaultJitterShortens()
    ensures Shortens(DefaultJitter)
  {
    forall d: int, noise: nat ensures DefaultJitter(d, noise) <= Max(0, d) {
      DefaultJitterBounds(d, noise);
    }
  }

  /** With a positive cap no sleep exceeds it, at any attempt, even where the shift wraps. */
  lemma {:induction false} SleepsWithinCap(p: Policy, script: nat -> Attempt, attempt: nat)
    requires 1 <= attempt <= p.Attempts() && p.maxDelay > 0 && Shortens(p.jitter)
    ensures forall d :: d in RetryFrom(p, script, attempt).2 ==> 0 < d <= p.maxDelay
    decreases p.Attempts() - attempt
  {
    assert p.Delay(attempt, script(attempt).noise) <= Max(0, p.RawDelay(attempt));
    if attempt < p.Attempts() {
      SleepsWithinCap(p, script, attempt + 1);
    }
  }

  /** `base` doubled `k` times. */
  function Doubled(base: int, k: nat): int { if k == 0 then base else 2 * Doubled(base, k - 1) }

  lemma {:induction false} DoubledIs(base: int, k: nat)
    ensures Doubled(base, k) == base * Pow2(k)
  {
    if k > 0 {
      DoubledIs(base, k - 1);
      Distribute(Pow2(k - 1), Pow2(k - 1), base);
    }
  }

  lemma {:induction false} DoubledMono(base: int, j: nat, k: nat)
    requires base >= 0 && j <= k
    ensures 0 <= Doubled(base, j) <= Doubled(base, k)
    decreases j + k
  {
    if j < k {
      DoubledMono(base, j, k - 1);
    } else if j > 0 {
      DoubledMono(base, j - 1, k - 1);
    }
  }

  /** While nothing overflows, shifting is doubling. */
  lemma {:induction false} ShiftIsDoubling(d: int, k: nat)
    requires d >= 0 && Doubled(d, k) < TWO_63
    ensures ShiftLeft(d, k) == Doubled(d, k)
  {
    DoubledMono(d, k, k);
    if k > 0 {
      DoubledMono(d, k - 1, k);
      ShiftIsDoubling(d, k - 1);
    }
  }

  lemma {:induction false} RawDelayBounds(p: Policy, attempt: nat)
    requires attempt >= 1 && p.baseDelay >= 0
    ensures Doubled(p.baseDelay, attempt - 1) < TWO_63 ==> p.RawDelay(attempt) <= Doubled(p.baseDelay, attempt - 1)
  {
    DoubledMono(p.baseDelay, attempt - 1, attempt - 1);
    if Doubled(p.baseDelay, attempt - 1) < TWO_63 {
      ShiftIsDoubling(p.baseDelay, attempt - 1);
    }
  }

  /** A turn sleeps no longer than its delay before jitter, and not at all at the last one. */
  lemma {:induction false} OneSleep(p: Policy, script: nat -> Attempt, attempt: nat, rest: seq<int>)
    requires attempt >= 1 && Shortens(p.jitter)
    ensures var slept := TurnAt(p, script, attempt).slept;
            Sum(slept + rest) == Sum(slept) + Sum(rest) && slept + [] == slept
            && 0 <= Sum(slept) <= Max(0, p.RawDelay(attempt))
  {
    var delay := p.Delay(attempt, script(attempt).noise);
    assert delay <= Max(0, p.RawDelay(attempt));
    assert ([delay] + rest)[1..] == rest && [] + rest == rest && [delay][1..] == [];
  }

  /** The sleeps from one turn on: none at the last, else its own and those that follow. */
  lemma {:induction false} SleepsFrom(p: Policy, script: nat -> Attempt, attempt: nat)
    requires 1 <= attempt <= p.Attempts() && Shortens(p.jitter)
    ensures Sum(RetryFrom(p, script, attempt).2) <=
            if attempt == p.Attempts() then 0
            else Max(0, p.RawDelay(attempt)) + Max(0, Sum(RetryFrom(p, script, attempt + 1).2))
  {
    if attempt < p.Attempts() {
      OneSleep(p, script, attempt, RetryFrom(p, script, attempt + 1).2);
    }
  }

  lemma {:induction false} BackoffStep(p: Policy, script: nat -> Attempt, attempt: nat)
    requires 1 <= attempt < p.Attempts() && p.baseDelay >= 0 && Shortens(p.jitter)
    requires Doubled(p.baseDelay, attempt - 1) < TWO_63
    ensures Sum(RetryFrom(p, script, attempt).2) <= Doubled(p.baseDelay, attempt - 1) + Max(0, Sum(RetryFrom(p, script, attempt + 1).2))
  {
    SleepsFrom(p, script, attempt);
    RawDelayBounds(p, attempt);
    DoubledMono(p.baseDelay, attempt - 1, attempt - 1);
  }

  lemma {:induction false} BackoffFrom(p: Policy, script: nat -> Attempt, attempt: nat)
    requires 1 <= attempt <= p.Attempts() && p.baseDelay >= 0 && Shortens(p.jitter)
    requires p.Attempts() >= 2 ==> Doubled(p.baseDelay, p.Attempts() - 2) < TWO_63
    ensures Sum(RetryFrom(p, script, attempt).2) <= Doubled(p.baseDelay, p.Attempts() - 1) - Doubled(p.baseDelay, attempt - 1)
    decreases p.Attempts() - attempt
  {
    if attempt < p.Attempts() {
      BackoffFrom(p, script, attempt + 1);
      DoubledMono(p.baseDelay, attempt, p.Attempts() - 1);
      DoubledMono(p.baseDelay, attempt - 1, p.Attempts() - 2);
      BackoffStep(p, script, attempt);
      assert Doubled(p.baseDelay, attempt) == 2 * Doubled(p.baseDelay, attempt - 1);
    } else {
      SleepsFrom(p, script, attempt);
    }
  }

  lemma {:induction false} LessOne(b: int, x: int)
    ensures b * (x - 1) == b * x - b
  {
  }

  /** Backoff total: while the longest delay, the one before the last attempt, does not
      overflow, all sleeps of one `Do` with `n` attempts add up to at most
      `BaseDelay * (2^(n - 1) - 1)`. */
  lemma {:induction false} BackoffTotal(p: Policy, script: nat -> Attempt)
    requires p.baseDelay >= 0 && Shortens(p.jitter)
    requires p.Attempts() >= 2 ==> p.baseDelay * Pow2(p.Attempts() - 2) < TWO_63
    ensures Sum(RetryFrom(p, script, 1).2) <= p.baseDelay * (Pow2(p.Attempts() - 1) - 1)
  {
    var n := p.Attempts();
    DoubledIs(p.baseDelay, n - 1);
    if n >= 2 { DoubledIs(p.baseDelay, n - 2); }
    BackoffFrom(p, script, 1);
    LessOne(p.baseDelay, Pow2(n - 1));
    assert Doubled(p.baseDelay, 0) == p.baseDelay;
  }

  lemma {:induction false} CappedSleeps(p: Policy, script: nat -> Attempt, attempt: nat)
    requires 1 <= attempt < p.Attempts() && p.maxDelay > 0 && Shortens(p.jitter)
    ensures Sum(RetryFrom(p, script, attempt).2) <= p.maxDelay + Max(0, Sum(RetryFrom(p, script, attempt + 1).2))
  {
    SleepsFrom(p, script, attempt);
  }

  lemma {:induction false} CappedFrom(p: Policy, script: nat -> Attempt, attempt: nat)
    requires 1 <= attempt <= p.Attempts() && p.maxDelay > 0 && Shortens(p.jitter)
    ensures Sum(RetryFrom(p, script, attempt).2) <= Grid(p.maxDelay, p.Attempts() - attempt)
    decreases p.Attempts() - attempt
  {
    if attempt < p.Attempts() {
      CappedFrom(p, script, attempt + 1);
      GridMono(p.maxDelay, 0, p.Attempts() - attempt - 1);
      CappedSleeps(p, script, attempt);
    } else {
      SleepsFrom(p, script, attempt);
    }
  }

  /** With a cap, the sleeps of `n` attempts add up to at most `(n - 1) * MaxDelay`,
      overflow or not. */
  lemma {:induction false} CappedTotal(p: Policy, script: nat -> Attempt)
    requires p.maxDelay > 0 && Shortens(p.jitter)
    ensures Sum(RetryFrom(p, script, 1).2) <= (p.Attempts() - 1) * p.maxDelay
  {
    CappedFrom(p, script, 1);
    GridIs(p.maxDelay, p.Attempts() - 1);
  }

  // ----- exactly how long it sleeps -----

  /** The backoff after the k-th failure: the base delay doubled `k - 1` times, and no more than
      a cap that is set. */
  function Backoff(p: Policy, k: nat): int
    requires k >= 1
  {
    var delay := p.baseDelay * Pow2(k - 1);
    if p.maxDelay > 0 then Min(delay, p.maxDelay) else delay
  }

  lemma {:induction false} DelayIsBackoff(p: Policy, k: nat, noise: nat)
    requires k >= 1 && p.baseDelay > 0 && p.baseDelay * Pow2(k - 1) < TWO_63
    ensures p.Delay(k, noise) == p.jitter(Backoff(p, k), noise)
  {
    DoubledIs(p.baseDelay, k - 1);
    var d := Doubled(p.baseDelay, k - 1);
    assert d < TWO_63;
    ShiftIsDoubling(p.baseDelay, k - 1);
    assert ShiftLeft(p.baseDelay, k - 1) == d;
  }

  /** In general, overflow or not: the doubled delay wraps as a 64-bit number does, the cap
      applies to what is left, and a delay that is not positive is not doubled. */
  lemma {:induction false} DelayWraps(p: Policy, k: nat, noise: nat)
    requires k >= 1
    ensures var delay := if p.baseDelay > 0 then Wrap64(p.baseDelay * Pow2(k - 1)) else p.baseDelay;
            p.Delay(k, noise) == p.jitter(if p.maxDelay > 0 then Min(delay, p.maxDelay) else delay, noise)
  {
    ShiftIsMul(p.baseDelay, k - 1);
  }

  /** Turn `i` calls the closure, which fails retryably, and its sleep would not be cut short. */
  ghost predicate Fails(p: Policy, script: nat -> Attempt, i: nat)
    requires i >= 1
  {
    && script(i).cancelled.None? && script(i).outcome.Some? && p.shouldRetry(script(i).outcome.value)
    && script(i).sleepError.None?
  }

  /** The i-th failure is backed off without overflow, by a sleep that is not empty. */
  ghost predicate BacksOffAt(p: Policy, script: nat -> Attempt, i: nat)
    requires i >= 1
  {
    Fails(p, script, i) && p.baseDelay * Pow2(i - 1) < TWO_63 && p.jitter(Backoff(p, i), script(i).noise) > 0
  }

  /** So are the first `k`. */
  ghost predicate BacksOff(p: Policy, script: nat -> Attempt, k: nat) {
    k < Max(1, p.maxAttempts) && p.baseDelay > 0 && forall i :: 1 <= i <= k ==> BacksOffAt(p, script, i)
  }

  lemma {:induction false} SleptExactly(p: Policy, script: nat -> Attempt, k: nat)
    requires BacksOff(p, script, k)
    ensures Reaches(p, script, k + 1) && |SleptBefore(p, script, k + 1)| == k
    ensures forall i :: 1 <= i <= k ==> SleptBefore(p, script, k + 1)[i - 1] == p.jitter(Backoff(p, i), script(i).noise)
  {
    if k > 0 {
      SleptExactly(p, script, k - 1);
      assert BacksOffAt(p, script, k);
      DelayIsBackoff(p, k, script(k).noise);
    }
  }

  /** The backoff is exponential: the sleep after the i-th failure is the jitter of
      `BaseDelay * 2^(i - 1)`, or of the cap if that is less. */
  lemma {:induction false} SleepsExactly(p: Policy, script: nat -> Attempt, k: nat)
    requires BacksOff(p, script, k)
    ensures var sleeps := RetryFrom(p, script, 1).2;
            && |sleeps| >= k
            && forall i :: 1 <= i <= k ==> sleeps[i - 1] == p.jitter(Backoff(p, i), script(i).noise)
  {
    SleptExactly(p, script, k);
    ReachesRuns(p, script, k + 1);
    Unrolled(p, script, k + 1);
  }

  /** With the default jitter each sleep is between half of that and all of it. */
  lemma {:induction false} DefaultSleeps(p: Policy, script: nat -> Attempt, k: nat)
    requires p.jitter == DefaultJitter && BacksOff(p, script, k)
    ensures var sleeps := RetryFrom(p, script, 1).2;
            && |sleeps| >= k
            && forall i :: 1 <= i <= k ==> Backoff(p, i) / 2 <= sleeps[i - 1] <= Backoff(p, i)
  {
    SleepsExactly(p, script, k);
    forall i | 1 <= i <= k
      ensures Backoff(p, i) / 2 <= DefaultJitter(Backoff(p, i), script(i).noise) <= Backoff(p, i)
    {
      assert BacksOffAt(p, script, i);
      DefaultJitterBounds(Backoff(p, i), script(i).noise);
    }
  }

  /** The default jitter gives every delay from half the given one to twice that half, and no
      other. */
  lemma {:induction false} DefaultJitterReaches(d: int, delay: int)
    requires d > 0
    ensures (exists noise :: DefaultJitter(d, noise) == delay) <==> d / 2 <= delay <= d / 2 + d / 2
  {
    if d / 2 <= delay <= d / 2 + d / 2 {
      var noise: nat := delay - d / 2;
      assert noise % (d / 2 + 1) == noise;
      assert DefaultJitter(d, noise) == delay;
    }
  }

  /** A jitter that leaves positive delays alone. */
  ghost predicate NoJitter(jitter: (int, nat) -> int) {
    forall d, noise :: d > 0 ==> jitter(d, noise) == d
  }

  lemma {:induction false} BackoffIsDoubled(p: Policy, k: nat)
    requires k >= 1 && p.maxDelay <= 0
    ensures Backoff(p, k) == Doubled(p.baseDelay, k - 1)
  {
    DoubledIs(p.baseDelay, k - 1);
  }

  /** The sleep after the k-th failure, without a cap or a jitter. */
  lemma {:induction false} PlainSleep(p: Policy, script: nat -> Attempt, k: nat)
    requires k >= 1 && BacksOff(p, script, k) && NoJitter(p.jitter) && p.maxDelay <= 0
    ensures TurnAt(p, script, k).slept == [Doubled(p.baseDelay, k - 1)]
  {
    assert BacksOffAt(p, script, k);
    DelayIsBackoff(p, k, script(k).noise);
    BackoffIsDoubled(p, k);
    DoubledMono(p.baseDelay, 0, k - 1);
  }

  lemma {:induction false} SumsToBackoff(p: Policy, script: nat -> Attempt, k: nat)
    requires BacksOff(p, script, k) && NoJitter(p.jitter) && p.maxDelay <= 0
    ensures Sum(SleptBefore(p, script, k + 1)) == Doubled(p.baseDelay, k) - p.baseDelay
  {
    if k > 0 {
      SumsToBackoff(p, script, k - 1);
      PlainSleep(p, script, k);
      var d := Doubled(p.baseDelay, k - 1);
      SumAppend(SleptBefore(p, script, k), [d]);
      assert Sum([d]) == d by { assert [d][1..] == []; }
    }
  }

  lemma {:induction false} AllSleeps(p: Policy, script: nat -> Attempt, n: nat)
    requires n == Max(1, p.maxAttempts) && Reaches(p, script, n)
    ensures RetryFrom(p, script, 1).2 == SleptBefore(p, script, n)
  {
    ReachesRuns(p, script, n);
    Unrolled(p, script, n);
    assert RetryFrom(p, script, n).2 == [];
    assert SleptBefore(p, script, n) + [] == SleptBefore(p, script, n);
  }

  lemma {:induction false} DoubledLess(base: int, k: nat)
    ensures Doubled(base, k) - base == base * (Pow2(k) - 1)
  {
    DoubledIs(base, k);
    LessOne(base, Pow2(k));
  }

  lemma {:induction false} BackoffSum(p: Policy, script: nat -> Attempt, k: nat)
    requires k == Max(1, p.maxAttempts) - 1 && BacksOff(p, script, k) && NoJitter(p.jitter) && p.maxDelay <= 0
    ensures Sum(RetryFrom(p, script, 1).2) == Doubled(p.baseDelay, k) - p.baseDelay
  {
    SleptExactly(p, script, k);
    AllSleeps(p, script, k + 1);
    SumsToBackoff(p, script, k);
  }

  /** Without a cap or a jitter, `n` attempts that all fail retryably sleep for exactly
      `BaseDelay * (2^(n - 1) - 1)` in all. */
  lemma {:induction false} BackoffExactly(p: Policy, script: nat -> Attempt)
    requires BacksOff(p, script, Max(1, p.maxAttempts) - 1) && NoJitter(p.jitter) && p.maxDelay <= 0
    ensures Sum(RetryFrom(p, script, 1).2) == p.baseDelay * (Pow2(Max(1, p.maxAttempts) - 1) - 1)
  {
    BackoffSum(p, script, Max(1, p.maxAttempts) - 1);
    DoubledLess(p.baseDelay, Max(1, p.maxAttempts) - 1);
  }
}
