/** One reliable client: retry around limiter around breaker around the base call. The
    payment and the driver client share this composition. */
module ReliableClient {
  import opened Common
  import TB = TokenBucket
  import RL = RateLimiter
  import CB = CircuitBreaker
  import opened RetryPolicy

  /** One turn of the retry loop: the context check and the backoff as in `RetryPolicy`,
      the script of the limiter's `Wait` (with other callers' polls) and the error it would
      return, and the guarded call: the breaker sections that other calls run since this
      call's last one, its clock reading, the sections they run during the base call, and how
      that ends. */
  datatype Turn = Turn(
    cancelled: Option<CallError>, rounds: seq<RL.Round>, waitError: CallError,
    meanwhile: seq<CB.Section>, now: int, during: seq<CB.Section>, outcome: Option<CallError>,
    noise: nat, sleepError: Option<CallError>)

  datatype Setup = Setup(limiter: Option<(int, int)>, breaker: Option<(int, int)>, policy: Policy)

  datatype Guards = Guards(bucket: TB.Bucket, breaker: CB.Breaker)

  /** Tokens granted, base calls made, breaker rejections. */
  datatype Tally = Tally(grants: nat, calls: nat, rejections: nat)

  function Add(a: Tally, b: Tally): Tally {
    Tally(a.grants + b.grants, a.calls + b.calls, a.rejections + b.rejections)
  }

  /** Whether the limiter lets the attempt pass, and the bucket it leaves. */
  function Pass(limiter: Option<(int, int)>, b: TB.Bucket, turn: Turn): (bool, TB.Bucket) {
    match limiter
    case None => (true, b)
    case Some((rate, burst)) =>
      if rate <= 0 || burst <= 0 then (turn.rounds == [] || !turn.rounds[0].cancelled, b)
      else
        var (b', outcome, _) := RL.WaitFrom(rate, burst, b, turn.rounds);
        (outcome == RL.Granted, b')
  }

  /** Whether attempts are limited at all. */
  predicate Limited(limiter: Option<(int, int)>) {
    limiter.Some? && limiter.value.0 > 0 && limiter.value.1 > 0
  }

  /** One attempt: the guards it leaves, its error, and what it used. */
  function AttemptOnce(setup: Setup, g: Guards, turn: Turn): (Guards, Option<CallError>, Tally) {
    var (passed, bucket) := Pass(setup.limiter, g.bucket, turn);
    if !passed then (g.(bucket := bucket), Some(turn.waitError), Tally(0, 0, 0))
    else
      var token := if Limited(setup.limiter) then 1 else 0;
      match setup.breaker
      case None => (g.(bucket := bucket), turn.outcome, Tally(token, 1, 0))
      case Some((maxFails, resetAfter)) =>
        var (admitted, b) := CB.Enter(resetAfter, CB.Sections(maxFails, resetAfter, g.breaker, turn.meanwhile), turn.now);
        if !admitted then (Guards(bucket, b), Some(CircuitOpen), Tally(token, 0, 1))
        else
          var after := CB.Exit(maxFails, CB.Sections(maxFails, resetAfter, b, turn.during), turn.now, turn.outcome.None?);
          (Guards(bucket, after), turn.outcome, Tally(token, 1, 0))
  }

  /** One attempt as recorded: the guards around it, its error, and what it used. */
  datatype Mark = Mark(before: Guards, after: Guards, err: Option<CallError>, tally: Tally)

  /** `trail` is what the first attempts of one call did, in order, from guards `g`. */
  ghost predicate IsTrail(setup: Setup, g: Guards, turns: seq<Turn>, trail: seq<Mark>) {
    |trail| <= |turns| &&
    (trail == [] ||
     (var k := |trail| - 1;
      && IsTrail(setup, g, turns, trail[..k])
      && trail[k].before == GuardsAfter(g, trail, k)
      && AttemptOnce(setup, trail[k].before, turns[k]) == (trail[k].after, trail[k].err, trail[k].tally)))
  }

  lemma {:induction false} TrailAt(setup: Setup, g: Guards, turns: seq<Turn>, trail: seq<Mark>, i: nat)
    requires IsTrail(setup, g, turns, trail) && i < |trail|
    ensures trail[i].before == GuardsAfter(g, trail, i)
    ensures AttemptOnce(setup, trail[i].before, turns[i]) == (trail[i].after, trail[i].err, trail[i].tally)
    decreases |trail|
  {
    if i < |trail| - 1 {
      TrailAt(setup, g, turns, trail[..|trail| - 1], i);
    }
  }

  function MarkOf(setup: Setup, before: Guards, turn: Turn): Mark {
    var (after, err, tally) := AttemptOnce(setup, before, turn);
    Mark(before, after, err, tally)
  }

  /** What the turns do from guards `g`, if the loop makes all of them. */
  function Trail(setup: Setup, g: Guards, turns: seq<Turn>): (trail: seq<Mark>)
    ensures |trail| == |turns|
  {
    if turns == [] then []
    else
      var k := |turns| - 1;
      var earlier := Trail(setup, g, turns[..k]);
      earlier + [MarkOf(setup, GuardsAfter(g, earlier, k), turns[k])]
  }

  lemma {:induction false} MoreTurns(setup: Setup, g: Guards, turns: seq<Turn>, more: seq<Turn>, trail: seq<Mark>)
    requires IsTrail(setup, g, turns, trail)
    ensures IsTrail(setup, g, turns + more, trail)
    decreases |trail|
  {
    if trail != [] {
      MoreTurns(setup, g, turns, more, trail[..|trail| - 1]);
    }
  }

  lemma {:induction false} OneMoreMark(setup: Setup, g: Guards, turns: seq<Turn>, trail: seq<Mark>, turn: Turn)
    requires IsTrail(setup, g, turns, trail) && |trail| == |turns|
    ensures IsTrail(setup, g, turns + [turn], trail + [MarkOf(setup, GuardsAfter(g, trail, |trail|), turn)])
  {
    var k := |trail|;
    var longer := trail + [MarkOf(setup, GuardsAfter(g, trail, k), turn)];
    MoreTurns(setup, g, turns, [turn], trail);
    assert longer[..k] == trail;
    assert GuardsAfter(g, longer, k) == GuardsAfter(g, trail, k);
  }

  lemma {:induction false} TrailIsTrail(setup: Setup, g: Guards, turns: seq<Turn>)
    ensures IsTrail(setup, g, turns, Trail(setup, g, turns))
  {
    if turns != [] {
      var k := |turns| - 1;
      TrailIsTrail(setup, g, turns[..k]);
      OneMoreMark(setup, g, turns[..k], Trail(setup, g, turns[..k]), turns[k]);
      assert turns[..k] + [turns[k]] == turns;
    }
  }

  /** Later turns do not change what earlier ones did. */
  lemma {:induction false} TrailPrefix(setup: Setup, g: Guards, turns: seq<Turn>, more: seq<Turn>)
    ensures Trail(setup, g, turns) <= Trail(setup, g, turns + more)
  {
    if more == [] {
      assert turns + more == turns;
    } else {
      var k := |more| - 1;
      assert (turns + more)[..|turns| + k] == turns + more[..k];
      TrailPrefix(setup, g, turns, more[..k]);
    }
  }

  /** The guards once the first `k` attempts of a trail have been made. */
  function GuardsAfter(g: Guards, trail: seq<Mark>, k: nat): Guards
    requires k <= |trail|
  {
    if k == 0 then g else trail[k - 1].after
  }

  function TallyOf(trail: seq<Mark>, k: nat): Tally
    requires k <= |trail|
  {
    if k == 0 then Tally(0, 0, 0) else Add(TallyOf(trail, k - 1), trail[k - 1].tally)
  }

  lemma {:induction false} AddTally(used: Tally, trail: seq<Mark>, k: nat)
    requires k < |trail|
    ensures Add(Add(used, TallyOf(trail, k)), trail[k].tally) == Add(used, TallyOf(trail, k + 1))
  {
  }

  /** `script` is the retry loop's view of the client: `trail[i - 1]` is what its closure
      does at attempt `i`. */
  ghost predicate Scripts(turns: seq<Turn>, trail: seq<Mark>, script: nat -> Attempt) {
    |trail| <= |turns| &&
    forall i :: 1 <= i <= |trail| ==>
      script(i) == Attempt(turns[i - 1].cancelled, trail[i - 1].err, turns[i - 1].noise, turns[i - 1].sleepError)
  }

  function ScriptOf(turns: seq<Turn>, trail: seq<Mark>): (script: nat -> Attempt)
    requires |trail| <= |turns|
    ensures Scripts(turns, trail, script)
  {
    (i: nat) =>
      if 1 <= i <= |trail|
      then Attempt(turns[i - 1].cancelled, trail[i - 1].err, turns[i - 1].noise, turns[i - 1].sleepError)
      else Attempt(None, None, 0, None)
  }

  // ----- the object -----

  class ReliableClient {
    const limiter: RL.RateLimiter?
    const breaker: CB.CircuitBreaker?
    const retry: Policy
    ghost var used: Tally

    constructor (limiter: RL.RateLimiter?, breaker: CB.CircuitBreaker?, retry: Policy)
      ensures this.limiter == limiter && this.breaker == breaker && this.retry == retry
      ensures used == Tally(0, 0, 0)
    {
      this.limiter, this.breaker, this.retry := limiter, breaker, retry;
      used := Tally(0, 0, 0);
    }

    ghost function Guarded(): Guards
      reads limiter, breaker
    {
      Guards(if limiter == null then TB.Bucket(0, 0) else limiter.State(),
             if breaker == null then CB.FRESH else breaker.State())
    }

    ghost function Wiring(): Setup {
      Setup(if limiter == null then None else Some((limiter.rate, limiter.burst)),
            if breaker == null then None else Some((breaker.maxFails, breaker.resetAfter)),
            retry)
    }

    method Attempt(turn: Turn) returns (err: Option<CallError>)
      requires turn.rounds != []
      modifies limiter, breaker, this`used
      ensures var (g, e, t) := AttemptOnce(Wiring(), old(Guarded()), turn);
              Guarded() == g && err == e && used == Add(old(used), t)
    {
      ghost var token := if limiter != null && limiter.rate > 0 && limiter.burst > 0 then 1 else 0;
      if limiter != null {
        var outcome, _ := limiter.Wait(turn.rounds);
        if outcome != RL.Granted { return Some(turn.waitError); }
      }
      if breaker != null {
        breaker.OthersRun(turn.meanwhile);
        var e := breaker.Execute(turn.now, turn.outcome.None?, turn.during);
        if e == Some(CB.CircuitOpen) {
          used := Add(used, Tally(token, 0, 1));
          return Some(CircuitOpen);
        }
      }
      used := Add(used, Tally(token, 1, 0));
      return turn.outcome;
    }

    /** `Attempt` as turn `attempt` of a call with this trail. */
    method AttemptAt(ghost g: Guards, ghost trail: seq<Mark>, turns: seq<Turn>, attempt: nat) returns (err: Option<CallError>)
      requires 1 <= attempt <= |trail| && IsTrail(Wiring(), g, turns, trail) && turns[attempt - 1].rounds != []
      requires Guarded() == GuardsAfter(g, trail, attempt - 1)
      modifies limiter, breaker, this`used
      ensures Guarded() == GuardsAfter(g, trail, attempt)
      ensures used == Add(old(used), trail[attempt - 1].tally) && err == trail[attempt - 1].err
    {
      TrailAt(Wiring(), g, turns, trail, attempt - 1);
      err := Attempt(turns[attempt - 1]);
    }

    /** One turn of the retry loop: stop with `err`, or go on after sleeping `slept`. */
    method TakeTurn(turns: seq<Turn>, ghost g: Guards, ghost trail: seq<Mark>, ghost script: nat -> Attempt, attempt: nat)
      returns (step: Step)
      requires 1 <= attempt <= |trail| == retry.Attempts()
      requires IsTrail(Wiring(), g, turns, trail) && Scripts(turns, trail, script) && turns[attempt - 1].rounds != []
      requires Guarded() == GuardsAfter(g, trail, attempt - 1)
      modifies limiter, breaker, this`used
      ensures step == TurnAt(retry, script, attempt)
      ensures Guarded() == GuardsAfter(g, trail, if step.called then attempt else attempt - 1)
      ensures used == if step.called then Add(old(used), trail[attempt - 1].tally) else old(used)
    {
      var turn := turns[attempt - 1];
      if turn.cancelled.Some? { return Step(true, turn.cancelled, false, []); }
      var err := AttemptAt(g, trail, turns, attempt);
      if err.None? || attempt == retry.Attempts() || !retry.shouldRetry(err.value) { return Step(true, err, true, []); }
      var delay := retry.Delay(attempt, turn.noise);
      return Step(delay > 0 && turn.sleepError.Some?, turn.sleepError, true, if delay > 0 then [delay] else []);
    }

    /** The loop of `Do`, with a record of its attempts and the same as the retry loop sees it. */
    method Loop(turns: seq<Turn>, ghost g: Guards, ghost trail: seq<Mark>, ghost script: nat -> Attempt)
      returns (err: Option<CallError>, calls: nat)
      requires forall i :: 0 <= i < |turns| ==> turns[i].rounds != []
      requires Guarded() == g && |trail| == retry.Attempts()
      requires IsTrail(Wiring(), g, turns, trail) && Scripts(turns, trail, script)
      modifies limiter, breaker, this`used
      ensures err == RetryFrom(retry, script, 1).0 && calls == RetryFrom(retry, script, 1).1
      ensures calls <= |trail| && Guarded() == GuardsAfter(g, trail, calls)
      ensures used == Add(old(used), TallyOf(trail, calls))
    {
      var attempt := 1;
      calls := 0;
      while true
        invariant RunsTo(retry, script, attempt) && calls == attempt - 1
        invariant Guarded() == GuardsAfter(g, trail, calls)
        invariant used == Add(old(used), TallyOf(trail, calls))
        decreases |trail| - attempt
      {
        AddTally(old(used), trail, calls);
        if TurnAt(retry, script, attempt).stop { StopsAt(retry, script, attempt); } else { GoesOn(retry, script, attempt); }
        var step := TakeTurn(turns, g, trail, script, attempt);
        calls := if step.called then calls + 1 else calls;
        if step.stop { return step.err, calls; }
        attempt := attempt + 1;
      }
    }

    /** `do`: the retry loop around `Attempt`, with a turn for every attempt allowed. */
    method Do(turns: seq<Turn>) returns (err: Option<CallError>, calls: nat)
      requires |turns| == retry.Attempts() && forall i :: 0 <= i < |turns| ==> turns[i].rounds != []
      modifies limiter, breaker, this`used
      ensures var trail := Trail(Wiring(), old(Guarded()), turns);
              var (e, n, _) := RetryFrom(retry, ScriptOf(turns, trail), 1);
              && err == e && calls == n && n <= |trail|
              && Guarded() == GuardsAfter(old(Guarded()), trail, n)
              && used == Add(old(used), TallyOf(trail, n))
    {
      ghost var g := Guarded();
      ghost var trail := Trail(Wiring(), g, turns);
      TrailIsTrail(Wiring(), g, turns);
      err, calls := Loop(turns, g, trail, ScriptOf(turns, trail));
    }
  }

  // ----- conservation over one call -----

  /** A limited attempt pays one token for each call or rejection, another none. */
  predicate Pays(limited: bool, t: Tally) {
    t.grants == if limited then t.calls + t.rejections else 0
  }

  lemma {:induction false} AttemptTally(setup: Setup, g: Guards, turn: Turn)
    ensures var (_, err, t) := AttemptOnce(setup, g, turn);
            && Pays(Limited(setup.limiter), t) && t.calls + t.rejections <= 1
            && (t.rejections == 1 ==> err == Some(CircuitOpen))
  {
  }

  /** A token counted is a token taken: the bucket an attempt leaves is the one it would leave
      by only looking, less the tokens in its tally. */
  lemma {:induction false} AttemptTakes(setup: Setup, g: Guards, turn: Turn)
    requires Limited(setup.limiter)
    ensures var (rate, burst) := setup.limiter.value;
            var (g', _, t) := AttemptOnce(setup, g, turn);
            var looked := RL.OnlyLooked(rate, burst, g.bucket, turn.rounds);
            g'.bucket == looked.(tokens := looked.tokens - t.grants)
  {
    var (rate, burst) := setup.limiter.value;
    RL.WaitTakes(rate, burst, g.bucket, turn.rounds);
  }

  /** A trail's marks all have the shape of an attempt. */
  ghost predicate Balanced(limited: bool, trail: seq<Mark>) {
    forall i :: 0 <= i < |trail| ==> MarkBalanced(limited, trail[i])
  }

  ghost predicate MarkBalanced(limited: bool, m: Mark) {
    Pays(limited, m.tally) && m.tally.calls + m.tally.rejections <= 1 && (m.tally.rejections == 1 ==> m.err == Some(CircuitOpen))
  }

  lemma {:induction false} TrailBalanced(setup: Setup, g: Guards, turns: seq<Turn>, trail: seq<Mark>)
    requires IsTrail(setup, g, turns, trail)
    ensures Balanced(Limited(setup.limiter), trail)
  {
    forall i | 0 <= i < |trail| ensures MarkBalanced(Limited(setup.limiter), trail[i]) {
      TrailAt(setup, g, turns, trail, i);
      AttemptTally(setup, trail[i].before, turns[i]);
    }
  }

  lemma {:induction false} TallyBalances(limited: bool, trail: seq<Mark>, k: nat)
    requires Balanced(limited, trail) && k <= |trail|
    ensures Pays(limited, TallyOf(trail, k)) && TallyOf(trail, k).calls + TallyOf(trail, k).rejections <= k
    ensures (forall i :: 0 <= i < k ==> trail[i].err != Some(CircuitOpen)) ==> TallyOf(trail, k).rejections == 0
  {
    if k > 0 {
      TallyBalances(limited, trail, k - 1);
      assert MarkBalanced(limited, trail[k - 1]);
    }
  }

  /** The retry loop's side of `OneCall`: no call before the last ends in the breaker's
      error, and if the last one does, that error is the answer. */
  lemma {:induction false} OpenEndsTheCall(p: Policy, script: nat -> Attempt)
    requires p.shouldRetry == DefaultShouldRetry
    ensures var (err, calls, _) := RetryFrom(p, script, 1);
            && calls <= p.Attempts()
            && (forall i :: 1 <= i < calls ==> script(i).outcome != Some(CircuitOpen))
            && (calls > 0 && script(calls).outcome == Some(CircuitOpen) ==> err == Some(CircuitOpen))
  {
    RetryOutcome(p, script, 1);
    var (err, calls, _) := RetryFrom(p, script, 1);
    forall i | 1 <= i < calls ensures script(i).outcome != Some(CircuitOpen) {
      assert Retried(p, script, i);
    }
    if calls > 0 {
      LastCall(p, script, 1);
      assert 1 + calls - 1 == calls;
    }
  }

  /** If the last call failed for good, its error is the answer. */
  lemma {:induction false} LastCall(p: Policy, script: nat -> Attempt, attempt: nat)
    requires 1 <= attempt <= p.Attempts() && RetryFrom(p, script, attempt).1 > 0
    ensures var (err, calls, _) := RetryFrom(p, script, attempt); var last := attempt + calls - 1;
            script(last).outcome.Some? && !p.shouldRetry(script(last).outcome.value) ==> err == script(last).outcome
    decreases p.Attempts() - attempt
  {
    var turn := script(attempt);
    if turn.cancelled.None? && turn.outcome.Some? && attempt < p.Attempts() && Retried(p, script, attempt)
       && RetryFrom(p, script, attempt + 1).1 > 0 {
      LastCall(p, script, attempt + 1);
    }
  }

  /** One client call: every token pays for a base call or a rejection, and every one of
      those is paid if the client is limited; with the default policy at most
      `max(1, MaxAttempts)` base calls are made, and a rejection happens at most once and is
      the answer. */
  lemma {:induction false} OneCall(setup: Setup, g: Guards, turns: seq<Turn>)
    requires setup.policy.shouldRetry == DefaultShouldRetry && |turns| == setup.policy.Attempts()
    ensures var trail := Trail(setup, g, turns);
            var (err, calls, _) := RetryFrom(setup.policy, ScriptOf(turns, trail), 1);
            && calls <= |trail|
            && var t := TallyOf(trail, calls);
            && Pays(Limited(setup.limiter), t) && t.calls <= Max(1, setup.policy.maxAttempts)
            && t.rejections <= 1 && (t.rejections == 1 ==> err == Some(CircuitOpen))
  {
    var trail := Trail(setup, g, turns);
    TrailIsTrail(setup, g, turns);
    TrailBalanced(setup, g, turns, trail);
    OneScript(setup.policy, Limited(setup.limiter), turns, trail, ScriptOf(turns, trail));
  }

  lemma {:induction false} OneScript(p: Policy, limited: bool, turns: seq<Turn>, trail: seq<Mark>, script: nat -> Attempt)
    requires p.shouldRetry == DefaultShouldRetry && |trail| == p.Attempts()
    requires Balanced(limited, trail) && Scripts(turns, trail, script)
    ensures var (err, calls, _) := RetryFrom(p, script, 1);
            && calls <= |trail|
            && var t := TallyOf(trail, calls);
            && Pays(limited, t) && t.calls <= p.Attempts()
            && t.rejections <= 1 && (t.rejections == 1 ==> err == Some(CircuitOpen))
  {
    var (err, calls, _) := RetryFrom(p, script, 1);
    OpenEndsTheCall(p, script);
    TallyBalances(limited, trail, calls);
    if calls > 0 {
      TallyBalances(limited, trail, calls - 1);
      assert MarkBalanced(limited, trail[calls - 1]);
      forall i | 0 <= i < calls - 1 ensures trail[i].err != Some(CircuitOpen) {
        assert script(i + 1).outcome == trail[i].err;
      }
      assert script(calls).outcome == trail[calls - 1].err;
    }
  }

  // ----- the answer of one call, under the default policy -----

  /** Attempt `k` was not stopped by the context, and every attempt before it was made, ended
      in a plain error (the base call's own), and was backed off in full. */
  ghost predicate Made(p: Policy, turns: seq<Turn>, trail: seq<Mark>, k: nat)
    requires k < |trail| <= |turns|
  {
    turns[k].cancelled.None? && forall i :: 0 <= i < k ==> PlainTurn(p, turns, trail, i)
  }

  ghost predicate PlainTurn(p: Policy, turns: seq<Turn>, trail: seq<Mark>, k: nat)
    requires k < |trail| <= |turns|
  {
    && turns[k].cancelled.None? && trail[k].err.Some? && trail[k].err.value.Other?
    && (p.Delay(k + 1, turns[k].noise) > 0 ==> turns[k].sleepError.None?)
  }

  lemma {:induction false} MadeIsReached(p: Policy, turns: seq<Turn>, trail: seq<Mark>, script: nat -> Attempt, k: nat)
    requires Scripts(turns, trail, script) && k < |trail|
    ensures Made(p, turns, trail, k) <==>
            script(k + 1).cancelled.None? && forall i :: 1 <= i < k + 1 ==> PlainFailure(p, script, i)
    ensures script(k + 1).outcome == trail[k].err
  {
    assert script(k + 1).cancelled == turns[k].cancelled && script(k + 1).outcome == trail[k].err;
    forall i | 0 <= i < k ensures PlainTurn(p, turns, trail, i) <==> PlainFailure(p, script, i + 1) {
      assert script(i + 1).outcome == trail[i].err;
    }
    if Made(p, turns, trail, k) {
      forall i | 1 <= i < k + 1 ensures PlainFailure(p, script, i) {
        assert PlainTurn(p, turns, trail, i - 1);
      }
    }
    if forall i :: 1 <= i < k + 1 ==> PlainFailure(p, script, i) {
      forall i | 0 <= i < k ensures PlainTurn(p, turns, trail, i) {
        assert PlainFailure(p, script, i + 1);
      }
    }
  }

  /** A client call succeeds exactly if an attempt it makes does. */
  lemma {:induction false} CallSucceedsExactly(p: Policy, turns: seq<Turn>, trail: seq<Mark>, script: nat -> Attempt)
    requires p.shouldRetry == DefaultShouldRetry && |trail| == Max(1, p.maxAttempts) && Scripts(turns, trail, script)
    ensures RetryFrom(p, script, 1).0.None? <==>
            exists k :: 0 <= k < |trail| && Made(p, turns, trail, k) && trail[k].err.None?
  {
    DefaultSucceedsExactly(p, script);
    if RetryFrom(p, script, 1).0.None? {
      var n :| 1 <= n <= |trail| && script(n).cancelled.None? && script(n).outcome.None?
               && forall i :: 1 <= i < n ==> PlainFailure(p, script, i);
      MadeIsReached(p, turns, trail, script, n - 1);
      assert Made(p, turns, trail, n - 1) && trail[n - 1].err.None?;
    }
    if k :| 0 <= k < |trail| && Made(p, turns, trail, k) && trail[k].err.None? {
      MadeIsReached(p, turns, trail, script, k);
      assert script(k + 1).outcome.None?;
    }
  }

  /** And an attempt it makes that ends in the context's errors or the breaker's is its last,
      with that error as the answer. */
  lemma {:induction false} CallStopsAt(p: Policy, turns: seq<Turn>, trail: seq<Mark>, script: nat -> Attempt, k: nat)
    requires p.shouldRetry == DefaultShouldRetry && |trail| == Max(1, p.maxAttempts) && Scripts(turns, trail, script)
    requires k < |trail| && Made(p, turns, trail, k)
    requires trail[k].err in {Some(Cancelled), Some(DeadlineExceeded), Some(CircuitOpen)}
    ensures RetryFrom(p, script, 1).0 == trail[k].err && RetryFrom(p, script, 1).1 == k + 1
  {
    MadeIsReached(p, turns, trail, script, k);
    DefaultStopsAt(p, script, k + 1);
  }

  /** So for `Do` under the default policy: it answers nil exactly if an attempt it makes
      succeeds, and an attempt that ends in the context's errors or the breaker's is its last
      and its answer. */
  lemma {:induction false} DoAnswers(setup: Setup, g: Guards, turns: seq<Turn>)
    requires setup.policy.shouldRetry == DefaultShouldRetry && |turns| == Max(1, setup.policy.maxAttempts)
    ensures var p := setup.policy; var trail := Trail(setup, g, turns);
            var (err, calls, _) := RetryFrom(p, ScriptOf(turns, trail), 1);
            && (err.None? <==> exists k :: 0 <= k < |trail| && Made(p, turns, trail, k) && trail[k].err.None?)
            && (forall k :: 0 <= k < |trail| && Made(p, turns, trail, k)
                            && trail[k].err in {Some(Cancelled), Some(DeadlineExceeded), Some(CircuitOpen)}
                            ==> err == trail[k].err && calls == k + 1)
  {
    var p, trail := setup.policy, Trail(setup, g, turns);
    var script := ScriptOf(turns, trail);
    CallSucceedsExactly(p, turns, trail, script);
    forall k | 0 <= k < |trail| && Made(p, turns, trail, k)
               && trail[k].err in {Some(Cancelled), Some(DeadlineExceeded), Some(CircuitOpen)}
      ensures RetryFrom(p, script, 1).0 == trail[k].err && RetryFrom(p, script, 1).1 == k + 1
    {
      CallStopsAt(p, turns, trail, script, k);
    }
  }
}
