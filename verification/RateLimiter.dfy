/** The limiter object and its `Wait` loop. The context, the clock and the other waiters
    are scripted: one `Round` per turn of the loop. */
module RateLimiter {
  import opened Common
  import opened Arithmetic
  import opened TokenBucket

  /** One turn of `Wait`: whether the context has ended, the clock readings at which other
      callers poll before this one does, this caller's own reading, and whether its sleep
      is cut short by the context. */
  datatype Round = Round(cancelled: bool, others: seq<int>, now: int, sleepFails: bool)

  /** `Blocked`: the script ended while the caller was still waiting. */
  datatype Outcome = Granted | Failed | Blocked

  /** One turn: the bucket it leaves, the outcome if it is the last one, and the wait it
      reported, if any. */
  function TurnFrom(rate: int, burst: int, b: Bucket, round: Round): (Bucket, Option<Outcome>, seq<int>) {
    if round.cancelled then (b, Some(Failed), [])
    else
      var (granted, b') := Poll(rate, burst, After(rate, burst, b, round.others), round.now);
      var wait := rate - (round.now - b'.last);
      if granted then (b', Some(Granted), []) else (b', if round.sleepFails then Some(Failed) else None, [wait])
  }

  /** The bucket, the outcome, and the waits reported to the hook. */
  function WaitFrom(rate: int, burst: int, b: Bucket, rounds: seq<Round>): (Bucket, Outcome, seq<int>)
    decreases |rounds|
  {
    if rounds == [] then (b, Blocked, [])
    else
      var (b', done, waited) := TurnFrom(rate, burst, b, rounds[0]);
      if done.Some? then (b', done.value, waited)
      else
        var (last, outcome, waits) := WaitFrom(rate, burst, b', rounds[1..]);
        (last, outcome, waited + waits)
  }

  /** The turns before the k-th, none of which ended the call. */
  lemma {:induction false} WaitStep(rate: int, burst: int, b: Bucket, rounds: seq<Round>, i: nat)
    requires i < |rounds|
    ensures var (b', done, waited) := TurnFrom(rate, burst, b, rounds[i]);
            var rest := WaitFrom(rate, burst, b', rounds[i + 1..]);
            WaitFrom(rate, burst, b, rounds[i..]) ==
            if done.Some? then (b', done.value, waited) else (rest.0, rest.1, waited + rest.2)
  {
    assert rounds[i..][0] == rounds[i] && rounds[i..][1..] == rounds[i + 1..];
  }

  class RateLimiter {
    const rate: int
    const burst: int
    var tokens: int
    var last: int

    constructor (rate: int, burst: int, now: int)
      ensures this.rate == rate && this.burst == burst && State() == Bucket(burst, now)
    {
      this.rate, this.burst, tokens, last := rate, burst, burst, now;
    }

    function State(): Bucket
      reads this
    {
      Bucket(tokens, last)
    }

    method Refill(now: int)
      modifies this
      ensures State() == TokenBucket.Refill(rate, burst, old(State()), now)
      ensures rate <= 0 ==> State() == Bucket(burst, now)
    {
      if rate <= 0 {
        tokens, last := burst, now;
        return;
      }
      var elapsed := now - last;
      if elapsed < rate { return; }
      var add := elapsed / rate;
      tokens := tokens + add;
      if tokens > burst { tokens := burst; }
      last := last + add * rate;
    }

    /** The locked section of one turn. The wait it computes is always positive, so the
        loop never turns again without sleeping. */
    method TryTake(now: int) returns (granted: bool, wait: int)
      requires rate > 0
      modifies this
      ensures (granted, State()) == Poll(rate, burst, old(State()), now)
      ensures wait == rate - (now - last) && wait > 0
    {
      WaitIsPositive(rate, burst, State(), now);
      Refill(now);
      granted := tokens > 0;
      if granted { tokens := tokens - 1; }
      wait := rate - (now - last);
    }

    /** Other callers poll while this one is outside the lock. */
    method OthersPoll(polls: seq<int>)
      requires rate > 0
      modifies this
      ensures State() == After(rate, burst, old(State()), polls)
    {
      var i := 0;
      while i < |polls|
        invariant 0 <= i <= |polls|
        invariant State() == After(rate, burst, old(State()), polls[..i])
      {
        var _, _ := TryTake(polls[i]);
        assert polls[..i + 1][..i] == polls[..i];
        i := i + 1;
      }
      assert polls[..i] == polls;
    }

    /** One turn of the loop of `Wait`. */
    method TakeTurn(round: Round) returns (done: Option<Outcome>, waited: seq<int>)
      requires rate > 0
      modifies this
      ensures (State(), done, waited) == TurnFrom(rate, burst, old(State()), round)
    {
      if round.cancelled { return Some(Failed), []; }
      OthersPoll(round.others);
      var granted, wait := TryTake(round.now);
      if granted { return Some(Granted), []; }
      return if round.sleepFails then Some(Failed) else None, [wait];
    }

    method Wait(rounds: seq<Round>) returns (outcome: Outcome, waits: seq<int>)
      requires rounds != []
      modifies this
      ensures if rate <= 0 || burst <= 0
              then State() == old(State()) && outcome == (if rounds[0].cancelled then Failed else Granted) && waits == []
              else (State(), outcome, waits) == WaitFrom(rate, burst, old(State()), rounds)
    {
      waits := [];
      if rate <= 0 || burst <= 0 {
        outcome := if rounds[0].cancelled then Failed else Granted;
        return;
      }
      ghost var whole := WaitFrom(rate, burst, State(), rounds);
      var i := 0;
      assert rounds[i..] == rounds && waits + whole.2 == whole.2;
      while i < |rounds|
        invariant 0 <= i <= |rounds|
        invariant var rest := WaitFrom(rate, burst, State(), rounds[i..]);
                  whole == (rest.0, rest.1, waits + rest.2)
      {
        WaitStep(rate, burst, State(), rounds, i);
        var done, waited := TakeTurn(rounds[i]);
        ghost var rest := WaitFrom(rate, burst, State(), rounds[i + 1..]).2;
        assert (waits + waited) + rest == waits + (waited + rest);
        waits := waits + waited;
        if done.Some? { return done.value, waits; }
        i := i + 1;
      }
      assert rounds[i..] == [] && waits + [] == waits;
      return Blocked, waits;
    }
  }

  // ----- minimal waiting -----

  /** After a refill the clock is less than one period past the grid point, whatever the
      clock does; so the remaining wait is positive. */
  lemma {:induction false} WaitIsPositive(rate: int, burst: int, b: Bucket, now: int)
    requires rate > 0
    ensures now - Refill(rate, burst, b, now).last < rate
  {
    if now - b.last >= rate {
      var add := (now - b.last) / rate;
      assert now - b.last == add * rate + (now - b.last) % rate;
    }
  }

  /** A caller refused at `now` is asked to wait no more than a period, exactly until the
      first clock reading that can be granted. */
  lemma {:induction false} WaitIsMinimal(rate: int, burst: int, b: Bucket, now: int, t: int)
    requires rate > 0 && burst > 0 && 0 <= b.tokens <= burst && b.last <= now <= t
    requires !Poll(rate, burst, b, now).0
    ensures var b' := Poll(rate, burst, b, now).1; var wait := rate - (now - b'.last);
            && 0 < wait <= rate
            && (Poll(rate, burst, b', t).0 <==> t >= now + wait)
  {
    RefillGrid(rate, burst, b, now);
    var b' := Poll(rate, burst, b, now).1;
    if t - b'.last >= rate {
      PeriodsFit(rate, 1, t - b'.last);
    }
  }

  /** The clock of one turn does not go back, from the bucket's last reading on. */
  ghost predicate ClockRuns(rate: int, burst: int, b: Bucket, round: Round) {
    Runs(rate, burst, b, round.others + [round.now])
  }

  /** What a turn reports: nothing if it was cancelled or granted, and otherwise one wait, of
      at most a period, after which and not before the next token can be granted. */
  lemma {:induction false} TurnReports(rate: int, burst: int, b: Bucket, round: Round)
    requires ClockRuns(rate, burst, b, round)
    ensures var (b', done, waited) := TurnFrom(rate, burst, b, round);
            if round.cancelled || done == Some(Granted) then waited == []
            else
              && |waited| == 1 && 0 < waited[0] <= rate
              && forall t :: t >= round.now ==> (Poll(rate, burst, b', t).0 <==> t >= round.now + waited[0])
    ensures var b' := TurnFrom(rate, burst, b, round).0; 0 <= b'.tokens <= burst
  {
    var polls := round.others + [round.now];
    assert polls[..|polls| - 1] == round.others;
    RunsInit(rate, burst, b, polls);
    var before := After(rate, burst, b, round.others);
    RefillGrid(rate, burst, before, round.now);
    if !round.cancelled && !Poll(rate, burst, before, round.now).0 {
      forall t | t >= round.now
        ensures Poll(rate, burst, TurnFrom(rate, burst, b, round).0, t).0 <==>
                t >= round.now + TurnFrom(rate, burst, b, round).2[0]
      {
        WaitIsMinimal(rate, burst, before, round.now, t);
      }
    }
  }

  /** The bucket after the first `n` turns. */
  function BucketAt(rate: int, burst: int, b: Bucket, rounds: seq<Round>, n: nat): Bucket
    requires n <= |rounds|
    decreases |rounds|
  {
    if n == 0 then b else BucketAt(rate, burst, TurnFrom(rate, burst, b, rounds[0]).0, rounds[1..], n - 1)
  }

  ghost predicate ClocksRun(rate: int, burst: int, b: Bucket, rounds: seq<Round>)
    decreases |rounds|
  {
    rounds == [] ||
    (ClockRuns(rate, burst, b, rounds[0]) && ClocksRun(rate, burst, TurnFrom(rate, burst, b, rounds[0]).0, rounds[1..]))
  }

  /** The wait `w` reported at reading `now`, with the bucket left as `b`. */
  ghost predicate ExactWait(rate: int, burst: int, b: Bucket, now: int, w: int) {
    0 < w <= rate && forall t :: t >= now ==> (Poll(rate, burst, b, t).0 <==> t >= now + w)
  }

  /** Every wait that `Wait` reports, one for each turn refused, is exactly until the first
      reading at which a token could be granted. */
  lemma {:induction false} WaitsAreExact(rate: int, burst: int, b: Bucket, rounds: seq<Round>, k: nat)
    requires ClocksRun(rate, burst, b, rounds) && k < |WaitFrom(rate, burst, b, rounds).2|
    ensures k < |rounds| && !rounds[k].cancelled
    ensures ExactWait(rate, burst, BucketAt(rate, burst, b, rounds, k + 1), rounds[k].now, WaitFrom(rate, burst, b, rounds).2[k])
    decreases |rounds|
  {
    TurnReports(rate, burst, b, rounds[0]);
    var (b', done, waited) := TurnFrom(rate, burst, b, rounds[0]);
    if k > 0 {
      assert WaitFrom(rate, burst, b, rounds).2 == waited + WaitFrom(rate, burst, b', rounds[1..]).2;
      WaitsAreExact(rate, burst, b', rounds[1..], k - 1);
    } else {
      assert BucketAt(rate, burst, b', rounds[1..], 0) == b';
    }
  }

  /** A lone caller, not cancelled, whose sleep lasts at least as long as the wait reported,
      sleeps at most once before it is granted. */
  lemma {:induction false} LoneCallerSleepsOnce(rate: int, burst: int, b: Bucket, rounds: seq<Round>)
    requires rate > 0 && burst > 0 && 0 <= b.tokens <= burst
    requires |rounds| >= 2 && b.last <= rounds[0].now
    requires forall i :: 0 <= i < 2 ==> !rounds[i].cancelled && rounds[i].others == [] && !rounds[i].sleepFails
    requires rounds[1].now >= rounds[0].now + Sum(TurnFrom(rate, burst, b, rounds[0]).2)
    ensures var (b', outcome, waits) := WaitFrom(rate, burst, b, rounds);
            && outcome == Granted && |waits| <= 1 && waits == TurnFrom(rate, burst, b, rounds[0]).2
            && (waits == [] <==> Poll(rate, burst, b, rounds[0].now).0)
  {
    var first := rounds[0];
    assert first.others + [first.now] == [first.now];
    TurnReports(rate, burst, b, first);
    var (b', done, waited) := TurnFrom(rate, burst, b, first);
    if done.None? {
      assert waited[1..] == [] && Sum(waited) == waited[0];
      assert rounds[1..][0] == rounds[1] && After(rate, burst, b', rounds[1].others) == b';
      assert TurnFrom(rate, burst, b', rounds[1]).1 == Some(Granted);
      assert waited + [] == waited;
    }
  }

  /** The bucket if this caller had only looked, up to the round that would grant it: the
      others poll, it merely refills. */
  function OnlyLooked(rate: int, burst: int, b: Bucket, rounds: seq<Round>): Bucket
    decreases |rounds|
  {
    if rounds == [] || rounds[0].cancelled then b
    else
      var b' := TokenBucket.Refill(rate, burst, After(rate, burst, b, rounds[0].others), rounds[0].now);
      if b'.tokens > 0 || rounds[0].sleepFails then b' else OnlyLooked(rate, burst, b', rounds[1..])
  }

  /** A `Wait` that succeeds takes one token, and one that does not takes none. */
  lemma {:induction false} WaitTakes(rate: int, burst: int, b: Bucket, rounds: seq<Round>)
    ensures var (b', outcome, _) := WaitFrom(rate, burst, b, rounds);
            var looked := OnlyLooked(rate, burst, b, rounds);
            b' == looked.(tokens := looked.tokens - if outcome == Granted then 1 else 0)
    decreases |rounds|
  {
    if rounds != [] && !rounds[0].cancelled {
      var (granted, b') := Poll(rate, burst, After(rate, burst, b, rounds[0].others), rounds[0].now);
      if !granted && !rounds[0].sleepFails {
        WaitTakes(rate, burst, b', rounds[1..]);
      }
    }
  }

  // ----- one caller in sequence -----

  /** One call by a caller whose sleep lasts exactly the wait reported: the bucket, the clock
      and the waits. */
  function Call(rate: int, burst: int, b: Bucket, clock: int): (Bucket, int, seq<int>) {
    var first := Round(false, [], clock, false);
    var wake := clock + Sum(TurnFrom(rate, burst, b, first).2);
    var (b', outcome, waits) := WaitFrom(rate, burst, b, [first, Round(false, [], wake, false)]);
    (b', wake, waits)
  }

  /** `n` calls in sequence from a full bucket. */
  function Calls(rate: int, burst: int, t0: int, n: nat): (Bucket, int, seq<int>) {
    if n == 0 then (Bucket(burst, t0), t0, [])
    else
      var (b, clock, waits) := Calls(rate, burst, t0, n - 1);
      var (b', clock', more) := Call(rate, burst, b, clock);
      (b', clock', waits + more)
  }

  lemma {:induction false} NextCall(rate: int, burst: int, tokens: nat, clock: int)
    requires rate > 0 && burst > 0 && tokens <= burst
    ensures Call(rate, burst, Bucket(tokens, clock), clock) ==
            if tokens > 0 then (Bucket(tokens - 1, clock), clock, []) else (Bucket(0, clock + rate), clock + rate, [rate])
  {
    var first := Round(false, [], clock, false);
    if tokens == 0 {
      PollAtNextGrid(rate, burst, clock);
      var second := [Round(false, [], clock + rate, false)];
      assert TurnFrom(rate, burst, Bucket(0, clock), first) == (Bucket(0, clock), None, [rate]);
      assert [rate][1..] == [] && Sum([rate]) == rate;
      assert [first, Round(false, [], clock + rate, false)][1..] == second;
      assert WaitFrom(rate, burst, Bucket(0, clock), second) == (Bucket(0, clock + rate), Granted, []);
      assert [rate] + [] == [rate];
    } else {
      assert TurnFrom(rate, burst, Bucket(tokens, clock), first) == (Bucket(tokens - 1, clock), Some(Granted), []);
      assert Sum([]) == 0;
    }
  }

  lemma {:induction false} OneMoreWait(waits: seq<int>, more: int)
    ensures Sum(waits + [more]) == Sum(waits) + more && waits + [] == waits
  {
    SumAppend(waits, [more]);
    assert [more][1..] == [];
  }

  /** The state after `n` sequential calls, written out. */
  ghost predicate Sequenced(rate: int, burst: int, t0: int, n: nat, b: Bucket, clock: int, waits: seq<int>) {
    && Sum(waits) == Grid(rate, Max(0, n - burst))
    && clock == t0 + Sum(waits) && b == Bucket(Max(0, burst - n), clock)
  }

  lemma {:induction false} SequencedNext(rate: int, burst: int, t0: int, n: nat, clock: int, waits: seq<int>)
    requires burst > 0 && Sequenced(rate, burst, t0, n, Bucket(Max(0, burst - n), clock), clock, waits)
    ensures if n < burst then Sequenced(rate, burst, t0, n + 1, Bucket(burst - n - 1, clock), clock, waits + [])
            else Sequenced(rate, burst, t0, n + 1, Bucket(0, clock + rate), clock + rate, waits + [rate])
  {
    OneMoreWait(waits, rate);
  }

  lemma {:induction false} SequentialGrid(rate: int, burst: int, t0: int, n: nat)
    requires rate > 0 && burst > 0
    ensures var (b, clock, waits) := Calls(rate, burst, t0, n);
            Sequenced(rate, burst, t0, n, b, clock, waits)
  {
    if n > 0 {
      SequentialGrid(rate, burst, t0, n - 1);
      var (b, clock, waits) := Calls(rate, burst, t0, n - 1);
      NextCall(rate, burst, Max(0, burst - (n - 1)), clock);
      SequencedNext(rate, burst, t0, n - 1, clock, waits);
    }
  }

  /** The waits of `n` calls in sequence sum to `max(0, n - burst) * rate`. */
  lemma {:induction false} SequentialWaits(rate: int, burst: int, t0: int, n: nat)
    requires rate > 0 && burst > 0
    ensures var (b, clock, waits) := Calls(rate, burst, t0, n);
            Sum(waits) == Max(0, n - burst) * rate && clock == t0 + Sum(waits)
  {
    SequentialGrid(rate, burst, t0, n);
    GridIs(rate, Max(0, n - burst));
  }
}
