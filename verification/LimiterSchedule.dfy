/** When tokens are granted if sleeps are exact: any number of waiters in any order, and
    one caller alone. */
module LimiterSchedule {
  import opened Common
  import opened Arithmetic
  import opened TokenBucket
  import RL = RateLimiter

  /** Waiters by id, with the time until which each sleeps. The clock moves only when
      all of them sleep, to the first wake-up. */
  datatype Crowd = Crowd(clock: int, bucket: Bucket, wake: map<nat, int>, grants: seq<int>)

  datatype Move =
    | Arrive(id: nat)
    | Leave(id: nat)
    | Round(id: nat)
    | Advance(to: int)

  ghost predicate Enabled(c: Crowd, m: Move) {
    match m
    case Arrive(id) => id !in c.wake
    case Leave(id) => id in c.wake
    case Round(id) => id in c.wake && c.wake[id] <= c.clock
    case Advance(to) =>
      && (exists id :: id in c.wake && c.wake[id] == to)
      && (forall id :: id in c.wake ==> c.wake[id] > c.clock && c.wake[id] >= to)
  }

  /** One round of `Wait` by waiter `id`: a granted waiter comes straight back for more,
      another sleeps for the wait reported. */
  function Apply(rate: int, burst: int, c: Crowd, m: Move): Crowd {
    match m
    case Arrive(id) => c.(wake := c.wake[id := c.clock])
    case Leave(id) => c.(wake := c.wake - {id})
    case Round(id) =>
      var (b, done, waited) := RL.TurnFrom(rate, burst, c.bucket, RL.Round(false, [], c.clock, false));
      c.(bucket := b, wake := c.wake[id := c.clock + Sum(waited)],
         grants := c.grants + if done == Some(RL.Granted) then [c.clock] else [])
    case Advance(to) => c.(clock := to)
  }

  ghost predicate Possible(rate: int, burst: int, c: Crowd, moves: seq<Move>)
    decreases |moves|
  {
    moves == [] || (Enabled(c, moves[0]) && Possible(rate, burst, Apply(rate, burst, c, moves[0]), moves[1..]))
  }

  function Play(rate: int, burst: int, c: Crowd, moves: seq<Move>): Crowd
    decreases |moves|
  {
    if moves == [] then c else Play(rate, burst, Apply(rate, burst, c, moves[0]), moves[1..])
  }

  /** When the (k+1)-st token is due. */
  function Due(rate: int, burst: int, t0: int, k: nat): int { t0 + Max(0, k + 1 - burst) * rate }

  /** Where the grid stands after `g` grants. */
  function Base(rate: int, burst: int, t0: int, g: nat): int { t0 + Max(0, g - burst) * rate }

  ghost predicate OnSchedule(rate: int, burst: int, t0: int, c: Crowd) {
    var g := |c.grants|;
    var base := Base(rate, burst, t0, g);
    && c.bucket == Bucket(Max(0, burst - g), base)
    && (c.clock == base || (c.clock == base + rate && g >= burst))
    && (forall id :: id in c.wake ==> c.wake[id] <= c.clock || (c.wake[id] == base + rate && g >= burst))
    && (forall k :: 0 <= k < g ==> c.grants[k] == Due(rate, burst, t0, k))
  }

  lemma {:induction false} BaseNext(rate: int, burst: int, t0: int, g: nat)
    requires burst > 0
    ensures Base(rate, burst, t0, g + 1) == Base(rate, burst, t0, g) + if g >= burst then rate else 0
    ensures Due(rate, burst, t0, g) == Base(rate, burst, t0, g + 1)
  {
    if g >= burst {
      Distribute(g - burst, 1, rate);
    }
  }

  /** One round, on the grid or one period after it. */
  lemma {:induction false} RoundOnSchedule(rate: int, burst: int, c: int, tokens: nat, base: int)
    requires rate > 0 && burst > 0 && tokens <= burst && (c == base || (c == base + rate && tokens == 0))
    ensures var (b, done, waited) := RL.TurnFrom(rate, burst, Bucket(tokens, base), RL.Round(false, [], c, false));
            if c == base + rate then b == Bucket(0, c) && done == Some(RL.Granted) && waited == []
            else if tokens > 0 then b == Bucket(tokens - 1, base) && done == Some(RL.Granted) && waited == []
            else b == Bucket(0, base) && done == None && waited == [rate] && Sum(waited) == rate
  {
    if c == base + rate {
      PollAtNextGrid(rate, burst, base);
    }
    assert [rate][1..] == [];
  }

  lemma {:induction false} ApplyOnSchedule(rate: int, burst: int, t0: int, c: Crowd, m: Move)
    requires rate > 0 && burst > 0 && OnSchedule(rate, burst, t0, c) && Enabled(c, m)
    ensures OnSchedule(rate, burst, t0, Apply(rate, burst, c, m))
  {
    var g := |c.grants|;
    if m.Round? {
      BaseNext(rate, burst, t0, g);
      RoundOnSchedule(rate, burst, c.clock, c.bucket.tokens, c.bucket.last);
      assert Sum([]) == 0;
    }
  }

  /** Exact schedule: from a full bucket at `t0`, the (k+1)-st back-to-back grant happens
      at `t0 + max(0, k + 1 - burst) * rate`, whichever waiter wins each round. */
  lemma {:induction false} ExactSchedule(rate: int, burst: int, t0: int, c: Crowd, moves: seq<Move>)
    requires rate > 0 && burst > 0 && OnSchedule(rate, burst, t0, c) && Possible(rate, burst, c, moves)
    ensures OnSchedule(rate, burst, t0, Play(rate, burst, c, moves))
    decreases |moves|
  {
    if moves != [] {
      ApplyOnSchedule(rate, burst, t0, c, moves[0]);
      ExactSchedule(rate, burst, t0, Apply(rate, burst, c, moves[0]), moves[1..]);
    }
  }

  lemma {:induction false} ExactScheduleFromFull(rate: int, burst: int, t0: int, moves: seq<Move>)
    requires rate > 0 && burst > 0 && Possible(rate, burst, Crowd(t0, Bucket(burst, t0), map[], []), moves)
    ensures var grants := Play(rate, burst, Crowd(t0, Bucket(burst, t0), map[], []), moves).grants;
            forall k :: 0 <= k < |grants| ==> grants[k] == t0 + Max(0, k + 1 - burst) * rate
  {
    ExactSchedule(rate, burst, t0, Crowd(t0, Bucket(burst, t0), map[], []), moves);
  }
}
