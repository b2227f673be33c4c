/** The arithmetic of the token bucket, over one poll, over any polling pattern, and over
    any interleaving of waiters. Clock readings and durations are integer nanoseconds. */
module TokenBucket {
  import opened Common
  import opened Arithmetic

  datatype Bucket = Bucket(tokens: int, last: int)

  // ----- lazy refill -----

  function Refill(rate: int, burst: int, b: Bucket, now: int): Bucket {
    if rate <= 0 then Bucket(burst, now)
    else if now - b.last < rate then b
    else
      var add := (now - b.last) / rate;
      Bucket(Min(b.tokens + add, burst), b.last + add * rate)
  }

  /** The eager bucket that lazy refilling stands for: one token at every tick of the
      grid `last + k * rate` up to `now`, and a full bucket stays full. */
  function Tick(rate: int, burst: int, b: Bucket, now: int): Bucket
    requires rate > 0
    decreases now - b.last
  {
    if now - b.last < rate then b else Tick(rate, burst, Bucket(Min(b.tokens + 1, burst), b.last + rate), now)
  }

  /** The grid and the cap: what a lazy refill leaves behind. */
  lemma {:induction false} RefillGrid(rate: int, burst: int, b: Bucket, now: int)
    requires rate > 0 && b.tokens <= burst && b.last <= now
    ensures var b' := Refill(rate, burst, b, now);
            && b'.last <= now < b'.last + rate && b.last <= b'.last
            && b.tokens <= b'.tokens <= burst
            && b'.tokens - b.tokens <= (b'.last - b.last) / rate
            && (b'.last - b.last) % rate == 0
  {
    if now - b.last >= rate {
      var elapsed := now - b.last;
      var add := elapsed / rate;
      assert elapsed == add * rate + elapsed % rate;
      DivShift(0, rate, add);
    }
  }

  /** Lazy refilling is one token per tick. */
  lemma {:induction false} RefillIsTicking(rate: int, burst: int, b: Bucket, now: int)
    requires rate > 0 && b.tokens <= burst
    ensures Refill(rate, burst, b, now) == Tick(rate, burst, b, now)
    decreases now - b.last
  {
    if now - b.last >= rate {
      var one := Bucket(Min(b.tokens + 1, burst), b.last + rate);
      RefillIsTicking(rate, burst, one, now);
      DivShift(now - one.last, rate, 1);
      var add := (now - b.last) / rate;
      assert add * rate == (add - 1) * rate + rate;
      if now - one.last < rate {
        assert (now - one.last) / rate == 0;
      }
    }
  }

  /** Ticking to `a` and then to `b` is ticking to `b`. */
  lemma {:induction false} TickTwice(rate: int, burst: int, b: Bucket, early: int, late: int)
    requires rate > 0 && early <= late
    ensures Tick(rate, burst, Tick(rate, burst, b, early), late) == Tick(rate, burst, b, late)
    decreases early - b.last
  {
    if early - b.last >= rate {
      TickTwice(rate, burst, Bucket(Min(b.tokens + 1, burst), b.last + rate), early, late);
    }
  }

  function RefillAll(rate: int, burst: int, b: Bucket, times: seq<int>): Bucket {
    if times == [] then b else Refill(rate, burst, RefillAll(rate, burst, b, times[..|times| - 1]), times[|times| - 1])
  }

  ghost predicate Sorted(times: seq<int>) {
    forall i, j :: 0 <= i < j < |times| ==> times[i] <= times[j]
  }

  lemma {:induction false} RefillKeepsCap(rate: int, burst: int, b: Bucket, now: int)
    requires b.tokens <= burst
    ensures Refill(rate, burst, b, now).tokens <= burst
  {
  }

  /** Path independence: however often the bucket is polled on the way, only the last
      clock reading matters. */
  lemma {:induction false} PollingDoesNotMatter(rate: int, burst: int, b: Bucket, times: seq<int>)
    requires rate > 0 && b.tokens <= burst && times != [] && Sorted(times)
    ensures RefillAll(rate, burst, b, times) == Refill(rate, burst, b, times[|times| - 1])
    ensures RefillAll(rate, burst, b, times).tokens <= burst
  {
    var init, last := times[..|times| - 1], times[|times| - 1];
    if init == [] {
      assert RefillAll(rate, burst, b, init) == b;
    } else {
      PollingDoesNotMatter(rate, burst, b, init);
      var early := init[|init| - 1];
      var mid := Refill(rate, burst, b, early);
      RefillIsTicking(rate, burst, b, early);
      RefillIsTicking(rate, burst, mid, last);
      RefillIsTicking(rate, burst, b, last);
      TickTwice(rate, burst, b, early, last);
    }
    RefillKeepsCap(rate, burst, RefillAll(rate, burst, b, init), last);
  }

  // ----- one atomic round of `Wait`, and runs of rounds by any number of waiters -----

  /** The locked section: refill, and take a token if there is one. */
  function Poll(rate: int, burst: int, b: Bucket, now: int): (bool, Bucket) {
    var b' := Refill(rate, burst, b, now);
    if b'.tokens > 0 then (true, b'.(tokens := b'.tokens - 1)) else (false, b')
  }

  function After(rate: int, burst: int, b: Bucket, polls: seq<int>): Bucket {
    if polls == [] then b else Poll(rate, burst, After(rate, burst, b, polls[..|polls| - 1]), polls[|polls| - 1]).1
  }

  /** The clock readings at which tokens were granted, whoever polled. */
  function Grants(rate: int, burst: int, b: Bucket, polls: seq<int>): seq<int> {
    if polls == [] then []
    else
      var init, now := polls[..|polls| - 1], polls[|polls| - 1];
      Grants(rate, burst, b, init) + if Poll(rate, burst, After(rate, burst, b, init), now).0 then [now] else []
  }

  function CountIn(times: seq<int>, s: int, t: int): nat {
    if times == [] then 0
    else CountIn(times[..|times| - 1], s, t) + if s <= times[|times| - 1] <= t then 1 else 0
  }

  /** A usable limiter, and a clock that never goes back. */
  ghost predicate Runs(rate: int, burst: int, b: Bucket, polls: seq<int>) {
    && rate > 0 && burst > 0 && 0 <= b.tokens <= burst
    && Sorted(polls) && (polls != [] ==> b.last <= polls[0])
  }

  /** One round passes `k` grid points and grants at most what they and the bucket hold. */
  lemma {:induction false} PollStep(rate: int, burst: int, b: Bucket, now: int) returns (k: nat)
    requires rate > 0 && 0 <= b.tokens <= burst && b.last <= now
    ensures var (granted, b') := Poll(rate, burst, b, now); var taken := if granted then 1 else 0;
            && 0 <= b'.tokens && b'.tokens + taken <= burst && b'.tokens + taken <= b.tokens + k
            && b'.last == b.last + k * rate
            && b.last <= b'.last <= now < b'.last + rate
  {
    RefillGrid(rate, burst, b, now);
    k := if now - b.last < rate then 0 else (now - b.last) / rate;
    DivShift(0, rate, k);
  }

  lemma {:induction false} RunsInit(rate: int, burst: int, b: Bucket, polls: seq<int>)
    requires Runs(rate, burst, b, polls) && polls != []
    ensures Runs(rate, burst, b, polls[..|polls| - 1])
    ensures var b' := After(rate, burst, b, polls[..|polls| - 1]);
            0 <= b'.tokens <= burst && b.last <= b'.last <= polls[|polls| - 1]
    decreases |polls|
  {
    var init := polls[..|polls| - 1];
    if init != [] {
      RunsInit(rate, burst, b, init);
      var _ := PollStep(rate, burst, After(rate, burst, b, init[..|init| - 1]), init[|init| - 1]);
    }
  }

  /** Grants plus tokens left never exceed tokens at the start plus grid points passed. */
  lemma {:induction false} Potential(rate: int, burst: int, b: Bucket, polls: seq<int>) returns (k: nat)
    requires Runs(rate, burst, b, polls)
    ensures var b' := After(rate, burst, b, polls);
            && b'.last == b.last + k * rate && 0 <= b'.tokens
            && (polls != [] ==> b'.last <= polls[|polls| - 1])
            && |Grants(rate, burst, b, polls)| + b'.tokens <= b.tokens + k
  {
    if polls == [] {
      k := 0;
    } else {
      var init := polls[..|polls| - 1];
      RunsInit(rate, burst, b, polls);
      var k1 := Potential(rate, burst, b, init);
      var k2 := PollStep(rate, burst, After(rate, burst, b, init), polls[|polls| - 1]);
      k := k1 + k2;
      Distribute(k1, k2, rate);
    }
  }

  /** From construction at `t0`, at most `burst` plus one token per full period is granted. */
  lemma {:induction false} GrantsSinceStart(rate: int, burst: int, t0: int, polls: seq<int>, t: int)
    requires Runs(rate, burst, Bucket(burst, t0), polls) && t0 <= t && forall i :: 0 <= i < |polls| ==> polls[i] <= t
    ensures |Grants(rate, burst, Bucket(burst, t0), polls)| <= burst + (t - t0) / rate
  {
    var k := Potential(rate, burst, Bucket(burst, t0), polls);
    PeriodsFit(rate, k, t - t0);
  }

  // ----- the sliding window -----

  lemma {:induction false} CountAppend(times: seq<int>, x: int, s: int, t: int)
    ensures CountIn(times + [x], s, t) == CountIn(times, s, t) + if s <= x <= t then 1 else 0
  {
    assert (times + [x])[..|times|] == times;
  }

  lemma {:induction false} NothingEarlier(rate: int, burst: int, b: Bucket, polls: seq<int>, s: int, t: int)
    requires forall i :: 0 <= i < |polls| ==> polls[i] < s
    ensures CountIn(Grants(rate, burst, b, polls), s, t) == 0
  {
    if polls != [] {
      var init, now := polls[..|polls| - 1], polls[|polls| - 1];
      NothingEarlier(rate, burst, b, init, s, t);
      CountAppend(Grants(rate, burst, b, init), now, s, t);
      assert Grants(rate, burst, b, init) + [] == Grants(rate, burst, b, init);
    }
  }

  /** While the clock is inside the window: it began within a period of the grid point
      `base`, and `k` grid points have passed since. */
  lemma {:induction false} WindowPotential(rate: int, burst: int, b: Bucket, polls: seq<int>, s: int, t: int)
    returns (base: int, k: nat)
    requires Runs(rate, burst, b, polls) && polls != [] && s <= polls[|polls| - 1] <= t
    ensures var b' := After(rate, burst, b, polls);
            && s - rate < base && b'.last == base + k * rate && b'.last <= polls[|polls| - 1] && 0 <= b'.tokens
            && CountIn(Grants(rate, burst, b, polls), s, t) + b'.tokens <= burst + k
    decreases |polls|
  {
    var init, now := polls[..|polls| - 1], polls[|polls| - 1];
    var b1 := After(rate, burst, b, init);
    var before := Grants(rate, burst, b, init);
    RunsInit(rate, burst, b, polls);
    var k2 := PollStep(rate, burst, b1, now);
    CountAppend(before, now, s, t);
    assert before + [] == before;
    if init == [] || init[|init| - 1] < s {
      NothingEarlier(rate, burst, b, init, s, t);
      base, k := Poll(rate, burst, b1, now).1.last, 0;
    } else {
      var k1;
      base, k1 := WindowPotential(rate, burst, b, init, s, t);
      k := k1 + k2;
      Distribute(k1, k2, rate);
    }
  }

  /** In any window `[s, t]`, over any interleaving of waiters, at most `burst` plus one
      token per period, rounded up, is granted. */
  lemma {:induction false} SlidingWindow(rate: int, burst: int, b: Bucket, polls: seq<int>, s: int, t: int)
    requires Runs(rate, burst, b, polls) && s <= t
    ensures CountIn(Grants(rate, burst, b, polls), s, t) <= burst + CeilDiv(t - s, rate)
  {
    DivMono(0, t - s + rate - 1, rate);
    if polls != [] {
      var init, now := polls[..|polls| - 1], polls[|polls| - 1];
      if now < s {
        NothingEarlier(rate, burst, b, polls, s, t);
      } else if now <= t {
        var base, k := WindowPotential(rate, burst, b, polls, s, t);
        PeriodsFit(rate, k, t - s + rate - 1);
      } else {
        RunsInit(rate, burst, b, polls);
        SlidingWindow(rate, burst, b, init, s, t);
        CountAppend(Grants(rate, burst, b, init), now, s, t);
        assert Grants(rate, burst, b, init) + [] == Grants(rate, burst, b, init);
      }
    }
  }

  // ----- the window bound is exact -----

  /** As many polls as can be granted: the burst at `s`, then one at every grid point. */
  function Rush(rate: int, burst: int, s: int, n: nat): (rush: seq<int>)
    ensures |rush| == n
    ensures forall i :: 0 <= i < n ==> rush[i] == if i < burst then s else Grid(rate, i + 1 - burst)
  {
    if n == 0 then [] else Rush(rate, burst, s, n - 1) + [if n <= burst then s else Grid(rate, n - burst)]
  }

  lemma {:induction false} PollAtNextGrid(rate: int, burst: int, x: int)
    requires rate > 0 && burst > 0
    ensures Poll(rate, burst, Bucket(0, x), x + rate) == (true, Bucket(0, x + rate))
  {
    DivUnique(rate, rate, 1, 0);
  }

  lemma {:induction false} RushIsGranted(rate: int, burst: int, s: int, n: nat)
    requires rate > 0 && burst > 0 && 0 <= s < rate
    ensures var rush := Rush(rate, burst, s, n);
            && After(rate, burst, Bucket(burst, 0), rush) ==
               (if n <= burst then Bucket(burst - n, 0) else Bucket(0, Grid(rate, n - burst)))
            && Grants(rate, burst, Bucket(burst, 0), rush) == rush
  {
    if n > 0 {
      RushIsGranted(rate, burst, s, n - 1);
      assert Rush(rate, burst, s, n)[..n - 1] == Rush(rate, burst, s, n - 1);
      if n > burst {
        PollAtNextGrid(rate, burst, Grid(rate, n - 1 - burst));
      }
    }
  }

  lemma {:induction false} RushBetween(rate: int, burst: int, s: int, n: nat)
    requires rate > 0 && burst > 0 && 0 <= s < rate
    ensures var rush := Rush(rate, burst, s, n);
            && Sorted(rush) && forall i :: 0 <= i < n ==> s <= rush[i] <= if n <= burst then s else Grid(rate, n - burst)
  {
    var rush := Rush(rate, burst, s, n);
    forall i, j | 0 <= i <= j < n ensures s <= rush[i] <= rush[j] {
      if j >= burst {
        GridMono(rate, 1, j + 1 - burst);
        if i >= burst {
          GridMono(rate, 1, i + 1 - burst);
          GridMono(rate, i + 1 - burst, j + 1 - burst);
        }
      }
    }
    if n > burst {
      assert rush[n - 1] == Grid(rate, n - burst);
    }
  }

  lemma {:induction false} CountAll(times: seq<int>, s: int, t: int)
    requires forall i :: 0 <= i < |times| ==> s <= times[i] <= t
    ensures CountIn(times, s, t) == |times|
  {
    if times != [] {
      CountAll(times[..|times| - 1], s, t);
    }
  }

  /** In a window of width `w` starting at `s`, no more than `burst + floor(w / rate)` grants. */
  ghost predicate FloorBound(rate: int, burst: int, polls: seq<int>, s: int, w: int)
    requires rate > 0
  {
    CountIn(Grants(rate, burst, Bucket(burst, 0), polls), s, s + w) <= burst + w / rate
  }

  lemma {:induction false} RushRuns(rate: int, burst: int, s: int, n: nat)
    requires rate > 0 && burst > 0 && 0 <= s < rate
    ensures Runs(rate, burst, Bucket(burst, 0), Rush(rate, burst, s, n))
  {
    RushBetween(rate, burst, s, n);
  }

  lemma {:induction false} RushFills(rate: int, burst: int, s: int, n: nat, t: int)
    requires rate > 0 && 0 < burst <= n && 0 <= s < rate && s <= t == Grid(rate, n - burst)
    ensures CountIn(Grants(rate, burst, Bucket(burst, 0), Rush(rate, burst, s, n)), s, t) == n
  {
    RushIsGranted(rate, burst, s, n);
    RushBetween(rate, burst, s, n);
    CountAll(Rush(rate, burst, s, n), s, t);
  }

  /** A run that gets `n` grants by the grid point `n - burst`, all from `s` on. */
  lemma {:induction false} SomeRush(rate: int, burst: int, s: int, n: nat, t: int) returns (polls: seq<int>)
    requires rate > 0 && 0 < burst <= n && 0 <= s < rate && s <= t == Grid(rate, n - burst)
    ensures Runs(rate, burst, Bucket(burst, 0), polls)
    ensures CountIn(Grants(rate, burst, Bucket(burst, 0), polls), s, t) == n
  {
    polls := Rush(rate, burst, s, n);
    RushRuns(rate, burst, s, n);
    RushFills(rate, burst, s, n, t);
  }

  /** A run and a window that meet the rounded-up bound exactly. */
  lemma {:induction false} WindowIsTight(rate: int, burst: int, w: int) returns (polls: seq<int>, s: int)
    requires rate > 0 && burst > 0 && w >= 0
    ensures Runs(rate, burst, Bucket(burst, 0), polls)
    ensures CountIn(Grants(rate, burst, Bucket(burst, 0), polls), s, s + w) == burst + CeilDiv(w, rate)
  {
    var m;
    s, m := WindowEnd(rate, w);
    polls := SomeRush(rate, burst, s, burst + m, s + w);
  }

  /** A window of width `w` that ends on a grid point and starts within the first period. */
  lemma {:induction false} WindowEnd(rate: int, w: int) returns (s: int, m: nat)
    requires rate > 0 && w >= 0
    ensures m == CeilDiv(w, rate) && 0 <= s < rate && s + w == Grid(rate, m)
  {
    s := if w % rate == 0 then 0 else rate - w % rate;
    CeilIsFloorPlus(w, rate);
    DivMono(0, w, rate);
    m := CeilDiv(w, rate);
    GridIs(rate, m);
    Distribute(w / rate, 1, rate);
  }

  /** The bound without rounding up holds of all runs and windows exactly when the width
      is a whole number of periods. */
  lemma {:induction false} FloorBoundExactly(rate: int, burst: int, w: int)
    requires rate > 0 && burst > 0 && w >= 0
    ensures w % rate == 0 <==>
            forall polls, s :: Runs(rate, burst, Bucket(burst, 0), polls) ==> FloorBound(rate, burst, polls, s, w)
  {
    CeilIsFloorPlus(w, rate);
    if w % rate == 0 {
      forall polls, s | Runs(rate, burst, Bucket(burst, 0), polls) ensures FloorBound(rate, burst, polls, s, w) {
        SlidingWindow(rate, burst, Bucket(burst, 0), polls, s, s + w);
      }
    } else {
      var polls, s := WindowIsTight(rate, burst, w);
      assert !FloorBound(rate, burst, polls, s, w);
    }
  }
}
