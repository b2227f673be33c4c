/** Any number of calls to one reliable client, interleaved: each attempt polls the
    limiter, enters the breaker, makes the base call and leaves the breaker, one atomic
    step each. */
module ClientSystem {
  import opened Common
  import opened Arithmetic
  import opened TokenBucket
  import CB = CircuitBreaker
  import opened RetryPolicy

  /** A call waiting for a token (`polled` once it has asked in this attempt), holding that of
      one grant, inside the base call it made with it, or finished. */
  datatype Phase =
    | Waiting(polled: bool)
    | Holding(grant: nat)
    | Calling(start: int)
    | Finished(err: Option<CallError>)

  datatype ClientCall = ClientCall(attempt: nat, phase: Phase, calls: nat, rejections: nat)

  datatype Setup = Setup(rate: int, burst: int, maxFails: int, resetAfter: int, policy: Policy)

  /** `polls` and `grants` are the limiter's clock readings; `base` and `rejected` are the
      grants that paid for a base call and for a rejection. All four are history. */
  datatype Client = Client(
    bucket: Bucket, breaker: CB.Breaker, calls: map<nat, ClientCall>,
    polls: seq<int>, grants: seq<int>, base: set<nat>, rejected: set<nat>)

  /** `Cancel` is the retry loop's own context check or interrupted backoff; `GiveUp` is
      the limiter's error, which the retry policy judges like any other. */
  datatype Event =
    | Begin(id: nat)
    | PollLimiter(id: nat, now: int)
    | Cancel(id: nat, err: CallError)
    | GiveUp(id: nat, err: CallError)
    | Admit(id: nat, now: int)
    | Return(id: nat, outcome: Option<CallError>)

  function Start(setup: Setup, t0: int): Client {
    Client(Bucket(setup.burst, t0), CB.FRESH, map[], [], [], {}, {})
  }

  /** What the retry loop does with a failed attempt. */
  function AfterFailure(p: Policy, c: ClientCall, err: CallError): ClientCall {
    if c.attempt >= p.Attempts() || !p.shouldRetry(err) then c.(phase := Finished(Some(err)))
    else c.(attempt := c.attempt + 1, phase := Waiting(false))
  }

  /** The call that event `e` moves, after the move; `ticket` is the next grant. */
  function Moved(setup: Setup, granted: bool, ticket: nat, c: ClientCall, e: Event): ClientCall {
    match e
    case Begin(_) => c
    case PollLimiter(_, _) => c.(phase := if granted then Holding(ticket) else Waiting(true))
    case Cancel(_, err) => c.(phase := Finished(Some(err)))
    case GiveUp(_, err) => AfterFailure(setup.policy, c, err)
    case Admit(_, now) =>
      if granted then c.(phase := Calling(now), calls := c.calls + 1)
      else AfterFailure(setup.policy, c.(rejections := c.rejections + 1), CircuitOpen)
    case Return(_, outcome) =>
      if outcome.None? then c.(phase := Finished(None)) else AfterFailure(setup.policy, c, outcome.value)
  }

  /** Whether call `c` is where event `e` can happen to it. */
  predicate Ready(c: ClientCall, e: Event) {
    match e
    case Begin(_) => false
    case PollLimiter(_, _) => c.phase.Waiting?
    case Cancel(_, _) => c.phase == Waiting(false)
    case GiveUp(_, _) => c.phase.Waiting?
    case Admit(_, _) => c.phase.Holding?
    case Return(_, _) => c.phase.Calling?
  }

  function Next(setup: Setup, s: Client, e: Event): Client {
    if e.id !in s.calls then
      if e.Begin? then s.(calls := s.calls[e.id := ClientCall(1, Waiting(false), 0, 0)]) else s
    else
      var c := s.calls[e.id];
      if !Ready(c, e) then s
      else
        match e
        case PollLimiter(id, now) =>
          var (granted, b) := Poll(setup.rate, setup.burst, s.bucket, now);
          s.(bucket := b, polls := s.polls + [now], grants := s.grants + if granted then [now] else [],
             calls := s.calls[id := Moved(setup, granted, |s.grants|, c, e)])
        case Admit(id, now) =>
          var (admitted, b) := CB.Enter(setup.resetAfter, s.breaker, now);
          s.(breaker := b,
             base := s.base + if admitted then {c.phase.grant} else {},
             rejected := s.rejected + if admitted then {} else {c.phase.grant},
             calls := s.calls[id := Moved(setup, admitted, 0, c, e)])
        case Return(id, outcome) =>
          s.(breaker := CB.Exit(setup.maxFails, s.breaker, c.phase.start, outcome.None?),
             calls := s.calls[id := Moved(setup, true, 0, c, e)])
        case Cancel(id, _) => s.(calls := s.calls[id := Moved(setup, true, 0, c, e)])
        case GiveUp(id, _) => s.(calls := s.calls[id := Moved(setup, true, 0, c, e)])
  }

  function Run(setup: Setup, t0: int, events: seq<Event>): Client {
    if events == [] then Start(setup, t0)
    else Next(setup, Run(setup, t0, events[..|events| - 1]), events[|events| - 1])
  }

  // ----- every token is accounted for -----

  /** The grants held by calls, by call. */
  function Held(calls: map<nat, ClientCall>): map<nat, nat> {
    map id | id in calls && calls[id].phase.Holding? :: calls[id].phase.grant
  }

  /** The first `n` grants, as far as they are spent or held, are each used once. */
  ghost predicate Tickets(n: nat, spent: set<nat>, held: map<nat, nat>) {
    && (forall g :: g in spent ==> g < n)
    && (forall id :: id in held ==> held[id] < n && held[id] !in spent)
    && (forall i, j :: i in held && j in held && held[i] == held[j] ==> i == j)
    && n == |spent| + |held|
  }

  ghost predicate Accounted(s: Client) {
    s.base !! s.rejected && Tickets(|s.grants|, s.base + s.rejected, Held(s.calls))
  }

  lemma {:induction false} TakeTicket(n: nat, spent: set<nat>, held: map<nat, nat>, id: nat)
    requires Tickets(n, spent, held) && id !in held
    ensures Tickets(n + 1, spent, held[id := n])
  {
    assert held[id := n].Keys == held.Keys + {id};
    assert |held[id := n]| == |held[id := n].Keys| && |held| == |held.Keys|;
  }

  lemma {:induction false} SpendTicket(n: nat, spent: set<nat>, held: map<nat, nat>, id: nat)
    requires Tickets(n, spent, held) && id in held
    ensures Tickets(n, spent + {held[id]}, held - {id})
  {
    assert (held - {id}).Keys == held.Keys - {id};
    assert |held - {id}| == |(held - {id}).Keys| && |held| == |held.Keys|;
  }

  lemma {:induction false} HoldsNone(calls: map<nat, ClientCall>, id: nat, c: ClientCall)
    requires !c.phase.Holding? && (id in calls ==> !calls[id].phase.Holding?)
    ensures Held(calls[id := c]) == Held(calls)
  {
  }

  lemma {:induction false} HoldsFrom(calls: map<nat, ClientCall>, id: nat, c: ClientCall)
    requires c.phase.Holding?
    ensures Held(calls[id := c]) == Held(calls)[id := c.phase.grant]
  {
  }

  lemma {:induction false} HoldsNoMore(calls: map<nat, ClientCall>, id: nat, c: ClientCall)
    requires !c.phase.Holding?
    ensures Held(calls[id := c]) == Held(calls) - {id}
  {
  }

  lemma {:induction false} PollAccounted(setup: Setup, s: Client, e: Event)
    requires Accounted(s) && e.PollLimiter? && e.id in s.calls && Ready(s.calls[e.id], e)
    ensures Accounted(Next(setup, s, e))
  {
    var s' := Next(setup, s, e);
    if s'.calls[e.id].phase.Holding? {
      HoldsFrom(s.calls, e.id, s'.calls[e.id]);
      TakeTicket(|s.grants|, s.base + s.rejected, Held(s.calls), e.id);
    } else {
      HoldsNone(s.calls, e.id, s'.calls[e.id]);
    }
  }

  /** A held ticket is spent on a base call or on a rejection. */
  lemma {:induction false} SpendOn(n: nat, base: set<nat>, rejected: set<nat>, held: map<nat, nat>, id: nat, admitted: bool)
    requires base !! rejected && Tickets(n, base + rejected, held) && id in held
    ensures var base' := base + if admitted then {held[id]} else {};
            var rejected' := rejected + if admitted then {} else {held[id]};
            base' !! rejected' && Tickets(n, base' + rejected', held - {id})
  {
    SpendTicket(n, base + rejected, held, id);
    var g := held[id];
    if admitted {
      assert (base + {g}) + (rejected + {}) == base + rejected + {g};
    } else {
      assert (base + {}) + (rejected + {g}) == base + rejected + {g};
    }
  }

  lemma {:induction false} AdmitAccounted(setup: Setup, s: Client, e: Event)
    requires Accounted(s) && e.Admit? && e.id in s.calls && Ready(s.calls[e.id], e)
    ensures Accounted(Next(setup, s, e))
  {
    HoldsNoMore(s.calls, e.id, Next(setup, s, e).calls[e.id]);
    SpendOn(|s.grants|, s.base, s.rejected, Held(s.calls), e.id, CB.Enter(setup.resetAfter, s.breaker, e.now).0);
  }

  lemma {:induction false} NextAccounted(setup: Setup, s: Client, e: Event)
    requires Accounted(s)
    ensures Accounted(Next(setup, s, e))
  {
    if e.id !in s.calls {
      HoldsNone(s.calls, e.id, ClientCall(1, Waiting(false), 0, 0));
    } else if Ready(s.calls[e.id], e) {
      if e.PollLimiter? {
        PollAccounted(setup, s, e);
      } else if e.Admit? {
        AdmitAccounted(setup, s, e);
      } else {
        HoldsNone(s.calls, e.id, Next(setup, s, e).calls[e.id]);
      }
    }
  }

  lemma {:induction false} RunAccounted(setup: Setup, t0: int, events: seq<Event>)
    ensures Accounted(Run(setup, t0, events))
  {
    if events == [] {
      assert Held(Start(setup, t0).calls) == map[];
    } else {
      RunAccounted(setup, t0, events[..|events| - 1]);
      NextAccounted(setup, Run(setup, t0, events[..|events| - 1]), events[|events| - 1]);
    }
  }

  /** Conservation: in every interleaving, each token granted has paid for one base call or
      one rejection, or is held by a call on its way into the breaker. */
  lemma {:induction false} TokensAreSpent(setup: Setup, t0: int, events: seq<Event>)
    ensures var s := Run(setup, t0, events);
            s.base !! s.rejected && |s.grants| == |s.base| + |s.rejected| + |Held(s.calls)|
    ensures var s := Run(setup, t0, events);
            forall g :: 0 <= g < |s.grants| ==> g in s.base || g in s.rejected || g in Held(s.calls).Values
  {
    RunAccounted(setup, t0, events);
    var s := Run(setup, t0, events);
    var used := s.base + s.rejected + Held(s.calls).Values;
    ValuesCount(Held(s.calls));
    FillsUp(used, |s.grants|);
  }

  /** An injective map has as many values as keys. */
  lemma {:induction false} ValuesCount(held: map<nat, nat>)
    requires forall i, j :: i in held && j in held && held[i] == held[j] ==> i == j
    ensures |held.Values| == |held|
    decreases |held|
  {
    if held != map[] {
      var i :| i in held;
      var rest: map<nat, nat> := map j | j in held && j != i :: held[j];
      OneKeyLess(held, rest, i);
      ValuesCount(rest);
      ValuesSplit(held, rest, i);
    } else {
      assert held.Values == {};
    }
  }

  lemma {:induction false} OneKeyLess(held: map<nat, nat>, rest: map<nat, nat>, i: nat)
    requires i in held && rest == map j | j in held && j != i :: held[j]
    ensures |rest| == |held| - 1
  {
    assert rest.Keys == held.Keys - {i};
    assert |held| == |held.Keys| && |rest| == |rest.Keys|;
  }

  lemma {:induction false} ValuesSplit(held: map<nat, nat>, rest: map<nat, nat>, i: nat)
    requires i in held && rest == map j | j in held && j != i :: held[j]
    ensures held.Values == rest.Values + {held[i]}
  {
    forall v | v in held.Values ensures v in rest.Values + {held[i]} {
      var j :| j in held && held[j] == v;
      if j != i { assert rest[j] == v; }
    }
    forall v | v in rest.Values + {held[i]} ensures v in held.Values {
      if v != held[i] {
        var j :| j in rest && rest[j] == v;
        assert held[j] == v;
      }
    }
  }

  /** `n` numbers below `n` are all of them. */
  lemma {:induction false} FillsUp(some: set<nat>, n: nat)
    requires |some| == n && forall g :: g in some ==> g < n
    ensures forall g :: 0 <= g < n ==> g in some
  {
    if g: nat :| g < n && g !in some {
      Bounded(some + {g}, n);
    }
  }

  lemma {:induction false} Bounded(some: set<nat>, n: nat)
    requires forall g :: g in some ==> g < n
    ensures |some| <= n
  {
    if n > 0 {
      Bounded(some - {n - 1}, n - 1);
    } else {
      assert some == {};
    }
  }

  // ----- base calls inherit the limiter's window bound -----

  ghost predicate LimiterHistory(setup: Setup, t0: int, s: Client) {
    && s.bucket == After(setup.rate, setup.burst, Bucket(setup.burst, t0), s.polls)
    && s.grants == Grants(setup.rate, setup.burst, Bucket(setup.burst, t0), s.polls)
  }

  lemma {:induction false} RunLimiter(setup: Setup, t0: int, events: seq<Event>)
    ensures LimiterHistory(setup, t0, Run(setup, t0, events))
  {
    if events != [] {
      RunLimiter(setup, t0, events[..|events| - 1]);
      var s, e := Run(setup, t0, events[..|events| - 1]), events[|events| - 1];
      if e.PollLimiter? && e.id in s.calls && Ready(s.calls[e.id], e) {
        assert (s.polls + [e.now])[..|s.polls|] == s.polls;
        assert s.grants + [] == s.grants;
      }
    }
  }

  /** The members of `some` whose grant falls in the window. */
  function InWindow(grants: seq<int>, some: set<nat>, s: int, t: int): set<nat> {
    set g | g in some && g < |grants| && s <= grants[g] <= t
  }

  lemma {:induction false} WindowCount(grants: seq<int>, some: set<nat>, s: int, t: int)
    ensures |InWindow(grants, some, s, t)| <= CountIn(grants, s, t)
  {
    if grants == [] {
      assert InWindow(grants, some, s, t) == {};
    } else {
      var k := |grants| - 1;
      WindowCount(grants[..k], some, s, t);
      var rest := InWindow(grants[..k], some, s, t);
      if k in some && s <= grants[k] <= t {
        assert InWindow(grants, some, s, t) == rest + {k};
      } else {
        assert InWindow(grants, some, s, t) == rest;
      }
    }
  }

  /** However many calls share the client, the base calls paid by tokens granted in a
      window of the clock are at most `burst` plus one per period, rounded up. */
  lemma {:induction false} BaseCallsInWindow(setup: Setup, t0: int, events: seq<Event>, from: int, to: int)
    requires from <= to && Runs(setup.rate, setup.burst, Bucket(setup.burst, t0), Run(setup, t0, events).polls)
    ensures var s := Run(setup, t0, events);
            |InWindow(s.grants, s.base, from, to)| <= setup.burst + CeilDiv(to - from, setup.rate)
  {
    var s := Run(setup, t0, events);
    RunLimiter(setup, t0, events);
    WindowCount(s.grants, s.base, from, to);
    SlidingWindow(setup.rate, setup.burst, Bucket(setup.burst, t0), s.polls, from, to);
  }

  /** And from construction on, base calls and rejections together are at most `burst`
      plus one per full period. */
  lemma {:induction false} BaseCallsSinceStart(setup: Setup, t0: int, events: seq<Event>, to: int)
    requires t0 <= to && Runs(setup.rate, setup.burst, Bucket(setup.burst, t0), Run(setup, t0, events).polls)
    requires forall i :: 0 <= i < |Run(setup, t0, events).polls| ==> Run(setup, t0, events).polls[i] <= to
    ensures var s := Run(setup, t0, events);
            |s.base| + |s.rejected| <= setup.burst + (to - t0) / setup.rate
  {
    TokensAreSpent(setup, t0, events);
    RunLimiter(setup, t0, events);
    GrantsSinceStart(setup.rate, setup.burst, t0, Run(setup, t0, events).polls, to);
  }

  // ----- the breaker inside the client is the breaker of `CircuitBreaker` -----

  /** What an event is to the breaker. */
  function Crossing(s: Client, e: Event): seq<CB.Event> {
    if e.id !in s.calls || !Ready(s.calls[e.id], e) then []
    else
      match e
      case Admit(id, now) => [CB.Enters(id, now)]
      case Return(id, outcome) => [CB.Exits(id, outcome.None?)]
      case _ => []
  }

  function Crossings(setup: Setup, t0: int, events: seq<Event>): seq<CB.Event> {
    if events == [] then []
    else
      var init := events[..|events| - 1];
      Crossings(setup, t0, init) + Crossing(Run(setup, t0, init), events[|events| - 1])
  }

  ghost predicate SameBreaker(s: Client, c: CB.System) {
    && s.breaker == c.b
    && forall id: nat :: (id in c.flights <==> id in s.calls && s.calls[id].phase.Calling?)
                         && (id in c.flights ==> c.flights[id].start == s.calls[id].phase.start)
  }

  lemma {:induction false} NextCrossing(setup: Setup, s: Client, e: Event, c: CB.System)
    requires SameBreaker(s, c)
    ensures SameBreaker(Next(setup, s, e),
                        if Crossing(s, e) == [] then c
                        else CB.Next(setup.maxFails, setup.resetAfter, c, Crossing(s, e)[0]))
  {
  }

  /** Refinement: whatever the clients' calls do, the breaker they share makes a run of
      the breaker's own system, so what holds of every such run holds here. */
  lemma {:induction false} BreakerRefines(setup: Setup, t0: int, events: seq<Event>)
    ensures SameBreaker(Run(setup, t0, events),
                        CB.Run(setup.maxFails, setup.resetAfter, Crossings(setup, t0, events)))
  {
    if events != [] {
      var init, e := events[..|events| - 1], events[|events| - 1];
      var s, before := Run(setup, t0, init), Crossings(setup, t0, init);
      BreakerRefines(setup, t0, init);
      NextCrossing(setup, s, e, CB.Run(setup.maxFails, setup.resetAfter, before));
      var step := Crossing(s, e);
      if step == [] {
        assert before + step == before;
      } else {
        assert (before + step)[..|before + step| - 1] == before;
      }
    }
  }

  /** For one: the client's breaker is closed exactly when fewer than `maxFails` base calls
      have failed in a row, in the order they returned. */
  lemma {:induction false} ClientBreakerFollowsHistory(setup: Setup, t0: int, events: seq<Event>)
    requires setup.maxFails >= 1
    ensures var history := CB.Run(setup.maxFails, setup.resetAfter, Crossings(setup, t0, events)).history;
            Run(setup, t0, events).breaker.gate.Closed? <==> CB.Streak(history) < setup.maxFails
  {
    BreakerRefines(setup, t0, events);
    CB.StateIsHistory(setup.maxFails, setup.resetAfter, Crossings(setup, t0, events));
  }

  // ----- each call -----

  ghost predicate CallOk(p: Policy, c: ClientCall) {
    && 1 <= c.attempt <= p.Attempts()
    && c.rejections <= 1
    && match c.phase
       case Waiting(_) => c.calls < c.attempt && c.rejections == 0
       case Holding(_) => c.calls < c.attempt && c.rejections == 0
       case Calling(_) => 1 <= c.calls <= c.attempt && c.rejections == 0
       case Finished(err) =>
         && c.calls + c.rejections <= c.attempt
         && (c.rejections == 1 ==> err == Some(CircuitOpen))
         && (err.None? ==> c.calls > 0)
  }

  lemma {:induction false} MovedOk(setup: Setup, granted: bool, ticket: nat, c: ClientCall, e: Event)
    requires setup.policy.shouldRetry == DefaultShouldRetry && CallOk(setup.policy, c) && Ready(c, e)
    ensures CallOk(setup.policy, Moved(setup, granted, ticket, c, e))
  {
    assert !setup.policy.shouldRetry(CircuitOpen);
  }

  ghost predicate CallsOk(p: Policy, calls: map<nat, ClientCall>) {
    forall id :: id in calls ==> CallOk(p, calls[id])
  }

  lemma {:induction false} RunCallsOk(setup: Setup, t0: int, events: seq<Event>)
    requires setup.policy.shouldRetry == DefaultShouldRetry
    ensures CallsOk(setup.policy, Run(setup, t0, events).calls)
  {
    if events != [] {
      RunCallsOk(setup, t0, events[..|events| - 1]);
      var s, e := Run(setup, t0, events[..|events| - 1]), events[|events| - 1];
      if e.id in s.calls && Ready(s.calls[e.id], e) {
        forall granted, ticket ensures CallOk(setup.policy, Moved(setup, granted, ticket, s.calls[e.id], e)) {
          MovedOk(setup, granted, ticket, s.calls[e.id], e);
        }
      }
    }
  }

  /** With the default policy, in every interleaving, a call makes at most
      `max(1, MaxAttempts)` base calls and meets at most one rejection, which ends it. */
  lemma {:induction false} CallsAreBounded(setup: Setup, t0: int, events: seq<Event>, id: nat)
    requires setup.policy.shouldRetry == DefaultShouldRetry && id in Run(setup, t0, events).calls
    ensures var c := Run(setup, t0, events).calls[id];
            && c.calls <= Max(1, setup.policy.maxAttempts)
            && c.rejections <= 1 && (c.rejections == 1 ==> c.phase == Finished(Some(CircuitOpen)))
            && (c.phase == Finished(None) ==> c.calls > 0)
  {
    RunCallsOk(setup, t0, events);
  }

  /** Once every call has finished, grants are base calls plus rejections. */
  lemma {:induction false} FinishedMeansSpent(setup: Setup, t0: int, events: seq<Event>)
    requires var s := Run(setup, t0, events); forall id :: id in s.calls ==> s.calls[id].phase.Finished?
    ensures var s := Run(setup, t0, events); |s.grants| == |s.base| + |s.rejected|
  {
    TokensAreSpent(setup, t0, events);
    assert Held(Run(setup, t0, events).calls) == map[];
  }
}
