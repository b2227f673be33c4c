/** The circuit breaker: its two locked sections, the object, and every interleaving of
    the calls it guards. A call reads its clock before the first section and keeps that
    reading for the second. */
module CircuitBreaker {
  import opened Common
  import opened Arithmetic

  datatype Gate = Closed | Open | HalfOpen

  datatype Breaker = Breaker(gate: Gate, failures: int, openedAt: int, flight: bool)

  const FRESH := Breaker(Closed, 0, 0, false)

  const DEFAULT_RESET := 2_000_000_000

  /** The first section: whether the call is admitted, and the breaker it leaves. */
  function Enter(resetAfter: int, b: Breaker, now: int): (bool, Breaker) {
    if b.gate.Open? && now - b.openedAt < resetAfter then (false, b)
    else if b.gate.HalfOpen? && b.flight then (false, b)
    else if b.gate.Closed? then (true, b)
    else (true, b.(gate := HalfOpen, flight := true))
  }

  /** The second section, for a call that started at `start`. */
  function Exit(maxFails: int, b: Breaker, start: int, ok: bool): Breaker {
    if ok then b.(gate := Closed, failures := 0, flight := if b.gate.HalfOpen? then false else b.flight)
    else if b.gate.HalfOpen? then Breaker(Open, 0, start, false)
    else if b.failures + 1 >= maxFails then b.(gate := Open, failures := b.failures + 1, openedAt := start)
    else b.(failures := b.failures + 1)
  }

  // ----- any number of calls, interleaved -----

  /** An admitted call between its two sections; `trial` when it was admitted half-open. */
  datatype Flight = Flight(start: int, trial: bool)

  datatype Event =
    | Enters(id: nat, now: int)
    | Exits(id: nat, ok: bool)

  /** An exit: how the call ended, whether it found the breaker half-open, and when the
      call started. */
  datatype Outcome = Outcome(ok: bool, half: bool, start: int)

  /** `history` holds the outcomes in exit order. `stale` counts exits of ordinary calls
      that landed while half-open, `late` exits of trials that landed when it was not. */
  datatype System = System(b: Breaker, flights: map<nat, Flight>, history: seq<Outcome>, stale: nat, late: nat)

  const INIT := System(FRESH, map[], [], 0, 0)

  function Next(maxFails: int, resetAfter: int, s: System, e: Event): System {
    match e
    case Enters(id, now) =>
      if id in s.flights then s
      else
        var (admitted, b) := Enter(resetAfter, s.b, now);
        if !admitted then s.(b := b)
        else s.(b := b, flights := s.flights[id := Flight(now, b.gate.HalfOpen?)])
    case Exits(id, ok) =>
      if id !in s.flights then s
      else
        var f := s.flights[id];
        System(Exit(maxFails, s.b, f.start, ok), s.flights - {id}, s.history + [Outcome(ok, s.b.gate.HalfOpen?, f.start)],
               s.stale + (if !f.trial && s.b.gate.HalfOpen? then 1 else 0),
               s.late + (if f.trial && !s.b.gate.HalfOpen? then 1 else 0))
  }

  function Run(maxFails: int, resetAfter: int, events: seq<Event>): System {
    if events == [] then INIT
    else Next(maxFails, resetAfter, Run(maxFails, resetAfter, events[..|events| - 1]), events[|events| - 1])
  }

  /** Half-open and the flight flag are the same bit between sections. */
  ghost predicate FlagFits(b: Breaker) {
    b.gate.HalfOpen? <==> b.flight
  }

  function Trials(flights: map<nat, Flight>): set<nat> {
    set id | id in flights && flights[id].trial
  }

  /** The number of failures since the last success. */
  function Streak(history: seq<Outcome>): nat {
    if history == [] || history[|history| - 1].ok then 0 else 1 + Streak(history[..|history| - 1])
  }

  // ----- trials in flight -----

  ghost predicate TrialsBalance(s: System) {
    FlagFits(s.b) && |Trials(s.flights)| + s.late == (if s.b.gate.HalfOpen? then 1 else 0) + s.stale
  }

  lemma {:induction false} NextTrials(maxFails: int, resetAfter: int, s: System, e: Event)
    requires TrialsBalance(s)
    ensures TrialsBalance(Next(maxFails, resetAfter, s, e))
  {
    var s' := Next(maxFails, resetAfter, s, e);
    if e.Enters? && e.id !in s.flights {
      if e.id in s'.flights && s'.flights[e.id].trial {
        assert Trials(s'.flights) == Trials(s.flights) + {e.id};
      } else {
        assert Trials(s'.flights) == Trials(s.flights);
      }
    } else if e.Exits? && e.id in s.flights {
      assert Trials(s'.flights) == Trials(s.flights) - {e.id};
    }
  }

  /** In every interleaving: trials in flight, plus trials that exited late, equal one if
      half-open, plus the stale exits that freed the slot. */
  lemma {:induction false} TrialsInFlight(maxFails: int, resetAfter: int, events: seq<Event>)
    ensures TrialsBalance(Run(maxFails, resetAfter, events))
  {
    if events != [] {
      TrialsInFlight(maxFails, resetAfter, events[..|events| - 1]);
      NextTrials(maxFails, resetAfter, Run(maxFails, resetAfter, events[..|events| - 1]), events[|events| - 1]);
    } else {
      assert Trials(INIT.flights) == {};
    }
  }

  /** There is more than one trial at once exactly when stale exits outnumber late ones
      enough; without a stale exit, never. */
  lemma {:induction false} OneTrialUnlessStale(maxFails: int, resetAfter: int, events: seq<Event>)
    ensures var s := Run(maxFails, resetAfter, events);
            && (|Trials(s.flights)| <= 1 <==> s.stale + (if s.b.gate.HalfOpen? then 1 else 0) <= s.late + 1)
            && (s.stale == 0 ==> |Trials(s.flights)| <= 1)
  {
    TrialsInFlight(maxFails, resetAfter, events);
  }

  /** One event more. */
  lemma {:induction false} RunNext(maxFails: int, resetAfter: int, events: seq<Event>, e: Event)
    ensures Run(maxFails, resetAfter, events + [e]) == Next(maxFails, resetAfter, Run(maxFails, resetAfter, events), e)
  {
    assert (events + [e])[..|events|] == events;
  }

  /** Calls `0 .. left` admitted at time 0 are still in flight, and no id from `unused` on is. */
  ghost predicate Pending(s: System, left: nat, unused: nat) {
    && (forall id: nat :: id < left ==> id in s.flights && s.flights[id] == Flight(0, false))
    && (forall id: nat :: id >= unused ==> id !in s.flights)
  }

  lemma {:induction false} OneEnters(maxFails: int, resetAfter: int, s: System, n: nat)
    requires s.b == FRESH && Pending(s, n, n)
    ensures var s' := Next(maxFails, resetAfter, s, Enters(n, 0));
            s'.b == FRESH && Pending(s', n + 1, n + 1) && s'.stale == s.stale && s'.late == s.late
  {
  }

  /** `n` ordinary calls enter. */
  lemma {:induction false} ManyEnter(maxFails: int, resetAfter: int, n: nat) returns (events: seq<Event>)
    ensures var s := Run(maxFails, resetAfter, events);
            s.b == FRESH && Pending(s, n, n) && s.stale == 0 && s.late == 0
  {
    events := [];
    if n > 0 {
      var before := ManyEnter(maxFails, resetAfter, n - 1);
      RunNext(maxFails, resetAfter, before, Enters(n - 1, 0));
      OneEnters(maxFails, resetAfter, Run(maxFails, resetAfter, before), n - 1);
      events := before + [Enters(n - 1, 0)];
    }
  }

  /** `k` of them fail, at most the `maxFails` that open the breaker. */
  lemma {:induction false} SomeFail(maxFails: int, resetAfter: int, n: nat, k: nat) returns (events: seq<Event>)
    requires k <= maxFails && maxFails >= 1
    ensures var s := Run(maxFails, resetAfter, events);
            && s.b == Breaker(if k == maxFails then Open else Closed, k, 0, false)
            && Pending(s, n + maxFails - k, n + maxFails) && s.stale == 0 && s.late == 0
  {
    if k == 0 {
      events := ManyEnter(maxFails, resetAfter, n + maxFails);
    } else {
      var before := SomeFail(maxFails, resetAfter, n, k - 1);
      RunNext(maxFails, resetAfter, before, Exits(n + maxFails - k, false));
      events := before + [Exits(n + maxFails - k, false)];
    }
  }

  /** `k` times a trial enters, and an ordinary call that fails meanwhile frees its slot. */
  lemma {:induction false} TrialsPileUp(maxFails: int, resetAfter: int, n: nat, k: nat) returns (events: seq<Event>)
    requires maxFails >= 1 && resetAfter > 0 && k <= n
    ensures var s := Run(maxFails, resetAfter, events);
            && s.b.gate.Open? && s.b.openedAt == 0 && !s.b.flight
            && Pending(s, n - k, n + maxFails + k) && s.stale == k && s.late == 0
  {
    if k == 0 {
      events := SomeFail(maxFails, resetAfter, n, maxFails);
    } else {
      var before := TrialsPileUp(maxFails, resetAfter, n, k - 1);
      var enter, fail := Enters(n + maxFails + k - 1, resetAfter), Exits(n - k, false);
      RunNext(maxFails, resetAfter, before, enter);
      RunNext(maxFails, resetAfter, before + [enter], fail);
      events := before + [enter] + [fail];
    }
  }

  /** Trials are not bounded: whatever the threshold and the timeout, any number of them can
      be in flight at once. */
  lemma {:induction false} AnyNumberOfTrials(maxFails: int, resetAfter: int, n: nat) returns (events: seq<Event>)
    requires maxFails >= 1 && resetAfter > 0
    ensures |Trials(Run(maxFails, resetAfter, events).flights)| == n
  {
    events := TrialsPileUp(maxFails, resetAfter, n, n);
    TrialsInFlight(maxFails, resetAfter, events);
  }

  // ----- the state is a function of the exit history -----

  /** The failures since the last success or the last half-open exit. */
  function Counted(history: seq<Outcome>): nat {
    if history == [] || history[|history| - 1].ok || history[|history| - 1].half then 0
    else 1 + Counted(history[..|history| - 1])
  }

  /** The start of the last call whose failure opened the breaker, or kept it open: it
      failed half-open, or was at least the `maxFails`-th failure counted. */
  function LastOpening(maxFails: int, history: seq<Outcome>): Option<int> {
    if history == [] then None
    else
      var last := history[|history| - 1];
      if !last.ok && (last.half || Counted(history) >= maxFails) then Some(last.start)
      else LastOpening(maxFails, history[..|history| - 1])
  }

  ghost predicate FollowsStreak(maxFails: int, s: System) {
    && FlagFits(s.b)
    && (s.b.gate.Closed? <==> Streak(s.history) < maxFails)
    && (s.b.gate.Closed? ==> s.b.failures == Streak(s.history))
  }

  ghost predicate FollowsOpening(maxFails: int, s: System) {
    && s.b.failures == Counted(s.history)
    && (!s.b.gate.Closed? ==> LastOpening(maxFails, s.history) == Some(s.b.openedAt))
  }

  ghost predicate FollowsHistory(maxFails: int, s: System) {
    FollowsStreak(maxFails, s) && FollowsOpening(maxFails, s)
  }

  lemma {:induction false} HistoryNext(maxFails: int, history: seq<Outcome>, last: Outcome)
    ensures Streak(history + [last]) == if last.ok then 0 else 1 + Streak(history)
    ensures Counted(history + [last]) == if last.ok || last.half then 0 else 1 + Counted(history)
    ensures LastOpening(maxFails, history + [last]) ==
            if !last.ok && (last.half || Counted(history + [last]) >= maxFails) then Some(last.start)
            else LastOpening(maxFails, history)
  {
    assert (history + [last])[..|history|] == history;
  }

  lemma {:induction false} NextHistory(maxFails: int, resetAfter: int, s: System, e: Event)
    requires maxFails >= 1 && FollowsHistory(maxFails, s)
    ensures FollowsHistory(maxFails, Next(maxFails, resetAfter, s, e))
  {
    if e.Exits? && e.id in s.flights {
      HistoryNext(maxFails, s.history, Outcome(e.ok, s.b.gate.HalfOpen?, s.flights[e.id].start));
    }
  }

  /** In every interleaving the breaker is not closed exactly when the last `maxFails`
      exits all failed; when closed, its counter is that streak; and what it waits from is
      the start of the last call whose failure opened it. */
  lemma {:induction false} StateIsHistory(maxFails: int, resetAfter: int, events: seq<Event>)
    requires maxFails >= 1
    ensures FollowsHistory(maxFails, Run(maxFails, resetAfter, events))
  {
    if events != [] {
      StateIsHistory(maxFails, resetAfter, events[..|events| - 1]);
      NextHistory(maxFails, resetAfter, Run(maxFails, resetAfter, events[..|events| - 1]), events[|events| - 1]);
    }
  }

  // ----- calls one after another -----

  /** A sequential call: its clock reading, and how the guarded call would end. */
  datatype Call = Call(now: int, ok: bool)

  /** The breaker and the admitted calls, after `calls` one after another. */
  function Serial(maxFails: int, resetAfter: int, calls: seq<Call>): (Breaker, seq<Call>) {
    if calls == [] then (FRESH, [])
    else
      var (b, done) := Serial(maxFails, resetAfter, calls[..|calls| - 1]);
      var call := calls[|calls| - 1];
      var (admitted, b') := Enter(resetAfter, b, call.now);
      if admitted then (Exit(maxFails, b', call.now, call.ok), done + [call]) else (b', done)
  }

  /** How many of the first `k` calls failed in a row, counted back from the last. */
  function Failing(done: seq<Call>, k: nat): nat
    requires k <= |done|
  {
    if k == 0 || done[k - 1].ok then 0 else 1 + Failing(done, k - 1)
  }

  lemma {:induction false} FailingAppend(done: seq<Call>, call: Call, k: nat)
    requires k <= |done|
    ensures Failing(done + [call], k) == Failing(done, k)
  {
    if k > 0 {
      FailingAppend(done, call, k - 1);
    }
  }

  ghost predicate SerialFits(maxFails: int, b: Breaker, done: seq<Call>) {
    var streak := Failing(done, |done|);
    && !b.gate.HalfOpen? && !b.flight
    && (b.gate.Closed? <==> streak < maxFails)
    && (b.gate.Closed? ==> b.failures == streak)
    && (b.gate.Open? ==> done != [] && b.openedAt == done[|done| - 1].now)
  }

  lemma {:induction false} SerialState(maxFails: int, resetAfter: int, calls: seq<Call>)
    requires maxFails >= 1 && resetAfter > 0
    ensures SerialFits(maxFails, Serial(maxFails, resetAfter, calls).0, Serial(maxFails, resetAfter, calls).1)
  {
    if calls != [] {
      SerialState(maxFails, resetAfter, calls[..|calls| - 1]);
      var done := Serial(maxFails, resetAfter, calls[..|calls| - 1]).1;
      FailingAppend(done, calls[|calls| - 1], |done|);
    }
  }

  /** A call one after others is rejected exactly when the last `maxFails` admitted calls
      all failed and the last of them started less than `resetAfter` ago. */
  lemma {:induction false} RejectedExactly(maxFails: int, resetAfter: int, calls: seq<Call>, now: int)
    requires maxFails >= 1 && resetAfter > 0
    ensures var (b, done) := Serial(maxFails, resetAfter, calls);
            !Enter(resetAfter, b, now).0 <==>
            Failing(done, |done|) >= maxFails && now - done[|done| - 1].now < resetAfter
  {
    SerialState(maxFails, resetAfter, calls);
  }

  // ----- an outage -----

  /** Calls that found the breaker open and were still admitted started `resetAfter`
      after the one before them. */
  ghost predicate Spaced(maxFails: int, resetAfter: int, done: seq<Call>) {
    forall i :: 0 < i < |done| && Failing(done, i) >= maxFails ==> done[i].now - done[i - 1].now >= resetAfter
  }

  lemma {:induction false} SpacedAppend(maxFails: int, resetAfter: int, done: seq<Call>, call: Call)
    requires Spaced(maxFails, resetAfter, done)
    requires done != [] && Failing(done, |done|) >= maxFails ==> call.now - done[|done| - 1].now >= resetAfter
    ensures Spaced(maxFails, resetAfter, done + [call])
  {
    forall i | 0 < i < |done| + 1 && Failing(done + [call], i) >= maxFails
      ensures (done + [call])[i].now - (done + [call])[i - 1].now >= resetAfter
    {
      FailingAppend(done, call, i);
    }
  }

  lemma {:induction false} SerialSpaced(maxFails: int, resetAfter: int, calls: seq<Call>)
    requires maxFails >= 1 && resetAfter > 0
    ensures Spaced(maxFails, resetAfter, Serial(maxFails, resetAfter, calls).1)
  {
    if calls != [] {
      var init, call := calls[..|calls| - 1], calls[|calls| - 1];
      SerialSpaced(maxFails, resetAfter, init);
      RejectedExactly(maxFails, resetAfter, init, call.now);
      var (b, done) := Serial(maxFails, resetAfter, init);
      if Enter(resetAfter, b, call.now).0 {
        SpacedAppend(maxFails, resetAfter, done, call);
      }
    }
  }

  /** Once open, and while every admitted call fails, the calls stay apart. */
  lemma {:induction false} Stretch(maxFails: int, resetAfter: int, done: seq<Call>, p: nat, i: nat)
    requires Spaced(maxFails, resetAfter, done) && p <= i < |done| && Failing(done, p + 1) >= maxFails
    requires forall j :: p < j < |done| ==> !done[j].ok
    ensures done[i].now - done[p].now >= Grid(resetAfter, i - p) && Failing(done, i + 1) >= maxFails
  {
    if p < i {
      Stretch(maxFails, resetAfter, done, p, i - 1);
    }
  }

  lemma {:induction false} SpacedBudget(maxFails: int, resetAfter: int, done: seq<Call>, p: nat, end: int)
    requires resetAfter > 0 && Spaced(maxFails, resetAfter, done)
    requires p < |done| && Failing(done, p + 1) >= maxFails
    requires (forall j :: p < j < |done| ==> !done[j].ok) && done[|done| - 1].now <= end
    ensures |done| - 1 - p <= (end - done[p].now) / resetAfter
  {
    var k := |done| - 1 - p;
    Stretch(maxFails, resetAfter, done, p, |done| - 1);
    GridFits(resetAfter, k, end - done[p].now);
  }

  /** Outage budget: from the call `p` that opened the breaker on, while every admitted
      call fails, one call at most reaches the base per full `resetAfter`. */
  lemma {:induction false} OutageBudget(maxFails: int, resetAfter: int, calls: seq<Call>, p: nat, end: int)
    requires maxFails >= 1 && resetAfter > 0
    requires var done := Serial(maxFails, resetAfter, calls).1;
             && p < |done| && Failing(done, p + 1) >= maxFails
             && (forall j :: p < j < |done| ==> !done[j].ok) && done[|done| - 1].now <= end
    ensures var done := Serial(maxFails, resetAfter, calls).1;
            |done| - 1 - p <= (end - done[p].now) / resetAfter
  {
    SerialSpaced(maxFails, resetAfter, calls);
    SpacedBudget(maxFails, resetAfter, Serial(maxFails, resetAfter, calls).1, p, end);
  }

  /** When nothing succeeds at all, `maxFails` calls and then one per `resetAfter` is all
      that the base ever sees. */
  lemma {:induction false} TotalOutage(maxFails: int, resetAfter: int, calls: seq<Call>, end: int)
    requires maxFails >= 1 && resetAfter > 0
    requires var done := Serial(maxFails, resetAfter, calls).1;
             |done| >= maxFails && (forall j :: 0 <= j < |done| ==> !done[j].ok) && done[|done| - 1].now <= end
    ensures var done := Serial(maxFails, resetAfter, calls).1;
            |done| <= maxFails + (end - done[maxFails - 1].now) / resetAfter
  {
    AllFailing(Serial(maxFails, resetAfter, calls).1, maxFails);
    OutageBudget(maxFails, resetAfter, calls, maxFails - 1, end);
  }

  lemma {:induction false} AllFailing(done: seq<Call>, k: nat)
    requires k <= |done| && forall j :: 0 <= j < |done| ==> !done[j].ok
    ensures Failing(done, k) == k
  {
    if k > 0 {
      AllFailing(done, k - 1);
    }
  }

  // ----- the object -----

  /** A section run by some other call. */
  datatype Section = First(now: int) | Second(start: int, ok: bool)

  function Sections(maxFails: int, resetAfter: int, b: Breaker, others: seq<Section>): Breaker {
    if others == [] then b
    else
      var b' := Sections(maxFails, resetAfter, b, others[..|others| - 1]);
      match others[|others| - 1]
      case First(now) => Enter(resetAfter, b', now).1
      case Second(start, ok) => Exit(maxFails, b', start, ok)
  }

  datatype ExecuteError = CircuitOpen | CallFailed

  class CircuitBreaker {
    const maxFails: int
    const resetAfter: int
    var gate: Gate
    var failures: int
    var openedAt: int
    var halfOpenFlight: bool

    constructor (maxFailures: int, resetTimeout: int)
      ensures State() == FRESH
      ensures maxFails == Max(1, maxFailures)
      ensures resetAfter == if resetTimeout <= 0 then 2_000_000_000 else resetTimeout
    {
      maxFails := if maxFailures < 1 then 1 else maxFailures;
      resetAfter := if resetTimeout <= 0 then DEFAULT_RESET else resetTimeout;
      gate, failures, openedAt, halfOpenFlight := Closed, 0, 0, false;
    }

    function State(): Breaker
      reads this
    {
      Breaker(gate, failures, openedAt, halfOpenFlight)
    }

    method Admit(now: int) returns (admitted: bool)
      modifies this
      ensures (admitted, State()) == Enter(resetAfter, old(State()), now)
    {
      match gate {
        case Open =>
          if now - openedAt < resetAfter { return false; }
          gate := HalfOpen;
        case HalfOpen =>
          if halfOpenFlight { return false; }
        case Closed =>
      }
      if gate == HalfOpen { halfOpenFlight := true; }
      return true;
    }

    method Settle(start: int, ok: bool)
      modifies this
      ensures State() == Exit(maxFails, old(State()), start, ok)
    {
      if gate == HalfOpen { halfOpenFlight := false; }
      if ok {
        gate, failures := Closed, 0;
        return;
      }
      if gate == HalfOpen {
        gate, openedAt, failures := Open, start, 0;
        return;
      }
      failures := failures + 1;
      if failures >= maxFails {
        gate, openedAt := Open, start;
      }
    }

    method OthersRun(others: seq<Section>)
      modifies this
      ensures State() == Sections(maxFails, resetAfter, old(State()), others)
    {
      var i := 0;
      while i < |others|
        invariant 0 <= i <= |others|
        invariant State() == Sections(maxFails, resetAfter, old(State()), others[..i])
      {
        match others[i] {
          case First(now) => var _ := Admit(now);
          case Second(start, ok) => Settle(start, ok);
        }
        assert others[..i + 1][..i] == others[..i];
        i := i + 1;
      }
      assert others[..i] == others;
    }

    /** One guarded call: `now` is its clock reading, `ok` how the call ends if it is made,
        and `during` the sections other calls run while the lock is released. */
    method Execute(now: int, ok: bool, during: seq<Section>) returns (err: Option<ExecuteError>)
      modifies this
      ensures var (admitted, b) := Enter(resetAfter, old(State()), now);
              if !admitted then State() == old(State()) && err == Some(CircuitOpen)
              else State() == Exit(maxFails, Sections(maxFails, resetAfter, b, during), now, ok) &&
                   err == (if ok then None else Some(CallFailed))
    {
      var admitted := Admit(now);
      if !admitted { return Some(CircuitOpen); }
      OthersRun(during);
      Settle(now, ok);
      return if ok then None else Some(CallFailed);
    }
  }
}
