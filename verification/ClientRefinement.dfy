/** The reliable client as an object against the interleaved system: whatever the other calls
    do, each call does what `ReliableClient.Do` does for some script of turns. */
module ClientRefinement {
  import opened Common
  import TB = TokenBucket
  import RL = RateLimiter
  import CB = CircuitBreaker
  import opened RetryPolicy
  import RC = ReliableClient
  import opened ClientSystem

  function Wiring(setup: Setup): RC.Setup {
    RC.Setup(Some((setup.rate, setup.burst)), Some((setup.maxFails, setup.resetAfter)), setup.policy)
  }

  // ----- one call, watched -----

  /** What has been seen of one call: the guards when it began, its finished turns and what
      they did, and of the turn it is in: its limiter rounds, the polls and breaker sections
      of others since its own last ones, and, in the base call, those before it. */
  datatype View = View(
    begun: RC.Guards, turns: seq<RC.Turn>, trail: seq<RC.Mark>,
    rounds: seq<RL.Round>, polls: seq<int>, sections: seq<CB.Section>, meanwhile: seq<CB.Section>)

  function NewView(s: Client): View {
    View(RC.Guards(s.bucket, s.breaker), [], [], [], [], [], [])
  }

  /** The guards as this call last left them. */
  function Left(v: View): RC.Guards { RC.GuardsAfter(v.begun, v.trail, |v.trail|) }

  const STOP := RL.Round(true, [], 0, false)

  /** The turn is over. */
  function Close(setup: Setup, v: View, turn: RC.Turn, sections: seq<CB.Section>): View {
    View(v.begun, v.turns + [turn], v.trail + [RC.MarkOf(Wiring(setup), Left(v), turn)], [], v.polls, sections, [])
  }

  function CancelTurn(err: CallError): RC.Turn {
    RC.Turn(Some(err), [STOP], err, [], 0, [], None, 0, None)
  }

  function GiveUpTurn(v: View, err: CallError): RC.Turn {
    RC.Turn(None, v.rounds + [STOP], err, [], 0, [], None, 0, None)
  }

  function RejectedTurn(v: View, now: int): RC.Turn {
    RC.Turn(None, v.rounds, CircuitOpen, v.sections, now, [], None, 0, None)
  }

  function ReturnTurn(v: View, start: int, outcome: Option<CallError>): RC.Turn {
    RC.Turn(None, v.rounds, CircuitOpen, v.meanwhile, start, v.sections, outcome, 0, None)
  }

  /** An event of another call, as this one sees it. */
  function SeeOther(v: View, c: ClientCall, e: Event): View {
    match e
    case PollLimiter(_, now) => v.(polls := v.polls + [now])
    case Admit(_, now) => v.(sections := v.sections + [CB.First(now)])
    case Return(_, outcome) =>
      if c.phase.Calling? then v.(sections := v.sections + [CB.Second(c.phase.start, outcome.None?)]) else v
    case _ => v
  }

  function SeeOwn(setup: Setup, v: View, breaker: CB.Breaker, c: ClientCall, e: Event): View {
    match e
    case Begin(_) => v
    case PollLimiter(_, now) => v.(rounds := v.rounds + [RL.Round(false, v.polls, now, false)], polls := [])
    case Cancel(_, err) => Close(setup, v, CancelTurn(err), v.sections)
    case GiveUp(_, err) => Close(setup, v, GiveUpTurn(v, err), v.sections)
    case Admit(_, now) =>
      if CB.Enter(setup.resetAfter, breaker, now).0 then v.(sections := [], meanwhile := v.sections)
      else Close(setup, v, RejectedTurn(v, now), [])
    case Return(_, outcome) =>
      if c.phase.Calling? then Close(setup, v, ReturnTurn(v, c.phase.start, outcome), []) else v
  }

  function See(setup: Setup, s: Client, v: View, e: Event, id: nat): View {
    if e.id !in s.calls then (if e.Begin? && e.id == id then NewView(s) else v)
    else if !Ready(s.calls[e.id], e) then v
    else if e.id == id then SeeOwn(setup, v, s.breaker, s.calls[id], e)
    else SeeOther(v, s.calls[e.id], e)
  }

  /** The view of call `id` after these events. */
  function Watched(setup: Setup, t0: int, events: seq<Event>, id: nat): View {
    if events == [] then NewView(Start(setup, t0))
    else
      var init := events[..|events| - 1];
      See(setup, Run(setup, t0, init), Watched(setup, t0, init, id), events[|events| - 1], id)
  }

  // ----- the view fits the system -----

  /** The limiter: since the call's last round, only the polls of others have moved it. */
  ghost predicate BucketFits(setup: Setup, bucket: TB.Bucket, v: View, outcome: RL.Outcome) {
    var waited := RL.WaitFrom(setup.rate, setup.burst, Left(v).bucket, v.rounds);
    waited.1 == outcome && TB.After(setup.rate, setup.burst, waited.0, v.polls) == bucket
  }

  /** The breaker: since `b`, only the sections of others have moved it. */
  ghost predicate BreakerFits(setup: Setup, breaker: CB.Breaker, b: CB.Breaker, v: View) {
    CB.Sections(setup.maxFails, setup.resetAfter, b, v.sections) == breaker
  }

  ghost predicate Progress(setup: Setup, bucket: TB.Bucket, breaker: CB.Breaker, phase: Phase, v: View) {
    match phase
    case Waiting(polled) =>
      && (polled <==> v.rounds != []) && BucketFits(setup, bucket, v, RL.Blocked)
      && BreakerFits(setup, breaker, Left(v).breaker, v)
    case Holding(_) => BucketFits(setup, bucket, v, RL.Granted) && BreakerFits(setup, breaker, Left(v).breaker, v)
    case Calling(start) =>
      var entered := CB.Enter(setup.resetAfter, CB.Sections(setup.maxFails, setup.resetAfter, Left(v).breaker, v.meanwhile), start);
      BucketFits(setup, bucket, v, RL.Granted) && entered.0 && BreakerFits(setup, breaker, entered.1, v)
    case Finished(_) => true
  }

  /** Turn `k` failed and was retried. */
  ghost predicate Again(p: Policy, turns: seq<RC.Turn>, trail: seq<RC.Mark>, k: nat)
    requires k < |turns| == |trail|
  {
    && turns[k].cancelled.None? && turns[k].sleepError.None?
    && trail[k].err.Some? && p.shouldRetry(trail[k].err.value) && k + 1 < p.Attempts()
  }

  /** Turn `k` ended the call with `err`. */
  ghost predicate Last(p: Policy, turns: seq<RC.Turn>, trail: seq<RC.Mark>, k: nat, err: Option<CallError>)
    requires k < |turns| == |trail|
  {
    if turns[k].cancelled.Some? then err == turns[k].cancelled && trail[k].tally == RC.Tally(0, 0, 0)
    else
      && err == trail[k].err
      && (err.Some? ==> k + 1 >= p.Attempts() || !p.shouldRetry(err.value))
  }

  ghost predicate Judged(p: Policy, c: ClientCall, turns: seq<RC.Turn>, trail: seq<RC.Mark>) {
    && |turns| == |trail| && c.attempt <= p.Attempts() && (forall k :: 0 <= k < |turns| ==> turns[k].rounds != [])
    && |turns| == c.attempt - (if c.phase.Finished? then 0 else 1)
    && (forall k :: 0 <= k < |turns| - (if c.phase.Finished? then 1 else 0) ==> Again(p, turns, trail, k))
    && (c.phase.Finished? ==> |turns| > 0 && Last(p, turns, trail, |turns| - 1, c.phase.err))
  }

  /** The call's counters are its turns' tallies. */
  ghost predicate Counted(c: ClientCall, trail: seq<RC.Mark>) {
    var t := RC.TallyOf(trail, |trail|);
    c.calls == t.calls + (if c.phase.Calling? then 1 else 0) && c.rejections == t.rejections
  }

  /** The turns closed so far, what they did, and what the retry loop made of them. */
  ghost predicate Recorded(setup: Setup, c: ClientCall, v: View) {
    && v.trail == RC.Trail(Wiring(setup), v.begun, v.turns)
    && Judged(setup.policy, c, v.turns, v.trail) && Counted(c, v.trail)
  }

  // ----- closing a turn -----

  lemma {:induction false} TrailNext(setup: RC.Setup, g: RC.Guards, turns: seq<RC.Turn>, turn: RC.Turn)
    ensures var trail := RC.Trail(setup, g, turns);
            RC.Trail(setup, g, turns + [turn]) == trail + [RC.MarkOf(setup, RC.GuardsAfter(g, trail, |turns|), turn)]
  {
    assert (turns + [turn])[..|turns|] == turns;
  }

  lemma {:induction false} TallyPrefix(trail: seq<RC.Mark>, longer: seq<RC.Mark>, k: nat)
    requires k <= |trail| && trail <= longer
    ensures RC.TallyOf(longer, k) == RC.TallyOf(trail, k)
  {
    if k > 0 {
      TallyPrefix(trail, longer, k - 1);
    }
  }

  /** The call after a turn that did `m`, when `made` base calls had been made before. */
  function Judge(p: Policy, c: ClientCall, made: nat, cancelled: Option<CallError>, m: RC.Mark): ClientCall {
    var c' := c.(calls := made + m.tally.calls, rejections := c.rejections + m.tally.rejections);
    if cancelled.Some? then c'.(phase := Finished(cancelled))
    else if m.err.None? then c'.(phase := Finished(None))
    else AfterFailure(p, c', m.err.value)
  }

  function Made(v: View): nat { RC.TallyOf(v.trail, |v.trail|).calls }

  lemma {:induction false} OneMoreCounted(p: Policy, c: ClientCall, trail: seq<RC.Mark>, cancelled: Option<CallError>, m: RC.Mark)
    requires Counted(c, trail)
    ensures Counted(Judge(p, c, RC.TallyOf(trail, |trail|).calls, cancelled, m), trail + [m])
  {
    TallyPrefix(trail, trail + [m], |trail|);
  }

  lemma {:induction false} OneMoreJudged(p: Policy, c: ClientCall, made: nat, turns: seq<RC.Turn>, trail: seq<RC.Mark>, turn: RC.Turn, m: RC.Mark)
    requires Judged(p, c, turns, trail) && !c.phase.Finished? && turn.sleepError.None? && turn.rounds != []
    requires turn.cancelled.Some? ==> m.tally == RC.Tally(0, 0, 0)
    ensures Judged(p, Judge(p, c, made, turn.cancelled, m), turns + [turn], trail + [m])
  {
    forall k | 0 <= k < |turns| ensures Again(p, turns + [turn], trail + [m], k) {
      assert Again(p, turns, trail, k);
    }
  }

  /** Closing a turn keeps the record of the turns, for the call that has been judged by it. */
  lemma {:induction false} CloseRecords(setup: Setup, c: ClientCall, v: View, turn: RC.Turn, sections: seq<CB.Section>)
    requires Recorded(setup, c, v) && !c.phase.Finished? && turn.sleepError.None? && turn.rounds != []
    requires var m := RC.MarkOf(Wiring(setup), Left(v), turn); turn.cancelled.Some? ==> m.tally == RC.Tally(0, 0, 0)
    ensures Recorded(setup, Judge(setup.policy, c, Made(v), turn.cancelled, RC.MarkOf(Wiring(setup), Left(v), turn)), Close(setup, v, turn, sections))
  {
    TrailNext(Wiring(setup), v.begun, v.turns, turn);
    var m := RC.MarkOf(Wiring(setup), Left(v), turn);
    OneMoreCounted(setup.policy, c, v.trail, turn.cancelled, m);
    OneMoreJudged(setup.policy, c, Made(v), v.turns, v.trail, turn, m);
  }

  // ----- the limiter's rounds, one at a time -----

  lemma {:induction false} WaitNext(rate: int, burst: int, b: TB.Bucket, rounds: seq<RL.Round>, round: RL.Round)
    requires RL.WaitFrom(rate, burst, b, rounds).1 == RL.Blocked
    ensures var before, after := RL.WaitFrom(rate, burst, b, rounds), RL.WaitFrom(rate, burst, b, rounds + [round]);
            var one := RL.WaitFrom(rate, burst, before.0, [round]);
            after.0 == one.0 && after.1 == one.1
    decreases |rounds|
  {
    if rounds == [] {
      assert rounds + [round] == [round];
    } else {
      assert (rounds + [round])[0] == rounds[0] && (rounds + [round])[1..] == rounds[1..] + [round];
      var b' := TB.Poll(rate, burst, TB.After(rate, burst, b, rounds[0].others), rounds[0].now).1;
      WaitNext(rate, burst, b', rounds[1..], round);
    }
  }

  lemma {:induction false} OneRound(rate: int, burst: int, b: TB.Bucket, polls: seq<int>, now: int)
    ensures var (granted, b') := TB.Poll(rate, burst, TB.After(rate, burst, b, polls), now);
            var one := RL.WaitFrom(rate, burst, b, [RL.Round(false, polls, now, false)]);
            one.0 == b' && one.1 == if granted then RL.Granted else RL.Blocked
    ensures RL.WaitFrom(rate, burst, b, [STOP]) == (b, RL.Failed, [])
  {
    var round := RL.Round(false, polls, now, false);
    assert [round][1..] == [];
  }

  lemma {:induction false} RoundFits(setup: Setup, bucket: TB.Bucket, v: View, now: int)
    requires BucketFits(setup, bucket, v, RL.Blocked)
    ensures var (granted, b) := TB.Poll(setup.rate, setup.burst, bucket, now);
            BucketFits(setup, b, v.(rounds := v.rounds + [RL.Round(false, v.polls, now, false)], polls := []), if granted then RL.Granted else RL.Blocked)
  {
    var b := RL.WaitFrom(setup.rate, setup.burst, Left(v).bucket, v.rounds).0;
    WaitNext(setup.rate, setup.burst, Left(v).bucket, v.rounds, RL.Round(false, v.polls, now, false));
    OneRound(setup.rate, setup.burst, b, v.polls, now);
  }

  // ----- what each way of closing a turn did -----

  lemma {:induction false} CancelMark(setup: Setup, v: View, err: CallError)
    requires setup.rate > 0 && setup.burst > 0
    ensures RC.MarkOf(Wiring(setup), Left(v), CancelTurn(err)) == RC.Mark(Left(v), Left(v), Some(err), RC.Tally(0, 0, 0))
  {
  }

  lemma {:induction false} GiveUpMark(setup: Setup, v: View, err: CallError)
    requires setup.rate > 0 && setup.burst > 0
    requires RL.WaitFrom(setup.rate, setup.burst, Left(v).bucket, v.rounds).1 == RL.Blocked
    ensures var b := RL.WaitFrom(setup.rate, setup.burst, Left(v).bucket, v.rounds).0;
            RC.MarkOf(Wiring(setup), Left(v), GiveUpTurn(v, err)) ==
            RC.Mark(Left(v), Left(v).(bucket := b), Some(err), RC.Tally(0, 0, 0))
  {
    WaitNext(setup.rate, setup.burst, Left(v).bucket, v.rounds, STOP);
    OneRound(setup.rate, setup.burst, RL.WaitFrom(setup.rate, setup.burst, Left(v).bucket, v.rounds).0, [], 0);
  }

  lemma {:induction false} RejectedMark(setup: Setup, breaker: CB.Breaker, v: View, now: int)
    requires setup.rate > 0 && setup.burst > 0 && BreakerFits(setup, breaker, Left(v).breaker, v)
    requires RL.WaitFrom(setup.rate, setup.burst, Left(v).bucket, v.rounds).1 == RL.Granted
    requires !CB.Enter(setup.resetAfter, breaker, now).0
    ensures var b := RL.WaitFrom(setup.rate, setup.burst, Left(v).bucket, v.rounds).0;
            RC.MarkOf(Wiring(setup), Left(v), RejectedTurn(v, now)) ==
            RC.Mark(Left(v), RC.Guards(b, breaker), Some(CircuitOpen), RC.Tally(1, 0, 1))
  {
  }

  lemma {:induction false} ReturnMark(setup: Setup, bucket: TB.Bucket, breaker: CB.Breaker, v: View, start: int, outcome: Option<CallError>)
    requires setup.rate > 0 && setup.burst > 0 && Progress(setup, bucket, breaker, Calling(start), v)
    ensures var b := RL.WaitFrom(setup.rate, setup.burst, Left(v).bucket, v.rounds).0;
            RC.MarkOf(Wiring(setup), Left(v), ReturnTurn(v, start, outcome)) ==
            RC.Mark(Left(v), RC.Guards(b, CB.Exit(setup.maxFails, breaker, start, outcome.None?)), outcome, RC.Tally(1, 1, 0))
  {
  }

  /** A new turn starts where the closed one left the guards. */
  lemma {:induction false} CloseProgress(setup: Setup, bucket: TB.Bucket, breaker: CB.Breaker, phase: Phase, v: View, turn: RC.Turn, sections: seq<CB.Section>)
    requires var after := RC.MarkOf(Wiring(setup), Left(v), turn).after;
             && TB.After(setup.rate, setup.burst, after.bucket, v.polls) == bucket
             && CB.Sections(setup.maxFails, setup.resetAfter, after.breaker, sections) == breaker
    requires phase.Finished? || phase == Waiting(false)
    ensures Progress(setup, bucket, breaker, phase, Close(setup, v, turn, sections))
  {
    assert Left(Close(setup, v, turn, sections)) == RC.MarkOf(Wiring(setup), Left(v), turn).after;
  }

  // ----- one event -----

  ghost predicate Fits(setup: Setup, s: Client, id: nat, v: View) {
    id in s.calls ==>
      Recorded(setup, s.calls[id], v) && Progress(setup, s.bucket, s.breaker, s.calls[id].phase, v)
  }

  lemma {:induction false} OtherPollFits(setup: Setup, bucket: TB.Bucket, breaker: CB.Breaker, phase: Phase, v: View, now: int)
    requires Progress(setup, bucket, breaker, phase, v)
    ensures Progress(setup, TB.Poll(setup.rate, setup.burst, bucket, now).1, breaker, phase, v.(polls := v.polls + [now]))
  {
    var v' := v.(polls := v.polls + [now]);
    assert Left(v') == Left(v) && v'.polls[..|v.polls|] == v.polls;
  }

  lemma {:induction false} OtherSectionFits(setup: Setup, bucket: TB.Bucket, breaker: CB.Breaker, phase: Phase, v: View, section: CB.Section)
    requires Progress(setup, bucket, breaker, phase, v)
    ensures var after := match section
                         case First(now) => CB.Enter(setup.resetAfter, breaker, now).1
                         case Second(start, ok) => CB.Exit(setup.maxFails, breaker, start, ok);
            Progress(setup, bucket, after, phase, v.(sections := v.sections + [section]))
  {
    var v' := v.(sections := v.sections + [section]);
    assert Left(v') == Left(v) && v'.sections[..|v.sections|] == v.sections;
  }

  lemma {:induction false} OtherFits(setup: Setup, s: Client, v: View, e: Event, id: nat)
    requires Fits(setup, s, id, v) && id in s.calls && e.id in s.calls && Ready(s.calls[e.id], e) && e.id != id
    ensures Fits(setup, Next(setup, s, e), id, SeeOther(v, s.calls[e.id], e))
  {
    if e.PollLimiter? {
      OtherPollFits(setup, s.bucket, s.breaker, s.calls[id].phase, v, e.now);
    } else if e.Admit? {
      OtherSectionFits(setup, s.bucket, s.breaker, s.calls[id].phase, v, CB.First(e.now));
    } else if e.Return? {
      OtherSectionFits(setup, s.bucket, s.breaker, s.calls[id].phase, v, CB.Second(s.calls[e.id].phase.start, e.outcome.None?));
    }
  }

  lemma {:induction false} PollFits(setup: Setup, s: Client, v: View, id: nat, now: int)
    requires Fits(setup, s, id, v) && id in s.calls && s.calls[id].phase.Waiting?
    ensures Fits(setup, Next(setup, s, PollLimiter(id, now)), id, SeeOwn(setup, v, s.breaker, s.calls[id], PollLimiter(id, now)))
  {
    RoundFits(setup, s.bucket, v, now);
  }

  lemma {:induction false} EnterFits(setup: Setup, s: Client, v: View, id: nat, now: int)
    requires Fits(setup, s, id, v) && id in s.calls && s.calls[id].phase.Holding? && CB.Enter(setup.resetAfter, s.breaker, now).0
    ensures Fits(setup, Next(setup, s, Admit(id, now)), id, SeeOwn(setup, v, s.breaker, s.calls[id], Admit(id, now)))
  {
    assert Left(v.(sections := [], meanwhile := v.sections)) == Left(v);
  }

  lemma {:induction false} CancelFits(setup: Setup, s: Client, v: View, id: nat, err: CallError)
    requires setup.rate > 0 && setup.burst > 0 && Fits(setup, s, id, v) && id in s.calls
    requires s.calls[id].phase == Waiting(false)
    ensures Fits(setup, Next(setup, s, Cancel(id, err)), id, SeeOwn(setup, v, s.breaker, s.calls[id], Cancel(id, err)))
  {
    var c, s' := s.calls[id], Next(setup, s, Cancel(id, err));
    CancelMark(setup, v, err);
    CloseRecords(setup, c, v, CancelTurn(err), v.sections);
    CloseProgress(setup, s'.bucket, s'.breaker, s'.calls[id].phase, v, CancelTurn(err), v.sections);
  }

  lemma {:induction false} GiveUpFits(setup: Setup, s: Client, v: View, id: nat, err: CallError)
    requires setup.rate > 0 && setup.burst > 0 && Fits(setup, s, id, v) && id in s.calls
    requires s.calls[id].phase.Waiting?
    ensures Fits(setup, Next(setup, s, GiveUp(id, err)), id, SeeOwn(setup, v, s.breaker, s.calls[id], GiveUp(id, err)))
  {
    var c, s' := s.calls[id], Next(setup, s, GiveUp(id, err));
    GiveUpMark(setup, v, err);
    assert GiveUpTurn(v, err).rounds[|v.rounds|] == STOP;
    CloseRecords(setup, c, v, GiveUpTurn(v, err), v.sections);
    CloseProgress(setup, s'.bucket, s'.breaker, s'.calls[id].phase, v, GiveUpTurn(v, err), v.sections);
  }

  lemma {:induction false} RejectFits(setup: Setup, s: Client, v: View, id: nat, now: int)
    requires setup.rate > 0 && setup.burst > 0 && Fits(setup, s, id, v) && id in s.calls
    requires s.calls[id].phase.Holding? && !CB.Enter(setup.resetAfter, s.breaker, now).0
    ensures Fits(setup, Next(setup, s, Admit(id, now)), id, SeeOwn(setup, v, s.breaker, s.calls[id], Admit(id, now)))
  {
    var c, s' := s.calls[id], Next(setup, s, Admit(id, now));
    RejectedMark(setup, s.breaker, v, now);
    CloseRecords(setup, c, v, RejectedTurn(v, now), []);
    CloseProgress(setup, s'.bucket, s'.breaker, s'.calls[id].phase, v, RejectedTurn(v, now), []);
  }

  lemma {:induction false} ReturnJudged(setup: Setup, c: ClientCall, v: View, e: Event, m: RC.Mark)
    requires Counted(c, v.trail) && c.phase.Calling? && e.Return?
    requires m.err == e.outcome && m.tally == RC.Tally(1, 1, 0)
    ensures Moved(setup, true, 0, c, e) == Judge(setup.policy, c, Made(v), None, m)
    ensures Moved(setup, true, 0, c, e).phase.Finished? || Moved(setup, true, 0, c, e).phase == Waiting(false)
  {
  }

  lemma {:induction false} ReturnFits(setup: Setup, s: Client, v: View, id: nat, outcome: Option<CallError>)
    requires setup.rate > 0 && setup.burst > 0 && Fits(setup, s, id, v) && id in s.calls
    requires s.calls[id].phase.Calling?
    ensures Fits(setup, Next(setup, s, Return(id, outcome)), id, SeeOwn(setup, v, s.breaker, s.calls[id], Return(id, outcome)))
  {
    var c, s' := s.calls[id], Next(setup, s, Return(id, outcome));
    ReturnMark(setup, s.bucket, s.breaker, v, c.phase.start, outcome);
    assert v.rounds != [];
    ReturnJudged(setup, c, v, Return(id, outcome), RC.MarkOf(Wiring(setup), Left(v), ReturnTurn(v, c.phase.start, outcome)));
    CloseRecords(setup, c, v, ReturnTurn(v, c.phase.start, outcome), []);
    CloseProgress(setup, s'.bucket, s'.breaker, s'.calls[id].phase, v, ReturnTurn(v, c.phase.start, outcome), []);
  }

  lemma {:induction false} NextFits(setup: Setup, s: Client, v: View, e: Event, id: nat)
    requires setup.rate > 0 && setup.burst > 0 && Fits(setup, s, id, v)
    ensures Fits(setup, Next(setup, s, e), id, See(setup, s, v, e, id))
  {
    if e.id in s.calls && Ready(s.calls[e.id], e) && id in s.calls {
      if e.id != id {
        OtherFits(setup, s, v, e, id);
      } else if e.PollLimiter? {
        PollFits(setup, s, v, id, e.now);
      } else if e.Cancel? {
        CancelFits(setup, s, v, id, e.err);
      } else if e.GiveUp? {
        GiveUpFits(setup, s, v, id, e.err);
      } else if e.Return? {
        ReturnFits(setup, s, v, id, e.outcome);
      } else if CB.Enter(setup.resetAfter, s.breaker, e.now).0 {
        EnterFits(setup, s, v, id, e.now);
      } else {
        RejectFits(setup, s, v, id, e.now);
      }
    }
  }

  lemma {:induction false} RunFits(setup: Setup, t0: int, events: seq<Event>, id: nat)
    requires setup.rate > 0 && setup.burst > 0
    ensures Fits(setup, Run(setup, t0, events), id, Watched(setup, t0, events, id))
  {
    if events != [] {
      var init := events[..|events| - 1];
      RunFits(setup, t0, init, id);
      NextFits(setup, Run(setup, t0, init), Watched(setup, t0, init, id), events[|events| - 1], id);
    }
  }

  // ----- the theorem -----

  /** The retry loop, on turns of which the first `n` were judged to end the call. */
  lemma {:induction false} LoopEnds(p: Policy, turns: seq<RC.Turn>, trail: seq<RC.Mark>, script: nat -> Attempt, n: nat, err: Option<CallError>)
    requires 1 <= n <= |turns| == |trail| == p.Attempts() && RC.Scripts(turns, trail, script)
    requires (forall k :: 0 <= k < n - 1 ==> Again(p, turns, trail, k)) && Last(p, turns, trail, n - 1, err)
    ensures RetryFrom(p, script, 1).0 == err
    ensures RetryFrom(p, script, 1).1 == if turns[n - 1].cancelled.Some? then n - 1 else n
  {
    forall i | 1 <= i < n ensures !TurnAt(p, script, i).stop {
      assert Again(p, turns, trail, i - 1);
    }
    assert TurnAt(p, script, n).stop;
    StopsAt(p, script, n);
  }

  /** Refinement: in any interleaving of calls, a call that has finished answered, and used base
      calls and rejections, exactly as `ReliableClient.Do` does on the turns that were
      watched (and any `more`, which it does not reach), from the guards it found. */
  lemma {:induction false} CallIsADo(setup: Setup, t0: int, events: seq<Event>, id: nat, more: seq<RC.Turn>)
    requires setup.rate > 0 && setup.burst > 0
    requires var s := Run(setup, t0, events); id in s.calls && s.calls[id].phase.Finished?
    requires |Watched(setup, t0, events, id).turns| + |more| == setup.policy.Attempts()
    ensures var c, v := Run(setup, t0, events).calls[id], Watched(setup, t0, events, id);
            var turns := v.turns + more;
            var trail := RC.Trail(Wiring(setup), v.begun, turns);
            var (err, n, _) := RetryFrom(setup.policy, RC.ScriptOf(turns, trail), 1);
            && (forall k :: 0 <= k < |v.turns| ==> v.turns[k].rounds != [])
            && err == c.phase.err && n <= |trail|
            && RC.TallyOf(trail, n) == RC.Tally(c.calls + c.rejections, c.calls, c.rejections)
  {
    RunFits(setup, t0, events, id);
    ViewIsADo(setup, Run(setup, t0, events).calls[id], Watched(setup, t0, events, id), more);
  }

  lemma {:induction false} ViewIsADo(setup: Setup, c: ClientCall, v: View, more: seq<RC.Turn>)
    requires setup.rate > 0 && setup.burst > 0 && Recorded(setup, c, v) && c.phase.Finished?
    requires |v.turns| + |more| == setup.policy.Attempts()
    ensures var turns := v.turns + more;
            var trail := RC.Trail(Wiring(setup), v.begun, turns);
            var (err, n, _) := RetryFrom(setup.policy, RC.ScriptOf(turns, trail), 1);
            && err == c.phase.err && n <= |trail|
            && RC.TallyOf(trail, n) == RC.Tally(c.calls + c.rejections, c.calls, c.rejections)
  {
    var turns := v.turns + more;
    var trail := RC.Trail(Wiring(setup), v.begun, turns);
    RC.TrailPrefix(Wiring(setup), v.begun, v.turns, more);
    RC.TrailIsTrail(Wiring(setup), v.begun, turns);
    RC.TrailBalanced(Wiring(setup), v.begun, turns, trail);
    DoneOnMore(setup.policy, c, v.turns, v.trail, turns, trail, RC.ScriptOf(turns, trail));
  }

  /** The retry loop, on the turns of a finished call and any that follow them. */
  lemma {:induction false} DoneOnMore(
    p: Policy, c: ClientCall, turns: seq<RC.Turn>, trail: seq<RC.Mark>, turns': seq<RC.Turn>, trail': seq<RC.Mark>, script: nat -> Attempt)
    requires Judged(p, c, turns, trail) && Counted(c, trail) && c.phase.Finished?
    requires turns <= turns' && trail <= trail' && |turns'| == |trail'| == p.Attempts()
    requires RC.Balanced(true, trail') && RC.Scripts(turns', trail', script)
    ensures var (err, n, _) := RetryFrom(p, script, 1);
            && err == c.phase.err && n <= |trail'|
            && RC.TallyOf(trail', n) == RC.Tally(c.calls + c.rejections, c.calls, c.rejections)
  {
    var k := |turns|;
    JudgedOnMore(p, c, turns, trail, turns', trail');
    LoopEnds(p, turns', trail', script, k, c.phase.err);
    TallyOfCall(c, trail, trail', if turns'[k - 1].cancelled.Some? then k - 1 else k);
  }

  /** The tally of the attempts made is what the finished call counted. */
  lemma {:induction false} TallyOfCall(c: ClientCall, trail: seq<RC.Mark>, longer: seq<RC.Mark>, n: nat)
    requires Counted(c, trail) && c.phase.Finished? && trail <= longer && RC.Balanced(true, longer)
    requires n == |trail| || (n + 1 == |trail| && trail[n].tally == RC.Tally(0, 0, 0))
    ensures RC.TallyOf(longer, n) == RC.Tally(c.calls + c.rejections, c.calls, c.rejections)
  {
    TallyPrefix(trail, longer, n);
    RC.TallyBalances(true, longer, n);
  }

  /** The verdicts on the first turns stand when more follow. */
  lemma {:induction false} JudgedOnMore(p: Policy, c: ClientCall, turns: seq<RC.Turn>, trail: seq<RC.Mark>, turns': seq<RC.Turn>, trail': seq<RC.Mark>)
    requires Judged(p, c, turns, trail) && c.phase.Finished? && turns <= turns' && trail <= trail' && |turns'| == |trail'|
    ensures forall k :: 0 <= k < |turns| - 1 ==> Again(p, turns', trail', k)
    ensures |turns| > 0 && Last(p, turns', trail', |turns| - 1, c.phase.err)
  {
    forall k | 0 <= k < |turns| - 1 ensures Again(p, turns', trail', k) {
      assert Again(p, turns, trail, k);
    }
  }
}
