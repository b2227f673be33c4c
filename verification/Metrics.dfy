/** The request metrics: spans, per-method counters, and the snapshot. Every locked section
    is one event; `history` is the events in lock order, whichever spans they came from. */
module Metrics {
  import opened Common
  import opened Arithmetic

  const MILLISECOND := 1_000_000
  const SECOND := 1_000_000_000

  datatype Stats = Stats(count: int, errors: int, inFlight: int, totalLatency: int, maxLatency: int, lastLatency: int)

  const NO_STATS := Stats(0, 0, 0, 0, 0, 0)

  /** `Finish(span, ...)` ends the span begun by the event at index `span`. */
  datatype Event =
    | Begin(name: string)
    | Finish(span: nat, name: string, dur: int, failed: bool)
    | Waited(d: int)
    | Shutdown(at: int, inFlight: int)

  function StatsOf(methods: map<string, Stats>, m: string): Stats {
    if m in methods then methods[m] else NO_STATS
  }

  function Started(s: Stats): Stats {
    s.(inFlight := s.inFlight + 1)
  }

  function Ended(s: Stats, dur: int, failed: bool): Stats {
    Stats(s.count + 1, s.errors + (if failed then 1 else 0), s.inFlight - 1,
          s.totalLatency + dur, Max(s.maxLatency, dur), dur)
  }

  function Apply(methods: map<string, Stats>, e: Event): map<string, Stats> {
    match e
    case Begin(m) => methods[m := Started(StatsOf(methods, m))]
    case Finish(_, m, dur, failed) => methods[m := Ended(StatsOf(methods, m), dur, failed)]
    case _ => methods
  }

  function Ledger(history: seq<Event>): map<string, Stats> {
    if history == [] then map[] else Apply(Ledger(history[..|history| - 1]), history[|history| - 1])
  }

  /** What one event does to the counters of `m`. */
  function Stepped(s: Stats, e: Event, m: string): Stats {
    if e == Begin(m) then Started(s) else if e.Finish? && e.name == m then Ended(s, e.dur, e.failed) else s
  }

  lemma {:induction false} LedgerStep(history: seq<Event>, m: string)
    requires history != []
    ensures StatsOf(Ledger(history), m) ==
            Stepped(StatsOf(Ledger(history[..|history| - 1]), m), history[|history| - 1], m)
  {
  }

  // ----- what the counters mean -----

  /** The events of one kind, by index. */
  function Those(history: seq<Event>, kind: Event -> bool): set<nat> {
    set i: nat | i < |history| && kind(history[i])
  }

  function IsStart(m: string): Event -> bool { (e: Event) => e == Begin(m) }

  function IsEnd(m: string): Event -> bool { (e: Event) => e.Finish? && e.name == m }

  function IsFailure(m: string): Event -> bool { (e: Event) => e.Finish? && e.name == m && e.failed }

  function Starts(history: seq<Event>, m: string): set<nat> { Those(history, IsStart(m)) }

  function Ends(history: seq<Event>, m: string): set<nat> { Those(history, IsEnd(m)) }

  function Failures(history: seq<Event>, m: string): set<nat> { Those(history, IsFailure(m)) }

  lemma {:induction false} ThoseStep(history: seq<Event>, kind: Event -> bool)
    requires history != []
    ensures var k := |history| - 1;
            && Those(history, kind) == Those(history[..k], kind) + (if kind(history[k]) then {k} else {})
            && |Those(history, kind)| == |Those(history[..k], kind)| + if kind(history[k]) then 1 else 0
  {
    var k := |history| - 1;
    assert Those(history, kind) == Those(history[..k], kind) + (if kind(history[k]) then {k} else {});
  }

  lemma {:induction false} ThoseNone(kind: Event -> bool)
    ensures Those([], kind) == {}
  {
  }

  predicate EndedBy(history: seq<Event>, span: nat) {
    exists i :: 0 <= i < |history| && history[i].Finish? && history[i].span == span
  }

  /** The spans of `m` begun and not yet ended. */
  function Open(history: seq<Event>, m: string): set<nat> {
    set i: nat | i < |history| && history[i] == Begin(m) && !EndedBy(history, i)
  }

  /** Every end is of a span begun before it, and no span ends twice. */
  ghost predicate EndsOnce(history: seq<Event>) {
    && (forall i :: 0 <= i < |history| && history[i].Finish? ==>
          history[i].span < i && history[history[i].span] == Begin(history[i].name))
    && (forall i, j :: 0 <= i < j < |history| && history[i].Finish? && history[j].Finish? ==>
          history[i].span != history[j].span)
  }

  function TotalTime(history: seq<Event>, m: string): int {
    if history == [] then 0
    else
      var e := history[|history| - 1];
      TotalTime(history[..|history| - 1], m) + if e.Finish? && e.name == m then e.dur else 0
  }

  /** Whatever the spans do, even ending twice: the counters of `m` count its events. */
  lemma {:induction false} CountersCount(history: seq<Event>, m: string)
    ensures var s := StatsOf(Ledger(history), m);
            && s.count == |Ends(history, m)|
            && s.errors == |Failures(history, m)| && s.errors <= s.count
            && s.inFlight == |Starts(history, m)| - |Ends(history, m)|
            && s.totalLatency == TotalTime(history, m)
  {
    if history == [] {
      ThoseNone(IsStart(m));
      ThoseNone(IsEnd(m));
      ThoseNone(IsFailure(m));
    } else {
      CountersCount(history[..|history| - 1], m);
      LedgerStep(history, m);
      ThoseStep(history, IsStart(m));
      ThoseStep(history, IsEnd(m));
      ThoseStep(history, IsFailure(m));
    }
  }

  lemma {:induction false} EndsOnceInit(history: seq<Event>)
    requires history != [] && EndsOnce(history)
    ensures EndsOnce(history[..|history| - 1])
  {
  }

  /** One event more: begun spans open, ended spans close. */
  lemma {:induction false} OpenStep(history: seq<Event>, m: string)
    requires history != [] && EndsOnce(history)
    ensures var k := |history| - 1; var e := history[k];
            Open(history, m) == if e == Begin(m) then Open(history[..k], m) + {k}
                                else if e.Finish? then Open(history[..k], m) - {e.span}
                                else Open(history[..k], m)
    ensures var k := |history| - 1; var e := history[k];
            e.Finish? ==> (e.span in Open(history[..k], m) <==> e.name == m)
  {
    var k := |history| - 1;
    var init, e := history[..k], history[k];
    forall i: nat ensures EndedBy(history, i) <==> EndedBy(init, i) || (e.Finish? && e.span == i) {
      if EndedBy(init, i) {
        var j :| 0 <= j < |init| && init[j].Finish? && init[j].span == i;
        assert history[j] == init[j];
      }
    }
  }

  /** While each span ends at most once, a method's in-flight counter is its open spans. */
  lemma {:induction false} InFlightIsOpenSpans(history: seq<Event>, m: string)
    requires EndsOnce(history)
    ensures StatsOf(Ledger(history), m).inFlight == |Open(history, m)|
    ensures StatsOf(Ledger(history), m).count + |Open(history, m)| == |Starts(history, m)|
  {
    CountersCount(history, m);
    if history == [] {
      assert Open(history, m) == {};
    } else {
      EndsOnceInit(history);
      InFlightIsOpenSpans(history[..|history| - 1], m);
      OpenStep(history, m);
    }
  }

  /** Beginning a span opens it. */
  lemma {:induction false} BeginKeeps(history: seq<Event>, m: string)
    requires EndsOnce(history)
    ensures var after := history + [Begin(m)]; EndsOnce(after) && |history| in Open(after, m)
  {
  }

  /** Ending an open span keeps every span's end unique, and closes it. */
  lemma {:induction false} FinishKeeps(history: seq<Event>, m: string, span: nat, dur: int, failed: bool)
    requires EndsOnce(history) && span in Open(history, m)
    ensures var after := history + [Finish(span, m, dur, failed)]; EndsOnce(after) && span !in Open(after, m)
  {
    var after := history + [Finish(span, m, dur, failed)];
    assert after[|history|].Finish? && after[|history|].span == span;
    assert forall i :: 0 <= i < |history| && history[i].Finish? ==> history[i].span != span;
  }

  // ----- totals over the method map -----

  datatype Totals = Totals(count: int, errors: int, inFlight: int)

  function AddStats(t: Totals, s: Stats): Totals {
    Totals(t.count + s.count, t.errors + s.errors, t.inFlight + s.inFlight)
  }

  /** The sum over the methods in `keys`. */
  ghost function Total(methods: map<string, Stats>, keys: set<string>): Totals
    requires keys <= methods.Keys
  {
    if keys == {} then Totals(0, 0, 0)
    else var m :| m in keys; AddStats(Total(methods, keys - {m}), methods[m])
  }

  /** The order of summation does not matter. */
  lemma {:induction false} TotalAnyOrder(methods: map<string, Stats>, keys: set<string>, m: string)
    requires keys <= methods.Keys && m in keys
    ensures Total(methods, keys) == AddStats(Total(methods, keys - {m}), methods[m])
    decreases |keys|
  {
    var first :| first in keys && Total(methods, keys) == AddStats(Total(methods, keys - {first}), methods[first]);
    if first != m {
      var both := keys - {first} - {m};
      TotalAnyOrder(methods, keys - {first}, m);
      TotalAnyOrder(methods, keys - {m}, first);
      assert both == keys - {m} - {first};
      assert Total(methods, keys) == AddStats(AddStats(Total(methods, both), methods[m]), methods[first]);
    }
  }

  lemma {:induction false} TotalOneMore(methods: map<string, Stats>, left: set<string>, m: string)
    requires left <= methods.Keys && m in left
    ensures var keys := methods.Keys - left;
            && methods.Keys - (left - {m}) == keys + {m}
            && Total(methods, methods.Keys - (left - {m})) == AddStats(Total(methods, keys), methods[m])
  {
    var keys := methods.Keys - left;
    TotalAnyOrder(methods, keys + {m}, m);
    assert keys + {m} - {m} == keys;
    assert methods.Keys - (left - {m}) == keys + {m};
  }

  lemma {:induction false} TotalSame(methods: map<string, Stats>, other: map<string, Stats>, keys: set<string>)
    requires keys <= methods.Keys && keys <= other.Keys && forall m :: m in keys ==> methods[m] == other[m]
    ensures Total(methods, keys) == Total(other, keys)
    decreases |keys|
  {
    if keys != {} {
      var m :| m in keys;
      TotalSame(methods, other, keys - {m});
      TotalAnyOrder(methods, keys, m);
      TotalAnyOrder(other, keys, m);
    }
  }

  function Replaced(methods: map<string, Stats>, m: string, s: Stats, t: Totals): Totals {
    var was := StatsOf(methods, m);
    Totals(t.count + s.count - was.count, t.errors + s.errors - was.errors, t.inFlight + s.inFlight - was.inFlight)
  }

  lemma {:induction false} TotalUpdate(methods: map<string, Stats>, m: string, s: Stats)
    ensures Total(methods[m := s], methods[m := s].Keys) == Replaced(methods, m, s, Total(methods, methods.Keys))
  {
    var after, others := methods[m := s], methods.Keys - {m};
    assert after.Keys - {m} == others;
    TotalAnyOrder(after, after.Keys, m);
    TotalSame(methods, after, others);
    if m in methods {
      TotalAnyOrder(methods, methods.Keys, m);
    } else {
      assert others == methods.Keys;
    }
  }

  const ANY_START: Event -> bool := (e: Event) => e.Begin?

  const ANY_END: Event -> bool := (e: Event) => e.Finish?

  const ANY_FAILURE: Event -> bool := (e: Event) => e.Finish? && e.failed

  /** What one event does to the sums over the method map. */
  lemma {:induction false} TotalApply(methods: map<string, Stats>, e: Event)
    ensures var before, after := Total(methods, methods.Keys), Apply(methods, e);
            Total(after, after.Keys) ==
            if e.Begin? then before.(inFlight := before.inFlight + 1)
            else if e.Finish? then Totals(before.count + 1, before.errors + (if e.failed then 1 else 0), before.inFlight - 1)
            else before
  {
    if e.Begin? {
      TotalUpdate(methods, e.name, Started(StatsOf(methods, e.name)));
    } else if e.Finish? {
      TotalUpdate(methods, e.name, Ended(StatsOf(methods, e.name), e.dur, e.failed));
    }
  }

  /** The sums over the method map count all events. */
  lemma {:induction false} TotalsCountEverything(history: seq<Event>)
    ensures Total(Ledger(history), Ledger(history).Keys) == Overall(history)
  {
    if history == [] {
      ThoseNone(ANY_START);
      ThoseNone(ANY_END);
      ThoseNone(ANY_FAILURE);
    } else {
      TotalsCountEverything(history[..|history| - 1]);
      ThoseStep(history, ANY_START);
      ThoseStep(history, ANY_END);
      ThoseStep(history, ANY_FAILURE);
      TotalApply(Ledger(history[..|history| - 1]), history[|history| - 1]);
    }
  }

  /** All ends, all failures, and all starts not ended. */
  function Overall(history: seq<Event>): Totals {
    Totals(|Those(history, ANY_END)|, |Those(history, ANY_FAILURE)|,
           |Those(history, ANY_START)| - |Those(history, ANY_END)|)
  }

  // ----- latencies -----

  /** Go's integer division, which truncates toward zero. */
  function Truncate(x: int, d: int): int
    requires d > 0
  {
    if x >= 0 then x / d else -((-x) / d)
  }

  /** The quotient is the one nearest to `x / d` on the side of zero. */
  lemma {:induction false} TruncateTowardZero(x: int, d: int)
    requires d > 0
    ensures if x >= 0 then 0 <= x - Truncate(x, d) * d < d else -d < x - Truncate(x, d) * d <= 0
  {
    var y := if x >= 0 then x else -x;
    assert y == (y / d) * d + y % d;
    assert (-(y / d)) * d == -((y / d) * d);
  }

  /** The average as an exact fraction. */
  function AverageMs(s: Stats): real {
    if s.count > 0 then Truncate(s.totalLatency, MILLISECOND) as real / s.count as real else 0.0
  }

  datatype MethodSnapshot = MethodSnapshot(
    count: int, errors: int, inFlight: int, avgLatencyMs: real, maxLatencyMs: int, lastLatencyMs: int)

  /** A method as the snapshot shows it. */
  function Summary(s: Stats): MethodSnapshot {
    MethodSnapshot(s.count, s.errors, s.inFlight, AverageMs(s),
                   Truncate(s.maxLatency, MILLISECOND), Truncate(s.lastLatency, MILLISECOND))
  }

  ghost predicate NoneNegative(history: seq<Event>) {
    forall i :: 0 <= i < |history| && history[i].Finish? ==> history[i].dur >= 0
  }

  /** No duration exceeds the maximum. */
  lemma {:induction false} MaxIsGreatest(history: seq<Event>, m: string)
    requires NoneNegative(history)
    ensures var s := StatsOf(Ledger(history), m);
            && s.maxLatency >= 0 && (Ends(history, m) == {} ==> s.maxLatency == 0)
            && forall i :: i in Ends(history, m) ==> history[i].dur <= s.maxLatency
  {
    if history != [] {
      MaxIsGreatest(history[..|history| - 1], m);
      LedgerStep(history, m);
      ThoseStep(history, IsEnd(m));
    }
  }

  /** And some span took it. */
  lemma {:induction false} MaxIsReached(history: seq<Event>, m: string) returns (i: nat)
    requires NoneNegative(history) && Ends(history, m) != {}
    ensures i in Ends(history, m) && history[i].dur == StatsOf(Ledger(history), m).maxLatency
  {
    var k := |history| - 1;
    var init, e := history[..k], history[k];
    MaxIsGreatest(init, m);
    LedgerStep(history, m);
    ThoseStep(history, IsEnd(m));
    if e.Finish? && e.name == m && e.dur >= StatsOf(Ledger(init), m).maxLatency {
      i := k;
    } else {
      i := MaxIsReached(init, m);
    }
  }

  /** The last latency is that of the last end. */
  lemma {:induction false} LastIsLast(history: seq<Event>, m: string, i: nat)
    requires i in Ends(history, m) && forall j :: j in Ends(history, m) ==> j <= i
    ensures StatsOf(Ledger(history), m).lastLatency == history[i].dur
  {
    var k := |history| - 1;
    ThoseStep(history, IsEnd(m));
    LedgerStep(history, m);
    if i < k {
      LastIsLast(history[..k], m, i);
    }
  }

  lemma {:induction false} TotalFits(history: seq<Event>, m: string)
    requires NoneNegative(history)
    ensures var s := StatsOf(Ledger(history), m);
            s.count >= 0 && s.maxLatency >= 0 && 0 <= s.totalLatency <= s.count * s.maxLatency
  {
    if history != [] {
      var k := |history| - 1;
      TotalFits(history[..k], m);
      LedgerStep(history, m);
      var s, e := StatsOf(Ledger(history[..k]), m), history[k];
      if e.Finish? && e.name == m {
        Grow(s.count, s.maxLatency, e.dur);
      }
    }
  }

  lemma {:induction false} Grow(count: int, most: int, dur: int)
    requires count >= 0 && most >= 0 && dur >= 0
    ensures count * most + dur <= (count + 1) * Max(most, dur)
  {
    if dur > most {
      MulNonNeg(count, dur - most);
    }
  }

  lemma {:induction false} AverageAtMost(s: Stats, bound: int)
    requires s.count > 0
    ensures AverageMs(s) <= bound as real <==> Truncate(s.totalLatency, MILLISECOND) <= s.count * bound
    ensures AverageMs(s) < bound as real <==> Truncate(s.totalLatency, MILLISECOND) < s.count * bound
  {
    var t, n := Truncate(s.totalLatency, MILLISECOND) as real, s.count as real;
    assert t == t / n * n;
  }

  /** Truncation costs the snapshot less than a millisecond: the average shown is below the
      maximum shown plus one. The last latency shown never exceeds the maximum shown. */
  lemma {:induction false} AverageBelowMaxPlusOne(history: seq<Event>, m: string)
    requires NoneNegative(history)
    ensures var shown := Summary(StatsOf(Ledger(history), m));
            && shown.avgLatencyMs < (shown.maxLatencyMs + 1) as real
            && 0 <= shown.lastLatencyMs <= shown.maxLatencyMs
  {
    var s := StatsOf(Ledger(history), m);
    TotalFits(history, m);
    LastWithinMax(history, m);
    DivMono(0, s.lastLatency, MILLISECOND);
    DivMono(s.lastLatency, s.maxLatency, MILLISECOND);
    if s.count > 0 {
      Below(s.totalLatency, s.count, s.maxLatency, MILLISECOND);
      AverageAtMost(s, s.maxLatency / MILLISECOND + 1);
    }
  }

  lemma {:induction false} LastWithinMax(history: seq<Event>, m: string)
    requires NoneNegative(history)
    ensures 0 <= StatsOf(Ledger(history), m).lastLatency <= StatsOf(Ledger(history), m).maxLatency
  {
    if history != [] {
      LastWithinMax(history[..|history| - 1], m);
      LedgerStep(history, m);
    }
  }

  lemma {:induction false} Below(total: int, n: int, most: int, d: int)
    requires d > 0 && n > 0 && most >= 0 && 0 <= total <= n * most
    ensures total / d < n * (most / d + 1)
  {
    var q, r := most / d, most % d;
    assert n * most == n * (q * d + r);
    Distribute(q * d, r, n);
  }

  // ----- when the average shown can exceed the maximum shown -----

  /** `n` spans of `m`, one after another, each taking `dur`. */
  function Alike(m: string, n: nat, dur: int): seq<Event> {
    if n == 0 then [] else Alike(m, n - 1, dur) + [Begin(m), Finish(2 * (n - 1), m, dur, false)]
  }

  lemma {:induction false} AlikeEndsOnce(m: string, n: nat, dur: int)
    requires dur >= 0
    ensures |Alike(m, n, dur)| == 2 * n && EndsOnce(Alike(m, n, dur)) && NoneNegative(Alike(m, n, dur))
    ensures forall i :: 0 <= i < 2 * n && Alike(m, n, dur)[i].Finish? ==> Alike(m, n, dur)[i].span < 2 * n
  {
    if n > 0 {
      AlikeEndsOnce(m, n - 1, dur);
      var before := Alike(m, n - 1, dur);
      BeginKeeps(before, m);
      FinishKeeps(before + [Begin(m)], m, 2 * (n - 1), dur, false);
      assert before + [Begin(m)] + [Finish(2 * (n - 1), m, dur, false)] == Alike(m, n, dur);
    }
  }

  lemma {:induction false} AlikeStats(m: string, n: nat, dur: int)
    requires dur >= 0
    ensures var s := StatsOf(Ledger(Alike(m, n, dur)), m);
            s.count == n && s.totalLatency == n * dur && s.maxLatency == (if n == 0 then 0 else dur)
  {
    if n > 0 {
      var before, after := Alike(m, n - 1, dur), Alike(m, n, dur);
      AlikeStats(m, n - 1, dur);
      assert after[..|after| - 1] == before + [Begin(m)];
      assert (before + [Begin(m)])[..|before|] == before;
      Distribute(n - 1, 1, dur);
    }
  }

  lemma {:induction false} Scale(n: int, q: int, d: int, r: int)
    ensures n * (q * d + r) == n * r + (n * q) * d
  {
    Distribute(q * d, r, n);
    assert n * (q * d) == (n * q) * d;
  }

  lemma {:induction false} RemaindersAddUp(n: nat, q: int, r: int, d: int)
    requires d > 0
    ensures n * (q * d + r) / d == n * q + n * r / d
  {
    Scale(n, q, d, r);
    DivShift(n * r, d, n * q);
  }

  lemma {:induction false} AverageWithinMax(history: seq<Event>, m: string)
    requires NoneNegative(history)
    requires var s := StatsOf(Ledger(history), m); s.count * (s.maxLatency % MILLISECOND) < MILLISECOND
    ensures var shown := Summary(StatsOf(Ledger(history), m)); shown.avgLatencyMs <= shown.maxLatencyMs as real
  {
    var s := StatsOf(Ledger(history), m);
    TotalFits(history, m);
    if s.count > 0 {
      RemaindersAddUp(s.count, s.maxLatency / MILLISECOND, s.maxLatency % MILLISECOND, MILLISECOND);
      DivMono(s.totalLatency, s.count * s.maxLatency, MILLISECOND);
      MulNonNeg(s.count, s.maxLatency % MILLISECOND);
      DivUnique(s.count * (s.maxLatency % MILLISECOND), MILLISECOND, 0, s.count * (s.maxLatency % MILLISECOND));
      AverageAtMost(s, s.maxLatency / MILLISECOND);
    }
  }

  lemma {:induction false} AverageExceedsMax(m: string, n: nat, most: int)
    requires most >= 0 && n * (most % MILLISECOND) >= MILLISECOND
    ensures EndsOnce(Alike(m, n, most)) && NoneNegative(Alike(m, n, most))
    ensures var s := StatsOf(Ledger(Alike(m, n, most)), m);
            && s.count == n && s.maxLatency == most
            && Summary(s).avgLatencyMs > Summary(s).maxLatencyMs as real
  {
    AlikeEndsOnce(m, n, most);
    AlikeStats(m, n, most);
    var s := StatsOf(Ledger(Alike(m, n, most)), m);
    RemaindersAddUp(n, most / MILLISECOND, most % MILLISECOND, MILLISECOND);
    PeriodsFit(MILLISECOND, 1, n * (most % MILLISECOND));
    AverageAtMost(s, most / MILLISECOND);
  }

  /** A history of spans of `m`, each ended at most once and none negative, with `n` ended and
      `most` the longest. */
  ghost predicate Possible(history: seq<Event>, m: string, n: nat, most: int) {
    && EndsOnce(history) && NoneNegative(history)
    && StatsOf(Ledger(history), m).count == n && StatsOf(Ledger(history), m).maxLatency == most
  }

  ghost predicate ShownWithinMax(history: seq<Event>, m: string) {
    var shown := Summary(StatsOf(Ledger(history), m)); shown.avgLatencyMs <= shown.maxLatencyMs as real
  }

  /** With `n` spans, the longest taking `most`, the average shown is within the maximum shown
      whatever the other durations, exactly when `n` times the part of `most` below a
      millisecond is itself below a millisecond. */
  lemma {:induction false} AverageWithinMaxExactly(m: string, n: nat, most: int)
    requires most >= 0
    ensures n * (most % MILLISECOND) < MILLISECOND <==>
            forall history :: Possible(history, m, n, most) ==> ShownWithinMax(history, m)
  {
    if n * (most % MILLISECOND) < MILLISECOND {
      forall history | Possible(history, m, n, most) ensures ShownWithinMax(history, m) {
        AverageWithinMax(history, m);
      }
    } else {
      AverageExceedsMax(m, n, most);
      assert Possible(Alike(m, n, most), m, n, most) && !ShownWithinMax(Alike(m, n, most), m);
    }
  }

  // ----- the object -----

  datatype Lifecycle = Lifecycle(shutdownAt: int, inFlightAtShutdown: int)

  datatype Snapshot = Snapshot(
    uptimeSec: int, totals: Totals, rateLimitWaits: int, rateLimitWaitMs: int,
    lifecycle: Option<Lifecycle>, methods: map<string, MethodSnapshot>)

  /** Which methods the ledger has: those that have begun or ended a span. */
  lemma {:induction false} LedgerKeys(history: seq<Event>, m: string)
    ensures m in Ledger(history) <==> Starts(history, m) != {} || Ends(history, m) != {}
  {
    if history == [] {
      ThoseNone(IsStart(m));
      ThoseNone(IsEnd(m));
    } else {
      LedgerKeys(history[..|history| - 1], m);
      ThoseStep(history, IsStart(m));
      ThoseStep(history, IsEnd(m));
    }
  }

  /** What the entry of `m` shows, in terms of its events. Milliseconds are truncated. */
  ghost predicate Shows(history: seq<Event>, m: string, shown: MethodSnapshot) {
    var ends := Ends(history, m);
    && shown.count == |ends|
    && shown.errors == |Failures(history, m)|
    && shown.inFlight == |Starts(history, m)| - |ends|
    && shown.avgLatencyMs == (if ends == {} then 0.0
                              else Truncate(TotalTime(history, m), 1_000_000) as real / |ends| as real)
    && (forall i :: i in ends && (forall j :: j in ends ==> j <= i) ==>
          shown.lastLatencyMs == Truncate(history[i].dur, 1_000_000))
    && (NoneNegative(history) ==>
          && (forall i :: i in ends && (forall j :: j in ends ==> history[j].dur <= history[i].dur) ==>
                shown.maxLatencyMs == Truncate(history[i].dur, 1_000_000))
          && (ends == {} ==> shown.maxLatencyMs == 0))
  }

  lemma {:induction false} SummaryShows(history: seq<Event>, m: string)
    ensures Shows(history, m, Summary(StatsOf(Ledger(history), m)))
  {
    var s, ends := StatsOf(Ledger(history), m), Ends(history, m);
    CountersCount(history, m);
    forall i | i in ends && (forall j :: j in ends ==> j <= i) ensures s.lastLatency == history[i].dur {
      LastIsLast(history, m, i);
    }
    if NoneNegative(history) {
      MaxIsGreatest(history, m);
      if ends != {} {
        var longest := MaxIsReached(history, m);
        assert longest in ends;
      }
    }
  }

  /** The sum of the entries shown for the methods in `keys`. */
  ghost function ShownTotal(entries: map<string, MethodSnapshot>, keys: set<string>): Totals
    requires keys <= entries.Keys
  {
    if keys == {} then Totals(0, 0, 0)
    else
      var m :| m in keys;
      var rest := ShownTotal(entries, keys - {m});
      Totals(rest.count + entries[m].count, rest.errors + entries[m].errors, rest.inFlight + entries[m].inFlight)
  }

  lemma {:induction false} TotalIsShown(methods: map<string, Stats>, entries: map<string, MethodSnapshot>, keys: set<string>)
    requires keys <= methods.Keys && keys <= entries.Keys
    requires forall m :: m in keys ==>
               && entries[m].count == methods[m].count && entries[m].errors == methods[m].errors
               && entries[m].inFlight == methods[m].inFlight
    ensures ShownTotal(entries, keys) == Total(methods, keys)
    decreases |keys|
  {
    if keys != {} {
      var m :| m in keys && ShownTotal(entries, keys) ==
                            var rest := ShownTotal(entries, keys - {m});
                            Totals(rest.count + entries[m].count, rest.errors + entries[m].errors, rest.inFlight + entries[m].inFlight);
      TotalIsShown(methods, entries, keys - {m});
      TotalAnyOrder(methods, keys, m);
    }
  }

  /** The lifecycle shown is that of the latest shutdown mark, if any. */
  lemma {:induction false} LastShutdownIsLast(history: seq<Event>, i: nat)
    requires i < |history| && history[i].Shutdown? && forall j :: i < j < |history| ==> !history[j].Shutdown?
    ensures LastShutdown(history) == Some(Lifecycle(history[i].at, history[i].inFlight))
  {
    if i < |history| - 1 {
      LastShutdownIsLast(history[..|history| - 1], i);
    }
  }

  /** The waits reported, in order. */
  function WaitTimes(history: seq<Event>): seq<int> {
    if history == [] then []
    else
      var e := history[|history| - 1];
      WaitTimes(history[..|history| - 1]) + if e.Waited? then [e.d] else []
  }

  function LastShutdown(history: seq<Event>): Option<Lifecycle> {
    if history == [] then None
    else
      match history[|history| - 1]
      case Shutdown(at, inFlight) => Some(Lifecycle(at, inFlight))
      case _ => LastShutdown(history[..|history| - 1])
  }

  /** One event more. */
  lemma {:induction false} HistoryGrows(history: seq<Event>, e: Event)
    ensures Ledger(history + [e]) == Apply(Ledger(history), e)
    ensures WaitTimes(history + [e]) == if e.Waited? then WaitTimes(history) + [e.d] else WaitTimes(history)
    ensures LastShutdown(history + [e]) == if e.Shutdown? then Some(Lifecycle(e.at, e.inFlight)) else LastShutdown(history)
  {
    assert (history + [e])[..|history|] == history && WaitTimes(history) + [] == WaitTimes(history);
  }

  lemma {:induction false} Overwrite(methods: map<string, Stats>, m: string, first: Stats, second: Stats)
    ensures methods[m := first][m := second] == methods[m := second]
  {
  }

  /** The snapshot's walk over the map, with the methods in `left` still to come. */
  ghost predicate Walked(methods: map<string, Stats>, left: set<string>, summaries: map<string, MethodSnapshot>, totals: Totals) {
    && left <= methods.Keys && summaries.Keys == methods.Keys - left
    && (forall m :: m in summaries ==> summaries[m] == Summary(methods[m]))
    && totals == Total(methods, methods.Keys - left)
  }

  lemma {:induction false} WalkOn(
    methods: map<string, Stats>, left: set<string>, summaries: map<string, MethodSnapshot>, totals: Totals, m: string)
    requires Walked(methods, left, summaries, totals) && m in left
    ensures Walked(methods, left - {m}, summaries[m := Summary(methods[m])], AddStats(totals, methods[m]))
  {
    TotalOneMore(methods, left, m);
  }

  class Metrics {
    const start: int
    var methods: map<string, Stats>
    var rateLimitWaits: int
    var rateLimitWait: int
    var lifecycle: Option<Lifecycle>
    ghost var history: seq<Event>

    ghost predicate Valid()
      reads this
    {
      && methods == Ledger(history) && lifecycle == LastShutdown(history)
      && rateLimitWaits == |WaitTimes(history)| && rateLimitWait == Sum(WaitTimes(history))
    }

    constructor (now: int)
      ensures Valid() && history == [] && start == now
    {
      start := now;
      methods, rateLimitWaits, rateLimitWait, lifecycle := map[], 0, 0, None;
      history := [];
    }

    /** All is recorded except that a method may have been entered with empty counters. */
    ghost predicate AlmostValid(before: map<string, Stats>, name: string)
      reads this
    {
      && before == Ledger(history) && lifecycle == LastShutdown(history)
      && rateLimitWaits == |WaitTimes(history)| && rateLimitWait == Sum(WaitTimes(history))
      && methods == before[name := StatsOf(before, name)]
    }

    method EnsureMethod(name: string) returns (stats: Stats)
      requires Valid()
      modifies this`methods
      ensures AlmostValid(old(methods), name) && stats == StatsOf(old(methods), name)
    {
      if name !in methods { methods := methods[name := NO_STATS]; }
      stats := methods[name];
    }

    method Put(ghost before: map<string, Stats>, name: string, stats: Stats, ghost e: Event)
      requires AlmostValid(before, name) && Apply(before, e) == before[name := stats] && (e.Begin? || e.Finish?)
      modifies this
      ensures Valid() && history == old(history) + [e]
    {
      Overwrite(before, name, StatsOf(before, name), stats);
      HistoryGrows(history, e);
      methods := methods[name := stats];
      history := history + [e];
    }

    method Finish(ghost span: nat, name: string, dur: int, failed: bool)
      requires Valid()
      modifies this
      ensures Valid() && history == old(history) + [Event.Finish(span, name, dur, failed)]
    {
      var stats := EnsureMethod(name);
      stats := stats.(inFlight := stats.inFlight - 1, count := stats.count + 1);
      if failed { stats := stats.(errors := stats.errors + 1); }
      stats := stats.(totalLatency := stats.totalLatency + dur);
      if dur > stats.maxLatency { stats := stats.(maxLatency := dur); }
      Put(old(methods), name, stats.(lastLatency := dur), Event.Finish(span, name, dur, failed));
    }

    method AddRateLimitWait(d: int)
      requires Valid()
      modifies this
      ensures Valid() && history == if d > 0 then old(history) + [Waited(d)] else old(history)
    {
      if d <= 0 { return; }
      rateLimitWaits, rateLimitWait := rateLimitWaits + 1, rateLimitWait + d;
      HistoryGrows(history, Waited(d));
      SumAppend(WaitTimes(history), [d]);
      assert [d][1..] == [];
      history := history + [Waited(d)];
    }

    method MarkShutdown(inFlight: int, now: int)
      requires Valid()
      modifies this
      ensures Valid() && history == old(history) + [Shutdown(now, inFlight)]
    {
      lifecycle := Some(Lifecycle(now, inFlight));
      HistoryGrows(history, Shutdown(now, inFlight));
      history := history + [Shutdown(now, inFlight)];
    }

    /** Every method that has begun or ended a span is shown, by its events, and the totals are
        the sums of what is shown and count every event. */
    method TakeSnapshot(now: int) returns (snap: Snapshot)
      requires Valid()
      ensures forall m :: m in snap.methods <==> Starts(history, m) != {} || Ends(history, m) != {}
      ensures forall m :: m in snap.methods ==> Shows(history, m, snap.methods[m])
      ensures snap.totals == ShownTotal(snap.methods, snap.methods.Keys) == Overall(history)
      ensures snap.rateLimitWaits == |WaitTimes(history)|
      ensures snap.rateLimitWaitMs == Truncate(Sum(WaitTimes(history)), 1_000_000)
      ensures snap.lifecycle == LastShutdown(history) && snap.uptimeSec == Truncate(now - start, 1_000_000_000)
    {
      var summaries, totals := Summarize();
      TotalsCountEverything(history);
      TotalIsShown(methods, summaries, methods.Keys);
      forall m ensures m in summaries <==> Starts(history, m) != {} || Ends(history, m) != {} {
        LedgerKeys(history, m);
      }
      forall m | m in summaries ensures Shows(history, m, summaries[m]) {
        SummaryShows(history, m);
      }
      snap := Snapshot(Truncate(now - start, SECOND), totals, rateLimitWaits,
                       Truncate(rateLimitWait, MILLISECOND), lifecycle, summaries);
    }

    /** The snapshot's loop over the methods. */
    method Summarize() returns (summaries: map<string, MethodSnapshot>, totals: Totals)
      ensures summaries.Keys == methods.Keys
      ensures forall m :: m in methods ==> summaries[m] == Summary(methods[m])
      ensures totals == Total(methods, methods.Keys)
    {
      summaries, totals := map[], Totals(0, 0, 0);
      var left := methods.Keys;
      while left != {}
        invariant Walked(methods, left, summaries, totals)
        decreases |left|
      {
        var m :| m in left;
        WalkOn(methods, left, summaries, totals, m);
        summaries := summaries[m := Summary(methods[m])];
        totals := AddStats(totals, methods[m]);
        left := left - {m};
      }
      assert methods.Keys - left == methods.Keys;
    }
  }

  /** A started call. Its metrics may be missing, and then ending it does nothing. */
  class CallSpan {
    const metrics: Metrics?
    const name: string
    const start: int
    ghost const id: nat

    constructor (metrics: Metrics?, name: string, start: int, ghost id: nat)
      ensures this.metrics == metrics && this.name == name && this.start == start && this.id == id
    {
      this.metrics, this.name, this.start, this.id := metrics, name, start, id;
    }

    /** The span was begun, and has not ended. */
    ghost predicate Pending()
      reads metrics
    {
      metrics != null ==> id in Open(metrics.history, name)
    }

    method End(now: int, failed: bool)
      requires metrics != null ==> metrics.Valid()
      modifies metrics
      ensures metrics != null ==>
                metrics.Valid() && metrics.history == old(metrics.history) + [Event.Finish(id, name, now - start, failed)]
      ensures metrics != null && old(Pending() && EndsOnce(metrics.history)) ==> EndsOnce(metrics.history) && !Pending()
    {
      if metrics == null { return; }
      if Pending() && EndsOnce(metrics.history) { FinishKeeps(metrics.history, name, id, now - start, failed); }
      metrics.Finish(id, name, now - start, failed);
    }
  }

  /** The locked section comes before the span's clock reading. */
  method Start(metrics: Metrics?, name: string, now: int) returns (span: CallSpan)
    requires metrics != null ==> metrics.Valid()
    modifies metrics
    ensures fresh(span) && span.metrics == metrics
    ensures metrics != null ==>
              && metrics.Valid() && metrics.history == old(metrics.history) + [Begin(name)]
              && span.name == name && span.start == now && span.id == old(|metrics.history|)
    ensures metrics != null && old(EndsOnce(metrics.history)) ==> EndsOnce(metrics.history) && span.Pending()
  {
    if metrics == null {
      span := new CallSpan(null, "", 0, 0);
      return;
    }
    if EndsOnce(metrics.history) { BeginKeeps(metrics.history, name); }
    var stats := metrics.EnsureMethod(name);
    metrics.Put(old(metrics.methods), name, stats.(inFlight := stats.inFlight + 1), Begin(name));
    span := new CallSpan(metrics, name, now, |metrics.history| - 1);
  }
}
