/** One call of `CreateOrder` by itself: its statements in the world as others leave it, and
    the retry policy of the clients it calls. */
module OrderPolicy {
  import opened Common
  import opened OrderTables
  import opened OrderSaga

  /** What the world does to one call: `disturb(i, t)` are the tables its i-th statement
      runs on when the previous one left `t`, `fault(i)` the fate of that statement, and
      `retryable(i)` whether its error is one the client retries. */
  datatype World = World(disturb: (nat, Tables) -> Tables, fault: nat -> Fault, retryable: nat -> bool)

  /** One run alone in that world; `retries[i]` says whether its i-th step was retried. */
  ghost function Alone(t: Tables, r: Run, world: World, retries: seq<bool>): (Tables, Run) {
    if retries == [] then (t, r)
    else
      var i := |retries| - 1;
      var (t1, r1) := Alone(t, r, world, retries[..i]);
      RunStep(world.disturb(i, t1), r1, Choice(world.fault(i), retries[i]))
  }

  lemma {:induction false} AloneAppend(t: Tables, r: Run, world: World, retries: seq<bool>, retry: bool)
    ensures var (t1, r1) := Alone(t, r, world, retries); var i := |retries|;
            Alone(t, r, world, retries + [retry]) == RunStep(world.disturb(i, t1), r1, Choice(world.fault(i), retry))
  {
    assert (retries + [retry])[..|retries|] == retries;
  }

  // ----- the retry policy -----

  /** The attempt that `r` makes on tables `t` reports an error. */
  predicate AttemptFails(t: Tables, r: Run, fault: Fault) {
    match r.pc
    case Charging => r.order == "" || !fault.Okay? || r.order in t.payments
    case Assigning => r.order == "" || r.driver == "" || !fault.Okay? || InsertAssignment(t, r.order, r.driver).1.Violation?
    case AssignLookup => !fault.Okay? || r.order !in t.assignments || t.assignments[r.order] != r.driver
    case Refunding => r.order == "" || !fault.Okay?
    case RefundLookup => true
    case _ => false
  }

  /** `r` is inside a call of a reliable client. */
  predicate InCall(r: Run) {
    r.pc.Charging? || r.pc.Assigning? || r.pc.AssignLookup? || r.pc.Refunding? || r.pc.RefundLookup?
  }

  /** The attempts begun in the client call that `r` is in, counting the one its next
      statement belongs to, when `tries` were begun before that statement. */
  function Attempt(r: Run, tries: nat): nat {
    if r.pc.Charging? || r.pc.Assigning? || r.pc.Refunding? then tries + 1 else tries
  }

  /** The tables, the run, and the attempts begun in the client call it is in. */
  datatype Course = Course(t: Tables, r: Run, tries: nat)

  /** Whether the i-th statement, met in state `c`, is a failed attempt that is retried. */
  ghost predicate Retries(c: Course, world: World, attempts: int, i: nat) {
    && AttemptFails(world.disturb(i, c.t), c.r, world.fault(i))
    && Attempt(c.r, c.tries) < attempts && world.retryable(i)
  }

  ghost function NextCourse(c: Course, world: World, attempts: int, i: nat): Course {
    var (t', r') := RunStep(world.disturb(i, c.t), c.r, Choice(world.fault(i), Retries(c, world, attempts, i)));
    Course(t', r', if InCall(r') then Attempt(c.r, c.tries) else 0)
  }

  // ----- the states of one call, in order -----

  ghost predicate Follows(path: seq<Course>, world: World, attempts: int, i: nat)
    requires i + 1 < |path|
  {
    path[i + 1] == NextCourse(path[i], world, attempts, i)
  }

  /** `path[i]` is the state in which the i-th statement is issued. */
  ghost predicate IsPath(path: seq<Course>, world: World, attempts: int) {
    path != [] && path[0].tries == 0 && forall i :: 0 <= i < |path| - 1 ==> Follows(path, world, attempts, i)
  }

  lemma {:induction false} PathGrows(path: seq<Course>, world: World, attempts: int, c: Course)
    requires IsPath(path, world, attempts) && c == NextCourse(path[|path| - 1], world, attempts, |path| - 1)
    ensures IsPath(path + [c], world, attempts)
  {
    forall i | 0 <= i < |path| ensures Follows(path + [c], world, attempts, i) {
      assert i < |path| - 1 ==> Follows(path, world, attempts, i);
    }
  }

  /** The world decides the path. */
  lemma {:induction false} PathIsDecided(path: seq<Course>, other: seq<Course>, world: World, attempts: int, n: nat)
    requires IsPath(path, world, attempts) && IsPath(other, world, attempts) && path[0] == other[0]
    requires n < |path| && n < |other|
    ensures path[n] == other[n]
  {
    if n > 0 {
      PathIsDecided(path, other, world, attempts, n - 1);
      assert Follows(path, world, attempts, n - 1) && Follows(other, world, attempts, n - 1);
    }
  }

  lemma {:induction false} DoneIsDone(c: Course, world: World, attempts: int, i: nat)
    requires c.r.pc.Done?
    ensures NextCourse(c, world, attempts, i).r == c.r
  {
  }

  /** And a call that has answered has answered. */
  lemma {:induction false} AnswerStays(path: seq<Course>, world: World, attempts: int, n: nat, m: nat)
    requires IsPath(path, world, attempts) && n <= m < |path| && path[n].r.pc.Done?
    ensures path[m].r == path[n].r
  {
    if n < m {
      AnswerStays(path, world, attempts, n, m - 1);
      assert Follows(path, world, attempts, m - 1);
      DoneIsDone(path[m - 1], world, attempts, m - 1);
    }
  }

  /** Which of the first `n` statements were retried. */
  ghost function RetriesOf(path: seq<Course>, world: World, attempts: int, n: nat): (retries: seq<bool>)
    requires n <= |path|
    ensures |retries| == n
  {
    if n == 0 then [] else RetriesOf(path, world, attempts, n - 1) + [Retries(path[n - 1], world, attempts, n - 1)]
  }

  /** A call under the policy is a run alone in its world. */
  lemma {:induction false} PathIsAlone(path: seq<Course>, world: World, attempts: int, n: nat)
    requires IsPath(path, world, attempts) && n < |path|
    ensures Alone(path[0].t, path[0].r, world, RetriesOf(path, world, attempts, n)) == (path[n].t, path[n].r)
  {
    if n > 0 {
      PathIsAlone(path, world, attempts, n - 1);
      AloneAppend(path[0].t, path[0].r, world, RetriesOf(path, world, attempts, n - 1), Retries(path[n - 1], world, attempts, n - 1));
      assert Follows(path, world, attempts, n - 1);
    }
  }

  /** The i-th statement was a failed attempt. */
  ghost predicate FailedAt(path: seq<Course>, world: World, i: nat)
    requires i < |path|
  {
    AttemptFails(world.disturb(i, path[i].t), path[i].r, world.fault(i))
  }

  /** How many of the statements `lo .. hi` were failed attempts. */
  ghost function Failures(path: seq<Course>, world: World, lo: nat, hi: nat): nat
    requires hi <= |path|
    decreases hi
  {
    if hi <= lo then 0 else Failures(path, world, lo, hi - 1) + if FailedAt(path, world, hi - 1) then 1 else 0
  }

  lemma {:induction false} FailuresAdd(path: seq<Course>, longer: seq<Course>, world: World, lo: nat, mid: nat, hi: nat)
    requires lo <= mid <= hi <= |longer| && mid <= |path| && path <= longer
    ensures Failures(longer, world, lo, hi) == Failures(path, world, lo, mid) + Failures(longer, world, mid, hi)
    decreases hi
  {
    if mid < hi {
      FailuresAdd(path, longer, world, lo, mid, hi - 1);
    } else if lo < mid {
      FailuresAdd(path, longer, world, lo, mid - 1, hi - 1);
    }
  }

  // ----- which failed attempts are retried -----

  /** The first statement of the client call that `pc` is in. */
  function CallOf(pc: Pc): Pc {
    if pc.AssignLookup? then Assigning else if pc.RefundLookup? then Refunding else pc
  }

  /** How many of the first `n` statements were issued at `at`. */
  ghost function Begun(path: seq<Course>, n: nat, at: Pc): nat
    requires n <= |path|
  {
    if n == 0 then 0 else Begun(path, n - 1, at) + if path[n - 1].r.pc == at then 1 else 0
  }

  /** How far a run has come. */
  function Rank(pc: Pc): nat {
    match pc
    case Insert => 0
    case Lookup(_) => 1
    case Log(e) =>
      (match e
       case ChargeBegun => 2
       case ChargePassed => 4
       case ChargeBroken => 4
       case AssignBegun => 5
       case AssignPassed => 7
       case AssignBroken => 7
       case RefundBegun => 8
       case RefundPassed => 10
       case RefundBroken => 10)
    case Charging => 3
    case Assigning => 6
    case AssignLookup => 6
    case Refunding => 9
    case RefundLookup => 9
    case Write(_) => 11
    case Done(_) => 12
  }

  /** From `r` to `r'` a run does not go back, but for the attempts of one client call. */
  ghost predicate Onward(r: Run, r': Run) {
    Rank(r.pc) <= Rank(r'.pc) && (InCall(r) && InCall(r') ==> CallOf(r'.pc) == CallOf(r.pc))
  }

  lemma {:induction false} ChargeOnward(t: Tables, r: Run, c: Choice)
    requires r.pc.Charging?
    ensures Onward(r, RunStep(t, r, c).1)
  {
    ChargeEnds(t, r, c);
  }

  lemma {:induction false} AssignOnward(t: Tables, r: Run, c: Choice)
    requires r.pc.Assigning?
    ensures Onward(r, AfterAssign(t, r, c))
  {
    if AttemptFails(t, r, c.fault) { AssignFails(t, r, c); } else { AssignGoesOn(t, r, c); }
  }

  lemma {:induction false} ConfirmOnward(t: Tables, r: Run, c: Choice)
    requires r.pc.AssignLookup?
    ensures Onward(r, RunStep(t, r, c).1)
  {
    ConfirmEnds(t, r, c);
  }

  lemma {:induction false} RefundOnward(t: Tables, r: Run, c: Choice)
    requires r.pc.Refunding?
    ensures Onward(r, RunStep(t, r, c).1)
  {
    RefundEnds(t, r, c);
  }

  lemma {:induction false} CallOnward(t: Tables, r: Run, c: Choice)
    requires InCall(r)
    ensures Onward(r, RunStep(t, r, c).1)
  {
    match r.pc
    case Charging => ChargeOnward(t, r, c);
    case Assigning => AssignOnward(t, r, c);
    case AssignLookup => ConfirmOnward(t, r, c);
    case Refunding => RefundOnward(t, r, c);
    case RefundLookup =>
  }

  lemma {:induction false} StartOnward(t: Tables, r: Run, c: Choice)
    requires r.pc.Insert? || r.pc.Lookup?
    ensures Onward(r, RunStep(t, r, c).1)
  {
  }

  lemma {:induction false} WriteOnward(t: Tables, r: Run, c: Choice)
    requires r.pc.Log? || r.pc.Write? || r.pc.Done?
    ensures Onward(r, RunStep(t, r, c).1)
  {
  }

  lemma {:induction false} StepOnward(t: Tables, r: Run, c: Choice)
    ensures Onward(r, RunStep(t, r, c).1)
  {
    if InCall(r) {
      CallOnward(t, r, c);
    } else if r.pc.Insert? || r.pc.Lookup? {
      StartOnward(t, r, c);
    } else {
      WriteOnward(t, r, c);
    }
  }

  /** The attempts begun in the call that starts at `at`, as counted along the way and as the
      number of times the run stood there. */
  ghost predicate Counts(r: Run, tries: nat, at: Pc, begun: nat) {
    && (InCall(r) && CallOf(r.pc) == at ==> tries == begun)
    && (!InCall(r) ==> tries == 0) && (Rank(r.pc) < Rank(at) ==> begun == 0)
  }

  lemma {:induction false} NextCounts(r: Run, tries: nat, r': Run, at: Pc, begun: nat)
    requires at in {Charging, Assigning, Refunding} && Counts(r, tries, at, begun) && Onward(r, r')
    ensures Counts(r', if InCall(r') then Attempt(r, tries) else 0, at, begun + if r.pc == at then 1 else 0)
  {
  }

  lemma {:induction false} StepCounts(c: Course, world: World, attempts: int, i: nat, at: Pc, begun: nat)
    requires at in {Charging, Assigning, Refunding} && Counts(c.r, c.tries, at, begun)
    ensures var next := NextCourse(c, world, attempts, i);
            Counts(next.r, next.tries, at, begun + if c.r.pc == at then 1 else 0)
  {
    var t, choice := world.disturb(i, c.t), Choice(world.fault(i), Retries(c, world, attempts, i));
    StepOnward(t, c.r, choice);
    NextCounts(c.r, c.tries, RunStep(t, c.r, choice).1, at, begun);
  }

  ghost predicate CountsAt(path: seq<Course>, n: nat, at: Pc)
    requires n < |path|
  {
    Counts(path[n].r, path[n].tries, at, Begun(path, n, at))
  }

  lemma {:induction false} NextCountsAt(path: seq<Course>, world: World, attempts: int, n: nat, at: Pc)
    requires n + 1 < |path| && Follows(path, world, attempts, n) && at in {Charging, Assigning, Refunding}
    requires CountsAt(path, n, at)
    ensures CountsAt(path, n + 1, at)
  {
    StepCounts(path[n], world, attempts, n, at, Begun(path, n, at));
  }

  lemma {:induction false} TriesCount(path: seq<Course>, world: World, attempts: int, n: nat, at: Pc)
    requires IsPath(path, world, attempts) && n < |path| && at in {Charging, Assigning, Refunding}
    ensures CountsAt(path, n, at)
  {
    if n > 0 {
      TriesCount(path, world, attempts, n - 1, at);
      NextCountsAt(path, world, attempts, n - 1, at);
    }
  }

  lemma {:induction false} FailedStep(t: Tables, r: Run, c: Choice)
    requires AttemptFails(t, r, c.fault)
    ensures InCall(r) && (RunStep(t, r, c).1.pc == CallOf(r.pc) <==> c.retry)
  {
  }

  /** A failed attempt is followed by another exactly if fewer than `attempts` have been begun
      in this client call and its error can be retried. */
  lemma {:induction false} RetriedExactly(path: seq<Course>, world: World, attempts: int, n: nat)
    requires IsPath(path, world, attempts) && n + 1 < |path| && FailedAt(path, world, n)
    ensures var at := CallOf(path[n].r.pc);
            path[n + 1].r.pc == at <==> Begun(path, n + 1, at) < attempts && world.retryable(n)
  {
    var c := path[n];
    FailedStep(world.disturb(n, c.t), c.r, Choice(world.fault(n), Retries(c, world, attempts, n)));
    TriesCount(path, world, attempts, n, CallOf(c.r.pc));
    assert Follows(path, world, attempts, n);
  }

  // ----- one client call -----

  ghost predicate AllRetryable(path: seq<Course>, world: World, lo: nat, hi: nat)
    requires hi <= |path|
  {
    forall i :: lo <= i < hi && FailedAt(path, world, i) ==> world.retryable(i)
  }

  /** A client call that took the statements `lo .. hi` for `made` attempts: each but the last
      failed and could be retried, and the last one succeeded, or was the last allowed, or
      failed for good. */
  ghost predicate Answered(path: seq<Course>, world: World, attempts: int, lo: nat, hi: nat, made: int, ok: bool) {
    && lo < hi <= |path|
    && (ok <==> !FailedAt(path, world, hi - 1))
    && AllRetryable(path, world, lo, hi - 1)
    && made == 1 + Failures(path, world, lo, hi - 1) <= Max(1, attempts)
    && (ok || made == Max(1, attempts) || !world.retryable(hi - 1))
  }

  /** The same while attempt number `attempt` is still to be made. */
  ghost predicate Underway(path: seq<Course>, world: World, attempts: int, lo: nat, hi: nat, attempt: int) {
    && lo <= hi <= |path| && 1 <= attempt <= Max(1, attempts)
    && AllRetryable(path, world, lo, hi) && Failures(path, world, lo, hi) == attempt - 1
  }

  lemma {:induction false} NoFailures(path: seq<Course>, world: World, lo: nat, hi: nat)
    requires hi <= |path| && Failures(path, world, lo, hi) == 0
    ensures forall i :: lo <= i < hi ==> !FailedAt(path, world, i)
  {
    if lo < hi {
      NoFailures(path, world, lo, hi - 1);
    }
  }

  lemma {:induction false} StillRetryable(path: seq<Course>, longer: seq<Course>, world: World, lo: nat, mid: nat, hi: nat)
    requires mid <= |path| && lo <= mid <= hi <= |longer| && path <= longer
    requires AllRetryable(path, world, lo, mid) && Failures(longer, world, mid, hi) == 0
    ensures AllRetryable(longer, world, lo, hi)
  {
    NoFailures(longer, world, mid, hi);
    forall i | lo <= i < hi && FailedAt(longer, world, i) ensures world.retryable(i) {
      assert i < mid && FailedAt(path, world, i);
    }
  }

  /** One attempt more: the statements `mid .. hi`, of which only the last can have failed. */
  lemma {:induction false} OneMoreAttempt(
    path: seq<Course>, longer: seq<Course>, world: World, attempts: int, lo: nat, mid: nat, hi: nat, attempt: int, ok: bool, again: bool)
    requires Underway(path, world, attempts, lo, mid, attempt) && path <= longer && mid < hi <= |longer|
    requires Failures(longer, world, mid, hi - 1) == 0 && (ok <==> !FailedAt(longer, world, hi - 1))
    requires again <==> !ok && attempt < attempts && world.retryable(hi - 1)
    ensures if again then Underway(longer, world, attempts, lo, hi, attempt + 1) else Answered(longer, world, attempts, lo, hi, attempt, ok)
  {
    FailuresAdd(path, longer, world, lo, mid, hi - 1);
    StillRetryable(path, longer, world, lo, mid, hi - 1);
  }

  // ----- one attempt, as its run sees it -----

  lemma {:induction false} ChargeEnds(t: Tables, r: Run, c: Choice)
    requires r.pc.Charging?
    ensures var r' := RunStep(t, r, c).1; var fails := AttemptFails(t, r, c.fault);
            && SamePlan(r, r')
            && r'.pc == (if !fails then Log(ChargePassed) else if c.retry then Charging else Log(ChargeBroken))
            && r'.err == (if fails && !c.retry then Some(ChargeFailed) else r.err)
  {
    assert RunStep(t, r, c).1 == AfterCharge(t, r, c);
  }

  lemma {:induction false} ConfirmEnds(t: Tables, r: Run, c: Choice)
    requires r.pc.AssignLookup?
    ensures var r' := RunStep(t, r, c).1; var fails := AttemptFails(t, r, c.fault);
            && SamePlan(r, r')
            && r'.pc == (if !fails then Log(AssignPassed) else if c.retry then Assigning else Log(AssignBroken))
            && r'.err == (if fails && !c.retry then Some(AssignFailed) else r.err)
  {
    assert RunStep(t, r, c).1 == AfterAssignLookup(t, r, c);
  }

  lemma {:induction false} AssignFails(t: Tables, r: Run, c: Choice)
    requires r.pc.Assigning? && AttemptFails(t, r, c.fault)
    ensures var r' := AfterAssign(t, r, c);
            && r'.pc == (if c.retry then Assigning else Log(AssignBroken))
            && r'.err == (if c.retry then r.err else Some(AssignFailed))
  {
  }

  lemma {:induction false} AssignGoesOn(t: Tables, r: Run, c: Choice)
    requires r.pc.Assigning? && !AttemptFails(t, r, c.fault)
    ensures var r' := AfterAssign(t, r, c);
            && r'.pc == (if InsertAssignment(t, r.order, r.driver).1.Inserted? then Log(AssignPassed) else AssignLookup)
            && r'.err == r.err
  {
  }

  lemma {:induction false} AssignEnds(t: Tables, r: Run, c: Choice)
    requires r.pc.Assigning?
    ensures var r' := RunStep(t, r, c).1; var fails := AttemptFails(t, r, c.fault);
            && SamePlan(r, r')
            && r'.pc == (if fails then (if c.retry then Assigning else Log(AssignBroken))
                         else if InsertAssignment(t, r.order, r.driver).1.Inserted? then Log(AssignPassed) else AssignLookup)
            && r'.err == (if fails && !c.retry then Some(AssignFailed) else r.err)
  {
    if AttemptFails(t, r, c.fault) { AssignFails(t, r, c); } else { AssignGoesOn(t, r, c); }
  }

  lemma {:induction false} ExplainEnds(t: Tables, r: Run, c: Choice)
    requires r.pc.RefundLookup?
    ensures var (t', r') := RunStep(t, r, c);
            && t' == t && SamePlan(r, r')
            && r'.pc == (if c.retry then Refunding else Log(RefundBroken))
            && r'.err == (if c.retry then r.err else Some(RefundFailed))
  {
  }

  lemma {:induction false} RefundEnds(t: Tables, r: Run, c: Choice)
    requires r.pc.Refunding?
    ensures var r' := RunStep(t, r, c).1; var fails := AttemptFails(t, r, c.fault);
            && SamePlan(r, r')
            && r'.pc == (if fails then (if c.retry then Refunding else Log(RefundBroken))
                         else if UpdateRefund(t, r.order, r.req.amount).1 then Log(RefundPassed) else RefundLookup)
            && r'.err == (if fails && !c.retry then Some(RefundFailed) else r.err)
  {
    assert RunStep(t, r, c).1 == AfterRefund(t, r, c);
  }
}
