/** The step log: which traces it can hold, and what replaying it gives. */
module OrderSagaLog {
  import opened Common
  import opened OrderTables
  import opened OrderSaga
  import opened OrderSagaInvariant
  import opened OrderSagaTheorems
  import opened OrderSagaFaults

  const COMPLETE_TRACES := {CHARGE_FAILED, ASSIGNED, REFUNDED, REFUND_FAILED}

  lemma {:induction false} WithinComplete(a: Trace, pc: Pc, err: Option<Error>)
    requires Subsequence(a, At(pc, err).trace)
    ensures exists whole :: whole in COMPLETE_TRACES && Subsequence(a, whole)
  {
    var b := At(pc, err).trace;
    assert b in {Nothing, CHARGE_BEGUN, CHARGED, ASSIGN_BEGUN, ASSIGN_FAILED, REFUND_BEGUN} + COMPLETE_TRACES;
    if b in {Nothing, CHARGE_BEGUN} {
      assert Subsequence(a, CHARGE_FAILED);
    } else if b in {CHARGED, ASSIGN_BEGUN} {
      assert Subsequence(a, ASSIGN_BEGUN);
      assert Subsequence(a, ASSIGNED);
    } else if b in {ASSIGN_FAILED, REFUND_BEGUN} {
      assert Subsequence(a, REFUND_BEGUN);
      assert Subsequence(a, REFUNDED);
    }
  }

  /** Whatever log writes fail, the log of an order is a subsequence of one of the four
      complete traces, and an order without a saga row has no log. */
  lemma {:induction false} LogIsATrace(actions: seq<Action>, order: string)
    ensures var t := Exec(INIT, actions).tables; var trace := Project(t.log, order);
            if order in t.sagas then exists whole :: whole in COMPLETE_TRACES && Subsequence(trace, whole)
            else trace == Nothing
  {
    Reachable(actions);
    var s := Exec(INIT, actions);
    if order in s.tables.sagas {
      var r := s.runs[s.creator[order]];
      assert Owns(s.tables, r);
      WithinComplete(Project(s.tables.log, order), r.pc, r.err);
    }
  }

  // ----- replaying a log -----

  /** What a reader concludes from a log alone. */
  datatype Story = Story(charged: bool, hasDriver: bool, refunded: bool, status: Status)

  function Replay(trace: Trace): Story {
    match trace
    case Nothing => Story(false, false, false, Started)
    case Then(before, last) =>
      var story := Replay(before);
      match last
      case ChargePassed => story.(charged := true)
      case ChargeBroken => story.(status := Failed)
      case AssignPassed => story.(hasDriver := true, status := Succeeded)
      case RefundPassed => story.(refunded := true, status := Refunded)
      case RefundBroken => story.(status := Failed)
      case _ => story
  }

  lemma {:induction false} ReplayComplete()
    ensures Replay(CHARGE_FAILED) == Story(false, false, false, Failed)
    ensures Replay(ASSIGNED) == Story(true, true, false, Succeeded)
    ensures Replay(REFUNDED) == Story(true, false, true, Refunded)
    ensures Replay(REFUND_FAILED) == Story(true, false, false, Failed)
  {
    assert Replay(CHARGE_BEGUN) == Story(false, false, false, Started);
    assert Replay(CHARGED) == Story(true, false, false, Started);
    assert Replay(ASSIGN_BEGUN) == Story(true, false, false, Started);
    assert Replay(REFUND_BEGUN) == Story(true, false, false, Started) by {
      assert Replay(ASSIGN_FAILED) == Story(true, false, false, Started);
    }
  }

  /** What a story says of the rows of an order, `r` being its creating run. */
  ghost predicate Tells(story: Story, t: Tables, r: Run) {
    var o := r.order;
    && (o in t.payments <==> story.charged)
    && (story.charged ==> t.payments[o] == Payment(r.req.amount, if story.refunded then Some(r.req.amount) else None))
    && (o in t.assignments <==> story.hasDriver)
    && (story.hasDriver ==> t.assignments[o] == r.driver)
  }

  lemma {:induction false} OwnReplay(t: Tables, r: Run)
    requires Owns(t, r) && r.pc.Done? && r.NothingHidden() && !r.lostLog
    ensures var story := Replay(Project(t.log, r.order));
            && Tells(story, t, r)
            && t.sagas[r.order].status == if r.lostStatus then Started else story.status
  {
    ReplayComplete();
  }

  /** For an order whose creating run has finished, with no effect hidden by an error and no
      log write lost, the log alone tells its payment row, its assignment, and its status
      unless that one write was lost. */
  lemma {:induction false} LogTellsAll(actions: seq<Action>, id: nat)
    requires var s := Exec(INIT, actions); id in s.runs && s.runs[id].created && s.runs[id].pc.Done?
    requires Unhidden(actions, id) && !LogLost(actions, id)
    ensures var s := Exec(INIT, actions); var t := s.tables; var r := s.runs[id];
            var story := Replay(Project(t.log, r.order));
            && Tells(story, t, r)
            && r.order in t.sagas && t.sagas[r.order].status == if StatusLost(actions, id) then Started else story.status
  {
    Reachable(actions);
    UnhiddenRun(actions, id);
    ExecLosses(actions, id);
    OwnReplay(Exec(INIT, actions).tables, Exec(INIT, actions).runs[id]);
  }

  /** So when failures are clean and log writes succeed, the log tells all. */
  lemma {:induction false} CleanLogTellsAll(actions: seq<Action>, id: nat)
    requires NoAmbiguity(actions) && !LogLost(actions, id)
    requires var s := Exec(INIT, actions); id in s.runs && s.runs[id].created && s.runs[id].pc.Done?
    ensures var s := Exec(INIT, actions); var r := s.runs[id];
            var story := Replay(Project(s.tables.log, r.order));
            && Tells(story, s.tables, r)
            && r.order in s.tables.sagas
            && s.tables.sagas[r.order].status == if StatusLost(actions, id) then Started else story.status
  {
    CleanUnhidden(actions, id);
    LogTellsAll(actions, id);
  }
}
