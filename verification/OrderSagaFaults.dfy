/** What the faults met by a run decide: its rows, its answer and its status, as exact
    conditions on the actions themselves. */
module OrderSagaFaults {
  import opened Common
  import opened OrderTables
  import opened OrderSaga
  import opened OrderSagaInvariant
  import opened OrderSagaTheorems

  // ----- events of an execution -----

  type Happening = (System, Action) -> bool

  /** `h` happens at some action of the execution. */
  ghost predicate Ever(actions: seq<Action>, h: Happening) {
    exists i :: 0 <= i < |actions| && h(Exec(INIT, actions[..i]), actions[i])
  }

  lemma {:induction false} EverEarlier(actions: seq<Action>, last: Action, h: Happening)
    requires Ever(actions, h)
    ensures Ever(actions + [last], h)
  {
    var i :| 0 <= i < |actions| && h(Exec(INIT, actions[..i]), actions[i]);
    assert (actions + [last])[..i] == actions[..i] && (actions + [last])[i] == actions[i];
  }

  lemma {:induction false} EverLast(actions: seq<Action>, last: Action, h: Happening)
    requires h(Exec(INIT, actions), last)
    ensures Ever(actions + [last], h)
  {
    var k := |actions|;
    assert (actions + [last])[..k] == actions && (actions + [last])[k] == last;
  }

  lemma {:induction false} EverBefore(actions: seq<Action>, last: Action, h: Happening)
    requires Ever(actions + [last], h) && !h(Exec(INIT, actions), last)
    ensures Ever(actions, h)
  {
    var all, k := actions + [last], |actions|;
    var i :| 0 <= i < |all| && h(Exec(INIT, all[..i]), all[i]);
    assert all[..k] == actions && all[k] == last;
    assert all[..i] == actions[..i] && all[i] == actions[i];
  }

  /** The execution splits into its last action and what came before. */
  lemma {:induction false} EverStep(actions: seq<Action>, last: Action, h: Happening)
    ensures Ever(actions + [last], h) <==> Ever(actions, h) || h(Exec(INIT, actions), last)
  {
    if Ever(actions, h) {
      EverEarlier(actions, last, h);
    } else if h(Exec(INIT, actions), last) {
      EverLast(actions, last, h);
    } else if Ever(actions + [last], h) {
      EverBefore(actions, last, h);
    }
  }

  /** The statement that run `r` makes at `at` with choice `c` takes effect or fails by the
      tables alone: it is not stopped by a failure or by an empty id. */
  predicate GetsThrough(r: Run, c: Choice, at: Pc) {
    r.pc == at && !c.fault.Clean? && r.order != "" && (at.Assigning? ==> r.driver != "")
  }

  /** Run `id` steps, and `p` holds of it and of its choice. */
  function Steps(id: nat, p: (Run, Choice) -> bool): Happening {
    (s: System, a: Action) => a.Step? && a.id == id && id in s.runs && p(s.runs[id], a.choice)
  }

  function Through(at: Pc): (Run, Choice) -> bool { (r: Run, c: Choice) => GetsThrough(r, c, at) }

  /** Some attempt of run `id` at the statement `at` got through. */
  ghost predicate Sent(actions: seq<Action>, id: nat, at: Pc) {
    Ever(actions, Steps(id, Through(at)))
  }

  /** The fault of the first attempt of run `id` at `at` that got through. */
  ghost function First(actions: seq<Action>, id: nat, at: Pc): Option<Fault> {
    if actions == [] then None
    else
      var init, last := actions[..|actions| - 1], actions[|actions| - 1];
      if First(init, id, at).Some? then First(init, id, at)
      else if Steps(id, Through(at))(Exec(INIT, init), last) then Some(last.choice.fault)
      else None
  }

  function Later(first: Option<Fault>, r: Run, c: Choice, at: Pc): Option<Fault> {
    if first.Some? then first else if GetsThrough(r, c, at) then Some(c.fault) else None
  }

  lemma {:induction false} FirstStep(actions: seq<Action>, last: Action, id: nat, at: Pc)
    ensures var s := Exec(INIT, actions);
            First(actions + [last], id, at) ==
            if last.Step? && last.id == id && id in s.runs then Later(First(actions, id, at), s.runs[id], last.choice, at)
            else First(actions, id, at)
  {
    assert (actions + [last])[..|actions|] == actions;
  }

  lemma {:induction false} FirstIsSent(actions: seq<Action>, id: nat, at: Pc)
    ensures First(actions, id, at).Some? <==> Sent(actions, id, at)
    ensures First(actions, id, at) != Some(Clean)
  {
    if actions != [] {
      var k := |actions| - 1;
      FirstIsSent(actions[..k], id, at);
      assert actions == actions[..k] + [actions[k]];
      FirstStep(actions[..k], actions[k], id, at);
      EverStep(actions[..k], actions[k], Steps(id, Through(at)));
    }
  }

  // ----- one step -----

  predicate GivenBack(t: Tables, order: string) {
    order in t.payments && t.payments[order].refund.Some?
  }

  /** Only a client statement hides an effect, and only its own. */
  lemma {:induction false} ResumeHides(t: Tables, r: Run, c: Choice)
    ensures HidesOnly(r, Resume(t, r, c), r.pc)
  {
    var r' := Resume(t, r, c);
    match r.pc
    case Insert => assert r' == AfterInsert(t, r, c.fault);
    case Charging => assert r' == AfterCharge(t, r, c);
    case Assigning => assert r' == AfterAssign(t, r, c);
    case AssignLookup => assert r' == AfterAssignLookup(t, r, c);
    case Refunding => assert r' == AfterRefund(t, r, c);
    case RefundLookup => assert r' == Give(r, c.retry, Refunding, RefundBroken, RefundFailed);
    case _ =>
  }

  /** Only log and status writes are lost. */
  lemma {:induction false} ResumeLoses(t: Tables, r: Run, c: Choice)
    ensures r.pc.Log? || r.pc.Write? || NothingLost(r, Resume(t, r, c))
  {
  }

  /** A creating run's step puts the payment there exactly if a charge gets through. */
  lemma {:induction false} ChargeEffect(t: Tables, r: Run, c: Choice)
    requires Owns(t, r)
    ensures r.order in RunStep(t, r, c).0.payments <==> r.order in t.payments || GetsThrough(r, c, Charging)
  {
    assert r.pc.Charging? || Commit(t, r).payments.Keys == t.payments.Keys;
  }

  lemma {:induction false} ChargeFlag(t: Tables, r: Run, c: Choice)
    ensures RunStep(t, r, c).1.hidCharge <==>
            r.hidCharge || (GetsThrough(r, c, Charging) && c.fault.Ambiguous? && r.order !in t.payments)
  {
    if r.pc.Charging? {
      assert RunStep(t, r, c).1 == AfterCharge(t, r, c);
    } else {
      ResumeHides(t, r, c);
    }
  }

  lemma {:induction false} RefundEffect(t: Tables, r: Run, c: Choice)
    requires Owns(t, r)
    ensures GivenBack(RunStep(t, r, c).0, r.order) <==> GivenBack(t, r.order) || GetsThrough(r, c, Refunding)
  {
    assert r.pc.Refunding? || GivenBack(Commit(t, r), r.order) == GivenBack(t, r.order);
  }

  lemma {:induction false} RefundFlag(t: Tables, r: Run, c: Choice)
    requires r.pc.Refunding? ==> r.order in t.payments
    ensures RunStep(t, r, c).1.hidRefund <==>
            r.hidRefund || (GetsThrough(r, c, Refunding) && c.fault.Ambiguous? && !GivenBack(t, r.order))
  {
    if r.pc.Refunding? {
      assert RunStep(t, r, c).1 == AfterRefund(t, r, c);
    } else {
      ResumeHides(t, r, c);
    }
  }

  lemma {:induction false} AssignEffect(t: Tables, r: Run, c: Choice)
    requires Owns(t, r)
    ensures r.order in RunStep(t, r, c).0.assignments <==> r.order in t.assignments || GetsThrough(r, c, Assigning)
  {
    assert r.pc.Assigning? || Commit(t, r).assignments == t.assignments;
  }

  lemma {:induction false} AssignFlag(t: Tables, r: Run, c: Choice)
    requires r.order in t.sagas
    ensures RunStep(t, r, c).1.hidAssign <==>
            r.hidAssign || (GetsThrough(r, c, Assigning) && c.fault.Ambiguous? && r.order !in t.assignments)
  {
    if r.pc.Assigning? {
      assert RunStep(t, r, c).1 == AfterAssign(t, r, c);
    } else {
      ResumeHides(t, r, c);
    }
  }

  // ----- every step -----

  /** The rows and history flags of run `id`, against the first attempts that got through. */
  ghost predicate Effects(s: System, id: nat, charge: Option<Fault>, assign: Option<Fault>, refund: Option<Fault>) {
    if id in s.runs then
      var t, r := s.tables, s.runs[id];
      && (r.hidCharge <==> charge == Some(Ambiguous))
      && (r.hidAssign <==> assign == Some(Ambiguous))
      && (r.hidRefund <==> refund == Some(Ambiguous))
      && (charge.Some? <==> r.created && r.order in t.payments)
      && (assign.Some? <==> r.created && r.order in t.assignments)
      && (refund.Some? <==> r.created && GivenBack(t, r.order))
    else charge.None? && assign.None? && refund.None?
  }

  lemma {:induction false} OwnEffects(s: System, id: nat, c: Choice, charge: Option<Fault>, assign: Option<Fault>, refund: Option<Fault>)
    requires Inv(s) && id in s.runs && s.runs[id].created && Effects(s, id, charge, assign, refund)
    ensures var r := s.runs[id];
            Effects(Next(s, Step(id, c)), id, Later(charge, r, c, Charging), Later(assign, r, c, Assigning), Later(refund, r, c, Refunding))
  {
    assert Owns(s.tables, s.runs[id]);
    ChargeEffect(s.tables, s.runs[id], c);
    ChargeFlag(s.tables, s.runs[id], c);
    AssignEffect(s.tables, s.runs[id], c);
    AssignFlag(s.tables, s.runs[id], c);
    RefundEffect(s.tables, s.runs[id], c);
    RefundFlag(s.tables, s.runs[id], c);
    StepSelf(s, id, c);
  }

  /** A run that has created nothing sends no charge, assignment or refund. */
  lemma {:induction false} BystanderEffects(s: System, id: nat, c: Choice)
    requires Inv(s) && id in s.runs && !s.runs[id].created && Effects(s, id, None, None, None)
    ensures var r := s.runs[id]; !GetsThrough(r, c, Charging) && !GetsThrough(r, c, Assigning) && !GetsThrough(r, c, Refunding)
    ensures Effects(Next(s, Step(id, c)), id, None, None, None)
  {
    assert Bystander(s.tables, s.runs[id]);
    BystanderStep(s.tables, s.runs[id], c);
  }

  /** A step of another run leaves a creator's rows alone. */
  lemma {:induction false} OthersKeepRows(s: System, id: nat, other: nat, c: Choice)
    requires Inv(s) && id in s.runs && s.runs[id].created && other in s.runs && other != id
    ensures SameRows(s.tables, Next(s, Step(other, c)).tables, s.runs[id].order)
  {
    if s.runs[other].order == s.runs[id].order {
      StepSelf(s, other, c);
    } else {
      StepElsewhere(s, other, c);
    }
  }

  lemma {:induction false} OtherEffects(s: System, id: nat, a: Action, charge: Option<Fault>, assign: Option<Fault>, refund: Option<Fault>)
    requires Inv(s) && Effects(s, id, charge, assign, refund) && (a.Step? && id in s.runs ==> a.id != id)
    ensures Effects(Next(s, a), id, charge, assign, refund)
  {
    if a.Step? && a.id in s.runs && id in s.runs {
      assert Next(s, a).runs[id] == s.runs[id] && a == Step(a.id, a.choice);
      if s.runs[id].created { OthersKeepRows(s, id, a.id, a.choice); }
    }
  }

  lemma {:induction false} NextEffects(actions: seq<Action>, last: Action, id: nat)
    requires var s := Exec(INIT, actions);
             Inv(s) && Effects(s, id, First(actions, id, Charging), First(actions, id, Assigning), First(actions, id, Refunding))
    ensures var all := actions + [last];
            Effects(Exec(INIT, all), id, First(all, id, Charging), First(all, id, Assigning), First(all, id, Refunding))
  {
    var s := Exec(INIT, actions);
    var charge, assign, refund := First(actions, id, Charging), First(actions, id, Assigning), First(actions, id, Refunding);
    ExecLast(INIT, actions, last);
    FirstStep(actions, last, id, Charging);
    FirstStep(actions, last, id, Assigning);
    FirstStep(actions, last, id, Refunding);
    if last.Step? && last.id == id && id in s.runs {
      assert last == Step(id, last.choice);
      if s.runs[id].created {
        OwnEffects(s, id, last.choice, charge, assign, refund);
      } else {
        BystanderEffects(s, id, last.choice);
      }
    } else {
      OtherEffects(s, id, last, charge, assign, refund);
    }
  }

  lemma {:induction false} ExecEffects(actions: seq<Action>, id: nat)
    ensures Effects(Exec(INIT, actions), id, First(actions, id, Charging), First(actions, id, Assigning), First(actions, id, Refunding))
  {
    if actions != [] {
      var k := |actions| - 1;
      ExecEffects(actions[..k], id);
      Reachable(actions[..k]);
      assert actions == actions[..k] + [actions[k]];
      NextEffects(actions[..k], actions[k], id);
    }
  }

  // ----- lost writes -----

  const LOG_FAILS: (Run, Choice) -> bool := (r: Run, c: Choice) => r.pc.Log? && c.fault.Clean?

  const STATUS_FAILS: (Run, Choice) -> bool := (r: Run, c: Choice) => r.pc.Write? && c.fault.Clean?

  /** Some log write of run `id` failed. */
  ghost predicate LogLost(actions: seq<Action>, id: nat) { Ever(actions, Steps(id, LOG_FAILS)) }

  /** Its status write failed. */
  ghost predicate StatusLost(actions: seq<Action>, id: nat) { Ever(actions, Steps(id, STATUS_FAILS)) }

  /** The history flags of lost writes are those failures. */
  ghost predicate LossesNoted(s: System, id: nat, log: bool, status: bool) {
    if id in s.runs then (s.runs[id].lostLog <==> log) && (s.runs[id].lostStatus <==> status) else !log && !status
  }

  lemma {:induction false} StepLosses(t: Tables, r: Run, c: Choice)
    ensures var r' := RunStep(t, r, c).1;
            && (r'.lostLog <==> r.lostLog || (r.pc.Log? && c.fault.Clean?))
            && (r'.lostStatus <==> r.lostStatus || (r.pc.Write? && c.fault.Clean?))
  {
    ResumeLoses(t, r, c);
  }

  lemma {:induction false} NextLosses(s: System, a: Action, id: nat, log: bool, status: bool)
    requires LossesNoted(s, id, log, status)
    ensures LossesNoted(Next(s, a), id, log || Steps(id, LOG_FAILS)(s, a), status || Steps(id, STATUS_FAILS)(s, a))
  {
    if a.Step? && id in s.runs {
      StepLosses(s.tables, s.runs[id], a.choice);
    }
  }

  lemma {:induction false} ExecLosses(actions: seq<Action>, id: nat)
    ensures LossesNoted(Exec(INIT, actions), id, LogLost(actions, id), StatusLost(actions, id))
  {
    if actions != [] {
      var init, last := actions[..|actions| - 1], actions[|actions| - 1];
      ExecLosses(init, id);
      assert actions == init + [last];
      ExecLast(INIT, init, last);
      EverStep(init, last, Steps(id, LOG_FAILS));
      EverStep(init, last, Steps(id, STATUS_FAILS));
      NextLosses(Exec(INIT, init), last, id, LogLost(init, id), StatusLost(init, id));
    }
  }

  // ----- theorems: rows, answers, statuses -----

  /** The rows of an order follow from the faults its creating run met: the payment is there
      exactly if some charge attempt got through, it is refunded (in full) exactly if some
      refund attempt did, and the driver is assigned exactly if some INSERT of it did. */
  lemma {:induction false} RowsFollowFaults(actions: seq<Action>, id: nat)
    requires id in Exec(INIT, actions).runs && Exec(INIT, actions).runs[id].created
    ensures var s := Exec(INIT, actions); var t := s.tables; var r := s.runs[id]; var o := r.order;
            && (o in t.payments <==> Sent(actions, id, Charging))
            && (o in t.payments ==> t.payments[o] == Payment(r.req.amount, if Sent(actions, id, Refunding) then Some(r.req.amount) else None))
            && (o in t.assignments <==> Sent(actions, id, Assigning))
            && (o in t.assignments ==> t.assignments[o] == r.driver)
            && (Sent(actions, id, Refunding) ==> Sent(actions, id, Charging))
  {
    Reachable(actions);
    ExecEffects(actions, id);
    FirstIsSent(actions, id, Charging);
    FirstIsSent(actions, id, Assigning);
    FirstIsSent(actions, id, Refunding);
    assert Owns(Exec(INIT, actions).tables, Exec(INIT, actions).runs[id]);
  }

  /** What the first attempts that got through say about the answer: the charge was reported
      exactly if the first one was, and so was the refund. */
  ghost predicate AnswerFits(charge: Option<Fault>, assign: Option<Fault>, refund: Option<Fault>, err: Option<Error>) {
    && (err == Some(ChargeFailed) <==> charge != Some(Okay))
    && (err == Some(AssignFailed) <==> refund == Some(Okay))
    && (err == None ==> assign.Some?)
    && (err == Some(ChargeFailed) ==> assign.None?)
    && (err == Some(ChargeFailed) || err == None ==> refund.None?)
  }

  lemma {:induction false} OwnAnswer(t: Tables, r: Run)
    requires Owns(t, r) && r.pc.Done? && Final(r.pc.response.err)
    ensures var err := r.pc.response.err; var o := r.order;
            && (err == Some(ChargeFailed) <==> r.hidCharge || o !in t.payments)
            && (err == Some(AssignFailed) <==> GivenBack(t, o) && !r.hidRefund)
            && (err == None ==> o in t.assignments)
            && (err == Some(ChargeFailed) ==> o !in t.assignments)
            && (err == Some(ChargeFailed) || err == None ==> !GivenBack(t, o))
  {
  }

  lemma {:induction false} EffectsAnswer(s: System, id: nat, charge: Option<Fault>, assign: Option<Fault>, refund: Option<Fault>)
    requires Effects(s, id, charge, assign, refund) && charge != Some(Clean) && refund != Some(Clean)
    requires id in s.runs && Owns(s.tables, s.runs[id]) && s.runs[id].pc.Done? && Final(s.runs[id].pc.response.err)
    ensures AnswerFits(charge, assign, refund, s.runs[id].pc.response.err)
  {
    OwnAnswer(s.tables, s.runs[id]);
    assert charge.None? || charge.value.Okay? || charge.value.Ambiguous?;
    assert refund.None? || refund.value.Okay? || refund.value.Ambiguous?;
  }

  lemma {:induction false} AnswerFollowsFaults(actions: seq<Action>, id: nat)
    requires var s := Exec(INIT, actions);
             id in s.runs && s.runs[id].created && s.runs[id].pc.Done? && Final(s.runs[id].pc.response.err)
    ensures AnswerFits(First(actions, id, Charging), First(actions, id, Assigning), First(actions, id, Refunding),
                       Exec(INIT, actions).runs[id].pc.response.err)
  {
    Reachable(actions);
    ExecEffects(actions, id);
    FirstIsSent(actions, id, Charging);
    FirstIsSent(actions, id, Refunding);
    EffectsAnswer(Exec(INIT, actions), id, First(actions, id, Charging), First(actions, id, Assigning), First(actions, id, Refunding));
  }

  /** The status of an order is that of its creating run's answer, unless that write failed. */
  lemma {:induction false} StatusFollowsAnswer(actions: seq<Action>, id: nat)
    requires id in Exec(INIT, actions).runs && Exec(INIT, actions).runs[id].created
    ensures var s := Exec(INIT, actions); var r := s.runs[id];
            && r.order in s.tables.sagas && r.order in s.creator && s.creator[r.order] == id
            && s.tables.sagas[r.order].amount == r.req.amount
            && s.tables.sagas[r.order].status ==
               if r.pc.Done? && !StatusLost(actions, id) then FinalStatus(r.pc.response.err) else Started
  {
    Reachable(actions);
    ExecLosses(actions, id);
    assert Owns(Exec(INIT, actions).tables, Exec(INIT, actions).runs[id]);
  }

  /** What a status tells, under any failures, from the first attempts that got through. */
  ghost predicate StatusFits(status: Status, charge: Option<Fault>, assign: Option<Fault>, refund: Option<Fault>) {
    match status
    case Started => true
    case Succeeded => charge == Some(Okay) && assign.Some? && refund.None?
    case Refunded => charge == Some(Okay) && refund == Some(Okay)
    case Failed => if charge == Some(Okay) then refund != Some(Okay) else assign.None? && refund.None?
  }

  /** With `RowsFollowFaults`: `succeeded` and `refunded` can be trusted under any failures.
      `failed` means an unreported charge or an unreported refund; the order is then charged
      exactly if a charge attempt got through, refunded exactly if a refund attempt did, and
      has a driver exactly if an assignment did. */
  lemma {:induction false} StatusMeans(actions: seq<Action>, order: string)
    requires order in Exec(INIT, actions).tables.sagas
    ensures var s := Exec(INIT, actions); var t := s.tables; var row := t.sagas[order];
            && order in s.creator && s.creator[order] in s.runs
            && var id := s.creator[order];
            && StatusFits(row.status, First(actions, id, Charging), First(actions, id, Assigning), First(actions, id, Refunding))
            && (order in t.payments <==> Sent(actions, id, Charging))
            && (order in t.payments ==> t.payments[order] == Payment(row.amount, if Sent(actions, id, Refunding) then Some(row.amount) else None))
            && (order in t.assignments <==> Sent(actions, id, Assigning))
            && (order in t.assignments ==> t.assignments[order] == s.runs[id].driver)
  {
    Reachable(actions);
    var s := Exec(INIT, actions);
    var id := s.creator[order];
    RowsFollowFaults(actions, id);
    StatusFollowsAnswer(actions, id);
    if s.tables.sagas[order].status != Started {
      AnswerFollowsFaults(actions, id);
    }
  }

  /** Compensation: once a run whose assignment failed has answered, its charge is refunded,
      in full, exactly if some refund attempt got through. */
  lemma {:induction false} CompensatedExactly(actions: seq<Action>, id: nat)
    requires var s := Exec(INIT, actions);
             && id in s.runs && s.runs[id].pc.Done?
             && s.runs[id].pc.response.err in {Some(AssignFailed), Some(RefundFailed)}
    ensures var s := Exec(INIT, actions); var r := s.runs[id];
            && r.created && r.order in s.tables.payments && s.tables.payments[r.order].amount == r.req.amount
            && (s.tables.payments[r.order].refund == Some(r.req.amount) <==> Sent(actions, id, Refunding))
  {
    Reachable(actions);
    var s := Exec(INIT, actions);
    assert s.runs[id].created || Bystander(s.tables, s.runs[id]);
    RowsFollowFaults(actions, id);
    AnswerFollowsFaults(actions, id);
    FirstIsSent(actions, id, Charging);
  }

  // ----- clean failures -----

  /** No statement of the execution fails ambiguously. */
  ghost predicate NoAmbiguity(actions: seq<Action>) {
    forall a :: a in actions && a.Step? ==> !a.choice.fault.Ambiguous?
  }

  lemma {:induction false} CleanFirst(actions: seq<Action>, id: nat, at: Pc)
    requires NoAmbiguity(actions)
    ensures First(actions, id, at) != Some(Ambiguous)
  {
    if actions != [] {
      var init, last := actions[..|actions| - 1], actions[|actions| - 1];
      assert last in actions && forall a :: a in init ==> a in actions;
      CleanFirst(init, id, at);
      assert actions == init + [last];
      FirstStep(init, last, id, at);
    }
  }

  /** No statement of run `id` took effect at an attempt that reported an error. */
  ghost predicate Unhidden(actions: seq<Action>, id: nat) {
    && First(actions, id, Charging) != Some(Ambiguous)
    && First(actions, id, Assigning) != Some(Ambiguous)
    && First(actions, id, Refunding) != Some(Ambiguous)
  }

  lemma {:induction false} CleanUnhidden(actions: seq<Action>, id: nat)
    requires NoAmbiguity(actions)
    ensures Unhidden(actions, id)
  {
    CleanFirst(actions, id, Charging);
    CleanFirst(actions, id, Assigning);
    CleanFirst(actions, id, Refunding);
  }

  lemma {:induction false} UnhiddenRun(actions: seq<Action>, id: nat)
    requires id in Exec(INIT, actions).runs && Unhidden(actions, id)
    ensures Exec(INIT, actions).runs[id].NothingHidden()
  {
    ExecEffects(actions, id);
  }

  /** When failures are clean, `refunded` and `failed` exclude an assignment, and `failed`
      leaves no payment or one that was not refunded. */
  lemma {:induction false} CleanStatusMeans(actions: seq<Action>, order: string)
    requires NoAmbiguity(actions) && order in Exec(INIT, actions).tables.sagas
    ensures var t := Exec(INIT, actions).tables; var row := t.sagas[order];
            && (row.status.Succeeded? ==>
                  && order in t.payments && t.payments[order] == Payment(row.amount, None) && order in t.assignments)
            && (row.status.Refunded? ==>
                  && order in t.payments && t.payments[order] == Payment(row.amount, Some(row.amount)) && order !in t.assignments)
            && (row.status.Failed? ==>
                  order !in t.assignments && (order in t.payments ==> t.payments[order] == Payment(row.amount, None)))
  {
    Reachable(actions);
    var s := Exec(INIT, actions);
    var id := s.creator[order];
    CleanUnhidden(actions, id);
    UnhiddenRun(actions, id);
    OwnCleanStatus(s.tables, s.runs[id]);
  }

  lemma {:induction false} OwnCleanStatus(t: Tables, r: Run)
    requires Owns(t, r) && r.NothingHidden()
    ensures var row := t.sagas[r.order]; var o := r.order;
            && (row.status.Succeeded? ==> o in t.payments && t.payments[o] == Payment(row.amount, None) && o in t.assignments)
            && (row.status.Refunded? ==>
                  o in t.payments && t.payments[o] == Payment(row.amount, Some(row.amount)) && o !in t.assignments)
            && (row.status.Failed? ==>
                  o !in t.assignments && (o in t.payments ==> t.payments[o] == Payment(row.amount, None)))
  {
    assert r.pc.Done? || t.sagas[r.order].status == Started;
  }

  // ----- runs that do what one might not expect -----

  /** Step `id` once more, with choice `c`. */
  lemma {:induction false} Go(actions: seq<Action>, id: nat, c: Choice) returns (more: seq<Action>)
    requires id in Exec(INIT, actions).runs
    ensures var s, s' := Exec(INIT, actions), Exec(INIT, more);
            && id in s'.runs && (s'.tables, s'.runs[id]) == RunStep(s.tables, s.runs[id], c)
  {
    more := actions + [Step(id, c)];
    ExecLast(INIT, actions, Step(id, c));
  }

  /** Write the log entry that run `id` stands at. */
  lemma {:induction false} GoLog(actions: seq<Action>, id: nat) returns (more: seq<Action>)
    requires id in Exec(INIT, actions).runs && Exec(INIT, actions).runs[id].pc.Log?
    ensures id in Exec(INIT, more).runs
    ensures var r := Exec(INIT, actions).runs[id]; Exec(INIT, more).runs[id] == r.(pc := AfterLog(r.pc.entry))
    ensures Exec(INIT, more).tables.payments == Exec(INIT, actions).tables.payments
  {
    more := Go(actions, id, OKAY);
  }

  /** Run 0 has created its order for `req` and stands at `pc`. */
  ghost predicate Reaches(actions: seq<Action>, req: Request, order: string, driver: string, pc: Pc) {
    var s := Exec(INIT, actions);
    && 0 in s.runs && SamePlan(NewRun(req, order, driver), s.runs[0]) && s.runs[0].created
    && !s.runs[0].lostStatus && s.runs[0].pc == pc
  }

  /** A run that is about to charge. */
  lemma {:induction false} ToCharging(req: Request, order: string, driver: string) returns (a: seq<Action>)
    requires req.key != ""
    ensures Reaches(a, req, order, driver, Charging) && order !in Exec(INIT, a).tables.payments
  {
    var begin := Begin(0, req, order, driver);
    ExecLast(INIT, [], begin);
    a := Go([] + [begin], 0, OKAY);
    a := Go(a, 0, OKAY);
    a := GoLog(a, 0);
  }

  /** A charge that takes effect unreported, and its retry. */
  lemma {:induction false} ChargeTwice(t: Tables, r: Run)
    requires r.pc.Charging? && r.order != "" && r.order !in t.payments
    ensures var (t1, r1) := RunStep(t, r, Choice(Ambiguous, true));
            var (t2, r2) := RunStep(t1, r1, OKAY);
            && r2 == r.(pc := Log(ChargeBroken), err := Some(ChargeFailed), hidCharge := true)
            && t2.payments == t.payments[r.order := Payment(r.req.amount, None)]
  {
  }

  lemma {:induction false} GoWrite(actions: seq<Action>, status: Status) returns (more: seq<Action>)
    requires 0 in Exec(INIT, actions).runs && Exec(INIT, actions).runs[0].pc == Write(status) && Exec(INIT, actions).runs[0].created
    ensures var s := Exec(INIT, actions); var s' := Exec(INIT, more); var order := s.runs[0].order;
            && 0 in s'.runs && s'.runs[0].req == s.runs[0].req && s'.runs[0].order == order
            && order in s'.tables.sagas && s'.tables.sagas[order].status == status
            && s'.tables.payments == s.tables.payments
            && s'.runs[0].pc == Done(Response(if s.runs[0].err.None? then order else "", s.runs[0].err))
  {
    Reachable(actions);
    assert Owns(Exec(INIT, actions).tables, Exec(INIT, actions).runs[0]);
    more := Go(actions, 0, OKAY);
  }

  /** `failed` does not mean uncharged: a charge takes effect but reports an error, its
      retry is refused as already charged, and the order ends `failed` with its payment. */
  lemma {:induction false} FailedYetCharged(req: Request, order: string, driver: string) returns (actions: seq<Action>)
    requires req.key != "" && order != ""
    ensures var t := Exec(INIT, actions).tables;
            && order in t.sagas && t.sagas[order].status == Failed
            && order in t.payments && t.payments[order] == Payment(req.amount, None)
  {
    var a := ToCharging(req, order, driver);
    ChargeTwice(Exec(INIT, a).tables, Exec(INIT, a).runs[0]);
    a := Go(a, 0, Choice(Ambiguous, true));
    a := Go(a, 0, OKAY);
    a := GoLog(a, 0);
    actions := GoWrite(a, Failed);
  }

  const STOPPED := Choice(Clean, false)

  lemma {:induction false} ChargePasses(t: Tables, r: Run)
    requires r.pc.Charging? && r.order != "" && r.order !in t.payments
    ensures RunStep(t, r, OKAY).1 == r.(pc := Log(ChargePassed))
    ensures RunStep(t, r, OKAY).0.payments == t.payments[r.order := Payment(r.req.amount, None)]
  {
  }

  lemma {:induction false} ClientStops(t: Tables, r: Run)
    requires r.pc.Assigning? || r.pc.Refunding?
    ensures var (t', r') := RunStep(t, r, STOPPED);
            && t'.payments == t.payments
            && r' == if r.pc.Assigning? then r.(pc := Log(AssignBroken), err := Some(AssignFailed))
                     else r.(pc := Log(RefundBroken), err := Some(RefundFailed))
  {
  }

  /** A run that has charged and is about to assign. */
  lemma {:induction false} ToAssigning(req: Request, order: string, driver: string) returns (a: seq<Action>)
    requires req.key != "" && order != ""
    ensures Reaches(a, req, order, driver, Assigning)
    ensures order in Exec(INIT, a).tables.payments && Exec(INIT, a).tables.payments[order] == Payment(req.amount, None)
  {
    a := ToCharging(req, order, driver);
    ChargePasses(Exec(INIT, a).tables, Exec(INIT, a).runs[0]);
    a := Go(a, 0, OKAY);
    a := GoLog(a, 0);
    a := GoLog(a, 0);
  }

  /** A run whose assignment was stopped, and that is about to refund. */
  lemma {:induction false} ToRefunding(req: Request, order: string, driver: string) returns (a: seq<Action>)
    requires req.key != "" && order != ""
    ensures Reaches(a, req, order, driver, Refunding)
    ensures order in Exec(INIT, a).tables.payments && Exec(INIT, a).tables.payments[order] == Payment(req.amount, None)
  {
    a := ToAssigning(req, order, driver);
    ClientStops(Exec(INIT, a).tables, Exec(INIT, a).runs[0]);
    a := Go(a, 0, STOPPED);
    a := GoLog(a, 0);
    a := GoLog(a, 0);
  }

  /** A failed assignment need not be compensated: the assignment is stopped, and so is the
      refund, as when the context has ended or the breaker is open. */
  lemma {:induction false} NotCompensated(req: Request, order: string, driver: string) returns (actions: seq<Action>)
    requires req.key != "" && order != ""
    ensures var s := Exec(INIT, actions);
            && 0 in s.runs && s.runs[0].req == req && s.runs[0].order == order
            && s.runs[0].pc == Done(Response("", Some(RefundFailed)))
            && order in s.tables.sagas && s.tables.sagas[order].status == Failed
            && order in s.tables.payments && s.tables.payments[order] == Payment(req.amount, None)
  {
    var a := ToRefunding(req, order, driver);
    ClientStops(Exec(INIT, a).tables, Exec(INIT, a).runs[0]);
    a := Go(a, 0, STOPPED);
    a := GoLog(a, 0);
    actions := GoWrite(a, Failed);
  }
}
