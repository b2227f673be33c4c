/** What every interleaving of `CreateOrder` runs guarantees. Each theorem is about
    `Exec(INIT, actions)` for an arbitrary list of actions; unless it says otherwise it
    holds under ambiguous failures. */
module OrderSagaTheorems {
  import opened Common
  import opened OrderTables
  import opened OrderSaga
  import opened OrderSagaInvariant

  // ----- every reachable state -----

  lemma {:induction false} ExecInv(s: System, actions: seq<Action>)
    requires Inv(s)
    ensures Inv(Exec(s, actions)) && RowsGrow(s.tables, Exec(s, actions).tables)
    decreases |actions|
  {
    if actions != [] {
      NextInv(s, actions[0]);
      ExecInv(Next(s, actions[0]), actions[1..]);
    }
  }

  lemma {:induction false} Reachable(actions: seq<Action>)
    ensures Inv(Exec(INIT, actions))
  {
    assert Inv(INIT);
    ExecInv(INIT, actions);
  }

  lemma {:induction false} ExecAppend(s: System, first: seq<Action>, more: seq<Action>)
    ensures Exec(s, first + more) == Exec(Exec(s, first), more)
    decreases |first|
  {
    if first == [] {
      assert first + more == more;
    } else {
      assert (first + more)[0] == first[0] && (first + more)[1..] == first[1..] + more;
      ExecAppend(Next(s, first[0]), first[1..], more);
    }
  }

  /** Saga rows are stable: across any further actions, no row or key disappears, key,
      user and amount never change, and the status leaves `Started` at most once. */
  lemma {:induction false} RowsAreStable(past: seq<Action>, future: seq<Action>)
    ensures RowsGrow(Exec(INIT, past).tables, Exec(INIT, past + future).tables)
  {
    Reachable(past);
    ExecAppend(INIT, past, future);
    ExecInv(Exec(INIT, past), future);
  }

  // ----- one order, and one answer, for each idempotency key -----

  /** Two orders, or two creating runs, with the same key are the same. */
  lemma {:induction false} OneOrderPerKey(actions: seq<Action>)
    ensures var t := Exec(INIT, actions).tables;
            forall o, p :: o in t.sagas && p in t.sagas && t.sagas[o].key == t.sagas[p].key ==> o == p
    ensures var runs := Exec(INIT, actions).runs;
            forall i, j :: i in runs && j in runs && runs[i].created && runs[j].created && runs[i].req.key == runs[j].req.key ==> i == j
  {
    Reachable(actions);
    var s := Exec(INIT, actions);
    forall i, j | i in s.runs && j in s.runs && s.runs[i].created && s.runs[j].created && s.runs[i].req.key == s.runs[j].req.key
      ensures i == j
    {
      assert Owns(s.tables, s.runs[i]) && Owns(s.tables, s.runs[j]);
    }
  }

  /** Run `id` has answered with an order and no error. */
  ghost predicate Succeeds(s: System, id: nat) {
    id in s.runs && s.runs[id].pc.Done? && s.runs[id].pc.response.err == None
  }

  /** `order` is recorded for `req`, charged in full, not refunded, and has the driver
      that its creating run chose. */
  ghost predicate Fulfilled(s: System, order: string, req: Request) {
    && order in s.tables.sagas && order in s.tables.payments && order in s.tables.assignments
    && s.tables.sagas[order].key == req.key
    && s.tables.sagas[order].user == req.user && s.tables.sagas[order].amount == req.amount
    && s.tables.payments[order] == Payment(req.amount, None)
    && order in s.creator && s.creator[order] in s.runs
    && s.tables.assignments[order] == s.runs[s.creator[order]].driver
  }

  lemma {:induction false} OwnFulfilled(s: System, id: nat)
    requires Inv(s) && Succeeds(s, id) && s.runs[id].created
    ensures Fulfilled(s, s.runs[id].pc.response.order, s.runs[id].req)
  {
    assert Owns(s.tables, s.runs[id]);
  }

  /** An order in status `succeeded` is fulfilled. */
  lemma {:induction false} SucceededFulfilled(s: System, order: string, req: Request)
    requires Inv(s) && order in s.tables.sagas && s.tables.sagas[order] == SagaRow(req.key, req.user, req.amount, Succeeded)
    ensures Fulfilled(s, order, req)
  {
    var r := s.runs[s.creator[order]];
    assert Owns(s.tables, r);
    assert r.pc.Done? && r.pc.response.err == None;
  }

  /** What a successful answer promises, to the creator and to every replay, even when
      the status write was lost. */
  lemma {:induction false} SuccessMeansFulfilled(actions: seq<Action>, id: nat)
    requires Succeeds(Exec(INIT, actions), id)
    ensures var s := Exec(INIT, actions); Fulfilled(s, s.runs[id].pc.response.order, s.runs[id].req)
  {
    Reachable(actions);
    var s := Exec(INIT, actions);
    if s.runs[id].created {
      OwnFulfilled(s, id);
    } else {
      assert Bystander(s.tables, s.runs[id]);
      SucceededFulfilled(s, s.runs[id].pc.response.order, s.runs[id].req);
    }
  }

  /** All successful answers to one key name one order, for one user and one amount. */
  lemma {:induction false} AnswersAgree(actions: seq<Action>, i: nat, j: nat)
    requires var s := Exec(INIT, actions);
             Succeeds(s, i) && Succeeds(s, j) && s.runs[i].req.key == s.runs[j].req.key
    ensures var runs := Exec(INIT, actions).runs;
            runs[i].pc.response == runs[j].pc.response && runs[i].req == runs[j].req
  {
    SuccessMeansFulfilled(actions, i);
    SuccessMeansFulfilled(actions, j);
    OneOrderPerKey(actions);
  }

  // ----- refusals -----

  /** A request without an idempotency key is refused, and so does nothing. */
  lemma {:induction false} EmptyKeyRefused(actions: seq<Action>, id: nat)
    requires id in Exec(INIT, actions).runs && Exec(INIT, actions).runs[id].req.key == ""
    ensures var r := Exec(INIT, actions).runs[id]; !r.created && r.pc == Done(Response("", Some(KeyRequired)))
  {
    Reachable(actions);
    var s := Exec(INIT, actions);
    assert if s.runs[id].created then Owns(s.tables, s.runs[id]) else Bystander(s.tables, s.runs[id]);
  }

  /** The INSERT of a start fails, without an order id, exactly if it reports an error or its
      key is fresh and its order id taken; otherwise the run creates the order or goes on to
      look it up, by whether its key is taken. */
  lemma {:induction false} InsertAnswers(actions: seq<Action>, id: nat, c: Choice)
    requires id in Exec(INIT, actions).runs && Exec(INIT, actions).runs[id].pc.Insert?
    ensures var s := Exec(INIT, actions); var s' := Next(s, Step(id, c));
            var r := s.runs[id]; var taken := r.req.key in s.tables.keyIndex;
            && id in s'.runs
            && s'.runs[id].pc == (if !c.fault.Okay? || (!taken && r.order in s.tables.sagas)
                                  then Done(Response("", Some(StartFailed))) else Lookup(!taken))
            && (s'.runs[id].created <==> !c.fault.Clean? && !taken && r.order !in s.tables.sagas)
  {
    Reachable(actions);
    var s := Exec(INIT, actions);
    assert if s.runs[id].created then Owns(s.tables, s.runs[id]) else Bystander(s.tables, s.runs[id]);
    assert RunStep(s.tables, s.runs[id], c).1 == AfterInsert(s.tables, s.runs[id], c.fault);
  }

  /** And a look-up that reports an error ends the run with it, whatever was inserted. */
  lemma {:induction false} LookupFails(actions: seq<Action>, id: nat, c: Choice)
    requires id in Exec(INIT, actions).runs && Exec(INIT, actions).runs[id].pc.Lookup? && !c.fault.Okay?
    ensures var s := Exec(INIT, actions); var s' := Next(s, Step(id, c));
            s'.tables == s.tables && id in s'.runs && s'.runs[id].pc == Done(Response("", Some(StartFailed)))
  {
  }

  // ----- replays -----

  /** A run that does not create an order never changes a table or moves money. */
  lemma {:induction false} OnlyCreatorsWrite(actions: seq<Action>, id: nat, c: Choice)
    requires id in Exec(INIT, actions).runs
    ensures var s := Exec(INIT, actions); var s' := Next(s, Step(id, c));
            !s'.runs[id].created ==> s'.tables == s.tables && s'.ledger == s.ledger && s'.orders == s.orders
  {
    Reachable(actions);
    StepSelf(Exec(INIT, actions), id, c);
  }

  /** Steps of other runs do not move a run. */
  lemma {:induction false} ExecOthers(s: System, id: nat, actions: seq<Action>)
    requires id in s.runs && forall a :: a in actions && a.Step? ==> a.id != id
    ensures id in Exec(s, actions).runs && Exec(s, actions).runs[id] == s.runs[id]
    decreases |actions|
  {
    if actions != [] {
      assert actions[0] in actions;
      ExecOthers(Next(s, actions[0]), id, actions[1..]);
    }
  }

  /** A finished run stays as it is. */
  lemma {:induction false} DoneStays(s: System, id: nat, actions: seq<Action>)
    requires id in s.runs && s.runs[id].pc.Done?
    ensures id in Exec(s, actions).runs && Exec(s, actions).runs[id] == s.runs[id]
    decreases |actions|
  {
    if actions != [] {
      DoneStays(Next(s, actions[0]), id, actions[1..]);
    }
  }

  const OKAY := Choice(Okay, false)

  /** What a replay of `won`'s key with request `req` is answered. */
  function ReplayAnswer(won: Run, req: Request): Response
    requires won.pc.Done?
  {
    if req != won.req then Response("", Some(Conflict))
    else if !won.lostStatus then won.pc.response
    else Response(won.pc.response.order, Some(AlreadyProcessed(Started)))
  }

  /** What a replay meets in the tables of an order that succeeded. */
  ghost predicate Replays(t: Tables, won: Run, r: Run) {
    && Owns(t, won) && won.pc.Done? && won.pc.response.err == None && Indexed(t)
    && r.req.key == won.req.key && !r.created
  }

  lemma {:induction false} InsertAgain(t: Tables, won: Run, r: Run)
    requires Replays(t, won, r) && r.pc.Insert?
    ensures RunStep(t, r, OKAY) == (t, r.(created := false, pc := Lookup(false)))
  {
    assert r.req.key in t.keyIndex;
  }

  lemma {:induction false} LookupAgain(t: Tables, won: Run, r: Run)
    requires Replays(t, won, r) && r.pc == Lookup(false)
    ensures RunStep(t, r, OKAY) == (t, r.(pc := Done(ReplayAnswer(won, r.req))))
  {
    assert SelectSaga(t, r.req.key) == Some((won.order, t.sagas[won.order]));
    assert t.sagas[won.order].status == if won.lostStatus then Started else Succeeded;
  }

  lemma {:induction false} ReplayInsert(s: System, c: nat, id: nat)
    requires Inv(s) && Succeeds(s, c) && s.runs[c].created
    requires id in s.runs && s.runs[id].pc.Insert? && s.runs[id].req.key == s.runs[c].req.key
    ensures var s' := Next(s, Step(id, OKAY));
            && s'.tables == s.tables && s'.runs == s.runs[id := s.runs[id].(created := false, pc := Lookup(false))]
  {
    assert Owns(s.tables, s.runs[c]);
    assert !s.runs[id].created by { assert s.runs[id].created ==> Owns(s.tables, s.runs[id]); }
    InsertAgain(s.tables, s.runs[c], s.runs[id]);
  }

  lemma {:induction false} ReplayLookup(s: System, c: nat, id: nat)
    requires Inv(s) && Succeeds(s, c) && s.runs[c].created
    requires id in s.runs && s.runs[id].pc == Lookup(false) && s.runs[id].req.key == s.runs[c].req.key
    ensures var s' := Next(s, Step(id, OKAY));
            && s'.tables == s.tables && id in s'.runs && s'.runs[id].created == s.runs[id].created
            && s'.runs[id].pc == Done(ReplayAnswer(s.runs[c], s.runs[id].req))
  {
    assert Owns(s.tables, s.runs[c]);
    assert !s.runs[id].created by { assert s.runs[id].created ==> Owns(s.tables, s.runs[id]); }
    LookupAgain(s.tables, s.runs[c], s.runs[id]);
  }

  /** Once run `c` has created an order and succeeded, run `id` with the same key,
      interleaved with any other runs, creates and charges nothing. With the same
      payload it answers the same order, as a success exactly when `c`'s status write
      was not lost; with another payload it answers the conflict. */
  lemma {:induction false} ReplayAnswers(past: seq<Action>, c: nat, id: nat, between: seq<Action>)
    requires var s := Exec(INIT, past);
             && Succeeds(s, c) && s.runs[c].created
             && id in s.runs && s.runs[id].pc.Insert? && s.runs[id].req.key == s.runs[c].req.key
    requires forall a :: a in between && a.Step? ==> a.id != id
    ensures var s0 := Exec(INIT, past);
            var s1 := Next(s0, Step(id, OKAY));
            var s2 := Exec(s1, between);
            var s3 := Next(s2, Step(id, OKAY));
            && s1.tables == s0.tables && s3.tables == s2.tables
            && id in s3.runs && !s3.runs[id].created
            && s3.runs[id].pc == Done(ReplayAnswer(s0.runs[c], s0.runs[id].req))
  {
    Reachable(past);
    var s0 := Exec(INIT, past);
    ReplayInsert(s0, c, id);
    var s1 := Next(s0, Step(id, OKAY));
    NextInv(s0, Step(id, OKAY));
    ExecOthers(s1, id, between);
    ExecInv(s1, between);
    DoneStays(s1, c, between);
    ReplayLookup(Exec(s1, between), c, id);
  }

  /** Whatever has become of an order, a run that reaches the lookup without having created
      it finds that order's row, changes nothing, and is told of a conflict exactly when its
      payload differs. */
  lemma {:induction false} LookupAnswers(actions: seq<Action>, id: nat)
    requires id in Exec(INIT, actions).runs && Exec(INIT, actions).runs[id].pc == Lookup(false)
    ensures var s := Exec(INIT, actions); var s' := Next(s, Step(id, OKAY));
            var r := s.runs[id]; var t := s.tables;
            && s'.tables == t && s'.ledger == s.ledger
            && r.req.key in t.keyIndex && t.keyIndex[r.req.key] in t.sagas && id in s'.runs
            && var order := t.keyIndex[r.req.key]; var row := t.sagas[order];
            && row.key == r.req.key && s'.runs[id].pc.Done?
            && (s'.runs[id].pc.response == Response("", Some(Conflict)) <==> row.user != r.req.user || row.amount != r.req.amount)
            && (row.user == r.req.user && row.amount == r.req.amount ==>
                  s'.runs[id].pc.response == Response(order, if row.status == Succeeded then None else Some(AlreadyProcessed(row.status))))
  {
    Reachable(actions);
    var s := Exec(INIT, actions);
    assert s.runs[id].created ==> Owns(s.tables, s.runs[id]);
    assert Bystander(s.tables, s.runs[id]);
    OnlyCreatorsWrite(actions, id, OKAY);
  }

  // ----- building runs -----

  lemma {:induction false} ExecLast(s: System, earlier: seq<Action>, last: Action)
    ensures Exec(s, earlier + [last]) == Next(Exec(s, earlier), last)
  {
    ExecAppend(s, earlier, [last]);
    assert [last][1..] == [];
  }
}
