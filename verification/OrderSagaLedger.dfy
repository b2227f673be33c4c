/** Money over whole runs: every movement ever committed, against the tables. */
module OrderSagaLedger {
  import opened Common
  import opened OrderTables
  import opened OrderSaga
  import opened OrderSagaInvariant
  import opened OrderSagaTheorems
  import opened OrderSagaFaults

  // ----- the ledger of one order -----

  function Statement(ledger: seq<Movement>, order: string): seq<Movement> {
    if ledger == [] then []
    else
      var last := ledger[|ledger| - 1];
      Statement(ledger[..|ledger| - 1], order) + if last.order == order then [last] else []
  }

  lemma {:induction false} StatementAppend(ledger: seq<Movement>, more: seq<Movement>, order: string)
    requires |more| <= 1
    ensures Statement(ledger + more, order) == Statement(ledger, order) + (if more != [] && more[0].order == order then more else [])
  {
    if more == [] {
      assert ledger + more == ledger;
    } else {
      assert (ledger + more)[..|ledger|] == ledger && more == [more[0]];
    }
  }

  /** The movements behind a payment row. */
  function Movements(t: Tables, order: string): seq<Movement> {
    if order !in t.payments then []
    else if t.payments[order].refund.None? then [Charged(order, t.payments[order].amount)]
    else [Charged(order, t.payments[order].amount), Returned(order, t.payments[order].refund.value)]
  }

  lemma {:induction false} ChargeMoves(t: Tables, order: string, amount: real)
    ensures var t' := InsertPayment(t, order, amount).0;
            Movements(t', order) == Movements(t, order) + Moved(t, t', order)
  {
  }

  lemma {:induction false} RefundMoves(t: Tables, order: string, amount: real)
    ensures var t' := UpdateRefund(t, order, amount).0;
            Movements(t', order) == Movements(t, order) + Moved(t, t', order)
  {
  }

  /** How one statement changes the payment of its order. */
  lemma {:induction false} CommitPayment(t: Tables, r: Run, c: Choice)
    ensures var t' := RunStep(t, r, c).0; var o := r.order;
            Movements(t', o) == Movements(t, o) + Moved(t, t', o) && |Moved(t, t', o)| <= 1
            && (forall m :: m in Moved(t, t', o) ==> m.order == o)
  {
    if r.pc.Charging? {
      ChargeMoves(t, r.order, r.req.amount);
    } else if r.pc.Refunding? {
      RefundMoves(t, r.order, r.req.amount);
    } else {
      assert Commit(t, r).payments == t.payments;
    }
  }

  ghost predicate LedgerOk(s: System) {
    forall o :: Statement(s.ledger, o) == Movements(s.tables, o)
  }

  lemma {:induction false} NextLedger(s: System, a: Action)
    requires LedgerOk(s)
    ensures LedgerOk(Next(s, a))
  {
    if a.Step? && a.id in s.runs {
      var r, t' := s.runs[a.id], Next(s, a).tables;
      var more := Moved(s.tables, t', r.order);
      CommitPayment(s.tables, r, a.choice);
      forall o ensures Statement(s.ledger + more, o) == Movements(t', o) {
        StatementAppend(s.ledger, more, o);
        if o != r.order {
          CommitElsewhere(s.tables, r, o);
        }
      }
    }
  }

  /** `orders` lists the created orders, each once. */
  ghost predicate OrdersOk(s: System) {
    && (forall i, j :: 0 <= i < j < |s.orders| ==> s.orders[i] != s.orders[j])
    && (forall o :: o in s.orders <==> o in s.tables.sagas)
  }

  lemma {:induction false} NextOrders(s: System, a: Action)
    requires Inv(s) && OrdersOk(s)
    ensures OrdersOk(Next(s, a))
  {
    if a.Step? && a.id in s.runs {
      StepSelf(s, a.id, a.choice);
    }
  }

  lemma {:induction false} ExecBooks(s: System, actions: seq<Action>)
    requires Inv(s) && LedgerOk(s) && OrdersOk(s)
    ensures var s' := Exec(s, actions); Inv(s') && LedgerOk(s') && OrdersOk(s')
    decreases |actions|
  {
    if actions != [] {
      NextInv(s, actions[0]);
      NextLedger(s, actions[0]);
      NextOrders(s, actions[0]);
      ExecBooks(Next(s, actions[0]), actions[1..]);
    }
  }

  lemma {:induction false} Books(actions: seq<Action>)
    ensures var s := Exec(INIT, actions); Inv(s) && LedgerOk(s) && OrdersOk(s)
  {
    Reachable([]);
    ExecBooks(INIT, actions);
  }

  /** Under ambiguous failures, retries and colliding order ids alike, an order sees at
      most one charge and after it at most one refund, of the amount the saga names. */
  lemma {:induction false} AtMostOneChargeAndRefund(actions: seq<Action>, order: string)
    ensures var s := Exec(INIT, actions); var moves := Statement(s.ledger, order);
            if order !in s.tables.sagas then moves == []
            else
              var amount := s.tables.sagas[order].amount;
              moves in {[], [Charged(order, amount)], [Charged(order, amount), Returned(order, amount)]}
  {
    Books(actions);
    var s := Exec(INIT, actions);
    if order in s.tables.sagas {
      assert Owns(s.tables, s.runs[s.creator[order]]);
    }
  }

  /** The charges ever committed to orders of one idempotency key. */
  function ChargesFor(ledger: seq<Movement>, sagas: map<string, SagaRow>, key: string): nat {
    if ledger == [] then 0
    else
      var last := ledger[|ledger| - 1];
      ChargesFor(ledger[..|ledger| - 1], sagas, key)
      + if last.Charged? && last.order in sagas && sagas[last.order].key == key then 1 else 0
  }

  function Charges(moves: seq<Movement>): nat {
    if moves == [] then 0 else Charges(moves[..|moves| - 1]) + if moves[|moves| - 1].Charged? then 1 else 0
  }

  lemma {:induction false} ChargesAppend(moves: seq<Movement>, more: seq<Movement>)
    requires |more| <= 1
    ensures Charges(moves + more) == Charges(moves) + if more != [] && more[0].Charged? then 1 else 0
  {
    if more == [] {
      assert moves + more == moves;
    } else {
      assert (moves + more)[..|moves|] == moves;
    }
  }

  /** The charges counted for a key are those on the statement of its one order. */
  lemma {:induction false} ChargesOfOneOrder(ledger: seq<Movement>, t: Tables, key: string)
    requires Indexed(t) && key in t.keyIndex
    ensures ChargesFor(ledger, t.sagas, key) == Charges(Statement(ledger, t.keyIndex[key]))
  {
    if ledger != [] {
      var k := |ledger| - 1;
      var order, last := t.keyIndex[key], ledger[k];
      ChargesOfOneOrder(ledger[..k], t, key);
      ChargesAppend(Statement(ledger[..k], order), if last.order == order then [last] else []);
    }
  }

  lemma {:induction false} NoChargesWithoutOrder(ledger: seq<Movement>, t: Tables, key: string)
    requires Indexed(t) && key !in t.keyIndex
    ensures ChargesFor(ledger, t.sagas, key) == 0
  {
    if ledger != [] {
      NoChargesWithoutOrder(ledger[..|ledger| - 1], t, key);
    }
  }

  lemma {:induction false} FewCharges(moves: seq<Movement>, order: string, amount: real)
    requires moves in {[], [Charged(order, amount)], [Charged(order, amount), Returned(order, amount)]}
    ensures Charges(moves) <= 1
  {
    if moves != [] {
      var one := [Charged(order, amount)];
      assert one[..0] == [] && Charges(one) == 1;
      assert |moves| == 2 ==> moves[..1] == one;
    }
  }

  /** At most one charge is ever committed for an idempotency key, however many runs use it. */
  lemma {:induction false} AtMostOneChargePerKey(actions: seq<Action>, key: string)
    ensures ChargesFor(Exec(INIT, actions).ledger, Exec(INIT, actions).tables.sagas, key) <= 1
  {
    Books(actions);
    var s := Exec(INIT, actions);
    if key in s.tables.keyIndex {
      var order := s.tables.keyIndex[key];
      ChargesOfOneOrder(s.ledger, s.tables, key);
      AtMostOneChargeAndRefund(actions, order);
      FewCharges(Statement(s.ledger, order), order, s.tables.sagas[order].amount);
    } else {
      NoChargesWithoutOrder(s.ledger, s.tables, key);
    }
  }

  // ----- conservation -----

  function Signed(m: Movement): real { if m.Charged? then m.amount else -m.amount }

  /** Total charged minus total refunded, over the whole run. */
  function Balance(ledger: seq<Movement>): real {
    if ledger == [] then 0.0 else Balance(ledger[..|ledger| - 1]) + Signed(ledger[|ledger| - 1])
  }

  /** What the tables say is held for an order: its amount if charged and not refunded. */
  function Outstanding(t: Tables, order: string): real {
    if order in t.payments && t.payments[order].refund.None? then t.payments[order].amount else 0.0
  }

  function Total(t: Tables, orders: seq<string>): real {
    if orders == [] then 0.0 else Total(t, orders[..|orders| - 1]) + Outstanding(t, orders[|orders| - 1])
  }

  /** A change to one listed order changes the total by that order's change. */
  lemma {:induction false} TotalUpdate(t: Tables, t': Tables, orders: seq<string>, order: string)
    requires forall i, j :: 0 <= i < j < |orders| ==> orders[i] != orders[j]
    requires forall o :: o in orders && o != order ==> Outstanding(t', o) == Outstanding(t, o)
    ensures Total(t', orders) == Total(t, orders) + if order in orders then Outstanding(t', order) - Outstanding(t, order) else 0.0
  {
    if orders != [] {
      var init, last := orders[..|orders| - 1], orders[|orders| - 1];
      assert forall o :: o in init ==> o in orders;
      assert forall o :: o in orders ==> o in init || o == last;
      TotalUpdate(t, t', init, order);
    }
  }

  ghost predicate BalanceOk(s: System) {
    Balance(s.ledger) == Total(s.tables, s.orders)
  }

  /** A payment row is never lost or repriced, and is refunded once and in full. */
  ghost predicate PaymentGrows(t: Tables, t': Tables, order: string) {
    && (order in t.payments ==>
          && order in t'.payments && t'.payments[order].amount == t.payments[order].amount
          && (t.payments[order].refund.Some? ==> t'.payments[order] == t.payments[order])
          && (t'.payments[order].refund.Some? ==> t'.payments[order].refund.value == t.payments[order].amount))
    && (order !in t.payments && order in t'.payments ==> t'.payments[order].refund.None?)
  }

  lemma {:induction false} OwnPayment(t: Tables, r: Run)
    requires Owns(t, r)
    ensures PaymentGrows(t, Commit(t, r), r.order)
  {
    assert Commit(t, r).payments == t.payments || r.pc.Charging? || r.pc.Refunding?;
  }

  /** A step of a run that had created nothing touches no payment. */
  lemma {:induction false} UnpaidStep(s: System, id: nat, c: Choice)
    requires Inv(s) && id in s.runs && !s.runs[id].created
    ensures RunStep(s.tables, s.runs[id], c).0.payments == s.tables.payments
    ensures RunStep(s.tables, s.runs[id], c).1.created ==> s.runs[id].order !in s.tables.payments
  {
    StepSelf(s, id, c);
    assert Bystander(s.tables, s.runs[id]);
  }

  lemma {:induction false} SamePayment(t: Tables, r: Run)
    requires Owns(t, r)
    ensures PaymentGrows(t, t, r.order)
  {
  }

  lemma {:induction false} UnpaidGrows(t: Tables, t': Tables, order: string)
    requires t'.payments == t.payments && (GivenBack(t, order) ==> t.payments[order].refund == Some(t.payments[order].amount))
    ensures PaymentGrows(t, t', order)
  {
  }

  /** A refund is always of the amount charged. */
  lemma {:induction false} RefundsInFull(s: System, order: string)
    requires Inv(s) && GivenBack(s.tables, order)
    ensures s.tables.payments[order].refund == Some(s.tables.payments[order].amount)
  {
    assert Owns(s.tables, s.runs[s.creator[order]]);
  }

  lemma {:induction false} StepPayment(s: System, id: nat, c: Choice)
    requires Inv(s) && id in s.runs
    ensures PaymentGrows(s.tables, RunStep(s.tables, s.runs[id], c).0, s.runs[id].order)
  {
    var t, r := s.tables, s.runs[id];
    if r.created {
      assert Owns(t, r);
      OwnPayment(t, r);
      SamePayment(t, r);
    } else {
      UnpaidStep(s, id, c);
      if GivenBack(t, r.order) { RefundsInFull(s, r.order); }
      UnpaidGrows(t, RunStep(t, r, c).0, r.order);
    }
  }

  /** What is moved is exactly what changes in the order's holding. */
  lemma {:induction false} MovedIsHeld(t: Tables, t': Tables, order: string, ledger: seq<Movement>)
    requires PaymentGrows(t, t', order)
    ensures Balance(ledger + Moved(t, t', order)) == Balance(ledger) + Outstanding(t', order) - Outstanding(t, order)
  {
    var more := Moved(t, t', order);
    if more == [] {
      assert ledger + more == ledger;
    } else {
      assert (ledger + more)[..|ledger|] == ledger;
    }
  }

  lemma {:induction false} TotalAppend(t: Tables, orders: seq<string>, order: string)
    ensures Total(t, orders + [order]) == Total(t, orders) + Outstanding(t, order)
  {
    assert (orders + [order])[..|orders|] == orders;
  }

  /** One step's bookkeeping, away from the step itself: the total over the listed orders. */
  lemma {:induction false} TotalFollows(t: Tables, t': Tables, orders: seq<string>, order: string)
    requires forall i, j :: 0 <= i < j < |orders| ==> orders[i] != orders[j]
    requires forall o :: o != order ==> SameRows(t, t', o)
    requires order in orders || Outstanding(t', order) == Outstanding(t, order)
    ensures Total(t', orders) == Total(t, orders) + Outstanding(t', order) - Outstanding(t, order)
  {
    forall o | o in orders && o != order ensures Outstanding(t', o) == Outstanding(t, o) {
      assert SameRows(t, t', o);
    }
    TotalUpdate(t, t', orders, order);
  }

  lemma {:induction false} BooksUpdate(s: System, s': System, order: string)
    requires OrdersOk(s) && BalanceOk(s) && PaymentGrows(s.tables, s'.tables, order)
    requires forall o :: o != order ==> SameRows(s.tables, s'.tables, o)
    requires s'.ledger == s.ledger + Moved(s.tables, s'.tables, order)
    requires
      if order in s.orders then s'.orders == s.orders
      else Outstanding(s'.tables, order) == Outstanding(s.tables, order) == 0.0 && s'.orders in {s.orders, s.orders + [order]}
    ensures BalanceOk(s')
  {
    MovedIsHeld(s.tables, s'.tables, order, s.ledger);
    TotalFollows(s.tables, s'.tables, s.orders, order);
    TotalAppend(s'.tables, s.orders, order);
  }

  lemma {:induction false} NextBalance(s: System, a: Action)
    requires Inv(s) && OrdersOk(s) && BalanceOk(s)
    ensures BalanceOk(Next(s, a))
  {
    if a.Step? && a.id in s.runs {
      var s', r := Next(s, a), s.runs[a.id];
      StepSelf(s, a.id, a.choice);
      StepTablesOk(s, a.id, a.choice);
      StepPayment(s, a.id, a.choice);
      if r.created {
        assert r.order in s.orders;
      } else {
        UnpaidStep(s, a.id, a.choice);
      }
      BooksUpdate(s, s', r.order);
    }
  }

  lemma {:induction false} ExecBalance(s: System, actions: seq<Action>)
    requires Inv(s) && OrdersOk(s) && BalanceOk(s)
    ensures BalanceOk(Exec(s, actions))
    decreases |actions|
  {
    if actions != [] {
      NextInv(s, actions[0]);
      NextOrders(s, actions[0]);
      NextBalance(s, actions[0]);
      ExecBalance(Next(s, actions[0]), actions[1..]);
    }
  }

  /** Conservation: in every reachable state, all money charged less all money refunded
      is the sum over the orders whose payment stands. */
  lemma {:induction false} MoneyIsConserved(actions: seq<Action>)
    ensures var s := Exec(INIT, actions); Balance(s.ledger) == Total(s.tables, s.orders)
  {
    Reachable([]);
    ExecBalance(INIT, actions);
  }

  // ----- what is held once everything has settled -----

  /** What statuses and logs alone say is held: `succeeded` orders, and `failed` orders
      whose log ends in a failed refund. */
  function Kept(t: Tables, order: string): real {
    if order !in t.sagas then 0.0
    else
      var trace := Project(t.log, order);
      if t.sagas[order].status.Succeeded? || (t.sagas[order].status.Failed? && trace.Then? && trace.last.RefundBroken?)
      then t.sagas[order].amount else 0.0
  }

  function TotalKept(t: Tables, orders: seq<string>): real {
    if orders == [] then 0.0 else TotalKept(t, orders[..|orders| - 1]) + Kept(t, orders[|orders| - 1])
  }

  /** All creating runs are finished, with no effect hidden and no write lost. */
  ghost predicate Settled(s: System) {
    forall id :: id in s.runs && s.runs[id].created ==>
      s.runs[id].pc.Done? && s.runs[id].NothingHidden() && !s.runs[id].lostLog && !s.runs[id].lostStatus
  }

  lemma {:induction false} KeptIsOutstanding(t: Tables, r: Run)
    requires Owns(t, r) && r.pc.Done? && r.NothingHidden() && !r.lostLog && !r.lostStatus
    ensures Kept(t, r.order) == Outstanding(t, r.order)
  {
  }

  lemma {:induction false} KeptTotal(s: System, orders: seq<string>)
    requires Inv(s) && Settled(s) && forall o :: o in orders ==> o in s.tables.sagas
    ensures TotalKept(s.tables, orders) == Total(s.tables, orders)
  {
    if orders != [] {
      KeptTotal(s, orders[..|orders| - 1]);
      KeptIsOutstanding(s.tables, s.runs[s.creator[orders[|orders| - 1]]]);
    }
  }

  /** Once every creating run has finished, if no effect was hidden by an error and no log or
      status write failed, the money held is exactly that of the `succeeded` orders and of
      the `failed` orders whose refund failed. */
  lemma {:induction false} SettledBooks(actions: seq<Action>)
    requires var s := Exec(INIT, actions);
             forall id :: id in s.runs && s.runs[id].created ==>
               s.runs[id].pc.Done? && Unhidden(actions, id) && !LogLost(actions, id) && !StatusLost(actions, id)
    ensures var s := Exec(INIT, actions); Balance(s.ledger) == TotalKept(s.tables, s.orders)
  {
    var s := Exec(INIT, actions);
    Books(actions);
    MoneyIsConserved(actions);
    forall id | id in s.runs && s.runs[id].created
      ensures s.runs[id].NothingHidden() && !s.runs[id].lostLog && !s.runs[id].lostStatus
    {
      UnhiddenRun(actions, id);
      ExecLosses(actions, id);
    }
    KeptTotal(s, s.orders);
  }

  /** So it is when failures are clean and log and status writes succeed. */
  lemma {:induction false} CleanSettledBooks(actions: seq<Action>)
    requires NoAmbiguity(actions)
    requires var s := Exec(INIT, actions);
             forall id :: id in s.runs && s.runs[id].created ==>
               s.runs[id].pc.Done? && !LogLost(actions, id) && !StatusLost(actions, id)
    ensures var s := Exec(INIT, actions); Balance(s.ledger) == TotalKept(s.tables, s.orders)
  {
    forall id: nat ensures Unhidden(actions, id) {
      CleanUnhidden(actions, id);
    }
    SettledBooks(actions);
  }
}
