/** The four tables of the order database, and each SQL statement as one atomic
    function on them.

    The schema's constraints are part of the statements: `order_id` is the primary
    key of `order_sagas`, `payments` and `order_assignments` (they are maps),
    `idempotency_key` is unique (`keyIndex` is its index), and steps and assignments
    reference an existing saga. */
module OrderTables {
  import opened Common

  datatype Status = Started | Succeeded | Failed | Refunded

  datatype SagaRow = SagaRow(key: string, user: string, amount: real, status: Status)

  /** `refund` is `Some` exactly when `refunded_at` is not null. */
  datatype Payment = Payment(amount: real, refund: Option<real>)

  /** A step and its status, as logged. */
  datatype Entry =
    | ChargeBegun | ChargePassed | ChargeBroken
    | AssignBegun | AssignPassed | AssignBroken
    | RefundBegun | RefundPassed | RefundBroken

  datatype LogRow = LogRow(order: string, entry: Entry)

  datatype Tables = Tables(
    sagas: map<string, SagaRow>,
    keyIndex: map<string, string>,
    payments: map<string, Payment>,
    assignments: map<string, string>,
    log: seq<LogRow>)

  const EMPTY := Tables(map[], map[], map[], map[], [])

  datatype InsertResult = Inserted | KeyTaken | Violation

  /** INSERT INTO order_sagas ... ON CONFLICT (idempotency_key) DO NOTHING.
      A clash on the primary key alone is an error, not a conflict. */
  function InsertSaga(t: Tables, order: string, key: string, user: string, amount: real): (Tables, InsertResult) {
    if key in t.keyIndex then (t, KeyTaken)
    else if order in t.sagas then (t, Violation)
    else (t.(sagas := t.sagas[order := SagaRow(key, user, amount, Started)],
             keyIndex := t.keyIndex[key := order]), Inserted)
  }

  /** SELECT ... FROM order_sagas WHERE idempotency_key = key. */
  function SelectSaga(t: Tables, key: string): Option<(string, SagaRow)> {
    if key in t.keyIndex && t.keyIndex[key] in t.sagas
    then Some((t.keyIndex[key], t.sagas[t.keyIndex[key]])) else None
  }

  /** UPDATE order_sagas SET status = status WHERE order_id = order. */
  function SetStatus(t: Tables, order: string, status: Status): Tables {
    if order in t.sagas then t.(sagas := t.sagas[order := t.sagas[order].(status := status)]) else t
  }

  /** INSERT INTO order_saga_steps; the foreign key refuses an unknown order. */
  function AppendStep(t: Tables, order: string, entry: Entry): Tables {
    if order in t.sagas then t.(log := t.log + [LogRow(order, entry)]) else t
  }

  /** INSERT INTO payments ... ON CONFLICT DO NOTHING; the flag says a row was added. */
  function InsertPayment(t: Tables, order: string, amount: real): (Tables, bool) {
    if order in t.payments then (t, false)
    else (t.(payments := t.payments[order := Payment(amount, None)]), true)
  }

  /** UPDATE payments SET refund_amount ... WHERE refunded_at IS NULL; the flag says a row changed. */
  function UpdateRefund(t: Tables, order: string, amount: real): (Tables, bool) {
    if order in t.payments && t.payments[order].refund.None?
    then (t.(payments := t.payments[order := t.payments[order].(refund := Some(amount))]), true)
    else (t, false)
  }

  /** INSERT INTO order_assignments ... ON CONFLICT DO NOTHING, with its foreign key. */
  function InsertAssignment(t: Tables, order: string, driver: string): (Tables, InsertResult) {
    if order in t.assignments then (t, KeyTaken)
    else if order !in t.sagas then (t, Violation)
    else (t.(assignments := t.assignments[order := driver]), Inserted)
  }

  // ----- repeated statements -----

  /** An idempotency key is used once: inserting under it again, for any order and payload,
      changes nothing and is reported as a conflict; and a second key for the order an error. */
  lemma {:induction false} SagaOnce(t: Tables, order: string, key: string, user: string, amount: real, order': string, key': string, user': string, amount': real)
    requires InsertSaga(t, order, key, user, amount).1.Inserted?
    ensures var t' := InsertSaga(t, order, key, user, amount).0;
            && order !in t.sagas && key !in t.keyIndex
            && SelectSaga(t', key) == Some((order, SagaRow(key, user, amount, Started)))
            && InsertSaga(t', order', key, user', amount') == (t', KeyTaken)
            && (key' !in t'.keyIndex ==> InsertSaga(t', order, key', user', amount') == (t', Violation))
  {
  }

  /** A payment is inserted once, whatever the amounts. */
  lemma {:induction false} PaymentOnce(t: Tables, order: string, amount: real, amount': real)
    ensures var (t', added) := InsertPayment(t, order, amount);
            && (added <==> order !in t.payments)
            && order in t'.payments && (added ==> t'.payments[order] == Payment(amount, None))
            && InsertPayment(t', order, amount') == (t', false)
  {
  }

  /** A payment is refunded once, whatever the amounts, and never if there is none. */
  lemma {:induction false} RefundOnce(t: Tables, order: string, amount: real, amount': real)
    ensures var (t', changed) := UpdateRefund(t, order, amount);
            && (changed <==> order in t.payments && t.payments[order].refund.None?)
            && (changed ==> t'.payments[order] == Payment(t.payments[order].amount, Some(amount)))
            && UpdateRefund(t', order, amount') == (t', false)
  {
  }

  /** A driver is assigned once, whichever others are tried, and only to an order that exists. */
  lemma {:induction false} AssignedOnce(t: Tables, order: string, driver: string, driver': string)
    ensures var (t', res) := InsertAssignment(t, order, driver);
            && (res.Inserted? <==> order !in t.assignments && order in t.sagas)
            && (res.Inserted? ==> order in t'.assignments && t'.assignments[order] == driver)
            && (!res.Inserted? ==> t' == t)
            && (order in t'.assignments ==> InsertAssignment(t', order, driver') == (t', KeyTaken))
  {
  }

  /** A step log, latest entry outermost. */
  datatype Trace = Nothing | Then(before: Trace, last: Entry)

  /** The step log of one order, in insertion order. */
  function Project(log: seq<LogRow>, order: string): (trace: Trace) {
    if log == [] then Nothing
    else
      var row := log[|log| - 1];
      var earlier := Project(log[..|log| - 1], order);
      if row.order == order then Then(earlier, row.entry) else earlier
  }

  lemma {:induction false} ProjectAppend(log: seq<LogRow>, row: LogRow, order: string)
    ensures var earlier := Project(log, order);
            Project(log + [row], order) == if row.order == order then Then(earlier, row.entry) else earlier
  {
    assert (log + [row])[..|log|] == log;
  }
}
