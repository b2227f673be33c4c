/** The three Postgres stores, as objects over one mutable database. A method is one
    statement, with its fault, and what the code does with the statement's result. */
module OrderStores {
  import opened Common
  import opened OrderTables
  import opened OrderSaga

  class Database {
    var sagas: map<string, SagaRow>
    var keyIndex: map<string, string>
    var payments: map<string, Payment>
    var assignments: map<string, string>
    var log: seq<LogRow>

    constructor ()
      ensures View() == EMPTY
    {
      sagas, keyIndex, payments, assignments, log := map[], map[], map[], map[], [];
    }

    function View(): Tables
      reads this
    {
      Tables(sagas, keyIndex, payments, assignments, log)
    }

    /** Other connections have left the database in state `t`. */
    method Become(t: Tables)
      modifies this
      ensures View() == t
    {
      sagas, keyIndex, payments, assignments, log := t.sagas, t.keyIndex, t.payments, t.assignments, t.log;
    }
  }

  datatype StartError = DbError | NoSaga | PayloadConflict

  class SagaStore {
    const db: Database

    constructor (db: Database)
      ensures this.db == db
    {
      this.db := db;
    }

    /** The INSERT of `Start`: how many rows it reports, or an error. */
    method Insert(key: string, order: string, user: string, amount: real, fault: Fault)
      returns (affected: Option<nat>)
      modifies db
      ensures var (t', res) := InsertSaga(old(db.View()), order, key, user, amount);
              && db.View() == (if fault.Clean? then old(db.View()) else t')
              && affected == (if !fault.Okay? || res.Violation? then None else Some(if res.Inserted? then 1 else 0))
    {
      if fault.Clean? { return None; }
      affected := Some(0);
      if key !in db.keyIndex {
        if order in db.sagas { return None; }
        db.sagas := db.sagas[order := SagaRow(key, user, amount, Started)];
        db.keyIndex := db.keyIndex[key := order];
        affected := Some(1);
      }
      if fault.Ambiguous? { affected := None; }
    }

    /** The SELECT of `Start`, and the payload check on what it finds. */
    method Find(key: string, user: string, amount: real, fault: Fault)
      returns (found: Option<(string, SagaRow)>, err: Option<StartError>)
      ensures found.Some? <==> err.None?
      ensures var row := SelectSaga(db.View(), key);
              if !fault.Okay? then err == Some(DbError)
              else if row.None? then err == Some(NoSaga)
              else if row.value.1.user != user || row.value.1.amount != amount then err == Some(PayloadConflict)
              else found == row
    {
      if !fault.Okay? { return None, Some(DbError); }
      if key !in db.keyIndex || db.keyIndex[key] !in db.sagas { return None, Some(NoSaga); }
      var order := db.keyIndex[key];
      var row := db.sagas[order];
      if row.user != user || row.amount != amount { return None, Some(PayloadConflict); }
      return Some((order, row)), None;
    }

    /** An unknown order is no error: the UPDATE then changes no row. */
    method UpdateStatus(order: string, status: Status, fault: Fault) returns (failed: bool)
      modifies db
      ensures db.View() == if fault.Clean? then old(db.View()) else SetStatus(old(db.View()), order, status)
      ensures failed <==> !fault.Okay?
    {
      if !fault.Clean? && order in db.sagas {
        db.sagas := db.sagas[order := db.sagas[order].(status := status)];
      }
      return !fault.Okay?;
    }

    /** An unknown order is refused by the foreign key. */
    method AddStep(order: string, entry: Entry, fault: Fault) returns (failed: bool)
      modifies db
      ensures db.View() == if fault.Clean? then old(db.View()) else AppendStep(old(db.View()), order, entry)
      ensures failed <==> !fault.Okay? || order !in db.sagas
    {
      if !fault.Clean? && order in db.sagas {
        db.log := db.log + [LogRow(order, entry)];
      }
      return !fault.Okay? || order !in db.sagas;
    }
  }

  datatype PaymentError = IdRequired | PaymentDbError | AlreadyCharged | NotCharged | AlreadyRefunded

  class PostgresPaymentClient {
    const db: Database

    constructor (db: Database)
      ensures this.db == db
    {
      this.db := db;
    }

    method Charge(order: string, amount: real, fault: Fault) returns (err: Option<PaymentError>)
      modifies db
      ensures var (t', added) := InsertPayment(old(db.View()), order, amount);
              if order == "" || fault.Clean?
              then db.View() == old(db.View()) && err == Some(if order == "" then IdRequired else PaymentDbError)
              else db.View() == t' &&
                   err == (if fault.Ambiguous? then Some(PaymentDbError) else if added then None else Some(AlreadyCharged))
    {
      if order == "" { return Some(IdRequired); }
      if fault.Clean? { return Some(PaymentDbError); }
      err := Some(AlreadyCharged);
      if order !in db.payments {
        db.payments := db.payments[order := Payment(amount, None)];
        err := None;
      }
      if fault.Ambiguous? { err := Some(PaymentDbError); }
    }

    /** The id check and the UPDATE of `Refund`: how many rows it reports, or an error. */
    method MarkRefunded(order: string, amount: real, fault: Fault) returns (affected: Option<nat>)
      modifies db
      ensures var (t', changed) := UpdateRefund(old(db.View()), order, amount);
              if order == "" || fault.Clean? then db.View() == old(db.View()) && affected == None
              else db.View() == t' && affected == (if fault.Ambiguous? then None else Some(if changed then 1 else 0))
    {
      if order == "" || fault.Clean? { return None; }
      affected := Some(0);
      if order in db.payments && db.payments[order].refund.None? {
        db.payments := db.payments[order := db.payments[order].(refund := Some(amount))];
        affected := Some(1);
      }
      if fault.Ambiguous? { affected := None; }
    }

    /** The SELECT of `Refund` after an UPDATE of no row: which error to report. */
    method WhyNotRefunded(order: string, fault: Fault) returns (err: PaymentError)
      ensures err == if !fault.Okay? then PaymentDbError
                     else if order in db.payments && db.payments[order].refund.Some? then AlreadyRefunded
                     else NotCharged
    {
      if !fault.Okay? { return PaymentDbError; }
      if order !in db.payments { return NotCharged; }
      if db.payments[order].refund.Some? { return AlreadyRefunded; }
      return NotCharged;
    }
  }

  datatype DriverError = IdsRequired | DriverDbError | OtherDriver | NoAssignment

  class PostgresDriverClient {
    const db: Database

    constructor (db: Database)
      ensures this.db == db
    {
      this.db := db;
    }

    /** The id check and the INSERT of `Assign`: how many rows it reports, or an error. */
    method Insert(order: string, driver: string, fault: Fault) returns (affected: Option<nat>)
      modifies db
      ensures var (t', res) := InsertAssignment(old(db.View()), order, driver);
              if order == "" || driver == "" || fault.Clean? then db.View() == old(db.View()) && affected == None
              else db.View() == t' &&
                   affected == (if fault.Ambiguous? || res.Violation? then None else Some(if res.Inserted? then 1 else 0))
    {
      if order == "" || driver == "" || fault.Clean? { return None; }
      affected := Some(0);
      if order !in db.assignments {
        if order !in db.sagas { return None; }
        db.assignments := db.assignments[order := driver];
        affected := Some(1);
      }
      if fault.Ambiguous? { affected := None; }
    }

    /** The SELECT of `Assign` after a conflict. */
    method Confirm(order: string, driver: string, fault: Fault) returns (err: Option<DriverError>)
      ensures err == if !fault.Okay? then Some(DriverDbError)
                     else if order !in db.assignments then Some(NoAssignment)
                     else if db.assignments[order] == driver then None else Some(OtherDriver)
    {
      if !fault.Okay? { return Some(DriverDbError); }
      if order !in db.assignments { return Some(NoAssignment); }
      if db.assignments[order] == driver { return None; }
      return Some(OtherDriver);
    }
  }
}
