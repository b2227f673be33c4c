/** `CreateOrder` as the sequential program it is, proved to be one run of the saga's
    transition system, whatever other connections do between its statements. */
module OrderService {
  import opened Common
  import opened OrderTables
  import opened OrderSaga
  import opened OrderStores
  import opened OrderPolicy

  class OrderService {
    const db: Database
    const sagas: SagaStore
    const payments: PostgresPaymentClient
    const drivers: PostgresDriverClient
    const attempts: int
    const world: World

    /** Statements issued so far by the current call. */
    var issued: nat
    ghost var run: Run
    ghost var tries: nat
    ghost var path: seq<Course>

    constructor (db: Database, attempts: int, world: World)
      ensures this.db == db && this.attempts == attempts && this.world == world
      ensures Wired()
    {
      this.db := db;
      sagas := new SagaStore(db);
      payments := new PostgresPaymentClient(db);
      drivers := new PostgresDriverClient(db);
      this.attempts := attempts;
      this.world := world;
      issued := 0;
    }

    predicate Wired() {
      sagas.db == db && payments.db == db && drivers.db == db
    }

    /** The statements issued so far are the steps of `run`, in this world, retried by the
        policy; `tries` attempts have begun in the client call it is in. */
    ghost predicate Valid()
      reads this, db
    {
      && Wired() && IsPath(path, world, attempts) && |path| == issued + 1
      && path[issued] == Course(db.View(), run, tries) && (!InCall(run) ==> tries == 0)
    }

    /** The statement just issued has run on what `prior` became, and is still to be recorded. */
    ghost predicate Pending(prior: Tables)
      reads this
    {
      && Wired() && IsPath(path, world, attempts) && |path| == issued
      && path[issued - 1] == Course(prior, run, tries) && (!InCall(run) ==> tries == 0)
    }

    /** The rest of the world moves; then the next statement is sent into this fault. */
    method Issue() returns (fault: Fault)
      requires Valid()
      modifies db
      ensures db.View() == world.disturb(issued, old(db.View())) && fault == world.fault(issued)
    {
      var t := world.disturb(issued, db.View());
      db.Become(t);
      return world.fault(issued);
    }

    /** The statement has run: record it as a step of the run. */
    ghost method Took(prior: Tables, retry: bool)
      requires Pending(prior) && retry == Retries(Course(prior, run, tries), world, attempts, issued - 1)
      requires db.View() == RunStep(world.disturb(issued - 1, prior), run, Choice(world.fault(issued - 1), retry)).0
      modifies this`run, this`tries, this`path
      ensures Valid()
      ensures run == RunStep(world.disturb(issued - 1, prior), old(run), Choice(world.fault(issued - 1), retry)).1
      ensures tries == if InCall(run) then Attempt(old(run), old(tries)) else 0
      ensures |path| == issued + 1 && path[..issued] == old(path)
    {
      var next := NextCourse(Course(prior, run, tries), world, attempts, issued - 1);
      PathGrows(path, world, attempts, next);
      run, tries, path := next.r, next.tries, path + [next];
    }

    /** `Took` for an attempt at a charge: `ok` is what the client saw. */
    ghost method TookCharge(prior: Tables, retry: bool, ok: bool)
      requires Pending(prior)
      requires run.pc == Charging
      requires var t, fault := world.disturb(issued - 1, prior), world.fault(issued - 1);
               && db.View() == (if run.order == "" || fault.Clean? then t else InsertPayment(t, run.order, run.req.amount).0)
               && ok == (run.order != "" && fault.Okay? && InsertPayment(t, run.order, run.req.amount).1)
      requires retry <==> !ok && tries + 1 < attempts && world.retryable(issued - 1)
      modifies this`run, this`tries, this`path
      ensures Valid() && SamePlan(old(run), run)
      ensures run.pc == if ok then Log(ChargePassed) else if retry then Charging else Log(ChargeBroken)
      ensures run.err == if ok || retry then old(run).err else Some(ChargeFailed)
      ensures ok <==> !FailedAt(path, world, issued - 1)
      ensures retry ==> tries == old(tries) + 1
      ensures old(path) <= path
    {
      ghost var t, c := world.disturb(issued - 1, prior), Choice(world.fault(issued - 1), retry);
      ChargeEnds(t, run, c);
      Took(prior, retry);
    }

    /** `Took` for the INSERT of an assignment attempt: `affected` is what the client saw. */
    ghost method TookAssign(prior: Tables, retry: bool, affected: Option<nat>)
      requires Pending(prior)
      requires run.pc == Assigning
      requires var t, fault := world.disturb(issued - 1, prior), world.fault(issued - 1);
               && db.View() == (if run.order == "" || run.driver == "" || fault.Clean? then t else InsertAssignment(t, run.order, run.driver).0)
               && var res := InsertAssignment(t, run.order, run.driver).1;
                  affected == (if run.order == "" || run.driver == "" || !fault.Okay? || res.Violation? then None
                               else if res.Inserted? then Some(1) else Some(0))
      requires retry <==> affected.None? && tries + 1 < attempts && world.retryable(issued - 1)
      modifies this`run, this`tries, this`path
      ensures Valid() && SamePlan(old(run), run)
      ensures run.pc == if affected == Some(1) then Log(AssignPassed) else if affected == Some(0) then AssignLookup
                        else if retry then Assigning else Log(AssignBroken)
      ensures run.err == if affected.Some? || retry then old(run).err else Some(AssignFailed)
      ensures affected.Some? <==> !FailedAt(path, world, issued - 1)
      ensures InCall(run) ==> tries == old(tries) + 1
      ensures old(path) <= path
    {
      ghost var t, c := world.disturb(issued - 1, prior), Choice(world.fault(issued - 1), retry);
      AssignEnds(t, run, c);
      Took(prior, retry);
    }

    /** `Took` for the INSERT of the saga row. */
    ghost method TookInsert(prior: Tables, affected: Option<nat>)
      requires Pending(prior)
      requires run.pc == Insert
      requires var t, fault := world.disturb(issued - 1, prior), world.fault(issued - 1);
               var (t', res) := InsertSaga(t, run.order, run.req.key, run.req.user, run.req.amount);
               && db.View() == (if fault.Clean? then t else t')
               && affected == (if !fault.Okay? || res.Violation? then None else Some(if res.Inserted? then 1 else 0))
      modifies this`run, this`tries, this`path
      ensures Valid() && SamePlan(old(run), run) && run.err == old(run).err
      ensures run.pc == if affected == None then Done(Response("", Some(StartFailed))) else Lookup(affected == Some(1))
      ensures old(path) <= path
    {
      Took(prior, false);
    }

    /** `Took` for the SELECT after a conflict. */
    ghost method TookConfirm(prior: Tables, retry: bool, ok: bool)
      requires Pending(prior)
      requires run.pc == AssignLookup && db.View() == world.disturb(issued - 1, prior)
      requires var t := db.View();
               ok == (world.fault(issued - 1).Okay? && run.order in t.assignments && t.assignments[run.order] == run.driver)
      requires retry <==> !ok && tries < attempts && world.retryable(issued - 1)
      modifies this`run, this`tries, this`path
      ensures Valid() && SamePlan(old(run), run)
      ensures run.pc == if ok then Log(AssignPassed) else if retry then Assigning else Log(AssignBroken)
      ensures run.err == if ok || retry then old(run).err else Some(AssignFailed)
      ensures ok <==> !FailedAt(path, world, issued - 1)
      ensures retry ==> tries == old(tries)
      ensures old(path) <= path
    {
      ghost var t, c := world.disturb(issued - 1, prior), Choice(world.fault(issued - 1), retry);
      ConfirmEnds(t, run, c);
      Took(prior, retry);
    }

    /** `Took` for the UPDATE of a refund attempt: `affected` is what the client saw. */
    ghost method TookRefund(prior: Tables, retry: bool, affected: Option<nat>)
      requires Pending(prior)
      requires run.pc == Refunding
      requires var t, fault := world.disturb(issued - 1, prior), world.fault(issued - 1);
               && db.View() == (if run.order == "" || fault.Clean? then t else UpdateRefund(t, run.order, run.req.amount).0)
               && affected == (if run.order == "" || !fault.Okay? then None
                               else if UpdateRefund(t, run.order, run.req.amount).1 then Some(1) else Some(0))
      requires retry <==> affected.None? && tries + 1 < attempts && world.retryable(issued - 1)
      modifies this`run, this`tries, this`path
      ensures Valid() && SamePlan(old(run), run)
      ensures run.pc == if affected == Some(1) then Log(RefundPassed) else if affected == Some(0) then RefundLookup
                        else if retry then Refunding else Log(RefundBroken)
      ensures run.err == if affected.Some? || retry then old(run).err else Some(RefundFailed)
      ensures affected.Some? <==> !FailedAt(path, world, issued - 1)
      ensures InCall(run) ==> tries == old(tries) + 1
      ensures old(path) <= path
    {
      ghost var t, c := world.disturb(issued - 1, prior), Choice(world.fault(issued - 1), retry);
      RefundEnds(t, run, c);
      Took(prior, retry);
    }

    /** `Took` for the SELECT after an UPDATE of no row. */
    ghost method TookExplain(prior: Tables, retry: bool)
      requires Pending(prior)
      requires run.pc == RefundLookup && db.View() == world.disturb(issued - 1, prior)
      requires retry <==> tries < attempts && world.retryable(issued - 1)
      modifies this`run, this`tries, this`path
      ensures Valid() && SamePlan(old(run), run)
      ensures run.pc == if retry then Refunding else Log(RefundBroken)
      ensures run.err == if retry then old(run).err else Some(RefundFailed)
      ensures FailedAt(path, world, issued - 1)
      ensures retry ==> tries == old(tries)
      ensures old(path) <= path
    {
      ExplainEnds(db.View(), run, Choice(world.fault(issued - 1), retry));
      Took(prior, retry);
    }

    /** `Took` for a log write. */
    ghost method TookLog(prior: Tables, e: Entry)
      requires Pending(prior)
      requires run.pc == Log(e)
      requires var t := world.disturb(issued - 1, prior);
               db.View() == if world.fault(issued - 1).Clean? then t else AppendStep(t, run.order, e)
      modifies this`run, this`tries, this`path
      ensures Valid() && SamePlan(old(run), run) && run.pc == AfterLog(e) && run.err == old(run).err
      ensures old(path) <= path
      ensures tries == 0
    {
      Took(prior, false);
    }

    /** `Took` for a status write. */
    ghost method TookWrite(prior: Tables, status: Status)
      requires Pending(prior)
      requires run.pc == Write(status)
      requires var t := world.disturb(issued - 1, prior);
               db.View() == if world.fault(issued - 1).Clean? then t else SetStatus(t, run.order, status)
      modifies this`run, this`tries, this`path
      ensures Valid() && SamePlan(old(run), run)
      ensures run.pc == Done(Response(if old(run).err.None? then run.order else "", old(run).err))
      ensures old(path) <= path
    {
      Took(prior, false);
    }

    method AddStep(order: string, e: Entry)
      requires Valid() && run.pc == Log(e) && run.order == order
      modifies this`issued, this`run, this`tries, this`path, db
      ensures Valid() && old(path) <= path && SamePlan(old(run), run)
      ensures run.pc == AfterLog(e) && run.err == old(run).err
      ensures issued == old(issued) + 1
      ensures tries == 0
    {
      ghost var prior := db.View();
      var fault := Issue();
      assert path[issued] == Course(prior, run, tries);
      var _ := sagas.AddStep(order, e, fault);
      issued := issued + 1;
      TookLog(prior, e);
    }

    method UpdateStatus(order: string, status: Status)
      requires Valid() && run.pc == Write(status) && run.order == order
      modifies this`issued, this`run, this`tries, this`path, db
      ensures Valid() && old(path) <= path
      ensures run.pc == Done(Response(if old(run).err.None? then order else "", old(run).err))
      ensures issued == old(issued) + 1
    {
      ghost var prior := db.View();
      var fault := Issue();
      assert path[issued] == Course(prior, run, tries);
      var _ := sagas.UpdateStatus(order, status, fault);
      issued := issued + 1;
      TookWrite(prior, status);
    }

    /** The last log entry of a run and the status that follows it. */
    method Settle(order: string, e: Entry, status: Status)
      requires Valid() && run.pc == Log(e) && AfterLog(e) == Write(status) && run.order == order
      modifies this`issued, this`run, this`tries, this`path, db
      ensures Valid() && old(path) <= path
      ensures run.pc == Done(Response(if old(run).err.None? then order else "", old(run).err))
      ensures issued == old(issued) + 2
    {
      AddStep(order, e);
      UpdateStatus(order, status);
    }

    /** Whether the reliable client tries again after its `attempt`-th failure. */
    function Again(attempt: int, retryable: bool): bool {
      attempt < attempts && retryable
    }

    /** One attempt at the charge. */
    method TryCharge(order: string, amount: real, attempt: int) returns (ok: bool, again: bool)
      requires Valid() && run.pc == Charging && run.order == order && run.req.amount == amount && run.err == None
      requires tries == attempt - 1
      modifies this`issued, this`run, this`tries, this`path, db
      ensures Valid() && old(path) <= path && SamePlan(old(run), run)
      ensures again ==> run.pc == Charging && run.err == None
      ensures !again ==> run.pc == Log(if ok then ChargePassed else ChargeBroken) && run.err == (if ok then None else Some(ChargeFailed))
      ensures issued == old(issued) + 1
      ensures ok <==> !FailedAt(path, world, issued - 1)
      ensures again <==> !ok && attempt < attempts && world.retryable(issued - 1)
      ensures again ==> tries == attempt
    {
      ghost var prior := db.View();
      var fault := Issue();
      assert path[issued] == Course(prior, run, tries);
      var err := payments.Charge(order, amount, fault);
      ok := err == None;
      again := !ok && Again(attempt, world.retryable(issued));
      issued := issued + 1;
      TookCharge(prior, again, ok);
    }

    /** The payment client's `Charge`, retried by its policy. */
    method Charge(order: string, amount: real) returns (ok: bool)
      requires Valid() && run.pc == Charging && run.order == order && run.req.amount == amount && run.err == None
      requires tries == 0
      modifies this`issued, this`run, this`tries, this`path, db
      ensures Valid() && old(path) <= path && SamePlan(old(run), run)
      ensures run.pc == Log(if ok then ChargePassed else ChargeBroken)
      ensures run.err == if ok then None else Some(ChargeFailed)
      ensures issued <= old(issued) + Max(1, attempts)
      ensures Answered(path, world, attempts, old(issued), issued, issued - old(issued), ok)
    {
      var attempt, again := 1, true;
      ok := false;
      while again
        invariant Valid() && old(path) <= path && SamePlan(old(run), run)
        invariant again ==> run.pc == Charging && run.err == None
        invariant !again ==> run.pc == Log(if ok then ChargePassed else ChargeBroken) && run.err == (if ok then None else Some(ChargeFailed))
        invariant 1 <= attempt && issued == old(issued) + attempt - 1
        invariant again ==> tries == attempt - 1 && Underway(path, world, attempts, old(issued), issued, attempt)
        invariant !again ==> Answered(path, world, attempts, old(issued), issued, attempt - 1, ok)
        decreases again, attempts - attempt
      {
        ghost var start, sofar := issued, path;
        ok, again := TryCharge(order, amount, attempt);
        OneMoreAttempt(sofar, path, world, attempts, old(issued), start, issued, attempt, ok, again);
        attempt := attempt + 1;
      }
    }

    /** The INSERT of an assignment attempt. */
    method InsertAssign(order: string, driver: string, attempt: int) returns (affected: Option<nat>, again: bool)
      requires Valid() && run.pc == Assigning && run.order == order && run.driver == driver && run.err == None
      requires tries == attempt - 1
      modifies this`issued, this`run, this`tries, this`path, db
      ensures Valid() && old(path) <= path && SamePlan(old(run), run)
      ensures affected in {None, Some(0), Some(1)}
      ensures run.pc == if affected == Some(1) then Log(AssignPassed) else if affected == Some(0) then AssignLookup
                        else if again then Assigning else Log(AssignBroken)
      ensures run.err == if affected.Some? || again then None else Some(AssignFailed)
      ensures issued == old(issued) + 1
      ensures affected.Some? <==> !FailedAt(path, world, issued - 1)
      ensures again <==> affected.None? && attempt < attempts && world.retryable(issued - 1)
      ensures InCall(run) ==> tries == attempt
    {
      ghost var prior := db.View();
      var fault := Issue();
      assert path[issued] == Course(prior, run, tries);
      affected := drivers.Insert(order, driver, fault);
      again := affected.None? && Again(attempt, world.retryable(issued));
      issued := issued + 1;
      TookAssign(prior, again, affected);
    }

    /** One attempt at the assignment: an INSERT, and after a conflict a SELECT. */
    method TryAssign(order: string, driver: string, attempt: int) returns (ok: bool, again: bool)
      requires Valid() && run.pc == Assigning && run.order == order && run.driver == driver && run.err == None
      requires tries == attempt - 1
      modifies this`issued, this`run, this`tries, this`path, db
      ensures Valid() && old(path) <= path && SamePlan(old(run), run)
      ensures again ==> run.pc == Assigning && run.err == None
      ensures !again ==> run.pc == Log(if ok then AssignPassed else AssignBroken) && run.err == (if ok then None else Some(AssignFailed))
      ensures issued <= old(issued) + 2
      ensures old(issued) < issued && Failures(path, world, old(issued), issued - 1) == 0
      ensures ok <==> !FailedAt(path, world, issued - 1)
      ensures again <==> !ok && attempt < attempts && world.retryable(issued - 1)
      ensures again ==> tries == attempt
    {
      var affected;
      affected, again := InsertAssign(order, driver, attempt);
      ok := affected.Some? && affected.value > 0;
      if affected == Some(0) {
        ok, again := ConfirmAssign(order, driver, attempt);
      }
    }

    method ConfirmAssign(order: string, driver: string, attempt: int) returns (ok: bool, again: bool)
      requires Valid() && run.pc == AssignLookup && run.order == order && run.driver == driver && run.err == None
      requires tries == attempt
      modifies this`issued, this`run, this`tries, this`path, db
      ensures Valid() && old(path) <= path && SamePlan(old(run), run)
      ensures again ==> run.pc == Assigning && run.err == None
      ensures !again ==> run.pc == Log(if ok then AssignPassed else AssignBroken) && run.err == (if ok then None else Some(AssignFailed))
      ensures issued == old(issued) + 1
      ensures ok <==> !FailedAt(path, world, issued - 1)
      ensures again <==> !ok && attempt < attempts && world.retryable(issued - 1)
      ensures again ==> tries == attempt
    {
      ghost var prior := db.View();
      var fault := Issue();
      assert path[issued] == Course(prior, run, tries);
      var err := drivers.Confirm(order, driver, fault);
      ok := err == None;
      again := !ok && Again(attempt, world.retryable(issued));
      issued := issued + 1;
      TookConfirm(prior, again, ok);
    }

    /** The driver client's `Assign`, retried by its policy. */
    method Assign(order: string, driver: string) returns (ok: bool, ghost made: int)
      requires Valid() && run.pc == Assigning && run.order == order && run.driver == driver && run.err == None
      requires tries == 0
      modifies this`issued, this`run, this`tries, this`path, db
      ensures Valid() && old(path) <= path && SamePlan(old(run), run)
      ensures run.pc == Log(if ok then AssignPassed else AssignBroken)
      ensures run.err == if ok then None else Some(AssignFailed)
      ensures issued <= old(issued) + 2 * Max(1, attempts)
      ensures Answered(path, world, attempts, old(issued), issued, made, ok)
    {
      var attempt, again := 1, true;
      ok := false;
      while again
        invariant Valid() && old(path) <= path && SamePlan(old(run), run)
        invariant again ==> run.pc == Assigning && run.err == None
        invariant !again ==> run.pc == Log(if ok then AssignPassed else AssignBroken) && run.err == (if ok then None else Some(AssignFailed))
        invariant 1 <= attempt && issued <= old(issued) + 2 * (attempt - 1)
        invariant again ==> tries == attempt - 1 && Underway(path, world, attempts, old(issued), issued, attempt)
        invariant !again ==> Answered(path, world, attempts, old(issued), issued, attempt - 1, ok)
        decreases again, attempts - attempt
      {
        ghost var start, sofar := issued, path;
        ok, again := TryAssign(order, driver, attempt);
        OneMoreAttempt(sofar, path, world, attempts, old(issued), start, issued, attempt, ok, again);
        attempt := attempt + 1;
      }
      made := attempt - 1;
    }

    /** The UPDATE of a refund attempt. */
    method MarkRefund(order: string, amount: real, attempt: int) returns (affected: Option<nat>, again: bool)
      requires Valid() && run.pc == Refunding && run.order == order && run.req.amount == amount && run.err == Some(AssignFailed)
      requires tries == attempt - 1
      modifies this`issued, this`run, this`tries, this`path, db
      ensures Valid() && old(path) <= path && SamePlan(old(run), run)
      ensures affected in {None, Some(0), Some(1)}
      ensures run.pc == if affected == Some(1) then Log(RefundPassed) else if affected == Some(0) then RefundLookup
                        else if again then Refunding else Log(RefundBroken)
      ensures run.err == if affected.Some? || again then Some(AssignFailed) else Some(RefundFailed)
      ensures issued == old(issued) + 1
      ensures affected.Some? <==> !FailedAt(path, world, issued - 1)
      ensures again <==> affected.None? && attempt < attempts && world.retryable(issued - 1)
      ensures InCall(run) ==> tries == attempt
    {
      ghost var prior := db.View();
      var fault := Issue();
      assert path[issued] == Course(prior, run, tries);
      affected := payments.MarkRefunded(order, amount, fault);
      again := affected.None? && Again(attempt, world.retryable(issued));
      issued := issued + 1;
      TookRefund(prior, again, affected);
    }

    /** One attempt at the refund: an UPDATE, and after an update of no row a SELECT. */
    method TryRefund(order: string, amount: real, attempt: int) returns (ok: bool, again: bool)
      requires Valid() && run.pc == Refunding && run.order == order && run.req.amount == amount && run.err == Some(AssignFailed)
      requires tries == attempt - 1
      modifies this`issued, this`run, this`tries, this`path, db
      ensures Valid() && old(path) <= path && SamePlan(old(run), run)
      ensures again ==> run.pc == Refunding && run.err == Some(AssignFailed)
      ensures !again ==> run.pc == Log(if ok then RefundPassed else RefundBroken) && run.err == (if ok then Some(AssignFailed) else Some(RefundFailed))
      ensures issued <= old(issued) + 2
      ensures old(issued) < issued && Failures(path, world, old(issued), issued - 1) == 0
      ensures ok <==> !FailedAt(path, world, issued - 1)
      ensures again <==> !ok && attempt < attempts && world.retryable(issued - 1)
      ensures again ==> tries == attempt
    {
      var affected;
      affected, again := MarkRefund(order, amount, attempt);
      ok := affected.Some? && affected.value > 0;
      if affected == Some(0) {
        again := ExplainRefund(order, attempt);
      }
    }

    method ExplainRefund(order: string, attempt: int) returns (again: bool)
      requires Valid() && run.pc == RefundLookup && run.order == order && run.err == Some(AssignFailed)
      requires tries == attempt
      modifies this`issued, this`run, this`tries, this`path, db
      ensures Valid() && old(path) <= path && SamePlan(old(run), run)
      ensures again ==> run.pc == Refunding && run.err == Some(AssignFailed)
      ensures !again ==> run.pc == Log(RefundBroken) && run.err == Some(RefundFailed)
      ensures issued == old(issued) + 1
      ensures FailedAt(path, world, issued - 1)
      ensures again <==> attempt < attempts && world.retryable(issued - 1)
      ensures again ==> tries == attempt
    {
      ghost var prior := db.View();
      var fault := Issue();
      assert path[issued] == Course(prior, run, tries);
      var _ := payments.WhyNotRefunded(order, fault);
      again := Again(attempt, world.retryable(issued));
      issued := issued + 1;
      TookExplain(prior, again);
    }

    /** The payment client's `Refund`, retried by its policy. */
    method Refund(order: string, amount: real) returns (ok: bool, ghost made: int)
      requires Valid() && run.pc == Refunding && run.order == order && run.req.amount == amount && run.err == Some(AssignFailed)
      requires tries == 0
      modifies this`issued, this`run, this`tries, this`path, db
      ensures Valid() && old(path) <= path && SamePlan(old(run), run)
      ensures run.pc == Log(if ok then RefundPassed else RefundBroken)
      ensures run.err == if ok then Some(AssignFailed) else Some(RefundFailed)
      ensures issued <= old(issued) + 2 * Max(1, attempts)
      ensures Answered(path, world, attempts, old(issued), issued, made, ok)
    {
      var attempt, again := 1, true;
      ok := false;
      while again
        invariant Valid() && old(path) <= path && SamePlan(old(run), run)
        invariant again ==> run.pc == Refunding && run.err == Some(AssignFailed)
        invariant !again ==> run.pc == Log(if ok then RefundPassed else RefundBroken) && run.err == (if ok then Some(AssignFailed) else Some(RefundFailed))
        invariant 1 <= attempt && issued <= old(issued) + 2 * (attempt - 1)
        invariant again ==> tries == attempt - 1 && Underway(path, world, attempts, old(issued), issued, attempt)
        invariant !again ==> Answered(path, world, attempts, old(issued), issued, attempt - 1, ok)
        decreases again, attempts - attempt
      {
        ghost var start, sofar := issued, path;
        ok, again := TryRefund(order, amount, attempt);
        OneMoreAttempt(sofar, path, world, attempts, old(issued), start, issued, attempt, ok, again);
        attempt := attempt + 1;
      }
      made := attempt - 1;
    }

    /** The INSERT of the saga row. */
    method InsertRow(key: string, order: string, user: string, amount: real) returns (affected: Option<nat>)
      requires Valid() && run.pc == Insert && run.order == order && run.req == Request(key, user, amount) && run.err == None
      modifies this`issued, this`run, this`tries, this`path, db
      ensures Valid() && old(path) <= path && SamePlan(old(run), run) && run.err == None
      ensures run.pc == if affected == None then Done(Response("", Some(StartFailed))) else Lookup(affected == Some(1))
      ensures issued == old(issued) + 1
    {
      ghost var prior := db.View();
      var fault := Issue();
      assert path[issued] == Course(prior, run, tries);
      affected := sagas.Insert(key, order, user, amount, fault);
      issued := issued + 1;
      TookInsert(prior, affected);
    }

    /** `Start`: the INSERT and the SELECT, with the answer a replay or an error gets. */
    method Start(key: string, order: string, user: string, amount: real)
      returns (created: bool, answer: Response)
      requires Valid() && run.pc == Insert && run.order == order && run.req == Request(key, user, amount) && run.err == None
      modifies this`issued, this`run, this`tries, this`path, db
      ensures Valid() && old(path) <= path && SamePlan(old(run), run) && run.err == None
      ensures run.pc == if created then Log(ChargeBegun) else Done(answer)
      ensures issued <= old(issued) + 2
    {
      var affected := InsertRow(key, order, user, amount);
      if affected == None { return false, Response("", Some(StartFailed)); }
      created, answer := Look(key, user, amount, affected == Some(1));
    }

    method Look(key: string, user: string, amount: real, inserted: bool) returns (created: bool, answer: Response)
      requires Valid() && run.pc == Lookup(inserted) && run.req == Request(key, user, amount) && run.err == None
      modifies this`issued, this`run, this`tries, this`path, db
      ensures Valid() && old(path) <= path && SamePlan(old(run), run) && run.err == None
      ensures run.pc == if created then Log(ChargeBegun) else Done(answer)
      ensures issued == old(issued) + 1
    {
      ghost var prior := db.View();
      var fault := Issue();
      assert path[issued] == Course(prior, run, tries);
      var found, err := sagas.Find(key, user, amount, fault);
      issued := issued + 1;
      Took(prior, false);
      created := false;
      if err != None {
        answer := Response("", Some(match err.value
                                    case DbError => StartFailed
                                    case NoSaga => NotFound
                                    case PayloadConflict => Conflict));
      } else {
        var (order, row) := found.value;
        created := inserted;
        answer := Response(order, if row.status == Succeeded then None else Some(AlreadyProcessed(row.status)));
      }
    }

    /** The refund, settled as refunded or failed. */
    method GiveBack(order: string, amount: real) returns (answer: Response)
      requires Valid() && run.pc == Refunding && run.order == order && run.req.amount == amount
      requires run.err == Some(AssignFailed)
      requires tries == 0
      modifies this`issued, this`run, this`tries, this`path, db
      ensures Valid() && old(path) <= path && run.pc == Done(answer)
      ensures issued <= old(issued) + 2 + 2 * Max(1, attempts)
    {
      var ok, _ := Refund(order, amount);
      if !ok {
        Settle(order, RefundBroken, Failed);
        return Response("", Some(RefundFailed));
      }
      Settle(order, RefundPassed, Refunded);
      return Response("", Some(AssignFailed));
    }

    /** After a failed assignment: log it, and give the charge back. */
    method Compensate(order: string, amount: real) returns (answer: Response)
      requires Valid() && run.pc == Log(AssignBroken) && run.order == order && run.req.amount == amount
      requires run.err == Some(AssignFailed)
      modifies this`issued, this`run, this`tries, this`path, db
      ensures Valid() && old(path) <= path && run.pc == Done(answer)
      ensures issued <= old(issued) + 4 + 2 * Max(1, attempts)
    {
      AddStep(order, AssignBroken);
      AddStep(order, RefundBegun);
      answer := GiveBack(order, amount);
    }

    /** From a charge on: assign, and compensate if the assignment fails. */
    method Deliver(order: string, driver: string, amount: real) returns (answer: Response)
      requires Valid() && run.pc == Log(ChargePassed) && run.order == order && run.driver == driver
      requires run.req.amount == amount && run.err == None
      modifies this`issued, this`run, this`tries, this`path, db
      ensures Valid() && old(path) <= path && run.pc == Done(answer)
      ensures issued <= old(issued) + 6 + 4 * Max(1, attempts)
    {
      AddStep(order, ChargePassed);
      AddStep(order, AssignBegun);
      var ok, _ := Assign(order, driver);
      if !ok {
        answer := Compensate(order, amount);
        return answer;
      }
      Settle(order, AssignPassed, Succeeded);
      return Response(order, None);
    }

    /** From the start on: charge, and deliver if that succeeds. */
    method Carry(order: string, driver: string, amount: real) returns (answer: Response)
      requires Valid() && run.pc == Log(ChargeBegun) && run.order == order && run.driver == driver
      requires run.req.amount == amount && run.err == None
      modifies this`issued, this`run, this`tries, this`path, db
      ensures Valid() && old(path) <= path && run.pc == Done(answer)
      ensures issued <= old(issued) + 7 + 5 * Max(1, attempts)
    {
      AddStep(order, ChargeBegun);
      var ok := Charge(order, amount);
      if !ok {
        Settle(order, ChargeBroken, Failed);
        return Response("", Some(ChargeFailed));
      }
      answer := Deliver(order, driver, amount);
    }

    /** The whole saga. `order` and `driver` are what the generators return. The answer
        and the tables left behind are those of one run of the transition system, and the
        number of statements is bounded. */
    method CreateOrder(user: string, amount: real, key: string, order: string, driver: string)
      returns (answer: Response)
      requires Wired()
      modifies this, db
      ensures IsPath(path, world, attempts) && |path| == issued + 1
      ensures path[0] == Course(old(db.View()), NewRun(Request(key, user, amount), order, driver), 0)
      ensures path[issued].t == db.View() && path[issued].r.pc == Done(answer)
      ensures issued <= 9 + 5 * Max(1, attempts)
      ensures key == "" ==> answer == Response("", Some(KeyRequired)) && db.View() == old(db.View())
    {
      issued, tries := 0, 0;
      run := NewRun(Request(key, user, amount), order, driver);
      path := [Course(db.View(), run, 0)];
      if key == "" { return Response("", Some(KeyRequired)); }

      var created;
      created, answer := Start(key, order, user, amount);
      if created {
        answer := Carry(order, driver, amount);
      }
    }
  }
}
