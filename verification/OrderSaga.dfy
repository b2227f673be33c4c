/** `CreateOrder` as a transition system: any number of runs, one SQL statement per
    step, in any order, with an adversary deciding which statements fail and how. */
module OrderSaga {
  import opened Common
  import opened OrderTables

  /** `Clean`: the statement failed and changed nothing (this also covers a call
      stopped before the database by the limiter, the breaker or the context).
      `Ambiguous`: the statement took effect, yet an error was reported. */
  datatype Fault = Okay | Clean | Ambiguous

  /** One step's adversary: the fault of the statement, and whether the reliable
      client retries if the attempt fails. */
  datatype Choice = Choice(fault: Fault, retry: bool)

  datatype Request = Request(key: string, user: string, amount: real)

  datatype Error =
    | KeyRequired
    | Conflict
    | StartFailed
    | NotFound
    | AlreadyProcessed(status: Status)
    | ChargeFailed
    | AssignFailed
    | RefundFailed

  datatype Response = Response(order: string, err: Option<Error>)

  /** The next statement of a run. `Log(e)` is about to append entry `e`. */
  datatype Pc =
    | Insert
    | Lookup(inserted: bool)
    | Log(entry: Entry)
    | Charging
    | Assigning
    | AssignLookup
    | Refunding
    | RefundLookup
    | Write(status: Status)
    | Done(response: Response)

  /** `err` is the error the run will answer with. The other flags are history: this run's
      INSERT created the saga row; one of its log or status writes was lost; its charge,
      assignment or refund took effect at an attempt that reported an error. */
  datatype Run = Run(
    req: Request, order: string, driver: string, pc: Pc, err: Option<Error>,
    created: bool, lostLog: bool, lostStatus: bool,
    hidCharge: bool, hidAssign: bool, hidRefund: bool)
  {
    predicate NothingHidden() { !hidCharge && !hidAssign && !hidRefund }
  }

  function NewRun(req: Request, order: string, driver: string): Run {
    Run(req, order, driver,
        if req.key == "" then Done(Response("", Some(KeyRequired))) else Insert,
        None, false, false, false, false, false, false)
  }

  /** The statement after a log write. */
  function AfterLog(e: Entry): Pc {
    match e
    case ChargeBegun => Charging
    case ChargeBroken => Write(Failed)
    case ChargePassed => Log(AssignBegun)
    case AssignBegun => Assigning
    case AssignPassed => Write(Succeeded)
    case AssignBroken => Log(RefundBegun)
    case RefundBegun => Refunding
    case RefundPassed => Write(Refunded)
    case RefundBroken => Write(Failed)
  }

  /** What no step of a run ever changes. */
  ghost predicate SamePlan(r: Run, r': Run) {
    r'.req == r.req && r'.order == r.order && r'.driver == r.driver
  }

  /** Neither a log nor a status write was lost in going from `r` to `r'`. */
  ghost predicate NothingLost(r: Run, r': Run) {
    r'.lostLog == r.lostLog && r'.lostStatus == r.lostStatus
  }

  /** From `r` to `r'` only an effect of the statement at `at` may have been hidden. */
  ghost predicate HidesOnly(r: Run, r': Run, at: Pc) {
    && (at.Charging? || r'.hidCharge == r.hidCharge)
    && (at.Assigning? || r'.hidAssign == r.hidAssign)
    && (at.Refunding? || r'.hidRefund == r.hidRefund)
  }

  /** A client call whose attempt failed: retry it, or log the failure and give up. */
  function Give(r: Run, retry: bool, again: Pc, logged: Entry, err: Error): (r': Run)
    ensures SamePlan(r, r') && NothingLost(r, r') && r'.created == r.created
    ensures HidesOnly(r, r', Insert)
  {
    if retry then r.(pc := again)
    else r.(pc := Log(logged), err := Some(err))
  }

  /** What `Start` returns after its SELECT, and what `CreateOrder` does with it. */
  function AfterLookup(r: Run, inserted: bool, found: Option<(string, SagaRow)>): Pc {
    match found
    case None => Done(Response("", Some(NotFound)))
    case Some((order, row)) =>
      if row.user != r.req.user || row.amount != r.req.amount then Done(Response("", Some(Conflict)))
      else if inserted then Log(ChargeBegun)
      else if row.status == Succeeded then Done(Response(order, None))
      else Done(Response(order, Some(AlreadyProcessed(row.status))))
  }

  /** What the statement `r` stands at does to the tables, if it takes effect.
      The clients refuse an empty order or driver id before any statement. */
  function Commit(t: Tables, r: Run): Tables {
    match r.pc
    case Insert => InsertSaga(t, r.order, r.req.key, r.req.user, r.req.amount).0
    case Log(e) => AppendStep(t, r.order, e)
    case Charging => if r.order == "" then t else InsertPayment(t, r.order, r.req.amount).0
    case Assigning => if r.order == "" || r.driver == "" then t else InsertAssignment(t, r.order, r.driver).0
    case Refunding => if r.order == "" then t else UpdateRefund(t, r.order, r.req.amount).0
    case Write(status) => SetStatus(t, r.order, status)
    case _ => t
  }

  /** `INSERT` into the sagas, as far as the run can see. */
  function AfterInsert(t: Tables, r: Run, fault: Fault): (r': Run)
    ensures SamePlan(r, r') && NothingLost(r, r')
    ensures HidesOnly(r, r', Insert)
  {
    var res := InsertSaga(t, r.order, r.req.key, r.req.user, r.req.amount).1;
    var failed := Done(Response("", Some(StartFailed)));
    if fault.Clean? then r.(pc := failed)
    else
      r.(created := res.Inserted?,
         pc := if fault.Ambiguous? || res.Violation? then failed else Lookup(res.Inserted?))
  }

  /** One attempt at a charge. */
  function AfterCharge(t: Tables, r: Run, c: Choice): (r': Run)
    ensures SamePlan(r, r') && NothingLost(r, r') && r'.created == r.created
    ensures HidesOnly(r, r', Charging)
  {
    var paid := r.order != "" && InsertPayment(t, r.order, r.req.amount).1;
    var r1 := if c.fault.Ambiguous? && paid then r.(hidCharge := true) else r;
    if c.fault.Okay? && paid then r1.(pc := Log(ChargePassed))
    else Give(r1, c.retry, Charging, ChargeBroken, ChargeFailed)
  }

  /** One attempt at an assignment; a conflict is settled by a second statement. */
  function AfterAssign(t: Tables, r: Run, c: Choice): (r': Run)
    ensures SamePlan(r, r') && NothingLost(r, r') && r'.created == r.created
    ensures HidesOnly(r, r', Assigning)
  {
    var res := InsertAssignment(t, r.order, r.driver).1;
    var asked := r.order != "" && r.driver != "";
    var r1 := if asked && c.fault.Ambiguous? && res.Inserted? then r.(hidAssign := true) else r;
    if !asked || !c.fault.Okay? || res.Violation? then Give(r1, c.retry, Assigning, AssignBroken, AssignFailed)
    else r1.(pc := if res.Inserted? then Log(AssignPassed) else AssignLookup)
  }

  /** The read after a conflict: the same driver is a success, another is an error. */
  function AfterAssignLookup(t: Tables, r: Run, c: Choice): (r': Run)
    ensures SamePlan(r, r') && NothingLost(r, r') && r'.created == r.created
    ensures HidesOnly(r, r', AssignLookup)
  {
    if c.fault.Okay? && r.order in t.assignments && t.assignments[r.order] == r.driver
    then r.(pc := Log(AssignPassed))
    else Give(r, c.retry, Assigning, AssignBroken, AssignFailed)
  }

  /** One attempt at a refund; an update of no row is followed by a read that only
      decides which error is reported. */
  function AfterRefund(t: Tables, r: Run, c: Choice): (r': Run)
    ensures SamePlan(r, r') && NothingLost(r, r') && r'.created == r.created
    ensures HidesOnly(r, r', Refunding)
  {
    var asked := r.order != "";
    var returned := asked && UpdateRefund(t, r.order, r.req.amount).1;
    var r1 := if c.fault.Ambiguous? && returned then r.(hidRefund := true) else r;
    if !asked || !c.fault.Okay? then Give(r1, c.retry, Refunding, RefundBroken, RefundFailed)
    else r1.(pc := if returned then Log(RefundPassed) else RefundLookup)
  }

  /** How `r` goes on once the statement has reported back; `t` is what it ran on. */
  function Resume(t: Tables, r: Run, c: Choice): (r': Run)
    ensures SamePlan(r, r') && (r'.created == r.created || r.pc.Insert?)
  {
    match r.pc
    case Insert => AfterInsert(t, r, c.fault)
    case Lookup(inserted) =>
      r.(pc := if c.fault.Okay? then AfterLookup(r, inserted, SelectSaga(t, r.req.key))
               else Done(Response("", Some(StartFailed))))
    case Log(e) => r.(pc := AfterLog(e), lostLog := r.lostLog || c.fault.Clean?)
    case Charging => AfterCharge(t, r, c)
    case Assigning => AfterAssign(t, r, c)
    case AssignLookup => AfterAssignLookup(t, r, c)
    case Refunding => AfterRefund(t, r, c)
    case RefundLookup => Give(r, c.retry, Refunding, RefundBroken, RefundFailed)
    case Write(_) =>
      r.(pc := Done(Response(if r.err.None? then r.order else "", r.err)),
         lostStatus := r.lostStatus || c.fault.Clean?)
    case Done(_) => r
  }

  /** One atomic step of a run. */
  function RunStep(t: Tables, r: Run, c: Choice): (Tables, Run) {
    (if c.fault.Clean? then t else Commit(t, r), Resume(t, r, c))
  }

  // ----- the system -----

  /** An effective movement of money, in commit order. */
  datatype Movement = Charged(order: string, amount: real) | Returned(order: string, amount: real)

  /** `orders` lists the created orders in commit order, `creator` the run that made
      each, and `ledger` every committed movement; all three are history. */
  datatype System = System(
    tables: Tables, runs: map<nat, Run>,
    orders: seq<string>, creator: map<string, nat>, ledger: seq<Movement>)

  datatype Action =
    | Begin(id: nat, req: Request, order: string, driver: string)
    | Step(id: nat, choice: Choice)

  const INIT := System(EMPTY, map[], [], map[], [])

  /** The movement that a statement on `order` committed, read off the two table states. */
  function Moved(t: Tables, t': Tables, order: string): seq<Movement> {
    if order !in t'.payments then []
    else if order !in t.payments then [Charged(order, t'.payments[order].amount)]
    else if t.payments[order].refund.None? && t'.payments[order].refund.Some?
    then [Returned(order, t'.payments[order].refund.value)]
    else []
  }

  function Next(s: System, a: Action): System {
    match a
    case Begin(id, req, order, driver) =>
      if id in s.runs then s else s.(runs := s.runs[id := NewRun(req, order, driver)])
    case Step(id, choice) =>
      if id !in s.runs then s
      else
        var r := s.runs[id];
        var (t', r') := RunStep(s.tables, r, choice);
        System(t', s.runs[id := r'],
               if r'.created && !r.created then s.orders + [r.order] else s.orders,
               if r'.created && !r.created then s.creator[r.order := id] else s.creator,
               s.ledger + Moved(s.tables, t', r.order))
  }

  /** A run of the whole system: any list of actions from the empty database. */
  function Exec(s: System, actions: seq<Action>): System
    decreases |actions|
  {
    if actions == [] then s else Exec(Next(s, actions[0]), actions[1..])
  }
}
