/** The inductive invariant of the order saga, under ambiguous failures. */
module OrderSagaInvariant {
  import opened Common
  import opened OrderTables
  import opened OrderSaga

  // ----- the four traces a finished order can leave -----

  const CHARGE_BEGUN := Then(Nothing, ChargeBegun)
  const CHARGE_FAILED := Then(CHARGE_BEGUN, ChargeBroken)
  const CHARGED := Then(CHARGE_BEGUN, ChargePassed)
  const ASSIGN_BEGUN := Then(CHARGED, AssignBegun)
  const ASSIGNED := Then(ASSIGN_BEGUN, AssignPassed)
  const ASSIGN_FAILED := Then(ASSIGN_BEGUN, AssignBroken)
  const REFUND_BEGUN := Then(ASSIGN_FAILED, RefundBegun)
  const REFUNDED := Then(REFUND_BEGUN, RefundPassed)
  const REFUND_FAILED := Then(REFUND_BEGUN, RefundBroken)

  /** What the money of an order may be. */
  datatype Stage = Uncharged | MaybeCharged | Held | MaybeReturned | GaveBack

  /** Whether an order has its driver. */
  datatype Hold = Free | MaybeTaken | Taken

  /** What is known of an order whose creating run stands at some `pc`: the log entries
      attempted, the error met, and how far money and driver have gone. */
  datatype Milestone = Milestone(trace: Trace, err: Option<Error>, money: Stage, hold: Hold)

  function AtEntry(e: Entry): Milestone {
    match e
    case ChargeBegun => Milestone(Nothing, None, Uncharged, Free)
    case ChargePassed => Milestone(CHARGE_BEGUN, None, Held, Free)
    case ChargeBroken => Milestone(CHARGE_BEGUN, Some(ChargeFailed), MaybeCharged, Free)
    case AssignBegun => Milestone(CHARGED, None, Held, Free)
    case AssignPassed => Milestone(ASSIGN_BEGUN, None, Held, Taken)
    case AssignBroken => Milestone(ASSIGN_BEGUN, Some(AssignFailed), Held, MaybeTaken)
    case RefundBegun => Milestone(ASSIGN_FAILED, Some(AssignFailed), Held, MaybeTaken)
    case RefundPassed => Milestone(REFUND_BEGUN, Some(AssignFailed), GaveBack, MaybeTaken)
    case RefundBroken => Milestone(REFUND_BEGUN, Some(RefundFailed), MaybeReturned, MaybeTaken)
  }

  function AtEnd(err: Option<Error>): Milestone {
    match err
    case None => Milestone(ASSIGNED, err, Held, Taken)
    case Some(ChargeFailed) => Milestone(CHARGE_FAILED, err, MaybeCharged, Free)
    case Some(AssignFailed) => Milestone(REFUNDED, err, GaveBack, MaybeTaken)
    case Some(RefundFailed) => Milestone(REFUND_FAILED, err, MaybeReturned, MaybeTaken)
    case Some(_) => Milestone(Nothing, err, Uncharged, Free)
  }

  function At(pc: Pc, err: Option<Error>): Milestone {
    match pc
    case Insert => Milestone(Nothing, None, Uncharged, Free)
    case Lookup(_) => Milestone(Nothing, None, Uncharged, Free)
    case Log(e) => AtEntry(e)
    case Charging => Milestone(CHARGE_BEGUN, None, MaybeCharged, Free)
    case Assigning => Milestone(ASSIGN_BEGUN, None, Held, MaybeTaken)
    case AssignLookup => Milestone(ASSIGN_BEGUN, None, Held, MaybeTaken)
    case Refunding => Milestone(REFUND_BEGUN, Some(AssignFailed), MaybeReturned, MaybeTaken)
    case RefundLookup => Milestone(REFUND_BEGUN, Some(AssignFailed), MaybeReturned, MaybeTaken)
    case Write(_) => AtEnd(err)
    case Done(resp) => AtEnd(resp.err)
  }

  function FinalStatus(err: Option<Error>): Status {
    match err
    case None => Succeeded
    case Some(AssignFailed) => Refunded
    case Some(ChargeFailed) => Failed
    case Some(RefundFailed) => Failed
    case Some(_) => Started
  }

  /** `a` is obtained from `b` by leaving entries out. */
  ghost predicate Subsequence(a: Trace, b: Trace) {
    a == Nothing ||
    (b.Then? &&
     (Subsequence(a, b.before) || (a.last == b.last && Subsequence(a.before, b.before))))
  }

  // ----- what one created run knows about its own rows -----

  ghost predicate Money(stage: Stage, t: Tables, r: Run) {
    match stage
    case Uncharged => r.order !in t.payments && !r.hidCharge && !r.hidRefund
    case MaybeCharged =>
      && (r.order in t.payments <==> r.hidCharge) && !r.hidRefund
      && (r.hidCharge ==> t.payments[r.order] == Payment(r.req.amount, None))
    case Held =>
      && r.order in t.payments && t.payments[r.order] == Payment(r.req.amount, None)
      && !r.hidCharge && !r.hidRefund
    case MaybeReturned =>
      && r.order in t.payments && !r.hidCharge
      && t.payments[r.order] == Payment(r.req.amount, if r.hidRefund then Some(r.req.amount) else None)
    case GaveBack =>
      && r.order in t.payments && t.payments[r.order] == Payment(r.req.amount, Some(r.req.amount))
      && !r.hidCharge && !r.hidRefund
  }

  ghost predicate Drive(hold: Hold, t: Tables, r: Run) {
    match hold
    case Free => r.order !in t.assignments && !r.hidAssign
    case MaybeTaken => (r.order in t.assignments <==> r.hidAssign) && (r.hidAssign ==> t.assignments[r.order] == r.driver)
    case Taken => r.order in t.assignments && t.assignments[r.order] == r.driver
  }

  /** The answers of a run that got past `Start`. */
  predicate Final(err: Option<Error>) {
    err.None? || err.value.ChargeFailed? || err.value.AssignFailed? || err.value.RefundFailed?
  }

  /** The error and the answer of a created run fit its `pc`. */
  ghost predicate Shape(r: Run) {
    match r.pc
    case Insert => false
    case Lookup(inserted) => inserted && r.err.None?
    case Write(status) => Final(r.err) && status == FinalStatus(r.err)
    case Done(resp) =>
      && (Final(resp.err) || resp.err.value.StartFailed?)
      && resp.order == (if resp.err.None? then r.order else "")
    case _ => r.err == At(r.pc, r.err).err
  }

  /** The saga row of an order while its creating run `r` is where it is. */
  ghost predicate OwnRow(row: SagaRow, r: Run) {
    && row.key == r.req.key && row.user == r.req.user && row.amount == r.req.amount
    && row.status == (if r.pc.Done? && !r.lostStatus then FinalStatus(r.pc.response.err) else Started)
    && (!r.pc.Done? ==> !r.lostStatus)
  }

  /** The log of an order is what its creating run attempted, less the lost writes. */
  ghost predicate OwnLog(t: Tables, r: Run) {
    && Subsequence(Project(t.log, r.order), At(r.pc, r.err).trace)
    && (!r.lostLog ==> Project(t.log, r.order) == At(r.pc, r.err).trace)
  }

  /** What a creating run knows of the rows of its order. */
  ghost predicate Knows(t: Tables, r: Run) {
    && r.created && r.req.key != "" && r.order in t.sagas
    && Shape(r)
    && OwnRow(t.sagas[r.order], r)
    && Money(At(r.pc, r.err).money, t, r)
    && Drive(At(r.pc, r.err).hold, t, r)
  }

  /** `r` created its order and everything recorded about the order is its doing. */
  ghost predicate Owns(t: Tables, r: Run) {
    Knows(t, r) && OwnLog(t, r)
  }

  /** A run that created nothing. */
  ghost predicate Bystander(t: Tables, r: Run) {
    && r.err == None && !r.lostStatus && r.NothingHidden()
    && (r.req.key == "" ==> r.pc == Done(Response("", Some(KeyRequired))))
    && (r.pc.Done? && r.pc.response.err.Some? && !r.pc.response.err.value.AlreadyProcessed? ==> r.pc.response.order == "")
    && match r.pc
       case Insert => r.req.key != ""
       case Lookup(inserted) => !inserted && r.req.key in t.keyIndex
       case Done(resp) =>
         (match resp.err
          case None =>
            && resp.order in t.sagas
            && t.sagas[resp.order] == SagaRow(r.req.key, r.req.user, r.req.amount, Succeeded)
          case Some(AlreadyProcessed(status)) =>
            && status != Succeeded
            && resp.order in t.sagas
            && t.sagas[resp.order].key == r.req.key
            && t.sagas[resp.order].user == r.req.user && t.sagas[resp.order].amount == r.req.amount
          case Some(Conflict) =>
            && r.req.key in t.keyIndex && t.keyIndex[r.req.key] in t.sagas
            && var row := t.sagas[t.keyIndex[r.req.key]]; row.user != r.req.user || row.amount != r.req.amount
          case Some(KeyRequired) => r.req.key == ""
          case Some(StartFailed) => true
          case Some(_) => false)
       case _ => false
  }

  /** The unique index agrees with the table it indexes. */
  ghost predicate Indexed(t: Tables) {
    && (forall k :: k in t.keyIndex ==> t.keyIndex[k] in t.sagas && t.sagas[t.keyIndex[k]].key == k)
    && (forall o :: o in t.sagas ==> t.sagas[o].key in t.keyIndex && t.keyIndex[t.sagas[o].key] == o)
  }

  /** Rows about an order exist only beside its saga row. */
  ghost predicate Anchored(t: Tables) {
    forall o :: o !in t.sagas ==> o !in t.payments && o !in t.assignments && Project(t.log, o) == Nothing
  }

  ghost predicate Owned(s: System) {
    && (forall o :: o in s.tables.sagas <==> o in s.creator)
    && (forall o :: o in s.creator ==> s.creator[o] in s.runs && s.runs[s.creator[o]].created && s.runs[s.creator[o]].order == o)
    && (forall id :: id in s.runs && s.runs[id].created ==> s.runs[id].order in s.creator && s.creator[s.runs[id].order] == id)
  }

  ghost predicate RunsOk(s: System)
    requires Owned(s)
  {
    forall id :: id in s.runs ==>
      if s.runs[id].created then Owns(s.tables, s.runs[id]) else Bystander(s.tables, s.runs[id])
  }

  ghost predicate Inv(s: System) {
    Indexed(s.tables) && Anchored(s.tables) && Owned(s) && RunsOk(s)
  }

  // ----- one step -----

  /** Saga rows are only added, and change only their status, from `Started`. */
  ghost predicate RowsGrow(t: Tables, t': Tables) {
    && (forall k :: k in t.keyIndex ==> k in t'.keyIndex && t'.keyIndex[k] == t.keyIndex[k])
    && (forall o :: o in t.sagas ==>
          && o in t'.sagas
          && t'.sagas[o].(status := t.sagas[o].status) == t.sagas[o]
          && (t'.sagas[o].status == t.sagas[o].status || t.sagas[o].status == Started))
  }

  /** Everything the tables say about `order` is the same in both. */
  ghost predicate SameRows(t: Tables, t': Tables, order: string) {
    && (order in t.sagas <==> order in t'.sagas)
    && (order in t.sagas ==> t'.sagas[order] == t.sagas[order])
    && (order in t.payments <==> order in t'.payments)
    && (order in t.payments ==> t'.payments[order] == t.payments[order])
    && (order in t.assignments <==> order in t'.assignments)
    && (order in t.assignments ==> t'.assignments[order] == t.assignments[order])
    && Project(t'.log, order) == Project(t.log, order)
  }

  lemma {:induction false} CommitElsewhere(t: Tables, r: Run, other: string)
    requires other != r.order
    ensures SameRows(t, Commit(t, r), other)
  {
    if r.pc.Log? {
      ProjectAppend(t.log, LogRow(r.order, r.pc.entry), other);
    }
  }

  lemma {:induction false} LookupOwn(t: Tables, r: Run, c: Choice)
    requires Owns(t, r) && Indexed(t) && r.pc.Lookup?
    ensures Owns(t, Resume(t, r, c))
  {
  }

  /** Logging `e` adds it to the trace and loses no knowledge that was exact. */
  lemma {:induction false} AfterLogAt(e: Entry)
    ensures var m, m' := AtEntry(e), At(AfterLog(e), AtEntry(e).err);
            && m'.trace == Then(m.trace, e) && m'.err == m.err
            && (m'.money == m.money || (m.money.Uncharged? && m'.money.MaybeCharged?) || (m.money.Held? && m'.money.MaybeReturned?))
            && (m'.hold == m.hold || (m.hold.Free? && m'.hold.MaybeTaken?))
  {
  }

  lemma {:induction false} LogTrace(t: Tables, r: Run)
    requires OwnLog(t, r) && Shape(r) && r.pc.Log? && r.order in t.sagas
    ensures OwnLog(AppendStep(t, r.order, r.pc.entry), r.(pc := AfterLog(r.pc.entry)))
    ensures OwnLog(t, r.(pc := AfterLog(r.pc.entry), lostLog := true))
  {
    AfterLogAt(r.pc.entry);
    ProjectAppend(t.log, LogRow(r.order, r.pc.entry), r.order);
  }

  lemma {:induction false} LogKnows(t: Tables, r: Run, lost: bool)
    requires Knows(t, r) && r.pc.Log?
    ensures Knows(t, r.(pc := AfterLog(r.pc.entry), lostLog := r.lostLog || lost))
  {
    AfterLogAt(r.pc.entry);
  }

  /** A log write, carried out or lost. */
  lemma {:induction false} LogOwn(t: Tables, r: Run, lost: bool)
    requires Owns(t, r) && r.pc.Log?
    ensures Owns(if lost then t else AppendStep(t, r.order, r.pc.entry),
                 r.(pc := AfterLog(r.pc.entry), lostLog := r.lostLog || lost))
  {
    LogTrace(t, r);
    LogKnows(t, r, lost);
  }

  /** A failed attempt that left the tables alone. */
  lemma {:induction false} GiveCharge(t: Tables, r: Run, retry: bool)
    requires Owns(t, r) && r.pc.Charging?
    ensures Owns(t, Give(r, retry, Charging, ChargeBroken, ChargeFailed))
  {
  }

  lemma {:induction false} GiveAssign(t: Tables, r: Run, retry: bool)
    requires Owns(t, r) && (r.pc.Assigning? || r.pc.AssignLookup?)
    ensures Owns(t, Give(r, retry, Assigning, AssignBroken, AssignFailed))
  {
  }

  lemma {:induction false} GiveRefund(t: Tables, r: Run, retry: bool)
    requires Owns(t, r) && (r.pc.Refunding? || r.pc.RefundLookup?)
    ensures Owns(t, Give(r, retry, Refunding, RefundBroken, RefundFailed))
  {
  }

  /** The charge took effect: reported, the order is held; unreported, it is hidden. */
  lemma {:induction false} PaidOwn(t: Tables, r: Run)
    requires Owns(t, r) && r.pc.Charging? && InsertPayment(t, r.order, r.req.amount).1
    ensures var t' := InsertPayment(t, r.order, r.req.amount).0;
            Owns(t', r.(hidCharge := true)) && Owns(t', r.(pc := Log(ChargePassed)))
  {
  }

  lemma {:induction false} TakenOwn(t: Tables, r: Run)
    requires Owns(t, r) && r.pc.Assigning? && InsertAssignment(t, r.order, r.driver).1.Inserted?
    ensures var t' := InsertAssignment(t, r.order, r.driver).0;
            Owns(t', r.(hidAssign := true)) && Owns(t', r.(pc := Log(AssignPassed)))
  {
  }

  lemma {:induction false} GivenBackOwn(t: Tables, r: Run)
    requires Owns(t, r) && r.pc.Refunding? && UpdateRefund(t, r.order, r.req.amount).1
    ensures var t' := UpdateRefund(t, r.order, r.req.amount).0;
            Owns(t', r.(hidRefund := true)) && Owns(t', r.(pc := Log(RefundPassed)))
  {
  }

  lemma {:induction false} WriteOwn(t: Tables, r: Run)
    requires Owns(t, r) && r.pc.Write?
    ensures var r' := r.(pc := Done(Response(if r.err.None? then r.order else "", r.err)));
            Owns(SetStatus(t, r.order, r.pc.status), r') && Owns(t, r'.(lostStatus := true))
  {
  }

  lemma {:induction false} ChargeOwn(t: Tables, r: Run, c: Choice)
    requires Owns(t, r) && r.pc.Charging?
    ensures Owns(if c.fault.Clean? then t else Commit(t, r), AfterCharge(t, r, c))
  {
    if r.order == "" || c.fault.Clean? || r.order in t.payments {
      GiveCharge(t, r, c.retry);
    } else {
      PaidOwn(t, r);
      if c.fault.Ambiguous? {
        GiveCharge(InsertPayment(t, r.order, r.req.amount).0, r.(hidCharge := true), c.retry);
      }
    }
  }

  lemma {:induction false} AssignOwn(t: Tables, r: Run, c: Choice)
    requires Owns(t, r) && r.pc.Assigning?
    ensures Owns(if c.fault.Clean? then t else Commit(t, r), AfterAssign(t, r, c))
  {
    if r.order == "" || r.driver == "" || c.fault.Clean? || r.order in t.assignments {
      GiveAssign(t, r, c.retry);
    } else {
      TakenOwn(t, r);
      if c.fault.Ambiguous? {
        GiveAssign(InsertAssignment(t, r.order, r.driver).0, r.(hidAssign := true), c.retry);
      }
    }
  }

  lemma {:induction false} RefundOwn(t: Tables, r: Run, c: Choice)
    requires Owns(t, r) && r.pc.Refunding?
    ensures Owns(if c.fault.Clean? then t else Commit(t, r), AfterRefund(t, r, c))
  {
    if r.order == "" || c.fault.Clean? || !UpdateRefund(t, r.order, r.req.amount).1 {
      GiveRefund(t, r, c.retry);
    } else {
      GivenBackOwn(t, r);
      if c.fault.Ambiguous? {
        GiveRefund(UpdateRefund(t, r.order, r.req.amount).0, r.(hidRefund := true), c.retry);
      }
    }
  }

  /** A step of a client call. */
  lemma {:induction false} ClientOwn(t: Tables, r: Run, c: Choice)
    requires Owns(t, r) && !r.pc.Lookup? && !r.pc.Log? && !r.pc.Write? && !r.pc.Done?
    ensures Owns(RunStep(t, r, c).0, RunStep(t, r, c).1)
  {
    match r.pc
    case Charging => ChargeOwn(t, r, c);
    case Assigning => AssignOwn(t, r, c);
    case AssignLookup => GiveAssign(t, r, c.retry);
    case Refunding => RefundOwn(t, r, c);
    case RefundLookup => GiveRefund(t, r, c.retry);
  }

  /** Every step of a creating run keeps what it knows about its order. */
  lemma {:induction false} StepOwn(t: Tables, r: Run, c: Choice)
    requires Owns(t, r) && Indexed(t)
    ensures Owns(RunStep(t, r, c).0, RunStep(t, r, c).1)
  {
    match r.pc
    case Lookup(_) => LookupOwn(t, r, c);
    case Log(_) => LogOwn(t, r, c.fault.Clean?);
    case Write(_) => WriteOwn(t, r);
    case Done(_) =>
    case _ => ClientOwn(t, r, c);
  }

  // ----- the whole system -----

  lemma {:induction false} OwnsFrame(t: Tables, t': Tables, r: Run)
    requires Owns(t, r) && SameRows(t, t', r.order)
    ensures Owns(t', r)
  {
  }

  lemma {:induction false} BystanderFrame(t: Tables, t': Tables, r: Run)
    requires Bystander(t, r) && Indexed(t) && RowsGrow(t, t')
    ensures Bystander(t', r)
  {
  }

  lemma {:induction false} BystanderInsert(t: Tables, r: Run, c: Choice)
    requires Bystander(t, r) && !r.created && r.pc.Insert? && Anchored(t)
    ensures var (t', r') := RunStep(t, r, c);
            if r'.created
            then r.order !in t.sagas && r.req.key !in t.keyIndex && Owns(t', r') && t'.sagas.Keys == t.sagas.Keys + {r.order}
            else t' == t && Bystander(t', r')
  {
  }

  lemma {:induction false} BystanderLookup(t: Tables, r: Run, c: Choice)
    requires Bystander(t, r) && !r.created && r.pc.Lookup? && Indexed(t)
    ensures !Resume(t, r, c).created && Bystander(t, Resume(t, r, c))
  {
  }

  /** The step of a run that has created nothing: it creates its order, or it leaves
      the tables alone and still has created nothing. */
  lemma {:induction false} BystanderStep(t: Tables, r: Run, c: Choice)
    requires Bystander(t, r) && !r.created && Indexed(t) && Anchored(t)
    ensures var (t', r') := RunStep(t, r, c);
            if r'.created
            then r.pc.Insert? && r.order !in t.sagas && r.req.key !in t.keyIndex && Owns(t', r') && t'.sagas.Keys == t.sagas.Keys + {r.order}
            else t' == t && Bystander(t', r')
  {
    match r.pc
    case Insert => BystanderInsert(t, r, c);
    case Lookup(_) => BystanderLookup(t, r, c);
    case Done(_) =>
  }

  /** The rows a creating run may change are those of its own order. */
  lemma {:induction false} OwnGrow(t: Tables, r: Run, c: Choice)
    requires Owns(t, r)
    ensures var t' := RunStep(t, r, c).0;
            t'.sagas.Keys == t.sagas.Keys && t'.keyIndex == t.keyIndex && RowsGrow(t, t')
  {
    if !r.pc.Write? {
      assert Commit(t, r).sagas == t.sagas && Commit(t, r).keyIndex == t.keyIndex;
    }
  }

  lemma {:induction false} IndexedFrame(t: Tables, t': Tables)
    requires Indexed(t) && RowsGrow(t, t') && t'.sagas.Keys == t.sagas.Keys && t'.keyIndex == t.keyIndex
    ensures Indexed(t')
  {
  }

  lemma {:induction false} AnchoredFrame(t: Tables, t': Tables, order: string)
    requires Anchored(t) && order in t'.sagas && forall o :: o != order ==> SameRows(t, t', o)
    ensures Anchored(t')
  {
    forall o | o !in t'.sagas ensures o !in t'.payments && o !in t'.assignments && Project(t'.log, o) == Nothing {
      assert o != order && SameRows(t, t', o);
    }
  }

  lemma {:induction false} StepElsewhere(s: System, id: nat, c: Choice)
    requires id in s.runs
    ensures forall o :: o != s.runs[id].order ==> SameRows(s.tables, Next(s, Step(id, c)).tables, o)
  {
    forall o | o != s.runs[id].order ensures SameRows(s.tables, Next(s, Step(id, c)).tables, o) {
      CommitElsewhere(s.tables, s.runs[id], o);
    }
  }

  lemma {:induction false} CreateTables(t: Tables, r: Run)
    requires Indexed(t) && r.order !in t.sagas && r.req.key !in t.keyIndex
    ensures var t' := InsertSaga(t, r.order, r.req.key, r.req.user, r.req.amount).0;
            RowsGrow(t, t') && Indexed(t') && r.order in t'.sagas
  {
  }

  /** The step of a run that has created nothing, as the tables see it. */
  lemma {:induction false} BystanderTables(t: Tables, r: Run, c: Choice)
    requires Bystander(t, r) && !r.created && Indexed(t) && Anchored(t)
    ensures var t' := RunStep(t, r, c).0;
            RowsGrow(t, t') && Indexed(t') && (t' == t || r.order in t'.sagas)
  {
    BystanderStep(t, r, c);
    if RunStep(t, r, c).1.created {
      CreateTables(t, r);
    }
  }

  lemma {:induction false} OwnTables(t: Tables, r: Run, c: Choice)
    requires Owns(t, r) && Indexed(t)
    ensures var t' := RunStep(t, r, c).0;
            RowsGrow(t, t') && Indexed(t') && r.order in t'.sagas
  {
    OwnGrow(t, r, c);
    IndexedFrame(t, RunStep(t, r, c).0);
  }

  lemma {:induction false} StepTablesOk(s: System, id: nat, c: Choice)
    requires Inv(s) && id in s.runs
    ensures var t' := Next(s, Step(id, c)).tables;
            && RowsGrow(s.tables, t') && Indexed(t') && Anchored(t')
            && (forall o :: o != s.runs[id].order ==> SameRows(s.tables, t', o))
  {
    var t, r, t' := s.tables, s.runs[id], Next(s, Step(id, c)).tables;
    StepElsewhere(s, id, c);
    if r.created {
      OwnTables(t, r, c);
    } else {
      BystanderTables(t, r, c);
    }
    if t' != t {
      AnchoredFrame(t, t', r.order);
    }
  }

  lemma {:induction false} StepSelf(s: System, id: nat, c: Choice)
    requires Inv(s) && id in s.runs
    ensures var (t', r') := RunStep(s.tables, s.runs[id], c);
            && (if r'.created then Owns(t', r') else Bystander(t', r'))
            && r'.order == s.runs[id].order && r'.req == s.runs[id].req
            && (s.runs[id].created ==> r'.created && t'.sagas.Keys == s.tables.sagas.Keys)
            && (r'.created && !s.runs[id].created ==>
                  r'.order !in s.tables.sagas && t'.sagas.Keys == s.tables.sagas.Keys + {r'.order})
            && (!r'.created ==> t' == s.tables)
  {
    if s.runs[id].created {
      StepOwn(s.tables, s.runs[id], c);
      OwnGrow(s.tables, s.runs[id], c);
    } else {
      BystanderStep(s.tables, s.runs[id], c);
    }
  }

  lemma {:induction false} StepOther(s: System, id: nat, c: Choice, j: nat)
    requires Inv(s) && id in s.runs && j in s.runs && j != id
    ensures var t' := Next(s, Step(id, c)).tables;
            if s.runs[j].created then Owns(t', s.runs[j]) else Bystander(t', s.runs[j])
  {
    var t' := Next(s, Step(id, c)).tables;
    StepTablesOk(s, id, c);
    if s.runs[j].created {
      if s.runs[id].order != s.runs[j].order {
        OwnsFrame(s.tables, t', s.runs[j]);
      } else {
        StepSelf(s, id, c);
      }
    } else {
      BystanderFrame(s.tables, t', s.runs[j]);
    }
  }

  /** Ownership survives a step that updates one run, and one creator at most. */
  lemma {:induction false} OwnedUpdate(s: System, s': System, id: nat)
    requires Owned(s) && id in s.runs && id in s'.runs
    requires s'.runs == s.runs[id := s'.runs[id]] && s'.runs[id].order == s.runs[id].order
    requires s.runs[id].created ==> s'.runs[id].created
    requires var isNew := s'.runs[id].created && !s.runs[id].created;
             && (isNew ==> s.runs[id].order !in s.tables.sagas)
             && s'.tables.sagas.Keys == s.tables.sagas.Keys + (if isNew then {s.runs[id].order} else {})
             && s'.creator == if isNew then s.creator[s.runs[id].order := id] else s.creator
    ensures Owned(s')
  {
  }

  lemma {:induction false} StepOwned(s: System, id: nat, c: Choice)
    requires Inv(s) && id in s.runs
    ensures Owned(Next(s, Step(id, c)))
  {
    StepSelf(s, id, c);
    OwnedUpdate(s, Next(s, Step(id, c)), id);
  }

  lemma {:induction false} StepRunsOk(s: System, id: nat, c: Choice)
    requires Inv(s) && id in s.runs && Owned(Next(s, Step(id, c)))
    ensures RunsOk(Next(s, Step(id, c)))
  {
    StepSelf(s, id, c);
    forall j | j in s.runs && j != id
      ensures var t' := Next(s, Step(id, c)).tables;
              if s.runs[j].created then Owns(t', s.runs[j]) else Bystander(t', s.runs[j])
    {
      StepOther(s, id, c, j);
    }
  }

  lemma {:induction false} BeginInv(s: System, a: Action)
    requires Inv(s) && a.Begin?
    ensures Inv(Next(s, a)) && Next(s, a).tables == s.tables
  {
    if a.id !in s.runs {
      var s' := Next(s, a);
      assert Bystander(s.tables, NewRun(a.req, a.order, a.driver));
      assert Owned(s');
    }
  }

  lemma {:induction false} NextInv(s: System, a: Action)
    requires Inv(s)
    ensures Inv(Next(s, a)) && RowsGrow(s.tables, Next(s, a).tables)
  {
    if a.Begin? {
      BeginInv(s, a);
    } else if a.id in s.runs {
      StepTablesOk(s, a.id, a.choice);
      StepOwned(s, a.id, a.choice);
      StepRunsOk(s, a.id, a.choice);
    }
  }
}
