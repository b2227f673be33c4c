/** The sequential program against the interleaved system: a call whose disturbances come
    from other runs is a run of that system, so every theorem about it applies. */
module OrderRefinement {
  import opened Common
  import opened OrderTables
  import opened OrderSaga
  import opened OrderSagaTheorems
  import opened OrderPolicy

  /** The actions of the call `id` with `others[i]` before its i-th step. */
  function Woven(id: nat, faults: nat -> Fault, retries: seq<bool>, others: seq<seq<Action>>): seq<Action>
    requires |others| == |retries|
  {
    if retries == [] then []
    else
      var i := |retries| - 1;
      Woven(id, faults, retries[..i], others[..i]) + others[i] + [Step(id, Choice(faults(i), retries[i]))]
  }

  /** Every disturbance of `world` is the effect of the other runs' actions. */
  ghost predicate CausedBy(s: System, id: nat, world: World, retries: seq<bool>, others: seq<seq<Action>>)
    requires |others| == |retries|
  {
    retries == [] ||
    (var i := |retries| - 1;
     && CausedBy(s, id, world, retries[..i], others[..i])
     && (forall a :: a in others[i] && a.Step? ==> a.id != id)
     && var si := Exec(s, Woven(id, world.fault, retries[..i], others[..i]));
        world.disturb(i, si.tables) == Exec(si, others[i]).tables)
  }

  lemma {:induction false} ExecLast(s: System, earlier: seq<Action>, others: seq<Action>, last: Action)
    ensures Exec(s, earlier + others + [last]) == Next(Exec(Exec(s, earlier), others), last)
  {
    ExecAppend(s, earlier, others);
    ExecAppend(s, earlier + others, [last]);
    assert [last][1..] == [];
  }

  /** The tables and the answer of a call are those its run has in the system. */
  lemma {:induction false} CallIsARun(s: System, id: nat, world: World, retries: seq<bool>, others: seq<seq<Action>>)
    requires id in s.runs && |others| == |retries| && CausedBy(s, id, world, retries, others)
    ensures var s' := Exec(s, Woven(id, world.fault, retries, others));
            id in s'.runs && Alone(s.tables, s.runs[id], world, retries) == (s'.tables, s'.runs[id])
  {
    if retries != [] {
      var i := |retries| - 1;
      var earlier := Woven(id, world.fault, retries[..i], others[..i]);
      CallIsARun(s, id, world, retries[..i], others[..i]);
      ExecOthers(Exec(s, earlier), id, others[i]);
      ExecLast(s, earlier, others[i], Step(id, Choice(world.fault(i), retries[i])));
    }
  }

  /** In particular a call of `CreateOrder`, whose clients retry by a policy of `attempts`. */
  lemma {:induction false} PathIsARun(s: System, id: nat, world: World, attempts: int, path: seq<Course>, others: seq<seq<Action>>)
    requires id in s.runs && IsPath(path, world, attempts) && path[0] == Course(s.tables, s.runs[id], 0)
    requires |others| == |path| - 1 && CausedBy(s, id, world, RetriesOf(path, world, attempts, |path| - 1), others)
    ensures var s' := Exec(s, Woven(id, world.fault, RetriesOf(path, world, attempts, |path| - 1), others));
            var last := path[|path| - 1];
            id in s'.runs && s'.tables == last.t && s'.runs[id] == last.r
  {
    PathIsAlone(path, world, attempts, |path| - 1);
    CallIsARun(s, id, world, RetriesOf(path, world, attempts, |path| - 1), others);
  }

  /** The promise a caller of `CreateOrder` gets, from any reachable database and with
      any other runs interleaved: a success means a fulfilled order. */
  lemma {:induction false} CallerIsPromised(past: seq<Action>, id: nat, world: World, retries: seq<bool>, others: seq<seq<Action>>, answer: Response)
    requires var s := Exec(INIT, past);
             && id in s.runs && |others| == |retries| && CausedBy(s, id, world, retries, others)
             && Alone(s.tables, s.runs[id], world, retries).1.pc == Done(answer) && answer.err == None
    ensures var s := Exec(INIT, past);
            Fulfilled(Exec(s, Woven(id, world.fault, retries, others)), answer.order, s.runs[id].req)
  {
    var s := Exec(INIT, past);
    var more := Woven(id, world.fault, retries, others);
    CallIsARun(s, id, world, retries, others);
    ExecAppend(INIT, past, more);
    SuccessMeansFulfilled(past + more, id);
    AlonePlan(s.tables, s.runs[id], world, retries);
  }

  lemma {:induction false} AlonePlan(t: Tables, r: Run, world: World, retries: seq<bool>)
    ensures SamePlan(r, Alone(t, r, world, retries).1)
  {
    if retries != [] {
      AlonePlan(t, r, world, retries[..|retries| - 1]);
    }
  }
}
