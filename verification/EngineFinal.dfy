/** The end of a task: what is final and what is not. */
module EngineFinal {
  import opened Wrappers
  import opened Tasks
  import opened Engine
  import opened EngineHolds
  import opened EngineRuns
  import opened EngineTheorems
  import J = Json

  /** The task neither waits nor runs, and no goroutine has a copy of it that it may still write. */
  ghost predicate Over(s: State, id: Id) {
    && id in s.issued
    && (id in s.store ==> Terminal(s.store[id].status))
    && (s.loop.Chosen? ==> s.loop.task.id != id)
    && (forall j :: 0 <= j < |s.jobs| && s.jobs[j].task.id == id ==> !Busy(s.jobs[j].phase))
  }

  /** Nothing but a new modification time happened to the record, if it is still there; no new launch. */
  ghost predicate Untouched(s: State, s': State, id: Id) {
    && (id in s'.store ==> id in s.store && s'.store[id] == s.store[id].(mtime := s'.store[id].mtime))
    && |s.jobs| <= |s'.jobs|
    && (forall j :: 0 <= j < |s.jobs| ==> s'.jobs[j].task.id == s.jobs[j].task.id)
    && (forall j :: |s.jobs| <= j < |s'.jobs| ==> s'.jobs[j].task.id != id)
  }

  lemma OverSame(s: State, s': State, id: Id)
    requires Over(s, id) && Records(s) && SameRecords(s, s')
    ensures Over(s', id) && Untouched(s, s', id)
  {
  }

  lemma OverExec(s: State, step: ExecStep, id: Id)
    requires Over(s, id) && LoopJob(s) && ExecEnabled(s, step)
    ensures Over(ApplyExec(s, step), id) && Untouched(s, ApplyExec(s, step), id)
  {
  }

  lemma OverFinish(s: State, j: nat, status: Status, next: Option<int>, id: Id)
    requires Over(s, id) && WatchEnabled(s, Finish(j, status, next))
    ensures var s' := FinishJob(s, j, status, next); Over(s', id) && Untouched(s, s', id)
  {
  }

  lemma OverClient(s: State, step: ClientStep, id: Id)
    requires Over(s, id) && Records(s) && ClientEnabled(s, step)
    ensures Over(ApplyClient(s, step), id) && Untouched(s, ApplyClient(s, step), id)
  {
  }

  lemma OverStep(s: State, step: Step, id: Id)
    requires Over(s, id) && Records(s) && Protocol(s) && Enabled(s, step)
    ensures Over(Apply(s, step), id) && Untouched(s, Apply(s, step), id)
  {
    if Quiet(step) {
      QuietFrame(s, step);
      OverSame(s, Apply(s, step), id);
    } else {
      match step
      case OfExec(x) => OverExec(s, x, id);
      case OfWatcher(x) => OverFinish(s, x.j, x.status, x.next, id);
      case OfClient(x) => OverClient(s, x, id);
    }
  }

  lemma UntouchedTrans(a: State, b: State, c: State, id: Id)
    requires Untouched(a, b, id) && Untouched(b, c, id)
    ensures Untouched(a, c, id)
  {
  }

  /** What is over stays over: in any run from then on the task is never launched again, and its record
      is only removed or written back as it is. */
  lemma {:induction false} OverForEver(s: State, steps: seq<Step>, id: Id)
    requires Inv(s) && Over(s, id) && ValidRun(s, steps)
    ensures Over(Exec(s, steps), id) && Untouched(s, Exec(s, steps), id)
    decreases |steps|
  {
    if steps != [] {
      var s1 := Apply(s, steps[0]);
      InvStep(s, steps[0]);
      OverStep(s, steps[0], id);
      OverForEver(s1, steps[1..], id);
      UntouchedTrans(s, s1, Exec(s1, steps[1..]), id);
    }
  }

  /** A failed Up ends any task, a recurring one too: nothing reschedules it. */
  lemma FailedUpIsOver(s: State)
    requires Reachable(s) && s.loop.Aborting?
    ensures s.loop.job < |s.jobs| && Enabled(s, OfExec(FailPut))
    ensures Over(PutFailed(s), s.jobs[s.loop.job].task.id)
  {
    ReachableInv(s);
    assert Admitted(s, s.jobs[s.loop.job].task);
  }

  /** The end of a run is the end of its task if and only if the task does not recur or its cron expression
      is broken. */
  lemma FinishIsOver(s: State, j: nat, status: Status, next: Option<int>)
    requires Reachable(s) && WatchEnabled(s, Finish(j, status, next))
    ensures var t := s.jobs[j].task;
            Over(FinishJob(s, j, status, next), t.id) <==> !HasCron(t) || (t.cron != "" && next.None?)
  {
    ReachableInv(s);
    var t, s' := s.jobs[j].task, FinishJob(s, j, status, next);
    assert Admitted(s, t);
    assert s'.store[t.id].status == Finished(t, status, s.now, next).status;
    assert Busy(s.jobs[j].phase);
    assert s.loop.Chosen? ==> s.loop.task.id != t.id;
  }

  /** Cancel changes the status of a running task and of no other one, and nothing else but the modification
      time of that task. */
  lemma CancelChanges(s: State, id: Id, k: Id)
    requires k in s.store && Records(s)
    ensures var s' := CancelTask(s, id);
            && k in s'.store
            && s'.store[k] == s.store[k].(status := s'.store[k].status, mtime := s'.store[k].mtime)
            && (s'.store[k].status != s.store[k].status <==> k == id && s.store[k].status.Running?)
            && (s'.store[k].status != s.store[k].status ==> s'.store[k].status.Canceled?)
            && (k != id ==> s'.store[k] == s.store[k])
  {
  }

  // ----- When Delete and Cancel are final

  /** Some goroutine has a copy of the task that it may still write: the loop from the choice on, or a watcher. */
  ghost predicate Held(s: State, id: Id) {
    (s.loop.Chosen? && s.loop.task.id == id)
    || exists j :: 0 <= j < |s.jobs| && s.jobs[j].task.id == id && Busy(s.jobs[j].phase)
  }

  lemma RunOfOne(s: State, step: Step)
    requires Enabled(s, step)
    ensures ValidRun(s, [step]) && Exec(s, [step]) == Apply(s, step)
  {
    assert [step][1..] == [];
    assert ValidRun(Apply(s, step), []);
  }

  lemma RunOfTwo(s: State, a: Step, b: Step)
    requires Enabled(s, a) && Enabled(Apply(s, a), b)
    ensures ValidRun(s, [a, b]) && Exec(s, [a, b]) == Apply(Apply(s, a), b)
  {
    RunOfOne(Apply(s, a), b);
    assert [a, b][1..] == [b];
  }

  const SOME_UP := OfExec(UpOk(Part("", J.Null), RunData(0, 0, 0, 0, "", false)))

  /** A busy job can write its record back, in one step. */
  lemma BusyWritesBack(s: State, j: nat) returns (step: Step)
    requires Records(s) && LoopJob(s) && |s.jobs| == |s.pool.holds| && j < |s.jobs| && Busy(s.jobs[j].phase)
    ensures Enabled(s, step) && s.jobs[j].task.id in Apply(s, step).store
    ensures !Apply(s, step).store[s.jobs[j].task.id].status.Canceled?
  {
    match s.jobs[j].phase
    case Starting => step := SOME_UP;
    case Failing => step := OfExec(FailPut);
    case Live => step := OfWatcher(Finish(j, Done, None));
  }

  /** Whoever holds a task can put it back, and not as Canceled. */
  lemma HeldComesBack(s: State, id: Id) returns (steps: seq<Step>)
    requires Inv(s) && Held(s, id)
    ensures ValidRun(s, steps) && id in Exec(s, steps).store && !Exec(s, steps).store[id].status.Canceled?
  {
    if s.loop.Chosen? && s.loop.task.id == id {
      var s1 := ConsumeFor(s);
      InvStep(s, OfExec(Consume));
      assert s1.jobs[|s.jobs|] == Job(s.loop.task, s.now, Starting);
      var step := BusyWritesBack(s1, |s.jobs|);
      RunOfTwo(s, OfExec(Consume), step);
      steps := [OfExec(Consume), step];
    } else {
      var j: nat :| j < |s.jobs| && s.jobs[j].task.id == id && Busy(s.jobs[j].phase);
      var step := BusyWritesBack(s, j);
      RunOfOne(s, step);
      steps := [step];
    }
  }

  function Deleted(s: State, id: Id): State {
    s.(store := s.store - {id})
  }

  /** A Delete is final, whatever happens afterwards, if and only if no goroutine holds the task. */
  lemma DeleteIsFinal(s: State, id: Id)
    requires Reachable(s) && id in s.issued
    ensures (forall steps :: ValidRun(Deleted(s, id), steps) ==> id !in Exec(Deleted(s, id), steps).store)
            <==> !Held(s, id)
  {
    var d := Deleted(s, id);
    ReachableInv(s);
    assert d == Apply(s, OfClient(ClientStep.Delete(id)));
    InvStep(s, OfClient(ClientStep.Delete(id)));
    if Held(s, id) {
      assert Held(d, id);
      var steps := HeldComesBack(d, id);
    } else {
      assert Over(d, id);
      forall steps | ValidRun(d, steps) ensures id !in Exec(d, steps).store {
        OverForEver(d, steps, id);
      }
    }
  }

  predicate StaysCanceled(s: State, id: Id) {
    id in s.store ==> s.store[id].status.Canceled?
  }

  /** A Canceled record stays Canceled as long as it is there, whatever happens, if and only if no goroutine
      holds the task. */
  lemma CancelIsFinal(s: State, id: Id)
    requires Reachable(s) && id in s.store && s.store[id].status.Canceled?
    ensures (forall steps :: ValidRun(s, steps) ==> StaysCanceled(Exec(s, steps), id)) <==> !Held(s, id)
  {
    ReachableInv(s);
    assert Admitted(s, s.store[id]);
    if Held(s, id) {
      var steps := HeldComesBack(s, id);
    } else {
      assert Over(s, id);
      forall steps | ValidRun(s, steps) ensures StaysCanceled(Exec(s, steps), id) {
        OverForEver(s, steps, id);
      }
    }
  }

  // ----- A running record has a watcher

  ghost predicate RunningIsLive(s: State) {
    forall id :: id in s.store && s.store[id].status.Running? ==>
      exists j :: 0 <= j < |s.jobs| && s.jobs[j].task.id == id && s.jobs[j].phase.Live?
  }

  /** Live jobs stay, and no record but those of `but` became Running. */
  lemma RunningKept(s: State, s': State, but: set<Id>)
    requires RunningIsLive(s)
    requires forall id :: id in s'.store && s'.store[id].status.Running? && id !in but ==>
               id in s.store && s.store[id].status.Running?
    requires |s.jobs| <= |s'.jobs|
    requires forall j :: 0 <= j < |s.jobs| && s.jobs[j].phase.Live? && s.jobs[j].task.id !in but ==>
               s'.jobs[j].phase.Live? && s'.jobs[j].task.id == s.jobs[j].task.id
    requires forall id :: id in but && id in s'.store && s'.store[id].status.Running? ==>
               exists j :: 0 <= j < |s'.jobs| && s'.jobs[j].task.id == id && s'.jobs[j].phase.Live?
    ensures RunningIsLive(s')
  {
    forall id | id in s'.store && s'.store[id].status.Running?
      ensures exists j :: 0 <= j < |s'.jobs| && s'.jobs[j].task.id == id && s'.jobs[j].phase.Live?
    {
      if id !in but {
        var j :| 0 <= j < |s.jobs| && s.jobs[j].task.id == id && s.jobs[j].phase.Live?;
        assert s'.jobs[j].task.id == id;
      }
    }
  }

  lemma RunningExec(s: State, step: ExecStep)
    requires RunningIsLive(s) && Records(s) && LoopJob(s) && ExecEnabled(s, step)
    ensures RunningIsLive(ApplyExec(s, step))
  {
    var s' := ApplyExec(s, step);
    match step
    case Consume => RunningKept(s, s', {});
    case UpFail(_, _) => RunningKept(s, s', {});
    case UpOk(_, _) =>
      assert s'.jobs[s.loop.job].phase.Live?;
      RunningKept(s, s', {s.jobs[s.loop.job].task.id});
    case FailPut => RunningKept(s, s', {s.jobs[s.loop.job].task.id});
  }

  lemma RunningFinish(s: State, j: nat, status: Status, next: Option<int>)
    requires RunningIsLive(s) && WatchEnabled(s, Finish(j, status, next))
    ensures RunningIsLive(FinishJob(s, j, status, next))
  {
    RunningKept(s, FinishJob(s, j, status, next), {s.jobs[j].task.id});
  }

  lemma RunningClient(s: State, step: ClientStep)
    requires RunningIsLive(s) && Records(s) && ClientEnabled(s, step)
    ensures RunningIsLive(ApplyClient(s, step))
  {
    RunningKept(s, ApplyClient(s, step), {});
  }

  lemma RunningQuiet(s: State, s': State)
    requires RunningIsLive(s) && SameRecords(s, s')
    ensures RunningIsLive(s')
  {
    RunningKept(s, s', {});
  }

  lemma RunningStep(s: State, step: Step)
    requires RunningIsLive(s) && Records(s) && Protocol(s) && Enabled(s, step)
    ensures RunningIsLive(Apply(s, step))
  {
    if Quiet(step) {
      QuietFrame(s, step);
      RunningQuiet(s, Apply(s, step));
    } else {
      match step
      case OfExec(x) => RunningExec(s, x);
      case OfWatcher(x) => RunningFinish(s, x.j, x.status, x.next);
      case OfClient(x) => RunningClient(s, x);
    }
  }

  lemma {:induction false} RunningRun(s: State, steps: seq<Step>)
    requires Inv(s) && RunningIsLive(s) && ValidRun(s, steps)
    ensures RunningIsLive(Exec(s, steps))
    decreases |steps|
  {
    if steps != [] {
      InvStep(s, steps[0]);
      RunningStep(s, steps[0]);
      RunningRun(Apply(s, steps[0]), steps[1..]);
    }
  }

  lemma RunningIsHeld(s: State, id: Id)
    requires Reachable(s) && id in s.store && s.store[id].status.Running?
    ensures Held(s, id)
  {
    var cpu: nat, ram: nat, now: int, before :|
      ValidRun(Init(cpu, ram, now), before) && s == Exec(Init(cpu, ram, now), before);
    RunningRun(Init(cpu, ram, now), before);
    var j :| 0 <= j < |s.jobs| && s.jobs[j].task.id == id && s.jobs[j].phase.Live?;
    assert Busy(s.jobs[j].phase);
  }

  /** Cancel changes a status only where the change is not final: a record that was Running has a live watcher,
      which can put something else than Canceled over it. */
  lemma EffectiveCancelIsNeverFinal(s: State, id: Id) returns (steps: seq<Step>)
    requires Reachable(s) && id in s.store && s.store[id].status.Running?
    ensures id in CancelTask(s, id).store && CancelTask(s, id).store[id].status.Canceled?
    ensures ValidRun(CancelTask(s, id), steps)
    ensures var t := Exec(CancelTask(s, id), steps); id in t.store && !t.store[id].status.Canceled?
  {
    ReachableInv(s);
    assert s.store[id].id == id;
    RunningIsHeld(s, id);
    var c := CancelTask(s, id);
    InvStep(s, OfClient(ClientStep.Cancel(id)));
    assert Held(c, id);
    steps := HeldComesBack(c, id);
  }
}
