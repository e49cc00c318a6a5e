/** The run counter and the run history of every task: what every step keeps. */
module EngineHistory {
  import opened Wrappers
  import opened Tasks
  import opened Engine
  import opened EngineHolds
  import opened EngineRuns

  /** A run that reports the number it was given, and an added task with a sane history. */
  ghost predicate Honest(s: State, step: Step)
    requires Enabled(s, step)
  {
    match step
    case OfExec(UpOk(_, data)) => data.id == s.jobs[s.loop.job].task.runCounter + 1
    case OfExec(UpFail(counted, partial)) =>
      partial.Some? ==> counted && partial.value.id == s.jobs[s.loop.job].task.runCounter + 1
    case OfClient(Add(t, _)) => GoodHistory(t)
    case _ => true
  }

  /** All copies of a task that may still be written to the store have at least this run count. */
  ghost predicate AtLeast(s: State, id: Id, count: int) {
    && (id in s.store ==> s.store[id].runCounter >= count)
    && (s.loop.Chosen? && s.loop.task.id == id ==> s.loop.task.runCounter >= count)
    && (forall j :: 0 <= j < |s.jobs| && s.jobs[j].task.id == id && Busy(s.jobs[j].phase) ==>
          s.jobs[j].task.runCounter >= count)
  }

  ghost predicate Counted(s: State) {
    forall id :: id in s.store ==> AtLeast(s, id, s.store[id].runCounter)
  }

  ghost predicate Histories(s: State) {
    && (forall id :: id in s.store ==> GoodHistory(s.store[id]))
    && (s.loop.Chosen? ==> GoodHistory(s.loop.task))
    && (forall j :: 0 <= j < |s.jobs| ==> GoodHistory(s.jobs[j].task))
  }

  lemma HistoryExact(t: Task, now: int, run: Part, data: RunData)
    requires GoodHistory(t)
    ensures GoodHistory(Launched(t, now, run, data))
      <==> data.id <= t.runCounter + 1 && (t.runs != [] ==> data.id > t.runs[0].id)
  {
    var t1 := t.(runCounter := t.runCounter + 1);
    AddRunExact(t1, data);
    assert Launched(t, now, run, data).runs == AddRun(t1, Some(data)).runs;
  }

  /** DummyRun reports number 0 whatever it was given: two of them break the history. */
  lemma DummyRunsBreakHistory(t: Task, now: int, run: Part, data: RunData)
    requires t.runs == [] && t.runCounter == 0 && data.id == 0
    ensures GoodHistory(t)
    ensures GoodHistory(Launched(t, now, run, data))
    ensures !GoodHistory(Launched(Launched(t, now, run, data), now, run, data))
  {
    HistoryExact(t, now, run, data);
    HistoryExact(Launched(t, now, run, data), now, run, data);
  }

  // ----- The count never goes down

  lemma AtLeastSame(s: State, s': State, id: Id, count: int)
    requires AtLeast(s, id, count) && Records(s) && SameRecords(s, s')
    ensures AtLeast(s', id, count)
  {
  }

  lemma AtLeastExec(s: State, step: ExecStep, id: Id, count: int)
    requires AtLeast(s, id, count) && LoopJob(s) && ExecEnabled(s, step)
    ensures AtLeast(ApplyExec(s, step), id, count)
  {
  }

  lemma AtLeastFinish(s: State, j: nat, status: Status, next: Option<int>, id: Id, count: int)
    requires AtLeast(s, id, count) && WatchEnabled(s, Finish(j, status, next))
    ensures AtLeast(FinishJob(s, j, status, next), id, count)
  {
  }

  lemma AtLeastClient(s: State, step: ClientStep, id: Id, count: int)
    requires AtLeast(s, id, count) && Records(s) && id in s.issued && ClientEnabled(s, step)
    ensures AtLeast(ApplyClient(s, step), id, count)
  {
  }

  lemma AtLeastStep(s: State, step: Step, id: Id, count: int)
    requires AtLeast(s, id, count) && Records(s) && Protocol(s) && id in s.issued && Enabled(s, step)
    ensures AtLeast(Apply(s, step), id, count) && id in Apply(s, step).issued
  {
    if Quiet(step) {
      QuietFrame(s, step);
      AtLeastSame(s, Apply(s, step), id, count);
    } else {
      match step
      case OfExec(x) => AtLeastExec(s, x, id, count);
      case OfWatcher(x) => AtLeastFinish(s, x.j, x.status, x.next, id, count);
      case OfClient(x) => AtLeastClient(s, x, id, count);
    }
  }

  lemma CountedExec(s: State, step: ExecStep)
    requires Counted(s) && Records(s) && OneRun(s) && LoopJob(s) && ExecEnabled(s, step)
    ensures Counted(ApplyExec(s, step))
  {
    forall id | id in s.store ensures AtLeast(ApplyExec(s, step), id, s.store[id].runCounter) {
      AtLeastExec(s, step, id, s.store[id].runCounter);
    }
  }

  lemma CountedFinish(s: State, j: nat, status: Status, next: Option<int>)
    requires Counted(s) && Records(s) && OneRun(s) && WatchEnabled(s, Finish(j, status, next))
    ensures Counted(FinishJob(s, j, status, next))
  {
    forall id | id in s.store ensures AtLeast(FinishJob(s, j, status, next), id, s.store[id].runCounter) {
      AtLeastFinish(s, j, status, next, id, s.store[id].runCounter);
    }
    assert forall i :: 0 <= i < |s.jobs| && i != j && s.jobs[i].task.id == s.jobs[j].task.id ==>
        !Busy(s.jobs[i].phase);
  }

  lemma CountedAdd(s: State, t: Task, id: Id)
    requires Counted(s) && Records(s) && id !in s.issued
    ensures Counted(AddTask(s, t, id))
  {
  }

  lemma CountedClient(s: State, step: ClientStep)
    requires Counted(s) && Records(s) && ClientEnabled(s, step)
    ensures Counted(ApplyClient(s, step))
  {
    match step
    case Add(t, id) => CountedAdd(s, t, id);
    case Cancel(_) =>
    case Delete(_) =>
    case Flush(_) =>
  }

  lemma CountedStep(s: State, step: Step)
    requires Counted(s) && Records(s) && Protocol(s) && OneRun(s) && Enabled(s, step)
    ensures Counted(Apply(s, step))
  {
    if Quiet(step) {
      QuietFrame(s, step);
      forall id | id in s.store ensures AtLeast(Apply(s, step), id, s.store[id].runCounter) {
        AtLeastSame(s, Apply(s, step), id, s.store[id].runCounter);
      }
    } else {
      match step
      case OfExec(x) => CountedExec(s, x);
      case OfWatcher(x) => CountedFinish(s, x.j, x.status, x.next);
      case OfClient(x) => CountedClient(s, x);
    }
  }

  // ----- Histories stay good

  lemma HistoriesUpOk(s: State, run: Part, data: RunData)
    requires Histories(s) && ExecEnabled(s, UpOk(run, data)) && data.id == s.jobs[s.loop.job].task.runCounter + 1
    ensures Histories(UpSucceeds(s, run, data))
  {
    var t := s.jobs[s.loop.job].task;
    assert t.runs != [] ==> t.runs[0].id <= t.runCounter;
    HistoryExact(t, s.now, run, data);
    assert GoodHistory(Stamped(s, Launched(t, s.now, run, data)));
  }

  lemma HistoriesUpFail(s: State, counted: bool, partial: Option<RunData>)
    requires Histories(s) && ExecEnabled(s, UpFail(counted, partial))
    requires partial.Some? ==> counted && partial.value.id == s.jobs[s.loop.job].task.runCounter + 1
    ensures Histories(UpFails(s, counted, partial))
  {
    var t := s.jobs[s.loop.job].task;
    var t1 := if counted then t.(runCounter := t.runCounter + 1) else t;
    assert GoodHistory(t1);
    if partial.Some? {
      assert t.runs != [] ==> t.runs[0].id <= t.runCounter;
      AddRunExact(t1, partial.value);
    }
    assert GoodHistory(AddRun(t1, partial).(status := Error));
  }

  lemma HistoriesExec(s: State, step: ExecStep)
    requires Histories(s) && Records(s) && ExecEnabled(s, step) && Honest(s, OfExec(step))
    ensures Histories(ApplyExec(s, step))
  {
    match step
    case Consume =>
    case UpOk(run, data) => HistoriesUpOk(s, run, data);
    case UpFail(counted, partial) => HistoriesUpFail(s, counted, partial);
    case FailPut => assert GoodHistory(Stamped(s, s.jobs[s.loop.job].task));
  }

  lemma HistoriesFinish(s: State, j: nat, status: Status, next: Option<int>)
    requires Histories(s) && WatchEnabled(s, Finish(j, status, next))
    ensures Histories(FinishJob(s, j, status, next))
  {
    var t, t' := s.jobs[j].task, Finished(s.jobs[j].task, status, s.now, next);
    assert t'.runs == t.runs && t'.runCounter == t.runCounter;
  }

  lemma HistoriesClient(s: State, step: ClientStep)
    requires Histories(s) && Records(s) && ClientEnabled(s, step) && Honest(s, OfClient(step))
    ensures Histories(ApplyClient(s, step))
  {
    match step
    case Add(t, id) => assert GoodHistory(t.(id := id, status := Waiting, mtime := s.now));
    case Cancel(id) =>
    case Delete(_) =>
    case Flush(_) =>
  }

  lemma HistoriesStep(s: State, step: Step)
    requires Histories(s) && Records(s) && Protocol(s) && Enabled(s, step) && Honest(s, step)
    ensures Histories(Apply(s, step))
  {
    if Quiet(step) {
      QuietFrame(s, step);
    } else {
      match step
      case OfExec(x) => HistoriesExec(s, x);
      case OfWatcher(x) => HistoriesFinish(s, x.j, x.status, x.next);
      case OfClient(x) => HistoriesClient(s, x);
    }
  }
}
