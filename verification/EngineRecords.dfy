/** What the store says about runs: the record of a live run, and the date the cron library gave. */
module EngineRecords {
  import opened Wrappers
  import opened Tasks
  import opened Engine
  import opened EngineHolds
  import opened EngineRuns
  import opened EngineTheorems

  // ----- A live run has a running record

  predicate RunningOrCanceled(status: Status) {
    status.Running? || status.Canceled?
  }

  /** The record of a live job, if it is still stored, is Running or Canceled. */
  ghost predicate LiveIsRunning(s: State) {
    forall j :: 0 <= j < |s.jobs| && s.jobs[j].phase.Live? && s.jobs[j].task.id in s.store ==>
      RunningOrCanceled(s.store[s.jobs[j].task.id].status)
  }

  lemma LiveQuiet(s: State, s': State)
    requires LiveIsRunning(s) && SameRecords(s, s')
    ensures LiveIsRunning(s')
  {
  }

  lemma LiveExec(s: State, step: ExecStep)
    requires LiveIsRunning(s) && OneRun(s) && LoopJob(s) && ExecEnabled(s, step)
    ensures LiveIsRunning(ApplyExec(s, step))
  {
  }

  lemma LiveFinish(s: State, j: nat, status: Status, next: Option<int>)
    requires LiveIsRunning(s) && OneRun(s) && WatchEnabled(s, Finish(j, status, next))
    ensures LiveIsRunning(FinishJob(s, j, status, next))
  {
  }

  lemma LiveClient(s: State, step: ClientStep)
    requires LiveIsRunning(s) && Records(s) && ClientEnabled(s, step)
    ensures LiveIsRunning(ApplyClient(s, step))
  {
  }

  lemma LiveStep(s: State, step: Step)
    requires LiveIsRunning(s) && Records(s) && OneRun(s) && Protocol(s) && Enabled(s, step)
    ensures LiveIsRunning(Apply(s, step))
  {
    if Quiet(step) {
      QuietFrame(s, step);
      LiveQuiet(s, Apply(s, step));
    } else {
      match step
      case OfExec(x) => LiveExec(s, x);
      case OfWatcher(x) => LiveFinish(s, x.j, x.status, x.next);
      case OfClient(x) => LiveClient(s, x);
    }
  }

  lemma {:induction false} LiveRun(s: State, steps: seq<Step>)
    requires Inv(s) && LiveIsRunning(s) && ValidRun(s, steps)
    ensures LiveIsRunning(Exec(s, steps))
    decreases |steps|
  {
    if steps != [] {
      InvStep(s, steps[0]);
      LiveStep(s, steps[0]);
      LiveRun(Apply(s, steps[0]), steps[1..]);
    }
  }

  /** In every reachable state the record of a live run is Running or Canceled, and Flush does not remove it unless
      it was cancelled. */
  lemma LiveRecordStays(s: State, j: nat, age: int)
    requires Reachable(s) && j < |s.jobs| && s.jobs[j].phase.Live? && s.jobs[j].task.id in s.store
    ensures var id := s.jobs[j].task.id;
            && RunningOrCanceled(s.store[id].status)
            && (!s.store[id].status.Canceled? ==> id in FlushTasks(s, age).store)
  {
    var cpu: nat, ram: nat, now: int, steps :|
      ValidRun(Init(cpu, ram, now), steps) && s == Exec(Init(cpu, ram, now), steps);
    LiveRun(Init(cpu, ram, now), steps);
  }

  // ----- The date of the cron library

  /** After the end of a run with this date: the task does not wait for an earlier one, and what was launched since,
      as job `from` or later, was launched after it. */
  ghost predicate NotBefore(s: State, id: Id, date: int, from: nat) {
    && (id in s.store && s.store[id].status.Waiting? ==> s.store[id].start >= date)
    && (s.loop.Chosen? && s.loop.task.id == id ==> s.now > date)
    && (forall j :: 0 <= j < |s.jobs| && s.jobs[j].task.id == id && Busy(s.jobs[j].phase) ==>
          j >= from && s.now > date)
    && (forall j :: from <= j < |s.jobs| && s.jobs[j].task.id == id && HasLaunched(s.jobs[j].phase) ==>
          s.jobs[j].at > date)
    && from <= |s.jobs|
    && id in s.issued
  }

  lemma NotBeforeQuiet(s: State, s': State, id: Id, date: int, from: nat)
    requires NotBefore(s, id, date, from) && Records(s) && SameRecords(s, s')
    ensures NotBefore(s', id, date, from)
  {
  }

  lemma NotBeforeExec(s: State, step: ExecStep, id: Id, date: int, from: nat)
    requires NotBefore(s, id, date, from) && LoopJob(s) && Records(s) && ExecEnabled(s, step)
    ensures NotBefore(ApplyExec(s, step), id, date, from)
  {
  }

  lemma NotBeforeFinish(s: State, j: nat, status: Status, next: Option<int>, id: Id, date: int, from: nat)
    requires NotBefore(s, id, date, from) && WatchEnabled(s, Finish(j, status, next))
    ensures NotBefore(FinishJob(s, j, status, next), id, date, from)
  {
    FinishedEnds(s.jobs[j].task, status, s.now, next);
  }

  lemma NotBeforeClient(s: State, step: ClientStep, id: Id, date: int, from: nat)
    requires NotBefore(s, id, date, from) && Records(s) && ClientEnabled(s, step)
    ensures NotBefore(ApplyClient(s, step), id, date, from)
  {
  }

  lemma NotBeforeStep(s: State, step: Step, id: Id, date: int, from: nat)
    requires NotBefore(s, id, date, from) && Records(s) && Protocol(s) && Enabled(s, step)
    ensures NotBefore(Apply(s, step), id, date, from)
  {
    if Quiet(step) {
      QuietFrame(s, step);
      NotBeforeQuiet(s, Apply(s, step), id, date, from);
    } else {
      match step
      case OfExec(x) => NotBeforeExec(s, x, id, date, from);
      case OfWatcher(x) => NotBeforeFinish(s, x.j, x.status, x.next, id, date, from);
      case OfClient(x) => NotBeforeClient(s, x, id, date, from);
    }
  }

  lemma {:induction false} NotBeforeRun(s: State, steps: seq<Step>, id: Id, date: int, from: nat)
    requires Inv(s) && NotBefore(s, id, date, from) && ValidRun(s, steps)
    ensures NotBefore(Exec(s, steps), id, date, from)
    decreases |steps|
  {
    if steps != [] {
      InvStep(s, steps[0]);
      NotBeforeStep(s, steps[0], id, date, from);
      NotBeforeRun(Apply(s, steps[0]), steps[1..], id, date, from);
    }
  }

  /** A task with a cron expression is never launched again at or before the date that the library answered at the
      end of its run, whatever happens after that end. */
  lemma CronDateKept(s: State, j: nat, status: Status, date: int, steps: seq<Step>, i: nat)
    requires Reachable(s) && WatchEnabled(s, Finish(j, status, Some(date))) && s.jobs[j].task.cron != ""
    requires var s1 := Apply(s, OfWatcher(Finish(j, status, Some(date)))); ValidRun(s1, steps)
    requires var t := Exec(Apply(s, OfWatcher(Finish(j, status, Some(date)))), steps);
             |s.jobs| <= i < |t.jobs| && t.jobs[i].task.id == s.jobs[j].task.id && HasLaunched(t.jobs[i].phase)
    ensures Exec(Apply(s, OfWatcher(Finish(j, status, Some(date)))), steps).jobs[i].at > date
  {
    var id, s1 := s.jobs[j].task.id, FinishJob(s, j, status, Some(date));
    ReachableInv(s);
    InvStep(s, OfWatcher(Finish(j, status, Some(date))));
    FinishedEnds(s.jobs[j].task, status, s.now, Some(date));
    assert Admitted(s, s.jobs[j].task);
    AfterTheEnd(s, j, status, date);
    NotBeforeRun(s1, steps, id, date, |s.jobs|);
  }

  lemma AfterTheEnd(s: State, j: nat, status: Status, date: int)
    requires OneRun(s) && Records(s) && WatchEnabled(s, Finish(j, status, Some(date))) && s.jobs[j].task.cron != ""
    ensures NotBefore(FinishJob(s, j, status, Some(date)), s.jobs[j].task.id, date, |s.jobs|)
  {
    FinishedEnds(s.jobs[j].task, status, s.now, Some(date));
    assert Admitted(s, s.jobs[j].task);
    assert Busy(s.jobs[j].phase);
  }
}
