/** One live run per task, and the spacing of periodic runs: what every step keeps. */
module EngineRuns {
  import opened Wrappers
  import opened Tasks
  import opened Engine
  import opened EngineHolds

  // ----- At most one live run

  /** Between Consume and the final Put. */
  predicate Busy(phase: JobPhase) {
    phase.Starting? || phase.Failing? || phase.Live?
  }

  /** No job of this task is busy, and there is none at all unless the task recurs. */
  ghost predicate Startable(s: State, id: Id) {
    forall j :: 0 <= j < |s.jobs| && s.jobs[j].task.id == id ==>
      !Busy(s.jobs[j].phase) && id in s.issued && Recurring(s.issued[id])
  }

  /** While a record waits, the only job of that task that may be busy is the one being launched. */
  ghost predicate WaitingApart(s: State) {
    forall j :: 0 <= j < |s.jobs| && s.jobs[j].task.id in s.store && s.store[s.jobs[j].task.id].status.Waiting? ==>
      || s.jobs[j].phase.Starting? || s.jobs[j].phase.Failing?
      || (!Busy(s.jobs[j].phase) && s.jobs[j].task.id in s.issued && Recurring(s.issued[s.jobs[j].task.id]))
  }

  ghost predicate BusyApart(s: State) {
    forall i, j :: 0 <= i < j < |s.jobs| && s.jobs[i].task.id == s.jobs[j].task.id ==>
      && !(Busy(s.jobs[i].phase) && Busy(s.jobs[j].phase))
      && s.jobs[i].task.id in s.issued && Recurring(s.issued[s.jobs[i].task.id])
  }

  ghost predicate OneRun(s: State) {
    && WaitingApart(s)
    && BusyApart(s)
    && (s.loop.Chosen? ==> Startable(s, s.loop.task.id))
  }

  lemma OneRunSame(s: State, s': State)
    requires OneRun(s) && Records(s) && LoopJob(s) && SameRecords(s, s')
    ensures OneRun(s')
  {
  }

  lemma OneRunConsume(s: State)
    requires OneRun(s) && Records(s) && LoopJob(s) && s.loop.Chosen?
    ensures OneRun(ConsumeFor(s))
  {
  }

  lemma OneRunUp(s: State, step: ExecStep)
    requires OneRun(s) && Records(s) && LoopJob(s) && ExecEnabled(s, step) && !step.Consume?
    ensures OneRun(ApplyExec(s, step))
  {
  }

  lemma OneRunFinish(s: State, step: WatchStep)
    requires OneRun(s) && Records(s) && LoopJob(s) && WatchEnabled(s, step) && step.Finish?
    ensures OneRun(ApplyWatch(s, step))
  {
  }

  lemma OneRunClient(s: State, step: ClientStep)
    requires OneRun(s) && Records(s) && ClientEnabled(s, step)
    ensures OneRun(ApplyClient(s, step))
  {
  }

  // ----- Spacing

  predicate HasLaunched(phase: JobPhase) {
    phase.Live? || AfterFinish(phase)
  }

  predicate Periodic(spec: Spec) {
    spec.every > 0 && spec.cron == ""
  }

  /** `start` leaves at least one period after every launch of the task. */
  ghost predicate PeriodAfter(s: State, id: Id, start: int) {
    id in s.issued && Periodic(s.issued[id]) ==>
      forall j :: 0 <= j < |s.jobs| && s.jobs[j].task.id == id && HasLaunched(s.jobs[j].phase) ==>
        start >= s.jobs[j].at + s.issued[id].every
  }

  /** Both jobs launched the same periodic task. */
  predicate SamePeriodic(s: State, i: Job, j: Job) {
    && i.task.id == j.task.id && HasLaunched(i.phase) && HasLaunched(j.phase)
    && i.task.id in s.issued && Periodic(s.issued[i.task.id])
  }

  ghost predicate LaunchesApart(s: State) {
    forall i, j :: 0 <= i < j < |s.jobs| && SamePeriodic(s, s.jobs[i], s.jobs[j]) ==>
      s.jobs[j].at >= s.jobs[i].at + s.issued[s.jobs[i].task.id].every
  }

  /** A launch date that respects the period. */
  ghost predicate FitStart(s: State, t: Task) {
    t.start < s.now && PeriodAfter(s, t.id, t.start)
  }

  ghost predicate Spaced(s: State) {
    && (forall j :: 0 <= j < |s.jobs| ==> s.jobs[j].at <= s.now)
    && LaunchesApart(s)
    && (forall id :: id in s.store && s.store[id].status.Waiting? ==> PeriodAfter(s, id, s.store[id].start))
    && (s.loop.Chosen? ==> FitStart(s, s.loop.task))
    && (s.loop.Launching? ==> s.loop.job + 1 == |s.jobs| && FitStart(s, s.jobs[s.loop.job].task))
  }

  lemma SpacedSame(s: State, s': State)
    requires Spaced(s) && Records(s) && SameRecords(s, s')
    ensures Spaced(s')
  {
  }

  lemma SpacedConsume(s: State)
    requires Spaced(s) && Records(s) && s.loop.Chosen?
    ensures Spaced(ConsumeFor(s))
  {
  }

  lemma SpacedUpOk(s: State, run: Part, data: RunData)
    requires Spaced(s) && Records(s) && LoopJob(s) && ExecEnabled(s, UpOk(run, data))
    ensures Spaced(UpSucceeds(s, run, data))
  {
  }

  lemma SpacedPut(s: State, t: Task)
    requires Spaced(s) && (t.status.Waiting? ==> PeriodAfter(s, t.id, t.start))
    ensures Spaced(Put(s, t))
  {
  }

  /** Launch times, identifiers and store alike: only phases and task copies changed. */
  lemma SpacedRelabel(s: State, s': State)
    requires Spaced(s) && s'.store == s.store && s'.issued == s.issued && s'.now == s.now && |s'.jobs| == |s.jobs|
    requires forall j :: 0 <= j < |s.jobs| ==>
               && s'.jobs[j].task.id == s.jobs[j].task.id && s'.jobs[j].at == s.jobs[j].at
               && (HasLaunched(s'.jobs[j].phase) <==> HasLaunched(s.jobs[j].phase))
    requires !s'.loop.Launching? && (s'.loop.Chosen? ==> s'.loop == s.loop)
    ensures Spaced(s')
  {
  }

  lemma SpacedUpFail(s: State, step: ExecStep)
    requires Spaced(s) && Records(s) && LoopJob(s) && ExecEnabled(s, step) && (step.UpFail? || step.FailPut?)
    ensures Spaced(ApplyExec(s, step))
  {
    if step.UpFail? {
      SpacedRelabel(s, ApplyExec(s, step));
    } else {
      var t := s.jobs[s.loop.job].task;
      SpacedPut(s, t);
      SpacedRelabel(Put(s, t), ApplyExec(s, step));
    }
  }

  lemma SpacedJob(s: State, j: nat, job: Job)
    requires Spaced(s) && j < |s.jobs| && (s.loop.Launching? ==> j != s.loop.job)
    requires job.task.id == s.jobs[j].task.id && job.at == s.jobs[j].at
    requires HasLaunched(job.phase) && HasLaunched(s.jobs[j].phase)
    ensures Spaced(s.(jobs := s.jobs[j := job]))
  {
  }

  lemma SpacedFinish(s: State, j: nat, status: Status, next: Option<int>)
    requires Spaced(s) && Records(s) && LoopJob(s) && WatchEnabled(s, Finish(j, status, next))
    ensures Spaced(FinishJob(s, j, status, next))
  {
    var t := Finished(s.jobs[j].task, status, s.now, next);
    assert t.status.Waiting? ==> PeriodAfter(s, t.id, t.start);
    SpacedPut(s, t);
    SpacedJob(Put(s, t), j, Job(Stamped(s, t), s.jobs[j].at, MustPing));
  }

  lemma SpacedAdd(s: State, t: Task, id: Id)
    requires Spaced(s) && Records(s) && id !in s.issued
    ensures Spaced(AddTask(s, t, id))
  {
  }

  lemma SpacedClient(s: State, step: ClientStep)
    requires Spaced(s) && Records(s) && ClientEnabled(s, step)
    ensures Spaced(ApplyClient(s, step))
  {
    match step
    case Add(t, id) => SpacedAdd(s, t, id);
    case Cancel(id) => if id in s.store {
      SpacedPut(s, s.store[id]);
      SpacedPut(s, s.store[id].(status := Canceled));
    }
    case Delete(_) =>
    case Flush(_) =>
  }
}
