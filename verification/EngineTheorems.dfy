/** What holds in every reachable state and over every run of the engine. */
module EngineTheorems {
  import opened Wrappers
  import opened Tasks
  import opened Pools
  import opened Engine
  import opened EngineHolds
  import opened EngineRuns
  import opened EngineWake
  import opened EngineHistory

  ghost predicate Inv(s: State) {
    && Records(s) && Protocol(s) && Books(s) && Fits(s)
    && OneRun(s) && Spaced(s) && AllCovered(s) && Counted(s)
  }

  lemma OneRunStep(s: State, step: Step)
    requires OneRun(s) && Records(s) && Protocol(s) && Enabled(s, step)
    ensures OneRun(Apply(s, step))
  {
    if Quiet(step) {
      QuietFrame(s, step);
      OneRunSame(s, Apply(s, step));
    } else {
      match step
      case OfExec(x) => if x.Consume? { OneRunConsume(s); } else { OneRunUp(s, x); }
      case OfWatcher(x) => OneRunFinish(s, x);
      case OfClient(x) => OneRunClient(s, x);
    }
  }

  lemma SpacedStep(s: State, step: Step)
    requires Spaced(s) && Records(s) && Protocol(s) && Enabled(s, step)
    ensures Spaced(Apply(s, step))
  {
    if Quiet(step) {
      QuietFrame(s, step);
      SpacedSame(s, Apply(s, step));
    } else {
      match step
      case OfExec(Consume) => SpacedConsume(s);
      case OfExec(UpOk(run, data)) => SpacedUpOk(s, run, data);
      case OfExec(x) => SpacedUpFail(s, x);
      case OfWatcher(x) => SpacedFinish(s, x.j, x.status, x.next);
      case OfClient(x) => SpacedClient(s, x);
    }
  }

  /** Every step keeps every invariant. */
  lemma InvStep(s: State, step: Step)
    requires Inv(s) && Enabled(s, step)
    ensures Inv(Apply(s, step))
  {
    RecordsStep(s, step);
    ProtocolStep(s, step);
    BooksStep(s, step);
    FitsStep(s, step);
    OneRunStep(s, step);
    SpacedStep(s, step);
    CoveredStep(s, step);
    CountedStep(s, step);
  }

  lemma {:induction false} InvRun(s: State, steps: seq<Step>)
    requires Inv(s) && ValidRun(s, steps)
    ensures Inv(Exec(s, steps))
    decreases |steps|
  {
    if steps != [] {
      InvStep(s, steps[0]);
      InvRun(Apply(s, steps[0]), steps[1..]);
    }
  }

  /** A state some run of a started scheduler leads to. */
  ghost predicate Reachable(s: State) {
    exists cpu: nat, ram: nat, now: int, steps ::
      ValidRun(Init(cpu, ram, now), steps) && s == Exec(Init(cpu, ram, now), steps)
  }

  lemma ReachableInv(s: State)
    requires Reachable(s)
    ensures Inv(s)
  {
    var cpu: nat, ram: nat, now: int, steps :|
      ValidRun(Init(cpu, ram, now), steps) && s == Exec(Init(cpu, ram, now), steps);
    InvRun(Init(cpu, ram, now), steps);
  }

  // ----- Wake-ups

  /** No wake-up is lost. While the loop is alive and a task waits: a token is in the channel, or the
      loop is between its receive and the end of oneLoop, or somebody owes a Ping, or a timer is armed
      that is due by now or by the task's start (plus the lag of its arming). */
  lemma NoLostWakeup(s: State, id: Id)
    requires Reachable(s) && !s.loop.Stopped? && id in s.store && s.store[id].status.Waiting?
    ensures s.todo.tokens > 0 || (!s.loop.Idle? && !s.loop.Stopped?) || PingOwed(s)
            || exists timer :: timer in s.timers && timer.due <= Max(s.now, s.store[id].start + timer.lag)
  {
    ReachableInv(s);
    assert Covered(s, s.store[id].start);
    if Timed(s, s.store[id].start) {
      var timer :| timer in s.timers && InTime(timer, s.now, s.store[id].start);
      assert timer.due <= Max(s.now, s.store[id].start + timer.lag);
    }
  }

  /** Neither the send inside Ping nor the flush inside Done ever waits while the mutex is held,
      the channel holds at most one token, and a token means that the flag is set or that its Ping
      is about to set it. */
  lemma WakeupNeverBlocks(s: State)
    requires Reachable(s)
    ensures s.todo.tokens <= 1
    ensures s.todo.holder.Sending? ==> s.todo.tokens == 0 && Enabled(s, OfWake(PingSend))
    ensures s.todo.holder.Flagging? ==> Enabled(s, OfWake(PingFlag))
    ensures s.todo.holder.Flushing? ==> Enabled(s, OfLoop(DoneFlush))
    ensures s.todo.tokens > 0 ==> s.todo.newMsg || s.todo.holder.Flagging? || s.todo.holder.Flushing?
    ensures s.todo.newMsg ==> s.todo.tokens > 0 || s.loop.Received?
  {
    ReachableInv(s);
    assert s.todo.holder.Flagging? ==> Inside(s.todo, s.todo.holder.who);
  }

  // ----- Resources

  /** What the running jobs ask for, all together. */
  function LiveDemand(jobs: seq<Job>): Usage {
    if jobs == [] then Usage(0, 0, 0)
    else
      var u, job := LiveDemand(jobs[..|jobs| - 1]), jobs[|jobs| - 1];
      if job.phase.Live? then Usage(u.cpu + job.task.cpu, u.ram + job.task.ram, u.processes + 1) else u
  }

  lemma {:induction false} LiveWithinHeld(jobs: seq<Job>, holds: seq<Hold>)
    requires |jobs| == |holds|
    requires forall j :: 0 <= j < |jobs| ==>
               && holds[j].cpu == jobs[j].task.cpu > 0 && holds[j].ram == jobs[j].task.ram > 0
               && (jobs[j].phase.Live? ==> !holds[j].phase.Released?)
    ensures LiveDemand(jobs).cpu <= Held(holds).cpu && LiveDemand(jobs).ram <= Held(holds).ram
    ensures LiveDemand(jobs).processes <= Held(holds).processes
  {
    if jobs != [] {
      var n := |jobs| - 1;
      assert forall j :: 0 <= j < n ==> jobs[..n][j] == jobs[j] && holds[..n][j] == holds[j];
      LiveWithinHeld(jobs[..n], holds[..n]);
    }
  }

  /** Free amounts never go negative, so the live runs together never ask for more than there is. */
  lemma NoOverCommitment(s: State)
    requires Reachable(s)
    ensures s.pool.cpu >= 0 && s.pool.ram >= 0
    ensures LiveDemand(s.jobs).cpu <= s.pool.totalCpu && LiveDemand(s.jobs).ram <= s.pool.totalRam
    ensures s.loop.Chosen? ==> Doable(s.pool, s.loop.task.cpu, s.loop.task.ram)
  {
    ReachableInv(s);
    assert forall j :: 0 <= j < |s.jobs| ==> Admitted(s, s.jobs[j].task);
    LiveWithinHeld(s.jobs, s.pool.holds);
  }

  /** Free plus held is the total, `processes` is the number of holds, and a job that is over (failed,
      or cleaned up) has a cancelled hold until it has been released. */
  lemma ResourcesConserved(s: State)
    requires Reachable(s)
    ensures s.pool.cpu + Held(s.pool.holds).cpu == s.pool.totalCpu
    ensures s.pool.ram + Held(s.pool.holds).ram == s.pool.totalRam
    ensures s.pool.processes == Held(s.pool.holds).processes
    ensures |s.pool.holds| == |s.jobs|
    ensures forall j :: 0 <= j < |s.jobs| && (s.jobs[j].phase.Failed? || s.jobs[j].phase.Gone?) ==>
              (s.pool.holds[j].phase.Released? <==> !Enabled(s, OfWatcher(Release(j))))
    ensures forall j :: 0 <= j < |s.jobs| && s.jobs[j].phase.Live? ==> !Enabled(s, OfWatcher(Release(j)))
  {
    ReachableInv(s);
  }

  function Releases(steps: seq<Step>, j: nat): nat {
    if steps == [] then 0
    else (if steps[0] == OfWatcher(Release(j)) then 1 else 0) + Releases(steps[1..], j)
  }

  function ReleasedYet(p: Pool, j: nat): nat {
    if j < |p.holds| && p.holds[j].phase.Released? then 1 else 0
  }

  lemma ReleaseWatch(s: State, step: WatchStep, j: nat)
    requires Books(s) && WatchEnabled(s, step)
    ensures ReleasedYet(ApplyWatch(s, step).pool, j)
            == ReleasedYet(s.pool, j) + (if step == Release(j) then 1 else 0)
  {
  }

  lemma ReleaseExec(s: State, step: ExecStep, j: nat)
    requires Books(s) && Protocol(s) && ExecEnabled(s, step)
    ensures ReleasedYet(ApplyExec(s, step).pool, j) == ReleasedYet(s.pool, j)
  {
  }

  lemma ReleaseStep(s: State, step: Step, j: nat)
    requires Inv(s) && Enabled(s, step)
    ensures ReleasedYet(Apply(s, step).pool, j)
            == ReleasedYet(s.pool, j) + (if step == OfWatcher(Release(j)) then 1 else 0)
  {
    match step
    case OfClock(x) => assert ApplyClock(s, x).pool == s.pool;
    case OfWake(x) => WakeFrame(s, x);
    case OfLoop(x) => LoopFrame(s, x);
    case OfExec(x) => ReleaseExec(s, x, j);
    case OfWatcher(x) => ReleaseWatch(s, x, j);
    case OfClient(x) => assert ApplyClient(s, x).pool == s.pool;
  }

  /** Over any run, a hold is released exactly once if it ends released and was not, and never otherwise. */
  lemma {:induction false} ReleasedOnce(s: State, steps: seq<Step>, j: nat)
    requires Inv(s) && ValidRun(s, steps)
    ensures Releases(steps, j) == ReleasedYet(Exec(s, steps).pool, j) - ReleasedYet(s.pool, j)
    ensures Releases(steps, j) <= 1
    decreases |steps|
  {
    if steps != [] {
      var s' := Apply(s, steps[0]);
      InvStep(s, steps[0]);
      ReleaseStep(s, steps[0], j);
      ReleasedOnce(s', steps[1..], j);
    }
  }

  // ----- Runs of one task

  /** At most one live run per task, and none while the task's record waits. */
  lemma OneLiveRun(s: State, i: nat, j: nat)
    requires Reachable(s) && i < |s.jobs| && j < |s.jobs|
    requires s.jobs[i].phase.Live?
    ensures s.jobs[j].phase.Live? && s.jobs[j].task.id == s.jobs[i].task.id ==> i == j
    ensures s.jobs[i].task.id in s.store ==> !s.store[s.jobs[i].task.id].status.Waiting?
  {
    ReachableInv(s);
  }

  /** A task that does not recur is launched at most once, whatever happens in between: `jobs` has one
      entry per execTask of the whole run. */
  lemma LaunchedOnce(s: State, i: nat, j: nat)
    requires Reachable(s) && i < |s.jobs| && j < |s.jobs|
    requires s.jobs[i].task.id == s.jobs[j].task.id && !HasCron(s.jobs[i].task)
    ensures i == j
  {
    ReachableInv(s);
    assert Admitted(s, s.jobs[i].task);
  }

  /** Two launches of a periodic task are at least its period apart. */
  lemma PeriodKept(s: State, i: nat, j: nat)
    requires Reachable(s) && i < j < |s.jobs| && s.jobs[i].task.id == s.jobs[j].task.id
    requires HasLaunched(s.jobs[i].phase) && HasLaunched(s.jobs[j].phase)
    requires s.jobs[i].task.every > 0 && s.jobs[i].task.cron == ""
    ensures s.jobs[j].at >= s.jobs[i].at + s.jobs[i].task.every
  {
    ReachableInv(s);
    assert Admitted(s, s.jobs[i].task);
  }

  // ----- Admission

  /** When everything has been given back and a waiting task is past its start, the ready list is not
      empty, karma is defined on it, and whatever its head is, it is due, waiting, doable and of least karma
      among exactly those. */
  lemma AdmittedIsDoable(s: State, id: Id, pick: Option<Id>)
    requires Reachable(s) && s.loop.Cleared?
    requires forall j :: 0 <= j < |s.pool.holds| ==> s.pool.holds[j].phase.Released?
    requires id in s.store && s.store[id].status.Waiting? && s.store[id].start < s.now
    requires ReadyHead(EnterReady(s), pick)
    ensures Due(s, id) && s.store[id].maxExec > 0
    ensures pick.Some? && Due(s, pick.value)
    ensures forall k :: Due(s, k) ==> s.store[k].maxExec > 0 && !Lighter(s.store[k], s.store[pick.value])
  {
    ReachableInv(s);
    assert forall j :: 0 <= j < |s.jobs| ==> Admitted(s, s.jobs[j].task);
    HeldBounds(s.pool.holds);
    assert Admitted(s, s.store[id]);
    assert Due(s, id) && Sure(EnterReady(s), id);
    HeadIsLightest(EnterReady(s), pick.value);
  }

  /** No task that is on the list for sure is lighter than the head. */
  lemma HeadIsLightest(s: State, h: Id)
    requires s.loop.Walking? && ReadyHead(s, Some(h))
    ensures forall id :: Sure(s, id) ==> !Lighter(s.store[id], s.store[h])
  {
    forall id | Sure(s, id) ensures !Lighter(s.store[id], s.store[h]) {
      KarmaOrders(s.store[id], s.store[h]);
    }
  }

  /** Releases that land during the walk of readyToGo: what fitted at its start still fits, so there is such
      a list, and whatever its head is, it waits, is past its start and fits now. */
  lemma WalkIsCoherent(s: State, pick: Option<Id>)
    requires Reachable(s) && s.loop.Walking? && ReadyHead(s, pick)
    ensures forall id :: Sure(s, id) ==> Possible(s, id) && Due(s, id)
    ensures pick.Some? ==> Due(s, pick.value)
    ensures pick.Some? ==> forall id :: Sure(s, id) ==> !Lighter(s.store[id], s.store[pick.value])
    ensures pick.None? ==> forall id :: Due(s, id) ==> !Ripe(s, id, s.loop.at, s.loop.cpu, s.loop.ram)
  {
    ReachableInv(s);
    if pick.Some? {
      HeadIsLightest(s, pick.value);
    }
  }

  // ----- Histories

  /** Every step of the run tells the truth about run numbers. */
  ghost predicate HonestRun(s: State, steps: seq<Step>)
    requires ValidRun(s, steps)
    decreases |steps|
  {
    steps == [] || (Honest(s, steps[0]) && HonestRun(Apply(s, steps[0]), steps[1..]))
  }

  /** Over a run whose runs report their own number, every stored history is strictly decreasing and
      bounded by the run counter. */
  lemma {:induction false} HistoriesRun(s: State, steps: seq<Step>)
    requires Inv(s) && Histories(s) && ValidRun(s, steps) && HonestRun(s, steps)
    ensures forall id :: id in Exec(s, steps).store ==> GoodHistory(Exec(s, steps).store[id])
    decreases |steps|
  {
    if steps != [] {
      InvStep(s, steps[0]);
      HistoriesStep(s, steps[0]);
      HistoriesRun(Apply(s, steps[0]), steps[1..]);
    }
  }

  lemma HistoriesFromStart(cpu: nat, ram: nat, now: int, steps: seq<Step>, id: Id)
    requires ValidRun(Init(cpu, ram, now), steps) && HonestRun(Init(cpu, ram, now), steps)
    requires id in Exec(Init(cpu, ram, now), steps).store
    ensures GoodHistory(Exec(Init(cpu, ram, now), steps).store[id])
  {
    HistoriesRun(Init(cpu, ram, now), steps);
  }

  lemma {:induction false} AtLeastRun(s: State, steps: seq<Step>, id: Id, count: int)
    requires Inv(s) && ValidRun(s, steps) && id in s.issued && AtLeast(s, id, count)
    ensures id in Exec(s, steps).store ==> Exec(s, steps).store[id].runCounter >= count
    decreases |steps|
  {
    if steps != [] {
      InvStep(s, steps[0]);
      AtLeastStep(s, steps[0], id, count);
      AtLeastRun(Apply(s, steps[0]), steps[1..], id, count);
    }
  }

  /** The stored run counter of a task never goes down, not even across a Delete and the re-Put of a
      watcher that was still running. */
  lemma CounterNeverDrops(s: State, steps: seq<Step>, id: Id)
    requires Reachable(s) && ValidRun(s, steps)
    requires id in s.store && id in Exec(s, steps).store
    ensures Exec(s, steps).store[id].runCounter >= s.store[id].runCounter
  {
    ReachableInv(s);
    AtLeastRun(s, steps, id, s.store[id].runCounter);
  }
}
