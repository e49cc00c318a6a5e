/** What must happen: from a state where everything has been given back and every waiting task has started, the
    scheduler's own steps cannot go on for long without a launch. */
module EngineForced {
  import opened Wrappers
  import opened Tasks
  import opened Pools
  import opened Engine
  import opened EngineHolds
  import opened EngineTheorems
  import opened EngineProgress
  import opened EngineDrain
  import W = Wakeups

  /** A step of the scheduler itself that takes no time. */
  predicate OwnNow(step: Step) {
    Own(step) && !(step.OfClock? && step.clock.Tick?)
  }

  /** A launch or a failed launch. */
  predicate Launch(step: Step) {
    step.OfExec? && (step.exec.UpOk? || step.exec.FailPut?)
  }

  /** No watcher is at work and nothing is held but by the task in hand. */
  ghost predicate Undisturbed(s: State) {
    && (forall j :: 0 <= j < |s.jobs| ==>
          s.jobs[j].phase.Starting? || s.jobs[j].phase.Failing? || s.jobs[j].phase.Failed? || s.jobs[j].phase.Gone?)
    && (forall j :: 0 <= j < |s.pool.holds| && s.pool.holds[j].phase.Cancelled? ==> s.loop == Aborting(j))
  }

  /** A task waits, every waiting task has started, and nothing but the loop is at work. */
  ghost predicate Pressing(s: State) {
    Undisturbed(s) && WaitingIds(s) != {} && AllStarted(s, s.now) && !s.loop.Stopped?
  }

  /** The walk of readyToGo will find every waiting task. */
  ghost predicate SeesAll(s: State)
    requires s.loop.Walking?
  {
    forall id :: id in WaitingIds(s) ==> Sure(s, id)
  }

  /** The way of the loop to its next launch: a walk that misses a task is at its beginning. */
  ghost function Ahead(s: State): nat {
    if s.loop.Walking? then (if SeesAll(s) then 3 else 15) else Distance(s)
  }

  /** How many steps there can be before the next launch. */
  ghost function Left(s: State): nat
    requires |s.jobs| == |s.pool.holds|
  {
    10 * Ahead(s) + 4 * |s.timers| + Chores(s)
  }

  // ----- Every step counts

  lemma ForcedFire(s: State, timer: Timer)
    requires Pressing(s) && |s.jobs| == |s.pool.holds| && ClockEnabled(s, Fire(timer))
    ensures var s' := ApplyClock(s, Fire(timer)); Pressing(s') && Left(s') < Left(s)
  {
    var s' := ApplyClock(s, Fire(timer));
    assert |s'.timers| == |s.timers| - 1;
    assert WaitingIds(s') == WaitingIds(s);
    assert s.loop.Walking? ==> (SeesAll(s') <==> SeesAll(s));
  }

  /** The steps of Ping by adders and timers leave the loop where it is. */
  lemma ForcedPing(s: State, step: WakeStep)
    requires Pressing(s) && Protocol(s) && |s.jobs| == |s.pool.holds| && WakeEnabled(s, step)
    requires step.PingLock? ==> step.who.Someone?
    requires !step.PingLock? ==> s.todo.holder.who.Someone?
    ensures var s' := ApplyWake(s, step); Pressing(s') && Left(s') < Left(s)
  {
    var s' := ApplyWake(s, step);
    assert s'.store == s.store && s'.loop == s.loop && s'.jobs == s.jobs && s'.pool == s.pool && s'.timers == s.timers;
    assert WaitingIds(s') == WaitingIds(s);
    assert s.loop.Walking? ==> (SeesAll(s') <==> SeesAll(s));
    assert s.loop.Idle? ==> Awake(s) && Awake(s');
  }

  lemma ForcedOwnPing(s: State, step: WakeStep)
    requires Pressing(s) && Protocol(s) && |s.jobs| == |s.pool.holds| && WakeEnabled(s, step)
    requires if step.PingLock? then step.who.Loop? else s.todo.holder.who.Loop?
    ensures var s' := ApplyWake(s, step); Pressing(s') && Left(s') < Left(s)
  {
    var s' := ApplyWake(s, step);
    assert !step.PingLock? ==> Inside(s.todo, W.Loop);
    assert s'.jobs == s.jobs && s'.store == s.store && s'.timers == s.timers && s'.pool == s.pool && s'.owed == s.owed;
    assert WaitingIds(s') == WaitingIds(s);
  }

  /** No watcher pings. */
  lemma NoWatcherPings(s: State, step: WakeStep)
    requires Undisturbed(s) && Protocol(s) && WakeEnabled(s, step)
    ensures !(if step.PingLock? then step.who else s.todo.holder.who).Watcher?
  {
    assert !step.PingLock? ==> Inside(s.todo, s.todo.holder.who);
  }

  lemma ForcedWake(s: State, step: WakeStep)
    requires Pressing(s) && Protocol(s) && |s.jobs| == |s.pool.holds| && WakeEnabled(s, step)
    ensures var s' := ApplyWake(s, step); Pressing(s') && Left(s') < Left(s)
  {
    NoWatcherPings(s, step);
    if (if step.PingLock? then step.who else s.todo.holder.who).Someone? {
      ForcedPing(s, step);
    } else {
      ForcedOwnPing(s, step);
    }
  }

  /** A fresh walk finds every waiting task: everything has been given back, so every one fits. */
  lemma FreshWalkSees(s: State)
    requires Records(s) && Books(s) && Protocol(s) && Pressing(s) && s.loop.Cleared?
    ensures SeesAll(EnterReady(s))
  {
    assert forall j :: 0 <= j < |s.jobs| ==> Admitted(s, s.jobs[j].task);
    HeldBounds(s.pool.holds);
    forall id | id in WaitingIds(s) ensures Sure(EnterReady(s), id) {
      assert Admitted(s, s.store[id]);
    }
  }

  /** Steps of the loop change only the loop, the wake-up and the timers. */
  lemma PressingLoop(s: State, s': State)
    requires Pressing(s) && s'.jobs == s.jobs && s'.store == s.store && s'.pool == s.pool && s'.now == s.now
    requires !s'.loop.Stopped? && !s.loop.Aborting? && !s'.loop.Aborting?
    ensures Pressing(s') && WaitingIds(s') == WaitingIds(s)
  {
    assert WaitingIds(s') == WaitingIds(s);
  }

  lemma ForcedReady(s: State, pick: Option<Id>)
    requires Pressing(s) && LoopEnabled(s, Ready(pick))
    ensures Ahead(TakeReady(s, pick)) < Ahead(s)
  {
    var id :| id in WaitingIds(s);
    assert SeesAll(s) ==> Sure(s, id);
  }

  lemma ForcedArm(s: State)
    requires s.loop.Arming?
    ensures 10 * Ahead(ArmTimer(s)) + 4 * |ArmTimer(s).timers| < 10 * Ahead(s) + 4 * |s.timers|
  {
    assert |ArmTimer(s).timers| == |s.timers| + 1;
  }

  lemma ForcedAdvance(s: State, step: LoopStep)
    requires Pressing(s) && Protocol(s) && LoopEnabled(s, step)
    requires !step.Stop? && !step.Look? && !step.Ready? && !step.Arm?
    ensures Ahead(ApplyLoop(s, step)) < Ahead(s)
  {
  }

  lemma ForcedLoopAhead(s: State, step: LoopStep)
    requires Records(s) && Books(s) && Protocol(s) && Pressing(s) && LoopEnabled(s, step) && !step.Stop?
    ensures var s' := ApplyLoop(s, step); 10 * Ahead(s') + 4 * |s'.timers| < 10 * Ahead(s) + 4 * |s.timers|
  {
    match step
    case Look => FreshWalkSees(s);
    case Ready(pick) => ForcedReady(s, pick);
    case Arm => ForcedArm(s);
    case _ => ForcedAdvance(s, step);
  }

  lemma ChoresOfLoop(s: State, step: LoopStep)
    requires |s.jobs| == |s.pool.holds| && LoopEnabled(s, step)
    ensures var s' := ApplyLoop(s, step); |s'.jobs| == |s'.pool.holds| && Chores(s') <= Chores(s)
  {
  }

  lemma ForcedLoop(s: State, step: LoopStep)
    requires Records(s) && Books(s) && Protocol(s) && Pressing(s) && LoopEnabled(s, step) && !step.Stop?
    ensures var s' := ApplyLoop(s, step); Pressing(s') && Left(s') < Left(s)
  {
    PressingLoop(s, ApplyLoop(s, step));
    ForcedLoopAhead(s, step);
    ChoresOfLoop(s, step);
  }

  /** From the choice to the answer of Up, but not the launch itself. */
  lemma ForcedConsume(s: State)
    requires Pressing(s) && |s.jobs| == |s.pool.holds| && s.loop.Chosen?
    ensures var s' := ConsumeFor(s); |s'.jobs| == |s'.pool.holds| && Pressing(s') && Left(s') < Left(s)
  {
    var s' := ConsumeFor(s);
    assert s'.jobs[..|s.jobs|] == s.jobs && s'.pool.holds[..|s.jobs|] == s.pool.holds;
    assert WaitingIds(s') == WaitingIds(s);
  }

  lemma ForcedUpFail(s: State, counted: bool, partial: Option<RunData>)
    requires Pressing(s) && Protocol(s) && ExecEnabled(s, UpFail(counted, partial))
    ensures var s' := UpFails(s, counted, partial); |s'.jobs| == |s'.pool.holds| && Pressing(s') && Left(s') < Left(s)
  {
    var s', j := UpFails(s, counted, partial), s.loop.job;
    assert s'.pool.holds == s.pool.holds[j := s'.pool.holds[j]];
    ChoresOfFailure(s, s', j);
    assert WaitingIds(s') == WaitingIds(s);
  }

  lemma ChoresOfFailure(s: State, s': State, j: nat)
    requires |s.jobs| == |s.pool.holds| == |s'.jobs| == |s'.pool.holds| && j < |s.jobs| && s.jobs[j].phase.Starting?
    requires s'.jobs == s.jobs[j := s'.jobs[j]] && s'.pool.holds == s.pool.holds[j := s'.pool.holds[j]]
    requires s'.jobs[j].phase.Failing? && s'.owed == s.owed && s'.todo == s.todo
    ensures Chores(s') <= Chores(s) + 1
  {
    WeightsUpdate(s.jobs, s.pool.holds, j, s'.jobs[j], s'.pool.holds[j]);
  }

  lemma ForcedRelease(s: State, j: nat)
    requires Pressing(s) && |s.jobs| == |s.pool.holds| && WatchEnabled(s, Release(j))
    ensures var s' := ApplyWatch(s, Release(j)); |s'.jobs| == |s'.pool.holds| && Pressing(s') && Left(s') < Left(s)
  {
    var s' := ApplyWatch(s, Release(j));
    WeightsUpdate(s.jobs, s.pool.holds, j, s.jobs[j], s'.pool.holds[j]);
    assert s.jobs[j := s.jobs[j]] == s.jobs;
    assert WaitingIds(s') == WaitingIds(s);
  }

  lemma ForcedWatch(s: State, step: WatchStep)
    requires Pressing(s) && |s.jobs| == |s.pool.holds| && WatchEnabled(s, step)
    ensures var s' := ApplyWatch(s, step); |s'.jobs| == |s'.pool.holds| && Pressing(s') && Left(s') < Left(s)
  {
    match step
    case Release(j) => ForcedRelease(s, j);
    case Finish(j, _, _) => assert false;
    case Cleanup(j) => assert false;
  }

  /** Every step that is not the launch brings it nearer. */
  lemma ForcedStep(s: State, step: Step)
    requires Records(s) && Books(s) && Protocol(s) && Pressing(s) && Enabled(s, step) && OwnNow(step) && !Launch(step)
    ensures var s' := Apply(s, step); |s'.jobs| == |s'.pool.holds| && Pressing(s') && Left(s') < Left(s)
  {
    match step
    case OfClock(x) => ForcedFire(s, x.timer);
    case OfWake(x) => WakeFrame(s, x); ForcedWake(s, x);
    case OfLoop(x) => LoopFrame(s, x); ForcedLoop(s, x);
    case OfExec(Consume) => ForcedConsume(s);
    case OfExec(UpFail(counted, partial)) => ForcedUpFail(s, counted, partial);
    case OfWatcher(x) => ForcedWatch(s, x);
  }

  ghost predicate HasLaunch(steps: seq<Step>) {
    steps != [] && (Launch(steps[0]) || HasLaunch(steps[1..]))
  }

  ghost predicate AllOwnNow(steps: seq<Step>) {
    steps == [] || (OwnNow(steps[0]) && AllOwnNow(steps[1..]))
  }

  lemma {:induction false} LaunchIsForced(s: State, steps: seq<Step>)
    requires Inv(s) && Pressing(s) && ValidRun(s, steps) && AllOwnNow(steps) && |steps| > Left(s)
    ensures HasLaunch(steps)
    decreases |steps|
  {
    if !Launch(steps[0]) {
      InvStep(s, steps[0]);
      ForcedStep(s, steps[0]);
      LaunchIsForced(Apply(s, steps[0]), steps[1..]);
    }
  }

  /** Inevitability: from a reachable state in which a task waits, every waiting task has started and everything
      outside the loop is done, there is a bound such that every longer run of the scheduler's own steps, in
      whatever order and without any time passing, contains a launch or a failed launch. */
  lemma LaunchIsInevitable(s: State, steps: seq<Step>)
    requires Reachable(s) && Settled(s) && WaitingIds(s) != {} && AllStarted(s, s.now) && !s.loop.Stopped?
    requires ValidRun(s, steps) && AllOwnNow(steps)
    ensures |s.jobs| == |s.pool.holds|
    ensures |steps| > Left(s) ==> HasLaunch(steps)
  {
    ReachableInv(s);
    NoWatcherLeft(s);
    if |steps| > Left(s) {
      LaunchIsForced(s, steps);
    }
  }

  lemma NoWatcherLeft(s: State)
    requires Protocol(s) && Settled(s)
    ensures Undisturbed(s)
  {
    forall j | 0 <= j < |s.jobs|
      ensures s.jobs[j].phase.Starting? || s.jobs[j].phase.Failing? || s.jobs[j].phase.Failed? || s.jobs[j].phase.Gone?
    {
      assert !s.jobs[j].phase.MustPing? && !Inside(s.todo, W.Watcher(j));
    }
  }
}
