/** When the loop spins: a timer that is due at once wakes it, and it finds nothing ready again
    (scheduler/scheduler.go:212-228). */
module EngineSpin {
  import opened Wrappers
  import opened Tasks
  import opened Engine
  import opened EngineHolds
  import opened EngineWake
  import opened EngineTheorems
  import opened EngineDrain
  import W = Wakeups

  /** Steps of the loop outside execTask, of timers and of Pings: no time passes, no client calls, no run starts
      or ends. */
  predicate Turning(step: Step) {
    (step.OfLoop? && !step.loop.Stop?) || (step.OfClock? && step.clock.Fire?) || step.OfWake?
  }

  ghost predicate Turns(s: State, s': State) {
    exists steps :: ValidRun(s, steps) && (forall i :: 0 <= i < |steps| ==> Turning(steps[i])) && Exec(s, steps) == s'
  }

  /** At least one step, and back in the very same state. */
  ghost predicate Spins(s: State) {
    exists step :: Enabled(s, step) && Turning(step) && Turns(Apply(s, step), s)
  }

  lemma TurnsSelf(s: State)
    ensures Turns(s, s)
  {
    assert ValidRun(s, []) && Exec(s, []) == s;
  }

  lemma TurnsStep(s: State, step: Step, s': State)
    requires Enabled(s, step) && Turning(step) && Turns(Apply(s, step), s')
    ensures Turns(s, s')
  {
    var rest :| ValidRun(Apply(s, step), rest) && (forall i :: 0 <= i < |rest| ==> Turning(rest[i]))
                && Exec(Apply(s, step), rest) == s';
    RunCons(s, step, rest);
  }

  /** The loop found nothing ready, and nothing but its own next timer will wake it. */
  ghost predicate Calm(s: State) {
    && s.loop.Empty? && !PingOwed(s) && s.todo == W.Todo(false, 0, W.Free)
    && (forall timer :: timer in s.timers ==> timer.due > s.now)
  }

  ghost predicate SomeDue(s: State) {
    exists id :: Due(s, id)
  }

  ghost predicate SomeStarted(s: State) {
    exists id :: id in s.store && s.store[id].status.Waiting? && s.store[id].start <= s.now
  }

  // ----- It spins

  /** From the due timer to the end of Done. */
  lemma TimerWakes(s: State, timer: Timer, s': State)
    requires s.loop.Idle? && s.owed == 0 && s.todo == W.Todo(false, 0, W.Free)
    requires timer in s.timers && timer.due <= s.now
    requires Turns(s.(timers := s.timers - multiset{timer}, loop := Cleared), s')
    ensures Turns(s, s')
  {
    var s1 := ApplyClock(s, Fire(timer));
    var s2 := LockPing(s1, W.Someone);
    var s3 := ApplyWake(s2, PingSend);
    var s4 := FlagPing(s3);
    var s5 := ApplyLoop(s4, Receive);
    var s6 := LockDone(s5);
    var s7 := ApplyLoop(s6, DoneFlush);
    assert s7 == s.(timers := s.timers - multiset{timer}, loop := Cleared);
    TurnsStep(s6, OfLoop(DoneFlush), s');
    TurnsStep(s5, OfLoop(DoneLock), s');
    TurnsStep(s4, OfLoop(Receive), s');
    TurnsStep(s3, OfWake(PingFlag), s');
    TurnsStep(s2, OfWake(PingSend), s');
    TurnsStep(s1, OfWake(PingLock(W.Someone)), s');
    TurnsStep(s, OfClock(Fire(timer)), s');
  }

  lemma FindsNothing(s: State)
    requires s.loop.Cleared? && !SomeDue(s)
    ensures Turns(s, s.(loop := Empty))
  {
    var s1 := EnterReady(s);
    var s2 := s.(loop := Empty);
    assert forall id :: id in s.store && Sure(s1, id) ==> Due(s, id);
    assert Apply(s1, OfLoop(Ready(None))) == s2;
    TurnsSelf(s2);
    TurnsStep(s1, OfLoop(Ready(None)), s2);
    TurnsStep(s, OfLoop(Look), s2);
  }

  lemma {:induction false} FirstToStart(s: State, ids: set<Id>) returns (h: Id)
    requires ids != {} && forall id :: id in ids ==> id in s.store
    ensures h in ids && forall id :: id in ids ==> s.store[h].start <= s.store[id].start
  {
    h :| h in ids;
    if ids != {h} {
      var k := FirstToStart(s, ids - {h});
      h := if s.store[h].start <= s.store[k].start then h else k;
    }
  }

  /** From the clock reading to the armed timer. */
  lemma PlansTurning(s: State, h: Id, s': State)
    requires s.loop.Empty? && NextHead(s, Some(h))
    requires Turns(s.(timers := s.timers + multiset{NewTimer(s.now, s.store[h].start, s.now)}, loop := Idle), s')
    ensures Turns(ApplyLoop(s, ReadClock), s')
  {
    var s1 := ApplyLoop(s, ReadClock);
    var s2 := ApplyLoop(s1, Plan(Some(h)));
    TurnsStep(s2, OfLoop(Arm), s');
    TurnsStep(s1, OfLoop(Plan(Some(h))), s');
  }

  lemma SpinsBy(s: State)
    requires s.loop.Empty? && Turns(ApplyLoop(s, ReadClock), s)
    ensures Spins(s)
  {
    assert Apply(s, OfLoop(ReadClock)) == ApplyLoop(s, ReadClock);
    assert Turning(OfLoop(ReadClock));
  }

  lemma SpinsFrom(s: State, h: Id)
    requires Calm(s) && !SomeDue(s) && NextHead(s, Some(h)) && s.store[h].start <= s.now
    ensures Spins(s)
  {
    var timer := NewTimer(s.now, s.store[h].start, s.now);
    var armed := s.(timers := s.timers + multiset{timer}, loop := Idle);
    var cleared := s.(loop := Cleared);
    assert armed.timers - multiset{timer} == s.timers;
    assert armed.(timers := armed.timers - multiset{timer}, loop := Cleared) == cleared;
    assert forall id :: Due(cleared, id) ==> Due(s, id);
    FindsNothing(cleared);
    assert cleared.(loop := Empty) == s;
    TimerWakes(armed, timer, s);
    PlansTurning(s, h, s);
    SpinsBy(s);
  }

  lemma SpinsWhen(s: State)
    requires Calm(s) && !SomeDue(s) && SomeStarted(s)
    ensures Spins(s)
  {
    var waiting := set id | id in s.store && s.store[id].status.Waiting?;
    var some :| some in s.store && s.store[some].status.Waiting? && s.store[some].start <= s.now;
    assert some in waiting;
    var h := FirstToStart(s, waiting);
    assert forall id :: id in s.store && s.store[id].status.Waiting? ==> id in waiting;
    SpinsFrom(s, h);
  }

  // ----- Otherwise it does not

  /** What turning leaves alone. */
  predicate SameWorld(s: State, t: State) {
    t.store == s.store && t.pool == s.pool && t.now == s.now
  }

  /** With a task that is due, the loop never finds an empty list again: it stops in front of execTask. */
  predicate NeverEmpty(t: State) {
    !t.loop.Empty? && (t.loop.Walking? ==> t.loop == Walking(t.now, t.pool.cpu, t.pool.ram))
  }

  lemma NeverEmptyStep(t: State, step: Step)
    requires NeverEmpty(t) && Protocol(t) && SomeDue(t) && Enabled(t, step) && Turning(step)
    ensures NeverEmpty(Apply(t, step)) && SameWorld(t, Apply(t, step))
  {
    match step
    case OfClock(_) =>
    case OfWake(x) => NeverEmptyWake(t, x);
    case OfLoop(x) =>
      if x.Ready? {
        var id :| Due(t, id);
        DueIsSure(t, id);
      }
  }

  lemma NeverEmptyWake(t: State, step: WakeStep)
    requires NeverEmpty(t) && Protocol(t) && WakeEnabled(t, step)
    ensures NeverEmpty(ApplyWake(t, step)) && SameWorld(t, ApplyWake(t, step))
  {
    assert step.PingFlag? ==> Inside(t.todo, t.todo.holder.who);
  }

  lemma DueIsSure(t: State, id: Id)
    requires t.loop == Walking(t.now, t.pool.cpu, t.pool.ram) && Due(t, id)
    ensures Sure(t, id)
  {
  }

  lemma {:induction false} NeverEmptyRun(t: State, steps: seq<Step>)
    requires NeverEmpty(t) && Protocol(t) && SomeDue(t) && ValidRun(t, steps)
    requires forall i :: 0 <= i < |steps| ==> Turning(steps[i])
    ensures NeverEmpty(Exec(t, steps))
    decreases |steps|
  {
    if steps != [] {
      var t1 := Apply(t, steps[0]);
      NeverEmptyStep(t, steps[0]);
      ProtocolStep(t, steps[0]);
      var id :| Due(t, id);
      assert Due(t1, id);
      assert forall i :: 0 <= i < |steps[1..]| ==> steps[1..][i] == steps[i + 1];
      NeverEmptyRun(t1, steps[1..]);
    }
  }

  /** How far a loop that nothing wakes is from its sleep. */
  function ToSleep(loop: Pc): nat {
    match loop
    case Empty => 3
    case Planning(_) => 2
    case Arming(_, _) => 1
    case _ => 0
  }

  /** Without a task past its start, the armed timers lie in the future and nothing wakes the loop. */
  ghost predicate FallsAsleep(t: State) {
    && (t.loop.Empty? || t.loop.Planning? || t.loop.Arming? || t.loop.Idle?)
    && (t.loop.Planning? ==> t.loop.t0 == t.now)
    && (t.loop.Arming? ==> t.loop.t0 == t.now < t.loop.start)
    && !PingOwed(t) && t.todo == W.Todo(false, 0, W.Free)
    && (forall timer :: timer in t.timers ==> timer.due > t.now)
    && !SomeStarted(t)
  }

  lemma FallsAsleepStep(t: State, step: Step)
    requires FallsAsleep(t) && Enabled(t, step) && Turning(step)
    ensures FallsAsleep(Apply(t, step)) && ToSleep(Apply(t, step).loop) < ToSleep(t.loop)
  {
    assert step.OfLoop?;
    var t' := Apply(t, step);
    assert t'.store == t.store && t'.now == t.now && t'.jobs == t.jobs && t'.owed == t.owed && t'.todo == t.todo;
    if step.loop.Plan? && step.loop.pick.Some? {
      assert t.store[step.loop.pick.value].start > t.now;
    }
  }

  lemma {:induction false} FallsAsleepRun(t: State, steps: seq<Step>)
    requires FallsAsleep(t) && ValidRun(t, steps)
    requires forall i :: 0 <= i < |steps| ==> Turning(steps[i])
    ensures ToSleep(Exec(t, steps).loop) <= ToSleep(t.loop)
    decreases |steps|
  {
    if steps != [] {
      FallsAsleepStep(t, steps[0]);
      assert forall i :: 0 <= i < |steps[1..]| ==> steps[1..][i] == steps[i + 1];
      FallsAsleepRun(Apply(t, steps[0]), steps[1..]);
    }
  }

  lemma OnlyReadsClock(s: State, step: Step)
    requires Calm(s) && Enabled(s, step) && Turning(step)
    ensures step == OfLoop(ReadClock)
  {
  }

  lemma NoWayBack(s: State, t: State, steps: seq<Step>)
    requires Calm(s) && Protocol(s) && t == ApplyLoop(s, ReadClock) && (SomeDue(s) || !SomeStarted(s))
    requires ValidRun(t, steps) && forall i :: 0 <= i < |steps| ==> Turning(steps[i])
    ensures Exec(t, steps) != s
  {
    if SomeDue(s) {
      var id :| Due(s, id);
      assert Due(t, id);
      ProtocolLoop(s, ReadClock);
      NeverEmptyRun(t, steps);
    } else {
      FallsAsleepStep(s, OfLoop(ReadClock));
      FallsAsleepRun(t, steps);
    }
  }

  /** The loop turns without any sleep and comes back to the very same state if and only if some waiting task
      is not in the future and none is due: what has started does not fit, or starts right now. */
  lemma SpinsExactly(s: State)
    requires Reachable(s) && Calm(s)
    ensures Spins(s) <==> SomeStarted(s) && !SomeDue(s)
  {
    if SomeStarted(s) && !SomeDue(s) {
      SpinsWhen(s);
    } else if Spins(s) {
      ReachableInv(s);
      var step :| Enabled(s, step) && Turning(step) && Turns(Apply(s, step), s);
      OnlyReadsClock(s, step);
      var t := ApplyLoop(s, ReadClock);
      var steps :| ValidRun(t, steps) && (forall i :: 0 <= i < |steps| ==> Turning(steps[i])) && Exec(t, steps) == s;
      NoWayBack(s, t, steps);
      assert false;
    }
  }
}
