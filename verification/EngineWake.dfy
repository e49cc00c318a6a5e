/** No wake-up is lost: what every step keeps. */
module EngineWake {
  import opened Engine
  import opened EngineHolds
  import W = Wakeups

  function Max(a: int, b: int): int {
    if a > b then a else b
  }

  /** Between the receive and the end of oneLoop, up to the answer of `next`. */
  predicate Scanning(loop: Pc) {
    !loop.Idle? && !loop.Arming? && !loop.Stopped?
  }

  /** Somebody has decided to Ping and has not reached the channel yet. */
  ghost predicate PingOwed(s: State) {
    || s.owed > 0
    || s.todo.holder.Sending?
    || exists j :: 0 <= j < |s.jobs| && s.jobs[j].phase.MustPing?
  }

  /** A timer in time for a task with this start. The lag is what the code itself adds: the time
      between reading the clock (line 221) and arming (line 225). */
  predicate InTime(timer: Timer, now: int, start: int) {
    timer.due <= Max(now, start + timer.lag)
  }

  ghost predicate Timed(s: State, start: int) {
    exists timer :: timer in s.timers && InTime(timer, s.now, start)
  }

  /** What guarantees another scan for a task with this start. */
  ghost predicate Covered(s: State, start: int) {
    || s.todo.tokens > 0
    || Scanning(s.loop)
    || PingOwed(s)
    || (s.loop.Arming? && s.loop.start <= start)
    || Timed(s, start)
  }

  ghost predicate AllCovered(s: State) {
    && ((s.loop.Planning? || s.loop.Arming?) ==> s.loop.t0 <= s.now)
    && (forall timer :: timer in s.timers ==> timer.lag >= 0)
    && (!s.loop.Stopped? ==>
          forall id :: id in s.store && s.store[id].status.Waiting? ==> Covered(s, s.store[id].start))
  }

  lemma TimedLater(s: State, start: int, d: nat)
    requires Timed(s, start)
    ensures Timed(s.(now := s.now + d), start)
  {
    var timer :| timer in s.timers && InTime(timer, s.now, start);
    assert InTime(timer, s.now + d, start);
  }

  lemma CoveredClock(s: State, step: ClockStep)
    requires AllCovered(s) && ClockEnabled(s, step)
    ensures AllCovered(ApplyClock(s, step))
  {
    var s' := ApplyClock(s, step);
    forall id | id in s.store && s.store[id].status.Waiting? && !s.loop.Stopped?
      ensures Covered(s', s.store[id].start)
    {
      assert Covered(s, s.store[id].start);
      if step.Tick? && Timed(s, s.store[id].start) {
        TimedLater(s, s.store[id].start, step.d);
      }
    }
  }

  /** Ping drops the message only when a token is already there or the loop is about to scan. */
  lemma CoveredLock(s: State, who: W.Who)
    requires AllCovered(s) && Protocol(s) && s.todo.holder.Free? && CanPing(s, who)
    ensures AllCovered(LockPing(s, who))
  {
    var s' := LockPing(s, who);
    assert s.todo.newMsg ==> s'.todo.tokens > 0 || Scanning(s'.loop);
    assert !s.todo.newMsg ==> s'.todo.holder.Sending?;
  }

  lemma CoveredWake(s: State, step: WakeStep)
    requires AllCovered(s) && Protocol(s) && WakeEnabled(s, step)
    ensures AllCovered(ApplyWake(s, step))
  {
    match step
    case PingLock(who) => CoveredLock(s, who);
    case PingSend => assert ApplyWake(s, step).todo.tokens > 0;
    case PingFlag =>
      var s' := ApplyWake(s, step);
      assert Inside(s.todo, s.todo.holder.who);
      assert s'.todo.tokens > 0 || Scanning(s'.loop);
  }

  /** The new timer is in time for every waiting task that nothing else covers. */
  lemma CoveredArm(s: State)
    requires AllCovered(s) && s.loop.Arming?
    ensures AllCovered(ArmTimer(s))
  {
    var s' := ArmTimer(s);
    var timer := NewTimer(s.now, s.loop.start, s.loop.t0);
    assert timer in s'.timers;
    forall id | id in s.store && s.store[id].status.Waiting?
      ensures Covered(s', s.store[id].start)
    {
      var start := s.store[id].start;
      if Timed(s, start) {
        var earlier :| earlier in s.timers && InTime(earlier, s.now, start);
        assert earlier in s'.timers;
      } else if s.loop.start <= start {
        assert InTime(timer, s'.now, start);
      }
    }
  }

  lemma CoveredLoop(s: State, step: LoopStep)
    requires AllCovered(s) && LoopEnabled(s, step)
    ensures AllCovered(ApplyLoop(s, step))
  {
    if step.Arm? {
      CoveredArm(s);
    } else {
      var s' := ApplyLoop(s, step);
      assert Scanning(s'.loop) || step.Plan? || s'.loop.Stopped?;
    }
  }

  lemma CoveredExec(s: State, step: ExecStep)
    requires AllCovered(s) && ExecEnabled(s, step)
    ensures AllCovered(ApplyExec(s, step))
  {
    assert Scanning(ApplyExec(s, step).loop);
  }

  lemma CoveredWatch(s: State, step: WatchStep)
    requires AllCovered(s) && WatchEnabled(s, step)
    ensures AllCovered(ApplyWatch(s, step))
  {
    var s' := ApplyWatch(s, step);
    if step.Finish? {
      assert s'.jobs[step.j].phase.MustPing?;
    } else {
      assert s'.store == s.store && s'.timers == s.timers && s'.loop == s.loop;
      assert s'.todo == s.todo && s'.owed == s.owed;
      assert forall j :: 0 <= j < |s.jobs| && s.jobs[j].phase.MustPing? ==> s'.jobs[j].phase.MustPing?;
    }
  }

  lemma CoveredClient(s: State, step: ClientStep)
    requires AllCovered(s) && Records(s) && ClientEnabled(s, step)
    ensures AllCovered(ApplyClient(s, step))
  {
    var s' := ApplyClient(s, step);
    assert s'.timers == s.timers && s'.loop == s.loop && s'.todo == s.todo && s'.jobs == s.jobs && s'.now == s.now;
    forall id | id in s'.store && s'.store[id].status.Waiting?
      ensures Covered(s', s'.store[id].start) || s.loop.Stopped?
    {
      if !(step.Add? && Refusal(s, step.task).None?) {
        assert id in s.store && s.store[id].status.Waiting? && s.store[id].start == s'.store[id].start;
        assert Covered(s, s.store[id].start) || s.loop.Stopped?;
      }
    }
  }

  lemma CoveredStep(s: State, step: Step)
    requires AllCovered(s) && Records(s) && Protocol(s) && Enabled(s, step)
    ensures AllCovered(Apply(s, step))
  {
    match step
    case OfClock(x) => CoveredClock(s, x);
    case OfWake(x) => CoveredWake(s, x);
    case OfLoop(x) => CoveredLoop(s, x);
    case OfExec(x) => CoveredExec(s, x);
    case OfWatcher(x) => CoveredWatch(s, x);
    case OfClient(x) => CoveredClient(s, x);
  }
}
