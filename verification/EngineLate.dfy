/** When the timer for a task comes late: between reading the clock (scheduler/scheduler.go:221) and arming the
    timer (225) time may pass. */
module EngineLate {
  import opened Wrappers
  import opened Tasks
  import opened Engine
  import opened EngineHolds
  import opened EngineWake
  import opened EngineTheorems
  import opened EngineWhole
  import W = Wakeups

  /** A timer that is due by now or by the start. */
  predicate Punctual(timer: Timer, now: int, start: int) {
    timer.due <= Max(now, start)
  }

  /** The promise without any allowance for lateness, for a waiting task with this start. */
  ghost predicate StrictlyCovered(s: State, start: int) {
    || s.todo.tokens > 0
    || (!s.loop.Idle? && !s.loop.Stopped?)
    || PingOwed(s)
    || exists timer :: timer in s.timers && Punctual(timer, s.now, start)
  }

  ghost predicate AllStrictlyCovered(s: State) {
    forall id :: id in s.store && s.store[id].status.Waiting? ==> StrictlyCovered(s, s.store[id].start)
  }

  // ----- Runs in which arming takes at most some time

  predicate Arranging(loop: Pc) {
    loop.Planning? || loop.Arming?
  }

  /** At most `most` passes between reading the clock and arming. */
  predicate Prompt(s: State, step: Step, most: nat) {
    Arranging(s.loop) && step.OfClock? && step.clock.Tick? ==> s.now + step.clock.d - s.loop.t0 <= most
  }

  ghost predicate PromptRun(s: State, steps: seq<Step>, most: nat)
    requires ValidRun(s, steps)
    decreases |steps|
  {
    steps == [] || (Prompt(s, steps[0], most) && PromptRun(Apply(s, steps[0]), steps[1..], most))
  }

  ghost predicate LagAtMost(s: State, most: nat) {
    && (forall timer :: timer in s.timers ==> timer.lag <= most)
    && (Arranging(s.loop) ==> s.now - s.loop.t0 <= most)
  }

  /** Timers, the clock and the loop's own times are all that matters. */
  lemma LagSame(s: State, s': State, most: nat)
    requires LagAtMost(s, most) && s'.timers <= s.timers && s'.now == s.now
    requires Arranging(s'.loop) ==> s'.loop == s.loop
    ensures LagAtMost(s', most)
  {
  }

  lemma LagClock(s: State, step: ClockStep, most: nat)
    requires LagAtMost(s, most) && ClockEnabled(s, step) && Prompt(s, OfClock(step), most)
    ensures LagAtMost(ApplyClock(s, step), most)
  {
    assert ApplyClock(s, step).timers <= s.timers;
  }

  lemma LagWake(s: State, step: WakeStep, most: nat)
    requires LagAtMost(s, most) && Protocol(s) && WakeEnabled(s, step)
    ensures LagAtMost(ApplyWake(s, step), most)
  {
    assert step.PingFlag? ==> Inside(s.todo, s.todo.holder.who);
    LagSame(s, ApplyWake(s, step), most);
  }

  lemma LagLoop(s: State, step: LoopStep, most: nat)
    requires LagAtMost(s, most) && LoopEnabled(s, step)
    ensures LagAtMost(ApplyLoop(s, step), most)
  {
  }

  lemma LagStep(s: State, step: Step, most: nat)
    requires LagAtMost(s, most) && Protocol(s) && Enabled(s, step) && Prompt(s, step, most)
    ensures LagAtMost(Apply(s, step), most)
  {
    match step
    case OfClock(x) => LagClock(s, x, most);
    case OfWake(x) => LagWake(s, x, most);
    case OfLoop(x) => LagLoop(s, x, most);
    case OfExec(x) => LagSame(s, ApplyExec(s, x), most);
    case OfWatcher(x) => LagSame(s, ApplyWatch(s, x), most);
    case OfClient(x) => LagSame(s, ApplyClient(s, x), most);
  }

  lemma {:induction false} LagRun(s: State, steps: seq<Step>, most: nat)
    requires Protocol(s) && LagAtMost(s, most) && ValidRun(s, steps) && PromptRun(s, steps, most)
    ensures LagAtMost(Exec(s, steps), most)
    decreases |steps|
  {
    if steps != [] {
      ProtocolStep(s, steps[0]);
      LagStep(s, steps[0], most);
      LagRun(Apply(s, steps[0]), steps[1..], most);
    }
  }

  /** No wake-up is lost, and none comes later than arming took. After any run in which each arming takes at most
      `most`: while the loop is alive and a task waits, a token is in the channel, or the loop is inside oneLoop,
      or a Ping is owed, or a timer is due by now or by the task's start plus `most`. */
  lemma WakeupWithin(cpu: nat, ram: nat, now: int, steps: seq<Step>, most: nat, id: Id)
    requires ValidRun(Init(cpu, ram, now), steps) && PromptRun(Init(cpu, ram, now), steps, most)
    requires var s := Exec(Init(cpu, ram, now), steps);
             !s.loop.Stopped? && id in s.store && s.store[id].status.Waiting?
    ensures var s := Exec(Init(cpu, ram, now), steps); StrictlyCovered(s, s.store[id].start + most)
  {
    var s := Exec(Init(cpu, ram, now), steps);
    ReachableFrom(cpu, ram, now, s);
    NoLostWakeup(s, id);
    LagRun(Init(cpu, ram, now), steps, most);
    if timer :| timer in s.timers && timer.due <= Max(s.now, s.store[id].start + timer.lag) {
      assert Punctual(timer, s.now, s.store[id].start + most);
    }
  }

  // ----- Exactly when arming is too late

  /** Arming keeps the strict promise if and only if something else wakes the loop, or each waiting task has an
      earlier punctual timer, or the armed start was past when the clock was read, or the task starts later than
      the armed one by at least the time that passed since. */
  lemma ArmingInTime(s: State)
    requires Reachable(s) && s.loop.Arming?
    ensures var lag := s.now - s.loop.t0;
            AllStrictlyCovered(ArmTimer(s)) <==>
              || s.todo.tokens > 0 || PingOwed(s)
              || forall id :: id in s.store && s.store[id].status.Waiting? ==>
                   || (exists timer :: timer in s.timers && Punctual(timer, s.now, s.store[id].start))
                   || s.loop.start <= s.loop.t0
                   || s.store[id].start - s.loop.start >= lag
  {
    ReachableInv(s);
    var s', timer := ArmTimer(s), NewTimer(s.now, s.loop.start, s.loop.t0);
    assert PingOwed(s') <==> PingOwed(s);
    assert forall x :: x in s'.timers <==> x in s.timers || x == timer;
    forall id | id in s.store
      ensures Punctual(timer, s.now, s.store[id].start) <==>
                s.loop.start <= s.loop.t0 || s.store[id].start - s.loop.start >= s.now - s.loop.t0
    {
    }
    forall id | id in s.store
      ensures (exists x :: x in s'.timers && Punctual(x, s.now, s.store[id].start)) <==>
                || (exists x :: x in s.timers && Punctual(x, s.now, s.store[id].start))
                || Punctual(timer, s.now, s.store[id].start)
    {
    }
  }

  // ----- A late timer in a reachable state

  /** The store of one waiting task. */
  function Sole(t: Task, id: Id, now: int): Task {
    t.(id := id, status := Waiting, mtime := now)
  }

  /** Added, and the loop has found nothing ready. */
  lemma ReachPlanning(t: Task, id: Id) returns (s: State)
    requires t.id == NIL_ID && id != NIL_ID && t.cpu == 1 && t.ram == 1 && t.maxExec > 0 && t.start > 0
    ensures Leads(Init(1, 1, 0), s)
    ensures s.loop == Planning(0) && s.now == 0 && s.store == map[id := Sole(t, id, 0)]
    ensures s.timers == multiset{} && s.owed == 0 && s.jobs == [] && s.todo == W.Todo(false, 0, W.Free)
  {
    var s0 := Init(1, 1, 0);
    AddRuns(s0, t, id);
    AddSummary(s0, t, id);
    var s1 := WholeAdd(s0, t, id);
    LeadsOne(s1, OfLoop(Receive));
    var s2 := ApplyLoop(s1, Receive);
    LeadsTrans(s0, s1, s2);
    DoneRuns(s2);
    var s3 := WholeDone(s2);
    LeadsTrans(s0, s2, s3);
    WalkRuns(s3, None);
    var s4 := TakeReady(s3, None);
    LeadsTrans(s0, s3, s4);
    LeadsOne(s4, OfLoop(ReadClock));
    s := ApplyLoop(s4, ReadClock);
    LeadsTrans(s0, s4, s);
  }

  /** The next task is taken, some time passes, the timer is armed. */
  lemma ArmLate(s0: State, id: Id, delay: nat) returns (s: State)
    requires s0.loop.Planning? && s0.loop.t0 == s0.now && NextHead(s0, Some(id))
    ensures Leads(s0, s)
    ensures s == s0.(now := s0.now + delay, loop := Idle,
                     timers := s0.timers + multiset{NewTimer(s0.now + delay, s0.store[id].start, s0.now)})
  {
    var s1 := ApplyLoop(s0, Plan(Some(id)));
    var s2 := ApplyClock(s1, Tick(delay));
    s := ApplyLoop(s2, Arm);
    LeadsOne(s2, OfLoop(Arm));
    LeadsStep(s1, OfClock(Tick(delay)), s);
    LeadsStep(s0, OfLoop(Plan(Some(id))), s);
  }

  lemma ReachableFrom(cpu: nat, ram: nat, now: int, s: State)
    requires Leads(Init(cpu, ram, now), s)
    ensures Reachable(s)
  {
    var steps :| ValidRun(Init(cpu, ram, now), steps) && Exec(Init(cpu, ram, now), steps) == s;
  }

  /** Any lateness happens: for every start and every delay there is a reachable state in which the loop sleeps
      without token or owed Ping, a task waits, and the only timer is due that much after its start. */
  lemma LateTimerHappens(t: Task, id: Id, delay: nat) returns (s: State)
    requires t.id == NIL_ID && id != NIL_ID && t.cpu == 1 && t.ram == 1 && t.maxExec > 0
    requires delay > 0 && t.start > 0
    ensures Reachable(s) && s.loop.Idle? && s.todo.tokens == 0 && !PingOwed(s)
    ensures id in s.store && s.store[id].status.Waiting? && s.store[id].start == t.start
    ensures s.timers == multiset{Timer(t.start + delay, delay)} && s.now == delay
    ensures !StrictlyCovered(s, t.start)
  {
    var planning := ReachPlanning(t, id);
    s := ArmLate(planning, id, delay);
    LeadsTrans(Init(1, 1, 0), planning, s);
    ReachableFrom(1, 1, 0, s);
    assert s.timers == multiset{NewTimer(delay, t.start, 0)};
  }
}
