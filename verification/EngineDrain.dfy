/** The engine is never stuck: from every state its own steps can run and finish every waiting task. */
module EngineDrain {
  import opened Wrappers
  import opened Tasks
  import opened Pools
  import opened Engine
  import opened EngineHolds
  import opened EngineWake
  import opened EngineTheorems
  import opened EngineProgress
  import opened Sets
  import J = Json
  import W = Wakeups

  /** Steps of the scheduler itself: no client call, and the loop is not stopped. */
  predicate Own(step: Step) {
    !step.OfClient? && step != OfLoop(Stop)
  }

  // ----- How far the loop is from its next launch

  ghost predicate Awake(s: State) {
    s.todo.tokens > 0 || PingOwed(s)
  }

  ghost predicate AllStarted(s: State, at: int) {
    forall id :: id in s.store && s.store[id].status.Waiting? ==> s.store[id].start < at
  }

  ghost function Distance(s: State): nat {
    match s.loop
    case Stopped => 0
    case Aborting(_) => 0
    case Launching(_) => 1
    case Chosen(_) => 2
    case Walking(at, _, _) => if AllStarted(s, at) then 3 else 15
    case Cleared => 4
    case InDone => 5
    case Received => 6
    case Idle => if Awake(s) then 7 else 8
    case Pinging => if s.todo.holder.Flagging? then 9 else 10
    case OwesPing => 11
    case Arming(_, _) => 12
    case Planning(_) => 13
    case Empty => 14
  }

  ghost predicate MustTick(s: State) {
    || !AllStarted(s, s.now)
    || (s.loop.Idle? && !Awake(s) && forall timer :: timer in s.timers ==> timer.due > s.now)
  }

  // ----- What the finished jobs still have to do

  function JobWeight(job: Job, h: Hold): nat {
    match job.phase
    case MustPing => 6
    case InPing => 3
    case MustClean => 2
    case _ => if h.phase.Cancelled? then 1 else 0
  }

  function Weights(jobs: seq<Job>, holds: seq<Hold>): nat
    requires |jobs| == |holds|
  {
    if jobs == [] then 0
    else Weights(jobs[..|jobs| - 1], holds[..|jobs| - 1]) + JobWeight(jobs[|jobs| - 1], holds[|jobs| - 1])
  }

  lemma {:induction false} WeightsUpdate(jobs: seq<Job>, holds: seq<Hold>, j: nat, job: Job, h: Hold)
    requires |jobs| == |holds| && j < |jobs|
    ensures Weights(jobs[j := job], holds[j := h])
            == Weights(jobs, holds) - JobWeight(jobs[j], holds[j]) + JobWeight(job, h)
  {
    var n := |jobs| - 1;
    if j < n {
      WeightsUpdate(jobs[..n], holds[..n], j, job, h);
      assert jobs[j := job][..n] == jobs[..n][j := job] && holds[j := h][..n] == holds[..n][j := h];
    } else {
      assert jobs[j := job][..n] == jobs[..n] && holds[j := h][..n] == holds[..n];
    }
  }

  function HolderWeight(holder: W.Holder): nat {
    match holder
    case Sending(who) => if who.Loop? then 0 else 2
    case Flagging(who) => if who.Loop? then 0 else 1
    case _ => 0
  }

  function Chores(s: State): nat
    requires |s.jobs| == |s.pool.holds|
  {
    Weights(s.jobs, s.pool.holds) + 3 * s.owed + HolderWeight(s.todo.holder)
  }

  // ----- Chores

  /** A chore changes nothing but the chores. */
  ghost predicate Chore(s: State, s': State) {
    && |s'.jobs| == |s'.pool.holds| && |s.jobs| == |s.pool.holds|
    && s'.store == s.store && s'.loop == s.loop && s'.now == s.now && s'.timers == s.timers
    && (s.loop.Idle? ==> (Awake(s') <==> Awake(s)))
    && Chores(s') < Chores(s)
  }

  lemma ChoreLock(s: State, who: W.Who)
    requires Protocol(s) && |s.jobs| == |s.pool.holds| && s.todo.holder.Free? && CanPing(s, who) && !who.Loop?
    ensures Chore(s, LockPing(s, who))
  {
    var s' := LockPing(s, who);
    if who.Watcher? {
      WeightsUpdate(s.jobs, s.pool.holds, who.j, s'.jobs[who.j], s.pool.holds[who.j]);
      assert s.pool.holds[who.j := s.pool.holds[who.j]] == s.pool.holds;
      assert PingOwed(s);
    }
    assert s.loop.Idle? ==> Awake(s');
  }

  lemma ChoreSend(s: State)
    requires Protocol(s) && |s.jobs| == |s.pool.holds| && s.todo.holder.Sending? && !s.todo.holder.who.Loop?
    ensures WakeEnabled(s, PingSend) && Chore(s, ApplyWake(s, PingSend))
  {
  }

  lemma ChoreFlag(s: State)
    requires Protocol(s) && |s.jobs| == |s.pool.holds| && s.todo.holder.Flagging? && !s.todo.holder.who.Loop?
    ensures WakeEnabled(s, PingFlag) && Chore(s, FlagPing(s))
  {
    var s', who := FlagPing(s), s.todo.holder.who;
    assert Inside(s.todo, who);
    if who.Watcher? {
      WeightsUpdate(s.jobs, s.pool.holds, who.j, s'.jobs[who.j], s.pool.holds[who.j]);
      assert s.pool.holds[who.j := s.pool.holds[who.j]] == s.pool.holds;
    }
  }

  /** PingOwed only depends on who must ping. */
  lemma SamePingOwed(s: State, s': State)
    requires s'.owed == s.owed && s'.todo == s.todo && |s'.jobs| == |s.jobs|
    requires forall i :: 0 <= i < |s.jobs| ==> (s.jobs[i].phase.MustPing? <==> s'.jobs[i].phase.MustPing?)
    ensures Awake(s') <==> Awake(s)
  {
  }

  lemma ChoreClean(s: State, j: nat)
    requires Protocol(s) && Books(s) && WatchEnabled(s, Cleanup(j))
    ensures Chore(s, CleanJob(s, j))
  {
    var s' := CleanJob(s, j);
    WeightsUpdate(s.jobs, s.pool.holds, j, s'.jobs[j], s'.pool.holds[j]);
    SamePingOwed(s, s');
  }

  lemma ChoreRelease(s: State, j: nat)
    requires Protocol(s) && Books(s) && WatchEnabled(s, Release(j))
    ensures Chore(s, s.(pool := Pools.Release(s.pool, j)))
  {
    var p' := Pools.Release(s.pool, j);
    WeightsUpdate(s.jobs, s.pool.holds, j, s.jobs[j], p'.holds[j]);
    assert s.jobs[j := s.jobs[j]] == s.jobs;
  }

  /** Nothing left to do outside the loop. */
  ghost predicate Settled(s: State) {
    && !PingOwed(s)
    && (s.todo.holder.Free? || s.loop.Pinging? || s.loop.InDone?)
    && (forall j :: 0 <= j < |s.jobs| ==> !s.jobs[j].phase.Live? && !s.jobs[j].phase.MustClean?)
    && (forall j :: 0 <= j < |s.pool.holds| ==> !s.pool.holds[j].phase.Cancelled?)
  }

  /** As long as something outside the loop is left to do and the mutex is not the loop's, a chore is enabled. */
  lemma SomeChore(s: State) returns (step: Step)
    requires Protocol(s) && Books(s) && !Settled(s) && !s.loop.Pinging? && !s.loop.InDone?
    requires forall j :: 0 <= j < |s.jobs| ==> !s.jobs[j].phase.Live?
    ensures Enabled(s, step) && Own(step) && Chore(s, Apply(s, step))
  {
    if s.todo.holder.Sending? {
      assert !Inside(s.todo, W.Loop);
      ChoreSend(s);
      step := OfWake(PingSend);
    } else if s.todo.holder.Flagging? {
      assert !Inside(s.todo, W.Loop);
      ChoreFlag(s);
      step := OfWake(PingFlag);
    } else if s.owed > 0 {
      ChoreLock(s, W.Someone);
      step := OfWake(PingLock(W.Someone));
    } else if j: nat :| j < |s.jobs| && s.jobs[j].phase.MustPing? {
      ChoreLock(s, W.Watcher(j));
      step := OfWake(PingLock(W.Watcher(j)));
    } else if j: nat :| j < |s.jobs| && s.jobs[j].phase.MustClean? {
      ChoreClean(s, j);
      step := OfWatcher(Cleanup(j));
    } else {
      var j: nat :| j < |s.pool.holds| && s.pool.holds[j].phase.Cancelled?;
      ChoreRelease(s, j);
      step := OfWatcher(Release(j));
    }
  }

  // ----- The clock

  lemma {:induction false} ArgMin<X>(xs: set<X>, f: X -> int) returns (m: X)
    requires xs != {}
    ensures m in xs && forall x :: x in xs ==> f(m) <= f(x)
  {
    m :| m in xs;
    if xs != {m} {
      var n := ArgMin(xs - {m}, f);
      m := if f(m) <= f(n) then m else n;
    }
  }

  /** In a settled state with something left to run and nothing in hand, a task waits in the store. */
  lemma SomethingWaits(s: State)
    requires Settled(s) && Toll(s) > 0 && InHand(s) == {}
    ensures WaitingIds(s) != {}
  {
    assert LiveJobs(s) == {};
    assert WaitingIds(s) + InHand(s) == WaitingIds(s);
  }

  /** A time by which every waiting task is past its start. */
  lemma LastStart(s: State) returns (t: int)
    ensures AllStarted(s, t)
  {
    if WaitingIds(s) == {} {
      t := s.now;
      assert forall id :: id in s.store && s.store[id].status.Waiting? ==> id in WaitingIds(s);
    } else {
      var f := id => if id in s.store then -s.store[id].start else 0;
      var last := ArgMin(WaitingIds(s), f);
      t := s.store[last].start + 1;
      assert forall id :: id in s.store && s.store[id].status.Waiting? ==> id in WaitingIds(s) && f(last) <= f(id);
    }
  }

  /** A timer the sleeping loop can wait for. */
  lemma SomeTimer(s: State) returns (timer: Timer)
    requires AllCovered(s) && Settled(s) && Toll(s) > 0 && s.loop.Idle? && !Awake(s)
    ensures timer in s.timers
  {
    SomethingWaits(s);
    var id :| id in WaitingIds(s);
    assert Covered(s, s.store[id].start);
    timer :| timer in s.timers && InTime(timer, s.now, s.store[id].start);
  }

  lemma AwakeLater(s: State, d: nat)
    ensures Awake(s.(now := s.now + d)) <==> Awake(s)
  {
  }

  lemma EnoughTicks(s: State, d: nat)
    requires AllStarted(s, s.now + d)
    requires s.loop.Idle? && !Awake(s) ==> exists timer :: timer in s.timers && timer.due <= s.now + d
    ensures !MustTick(s.(now := s.now + d)) && Distance(s.(now := s.now + d)) == Distance(s)
  {
    AwakeLater(s, d);
  }

  /** A delay after which every waiting task is past its start and, if the loop sleeps, a timer is due. */
  lemma EnoughTime(s: State) returns (d: nat)
    requires AllCovered(s) && Settled(s) && Toll(s) > 0 && !s.loop.Stopped?
    ensures !MustTick(s.(now := s.now + d))
    ensures Distance(s.(now := s.now + d)) == Distance(s)
  {
    var t := LastStart(s);
    d := Max(0, t - s.now);
    if s.loop.Idle? && !Awake(s) {
      var timer := SomeTimer(s);
      d := Max(d, timer.due - s.now);
      assert timer in s.timers && timer.due <= s.now + d;
    }
    EnoughTicks(s, d);
  }

  // ----- The loop

  /** With everything released and every start before the walk, every waiting task may be listed. */
  lemma AllPossible(s: State)
    requires Records(s) && Books(s) && Protocol(s) && Settled(s) && s.loop.Walking? && AllStarted(s, s.loop.at)
    ensures forall id :: id in WaitingIds(s) ==> Possible(s, id) && s.store[id].maxExec > 0
  {
    assert forall j :: 0 <= j < |s.jobs| ==> Admitted(s, s.jobs[j].task);
    HeldBounds(s.pool.holds);
    forall id | id in WaitingIds(s) ensures Possible(s, id) && s.store[id].maxExec > 0 {
      assert Admitted(s, s.store[id]);
    }
  }

  function KarmaAt(s: State, id: Id): int {
    if id in s.store && s.store[id].maxExec > 0 then Karma(s.store[id]) else 0
  }

  lemma SomeHead(s: State) returns (pick: Option<Id>)
    requires s.loop.Walking? && WaitingIds(s) != {}
    requires forall id :: id in WaitingIds(s) ==> Possible(s, id) && s.store[id].maxExec > 0
    ensures pick.Some? && ReadyHead(s, pick)
  {
    var h := ArgMin(WaitingIds(s), id => KarmaAt(s, id));
    forall id | Sure(s, id) ensures s.store[id].maxExec > 0 && Karma(s.store[h]) <= Karma(s.store[id]) {
      assert id in WaitingIds(s);
      assert KarmaAt(s, h) <= KarmaAt(s, id);
    }
    pick := Some(h);
  }

  /** A walk always has an answer. */
  lemma SomeAnswer(s: State) returns (pick: Option<Id>)
    requires Records(s) && Fits(s) && s.loop.Walking?
    ensures ReadyHead(s, pick)
  {
    var sure := set id | id in s.store && Sure(s, id);
    if sure == {} {
      pick := None;
      assert forall id :: id in s.store && Sure(s, id) ==> id in sure;
    } else {
      var h := ArgMin(sure, id => KarmaAt(s, id));
      assert Admitted(s, s.store[h]);
      forall id | Sure(s, id) ensures s.store[id].maxExec > 0 && Karma(s.store[h]) <= Karma(s.store[id]) {
        assert id in sure && Admitted(s, s.store[id]);
        assert KarmaAt(s, h) <= KarmaAt(s, id);
      }
      pick := Some(h);
    }
  }

  lemma SomeNext(s: State) returns (pick: Option<Id>)
    requires WaitingIds(s) != {}
    ensures pick.Some? && NextHead(s, pick)
  {
    var h := ArgMin(WaitingIds(s), id => if id in s.store then s.store[id].start else 0);
    assert forall id :: id in s.store && s.store[id].status.Waiting? ==> id in WaitingIds(s);
    pick := Some(h);
  }

  ghost predicate Closer(s: State, step: Step)
    requires Enabled(s, step)
  {
    Own(step) && (Work(step) > 0 || Distance(Apply(s, step)) < Distance(s))
  }

  /** Inside the mutex, and in execTask, the loop always has its next step. */
  lemma LoopInside(s: State) returns (step: Step)
    requires Protocol(s) && |s.jobs| == |s.pool.holds|
    requires s.loop.Pinging? || s.loop.InDone? || s.loop.Chosen? || s.loop.Launching? || s.loop.Aborting?
    ensures Enabled(s, step) && Closer(s, step)
  {
    match s.loop
    case Pinging =>
      assert Inside(s.todo, W.Loop);
      step := if s.todo.holder.Sending? then OfWake(PingSend) else OfWake(PingFlag);
    case InDone => step := OfLoop(DoneFlush);
    case Chosen(_) => step := OfExec(Consume);
    case Launching(_) => step := OfExec(UpOk(Part("", J.Null), RunData(0, 0, 0, 0, "", false)));
    case Aborting(_) => step := OfExec(FailPut);
  }

  lemma IdleStep(s: State) returns (step: Step)
    requires Protocol(s) && |s.jobs| == |s.pool.holds| && Settled(s) && !MustTick(s) && s.loop.Idle?
    ensures Enabled(s, step) && Closer(s, step)
  {
    if s.todo.tokens > 0 {
      step := OfLoop(Receive);
    } else {
      var timer :| timer in s.timers && timer.due <= s.now;
      step := OfClock(Fire(timer));
    }
  }

  lemma PingStep(s: State)
    requires Protocol(s) && |s.jobs| == |s.pool.holds| && Settled(s) && s.loop.OwesPing?
    ensures Enabled(s, OfWake(PingLock(W.Loop))) && Closer(s, OfWake(PingLock(W.Loop)))
  {
    assert s.todo.newMsg ==> s.todo.tokens > 0;
  }

  lemma LookStep(s: State)
    requires Protocol(s) && |s.jobs| == |s.pool.holds| && !MustTick(s) && s.loop.Cleared?
    ensures Enabled(s, OfLoop(Look)) && Closer(s, OfLoop(Look))
  {
  }

  lemma ReadyStep(s: State) returns (step: Step)
    requires Records(s) && Books(s) && Fits(s) && Protocol(s) && Settled(s) && WaitingIds(s) != {} && s.loop.Walking?
    ensures Enabled(s, step) && Closer(s, step)
  {
    var pick;
    if AllStarted(s, s.loop.at) {
      AllPossible(s);
      pick := SomeHead(s);
    } else {
      pick := SomeAnswer(s);
    }
    step := OfLoop(Ready(pick));
  }

  lemma PlanStep(s: State) returns (step: Step)
    requires WaitingIds(s) != {} && s.loop.Planning?
    ensures Enabled(s, step) && Closer(s, step)
  {
    var pick := SomeNext(s);
    step := OfLoop(Plan(pick));
  }

  lemma ScanStep(s: State) returns (step: Step)
    requires Protocol(s) && |s.jobs| == |s.pool.holds| && Settled(s)
    requires s.loop.Received? || s.loop.Empty? || s.loop.Arming?
    ensures Enabled(s, step) && Closer(s, step)
  {
    match s.loop
    case Received => step := OfLoop(DoneLock);
    case Empty => step := OfLoop(ReadClock);
    case Arming(_, _) => step := OfLoop(Arm);
  }

  lemma LoopOutside(s: State) returns (step: Step)
    requires Inv(s) && Settled(s) && !MustTick(s) && !s.loop.Stopped? && Toll(s) > 0
    requires !(s.loop.Pinging? || s.loop.InDone? || s.loop.Chosen? || s.loop.Launching? || s.loop.Aborting?)
    ensures Enabled(s, step) && Closer(s, step)
  {
    SomethingWaits(s);
    if s.loop.Idle? {
      step := IdleStep(s);
    } else if s.loop.OwesPing? {
      PingStep(s);
      step := OfWake(PingLock(W.Loop));
    } else if s.loop.Cleared? {
      LookStep(s);
      step := OfLoop(Look);
    } else if s.loop.Walking? {
      step := ReadyStep(s);
    } else if s.loop.Planning? {
      step := PlanStep(s);
    } else {
      step := ScanStep(s);
    }
  }

  // ----- The theorems

  ghost function Ticks(s: State): nat {
    if MustTick(s) then 1 else 0
  }

  /** A step that brings the end nearer. */
  ghost predicate Nearer(s: State, step: Step)
    requires |s.jobs| == |s.pool.holds| && Enabled(s, step)
  {
    var s' := Apply(s, step);
    && Own(step)
    && |s'.jobs| == |s'.pool.holds|
    && (Work(step) > 0
        || Distance(s') < Distance(s)
        || (Distance(s') == Distance(s)
            && (Ticks(s') < Ticks(s) || (Ticks(s') == Ticks(s) && Chores(s') < Chores(s)))))
  }

  lemma FinishStep(s: State, j: nat)
    requires Protocol(s) && |s.jobs| == |s.pool.holds| && j < |s.jobs| && s.jobs[j].phase.Live?
    ensures Enabled(s, OfWatcher(Finish(j, Done, None))) && Nearer(s, OfWatcher(Finish(j, Done, None)))
  {
  }

  lemma TickStep(s: State) returns (step: Step)
    requires AllCovered(s) && |s.jobs| == |s.pool.holds|
    requires Settled(s) && MustTick(s) && Toll(s) > 0 && !s.loop.Stopped?
    ensures Enabled(s, step) && Nearer(s, step)
  {
    var d := EnoughTime(s);
    step := OfClock(Tick(d));
    assert Apply(s, step) == s.(now := s.now + d);
  }

  lemma CloserIsNearer(s: State, step: Step)
    requires Inv(s) && Enabled(s, step) && Closer(s, step)
    ensures Nearer(s, step)
  {
    InvStep(s, step);
  }

  lemma ChoreIsNearer(s: State, s': State)
    requires Chore(s, s') && !s.loop.Pinging?
    ensures Distance(s') <= Distance(s) && Ticks(s') == Ticks(s) && Chores(s') < Chores(s)
  {
    assert MustTick(s') <==> MustTick(s);
  }

  /** No deadlock: as long as a task waits, is in hand or runs, the scheduler itself can take a step
      that brings the end nearer. */
  lemma NeverStuck(s: State) returns (step: Step)
    requires Inv(s) && !s.loop.Stopped? && Toll(s) > 0
    ensures Enabled(s, step) && Nearer(s, step)
  {
    if j: nat :| j < |s.jobs| && s.jobs[j].phase.Live? {
      FinishStep(s, j);
      step := OfWatcher(Finish(j, Done, None));
    } else if s.loop.Pinging? || s.loop.InDone? || s.loop.Chosen? || s.loop.Launching? || s.loop.Aborting? {
      step := LoopInside(s);
      CloserIsNearer(s, step);
    } else if !Settled(s) {
      step := SomeChore(s);
      ChoreIsNearer(s, Apply(s, step));
    } else if MustTick(s) {
      step := TickStep(s);
    } else {
      step := LoopOutside(s);
      CloserIsNearer(s, step);
    }
  }

  lemma StaysAlive(s: State, step: Step)
    requires Enabled(s, step) && Own(step) && !s.loop.Stopped?
    ensures !Apply(s, step).loop.Stopped?
  {
  }

  ghost predicate Smaller(s': State, s: State)
    requires |s.jobs| == |s.pool.holds| && |s'.jobs| == |s'.pool.holds|
  {
    || Toll(s') < Toll(s)
    || (Toll(s') == Toll(s)
        && (Distance(s') < Distance(s)
            || (Distance(s') == Distance(s)
                && (Ticks(s') < Ticks(s) || (Ticks(s') == Ticks(s) && Chores(s') < Chores(s))))))
  }

  lemma DrainStep(s: State) returns (step: Step, s': State)
    requires Inv(s) && NoRecurrence(s) && !s.loop.Stopped? && Toll(s) > 0
    ensures Enabled(s, step) && Own(step) && s' == Apply(s, step)
    ensures Inv(s') && NoRecurrence(s') && !s'.loop.Stopped? && Smaller(s', s)
  {
    step := NeverStuck(s);
    s' := Apply(s, step);
    InvStep(s, step);
    TollStep(s, step);
    IssuedKept(s, step);
    StaysAlive(s, step);
  }

  lemma RunCons(s: State, step: Step, rest: seq<Step>)
    requires Enabled(s, step) && ValidRun(Apply(s, step), rest)
    ensures ValidRun(s, [step] + rest) && Exec(s, [step] + rest) == Exec(Apply(s, step), rest)
  {
    assert ([step] + rest)[1..] == rest;
  }

  /** A run of the scheduler's own steps after which no task waits and none runs. */
  ghost predicate Drains(s: State, steps: seq<Step>) {
    && ValidRun(s, steps)
    && (forall i :: 0 <= i < |steps| ==> Own(steps[i]))
    && WaitingIds(Exec(s, steps)) == {} && LiveJobs(Exec(s, steps)) == {}
  }

  lemma DrainCons(s: State, step: Step, rest: seq<Step>)
    requires Enabled(s, step) && Own(step) && Drains(Apply(s, step), rest)
    ensures Drains(s, [step] + rest)
  {
    RunCons(s, step, rest);
  }

  lemma DrainNil(s: State)
    requires Toll(s) == 0
    ensures Drains(s, [])
  {
    Subset(WaitingIds(s), WaitingIds(s) + InHand(s));
  }

  /** Every waiting task can still be run and every run finished, by the scheduler's own steps alone. */
  lemma {:induction false} CanDrain(s: State) returns (steps: seq<Step>)
    requires Inv(s) && NoRecurrence(s) && !s.loop.Stopped?
    ensures Drains(s, steps)
    decreases Toll(s), Distance(s), Ticks(s), Chores(s)
  {
    if Toll(s) == 0 {
      DrainNil(s);
      steps := [];
    } else {
      var step, s' := DrainStep(s);
      var rest := CanDrain(s');
      DrainCons(s, step, rest);
      steps := [step] + rest;
    }
  }

  /** The theorem for the states that runs lead to. */
  lemma ReachableCanDrain(s: State)
    requires Reachable(s) && NoRecurrence(s) && !s.loop.Stopped?
    ensures exists steps :: Drains(s, steps)
  {
    ReachableInv(s);
    var steps := CanDrain(s);
  }
}
