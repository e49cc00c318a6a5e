/** Whole calls: the steps of one goroutine with nobody in between, as runs of the machine. */
module EngineWhole {
  import opened Wrappers
  import opened Tasks
  import opened Pools
  import opened Engine
  import W = Wakeups

  /** What Up answers. */
  datatype UpAnswer = Up(run: Part, data: RunData) | Down(counted: bool, partial: Option<RunData>)

  /** Some run of the machine leads from one state to the other. */
  ghost predicate Leads(s: State, s': State) {
    exists steps :: ValidRun(s, steps) && Exec(s, steps) == s'
  }

  lemma LeadsSelf(s: State)
    ensures Leads(s, s)
  {
    assert ValidRun(s, []) && Exec(s, []) == s;
  }

  lemma LeadsStep(s: State, step: Step, s': State)
    requires Enabled(s, step) && Leads(Apply(s, step), s')
    ensures Leads(s, s')
  {
    var rest :| ValidRun(Apply(s, step), rest) && Exec(Apply(s, step), rest) == s';
    assert ([step] + rest)[1..] == rest;
    assert ValidRun(s, [step] + rest) && Exec(s, [step] + rest) == s';
  }

  lemma {:induction false} ExecAppend(s: State, a: seq<Step>, b: seq<Step>)
    requires ValidRun(s, a) && ValidRun(Exec(s, a), b)
    ensures ValidRun(s, a + b) && Exec(s, a + b) == Exec(Exec(s, a), b)
    decreases |a|
  {
    if a == [] {
      assert a + b == b;
    } else {
      ExecAppend(Apply(s, a[0]), a[1..], b);
      assert (a + b)[1..] == a[1..] + b;
    }
  }

  lemma LeadsTrans(s: State, t: State, u: State)
    requires Leads(s, t) && Leads(t, u)
    ensures Leads(s, u)
  {
    var a :| ValidRun(s, a) && Exec(s, a) == t;
    var b :| ValidRun(t, b) && Exec(t, b) == u;
    ExecAppend(s, a, b);
  }

  lemma LeadsOne(s: State, step: Step)
    requires Enabled(s, step)
    ensures Leads(s, Apply(s, step))
  {
    LeadsSelf(Apply(s, step));
    LeadsStep(s, step, Apply(s, step));
  }

  // ----- Ping and Done

  /** The state in which a Ping finds room in the channel. */
  predicate Room(s: State) {
    s.todo.holder.Free? && s.todo.tokens <= W.CAPACITY && (!s.todo.newMsg ==> s.todo.tokens == 0)
  }

  function WholePing(s: State, who: W.Who): State
    requires CanPing(s, who) && Room(s)
  {
    var s1 := if who.Someone? then s.(owed := s.owed - 1) else s;
    Advance(s1, who, false).(todo := W.Ping(s.todo, who))
  }

  lemma PingRuns(s: State, who: W.Who)
    requires CanPing(s, who) && Room(s)
    ensures Leads(s, WholePing(s, who))
  {
    var s1 := LockPing(s, who);
    if s.todo.newMsg {
      assert s1 == WholePing(s, who);
      LeadsSelf(s1);
    } else {
      var s2 := ApplyWake(s1, PingSend);
      var s3 := FlagPing(s2);
      assert s3 == WholePing(s, who);
      LeadsSelf(s3);
      LeadsStep(s2, OfWake(PingFlag), s3);
      LeadsStep(s1, OfWake(PingSend), s3);
    }
    LeadsStep(s, OfWake(PingLock(who)), WholePing(s, who));
  }

  function WholeDone(s: State): State
    requires Room(s)
  {
    s.(todo := W.Done(s.todo), loop := Cleared)
  }

  lemma DoneRuns(s: State)
    requires s.loop.Received? && Room(s)
    ensures Leads(s, WholeDone(s))
  {
    var s1 := LockDone(s);
    if s.todo.newMsg {
      LeadsSelf(WholeDone(s));
      LeadsStep(s1, OfLoop(DoneFlush), WholeDone(s));
    } else {
      LeadsSelf(s1);
    }
    LeadsStep(s, OfLoop(DoneLock), WholeDone(s));
  }

  // ----- Add, execTask, the watcher

  function WholeAdd(s: State, t: Task, id: Id): State
    requires Room(s)
  {
    if Refusal(s, t).Some? then s else WholePing(AddTask(s, t, id), W.Someone)
  }

  /** An accepted Add in one piece: the record, the specification, the Ping. */
  lemma AddSummary(s: State, t: Task, id: Id)
    requires Room(s) && Refusal(s, t).None?
    ensures WholeAdd(s, t, id) == s.(
              store := s.store[id := t.(id := id, status := Waiting, mtime := s.now)],
              issued := s.issued[id := SpecOf(t)],
              todo := W.Ping(s.todo, W.Someone))
  {
  }

  lemma AddRuns(s: State, t: Task, id: Id)
    requires Room(s) && id !in s.issued && id != NIL_ID
    ensures Leads(s, WholeAdd(s, t, id))
  {
    LeadsOne(s, OfClient(Add(t, id)));
    if Refusal(s, t).None? {
      PingRuns(AddTask(s, t, id), W.Someone);
      LeadsTrans(s, AddTask(s, t, id), WholeAdd(s, t, id));
    }
  }

  function WholeExec(s: State, answer: UpAnswer): State
    requires s.loop.Chosen? && |s.jobs| == |s.pool.holds|
  {
    var s1 := ConsumeFor(s);
    match answer
    case Up(run, data) => UpSucceeds(s1, run, data)
    case Down(counted, partial) => PutFailed(UpFails(s1, counted, partial))
  }

  lemma ExecRuns(s: State, answer: UpAnswer)
    requires s.loop.Chosen? && |s.jobs| == |s.pool.holds|
    ensures Leads(s, WholeExec(s, answer))
  {
    var s1, s' := ConsumeFor(s), WholeExec(s, answer);
    LeadsSelf(s');
    match answer {
      case Up(run, data) =>
        LeadsStep(s1, OfExec(UpOk(run, data)), s');
      case Down(counted, partial) =>
        var s2 := UpFails(s1, counted, partial);
        LeadsStep(s2, OfExec(FailPut), s');
        LeadsStep(s1, OfExec(UpFail(counted, partial)), s');
    }
    LeadsStep(s, OfExec(Consume), s');
  }

  /** The task as Up and its answer leave it. */
  function AfterUp(t: Task, now: int, answer: UpAnswer): Task {
    match answer
    case Up(run, data) => Launched(t, now, run, data)
    case Down(counted, partial) =>
      AddRun(if counted then t.(runCounter := t.runCounter + 1) else t, partial).(status := Error)
  }

  /** The whole of execTask in one piece: the demand is taken (and marked for release after a failure),
      the task is stored, one job is added. */
  lemma ExecSummary(s: State, answer: UpAnswer)
    requires s.loop.Chosen? && |s.jobs| == |s.pool.holds|
    ensures var t := AfterUp(s.loop.task, s.now, answer).(mtime := s.now);
            var pool := Pools.Consume(s.pool, s.loop.task.cpu, s.loop.task.ram);
            WholeExec(s, answer) == s.(
              pool := if answer.Up? then pool else CancelHold(pool, |s.jobs|),
              store := s.store[t.id := t],
              jobs := s.jobs + [Job(t, s.now, if answer.Up? then Live else Failed)],
              loop := OwesPing)
  {
  }

  function WholeFinish(s: State, j: nat, status: Status, next: Option<int>): State
    requires Room(s) && j < |s.jobs| == |s.pool.holds|
  {
    CleanJob(WholePing(FinishJob(s, j, status, next), W.Watcher(j)), j)
  }

  /** The whole end of a watcher in one piece. */
  lemma FinishSummary(s: State, j: nat, status: Status, next: Option<int>)
    requires Room(s) && j < |s.jobs| == |s.pool.holds|
    ensures var t := Finished(s.jobs[j].task, status, s.now, next).(mtime := s.now);
            WholeFinish(s, j, status, next) == s.(
              store := s.store[t.id := t],
              jobs := s.jobs[j := Job(t, s.jobs[j].at, Gone)],
              pool := CancelHold(s.pool, j),
              todo := W.Ping(s.todo, W.Watcher(j)))
  {
  }

  lemma FinishRuns(s: State, j: nat, status: Status, next: Option<int>)
    requires Room(s) && |s.jobs| == |s.pool.holds| && WatchEnabled(s, Finish(j, status, next))
    ensures Leads(s, WholeFinish(s, j, status, next))
  {
    var s1 := FinishJob(s, j, status, next);
    var s2 := WholePing(s1, W.Watcher(j));
    LeadsOne(s, OfWatcher(Finish(j, status, next)));
    PingRuns(s1, W.Watcher(j));
    LeadsOne(s2, OfWatcher(Cleanup(j)));
    LeadsTrans(s, s1, s2);
    LeadsTrans(s, s2, WholeFinish(s, j, status, next));
  }

  function WholeFire(s: State, timer: Timer): State
    requires Room(s)
  {
    WholePing(ApplyClock(s, Fire(timer)), W.Someone)
  }

  lemma FireRuns(s: State, timer: Timer)
    requires Room(s) && timer in s.timers && timer.due <= s.now
    ensures Leads(s, WholeFire(s, timer))
  {
    LeadsOne(s, OfClock(Fire(timer)));
    PingRuns(ApplyClock(s, Fire(timer)), W.Someone);
    LeadsTrans(s, ApplyClock(s, Fire(timer)), WholeFire(s, timer));
  }

  /** The end of oneLoop after an answer of `next`: nothing, or a timer armed without delay. */
  function WholePlan(s: State, pick: Option<Id>): State
    requires pick.Some? ==> pick.value in s.store
  {
    if pick.None? then s.(loop := Idle)
    else s.(timers := s.timers + multiset{NewTimer(s.now, s.store[pick.value].start, s.now)}, loop := Idle)
  }

  lemma PlanRuns(s: State, pick: Option<Id>)
    requires s.loop.Empty? && NextHead(s, pick)
    ensures Leads(s, WholePlan(s, pick))
  {
    var s1 := ApplyLoop(s, ReadClock);
    var s2 := ApplyLoop(s1, Plan(pick));
    if pick.Some? {
      LeadsOne(s2, OfLoop(Arm));
    } else {
      LeadsSelf(s2);
    }
    LeadsStep(s1, OfLoop(Plan(pick)), WholePlan(s, pick));
    LeadsStep(s, OfLoop(ReadClock), WholePlan(s, pick));
  }

  // ----- oneLoop

  /** The rest of oneLoop after Done: the head of the ready list is run and the loop pings itself, or else
      the loop plans for the next waiting task. */
  function WholeTurn(s: State, pick: Option<Id>, answer: UpAnswer, next: Option<Id>): State
    requires Room(s) && |s.jobs| == |s.pool.holds|
    requires (pick.Some? ==> pick.value in s.store) && (next.Some? ==> next.value in s.store)
  {
    var s1 := TakeReady(s, pick);
    if pick.Some? then WholePing(WholeExec(s1, answer), W.Loop) else WholePlan(s1, next)
  }

  function WholeLoop(s: State, pick: Option<Id>, answer: UpAnswer, next: Option<Id>): State
    requires Room(s) && |s.jobs| == |s.pool.holds|
    requires (pick.Some? ==> pick.value in s.store) && (next.Some? ==> next.value in s.store)
  {
    WholeTurn(WholeDone(s), pick, answer, next)
  }

  /** The two choices are those of the machine. */
  ghost predicate Picks(s: State, pick: Option<Id>, next: Option<Id>) {
    ReadyHead(EnterReady(s), pick) && (if pick.Some? then next.None? else NextHead(s, next))
  }

  /** A turn that runs a task, in one piece. */
  function Turned(s: State, t: Task, answer: UpAnswer): State
    requires s.todo.holder.Free? && |s.jobs| == |s.pool.holds|
  {
    var t' := AfterUp(t, s.now, answer).(mtime := s.now);
    var pool := Pools.Consume(s.pool, t.cpu, t.ram);
    s.(pool := if answer.Up? then pool else CancelHold(pool, |s.jobs|),
       store := s.store[t.id := t'],
       jobs := s.jobs + [Job(t', s.now, if answer.Up? then Live else Failed)],
       todo := W.Ping(s.todo, W.Loop),
       loop := Idle)
  }

  /** Only these parts of the state change in such a turn. */
  lemma TurnedIs(s: State, s': State, t: Task, answer: UpAnswer)
    requires s.todo.holder.Free? && |s.jobs| == |s.pool.holds|
    requires s'.now == s.now && s'.issued == s.issued && s'.timers == s.timers && s'.owed == s.owed && s'.loop == Idle
    requires s'.todo == W.Ping(s.todo, W.Loop)
    requires var t' := AfterUp(t, s.now, answer).(mtime := s.now);
             && s'.store == s.store[t.id := t']
             && s'.jobs == s.jobs + [Job(t', s.now, if answer.Up? then Live else Failed)]
    requires var pool := Pools.Consume(s.pool, t.cpu, t.ram);
             s'.pool == if answer.Up? then pool else CancelHold(pool, |s.jobs|)
    ensures s' == Turned(s, t, answer)
  {
  }

  lemma TurnSummary(s: State, t: Task, answer: UpAnswer)
    requires Room(s) && |s.jobs| == |s.pool.holds| && t.id in s.store && s.store[t.id] == t
    ensures WholeTurn(s, Some(t.id), answer, None) == Turned(s, t, answer)
  {
    ExecSummary(TakeReady(s, Some(t.id)), answer);
  }

  /** A walk of readyToGo with nobody in between. */
  lemma WalkRuns(s: State, pick: Option<Id>)
    requires s.loop.Cleared? && ReadyHead(EnterReady(s), pick)
    ensures Leads(s, TakeReady(s, pick))
  {
    LeadsOne(EnterReady(s), OfLoop(Ready(pick)));
    LeadsStep(s, OfLoop(Look), TakeReady(s, pick));
  }

  lemma TurnRuns(s: State, pick: Option<Id>, answer: UpAnswer, next: Option<Id>)
    requires s.loop.Cleared? && Room(s) && |s.jobs| == |s.pool.holds| && Picks(s, pick, next)
    ensures Leads(s, WholeTurn(s, pick, answer, next))
  {
    var s1 := TakeReady(s, pick);
    WalkRuns(s, pick);
    if pick.Some? {
      var s2 := WholeExec(s1, answer);
      ExecRuns(s1, answer);
      PingRuns(s2, W.Loop);
      LeadsTrans(s, s1, s2);
      LeadsTrans(s, s2, WholeTurn(s, pick, answer, next));
    } else {
      PlanRuns(s1, next);
      LeadsTrans(s, s1, WholeTurn(s, pick, answer, next));
    }
  }

  lemma LoopRuns(s: State, pick: Option<Id>, answer: UpAnswer, next: Option<Id>)
    requires s.loop.Received? && Room(s) && |s.jobs| == |s.pool.holds| && Picks(WholeDone(s), pick, next)
    ensures Leads(s, WholeLoop(s, pick, answer, next))
  {
    var s0 := WholeDone(s);
    DoneRuns(s);
    TurnRuns(s0, pick, answer, next);
    LeadsTrans(s, s0, WholeLoop(s, pick, answer, next));
  }

  /** An accepted Add, a Put and a planned timer, field by field. */
  lemma AddedIs(s: State, s': State, t: Task, id: Id)
    requires Room(s) && Refusal(s, t).None?
    requires s'.now == s.now && s'.pool == s.pool && s'.jobs == s.jobs && s'.timers == s.timers && s'.loop == s.loop
    requires s'.store == s.store[id := t.(id := id, status := Waiting, mtime := s.now)]
    requires s'.issued == s.issued[id := SpecOf(t)] && s'.owed == s.owed && s'.todo == W.Ping(s.todo, W.Someone)
    ensures s' == WholeAdd(s, t, id)
  {
    AddSummary(s, t, id);
  }

  lemma PutIs(s: State, s': State, t: Task)
    requires s'.now == s.now && s'.pool == s.pool && s'.issued == s.issued && s'.jobs == s.jobs
    requires s'.timers == s.timers && s'.owed == s.owed && s'.todo == s.todo && s'.loop == s.loop
    requires s'.store == s.store[t.id := t.(mtime := s.now)]
    ensures s' == Put(s, t)
  {
  }

  /** execTask and the end of a watcher, field by field. */
  lemma ExecutedIs(s: State, s': State, answer: UpAnswer)
    requires s.loop.Chosen? && |s.jobs| == |s.pool.holds|
    requires s'.now == s.now && s'.issued == s.issued && s'.timers == s.timers && s'.owed == s.owed && s'.todo == s.todo
    requires s'.loop == OwesPing
    requires var t' := AfterUp(s.loop.task, s.now, answer).(mtime := s.now);
             && s'.store == s.store[s.loop.task.id := t']
             && s'.jobs == s.jobs + [Job(t', s.now, if answer.Up? then Live else Failed)]
    requires var pool := Pools.Consume(s.pool, s.loop.task.cpu, s.loop.task.ram);
             s'.pool == if answer.Up? then pool else CancelHold(pool, |s.jobs|)
    ensures s' == WholeExec(s, answer)
  {
    ExecSummary(s, answer);
  }

  lemma FinishedIs(s: State, s': State, j: nat, status: Status, next: Option<int>)
    requires Room(s) && j < |s.jobs| == |s.pool.holds|
    requires s'.now == s.now && s'.issued == s.issued && s'.timers == s.timers && s'.owed == s.owed && s'.loop == s.loop
    requires s'.todo == W.Ping(s.todo, W.Watcher(j)) && s'.pool == CancelHold(s.pool, j)
    requires var t := Finished(s.jobs[j].task, status, s.now, next).(mtime := s.now);
             s'.store == s.store[t.id := t] && s'.jobs == s.jobs[j := Job(t, s.jobs[j].at, Gone)]
    ensures s' == WholeFinish(s, j, status, next)
  {
    FinishSummary(s, j, status, next);
  }

  lemma PlanIs(s: State, s': State, n: Option<Task>)
    requires n.Some? ==> n.value.id in s.store && s.store[n.value.id] == n.value
    requires s'.now == s.now && s'.pool == s.pool && s'.store == s.store && s'.issued == s.issued && s'.jobs == s.jobs
    requires s'.owed == s.owed && s'.todo == s.todo && s'.loop == Idle
    requires s'.timers == if n.None? then s.timers else s.timers + multiset{NewTimer(s.now, n.value.start, s.now)}
    ensures s' == WholePlan(TakeReady(s, None), if n.None? then None else Some(n.value.id))
  {
  }
}
