/** What each operation does, field by field, and that the machine does it: the records before and after, next to
    the answers that the runner, the run and the cron library gave. */
module Outcomes {
  import opened Wrappers
  import opened Tasks
  import opened Pools
  import opened Engine
  import opened EngineTheorems
  import opened EngineWhole
  import W = Wakeups

  // ----- One record

  /** execTask after the answer of Up (scheduler/scheduler.go:241-255, runner/runner.go:41). */
  predicate AnsweredAs(t: Task, u: Task, now: int, answer: UpAnswer) {
    && SameTask(t, u)
    && match answer
       case Up(run, data) =>
         && u.status == Running && u.start == now && u.run == Some(run)
         && u.runCounter == t.runCounter + 1 && u.runs == [data] + t.runs
       case Down(counted, partial) =>
         && u.status == Error && u.start == t.start && u.run == t.run
         && u.runCounter == (if counted then t.runCounter + 1 else t.runCounter)
         && u.runs == (if partial.Some? then [partial.value] + t.runs else t.runs)
  }

  lemma AfterUpAnswers(t: Task, now: int, answer: UpAnswer)
    ensures AnsweredAs(t, AfterUp(t, now, answer), now, answer)
  {
  }

  /** There is only one such record, but for the modification time. */
  lemma OneOutcome(t: Task, u: Task, v: Task, now: int, answer: UpAnswer, status: Status, next: Option<int>)
    ensures AnsweredAs(t, u, now, answer) && AnsweredAs(t, v, now, answer) ==> u == v.(mtime := u.mtime)
    ensures EndedAs(t, u, status, now, next) && EndedAs(t, v, status, now, next) ==> u == v.(mtime := u.mtime)
  {
  }

  // ----- Add

  /** The exact reason for each refusal, all earlier tests being passed (scheduler/scheduler.go:53-65). */
  predicate Refuses(s: State, t: Task, e: AddError) {
    match e
    case NotStarted => s.loop.Stopped?
    case HasId => !s.loop.Stopped? && t.id != NIL_ID
    case Resource(error) =>
      !s.loop.Stopped? && t.id == NIL_ID && DemandRefused(s.pool.totalCpu, s.pool.totalRam, t.cpu, t.ram, error)
    case NoMaxExec =>
      && !s.loop.Stopped? && t.id == NIL_ID && 0 < t.cpu <= s.pool.totalCpu && 0 < t.ram <= s.pool.totalRam
      && t.maxExec <= 0
  }

  predicate Admissible(s: State, t: Task) {
    && !s.loop.Stopped? && t.id == NIL_ID
    && 0 < t.cpu <= s.pool.totalCpu && 0 < t.ram <= s.pool.totalRam && t.maxExec > 0
  }

  lemma RefusalIs(s: State, t: Task)
    ensures Refusal(s, t).None? <==> Admissible(s, t)
    ensures forall e :: Refusal(s, t) == Some(e) <==> Refuses(s, t, e)
  {
    DemandRefusedIs(s.pool, t.cpu, t.ram);
  }

  // ----- The steps of the machine

  /** One record is stored, with the current time as its modification time; nothing else in the store changes. */
  predicate Stores(s: State, s': State, u: Task) {
    u.mtime == s.now && s'.store == s.store[u.id := u]
  }

  /** The Put after a successful Up: store and job have the same new record. */
  lemma LaunchStores(s: State, run: Part, data: RunData)
    requires ExecEnabled(s, UpOk(run, data))
    ensures var s', j := ApplyExec(s, UpOk(run, data)), s.loop.job;
            var u := s'.jobs[j].task;
            && AnsweredAs(s.jobs[j].task, u, s.now, Up(run, data)) && Stores(s, s', u)
            && s'.jobs[j].at == s.now && s'.jobs[j].phase == Live
  {
  }

  /** A failed Up and its Put. */
  lemma FailureStores(s: State, counted: bool, partial: Option<RunData>)
    requires ExecEnabled(s, UpFail(counted, partial))
    ensures var s1, j := ApplyExec(s, UpFail(counted, partial)), s.loop.job;
            && s1.store == s.store && ExecEnabled(s1, FailPut)
            && var s2 := ApplyExec(s1, FailPut);
               && AnsweredAs(s.jobs[j].task, s2.jobs[j].task, s.now, Down(counted, partial))
               && Stores(s, s2, s2.jobs[j].task) && s2.jobs[j].phase == Failed
  {
  }

  /** The final Put of a watcher. */
  lemma FinishStores(s: State, j: nat, status: Status, next: Option<int>)
    requires WatchEnabled(s, Finish(j, status, next))
    ensures var s' := ApplyWatch(s, Finish(j, status, next));
            var u := s'.jobs[j].task;
            EndedAs(s.jobs[j].task, u, status, s.now, next) && Stores(s, s', u) && s'.jobs[j].phase == MustPing
  {
  }

  // ----- Whole calls

  /** The clock, the loop and the timers stay. */
  predicate SameElsewhere(s: State, s': State) {
    s'.now == s.now && s'.owed == s.owed && s'.timers == s.timers
  }

  /** A Ping with the mutex free (todo/todo.go:24-33). */
  predicate Pinged(a: W.Todo, b: W.Todo) {
    b == if a.newMsg then a else a.(newMsg := true, tokens := a.tokens + 1)
  }

  /** Consume, and for a failed Up the cancelled context (scheduler/resources.go:45-61). */
  predicate Charged(a: Pool, b: Pool, t: Task, up: bool) {
    && b.totalCpu == a.totalCpu && b.totalRam == a.totalRam
    && b.cpu == a.cpu - t.cpu && b.ram == a.ram - t.ram && b.processes == a.processes + 1
    && b.holds == a.holds + [Hold(t.cpu, t.ram, if up then Active else Cancelled)]
  }

  /** An accepted task (scheduler/scheduler.go:70-80). */
  predicate Adds(s: State, s': State, t: Task, id: Id) {
    && s'.store == s.store[id := t.(id := id, status := Waiting, mtime := s.now)]
    && s'.issued == s.issued[id := Spec(t.cpu, t.ram, t.maxExec, t.every, t.cron)]
    && s'.pool == s.pool && s'.jobs == s.jobs && s'.loop == s.loop
    && SameElsewhere(s, s') && Pinged(s.todo, s'.todo)
  }

  lemma AddAdds(s: State, t: Task, id: Id)
    requires Room(s) && Refusal(s, t).None?
    ensures Adds(s, WholeAdd(s, t, id), t, id)
  {
    AddSummary(s, t, id);
  }

  /** The run of one task: a new last job with the answered record, which is stored, and the demand is taken. */
  predicate Runs(s: State, s': State, t: Task, answer: UpAnswer) {
    && |s'.jobs| == |s.jobs| + 1 && s'.jobs[..|s.jobs|] == s.jobs
    && var job := s'.jobs[|s.jobs|];
       && AnsweredAs(t, job.task, s.now, answer) && Stores(s, s', job.task)
       && job.at == s.now && job.phase == (if answer.Up? then Live else Failed)
       && Charged(s.pool, s'.pool, t, answer.Up?)
       && s'.issued == s.issued && SameElsewhere(s, s')
  }

  lemma ExecDoes(s: State, answer: UpAnswer)
    requires s.loop.Chosen? && |s.jobs| == |s.pool.holds|
    ensures var s' := WholeExec(s, answer);
            Runs(s, s', s.loop.task, answer) && s'.loop == OwesPing && s'.todo == s.todo
  {
    ExecSummary(s, answer);
    AfterUpAnswers(s.loop.task, s.now, answer);
  }

  /** A turn of the loop after Done: the picked task is run and the loop pings itself; else one timer is armed, due
      at the start of the next waiting task or at once, if there is such a task (scheduler/scheduler.go:214-228). */
  predicate TurnsInto(s: State, s': State, pick: Option<Id>, answer: UpAnswer, next: Option<Id>)
    requires (pick.Some? ==> pick.value in s.store) && (next.Some? ==> next.value in s.store)
  {
    && s'.loop == Idle
    && (pick.Some? ==> Runs(s, s', s.store[pick.value], answer) && Pinged(s.todo, s'.todo))
    && (pick.None? ==>
          && s'.store == s.store && s'.pool == s.pool && s'.jobs == s.jobs && s'.issued == s.issued
          && s'.todo == s.todo && s'.now == s.now && s'.owed == s.owed)
    && (pick.None? && next.None? ==> s'.timers == s.timers)
    && (pick.None? && next.Some? ==>
          var start := s.store[next.value].start;
          s'.timers == s.timers + multiset{Timer(if start > s.now then start else s.now, 0)})
  }

  lemma TurnDoes(s: State, pick: Option<Id>, answer: UpAnswer, next: Option<Id>)
    requires Room(s) && |s.jobs| == |s.pool.holds|
    requires (pick.Some? ==> pick.value in s.store && s.store[pick.value].id == pick.value)
    requires (next.Some? ==> next.value in s.store) && (pick.Some? ==> next.None?)
    ensures TurnsInto(s, WholeTurn(s, pick, answer, next), pick, answer, next)
  {
    if pick.Some? {
      TurnSummary(s, s.store[pick.value], answer);
      AfterUpAnswers(s.store[pick.value], s.now, answer);
    }
  }

  /** The pick of a turn: nothing due, or a due task that no other one is lighter than. */
  ghost predicate PicksReady(s: State, pick: Option<Id>) {
    && (pick.None? ==> forall id :: id in s.store ==> !IsDue(s, s.store[id]))
    && (pick.Some? ==>
          && pick.value in s.store && IsDue(s, s.store[pick.value])
          && forall id :: id in s.store && IsDue(s, s.store[id]) ==> !Lighter(s.store[id], s.store[pick.value]))
  }

  predicate IsDue(s: State, t: Task) {
    t.status.Waiting? && t.start < s.now && t.cpu <= s.pool.cpu && t.ram <= s.pool.ram
  }

  lemma HeadIsReady(s: State, pick: Option<Id>)
    requires ReadyHead(EnterReady(s), pick)
    ensures PicksReady(s, pick)
  {
    forall id | id in s.store && IsDue(s, s.store[id]) ensures Sure(EnterReady(s), id) {
    }
    if pick.Some? {
      HeadIsLightest(EnterReady(s), pick.value);
    }
  }

  /** Done with the mutex free (todo/todo.go:36-46). */
  predicate Cleans(s: State, s': State) {
    && s'.loop == Cleared
    && s' == s.(todo := s'.todo, loop := s'.loop)
    && s'.todo.holder.Free? && !s'.todo.newMsg
    && s'.todo.tokens == (if s.todo.newMsg && s.todo.tokens > 0 then s.todo.tokens - 1 else s.todo.tokens)
  }

  /** A whole oneLoop. */
  ghost predicate LoopsInto(s: State, s': State, pick: Option<Id>, answer: UpAnswer, next: Option<Id>)
    requires (pick.Some? ==> pick.value in s.store) && (next.Some? ==> next.value in s.store)
  {
    exists d :: Cleans(s, d) && TurnsInto(d, s', pick, answer, next)
  }

  lemma LoopDoes(s: State, pick: Option<Id>, answer: UpAnswer, next: Option<Id>)
    requires Room(s) && |s.jobs| == |s.pool.holds|
    requires (pick.Some? ==> pick.value in s.store && s.store[pick.value].id == pick.value)
    requires (next.Some? ==> next.value in s.store) && (pick.Some? ==> next.None?)
    ensures LoopsInto(s, WholeLoop(s, pick, answer, next), pick, answer, next)
  {
    DoneDoes(s);
    TurnDoes(WholeDone(s), pick, answer, next);
  }

  lemma DoneDoes(s: State)
    requires Room(s)
    ensures Cleans(s, WholeDone(s))
  {
  }

  /** The end of the watcher of job `j`. */
  predicate Ends(s: State, s': State, j: nat, status: Status, next: Option<int>)
    requires j < |s.jobs| == |s.pool.holds|
  {
    && |s'.jobs| == |s.jobs|
    && var u := s'.jobs[j].task;
       && EndedAs(s.jobs[j].task, u, status, s.now, next) && Stores(s, s', u)
       && s'.jobs == s.jobs[j := Job(u, s.jobs[j].at, Gone)]
       && s'.pool == s.pool.(holds := s'.pool.holds)
       && s'.pool.holds == s.pool.holds[j := CancelledHold(s.pool.holds[j])]
       && s'.issued == s.issued && s'.loop == s.loop && SameElsewhere(s, s') && Pinged(s.todo, s'.todo)
  }

  function CancelledHold(h: Hold): Hold {
    if h.phase.Active? then Hold(h.cpu, h.ram, Cancelled) else h
  }

  lemma FinishDoes(s: State, j: nat, status: Status, next: Option<int>)
    requires Room(s) && j < |s.jobs| == |s.pool.holds|
    ensures Ends(s, WholeFinish(s, j, status, next), j, status, next)
  {
    FinishSummary(s, j, status, next);
    FinishedEnds(s.jobs[j].task, status, s.now, next);
    assert s.pool.holds[j := s.pool.holds[j]] == s.pool.holds;
  }

  /** Cancel (scheduler/scheduler.go:365-393). */
  predicate Cancels(s: State, s': State, id: Id) {
    && s' == s.(store := s'.store)
    && (id !in s.store ==> s'.store == s.store)
    && (id in s.store ==>
          var t := s.store[id];
          var status := if t.status.Running? then Canceled else t.status;
          s'.store == if t.status.Canceled? then s.store else s.store[id := t.(status := status, mtime := s.now)])
  }

  lemma CancelDoes(s: State, id: Id)
    requires id in s.store ==> s.store[id].id == id
    ensures Cancels(s, CancelTask(s, id), id)
  {
  }

  /** Flush (scheduler/scheduler.go:419-431): what is left is as it was. */
  predicate Flushes(s: State, s': State, age: int) {
    && s' == s.(store := s'.store)
    && (forall id :: id in s'.store ==> id in s.store && s'.store[id] == s.store[id])
    && (forall id :: id in s.store ==>
          (id in s'.store <==>
            s.store[id].status.Waiting? || s.store[id].status.Running? || s.now - s.store[id].mtime <= age))
  }

  lemma FlushDoes(s: State, age: int)
    ensures Flushes(s, FlushTasks(s, age), age)
  {
  }

  /** A fired timer is gone and pings (scheduler/scheduler.go:225-227). */
  predicate Fires(s: State, s': State, timer: Timer) {
    s' == s.(timers := s.timers - multiset{timer}, todo := s'.todo) && Pinged(s.todo, s'.todo)
  }

  lemma FireDoes(s: State, timer: Timer)
    requires Room(s)
    ensures Fires(s, WholeFire(s, timer), timer)
  {
  }

  /** The asynchronous release of a hold (scheduler/resources.go:51-60). */
  predicate GivesBack(a: Pool, b: Pool, j: nat)
    requires j < |a.holds|
  {
    var h := a.holds[j];
    b == a.(cpu := a.cpu + h.cpu, ram := a.ram + h.ram, processes := a.processes - 1,
            holds := a.holds[j := Hold(h.cpu, h.ram, Released)])
  }
}
