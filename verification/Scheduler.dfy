/** The scheduler as the object its goroutines share (scheduler/scheduler.go). Each method is one goroutine's
    call with nobody in between; the interleavings are those of the machine in Engine. */
module Scheduler {
  import opened Wrappers
  import opened Tasks
  import opened Pools
  import opened Engine
  import opened EngineTheorems
  import opened EngineWhole
  import opened Codec
  import opened JsonStore
  import opened TaskObjects
  import opened Sorting
  import opened Calls
  import opened Outcomes
  import R = Resources
  import T = Todo
  import W = Wakeups
  import M = MemoryStore

  class Scheduler {
    const lib: Lib
    const resources: R.Resources
    const tasks: JsonStore
    const somethingNewHappened: T.Todo
    /** The clock. */
    var now: int
    var issued: map<Id, Spec>
    /** The goroutines: jobs with their watchers, armed timers, and where the loop is. */
    var jobs: seq<Job>
    var timers: multiset<Timer>
    var loop: Pc

    ghost predicate Valid()
      reads this, resources, tasks.store, somethingNewHappened
    {
      && tasks.codec == Conversions(lib)
      && tasks.Valid() && resources.Valid()
      && Sound(lib, View())
    }

    ghost function View(): State
      requires tasks.Valid()
      reads this, resources, tasks.store, somethingNewHappened
    {
      State(now, resources.View(), tasks.View(), issued, jobs, timers, 0, somethingNewHappened.View(), loop)
    }

    /** New and Start. */
    constructor (cpu: int, ram: int, lib: Lib, now: int)
      requires Lawful(lib)
      ensures Valid() && View() == Init(cpu, ram, now)
      ensures cpu >= 0 && ram >= 0 ==> Reachable(View())
      ensures fresh(resources) && fresh(tasks.store) && fresh(somethingNewHappened)
    {
      if cpu >= 0 && ram >= 0 {
        InitReachable(cpu, ram, now);
      }
      this.lib := lib;
      var store := new M.MemoryStore<RawTask>();
      resources := new R.Resources(cpu, ram);
      tasks := new JsonStore(lib, store);
      somethingNewHappened := new T.Todo();
      this.now, issued, jobs, timers, loop := now, map[], [], multiset{}, Idle;
    }

    /** Refuses a task for the first objection of the code, or stores it as Waiting under the new identifier
        and pings. A task that does not survive its own conversions is stored as it was written. */
    method Add(t: Task, id: Id) returns (r: Result<Id, AddError>)
      requires Valid() && id !in issued && id != NIL_ID
      modifies this, tasks.store, somethingNewHappened
      ensures r.Ok? <==> Admissible(old(View()), t)
      ensures r.Ok? ==> r.value == id
      ensures forall e :: r == Err(e) <==> Refuses(old(View()), t, e)
      ensures r.Err? || Storable(lib, t) ==>
                Valid() && View() == WholeAdd(old(View()), t, id) && Follows(old(View()), View())
      ensures r.Ok? && Storable(lib, t) ==> Adds(old(View()), View(), t, id)
      ensures r.Ok? ==> tasks.store.kv == old(tasks.store.kv)[id := Marshal(lib, Accepted(t, id, now))]
    {
      RefusalIs(View(), t);
      if Refusal(View(), t).None? {
        AddAdds(View(), t, id);
      }
      var objection := Objection(t);
      if objection.Some? {
        return Err(objection.value);
      }
      Accept(t, id);
      return Ok(id);
    }

    method Objection(t: Task) returns (e: Option<AddError>)
      requires Valid()
      ensures e == Refusal(View(), t)
    {
      if loop.Stopped? {
        return Some(NotStarted);
      }
      if t.id != NIL_ID {
        return Some(HasId);
      }
      var error := resources.Check(t.cpu, t.ram);
      if error.Some? {
        return Some(Resource(error.value));
      }
      return if t.maxExec <= 0 then Some(NoMaxExec) else None;
    }

    method Accept(t: Task, id: Id)
      requires Valid() && Refusal(View(), t).None? && id !in issued && id != NIL_ID
      modifies this`issued, tasks.store, somethingNewHappened
      ensures Storable(lib, t) ==>
                Valid() && View() == WholeAdd(old(View()), t, id) && Follows(old(View()), View())
      ensures tasks.store.kv == old(tasks.store.kv)[id := Marshal(lib, Accepted(t, id, now))]
    {
      if Storable(lib, t) {
        SoundAdd(lib, View(), t, id);
        AddFollows(View(), t, id);
      }
      Insert(t, id);
    }

    method Insert(t: Task, id: Id)
      requires tasks.codec == Conversions(lib) && tasks.Valid() && resources.Valid() && id != NIL_ID
      requires Room(View()) && Refusal(View(), t).None?
      modifies this`issued, tasks.store, somethingNewHappened
      ensures Storable(lib, t) ==> tasks.Valid() && resources.Valid() && View() == WholeAdd(old(View()), t, id)
      ensures tasks.store.kv == old(tasks.store.kv)[id := Marshal(lib, Accepted(t, id, now))]
    {
      ghost var before := View();
      Admit(t.(id := id, status := Waiting));
      if Storable(lib, t) {
        AddedIs(before, View(), t, id);
      }
    }

    /** The end of Add: the Put, then the Ping. */
    method Admit(t: Task)
      requires tasks.codec == Conversions(lib) && tasks.Valid() && resources.Valid() && t.id != NIL_ID
      requires !somethingNewHappened.newMsg ==> somethingNewHappened.wait < W.CAPACITY
      modifies this`issued, tasks.store, somethingNewHappened
      ensures tasks.store.kv == old(tasks.store.kv)[t.id := Marshal(lib, t.(mtime := now))]
      ensures Storable(lib, t) ==> tasks.Valid() && tasks.View() == old(tasks.View())[t.id := t.(mtime := now)]
      ensures issued == old(issued)[t.id := SpecOf(t)]
      ensures resources.Valid() && resources.View() == old(resources.View())
      ensures somethingNewHappened.View() == W.Ping(old(somethingNewHappened.View()), W.Someone)
    {
      var ok := tasks.Put(t, now);
      issued := issued[t.id := SpecOf(t)];
      var sent := somethingNewHappened.Ping(W.Someone);
    }

    /** The loop takes the token out of the channel. */
    method Receive()
      requires Valid() && loop.Idle? && somethingNewHappened.wait > 0
      modifies this`loop, somethingNewHappened
      ensures Valid() && View() == old(View()).(loop := Received, todo := somethingNewHappened.View())
      ensures somethingNewHappened.wait == old(somethingNewHappened.wait) - 1
      ensures somethingNewHappened.newMsg == old(somethingNewHappened.newMsg)
      ensures Follows(old(View()), View())
    {
      StepFollows(View(), OfLoop(LoopStep.Receive));
      somethingNewHappened.Receive();
      loop := Received;
    }

    /** Done, then the loop is about to take the ready list. */
    method Done()
      requires Valid() && loop.Received?
      modifies this`loop, somethingNewHappened
      ensures Valid() && View() == WholeDone(old(View())) && Follows(old(View()), View())
      ensures tasks.store.kv == old(tasks.store.kv) && Cleans(old(View()), View())
    {
      DoneDoes(View());
      DoneFollows(View());
      somethingNewHappened.Done();
      loop := Cleared;
    }

    /** The due tasks, the lightest first: those with the least whole part of cpu times ram by time. */
    method ReadyToGo() returns (todos: seq<Task>)
      requires Valid()
      ensures ReadyList(View(), todos) && LightestFirst(todos)
    {
      var n := now;
      var past := tasks.Collect((t: Task) => IsPast(t, n));
      assert PastList(View(), past);
      var found := Doables(past);
      todos := SortBy(found, KarmaKey);
      ReadyListIs(lib, View(), past, found, todos);
    }

    /** The tasks that fit into what is free. */
    method Doables(past: seq<Task>) returns (found: seq<Task>)
      requires EachOnce(past)
      ensures FitList(past, found, resources.cpu, resources.ram)
    {
      found := [];
      for i := 0 to |past|
        invariant FitList(past[..i], found, resources.cpu, resources.ram)
      {
        var ok := resources.IsDoable(past[i].cpu, past[i].ram);
        if ok {
          assert past[i] !in past[..i];
          AppendOnce(found, past[i]);
          found := found + [past[i]];
        }
      }
    }

    method Length() returns (n: nat)
      requires Valid()
      ensures n == |View().store|
    {
      n := tasks.Length();
    }

    method FirstWaiting() returns (task: Option<Task>)
      requires Valid()
      ensures NextTask(View(), task)
    {
      var found := tasks.Collect(IsWaiting);
      var waiting := SortBy(found, StartKey);
      NextListIs(View(), waiting);
      task := FirstOf(waiting);
    }

    /** A waiting task of least start. */
    method Next() returns (task: Option<Task>)
      requires Valid()
      ensures NextTask(View(), task)
    {
      var n := Length();
      if n == 0 {
        NothingStored(View());
        task := None;
      } else {
        task := FirstWaiting();
      }
    }

    /** Runs the chosen task: consumes its resources, asks the runner, stores the answer. A run that does not
        survive its own codec is stored as it was written. */
    method ExecTask(answer: UpAnswer)
      requires Valid() && loop.Chosen?
      modifies this`loop, this`jobs, resources, tasks.store
      ensures Kept(lib, answer) ==>
                Valid() && View() == WholeExec(old(View()), answer) && Follows(old(View()), View())
      ensures Kept(lib, answer) ==> Runs(old(View()), View(), old(loop.task), answer)
      ensures WritesAnswer(lib, old(tasks.store.kv), tasks.store.kv, old(loop.task), now, answer)
    {
      ExecutedWrites(lib, tasks.store.kv, loop.task, now, answer);
      ExecDoes(View(), answer);
      if Kept(lib, answer) {
        ExecFollows(View(), answer);
        SoundExec(lib, View(), answer);
      }
      RunChosen(answer);
    }

    method RunChosen(answer: UpAnswer)
      requires tasks.codec == Conversions(lib) && tasks.Valid() && resources.Valid()
      requires loop.Chosen? && Keepable(lib, loop.task) && |jobs| == |resources.holds|
      modifies this`loop, this`jobs, resources, tasks.store
      ensures resources.Valid() && (Kept(lib, answer) ==> tasks.Valid() && View() == WholeExec(old(View()), answer))
      ensures tasks.store.kv == Executed(lib, old(tasks.store.kv), old(loop.task), now, answer)
    {
      ghost var before := View();
      Run(loop.task, answer);
      loop := OwesPing;
      if Kept(lib, answer) {
        ExecutedIs(before, View(), answer);
      }
    }

    /** The body of execTask for a task in hand. */
    method Run(t: Task, answer: UpAnswer)
      requires tasks.codec == Conversions(lib) && tasks.Valid() && resources.Valid()
      requires Keepable(lib, t) && |jobs| == |resources.holds|
      modifies this`jobs, resources, tasks.store
      ensures resources.Valid() && (Kept(lib, answer) ==> tasks.Valid())
      ensures tasks.store.kv == Executed(lib, old(tasks.store.kv), t, now, answer)
      ensures var t' := AfterUp(t, now, answer).(mtime := now);
              && (Kept(lib, answer) ==> tasks.View() == old(tasks.View())[t.id := t'])
              && jobs == old(jobs) + [Job(t', now, if answer.Up? then Live else Failed)]
      ensures var pool := Pools.Consume(old(resources.View()), t.cpu, t.ram);
              resources.View() == if answer.Up? then pool else CancelHold(pool, |old(jobs)|)
      ensures somethingNewHappened.View() == old(somethingNewHappened.View())
    {
      var t' := RunUp(t, now, answer);
      Spend(t, answer.Up?);
      StoreAnswer(t', if answer.Up? then Live else Failed);
    }

    /** The Put of execTask, and the new job. */
    method StoreAnswer(t: Task, phase: JobPhase)
      requires tasks.codec == Conversions(lib) && tasks.Valid() && t.id != NIL_ID
      modifies this`jobs, tasks.store
      ensures tasks.store.kv == old(tasks.store.kv)[t.id := Marshal(lib, t.(mtime := now))]
      ensures Storable(lib, t) ==> tasks.Valid() && tasks.View() == old(tasks.View())[t.id := t.(mtime := now)]
      ensures jobs == old(jobs) + [Job(t.(mtime := now), now, phase)]
    {
      var ok := tasks.Put(t, now);
      jobs := jobs + [Job(t.(mtime := now), now, phase)];
    }

    /** Takes the demand of a task, and cancels the hold at once when Up fails. */
    method Spend(t: Task, up: bool)
      requires resources.Valid()
      modifies resources
      ensures resources.Valid()
      ensures var pool := Pools.Consume(old(resources.View()), t.cpu, t.ram);
              resources.View() == if up then pool else CancelHold(pool, |old(resources.holds)|)
    {
      var hold := resources.Consume(t.cpu, t.ram);
      if !up {
        resources.CancelContext(hold);
      }
    }

    /** One turn of the loop after a wake-up. `answer` is what Up would answer. */
    method OneLoop(answer: UpAnswer) returns (ghost pick: Option<Id>, ghost next: Option<Id>)
      requires Valid() && loop.Received?
      modifies this`loop, this`jobs, this`timers, resources, tasks.store, somethingNewHappened
      ensures Picks(WholeDone(old(View())), pick, next) && PicksReady(old(View()), pick)
      ensures pick.None? || Kept(lib, answer) ==>
                && Valid() && View() == WholeLoop(old(View()), pick, answer, next) && Follows(old(View()), View())
                && LoopsInto(old(View()), View(), pick, answer, next)
      ensures Written(lib, old(View()).store, old(tasks.store.kv), tasks.store.kv, now, pick, answer)
    {
      ghost var before := View();
      Done();
      pick, next := TurnAfter(before, answer);
    }

    /** The turn that follows Done from that state. */
    method TurnAfter(ghost before: State, answer: UpAnswer) returns (ghost pick: Option<Id>, ghost next: Option<Id>)
      requires Valid() && loop.Cleared? && Sound(lib, before) && View() == WholeDone(before)
      modifies this`loop, this`jobs, this`timers, resources, tasks.store, somethingNewHappened
      ensures Picks(WholeDone(before), pick, next) && PicksReady(before, pick)
      ensures pick.None? || Kept(lib, answer) ==>
                && Valid() && View() == WholeLoop(before, pick, answer, next) && Follows(WholeDone(before), View())
                && LoopsInto(before, View(), pick, answer, next)
      ensures Written(lib, before.store, old(tasks.store.kv), tasks.store.kv, now, pick, answer)
    {
      pick, next := Turn(answer);
      LoopTells(lib, before, pick, answer, next);
    }

    method Turn(answer: UpAnswer) returns (ghost pick: Option<Id>, ghost next: Option<Id>)
      requires Valid() && loop.Cleared?
      modifies this`loop, this`jobs, this`timers, resources, tasks.store, somethingNewHappened
      ensures Picks(old(View()), pick, next)
      ensures pick.None? || Kept(lib, answer) ==>
                Valid() && View() == WholeTurn(old(View()), pick, answer, next) && Follows(old(View()), View())
      ensures Written(lib, old(View()).store, old(tasks.store.kv), tasks.store.kv, now, pick, answer)
    {
      ghost var before, kv := View(), tasks.store.kv;
      next := None;
      var todos := ReadyToGo();
      pick := IdOf(FirstOf(todos));
      if todos != [] {
        assert todos[0] in todos;
        TurnFirst(todos[0], answer);
        TurnSummary(before, todos[0], answer);
        ExecutedWrites(lib, kv, todos[0], now, answer);
        if Kept(lib, answer) {
          SoundTurn(lib, before, todos[0], answer);
        }
      } else {
        var n := Next();
        next := IdOf(n);
        SoundPlan(lib, before, n);
        PlanFor(n);
      }
      TurnFollows(before, pick, answer, next);
    }

    /** A turn that runs a task of the store. */
    method TurnFirst(t: Task, answer: UpAnswer)
      requires tasks.codec == Conversions(lib) && tasks.Valid() && resources.Valid()
      requires Keepable(lib, t) && |jobs| == |resources.holds|
      requires !somethingNewHappened.newMsg ==> somethingNewHappened.wait < W.CAPACITY
      modifies this`loop, this`jobs, resources, tasks.store, somethingNewHappened
      ensures resources.Valid() && (Kept(lib, answer) ==> tasks.Valid() && View() == Turned(old(View()), t, answer))
      ensures tasks.store.kv == Executed(lib, old(tasks.store.kv), t, now, answer)
    {
      ghost var before := View();
      RunFirst(t, answer);
      if Kept(lib, answer) {
        TurnedIs(before, View(), t, answer);
      }
    }

    /** The head of the ready list is run, then the loop pings itself. */
    method RunFirst(t: Task, answer: UpAnswer)
      requires tasks.codec == Conversions(lib) && tasks.Valid() && resources.Valid()
      requires Keepable(lib, t) && |jobs| == |resources.holds|
      requires !somethingNewHappened.newMsg ==> somethingNewHappened.wait < W.CAPACITY
      modifies this`loop, this`jobs, resources, tasks.store, somethingNewHappened
      ensures resources.Valid() && (Kept(lib, answer) ==> tasks.Valid())
      ensures tasks.store.kv == Executed(lib, old(tasks.store.kv), t, now, answer)
      ensures var t' := AfterUp(t, now, answer).(mtime := now);
              && (Kept(lib, answer) ==> tasks.View() == old(tasks.View())[t.id := t'])
              && jobs == old(jobs) + [Job(t', now, if answer.Up? then Live else Failed)]
      ensures var pool := Pools.Consume(old(resources.View()), t.cpu, t.ram);
              resources.View() == if answer.Up? then pool else CancelHold(pool, |old(jobs)|)
      ensures somethingNewHappened.View() == W.Ping(old(somethingNewHappened.View()), W.Loop) && loop == Idle
      ensures timers == old(timers) && now == old(now) && issued == old(issued)
    {
      Run(t, answer);
      var sent := somethingNewHappened.Ping(W.Loop);
      loop := Idle;
    }

    /** Nothing is ready: a timer for the next task, if there is one. */
    method PlanFor(n: Option<Task>)
      requires tasks.Valid()
      requires n.Some? ==> n.value.id in tasks.View() && tasks.View()[n.value.id] == n.value
      modifies this`loop, this`timers
      ensures tasks.Valid() && View() == WholePlan(TakeReady(old(View()), None), IdOf(n))
    {
      ghost var before := View();
      ArmFor(n);
      PlanIs(before, View(), n);
    }

    method ArmFor(n: Option<Task>)
      requires tasks.Valid()
      modifies this`loop, this`timers
      ensures tasks.Valid() && tasks.View() == old(tasks.View()) && resources.View() == old(resources.View())
      ensures somethingNewHappened.View() == old(somethingNewHappened.View()) && loop == Idle
      ensures timers == if n.None? then old(timers) else old(timers) + multiset{NewTimer(now, n.value.start, now)}
    {
      if n.Some? {
        timers := timers + multiset{NewTimer(now, n.value.start, now)};
      }
      loop := Idle;
    }

    /** The watcher of job `j` when its run is over, whatever the run answered: the final Put, the Ping, the
        cleanup. */
    method EndOfRun(j: nat, status: Status, next: Option<int>)
      requires Valid() && j < |jobs| && jobs[j].phase.Live? && (next.Some? ==> next.value > now)
      modifies this`jobs, resources, tasks.store, somethingNewHappened
      ensures Valid() && View() == WholeFinish(old(View()), j, status, next)
      ensures Ends(old(View()), View(), j, status, next)
      ensures Terminal(status) ==> Follows(old(View()), View())
    {
      FinishDoes(View(), j, status, next);
      ghost var before := View();
      SoundFinish(lib, before, j, status, next);
      EndJob(j, status, next);
      if Terminal(status) {
        FinishFollows(before, j, status, next);
      }
    }

    method EndJob(j: nat, status: Status, next: Option<int>)
      requires tasks.codec == Conversions(lib) && tasks.Valid() && resources.Valid()
      requires j < |jobs| == |resources.holds| && Keepable(lib, jobs[j].task) && (next.Some? ==> next.value > now)
      requires somethingNewHappened.wait <= W.CAPACITY
      requires !somethingNewHappened.newMsg ==> somethingNewHappened.wait == 0
      modifies this`jobs, resources, tasks.store, somethingNewHappened
      ensures tasks.Valid() && resources.Valid() && View() == WholeFinish(old(View()), j, status, next)
    {
      ghost var before := View();
      var t := RunOver(jobs[j].task, status, now, next);
      Conclude(j, t);
      FinishedIs(before, View(), j, status, next);
    }

    method Conclude(j: nat, t: Task)
      requires tasks.codec == Conversions(lib) && tasks.Valid() && resources.Valid()
      requires Keepable(lib, t) && j < |jobs| == |resources.holds|
      requires !somethingNewHappened.newMsg ==> somethingNewHappened.wait < W.CAPACITY
      modifies this`jobs, resources, tasks.store, somethingNewHappened
      ensures tasks.Valid() && tasks.View() == old(tasks.View())[t.id := t.(mtime := now)]
      ensures resources.Valid() && resources.View() == CancelHold(old(resources.View()), j)
      ensures somethingNewHappened.View() == W.Ping(old(somethingNewHappened.View()), W.Watcher(j))
      ensures jobs == old(jobs)[j := Job(t.(mtime := now), old(jobs)[j].at, Gone)]
    {
      PutRecord(t);
      CleanUp(j);
      jobs := jobs[j := Job(t.(mtime := now), jobs[j].at, Gone)];
    }

    /** The Ping of a watcher, then its deferred cleanup. */
    method CleanUp(j: nat)
      requires resources.Valid() && j < |resources.holds|
      requires !somethingNewHappened.newMsg ==> somethingNewHappened.wait < W.CAPACITY
      modifies resources, somethingNewHappened
      ensures resources.Valid() && resources.View() == CancelHold(old(resources.View()), j)
      ensures somethingNewHappened.View() == W.Ping(old(somethingNewHappened.View()), W.Watcher(j))
    {
      var sent := somethingNewHappened.Ping(W.Watcher(j));
      resources.CancelContext(j);
    }

    /** The goroutine behind a cancelled hold. */
    method GiveBack(j: nat)
      requires Valid() && j < |resources.holds| && resources.holds[j].phase.Cancelled?
      modifies resources
      ensures Valid() && View() == old(View()).(pool := resources.View())
      ensures Follows(old(View()), View()) && GivesBack(old(resources.View()), resources.View(), j)
    {
      StepFollows(View(), OfWatcher(Release(j)));
      resources.GiveBack(j);
    }

    method FireTimer(timer: Timer)
      requires Valid() && timer in timers && timer.due <= now
      modifies this`timers, somethingNewHappened
      ensures Valid() && View() == WholeFire(old(View()), timer) && Follows(old(View()), View())
      ensures Fires(old(View()), View(), timer)
    {
      FireDoes(View(), timer);
      FireFollows(View(), timer);
      timers := timers - multiset{timer};
      var sent := somethingNewHappened.Ping(W.Someone);
    }

    method Tick(d: nat)
      requires Valid()
      modifies this`now
      ensures Valid() && View() == old(View()).(now := old(now) + d) && Follows(old(View()), View())
    {
      StepFollows(View(), OfClock(ClockStep.Tick(d)));
      now := now + d;
    }

    method Stop()
      requires Valid() && loop.Idle?
      modifies this`loop
      ensures Valid() && View() == old(View()).(loop := Stopped) && Follows(old(View()), View())
    {
      StepFollows(View(), OfLoop(LoopStep.Stop));
      loop := Stopped;
    }

    /** The Put of Cancel. */
    method WriteBack(t: Task)
      requires tasks.codec == Conversions(lib) && tasks.Valid() && Keepable(lib, t)
      modifies tasks.store
      ensures tasks.Valid() && View() == Engine.Put(old(View()), t)
    {
      ghost var before := View();
      PutRecord(t);
      PutIs(before, View(), t);
    }

    method PutRecord(t: Task)
      requires tasks.codec == Conversions(lib) && tasks.Valid() && Keepable(lib, t)
      modifies tasks.store
      ensures tasks.Valid() && tasks.View() == old(tasks.View())[t.id := t.(mtime := now)]
      ensures resources.View() == old(resources.View())
      ensures somethingNewHappened.View() == old(somethingNewHappened.View())
    {
      var ok := tasks.Put(t, now);
    }

    /** Cancels a running task; any other known task is only written back. False: unknown. */
    method Cancel(id: Id) returns (known: bool)
      requires Valid()
      modifies tasks.store
      ensures Valid() && View() == CancelTask(old(View()), id) && Follows(old(View()), View())
      ensures known <==> id in old(View()).store
      ensures Cancels(old(View()), View(), id)
    {
      StepFollows(View(), OfClient(ClientStep.Cancel(id)));
      CancelDoes(View(), id);
      var found := tasks.Get(id);
      known := found.Some?;
      if known && !found.value.status.Canceled? {
        var t := if found.value.status.Running? then found.value.(status := Canceled) else found.value;
        SoundPut(lib, View(), t);
        WriteBack(t);
      }
    }

    method Erase(id: Id)
      requires Valid()
      modifies tasks.store
      ensures Valid() && View() == old(View()).(store := old(View()).store - {id})
    {
      SoundDelete(lib, View(), id);
      tasks.Delete(id);
    }

    /** Removes a known task. False: unknown. */
    method Delete(id: Id) returns (known: bool)
      requires Valid()
      modifies tasks.store
      ensures Valid() && Follows(old(View()), View())
      ensures known <==> id in old(View()).store
      ensures View() == old(View()).(store := old(View()).store - {id})
    {
      StepFollows(View(), OfClient(ClientStep.Delete(id)));
      var found := tasks.Get(id);
      known := found.Some?;
      if known {
        Erase(id);
      } else {
        DeleteAbsent(View(), id);
      }
    }

    /** Removes the old tasks that neither wait nor run, and says how many there were. */
    method Flush(age: int) returns (n: nat)
      requires Valid()
      modifies tasks.store
      ensures Valid() && View() == FlushTasks(old(View()), age) && Follows(old(View()), View())
      ensures n == |old(tasks.View())| - |tasks.View()|
      ensures Flushes(old(View()), View(), age)
    {
      ghost var before := View();
      FlushDoes(before, age);
      StepFollows(View(), OfClient(ClientStep.Flush(age)));
      var clause := FlushClause(now, age);
      n := tasks.DeleteWithClause(clause);
      FlushIs(before, View().store, clause, age);
    }
  }

  /** A scheduler in a reachable state is not over-committed. */
  lemma NeverOverCommits(s: Scheduler)
    requires s.Valid() && Reachable(s.View())
    ensures s.resources.cpu >= 0 && s.resources.ram >= 0
    ensures LiveDemand(s.jobs).cpu <= s.resources.totalCpu && LiveDemand(s.jobs).ram <= s.resources.totalRam
  {
    NoOverCommitment(s.View());
  }

  /** Nor does it run a task twice at a time, nor one that waits, nor has it run one that does not recur twice. */
  lemma NeverRunsTwice(s: Scheduler, i: nat, j: nat)
    requires s.Valid() && Reachable(s.View())
    requires i < |s.jobs| && j < |s.jobs| && s.jobs[i].task.id == s.jobs[j].task.id
    ensures s.jobs[i].phase.Live? && s.jobs[j].phase.Live? ==> i == j
    ensures !HasCron(s.jobs[i].task) ==> i == j
    ensures s.jobs[i].phase.Live? && s.jobs[i].task.id in s.View().store ==>
              !s.View().store[s.jobs[i].task.id].status.Waiting?
  {
    if s.jobs[i].phase.Live? {
      OneLiveRun(s.View(), i, j);
    }
    if !HasCron(s.jobs[i].task) {
      LaunchedOnce(s.View(), i, j);
    }
  }

  /** What the watcher does to the task object. */
  method RunOver(t: Task, status: Status, now: int, next: Option<int>) returns (t': Task)
    requires next.Some? ==> next.value > now
    ensures t' == Finished(t, status, now, next) && EndedAs(t, t', status, now, next)
  {
    var task := new TaskObject(t);
    task.Finish(status, now, next);
    return task.View();
  }

  /** What the runner and execTask do to the task object. */
  method RunUp(t: Task, now: int, answer: UpAnswer) returns (t': Task)
    ensures t' == AfterUp(t, now, answer) && AnsweredAs(t, t', now, answer)
  {
    AfterUpAnswers(t, now, answer);
    var chosen := new TaskObject(t);
    match answer {
      case Down(counted, partial) =>
        if counted {
          chosen.CountRun();
        }
        chosen.AddRunToHistory(partial);
        chosen.status := Error;
      case Up(run, data) =>
        chosen.CountRun();
        chosen.AddRunToHistory(Some(data));
        chosen.status := Running;
        chosen.start := now;
        chosen.run := Some(run);
    }
    return chosen.View();
  }
}
