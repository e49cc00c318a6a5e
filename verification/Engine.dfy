/** The scheduling engine as a machine over its critical sections (scheduler/scheduler.go).
    Every step is one lock-protected action of one goroutine; any enabled step may come next. */
module Engine {
  import opened Wrappers
  import opened Tasks
  import opened Pools
  import W = Wakeups

  /** One call of execTask, from Consume to the end of its watcher. */
  datatype JobPhase =
    | Starting   // resources consumed, Up not answered yet
    | Failing    // Up failed, the hold is cancelled, the Put is owed
    | Failed     // Up failed, everything done
    | Live       // running, the watcher waits for the run
    | MustPing   // the watcher has Put its result and owes its Ping
    | InPing     // the watcher is inside Ping
    | MustClean  // the watcher owes its deferred cleanup
    | Gone       // the watcher is over

  /** `task` is the goroutine's own copy, `at` the time of the launch. */
  datatype Job = Job(task: Task, at: int, phase: JobPhase)

  /** An armed timer: when it fires, and how long before arming the clock was read (line 221 to 225). */
  datatype Timer = Timer(due: int, lag: int)

  datatype Pc =
    | Idle                         // in the select
    | Received                     // token received, Done not entered yet
    | InDone                       // inside Done
    | Cleared                      // Done is over, readyToGo not entered yet
    | Walking(at: int, cpu: int, ram: int)  // in readyToGo, which read the clock and found so much free
    | Chosen(task: Task)           // head of the ready tasks, execTask not entered yet
    | Launching(job: nat)          // in execTask, after Consume
    | Aborting(job: nat)           // in execTask, after a failed Up
    | OwesPing                     // execTask is over
    | Pinging                      // inside the Ping after execTask
    | Empty                        // nothing ready
    | Planning(t0: int)            // clock read, `next` not taken yet
    | Arming(start: int, t0: int)  // `next` answered a task with that start
    | Stopped                      // the loop goroutine has returned

  /** What admission fixes about a task for ever. */
  datatype Spec = Spec(cpu: int, ram: int, maxExec: int, every: int, cron: string)

  /** `issued`: the specification of every identifier handed out so far.
      `owed`: adders that have Put and fired timers, each owing one Ping.
      `jobs` grows by one per execTask; hold and job have the same index. */
  datatype State = State(
    now: int, pool: Pool, store: map<Id, Task>, issued: map<Id, Spec>, jobs: seq<Job>,
    timers: multiset<Timer>, owed: nat, todo: W.Todo, loop: Pc)

  datatype AddError = NotStarted | HasId | Resource(error: CheckError) | NoMaxExec

  /** Time, and the timers it fires. */
  datatype ClockStep = Tick(d: nat) | Fire(timer: Timer)

  /** The inside of Ping, for whoever pings. */
  datatype WakeStep = PingLock(who: W.Who) | PingSend | PingFlag

  /** The scheduling goroutine outside execTask: the select, Done, readyToGo, next, AfterFunc. */
  datatype LoopStep =
    | Receive | DoneLock | DoneFlush | Look | Ready(pick: Option<Id>)
    | ReadClock | Plan(pick: Option<Id>) | Arm | Stop

  /** execTask: Consume, Up with its two answers, and the Put after a failure. */
  datatype ExecStep =
    | Consume
    | UpOk(run: Part, data: RunData)
    | UpFail(counted: bool, partial: Option<RunData>)
    | FailPut

  /** A watcher's final Put and its cleanup, and the asynchronous release of a hold. */
  datatype WatchStep =
    | Finish(j: nat, status: Status, next: Option<int>)
    | Cleanup(j: nat)
    | Release(j: nat)

  datatype ClientStep = Add(task: Task, id: Id) | Cancel(id: Id) | Delete(id: Id) | Flush(age: int)

  datatype Step =
    | OfClock(clock: ClockStep)
    | OfWake(wake: WakeStep)
    | OfLoop(loop: LoopStep)
    | OfExec(exec: ExecStep)
    | OfWatcher(watch: WatchStep)
    | OfClient(client: ClientStep)

  function SpecOf(t: Task): Spec {
    Spec(t.cpu, t.ram, t.maxExec, t.every, t.cron)
  }

  predicate Recurring(spec: Spec) {
    spec.every > 0 || spec.cron != ""
  }

  function Init(cpu: int, ram: int, now: int): State {
    State(now, Fresh(cpu, ram), map[], map[], [], multiset{}, 0, W.INITIAL, Idle)
  }

  // ----- Add

  /** The checks of Add and Resources.Check, in their order. */
  function Refusal(s: State, t: Task): Option<AddError> {
    if s.loop.Stopped? then Some(NotStarted)
    else if t.id != NIL_ID then Some(HasId)
    else
      match CheckDemand(s.pool, t.cpu, t.ram)
      case Some(e) => Some(Resource(e))
      case None => if t.maxExec <= 0 then Some(NoMaxExec) else None
  }

  /** JSONStore.Put stamps the modification time, on the caller's copy as well. */
  function Stamped(s: State, t: Task): Task {
    t.(mtime := s.now)
  }

  function Put(s: State, t: Task): State {
    s.(store := s.store[t.id := Stamped(s, t)])
  }

  function AddTask(s: State, t: Task, id: Id): State {
    if Refusal(s, t).Some? then s
    else Put(s, t.(id := id, status := Waiting)).(issued := s.issued[id := SpecOf(t)], owed := s.owed + 1)
  }

  // ----- The wake-up

  predicate CanPing(s: State, who: W.Who) {
    match who
    case Someone => s.owed > 0
    case Watcher(j) => j < |s.jobs| && s.jobs[j].phase.MustPing?
    case Loop => s.loop.OwesPing?
  }

  /** `who` moves on: into the Ping (`inside`), or past it. */
  function Advance(s: State, who: W.Who, inside: bool): State
    requires who.Watcher? ==> who.j < |s.jobs|
  {
    match who
    case Someone => s
    case Watcher(j) => SetPhase(s, j, if inside then InPing else MustClean)
    case Loop => s.(loop := if inside then Pinging else Idle)
  }

  function SetPhase(s: State, j: nat, phase: JobPhase): State
    requires j < |s.jobs|
  {
    s.(jobs := s.jobs[j := s.jobs[j].(phase := phase)])
  }

  function LockPing(s: State, who: W.Who): State
    requires CanPing(s, who)
  {
    var s1 := if who.Someone? then s.(owed := s.owed - 1) else s;
    Advance(s1, who, !s.todo.newMsg).(todo := W.PingLock(s.todo, who))
  }

  function FlagPing(s: State): State
    requires s.todo.holder.Flagging?
    requires s.todo.holder.who.Watcher? ==> s.todo.holder.who.j < |s.jobs|
  {
    Advance(s, s.todo.holder.who, false).(todo := W.PingFlag(s.todo))
  }

  function LockDone(s: State): State {
    var todo := W.DoneLock(s.todo);
    s.(todo := todo, loop := if s.todo.newMsg then InDone else Cleared)
  }

  // ----- The loop

  /** Waiting, past its start at that time, and within these free amounts. */
  predicate Ripe(s: State, id: Id, at: int, cpu: int, ram: int) {
    && id in s.store
    && s.store[id].start < at
    && s.store[id].status.Waiting?
    && s.store[id].cpu <= cpu && s.store[id].ram <= ram
  }

  predicate Due(s: State, id: Id) {
    Ripe(s, id, s.now, s.pool.cpu, s.pool.ram)
  }

  /** During the walk of readyToGo releases may land between two tasks: what fitted at the start is on the
      list for sure, and nothing is on it that does not fit now. */
  predicate Sure(s: State, id: Id)
    requires s.loop.Walking?
  {
    Ripe(s, id, s.loop.at, s.loop.cpu, s.loop.ram)
  }

  predicate Possible(s: State, id: Id)
    requires s.loop.Walking?
  {
    Ripe(s, id, s.loop.at, s.pool.cpu, s.pool.ram)
  }

  /** The head of the list: a task of least karma among the listed ones, or None for an empty list. */
  ghost predicate ReadyHead(s: State, pick: Option<Id>)
    requires s.loop.Walking?
  {
    match pick
    case None => forall id :: id in s.store ==> !Sure(s, id)
    case Some(h) =>
      && Possible(s, h) && s.store[h].maxExec > 0
      && (forall id :: Sure(s, id) ==> s.store[id].maxExec > 0)
      && (forall id :: Sure(s, id) ==> Karma(s.store[h]) <= Karma(s.store[id]))
  }

  /** readyToGo begins: it reads the clock, and the resources from now on. */
  function EnterReady(s: State): State {
    s.(loop := Walking(s.now, s.pool.cpu, s.pool.ram))
  }

  /** The answer of next: None when nothing waits, else a waiting task of least start. */
  ghost predicate NextHead(s: State, pick: Option<Id>) {
    match pick
    case None => forall id :: id in s.store ==> !s.store[id].status.Waiting?
    case Some(h) =>
      && h in s.store && s.store[h].status.Waiting?
      && (forall id :: id in s.store && s.store[id].status.Waiting? ==> s.store[h].start <= s.store[id].start)
  }

  function TakeReady(s: State, pick: Option<Id>): State
    requires pick.Some? ==> pick.value in s.store
  {
    s.(loop := if pick.Some? then Chosen(s.store[pick.value]) else Empty)
  }

  function TakeNext(s: State, pick: Option<Id>): State
    requires s.loop.Planning? && (pick.Some? ==> pick.value in s.store)
  {
    s.(loop := if pick.Some? then Arming(s.store[pick.value].start, s.loop.t0) else Idle)
  }

  /** time.AfterFunc counts from the call; a negative delay fires at once. */
  function NewTimer(now: int, start: int, t0: int): Timer {
    Timer(if start > t0 then now + (start - t0) else now, now - t0)
  }

  function ArmTimer(s: State): State
    requires s.loop.Arming?
  {
    s.(timers := s.timers + multiset{NewTimer(s.now, s.loop.start, s.loop.t0)}, loop := Idle)
  }

  // ----- execTask

  function ConsumeFor(s: State): State
    requires s.loop.Chosen?
  {
    var t := s.loop.task;
    s.(pool := Pools.Consume(s.pool, t.cpu, t.ram), jobs := s.jobs + [Job(t, s.now, Starting)],
       loop := Launching(|s.jobs|))
  }

  /** What a successful Up leaves in the task: the counter, the history, the run. */
  function Launched(t: Task, now: int, run: Part, data: RunData): Task {
    AddRun(t.(runCounter := t.runCounter + 1), Some(data)).(status := Running, start := now, run := Some(run))
  }

  function UpSucceeds(s: State, run: Part, data: RunData): State
    requires s.loop.Launching? && s.loop.job < |s.jobs|
  {
    var j := s.loop.job;
    var t := Launched(s.jobs[j].task, s.now, run, data);
    Put(s, t).(jobs := s.jobs[j := Job(Stamped(s, t), s.now, Live)], loop := OwesPing)
  }

  /** `counted`: the runner got as far as incrementing the run counter. */
  function UpFails(s: State, counted: bool, data: Option<RunData>): State
    requires s.loop.Launching? && s.loop.job < |s.jobs| == |s.pool.holds|
  {
    var j := s.loop.job;
    var t := s.jobs[j].task;
    var t1 := AddRun(if counted then t.(runCounter := t.runCounter + 1) else t, data).(status := Error);
    s.(jobs := s.jobs[j := Job(t1, s.jobs[j].at, Failing)], pool := CancelHold(s.pool, j), loop := Aborting(j))
  }

  function PutFailed(s: State): State
    requires s.loop.Aborting? && s.loop.job < |s.jobs|
  {
    var j := s.loop.job;
    var t := s.jobs[j].task;
    Put(s, t).(jobs := s.jobs[j := Job(Stamped(s, t), s.jobs[j].at, Failed)], loop := OwesPing)
  }

  // ----- The watcher

  function FinishJob(s: State, j: nat, status: Status, next: Option<int>): State
    requires j < |s.jobs|
  {
    var t := Finished(s.jobs[j].task, status, s.now, next);
    Put(s, t).(jobs := s.jobs[j := Job(Stamped(s, t), s.jobs[j].at, MustPing)])
  }

  function CleanJob(s: State, j: nat): State
    requires j < |s.jobs| == |s.pool.holds|
  {
    SetPhase(s, j, Gone).(pool := CancelHold(s.pool, j))
  }

  // ----- Cancel, Delete, Flush

  /** Only a Running task becomes Canceled; any other known task is written back as it is. */
  function CancelTask(s: State, id: Id): State {
    if id !in s.store || s.store[id].status.Canceled? then s
    else if s.store[id].status.Running? then Put(s, s.store[id].(status := Canceled))
    else Put(s, s.store[id])
  }

  predicate Flushable(t: Task, now: int, age: int) {
    !t.status.Running? && !t.status.Waiting? && now - t.mtime > age
  }

  function FlushTasks(s: State, age: int): State {
    s.(store := map id | id in s.store && !Flushable(s.store[id], s.now, age) :: s.store[id])
  }

  // ----- The machine

  predicate ClockEnabled(s: State, step: ClockStep) {
    step.Fire? ==> step.timer in s.timers && step.timer.due <= s.now
  }

  function ApplyClock(s: State, step: ClockStep): State {
    match step
    case Tick(d) => s.(now := s.now + d)
    case Fire(timer) => s.(timers := s.timers - multiset{timer}, owed := s.owed + 1)
  }

  /** The send needs a free slot: a full channel would block the goroutine inside the mutex. */
  predicate WakeEnabled(s: State, step: WakeStep) {
    match step
    case PingLock(who) => s.todo.holder.Free? && CanPing(s, who)
    case PingSend => s.todo.holder.Sending? && s.todo.tokens < W.CAPACITY
    case PingFlag => s.todo.holder.Flagging? && (s.todo.holder.who.Watcher? ==> s.todo.holder.who.j < |s.jobs|)
  }

  function ApplyWake(s: State, step: WakeStep): State
    requires WakeEnabled(s, step)
  {
    match step
    case PingLock(who) => LockPing(s, who)
    case PingSend => s.(todo := W.PingSend(s.todo))
    case PingFlag => FlagPing(s)
  }

  /** Done's flush needs a token when it saw one. */
  ghost predicate LoopEnabled(s: State, step: LoopStep) {
    match step
    case Receive => s.loop.Idle? && s.todo.tokens > 0
    case DoneLock => s.loop.Received? && s.todo.holder.Free?
    case DoneFlush => s.loop.InDone? && s.todo.holder.Flushing? && (s.todo.holder.saw ==> s.todo.tokens > 0)
    case Look => s.loop.Cleared?
    case Ready(pick) => s.loop.Walking? && ReadyHead(s, pick)
    case ReadClock => s.loop.Empty?
    case Plan(pick) => s.loop.Planning? && NextHead(s, pick)
    case Arm => s.loop.Arming?
    case Stop => s.loop.Idle?
  }

  ghost function ApplyLoop(s: State, step: LoopStep): State
    requires LoopEnabled(s, step)
  {
    match step
    case Receive => s.(todo := W.Receive(s.todo), loop := Received)
    case DoneLock => LockDone(s)
    case DoneFlush => s.(todo := W.DoneFlush(s.todo), loop := Cleared)
    case Look => EnterReady(s)
    case Ready(pick) => TakeReady(s, pick)
    case ReadClock => s.(loop := Planning(s.now))
    case Plan(pick) => TakeNext(s, pick)
    case Arm => ArmTimer(s)
    case Stop => s.(loop := Stopped)
  }

  predicate ExecEnabled(s: State, step: ExecStep) {
    match step
    case Consume => s.loop.Chosen?
    case UpOk(_, _) => s.loop.Launching? && s.loop.job < |s.jobs|
    case UpFail(_, _) => s.loop.Launching? && s.loop.job < |s.jobs| == |s.pool.holds|
    case FailPut => s.loop.Aborting? && s.loop.job < |s.jobs|
  }

  function ApplyExec(s: State, step: ExecStep): State
    requires ExecEnabled(s, step)
  {
    match step
    case Consume => ConsumeFor(s)
    case UpOk(run, data) => UpSucceeds(s, run, data)
    case UpFail(counted, partial) => UpFails(s, counted, partial)
    case FailPut => PutFailed(s)
  }

  /** `Finish` carries the contract of Run.Wait, a terminal status, and of the cron library: a date
      strictly later than now. */
  predicate WatchEnabled(s: State, step: WatchStep) {
    match step
    case Finish(j, status, next) =>
      j < |s.jobs| && s.jobs[j].phase.Live? && Terminal(status) && (next.Some? ==> next.value > s.now)
    case Cleanup(j) => j < |s.jobs| == |s.pool.holds| && s.jobs[j].phase.MustClean?
    case Release(j) => j < |s.pool.holds| && s.pool.holds[j].phase.Cancelled?
  }

  function ApplyWatch(s: State, step: WatchStep): State
    requires WatchEnabled(s, step)
  {
    match step
    case Finish(j, status, next) => FinishJob(s, j, status, next)
    case Cleanup(j) => CleanJob(s, j)
    case Release(j) => s.(pool := Pools.Release(s.pool, j))
  }

  /** Add draws an identifier nobody has had. */
  predicate ClientEnabled(s: State, step: ClientStep) {
    step.Add? ==> step.id !in s.issued && step.id != NIL_ID
  }

  function ApplyClient(s: State, step: ClientStep): State {
    match step
    case Add(t, id) => AddTask(s, t, id)
    case Cancel(id) => CancelTask(s, id)
    case Delete(id) => s.(store := s.store - {id})
    case Flush(age) => FlushTasks(s, age)
  }

  ghost predicate Enabled(s: State, step: Step) {
    match step
    case OfClock(x) => ClockEnabled(s, x)
    case OfWake(x) => WakeEnabled(s, x)
    case OfLoop(x) => LoopEnabled(s, x)
    case OfExec(x) => ExecEnabled(s, x)
    case OfWatcher(x) => WatchEnabled(s, x)
    case OfClient(x) => ClientEnabled(s, x)
  }

  ghost function Apply(s: State, step: Step): State
    requires Enabled(s, step)
  {
    match step
    case OfClock(x) => ApplyClock(s, x)
    case OfWake(x) => ApplyWake(s, x)
    case OfLoop(x) => ApplyLoop(s, x)
    case OfExec(x) => ApplyExec(s, x)
    case OfWatcher(x) => ApplyWatch(s, x)
    case OfClient(x) => ApplyClient(s, x)
  }

  /** A run: steps that are enabled one after the other. */
  ghost predicate ValidRun(s: State, steps: seq<Step>)
    decreases |steps|
  {
    steps == [] || (Enabled(s, steps[0]) && ValidRun(Apply(s, steps[0]), steps[1..]))
  }

  ghost function Exec(s: State, steps: seq<Step>): State
    requires ValidRun(s, steps)
    decreases |steps|
  {
    if steps == [] then s else Exec(Apply(s, steps[0]), steps[1..])
  }
}
