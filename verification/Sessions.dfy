/** A scheduler from its making on, used by any calls in any order. */
module Sessions {
  import opened Wrappers
  import opened Tasks
  import opened Engine
  import opened EngineTheorems
  import opened EngineWhole
  import opened Codec
  import opened Calls
  import opened Scheduler

  /** The calls of clients, and the turns of the goroutines. */
  datatype Call =
    | Adding(task: Task, id: Id)
    | Receiving
    | Turning(answer: UpAnswer)
    | Ending(j: nat, status: Status, next: Option<int>)
    | Giving(j: nat)
    | Firing(timer: Timer)
    | Ticking(d: nat)
    | Stopping
    | Cancelling(id: Id)
    | Deleting(id: Id)
    | Flushing(age: int)

  /** Makes the call if it can be made: its goroutine has what it waits for, the identifier is new, the answers
      are those that Up and Run.Wait promise. */
  method Perform(s: Scheduler, call: Call)
    requires s.Valid() && Reachable(s.View())
    modifies s, s.resources, s.tasks.store, s.somethingNewHappened
    ensures s.Valid() && Reachable(s.View())
  {
    match call {
      case Adding(t, id) =>
        if id !in s.issued && id != NIL_ID && Storable(s.lib, t) {
          var r := s.Add(t, id);
        }
      case Receiving =>
        if s.loop.Idle? && s.somethingNewHappened.wait > 0 {
          s.Receive();
        }
      case Turning(answer) => TurnOnce(s, answer);
      case Ending(j, status, next) => EndOne(s, j, status, next);
      case Giving(j) =>
        if j < |s.resources.holds| && s.resources.holds[j].phase.Cancelled? {
          s.GiveBack(j);
        }
      case Firing(timer) =>
        if timer in s.timers && timer.due <= s.now {
          s.FireTimer(timer);
        }
      case Ticking(d) => s.Tick(d);
      case Stopping =>
        if s.loop.Idle? {
          s.Stop();
        }
      case Cancelling(id) => var known := s.Cancel(id);
      case Deleting(id) => var known := s.Delete(id);
      case Flushing(age) => var n := s.Flush(age);
    }
  }

  method TurnOnce(s: Scheduler, answer: UpAnswer)
    requires s.Valid() && Reachable(s.View())
    modifies s, s.resources, s.tasks.store, s.somethingNewHappened
    ensures s.Valid() && Reachable(s.View())
  {
    if s.loop.Received? && Kept(s.lib, answer) {
      ghost var pick, next := s.OneLoop(answer);
    }
  }

  method EndOne(s: Scheduler, j: nat, status: Status, next: Option<int>)
    requires s.Valid() && Reachable(s.View())
    modifies s, s.resources, s.tasks.store, s.somethingNewHappened
    ensures s.Valid() && Reachable(s.View())
  {
    if j < |s.jobs| && s.jobs[j].phase.Live? && Terminal(status) && (next.Some? ==> next.value > s.now) {
      s.EndOfRun(j, status, next);
    }
  }

  /** Whatever is called on a new scheduler, in whatever order: it is never over-committed, no task has two live
      runs, no task that waits has one, and no task that does not recur is launched twice. */
  method Session(cpu: nat, ram: nat, lib: Lib, now: int, calls: seq<Call>) returns (s: Scheduler)
    requires Lawful(lib)
    ensures s.Valid() && Reachable(s.View())
    ensures s.resources.cpu >= 0 && s.resources.ram >= 0
    ensures LiveDemand(s.jobs).cpu <= s.resources.totalCpu && LiveDemand(s.jobs).ram <= s.resources.totalRam
    ensures forall i, j :: 0 <= i < |s.jobs| && 0 <= j < |s.jobs| ==> RunApart(s.View(), i, j)
  {
    s := new Scheduler(cpu, ram, lib, now);
    for n := 0 to |calls|
      invariant s.Valid() && Reachable(s.View())
      invariant fresh(s) && fresh(s.resources) && fresh(s.tasks.store) && fresh(s.somethingNewHappened)
    {
      Perform(s, calls[n]);
    }
    NeverOverCommits(s);
    forall i, j | 0 <= i < |s.jobs| && 0 <= j < |s.jobs| ensures RunApart(s.View(), i, j) {
      if s.jobs[i].task.id == s.jobs[j].task.id {
        NeverRunsTwice(s, i, j);
      }
    }
  }

  /** Two jobs of one task are not live together, and not two of a task that does not recur; a live one means that
      the record of the task does not wait. */
  ghost predicate RunApart(s: State, i: nat, j: nat)
    requires i < |s.jobs| && j < |s.jobs|
  {
    s.jobs[i].task.id == s.jobs[j].task.id ==>
      && (s.jobs[i].phase.Live? && s.jobs[j].phase.Live? ==> i == j)
      && (!HasCron(s.jobs[i].task) ==> i == j)
      && (s.jobs[i].phase.Live? && s.jobs[i].task.id in s.store ==> !s.store[s.jobs[i].task.id].status.Waiting?)
  }
}
