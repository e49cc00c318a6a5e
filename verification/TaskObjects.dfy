/** The task as the object that execTask and its watcher change (task/task.go, runner/runner.go). */
module TaskObjects {
  import opened Wrappers
  import opened Tasks

  class TaskObject {
    const maxExec: int
    const cpu: int
    const ram: int
    const every: int
    const cron: string
    const rest: Rest
    const id: Id
    var status: Status
    var start: int
    var mtime: int
    var runCounter: int
    var runs: seq<RunData>
    var run: Option<Part>

    function View(): Task
      reads this
    {
      Task(id, status, start, maxExec, cpu, ram, every, cron, mtime, runCounter, runs, run, rest)
    }

    constructor (t: Task)
      ensures View() == t
    {
      id, status, start, maxExec, cpu, ram := t.id, t.status, t.start, t.maxExec, t.cpu, t.ram;
      every, cron, mtime, runCounter, runs, run, rest := t.every, t.cron, t.mtime, t.runCounter, t.runs, t.run, t.rest;
    }

    /** Moves the start date of a recurring task into the future, or marks the task as broken when its
        cron expression does not parse. A task that does not recur is left as it is. */
    method PrepareReschedule(now: int, next: Option<int>)
      requires next.Some? ==> next.value > now
      modifies this`start, this`status
      ensures View() == Rescheduled(old(View()), now, next)
      ensures View() == old(View()).(start := start, status := status)
      ensures cron == "" ==> start == (if every > 0 then now + every else old(start)) && status == old(status)
      ensures cron != "" && next.Some? ==> start == next.value && status == old(status)
      ensures cron != "" && next.None? ==>
                status == Error && start == (if every > 0 then now + every else old(start))
    {
      if every > 0 {
        start := now + every;
      }
      if cron != "" {
        if next.Some? {
          start := next.value;
        } else {
          status := Error;
        }
      }
    }

    /** Puts a run in front of the history; a nil run leaves it alone. */
    method AddRunToHistory(data: Option<RunData>)
      modifies this`runs
      ensures View() == AddRun(old(View()), data)
      ensures View() == old(View()).(runs := if data.Some? then [data.value] + old(runs) else old(runs))
      ensures data.Some? && old(GoodHistory(View())) ==>
                (GoodHistory(View()) <==>
                  data.value.id <= runCounter && (old(runs) != [] ==> data.value.id > old(runs)[0].id))
    {
      if data.None? {
        return;
      }
      if GoodHistory(View()) {
        AddRunExact(View(), data.value);
      }
      runs := [data.value] + runs;
    }

    /** Runner.Up counts the run before it starts the action. */
    method CountRun()
      modifies this`runCounter
      ensures View() == old(View()).(runCounter := old(runCounter) + 1)
      ensures old(GoodHistory(View())) ==> GoodHistory(View())
    {
      runCounter := runCounter + 1;
    }

    /** The end of a watcher: the answer of the run, or Waiting again for a recurring task. */
    method Finish(status: Status, now: int, next: Option<int>)
      requires next.Some? ==> next.value > now
      modifies this`start, this`status
      ensures View() == Finished(old(View()), status, now, next)
      ensures EndedAs(old(View()), View(), status, now, next) && mtime == old(mtime)
    {
      this.status := status;
      if every > 0 || cron != "" {
        this.status := Waiting;
        PrepareReschedule(now, next);
      }
    }
  }
}
