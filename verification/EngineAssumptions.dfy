/** What the two contracts of the machine are for: a run that answers Waiting, and a Cancel that is not atomic. */
module EngineAssumptions {
  import opened Wrappers
  import opened Tasks
  import opened Engine
  import opened EngineHolds
  import opened EngineRuns

  /** The answer a watcher gets decides: written over a task that does not recur, it keeps the one-run
      invariant exactly when it is not Waiting. */
  lemma OneRunNeedsAnswer(s: State, j: nat, status: Status)
    requires Records(s) && OneRun(s) && LoopJob(s) && j < |s.jobs| && s.jobs[j].phase.Live?
    requires !HasCron(s.jobs[j].task)
    ensures OneRun(FinishJob(s, j, status, None)) <==> !status.Waiting?
  {
    var s' := FinishJob(s, j, status, None);
    assert Admitted(s, s.jobs[j].task);
    if status.Waiting? {
      assert s'.jobs[j].task.id in s'.store && s'.store[s'.jobs[j].task.id].status.Waiting?;
      assert s'.issued[s'.jobs[j].task.id] == s.issued[s.jobs[j].task.id];
    }
  }

  /** How the wait of a docker run ends (compose/run.go:129-150). */
  datatype Ended = DeadlineExceeded | ContextCanceled | ContainerStopped | WaitFailed

  /** What the inspection of the container says. */
  datatype Inspected = Inspected(state: string, exitCode: int)

  /** DockerRun.Wait: the zero status is Waiting, and only a container that exited with 0 overrides it. */
  function DockerWait(clientOk: bool, ended: Ended, killed: bool, inspected: Option<Inspected>): Status {
    if !clientOk then Error
    else
      var status :=
        match ended
        case DeadlineExceeded => Timeout
        case ContextCanceled => Canceled
        case ContainerStopped => Waiting
        case WaitFailed => Error;
      if !status.Waiting? && !killed then Error
      else if inspected.None? then Error
      else if inspected.value.state == "exited" && inspected.value.exitCode == 0 then Done
      else status
  }

  /** The contract of Run.Wait is broken exactly by a container that stops by itself without exiting with 0. */
  lemma DockerWaitTerminal(clientOk: bool, ended: Ended, killed: bool, inspected: Option<Inspected>)
    ensures Terminal(DockerWait(clientOk, ended, killed, inspected)) <==>
              !(clientOk && ended.ContainerStopped? && inspected.Some? && inspected.value.state != "exited")
              && !(clientOk && ended.ContainerStopped? && inspected.Some? && inspected.value.exitCode != 0)
  {
  }

  /** Each answer, exactly: how the wait ended decides, unless the kill or the inspection fails or the container
      is found to have exited with 0. */
  lemma DockerWaitAnswers(ended: Ended, killed: bool, inspected: Option<Inspected>)
    ensures forall e, k, i :: DockerWait(false, e, k, i) == Error
    ensures var r := DockerWait(true, ended, killed, inspected);
            var seen := (ended.ContainerStopped? || killed) && inspected.Some?;
            var good := seen && inspected.value == Inspected("exited", 0);
            && (!seen ==> r == Error)
            && (good ==> r == Done)
            && (seen && !good ==>
                  && (ended.DeadlineExceeded? ==> r == Timeout) && (ended.ContextCanceled? ==> r == Canceled)
                  && (ended.WaitFailed? ==> r == Error) && (ended.ContainerStopped? ==> r == Waiting))
  {
  }

  /** A failing container of a task that does not recur puts its task back to Waiting. */
  lemma FailingContainerBreaksOneRun(s: State, j: nat, code: int)
    requires Records(s) && OneRun(s) && LoopJob(s) && j < |s.jobs| && s.jobs[j].phase.Live?
    requires !HasCron(s.jobs[j].task) && code != 0
    ensures !OneRun(FinishJob(s, j, DockerWait(true, ContainerStopped, true, Some(Inspected("exited", code))), None))
  {
    OneRunNeedsAnswer(s, j, Waiting);
  }
}
