/** Progress of a system of tasks that do not recur. */
module EngineProgress {
  import opened Wrappers
  import opened Tasks
  import opened Engine
  import opened EngineHolds
  import opened EngineRuns
  import opened EngineWake
  import opened EngineTheorems
  import opened Sets

  ghost predicate NoRecurrence(s: State) {
    forall id :: id in s.issued ==> !Recurring(s.issued[id])
  }

  /** The task the loop is about to run, up to the Put of execTask. */
  function InHand(s: State): set<Id> {
    match s.loop
    case Chosen(t) => {t.id}
    case Launching(j) => if j < |s.jobs| then {s.jobs[j].task.id} else {}
    case Aborting(j) => if j < |s.jobs| then {s.jobs[j].task.id} else {}
    case _ => {}
  }

  function WaitingIds(s: State): set<Id> {
    set id | id in s.store && s.store[id].status.Waiting?
  }

  function LiveJobs(s: State): set<nat> {
    set j: nat | j < |s.jobs| && s.jobs[j].phase.Live?
  }

  /** Twice the tasks still to run, plus the live runs. */
  function Toll(s: State): nat {
    2 * |WaitingIds(s) + InHand(s)| + |LiveJobs(s)|
  }

  /** What a step takes off the toll. */
  function Work(step: Step): nat {
    match step
    case OfExec(UpOk(_, _)) => 1
    case OfExec(FailPut) => 2
    case OfWatcher(Finish(_, _, _)) => 1
    case _ => 0
  }

  lemma TollQuiet(s: State, s': State)
    requires SameRecords(s, s') && Records(s)
    ensures Toll(s') <= Toll(s)
  {
    assert InHand(s') <= WaitingIds(s) + InHand(s);
    Subset(WaitingIds(s') + InHand(s'), WaitingIds(s) + InHand(s));
    assert LiveJobs(s') == LiveJobs(s);
  }

  lemma WaitingPut(s: State, t: Task)
    requires Records(s) && !t.status.Waiting?
    ensures WaitingIds(Put(s, t)) == WaitingIds(s) - {t.id}
  {
  }

  lemma SameLiveJobs(s: State, s': State, j: nat)
    requires |s.jobs| == |s'.jobs| && j < |s.jobs|
    requires forall i :: 0 <= i < |s.jobs| && i != j ==> s'.jobs[i] == s.jobs[i]
    ensures LiveJobs(s') - {j} == LiveJobs(s) - {j}
  {
    forall i: nat ensures i in LiveJobs(s') - {j} <==> i in LiveJobs(s) - {j} {
    }
  }

  lemma LiveJobsSet(s: State, s': State, j: nat)
    requires |s.jobs| == |s'.jobs| && j < |s.jobs| && s'.jobs == s.jobs[j := s'.jobs[j]]
    ensures |LiveJobs(s')| - (if s'.jobs[j].phase.Live? then 1 else 0)
            == |LiveJobs(s)| - (if s.jobs[j].phase.Live? then 1 else 0)
  {
    SameLiveJobs(s, s', j);
    Without(LiveJobs(s), j);
    Without(LiveJobs(s'), j);
  }

  /** The task in hand goes, whether it still waits in the store or not. */
  lemma OneTaskLess(s: State, s': State, id: Id)
    requires InHand(s) == {id} && InHand(s') == {} && WaitingIds(s') == WaitingIds(s) - {id}
    ensures |WaitingIds(s') + InHand(s')| + 1 <= |WaitingIds(s) + InHand(s)|
  {
    SubsetLess(WaitingIds(s') + InHand(s'), WaitingIds(s) + InHand(s), id);
  }

  lemma TollUpOk(s: State, run: Part, data: RunData)
    requires Records(s) && LoopJob(s) && ExecEnabled(s, UpOk(run, data))
    ensures Toll(UpSucceeds(s, run, data)) + 1 <= Toll(s)
  {
    var s', j := UpSucceeds(s, run, data), s.loop.job;
    WaitingPut(s, Launched(s.jobs[j].task, s.now, run, data));
    OneTaskLess(s, s', s.jobs[j].task.id);
    LiveJobsSet(s, s', j);
  }

  lemma TollFailPut(s: State)
    requires Records(s) && LoopJob(s) && ExecEnabled(s, FailPut)
    ensures Toll(PutFailed(s)) + 2 <= Toll(s)
  {
    var s', j := PutFailed(s), s.loop.job;
    WaitingPut(s, s.jobs[j].task);
    OneTaskLess(s, s', s.jobs[j].task.id);
    LiveJobsSet(s, s', j);
  }

  lemma TollExec(s: State, step: ExecStep)
    requires Records(s) && LoopJob(s) && ExecEnabled(s, step)
    ensures Toll(ApplyExec(s, step)) + Work(OfExec(step)) <= Toll(s)
  {
    match step
    case Consume =>
      assert InHand(ConsumeFor(s)) == InHand(s) && LiveJobs(ConsumeFor(s)) == LiveJobs(s);
    case UpOk(run, data) => TollUpOk(s, run, data);
    case UpFail(counted, partial) =>
      assert InHand(UpFails(s, counted, partial)) == InHand(s);
      assert LiveJobs(UpFails(s, counted, partial)) == LiveJobs(s);
    case FailPut => TollFailPut(s);
  }

  lemma TollFinish(s: State, j: nat, status: Status, next: Option<int>)
    requires Records(s) && LoopJob(s) && NoRecurrence(s) && WatchEnabled(s, Finish(j, status, next))
    ensures Toll(FinishJob(s, j, status, next)) + 1 <= Toll(s)
  {
    var s' := FinishJob(s, j, status, next);
    assert Admitted(s, s.jobs[j].task);
    WaitingPut(s, Finished(s.jobs[j].task, status, s.now, next));
    assert InHand(s') == InHand(s);
    Subset(WaitingIds(s') + InHand(s'), WaitingIds(s) + InHand(s));
    LiveJobsSet(s, s', j);
  }

  /** Cancel, Delete and Flush never make a task wait. */
  lemma ClientWaits(s: State, step: ClientStep)
    requires Records(s) && ClientEnabled(s, step) && !step.Add?
    ensures WaitingIds(ApplyClient(s, step)) <= WaitingIds(s)
    ensures ApplyClient(s, step).jobs == s.jobs && ApplyClient(s, step).loop == s.loop
  {
  }

  lemma TollClient(s: State, step: ClientStep)
    requires Records(s) && ClientEnabled(s, step) && !step.Add?
    ensures Toll(ApplyClient(s, step)) <= Toll(s)
  {
    var s' := ApplyClient(s, step);
    ClientWaits(s, step);
    Subset(WaitingIds(s') + InHand(s'), WaitingIds(s) + InHand(s));
  }

  /** Without Add, the toll never rises and every launch, failed launch and finish lowers it. */
  lemma TollStep(s: State, step: Step)
    requires Records(s) && Protocol(s) && NoRecurrence(s) && Enabled(s, step) && !(step.OfClient? && step.client.Add?)
    ensures Toll(Apply(s, step)) + Work(step) <= Toll(s)
  {
    if Quiet(step) {
      QuietFrame(s, step);
      TollQuiet(s, Apply(s, step));
    } else {
      match step
      case OfExec(x) => TollExec(s, x);
      case OfWatcher(x) => TollFinish(s, x.j, x.status, x.next);
      case OfClient(x) => TollClient(s, x);
    }
  }

  lemma IssuedKept(s: State, step: Step)
    requires Enabled(s, step) && Protocol(s) && !(step.OfClient? && step.client.Add?)
    ensures Apply(s, step).issued == s.issued
  {
    if Quiet(step) { QuietFrame(s, step); }
  }

  function TotalWork(steps: seq<Step>): nat {
    if steps == [] then 0 else Work(steps[0]) + TotalWork(steps[1..])
  }

  /** The launches and finishes of any run without Add are bounded by the toll it starts from. */
  lemma {:induction false} WorkIsBounded(s: State, steps: seq<Step>)
    requires Inv(s) && NoRecurrence(s) && ValidRun(s, steps)
    requires forall i :: 0 <= i < |steps| ==> !(steps[i].OfClient? && steps[i].client.Add?)
    ensures Toll(Exec(s, steps)) + TotalWork(steps) <= Toll(s)
    decreases |steps|
  {
    if steps != [] {
      InvStep(s, steps[0]);
      TollStep(s, steps[0]);
      IssuedKept(s, steps[0]);
      WorkIsBounded(Apply(s, steps[0]), steps[1..]);
    }
  }

  lemma InHandWaitsExec(s: State, step: ExecStep)
    requires Records(s) && LoopJob(s) && ExecEnabled(s, step) && InHand(s) <= WaitingIds(s)
    ensures InHand(ApplyExec(s, step)) <= WaitingIds(ApplyExec(s, step))
  {
    assert step.Consume? || step.UpFail? ==> InHand(ApplyExec(s, step)) == InHand(s);
  }

  lemma InHandWaitsFinish(s: State, j: nat, status: Status, next: Option<int>)
    requires Records(s) && LoopJob(s) && OneRun(s) && WatchEnabled(s, Finish(j, status, next))
    requires InHand(s) <= WaitingIds(s)
    ensures InHand(FinishJob(s, j, status, next)) <= WaitingIds(FinishJob(s, j, status, next))
  {
    assert InHand(FinishJob(s, j, status, next)) == InHand(s);
  }

  lemma InHandWaitsClient(s: State, step: ClientStep)
    requires Records(s) && ClientEnabled(s, step) && InHand(s) <= WaitingIds(s) && !step.Delete?
    ensures InHand(ApplyClient(s, step)) <= WaitingIds(ApplyClient(s, step))
  {
    assert InHand(ApplyClient(s, step)) == InHand(s);
  }

  lemma InHandWaitsQuiet(s: State, s': State)
    requires Records(s) && SameRecords(s, s') && InHand(s) <= WaitingIds(s)
    ensures InHand(s') <= WaitingIds(s')
  {
  }

  /** As long as nothing is deleted, what the loop has in hand still waits in the store... */
  lemma InHandWaits(s: State, step: Step)
    requires Records(s) && Protocol(s) && OneRun(s) && Enabled(s, step)
    requires InHand(s) <= WaitingIds(s) && !(step.OfClient? && step.client.Delete?)
    ensures InHand(Apply(s, step)) <= WaitingIds(Apply(s, step))
  {
    if Quiet(step) {
      QuietFrame(s, step);
      InHandWaitsQuiet(s, Apply(s, step));
    } else {
      match step
      case OfExec(x) => InHandWaitsExec(s, x);
      case OfWatcher(x) => InHandWaitsFinish(s, x.j, x.status, x.next);
      case OfClient(x) => InHandWaitsClient(s, x);
    }
  }

  /** ...so that the toll is twice the waiting tasks plus the live runs. */
  lemma {:induction false} TollWithoutDelete(s: State, steps: seq<Step>)
    requires Inv(s) && InHand(s) <= WaitingIds(s) && ValidRun(s, steps)
    requires forall i :: 0 <= i < |steps| ==> !(steps[i].OfClient? && steps[i].client.Delete?)
    ensures Toll(Exec(s, steps)) == 2 * |WaitingIds(Exec(s, steps))| + |LiveJobs(Exec(s, steps))|
    decreases |steps|
  {
    if steps == [] {
      assert WaitingIds(s) + InHand(s) == WaitingIds(s);
    } else {
      InvStep(s, steps[0]);
      InHandWaits(s, steps[0]);
      TollWithoutDelete(Apply(s, steps[0]), steps[1..]);
    }
  }

  /** A state where nothing is under way and nothing is to come has no waiting task. */
  lemma QuiescentIsDone(s: State)
    requires Reachable(s) && s.loop.Idle? && s.todo.tokens == 0 && s.timers == multiset{} && !PingOwed(s)
    ensures WaitingIds(s) == {}
  {
    ReachableInv(s);
    forall id | id in s.store ensures !s.store[id].status.Waiting? {
      assert s.store[id].status.Waiting? ==> Covered(s, s.store[id].start);
    }
  }
}
