/** Cancel in its two steps: the read of the record (scheduler/scheduler.go:366) and its write (392), with anything
    in between. */
module EngineCancel {
  import opened Wrappers
  import opened Tasks
  import opened Engine
  import opened EngineHolds
  import opened EngineRuns
  import opened EngineTheorems
  import opened EngineWhole
  import opened EngineLate
  import opened EngineFinal

  /** The write of a Cancel that has read this record. */
  function WriteCancel(s: State, read: Task): State {
    if read.status.Canceled? then s
    else Put(s, if read.status.Running? then read.(status := Canceled) else read)
  }

  /** execTask stores the answer of Up for this task: a launch or a failed one. */
  predicate Answers(s: State, step: Step, id: Id) {
    && step.OfExec? && (step.exec.UpOk? || step.exec.FailPut?)
    && (s.loop.Launching? || s.loop.Aborting?) && s.loop.job < |s.jobs| && s.jobs[s.loop.job].task.id == id
  }

  ghost predicate LaunchFell(s: State, steps: seq<Step>, id: Id)
    requires ValidRun(s, steps)
    decreases |steps|
  {
    steps != [] && (Answers(s, steps[0], id) || LaunchFell(Apply(s, steps[0]), steps[1..], id))
  }

  /** In execTask, before its answer is stored. */
  predicate InAnswer(phase: JobPhase) {
    phase.Starting? || phase.Failing?
  }

  /** Some job of the task is past its answer. */
  ghost predicate Answered(s: State, id: Id) {
    exists j :: 0 <= j < |s.jobs| && s.jobs[j].task.id == id && !InAnswer(s.jobs[j].phase)
  }

  ghost predicate LiveIn(s: State, id: Id) {
    exists j :: 0 <= j < |s.jobs| && s.jobs[j].task.id == id && s.jobs[j].phase.Live?
  }

  /** Only the jobs from `from` on are new or have changed phase. */
  lemma AnsweredSame(s: State, s': State, id: Id)
    requires |s'.jobs| == |s.jobs|
    requires forall j :: 0 <= j < |s.jobs| ==>
               && s'.jobs[j].task.id == s.jobs[j].task.id
               && (InAnswer(s'.jobs[j].phase) <==> InAnswer(s.jobs[j].phase))
    ensures Answered(s', id) <==> Answered(s, id)
  {
    if Answered(s, id) {
      var j :| 0 <= j < |s.jobs| && s.jobs[j].task.id == id && !InAnswer(s.jobs[j].phase);
      assert s'.jobs[j].task.id == id;
    }
  }

  lemma AnsweredExec(s: State, step: ExecStep, id: Id)
    requires LoopJob(s) && ExecEnabled(s, step)
    ensures Answered(ApplyExec(s, step), id) <==> Answered(s, id) || Answers(s, OfExec(step), id)
  {
    var s' := ApplyExec(s, step);
    if step.Consume? {
      if Answered(s, id) {
        var j :| 0 <= j < |s.jobs| && s.jobs[j].task.id == id && !InAnswer(s.jobs[j].phase);
        assert s'.jobs[j] == s.jobs[j];
      }
    } else if step.UpFail? {
      AnsweredSame(s, s', id);
    } else {
      var k := s.loop.job;
      assert !InAnswer(s'.jobs[k].phase) && s'.jobs[k].task.id == s.jobs[k].task.id;
      if Answered(s, id) {
        var j :| 0 <= j < |s.jobs| && s.jobs[j].task.id == id && !InAnswer(s.jobs[j].phase);
        assert j != k && s'.jobs[j] == s.jobs[j];
      }
    }
  }

  lemma AnsweredQuiet(s: State, s': State, id: Id)
    requires SameRecords(s, s')
    ensures Answered(s', id) <==> Answered(s, id)
  {
    AnsweredSame(s, s', id);
  }

  lemma AnsweredFinish(s: State, j: nat, status: Status, next: Option<int>, id: Id)
    requires WatchEnabled(s, Finish(j, status, next))
    ensures Answered(FinishJob(s, j, status, next), id) <==> Answered(s, id)
  {
    AnsweredSame(s, FinishJob(s, j, status, next), id);
  }

  lemma AnsweredClient(s: State, step: ClientStep, id: Id)
    ensures Answered(ApplyClient(s, step), id) <==> Answered(s, id)
  {
    AnsweredSame(s, ApplyClient(s, step), id);
  }

  lemma AnsweredStep(s: State, step: Step, id: Id)
    requires Protocol(s) && Enabled(s, step)
    ensures Answered(Apply(s, step), id) <==> Answered(s, id) || Answers(s, step, id)
  {
    if Quiet(step) {
      QuietFrame(s, step);
      AnsweredQuiet(s, Apply(s, step), id);
    } else {
      match step
      case OfExec(x) => AnsweredExec(s, x, id);
      case OfWatcher(x) => AnsweredFinish(s, x.j, x.status, x.next, id);
      case OfClient(x) => AnsweredClient(s, x, id);
    }
  }

  lemma {:induction false} AnsweredRun(s: State, steps: seq<Step>, id: Id)
    requires Protocol(s) && ValidRun(s, steps)
    ensures Answered(Exec(s, steps), id) <==> Answered(s, id) || LaunchFell(s, steps, id)
    decreases |steps|
  {
    if steps != [] {
      AnsweredStep(s, steps[0], id);
      ProtocolStep(s, steps[0]);
      AnsweredRun(Apply(s, steps[0]), steps[1..], id);
    }
  }

  lemma SpecStep(s: State, step: Step, id: Id)
    requires Protocol(s) && Enabled(s, step) && id in s.issued
    ensures id in Apply(s, step).issued && Apply(s, step).issued[id] == s.issued[id]
  {
    if Quiet(step) {
      QuietFrame(s, step);
    }
  }

  lemma {:induction false} SpecRun(s: State, steps: seq<Step>, id: Id)
    requires Protocol(s) && ValidRun(s, steps) && id in s.issued
    ensures id in Exec(s, steps).issued && Exec(s, steps).issued[id] == s.issued[id]
    decreases |steps|
  {
    if steps != [] {
      SpecStep(s, steps[0], id);
      ProtocolStep(s, steps[0]);
      SpecRun(Apply(s, steps[0]), steps[1..], id);
    }
  }

  /** A record that does not wait never breaks the one-run invariant; one that waits keeps it exactly when no
      job of its task is live, and, without recurrence, none is past its answer. */
  lemma WrittenOver(s: State, t: Task, spec: Spec)
    requires OneRun(s) && t.id in s.issued && s.issued[t.id] == spec
    ensures OneRun(Put(s, t)) <==>
              !t.status.Waiting? || (if Recurring(spec) then !LiveIn(s, t.id) else !Answered(s, t.id))
  {
    var s' := Put(s, t);
    assert BusyApart(s') && (s'.loop.Chosen? ==> Startable(s', s'.loop.task.id));
    if t.status.Waiting? {
      assert s'.store[t.id].status.Waiting?;
    }
  }

  /** The two-step Cancel, from any reachable state over any run in between. It keeps the one-run invariant if and
      only if the record it read did not wait, or no launch of the task fell between the two steps; for a
      recurring task it is enough that no launch of it is still running. */
  lemma TwoStepCancel(s: State, steps: seq<Step>, id: Id)
    requires Reachable(s) && id in s.store && ValidRun(s, steps)
    ensures id in s.issued
    ensures var t, read := Exec(s, steps), s.store[id];
            OneRun(WriteCancel(t, read)) <==>
              || !read.status.Waiting?
              || (if Recurring(s.issued[id]) then !LiveIn(t, id) else !LaunchFell(s, steps, id))
  {
    ReachableInv(s);
    InvRun(s, steps);
    assert Admitted(s, s.store[id]);
    var t, read := Exec(s, steps), s.store[id];
    SpecRun(s, steps, id);
    AnsweredRun(s, steps, id);
    if !read.status.Canceled? {
      WrittenOver(t, if read.status.Running? then read.(status := Canceled) else read, s.issued[id]);
    }
    if read.status.Waiting? && !Recurring(s.issued[id]) {
      NothingAnswered(s, id);
    }
  }

  lemma NothingAnswered(s: State, id: Id)
    requires OneRun(s) && id in s.store && s.store[id].status.Waiting? && id in s.issued && !Recurring(s.issued[id])
    ensures !Answered(s, id)
  {
  }

  // ----- It happens

  /** The loop has chosen the only task. */
  lemma ReachChosen(t: Task, id: Id) returns (s: State)
    requires t.id == NIL_ID && id != NIL_ID && t.cpu == 1 && t.ram == 1 && t.maxExec > 0 && t.start < 0
    ensures Leads(Init(1, 1, 0), s)
    ensures s.loop == Chosen(Sole(t, id, 0)) && s.store == map[id := Sole(t, id, 0)]
  {
    var s0 := Init(1, 1, 0);
    AddRuns(s0, t, id);
    AddSummary(s0, t, id);
    var s1 := WholeAdd(s0, t, id);
    LeadsOne(s1, OfLoop(Receive));
    var s2 := ApplyLoop(s1, Receive);
    LeadsTrans(s0, s1, s2);
    DoneRuns(s2);
    var s3 := WholeDone(s2);
    LeadsTrans(s0, s2, s3);
    assert Due(s3, id);
    WalkRuns(s3, Some(id));
    s := TakeReady(s3, Some(id));
    LeadsTrans(s0, s3, s);
  }

  /** The launch of the chosen task, step by step. */
  lemma LaunchChosen(s: State) returns (steps: seq<Step>)
    requires s.loop.Chosen?
    ensures ValidRun(s, steps) && LiveIn(Exec(s, steps), s.loop.task.id)
  {
    RunOfTwo(s, OfExec(Consume), SOME_UP);
    steps := [OfExec(Consume), SOME_UP];
    var t := Exec(s, steps);
    assert t.jobs[|s.jobs|].phase.Live? && t.jobs[|s.jobs|].task.id == s.loop.task.id;
  }

  /** A waiting record that is put beside a live run breaks the invariant. */
  lemma WaitingBesideLive(s: State, t: Task)
    requires t.status.Waiting? && LiveIn(s, t.id)
    ensures !OneRun(Put(s, t))
  {
    var j :| 0 <= j < |s.jobs| && s.jobs[j].task.id == t.id && s.jobs[j].phase.Live?;
    var s' := Put(s, t);
    assert s'.store[s'.jobs[j].task.id].status.Waiting?;
  }

  /** Cancel reads a waiting task that the loop has chosen, the launch falls in between, and the write puts a
      waiting record beside the live run, for any task that is due. */
  lemma CancelOverwritesLaunch(t: Task, id: Id) returns (s: State, steps: seq<Step>)
    requires t.id == NIL_ID && id != NIL_ID && t.cpu == 1 && t.ram == 1 && t.maxExec > 0 && t.start < 0
    ensures Reachable(s) && id in s.store && s.store[id].status.Waiting? && ValidRun(s, steps)
    ensures LiveIn(Exec(s, steps), id) && !OneRun(WriteCancel(Exec(s, steps), s.store[id]))
  {
    s := ReachChosen(t, id);
    ReachableFrom(1, 1, 0, s);
    steps := LaunchChosen(s);
    WaitingBesideLive(Exec(s, steps), s.store[id]);
  }
}
