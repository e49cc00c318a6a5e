/** Admission, the wake-up protocol and the books of the resources: what every step keeps. */
module EngineHolds {
  import opened Wrappers
  import opened Tasks
  import opened Pools
  import opened Engine
  import W = Wakeups

  // ----- Steps that leave every record alone

  predicate AfterFinish(phase: JobPhase) {
    phase.MustPing? || phase.InPing? || phase.MustClean? || phase.Gone?
  }

  /** What a chosen task is: the one chosen before, or a due task of the store. */
  ghost predicate Choice(s: State, s': State) {
    s'.loop.Chosen? ==> s'.loop == s.loop || (exists id :: Due(s, id) && s'.loop.task == s.store[id])
  }

  /** Same store, same records in the same jobs; a watcher may have moved on after its final Put. */
  ghost predicate SameRecords(s: State, s': State) {
    && s'.store == s.store && s'.issued == s.issued
    && s'.pool.totalCpu == s.pool.totalCpu && s'.pool.totalRam == s.pool.totalRam
    && |s'.jobs| == |s.jobs|
    && (forall j :: 0 <= j < |s.jobs| ==> s'.jobs[j].task == s.jobs[j].task && s'.jobs[j].at == s.jobs[j].at)
    && (forall j :: 0 <= j < |s.jobs| ==>
          s'.jobs[j].phase == s.jobs[j].phase
          || (AfterFinish(s'.jobs[j].phase) && AfterFinish(s.jobs[j].phase)))
    && s'.now >= s.now
    && (s'.loop.Launching? <==> s.loop.Launching?) && (s'.loop.Aborting? <==> s.loop.Aborting?)
    && (s'.loop.Launching? || s'.loop.Aborting? ==> s'.loop == s.loop)
    && Choice(s, s')
  }

  lemma ClockFrame(s: State, step: ClockStep)
    requires ClockEnabled(s, step)
    ensures SameRecords(s, ApplyClock(s, step))
  {
  }

  lemma LoopFrame(s: State, step: LoopStep)
    requires LoopEnabled(s, step) && WalkClock(s)
    ensures SameRecords(s, ApplyLoop(s, step)) && ApplyLoop(s, step).pool == s.pool
    ensures ApplyLoop(s, step).jobs == s.jobs
  {
  }

  lemma AdvanceFrame(s: State, who: W.Who, inside: bool)
    requires who.Watcher? ==> who.j < |s.jobs| && (s.jobs[who.j].phase.MustPing? || s.jobs[who.j].phase.InPing?)
    requires who.Loop? ==> s.loop.OwesPing? || s.loop.Pinging?
    ensures SameRecords(s, Advance(s, who, inside))
  {
  }

  lemma WakeFrame(s: State, step: WakeStep)
    requires WakeEnabled(s, step) && Protocol(s)
    ensures SameRecords(s, ApplyWake(s, step)) && ApplyWake(s, step).pool == s.pool
  {
    match step
    case PingLock(who) =>
      AdvanceFrame(if who.Someone? then s.(owed := s.owed - 1) else s, who, !s.todo.newMsg);
    case PingSend =>
    case PingFlag =>
      assert Inside(s.todo, s.todo.holder.who);
      AdvanceFrame(s, s.todo.holder.who, false);
  }

  lemma CleanupFrame(s: State, step: WatchStep)
    requires WatchEnabled(s, step) && !step.Finish?
    ensures SameRecords(s, ApplyWatch(s, step))
  {
  }

  predicate Quiet(step: Step) {
    step.OfClock? || step.OfWake? || step.OfLoop? || (step.OfWatcher? && !step.watch.Finish?)
  }

  lemma QuietFrame(s: State, step: Step)
    requires Quiet(step) && Enabled(s, step) && Protocol(s)
    ensures SameRecords(s, Apply(s, step))
  {
    match step
    case OfClock(x) => ClockFrame(s, x);
    case OfWake(x) => WakeFrame(s, x);
    case OfLoop(x) => LoopFrame(s, x);
    case OfWatcher(x) => CleanupFrame(s, x);
  }

  // ----- Admission

  predicate SpecOk(p: Pool, c: Spec) {
    0 < c.cpu <= p.totalCpu && 0 < c.ram <= p.totalRam && c.maxExec > 0
  }

  predicate Admitted(s: State, t: Task) {
    t.id in s.issued && SpecOf(t) == s.issued[t.id]
  }

  /** Every record anywhere in the system went through Add and still has the specification it had then. */
  ghost predicate Records(s: State) {
    && (forall id :: id in s.issued ==> id != NIL_ID && SpecOk(s.pool, s.issued[id]))
    && (forall id :: id in s.store ==> s.store[id].id == id && Admitted(s, s.store[id]))
    && (forall j :: 0 <= j < |s.jobs| ==> Admitted(s, s.jobs[j].task))
    && (s.loop.Chosen? ==> Admitted(s, s.loop.task) && s.loop.task.status.Waiting?)
    && (s.loop.Aborting? ==> s.loop.job < |s.jobs| && s.jobs[s.loop.job].task.status.Error?)
  }

  lemma PutRecords(s: State, t: Task)
    requires Records(s) && Admitted(s, t)
    ensures Records(Put(s, t))
  {
  }

  lemma RecordsExec(s: State, step: ExecStep)
    requires Records(s) && ExecEnabled(s, step)
    ensures Records(ApplyExec(s, step))
  {
    match step
    case Consume =>
    case UpOk(run, data) => PutRecords(s, Launched(s.jobs[s.loop.job].task, s.now, run, data));
    case UpFail(_, _) =>
    case FailPut => PutRecords(s, s.jobs[s.loop.job].task);
  }

  lemma RecordsClient(s: State, step: ClientStep)
    requires Records(s) && ClientEnabled(s, step)
    ensures Records(ApplyClient(s, step))
  {
    match step
    case Add(_, _) =>
    case Cancel(id) => if id in s.store { PutRecords(s, s.store[id]); }
    case Delete(_) =>
    case Flush(_) =>
  }

  lemma RecordsStep(s: State, step: Step)
    requires Records(s) && Protocol(s) && Enabled(s, step)
    ensures Records(Apply(s, step))
  {
    if Quiet(step) {
      QuietFrame(s, step);
    } else {
      match step
      case OfExec(x) => RecordsExec(s, x);
      case OfWatcher(x) => PutRecords(s, Finished(s.jobs[x.j].task, x.status, s.now, x.next));
      case OfClient(x) => RecordsClient(s, x);
    }
  }

  // ----- The wake-up protocol

  predicate Inside(todo: W.Todo, who: W.Who) {
    todo.holder == W.Sending(who) || todo.holder == W.Flagging(who)
  }

  /** Token, flag and mutex. */
  predicate Slot(todo: W.Todo, received: bool) {
    && todo.tokens <= W.CAPACITY
    && (received ==> todo.tokens == 0)
    && match todo.holder
       case Free => todo.newMsg <==> todo.tokens > 0 || received
       case Sending(_) => !todo.newMsg && todo.tokens == 0 && !received
       case Flagging(_) => !todo.newMsg && (todo.tokens > 0 <==> !received)
       case Flushing(saw) => !todo.newMsg && !received && (saw <==> todo.tokens > 0)
  }

  /** The loop's program counter and the job it works on. */
  ghost predicate LoopJob(s: State) {
    && (s.loop.Launching? ==> s.loop.job < |s.jobs|)
    && (s.loop.Aborting? ==> s.loop.job < |s.jobs|)
    && (forall j :: 0 <= j < |s.jobs| ==> (s.jobs[j].phase.Starting? <==> s.loop == Launching(j)))
    && (forall j :: 0 <= j < |s.jobs| ==> (s.jobs[j].phase.Failing? <==> s.loop == Aborting(j)))
  }

  /** The slot, and which goroutine is inside the mutex. */
  ghost predicate Protocol(s: State) {
    && Slot(s.todo, s.loop.Received?)
    && (s.loop.InDone? <==> s.todo.holder.Flushing?)
    && (s.loop.Pinging? <==> Inside(s.todo, W.Loop))
    && (forall j: nat :: Inside(s.todo, W.Watcher(j)) ==> j < |s.jobs|)
    && (forall j :: 0 <= j < |s.jobs| ==> (s.jobs[j].phase.InPing? <==> Inside(s.todo, W.Watcher(j))))
    && LoopJob(s)
    && WalkClock(s)
  }

  /** The time that a walk of readyToGo has read is past. */
  predicate WalkClock(s: State) {
    s.loop.Walking? ==> s.loop.at <= s.now
  }

  lemma ProtocolLock(s: State, who: W.Who)
    requires Protocol(s) && s.todo.holder.Free? && CanPing(s, who)
    ensures Protocol(LockPing(s, who))
  {
  }

  lemma ProtocolFlag(s: State)
    requires Protocol(s) && WakeEnabled(s, PingFlag)
    ensures Protocol(FlagPing(s))
  {
    assert Inside(s.todo, s.todo.holder.who);
  }

  lemma ProtocolWake(s: State, step: WakeStep)
    requires Protocol(s) && WakeEnabled(s, step)
    ensures Protocol(ApplyWake(s, step))
  {
    match step
    case PingLock(who) => ProtocolLock(s, who);
    case PingSend =>
    case PingFlag => ProtocolFlag(s);
  }

  lemma ProtocolLoop(s: State, step: LoopStep)
    requires Protocol(s) && LoopEnabled(s, step)
    ensures Protocol(ApplyLoop(s, step))
  {
  }

  lemma ProtocolExec(s: State, step: ExecStep)
    requires Protocol(s) && ExecEnabled(s, step)
    ensures Protocol(ApplyExec(s, step))
  {
  }

  lemma ProtocolWatch(s: State, step: WatchStep)
    requires Protocol(s) && WatchEnabled(s, step)
    ensures Protocol(ApplyWatch(s, step))
  {
  }

  lemma ProtocolElsewhere(s: State, s': State)
    requires Protocol(s) && s'.todo == s.todo && s'.loop == s.loop && s'.jobs == s.jobs && s'.now >= s.now
    ensures Protocol(s')
  {
  }

  lemma ProtocolStep(s: State, step: Step)
    requires Protocol(s) && Enabled(s, step)
    ensures Protocol(Apply(s, step))
  {
    match step
    case OfClock(x) => ProtocolElsewhere(s, ApplyClock(s, x));
    case OfWake(x) => ProtocolWake(s, x);
    case OfLoop(x) => ProtocolLoop(s, x);
    case OfExec(x) => ProtocolExec(s, x);
    case OfWatcher(x) => ProtocolWatch(s, x);
    case OfClient(x) => ProtocolElsewhere(s, ApplyClient(s, x));
  }

  // ----- The books

  predicate Holding(phase: JobPhase) {
    phase.Starting? || phase.Live? || phase.MustPing? || phase.InPing? || phase.MustClean?
  }

  /** Conservation, one hold per job with the job's demands, and a hold stays uncancelled exactly
      as long as its job needs it. */
  ghost predicate Books(s: State) {
    && Conserved(s.pool)
    && |s.pool.holds| == |s.jobs|
    && (forall j :: 0 <= j < |s.jobs| ==>
          && s.pool.holds[j].cpu == s.jobs[j].task.cpu
          && s.pool.holds[j].ram == s.jobs[j].task.ram
          && (s.pool.holds[j].phase.Active? <==> Holding(s.jobs[j].phase)))
  }

  lemma BooksConsume(s: State)
    requires Books(s) && s.loop.Chosen?
    ensures Books(ConsumeFor(s))
  {
    ConsumeConserves(s.pool, s.loop.task.cpu, s.loop.task.ram);
  }

  lemma BooksUpFail(s: State, counted: bool, partial: Option<RunData>)
    requires Books(s) && Protocol(s) && ExecEnabled(s, UpFail(counted, partial))
    ensures Books(UpFails(s, counted, partial))
  {
    CancelConserves(s.pool, s.loop.job);
  }

  lemma BooksExec(s: State, step: ExecStep)
    requires Books(s) && Protocol(s) && ExecEnabled(s, step)
    ensures Books(ApplyExec(s, step))
  {
    match step
    case Consume => BooksConsume(s);
    case UpOk(_, _) =>
    case UpFail(counted, partial) => BooksUpFail(s, counted, partial);
    case FailPut =>
  }

  lemma BooksWatch(s: State, step: WatchStep)
    requires Books(s) && Protocol(s) && WatchEnabled(s, step)
    ensures Books(ApplyWatch(s, step))
  {
    OperationsConserve(s.pool, 0, 0, step.j);
  }

  lemma BooksSame(s: State, s': State)
    requires Books(s) && s'.pool == s.pool && |s'.jobs| == |s.jobs|
    requires forall j :: 0 <= j < |s.jobs| ==>
               && s'.jobs[j].task == s.jobs[j].task
               && (s'.jobs[j].phase == s.jobs[j].phase || (Holding(s'.jobs[j].phase) && Holding(s.jobs[j].phase)))
    ensures Books(s')
  {
  }

  lemma BooksStep(s: State, step: Step)
    requires Books(s) && Protocol(s) && Enabled(s, step)
    ensures Books(Apply(s, step))
  {
    match step
    case OfClock(x) => BooksSame(s, ApplyClock(s, x));
    case OfWake(x) => WakeFrame(s, x); BooksSame(s, ApplyWake(s, x));
    case OfLoop(x) => LoopFrame(s, x); BooksSame(s, ApplyLoop(s, x));
    case OfExec(x) => BooksExec(s, x);
    case OfWatcher(x) => BooksWatch(s, x);
    case OfClient(x) => BooksSame(s, ApplyClient(s, x));
  }

  /** Nothing is over-committed, what the loop has chosen still fits, and during a walk of readyToGo the free
      amounts only grow. */
  predicate Fits(s: State) {
    && s.pool.cpu >= 0 && s.pool.ram >= 0
    && (s.loop.Chosen? ==> Doable(s.pool, s.loop.task.cpu, s.loop.task.ram))
    && (s.loop.Walking? ==> s.loop.cpu <= s.pool.cpu && s.loop.ram <= s.pool.ram)
  }

  lemma FitsWatch(s: State, step: WatchStep)
    requires Fits(s) && Records(s) && Books(s) && WatchEnabled(s, step)
    ensures Fits(ApplyWatch(s, step))
  {
    assert step.j < |s.jobs| && Admitted(s, s.jobs[step.j].task);
  }

  lemma FitsExec(s: State, step: ExecStep)
    requires Fits(s) && Books(s) && ExecEnabled(s, step)
    ensures Fits(ApplyExec(s, step))
  {
  }

  lemma FitsStep(s: State, step: Step)
    requires Fits(s) && Records(s) && Books(s) && Protocol(s) && Enabled(s, step)
    ensures Fits(Apply(s, step))
  {
    match step
    case OfClock(_) =>
    case OfWake(x) => WakeFrame(s, x);
    case OfLoop(x) => LoopFrame(s, x);
    case OfExec(x) => FitsExec(s, x);
    case OfWatcher(x) => FitsWatch(s, x);
    case OfClient(_) =>
  }
}
