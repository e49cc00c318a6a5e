/** The engine and the publisher together (scheduler/scheduler.go:263-285, pubsub/pubsub.go:54-68): execTask
    publishes under the scheduler's lock before its watcher starts, and a watcher publishes before its Ping. */
module Stalls {
  import opened Tasks
  import E = Engine
  import H = EngineHolds
  import T = EngineTheorems
  import D = Deliveries
  import W = Wakeups

  /** Where a goroutine is with its publication. */
  datatype Talk = Owing | Talking(pub: nat)

  /** `talks`: the watchers that have Put their result and not finished publishing it. `speech`: execTask after a
      launch, with the job it launched. */
  datatype Speech = Silent | Speaking(job: nat, talk: Talk)

  datatype Both = Both(engine: E.State, bus: D.State, talks: map<nat, Talk>, speech: Speech)

  datatype Step =
    | OfEngine(step: E.Step)
    | OfBus(move: D.Step)                  // subscribers, consumers, and every send and return
    | Talks(j: nat, event: D.Event)        // a watcher enters Publish
    | TalkEnds(j: nat)
    | Speaks(event: D.Event)               // execTask enters Publish
    | SpeechEnds

  /** The publishers: execTask is 0, the watcher of job j is j + 1, clients come after that by their own numbers. */
  const LOOP: nat := 0

  function WatcherOf(j: nat): nat {
    j + 1
  }

  /** The Ping of a watcher and the one after execTask wait for the publication, and a watcher starts after it. */
  ghost predicate MayStep(b: Both, step: E.Step) {
    match step
    case OfWake(PingLock(Watcher(j))) => j !in b.talks
    case OfWake(PingLock(Loop)) => b.speech.Silent?
    case OfWatcher(Finish(j, _, _)) => !(b.speech.Speaking? && b.speech.job == j)
    case _ => true
  }

  predicate Over(b: Both, talk: Talk) {
    talk.Talking? && talk.pub < |b.bus.pubs| && b.bus.pubs[talk.pub].returned
  }

  ghost predicate Enabled(b: Both, step: Step) {
    match step
    case OfEngine(x) => E.Enabled(b.engine, x) && MayStep(b, x)
    case OfBus(m) => D.Enabled(b.bus, m)
    case Talks(j, event) =>
      j in b.talks && b.talks[j].Owing? && D.Enabled(b.bus, D.PublishEnter(WatcherOf(j), event))
    case TalkEnds(j) => j in b.talks && Over(b, b.talks[j])
    case Speaks(event) =>
      b.speech.Speaking? && b.speech.talk.Owing? && D.Enabled(b.bus, D.PublishEnter(LOOP, event))
    case SpeechEnds => b.speech.Speaking? && Over(b, b.speech.talk)
  }

  /** Who owes a publication after a step of the engine. */
  ghost function Owed(b: Both, step: E.Step): Both
    requires E.Enabled(b.engine, step)
  {
    var b' := b.(engine := E.Apply(b.engine, step));
    match step
    case OfWatcher(Finish(j, _, _)) => b'.(talks := b.talks[j := Owing])
    case OfExec(UpOk(_, _)) => b'.(speech := Speaking(b.engine.loop.job, Owing))
    case _ => b'
  }

  ghost function Apply(b: Both, step: Step): Both
    requires Enabled(b, step)
  {
    match step
    case OfEngine(x) => Owed(b, x)
    case OfBus(m) => b.(bus := D.Apply(b.bus, m))
    case Talks(j, event) =>
      b.(bus := D.Apply(b.bus, D.PublishEnter(WatcherOf(j), event)), talks := b.talks[j := Talking(|b.bus.pubs|)])
    case TalkEnds(j) => b.(talks := b.talks - {j})
    case Speaks(event) =>
      b.(bus := D.Apply(b.bus, D.PublishEnter(LOOP, event)), speech := Speaking(b.speech.job, Talking(|b.bus.pubs|)))
    case SpeechEnds => b.(speech := Silent)
  }

  ghost predicate ValidRun(b: Both, run: seq<Step>)
    decreases |run|
  {
    run == [] || (Enabled(b, run[0]) && ValidRun(Apply(b, run[0]), run[1..]))
  }

  ghost function Exec(b: Both, run: seq<Step>): Both
    requires ValidRun(b, run)
    decreases |run|
  {
    if run == [] then b else Exec(Apply(b, run[0]), run[1..])
  }

  // ----- The two machines keep what they kept

  ghost predicate Inv(b: Both) {
    && T.Inv(b.engine) && D.Inv(b.bus)
    && (b.speech.Speaking? ==> b.engine.loop.OwesPing? && LiveJob(b.engine, b.speech.job))
    && (forall j :: j in b.talks ==> j < |b.engine.jobs| && b.engine.jobs[j].phase.MustPing?)
  }

  predicate LiveJob(s: E.State, j: nat) {
    j < |s.jobs| && s.jobs[j].phase.Live?
  }

  /** A live job goes on only by its Finish. */
  lemma LiveStays(s: E.State, step: E.Step, j: nat)
    requires H.Protocol(s) && E.Enabled(s, step) && LiveJob(s, j)
    requires !(step.OfWatcher? && step.watch.Finish? && step.watch.j == j)
    ensures LiveJob(E.Apply(s, step), j)
  {
    if H.Quiet(step) {
      H.QuietFrame(s, step);
    }
  }

  /** A job that owes its Ping goes on only by taking the mutex for it. */
  lemma MustPingStays(s: E.State, step: E.Step, j: nat)
    requires H.Protocol(s) && E.Enabled(s, step) && j < |s.jobs| && s.jobs[j].phase.MustPing?
    requires step != E.OfWake(E.PingLock(W.Watcher(j)))
    ensures j < |E.Apply(s, step).jobs| && E.Apply(s, step).jobs[j] == s.jobs[j]
  {
    match step
    case OfWake(x) => assert x.PingFlag? ==> H.Inside(s.todo, s.todo.holder.who);
    case _ =>
  }

  lemma OwesPingStays(s: E.State, step: E.Step)
    requires H.Protocol(s) && E.Enabled(s, step) && s.loop.OwesPing?
    requires step != E.OfWake(E.PingLock(W.Loop))
    ensures E.Apply(s, step).loop.OwesPing? && |E.Apply(s, step).jobs| == |s.jobs|
  {
    match step
    case OfWake(x) => assert x.PingFlag? ==> H.Inside(s.todo, s.todo.holder.who);
    case _ =>
  }

  lemma SpeechInv(b: Both, step: E.Step)
    requires H.Protocol(b.engine) && Enabled(b, OfEngine(step))
    requires b.speech.Speaking? ==> b.engine.loop.OwesPing? && LiveJob(b.engine, b.speech.job)
    ensures var b' := Owed(b, step);
            b'.speech.Speaking? ==> b'.engine.loop.OwesPing? && LiveJob(b'.engine, b'.speech.job)
  {
    if b.speech.Speaking? {
      OwesPingStays(b.engine, step);
      LiveStays(b.engine, step, b.speech.job);
    }
  }

  lemma TalksInv(b: Both, step: E.Step, j: nat)
    requires H.Protocol(b.engine) && Enabled(b, OfEngine(step)) && j in Owed(b, step).talks
    requires j in b.talks ==> j < |b.engine.jobs| && b.engine.jobs[j].phase.MustPing?
    ensures var s' := E.Apply(b.engine, step); j < |s'.jobs| && s'.jobs[j].phase.MustPing?
  {
    if j in b.talks {
      MustPingStays(b.engine, step, j);
    }
  }

  lemma EngineInv(b: Both, step: E.Step)
    requires Inv(b) && Enabled(b, OfEngine(step))
    ensures Inv(Owed(b, step))
  {
    T.InvStep(b.engine, step);
    SpeechInv(b, step);
    forall j | j in Owed(b, step).talks
      ensures j < |Owed(b, step).engine.jobs| && Owed(b, step).engine.jobs[j].phase.MustPing?
    {
      TalksInv(b, step, j);
    }
  }

  lemma InvStep(b: Both, step: Step)
    requires Inv(b) && Enabled(b, step)
    ensures Inv(Apply(b, step))
  {
    match step
    case OfEngine(x) => EngineInv(b, x);
    case OfBus(m) => D.InvStep(b.bus, m);
    case Talks(j, event) => D.InvStep(b.bus, D.PublishEnter(WatcherOf(j), event));
    case TalkEnds(_) =>
    case Speaks(event) => D.InvStep(b.bus, D.PublishEnter(LOOP, event));
    case SpeechEnds =>
  }

  lemma Start(cpu: nat, ram: nat, now: int)
    ensures Inv(Both(E.Init(cpu, ram, now), D.INITIAL, map[], Silent))
  {
    assert E.ValidRun(E.Init(cpu, ram, now), []) && E.Exec(E.Init(cpu, ram, now), []) == E.Init(cpu, ram, now);
    T.ReachableInv(E.Init(cpu, ram, now));
    assert D.ValidRun(D.INITIAL, []) && D.Exec(D.INITIAL, []) == D.INITIAL;
    D.ReachableInv(D.INITIAL);
  }

  lemma {:induction false} InvRun(b: Both, run: seq<Step>)
    requires Inv(b) && ValidRun(b, run)
    ensures Inv(Exec(b, run))
    decreases |run|
  {
    if run != [] {
      InvStep(b, run[0]);
      InvRun(Apply(b, run[0]), run[1..]);
    }
  }

  // ----- A full channel without a consumer

  /** The publication cannot send on this full channel. */
  ghost predicate Blocked(b: Both, talk: Talk, id: nat) {
    talk.Talking? && D.Stuck(b.bus, talk.pub, id)
  }

  lemma StaysBlocked(b: Both, step: Step, talk: Talk, id: nat)
    requires D.Locking(b.bus) && Enabled(b, step) && Blocked(b, talk, id) && step != OfBus(D.Consume(id))
    ensures Blocked(Apply(b, step), talk, id)
  {
    match step
    case OfBus(m) => D.StuckStep(b.bus, m, talk.pub, id);
    case Talks(j, event) => D.StuckStep(b.bus, D.PublishEnter(WatcherOf(j), event), talk.pub, id);
    case Speaks(event) => D.StuckStep(b.bus, D.PublishEnter(LOOP, event), talk.pub, id);
    case _ =>
  }

  ghost predicate WatcherBlocked(b: Both, j: nat, id: nat) {
    j in b.talks && Blocked(b, b.talks[j], id)
  }

  lemma WatcherStays(b: Both, step: Step, j: nat, id: nat)
    requires D.Locking(b.bus) && Enabled(b, step) && WatcherBlocked(b, j, id) && step != OfBus(D.Consume(id))
    requires j < |b.engine.jobs| && b.engine.jobs[j].phase.MustPing?
    ensures WatcherBlocked(Apply(b, step), j, id)
  {
    StaysBlocked(b, step, b.talks[j], id);
    assert Apply(b, step).talks[j] == b.talks[j];
  }

  /** The consumer of this channel receives nothing. */
  ghost predicate Unread(run: seq<Step>, id: nat) {
    run == [] || (run[0] != OfBus(D.Consume(id)) && Unread(run[1..], id))
  }

  lemma {:induction false} WatcherStaysBlocked(b: Both, run: seq<Step>, j: nat, id: nat)
    requires Inv(b) && WatcherBlocked(b, j, id) && ValidRun(b, run)
    requires Unread(run, id)
    ensures WatcherBlocked(Exec(b, run), j, id)
    decreases |run|
  {
    if run != [] {
      InvStep(b, run[0]);
      WatcherStays(b, run[0], j, id);
      WatcherStaysBlocked(Apply(b, run[0]), run[1..], j, id);
    }
  }

  /** A watcher whose publication is stuck at a full channel never comes to its Ping and never gives its resources
      back, as long as the consumer of that channel receives nothing. */
  lemma BlockedWatcherKeepsItsResources(b: Both, run: seq<Step>, j: nat, id: nat)
    requires Inv(b) && WatcherBlocked(b, j, id) && ValidRun(b, run)
    requires Unread(run, id)
    ensures var s := Exec(b, run).engine;
            j < |s.jobs| == |s.pool.holds| && s.jobs[j].phase.MustPing? && s.pool.holds[j].phase.Active?
  {
    WatcherStaysBlocked(b, run, j, id);
    InvRun(b, run);
    assert H.Books(Exec(b, run).engine);
  }

  ghost predicate LoopBlocked(b: Both, id: nat) {
    b.speech.Speaking? && Blocked(b, b.speech.talk, id)
  }

  lemma LoopStays(b: Both, step: Step, id: nat)
    requires D.Locking(b.bus) && H.Protocol(b.engine) && b.engine.loop.OwesPing?
    requires Enabled(b, step) && LoopBlocked(b, id) && step != OfBus(D.Consume(id))
    ensures var b' := Apply(b, step);
            LoopBlocked(b', id) && b'.speech == b.speech && |b'.engine.jobs| == |b.engine.jobs|
  {
    StaysBlocked(b, step, b.speech.talk, id);
    match step
    case OfEngine(x) => OwesPingStays(b.engine, x);
    case _ =>
  }

  lemma {:induction false} LoopStaysBlocked(b: Both, run: seq<Step>, id: nat)
    requires Inv(b) && LoopBlocked(b, id) && ValidRun(b, run)
    requires Unread(run, id)
    ensures var c := Exec(b, run);
            LoopBlocked(c, id) && c.speech == b.speech && |c.engine.jobs| == |b.engine.jobs|
    decreases |run|
  {
    if run != [] {
      InvStep(b, run[0]);
      LoopStays(b, run[0], id);
      LoopStaysBlocked(Apply(b, run[0]), run[1..], id);
    }
  }

  /** An execTask whose publication is stuck holds up the loop: no task is ever launched again, and the run that it
      launched never ends for the scheduler. */
  lemma BlockedLoopLaunchesNothing(b: Both, run: seq<Step>, id: nat)
    requires Inv(b) && LoopBlocked(b, id) && ValidRun(b, run)
    requires Unread(run, id)
    ensures var s := Exec(b, run).engine;
            s.loop.OwesPing? && |s.jobs| == |b.engine.jobs| && LiveJob(s, b.speech.job)
  {
    LoopStaysBlocked(b, run, id);
    InvRun(b, run);
  }
}
