/** What every call of the scheduler finds and leaves, and what the lists of the loop are. */
module Calls {
  import opened Wrappers
  import opened Tasks
  import opened Engine
  import opened EngineTheorems
  import opened EngineWhole
  import opened Codec
  import opened Sorting
  import opened Outcomes

  /** A call leads from reachable states to reachable states. */
  ghost predicate Follows(s: State, s': State) {
    Reachable(s) ==> Reachable(s')
  }

  lemma {:induction false} LeadsFollows(s: State, s': State)
    requires Leads(s, s')
    ensures Follows(s, s')
  {
    if Reachable(s) {
      var cpu: nat, ram: nat, now: int, before :|
        ValidRun(Init(cpu, ram, now), before) && s == Exec(Init(cpu, ram, now), before);
      var steps :| ValidRun(s, steps) && Exec(s, steps) == s';
      ExecAppend(Init(cpu, ram, now), before, steps);
    }
  }

  lemma StepFollows(s: State, step: Step)
    requires Enabled(s, step)
    ensures Follows(s, Apply(s, step))
  {
    LeadsOne(s, step);
    LeadsFollows(s, Apply(s, step));
  }

  lemma InitReachable(cpu: int, ram: int, now: int)
    requires cpu >= 0 && ram >= 0
    ensures Reachable(Init(cpu, ram, now))
  {
    assert ValidRun(Init(cpu, ram, now), []) && Exec(Init(cpu, ram, now), []) == Init(cpu, ram, now);
  }

  lemma AddFollows(s: State, t: Task, id: Id)
    requires Room(s) && id !in s.issued && id != NIL_ID
    ensures Follows(s, WholeAdd(s, t, id))
  {
    AddRuns(s, t, id);
    LeadsFollows(s, WholeAdd(s, t, id));
  }

  lemma DoneFollows(s: State)
    requires s.loop.Received? && Room(s)
    ensures Follows(s, WholeDone(s))
  {
    DoneRuns(s);
    LeadsFollows(s, WholeDone(s));
  }

  lemma ExecFollows(s: State, answer: UpAnswer)
    requires s.loop.Chosen? && |s.jobs| == |s.pool.holds|
    ensures Follows(s, WholeExec(s, answer))
  {
    ExecRuns(s, answer);
    LeadsFollows(s, WholeExec(s, answer));
  }

  lemma TurnFollows(s: State, pick: Option<Id>, answer: UpAnswer, next: Option<Id>)
    requires s.loop.Cleared? && Room(s) && |s.jobs| == |s.pool.holds| && Picks(s, pick, next)
    ensures Follows(s, WholeTurn(s, pick, answer, next))
  {
    TurnRuns(s, pick, answer, next);
    LeadsFollows(s, WholeTurn(s, pick, answer, next));
  }

  /** The end of a watcher follows only when the run answered a terminal status. */
  lemma FinishFollows(s: State, j: nat, status: Status, next: Option<int>)
    requires Room(s) && |s.jobs| == |s.pool.holds| && WatchEnabled(s, Finish(j, status, next))
    ensures Follows(s, WholeFinish(s, j, status, next))
  {
    FinishRuns(s, j, status, next);
    LeadsFollows(s, WholeFinish(s, j, status, next));
  }

  lemma FireFollows(s: State, timer: Timer)
    requires Room(s) && timer in s.timers && timer.due <= s.now
    ensures Follows(s, WholeFire(s, timer))
  {
    FireRuns(s, timer);
    LeadsFollows(s, WholeFire(s, timer));
  }

  /** An answer of Up whose run survives its own codec. */
  predicate Kept(lib: Lib, answer: UpAnswer) {
    answer.Up? ==> PartKept(lib.runs, Some(answer.run))
  }

  /** The record of an accepted task. */
  function Accepted(t: Task, id: Id, now: int): Task {
    t.(id := id, status := Waiting, mtime := now)
  }

  /** The entries after execTask, as they are written. */
  function Executed(lib: Lib, kv: map<string, RawTask>, t: Task, now: int, answer: UpAnswer): map<string, RawTask> {
    kv[t.id := Marshal(lib, AfterUp(t, now, answer).(mtime := now))]
  }

  /** The record of a task is written as the answer of Up leaves it. */
  ghost predicate WritesAnswer(lib: Lib, kv: map<string, RawTask>, kv': map<string, RawTask>, t: Task, now: int,
                               answer: UpAnswer)
  {
    exists u :: AnsweredAs(t, u, now, answer) && u.mtime == now && kv' == kv[t.id := Marshal(lib, u)]
  }

  lemma ExecutedWrites(lib: Lib, kv: map<string, RawTask>, t: Task, now: int, answer: UpAnswer)
    ensures WritesAnswer(lib, kv, Executed(lib, kv, t, now, answer), t, now, answer)
  {
    AfterUpAnswers(t, now, answer);
    assert AnsweredAs(t, AfterUp(t, now, answer).(mtime := now), now, answer);
  }

  /** The picked task, if there is one, is written like that. */
  ghost predicate Written(lib: Lib, view: map<Id, Task>, kv: map<string, RawTask>, kv': map<string, RawTask>, now: int,
                          pick: Option<Id>, answer: UpAnswer)
  {
    pick.Some? && pick.value in view ==> WritesAnswer(lib, kv, kv', view[pick.value], now, answer)
  }

  function FlushClause(now: int, age: int): Task -> bool {
    t => Flushable(t, now, age)
  }

  lemma FlushIs(s: State, store: map<Id, Task>, clause: Task -> bool, age: int)
    requires clause == FlushClause(s.now, age)
    requires store == map k | k in s.store && !clause(s.store[k]) :: s.store[k]
    ensures FlushTasks(s, age).store == store
    ensures forall lib :: Sound(lib, s) ==> Sound(lib, FlushTasks(s, age))
  {
  }

  /** What a whole oneLoop does, in fields. */
  lemma LoopTells(lib: Lib, s: State, pick: Option<Id>, answer: UpAnswer, next: Option<Id>)
    requires Sound(lib, s) && Picks(WholeDone(s), pick, next)
    ensures PicksReady(s, pick)
    ensures LoopsInto(s, WholeLoop(s, pick, answer, next), pick, answer, next)
  {
    HeadIsReady(WholeDone(s), pick);
    SameReady(s, WholeDone(s), pick);
    LoopDoes(s, pick, answer, next);
  }

  lemma SameReady(s: State, s': State, pick: Option<Id>)
    requires PicksReady(s', pick) && s'.store == s.store && s'.pool == s.pool && s'.now == s.now
    ensures PicksReady(s, pick)
  {
    forall id | id in s.store ensures IsDue(s', s.store[id]) <==> IsDue(s, s.store[id]) {
    }
  }

  function IdOf(t: Option<Task>): Option<Id> {
    if t.None? then None else Some(t.value.id)
  }

  /** The filter of readyToGo, but for the resources. */
  predicate IsPast(t: Task, now: int) {
    t.start < now && t.status.Waiting?
  }

  /** Exactly the tasks that wait, are past their start and fit, each one once; the first one is a head in the
      sense of the machine. */
  ghost predicate ReadyList(s: State, todos: seq<Task>) {
    && (forall t {:trigger t in todos} ::
          t in todos <==>
            && t.id in s.store && s.store[t.id] == t && t.status.Waiting? && t.start < s.now
            && t.cpu <= s.pool.cpu && t.ram <= s.pool.ram)
    && EachOnce(todos)
    && ReadyHead(EnterReady(s), if todos == [] then None else Some(todos[0].id))
  }

  /** No task stands behind a heavier one. */
  ghost predicate LightestFirst(todos: seq<Task>) {
    forall i, j :: 0 <= i < j < |todos| ==> !Lighter(todos[j], todos[i])
  }

  lemma SortedIsLightestFirst(todos: seq<Task>)
    requires SortedBy(todos, KarmaKey) && forall i :: 0 <= i < |todos| ==> todos[i].maxExec > 0
    ensures LightestFirst(todos)
  {
    forall i, j | 0 <= i < j < |todos| ensures !Lighter(todos[j], todos[i]) {
      KarmaOrders(todos[j], todos[i]);
      assert KarmaKey(todos[i]) <= KarmaKey(todos[j]);
    }
  }

  /** A lighter task stands before a heavier one, wherever the two are. */
  lemma LighterStandsBefore(todos: seq<Task>, i: nat, j: nat)
    requires LightestFirst(todos) && i < |todos| && j < |todos| && Lighter(todos[i], todos[j])
    requires todos[i].maxExec > 0
    ensures i < j
  {
    KarmaOrders(todos[i], todos[i]);
  }

  /** Karma as a sort key; no stored task has a maximum execution time that is not positive. */
  function KarmaKey(t: Task): int {
    if t.maxExec > 0 then Karma(t) else 0
  }

  function FirstOf(ts: seq<Task>): Option<Task> {
    if ts == [] then None else Some(ts[0])
  }

  predicate IsWaiting(t: Task) {
    t.status.Waiting?
  }

  function StartKey(t: Task): int {
    t.start
  }

  predicate Keepable(lib: Lib, t: Task) {
    Storable(lib, t) && t.maxExec > 0 && t.id != NIL_ID
  }

  ghost predicate Keyed(s: State) {
    forall id :: id in s.store ==> s.store[id].id == id
  }

  /** What every call finds and leaves: room for a Ping, one hold per job, records that can be stored. */
  ghost predicate Sound(lib: Lib, s: State) {
    && Room(s)
    && |s.jobs| == |s.pool.holds|
    && (s.loop.Chosen? ==> Keepable(lib, s.loop.task))
    && (forall j :: 0 <= j < |s.jobs| ==> Keepable(lib, s.jobs[j].task))
    && (forall id :: id in s.store ==> s.store[id].id == id && Keepable(lib, s.store[id]))
  }

  /** No waiting task, or one of least start as it is stored. */
  ghost predicate NextTask(s: State, task: Option<Task>) {
    && NextHead(s, if task.None? then None else Some(task.value.id))
    && (task.Some? ==> task.value.id in s.store && s.store[task.value.id] == task.value)
  }

  lemma SoundAdd(lib: Lib, s: State, t: Task, id: Id)
    requires Sound(lib, s) && Storable(lib, t) && id != NIL_ID
    ensures Sound(lib, WholeAdd(s, t, id))
  {
  }

  lemma SoundExec(lib: Lib, s: State, answer: UpAnswer)
    requires Sound(lib, s) && s.loop.Chosen? && (answer.Up? ==> PartKept(lib.runs, Some(answer.run)))
    ensures Sound(lib, WholeExec(s, answer))
  {
  }

  /** The waiting tasks past their start. */
  ghost predicate PastList(s: State, past: seq<Task>) {
    forall t {:trigger t in past} :: t in past <==> t.id in s.store && s.store[t.id] == t && IsPast(t, s.now)
  }

  /** Those of a list that fit into so much. */
  ghost predicate FitList(past: seq<Task>, found: seq<Task>, cpu: int, ram: int) {
    && (forall t {:trigger t in found} :: t in found <==> t in past && t.cpu <= cpu && t.ram <= ram)
    && EachOnce(found)
  }

  lemma ReadyListIs(lib: Lib, s: State, past: seq<Task>, found: seq<Task>, todos: seq<Task>)
    requires Sound(lib, s) && SortedBy(todos, KarmaKey)
    requires PastList(s, past) && FitList(past, found, s.pool.cpu, s.pool.ram)
    requires multiset(todos) == multiset(found)
    ensures ReadyList(s, todos) && LightestFirst(todos)
  {
    SameElements(todos, found);
    PermutedOnce(found, todos);
    forall i | 0 <= i < |todos| ensures todos[i].maxExec > 0 {
      assert todos[i] in todos;
    }
    SortedIsLightestFirst(todos);
    forall id | Due(s, id) ensures todos != [] && KarmaKey(todos[0]) <= KarmaKey(s.store[id]) {
      assert s.store[id] in todos;
      var i :| 0 <= i < |todos| && todos[i] == s.store[id];
    }
    assert todos != [] ==> todos[0] in todos;
  }

  lemma SoundTurn(lib: Lib, s: State, t: Task, answer: UpAnswer)
    requires Sound(lib, s) && t.id in s.store && s.store[t.id] == t
    requires answer.Up? ==> PartKept(lib.runs, Some(answer.run))
    ensures Sound(lib, Turned(s, t, answer))
  {
  }

  lemma SoundPlan(lib: Lib, s: State, n: Option<Task>)
    requires Sound(lib, s) && NextTask(s, n)
    ensures Sound(lib, WholePlan(TakeReady(s, None), IdOf(n)))
  {
  }

  lemma SoundPut(lib: Lib, s: State, t: Task)
    requires Sound(lib, s) && Keepable(lib, t)
    ensures Sound(lib, Engine.Put(s, t))
  {
  }

  lemma SoundDelete(lib: Lib, s: State, id: Id)
    requires Sound(lib, s)
    ensures Sound(lib, s.(store := s.store - {id}))
  {
  }

  lemma DeleteAbsent(s: State, id: Id)
    requires id !in s.store
    ensures s.(store := s.store - {id}) == s
  {
    assert s.store - {id} == s.store;
  }

  lemma FinishedKeepable(lib: Lib, t: Task, status: Status, now: int, next: Option<int>)
    requires Keepable(lib, t)
    ensures Keepable(lib, Finished(t, status, now, next).(mtime := now))
    ensures Finished(t, status, now, next).id == t.id
  {
  }

  lemma SoundRecord(lib: Lib, s: State, s': State, j: nat, t: Task)
    requires Sound(lib, s) && Keepable(lib, t) && j < |s.jobs| == |s'.jobs| == |s'.pool.holds| && Room(s')
    requires s'.loop == s.loop && s'.store == s.store[t.id := t] && s'.jobs == s.jobs[j := s'.jobs[j]]
    requires s'.jobs[j].task == t
    ensures Sound(lib, s')
  {
  }

  lemma SoundFinish(lib: Lib, s: State, j: nat, status: Status, next: Option<int>)
    requires Sound(lib, s) && j < |s.jobs|
    ensures Sound(lib, WholeFinish(s, j, status, next))
  {
    FinishSummary(s, j, status, next);
    FinishedKeepable(lib, s.jobs[j].task, status, s.now, next);
    var t := Finished(s.jobs[j].task, status, s.now, next).(mtime := s.now);
    SoundRecord(lib, s, WholeFinish(s, j, status, next), j, t);
  }

  lemma NothingStored(s: State)
    requires |s.store| == 0
    ensures NextTask(s, None)
  {
    assert s.store == map[];
  }

  lemma NextListIs(s: State, waiting: seq<Task>)
    requires Keyed(s) && SortedBy(waiting, StartKey)
    requires forall t {:trigger t in waiting} ::
               t in waiting <==> t.id in s.store && s.store[t.id] == t && IsWaiting(t)
    ensures NextTask(s, FirstOf(waiting))
  {
    forall id | id in s.store && s.store[id].status.Waiting?
      ensures waiting != [] && waiting[0].start <= s.store[id].start
    {
      assert s.store[id] in waiting;
      var i :| 0 <= i < |waiting| && waiting[i] == s.store[id];
      assert StartKey(waiting[0]) <= StartKey(waiting[i]);
    }
    assert waiting != [] ==> waiting[0] in waiting;
  }
}
