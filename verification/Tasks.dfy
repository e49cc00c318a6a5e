/** The task record and what the code does to one task on its own (task/task.go, runner/runner.go).
    Times and durations are integers (nanoseconds); Go's nil and empty maps and slices are one value. */
module Tasks {
  import opened Wrappers
  import opened Json

  /** A task identifier: the canonical text of a UUID. */
  type Id = string

  const NIL_ID: Id := "00000000-0000-0000-0000-000000000000"

  datatype Status = Waiting | Running | Done | Timeout | Canceled | Error

  predicate Terminal(status: Status) {
    !status.Waiting? && !status.Running?
  }

  /** A registered object behind a Go interface: its registered name and its state. */
  datatype Part = Part(name: string, state: Json)

  datatype RunData =
    RunData(id: int, start: int, finish: int, exitCode: int, runner: string, running: bool)

  /** The fields the engine never looks at. */
  datatype Rest = Rest(maxWait: int, owner: string, retry: int, environments: map<string, string>,
                       labels: map<string, string>, action: Option<Part>)

  datatype Task = Task(
    id: Id, status: Status, start: int, maxExec: int, cpu: int, ram: int,
    every: int, cron: string, mtime: int,
    runCounter: int, runs: seq<RunData>, run: Option<Part>, rest: Rest)

  predicate HasCron(t: Task) {
    t.every > 0 || t.cron != ""
  }

  /** The new start date of a recurring task. `next` is what the cron library answers:
      None when the expression does not parse. */
  function Rescheduled(t: Task, now: int, next: Option<int>): Task {
    var t1 := if t.every > 0 then t.(start := now + t.every) else t;
    if t.cron == "" then t1
    else if next.Some? then t1.(start := next.value)
    else t1.(status := Error)
  }

  /** What the watcher writes back once its run is over. */
  function Finished(t: Task, status: Status, now: int, next: Option<int>): Task {
    if HasCron(t) then Rescheduled(t.(status := Waiting), now, next) else t.(status := status)
  }

  /** What no operation on a stored task changes. */
  predicate SameTask(t: Task, u: Task) {
    && u.id == t.id && u.maxExec == t.maxExec && u.cpu == t.cpu && u.ram == t.ram
    && u.every == t.every && u.cron == t.cron && u.rest == t.rest
  }

  /** The end of a run (scheduler/scheduler.go:274-278, task/task.go:296-311). `next` is the answer of the cron
      library, None for an expression that does not parse. */
  predicate EndedAs(t: Task, u: Task, status: Status, now: int, next: Option<int>) {
    && SameTask(t, u) && u.run == t.run && u.runCounter == t.runCounter && u.runs == t.runs
    && (t.every <= 0 && t.cron == "" ==> u.status == status && u.start == t.start)
    && (t.every > 0 && t.cron == "" ==> u.status == Waiting && u.start == now + t.every)
    && (t.cron != "" && next.Some? ==> u.status == Waiting && u.start == next.value)
    && (t.cron != "" && next.None? ==>
          u.status == Error && u.start == (if t.every > 0 then now + t.every else t.start))
  }

  lemma FinishedEnds(t: Task, status: Status, now: int, next: Option<int>)
    ensures EndedAs(t, Finished(t, status, now, next), status, now, next)
  {
  }

  function AddRun(t: Task, data: Option<RunData>): Task {
    if data.None? then t else t.(runs := [data.value] + t.runs)
  }

  /** Go's integer quotient. Both operands are positive for an admitted task. */
  function Karma(t: Task): int
    requires t.maxExec > 0
  {
    t.ram * t.cpu / t.maxExec
  }

  /** `q` separates the two quotients of demand by time. */
  predicate Between(t: Task, q: int, u: Task) {
    t.ram * t.cpu < q * t.maxExec && q * u.maxExec <= u.ram * u.cpu
  }

  /** The whole part of t.ram * t.cpu / t.maxExec is less than that of u.ram * u.cpu / u.maxExec. */
  ghost predicate Lighter(t: Task, u: Task) {
    exists q: int :: Between(t, q, u)
  }

  lemma KarmaOrders(t: Task, u: Task)
    requires t.maxExec > 0 && u.maxExec > 0
    ensures Lighter(t, u) <==> Karma(t) < Karma(u)
  {
    var a, b := t.ram * t.cpu, u.ram * u.cpu;
    if Karma(t) < Karma(u) {
      QuotientBelow(a, t.maxExec, Karma(u));
      QuotientBelow(b, u.maxExec, Karma(u));
      assert Between(t, Karma(u), u);
    }
    if q: int :| Between(t, q, u) {
      QuotientBelow(a, t.maxExec, q);
      QuotientBelow(b, u.maxExec, q);
    }
  }

  lemma QuotientBelow(a: int, m: int, q: int)
    requires m > 0
    ensures a / m < q <==> a < q * m
  {
    var p := a / m;
    assert p * m <= a < p * m + m;
    if p < q {
      Times(p + 1, q, m);
    } else {
      Times(q, p, m);
    }
  }

  lemma Times(a: int, b: int, m: int)
    requires a <= b && m > 0
    ensures a * m <= b * m
  {
  }

  /** The run history, latest first, numbers runs downwards from the run counter. */
  ghost predicate GoodHistory(t: Task) {
    && (forall i :: 0 <= i < |t.runs| ==> t.runs[i].id <= t.runCounter)
    && (forall i, j :: 0 <= i < j < |t.runs| ==> t.runs[i].id > t.runs[j].id)
  }

  /** One more run keeps a good history good exactly when its number is new and within the counter. */
  lemma AddRunExact(t: Task, data: RunData)
    requires GoodHistory(t)
    ensures GoodHistory(AddRun(t, Some(data))) <==> data.id <= t.runCounter && (t.runs != [] ==> data.id > t.runs[0].id)
  {
    var t' := AddRun(t, Some(data));
    assert forall i :: 0 <= i < |t.runs| ==> t'.runs[i + 1] == t.runs[i];
    if GoodHistory(t') {
      assert t'.runs[0] == data;
      assert t.runs != [] ==> t'.runs[0].id > t'.runs[1].id;
    }
  }
}
