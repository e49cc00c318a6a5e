/** The wire form of a task and the two conversions (task/task.go:152-283). Turning the plain struct
    RawTask into bytes and back is Go's library and not part of this model. */
module Codec {
  import opened Wrappers
  import opened Json
  import opened Tasks

  /** RawTask: durations and dates as text or numbers, action and run under their registered names. */
  datatype RawTask = RawTask(
    start: string, maxWait: string, maxExec: string, cpu: int, ram: int, action: map<string, Json>,
    id: string, status: string, mtime: string, owner: string, retry: int, every: int, cron: string,
    environments: map<string, string>, run: map<string, Json>, runCounter: int, runs: seq<RunData>,
    labels: map<string, string>)

  datatype DecodeError =
    | TooManyActions | UnregisteredAction | BadAction | UnregisteredRun | BadRun | BadCron | BadText

  /** A registry of implementations: who is registered, and each one's own JSON codec. */
  datatype Registry = Registry(
    names: set<string>, encode: (string, Json) -> Json, decode: (string, Json) -> Option<Json>)

  /** The library conversions of dates, durations and statuses, and the two registries. */
  datatype Lib = Lib(
    showTime: int -> string, readTime: string -> Option<int>,
    showDuration: int -> string, readDuration: string -> Option<int>,
    showStatus: Status -> string, readStatus: string -> Option<Status>,
    cronParses: string -> bool, actions: Registry, runs: Registry)

  /** What the libraries promise: reading back what they have written. */
  ghost predicate Lawful(lib: Lib) {
    && (forall t :: lib.readTime(lib.showTime(t)) == Some(t))
    && (forall d :: lib.readDuration(lib.showDuration(d)) == Some(d))
    && (forall st :: lib.readStatus(lib.showStatus(st)) == Some(st))
  }

  /** A part that survives its own codec. */
  predicate PartKept(r: Registry, part: Option<Part>) {
    part.None?
    || (part.value.name in r.names
        && r.decode(part.value.name, r.encode(part.value.name, part.value.state)) == Some(part.value.state))
  }

  predicate Storable(lib: Lib, t: Task) {
    PartKept(lib.actions, t.rest.action) && PartKept(lib.runs, t.run)
  }

  function EncodePart(r: Registry, part: Option<Part>): map<string, Json> {
    if part.None? then map[] else map[part.value.name := r.encode(part.value.name, part.value.state)]
  }

  function Marshal(lib: Lib, t: Task): RawTask {
    RawTask(
      lib.showTime(t.start), lib.showDuration(t.rest.maxWait), lib.showDuration(t.maxExec), t.cpu, t.ram,
      EncodePart(lib.actions, t.rest.action), t.id, lib.showStatus(t.status), lib.showTime(t.mtime),
      t.rest.owner, t.rest.retry, t.every, t.cron, t.rest.environments, EncodePart(lib.runs, t.run),
      t.runCounter, t.runs, t.rest.labels)
  }

  /** The only key of a map of one entry. */
  function Only(m: map<string, Json>): (k: string)
    requires |m| == 1
    ensures k in m && m.Keys == {k}
  {
    var k :| k in m;
    assert |m.Keys - {k}| == 0;
    k
  }

  function DecodeAction(lib: Lib, action: map<string, Json>): Result<Option<Part>, DecodeError> {
    if |action| == 0 then Ok(None)
    else if |action| > 1 then Err(TooManyActions)
    else
      var name := Only(action);
      if name !in lib.actions.names then Err(UnregisteredAction)
      else
        match lib.actions.decode(name, action[name])
        case Some(state) => Ok(Some(Part(name, state)))
        case None => Err(BadAction)
  }

  /** Several runs are no error: the receiver's run stays. */
  function DecodeRun(lib: Lib, receiver: Option<Part>, run: map<string, Json>): Result<Option<Part>, DecodeError> {
    if |run| == 0 then Ok(None)
    else if |run| > 1 then Ok(receiver)
    else
      var name := Only(run);
      if name !in lib.runs.names then Err(UnregisteredRun)
      else
        match lib.runs.decode(name, run[name])
        case Some(state) => Ok(Some(Part(name, state)))
        case None => Err(BadRun)
  }

  /** Reading into a receiver whose run and cron expression are given. The cron check looks at the
      receiver's expression, not at the one being read. */
  function UnmarshalInto(lib: Lib, run: Option<Part>, cron: string, raw: RawTask): Result<Task, DecodeError> {
    var start, mtime := lib.readTime(raw.start), lib.readTime(raw.mtime);
    var maxWait, maxExec := lib.readDuration(raw.maxWait), lib.readDuration(raw.maxExec);
    var status := lib.readStatus(raw.status);
    if start.None? || mtime.None? || maxWait.None? || maxExec.None? || status.None? then Err(BadText)
    else
      match DecodeAction(lib, raw.action)
      case Err(e) => Err(e)
      case Ok(action) =>
        match DecodeRun(lib, run, raw.run)
        case Err(e) => Err(e)
        case Ok(run') =>
          if cron != "" && !lib.cronParses(cron) then Err(BadCron)
          else Ok(Task(
                    raw.id, status.value, start.value, maxExec.value, raw.cpu, raw.ram, raw.every, raw.cron,
                    mtime.value, raw.runCounter, raw.runs, run',
                    Rest(maxWait.value, raw.owner, raw.retry, raw.environments, raw.labels, action)))
  }

  /** parseTask: reading into a fresh task. */
  function Unmarshal(lib: Lib, raw: RawTask): Result<Task, DecodeError> {
    UnmarshalInto(lib, None, "", raw)
  }

  /** All texts of the wire form can be read. */
  predicate Readable(lib: Lib, raw: RawTask) {
    && lib.readTime(raw.start).Some? && lib.readTime(raw.mtime).Some? && lib.readStatus(raw.status).Some?
    && lib.readDuration(raw.maxWait).Some? && lib.readDuration(raw.maxExec).Some?
  }

  /** One entry of this registry that its codec can read. */
  predicate OneGood(r: Registry, parts: map<string, Json>, name: string) {
    parts.Keys == {name} && name in r.names && r.decode(name, parts[name]).Some?
  }

  predicate OneUnregistered(r: Registry, parts: map<string, Json>, name: string) {
    parts.Keys == {name} && name !in r.names
  }

  predicate OneBad(r: Registry, parts: map<string, Json>, name: string) {
    parts.Keys == {name} && name in r.names && r.decode(name, parts[name]).None?
  }

  ghost predicate GoodAction(lib: Lib, raw: RawTask) {
    raw.action == map[] || exists name :: OneGood(lib.actions, raw.action, name)
  }

  /** Two runs or more are no error. */
  ghost predicate GoodRun(lib: Lib, raw: RawTask) {
    raw.run == map[] || |raw.run| > 1 || exists name :: OneGood(lib.runs, raw.run, name)
  }

  /** The exact reason for each error, all earlier tests being passed, for a receiver with this cron expression. */
  ghost predicate ReadFails(lib: Lib, cron: string, raw: RawTask, e: DecodeError) {
    match e
    case BadText => !Readable(lib, raw)
    case TooManyActions => Readable(lib, raw) && |raw.action| > 1
    case UnregisteredAction => Readable(lib, raw) && exists name :: OneUnregistered(lib.actions, raw.action, name)
    case BadAction => Readable(lib, raw) && exists name :: OneBad(lib.actions, raw.action, name)
    case UnregisteredRun =>
      Readable(lib, raw) && GoodAction(lib, raw) && exists name :: OneUnregistered(lib.runs, raw.run, name)
    case BadRun => Readable(lib, raw) && GoodAction(lib, raw) && exists name :: OneBad(lib.runs, raw.run, name)
    case BadCron =>
      Readable(lib, raw) && GoodAction(lib, raw) && GoodRun(lib, raw) && cron != "" && !lib.cronParses(cron)
  }

  lemma KeysOfOne(parts: map<string, Json>)
    ensures |parts| == 0 <==> parts == map[]
    ensures |parts| == 1 <==> exists name :: parts.Keys == {name}
    ensures |parts| == 1 ==> parts.Keys == {Only(parts)}
  {
    assert |parts| == |parts.Keys|;
    if name :| parts.Keys == {name} {
      assert |parts.Keys| == 1;
    }
    if |parts| == 1 {
      assert parts.Keys == {Only(parts)};
    }
  }

  lemma ActionIs(lib: Lib, raw: RawTask)
    ensures var r := DecodeAction(lib, raw.action);
            && (r == Err(TooManyActions) <==> |raw.action| > 1)
            && (r == Err(UnregisteredAction) <==> exists name :: OneUnregistered(lib.actions, raw.action, name))
            && (r == Err(BadAction) <==> exists name :: OneBad(lib.actions, raw.action, name))
            && (r.Ok? <==> GoodAction(lib, raw))
  {
    KeysOfOne(raw.action);
    if |raw.action| == 1 {
      var name := Only(raw.action);
      assert OneUnregistered(lib.actions, raw.action, name) || OneBad(lib.actions, raw.action, name)
             || OneGood(lib.actions, raw.action, name);
    }
  }

  lemma RunIs(lib: Lib, run: Option<Part>, raw: RawTask)
    ensures var r := DecodeRun(lib, run, raw.run);
            && (r == Err(UnregisteredRun) <==> exists name :: OneUnregistered(lib.runs, raw.run, name))
            && (r == Err(BadRun) <==> exists name :: OneBad(lib.runs, raw.run, name))
            && (r.Ok? <==> GoodRun(lib, raw))
  {
    KeysOfOne(raw.run);
    if |raw.run| == 1 {
      var name := Only(raw.run);
      assert OneUnregistered(lib.runs, raw.run, name) || OneBad(lib.runs, raw.run, name)
             || OneGood(lib.runs, raw.run, name);
    }
  }

  /** Reading fails exactly for these reasons, and otherwise takes over every field of the wire form; with two runs
      or more the receiver's run stays. */
  lemma UnmarshalIs(lib: Lib, run: Option<Part>, cron: string, raw: RawTask)
    ensures var r := UnmarshalInto(lib, run, cron, raw);
            && (forall e :: r == Err(e) <==> ReadFails(lib, cron, raw, e))
            && (r.Ok? <==> Readable(lib, raw) && GoodAction(lib, raw) && GoodRun(lib, raw)
                           && (cron == "" || lib.cronParses(cron)))
            && (r.Ok? ==> Carries(lib, run, raw, r.value))
  {
    ActionIs(lib, raw);
    RunIs(lib, run, raw);
    if UnmarshalInto(lib, run, cron, raw).Ok? {
      UnmarshalCarries(lib, run, cron, raw);
    }
  }

  lemma UnmarshalCarries(lib: Lib, run: Option<Part>, cron: string, raw: RawTask)
    requires UnmarshalInto(lib, run, cron, raw).Ok?
    ensures Carries(lib, run, raw, UnmarshalInto(lib, run, cron, raw).value)
  {
    KeysOfOne(raw.action);
    KeysOfOne(raw.run);
  }

  /** The part of this name and state, or no part. */
  predicate PartRead(r: Registry, parts: map<string, Json>, part: Option<Part>) {
    if |parts| != 1 then part.None?
    else part.Some? && parts.Keys == {part.value.name}
         && r.decode(part.value.name, parts[part.value.name]) == Some(part.value.state)
  }

  /** What reading takes from each field of the wire form. */
  predicate Carries(lib: Lib, run: Option<Part>, raw: RawTask, t: Task) {
    && lib.readTime(raw.start) == Some(t.start) && lib.readTime(raw.mtime) == Some(t.mtime)
    && lib.readDuration(raw.maxWait) == Some(t.rest.maxWait) && lib.readDuration(raw.maxExec) == Some(t.maxExec)
    && lib.readStatus(raw.status) == Some(t.status)
    && t.cpu == raw.cpu && t.ram == raw.ram && t.id == raw.id && t.every == raw.every && t.cron == raw.cron
    && t.rest.owner == raw.owner && t.rest.retry == raw.retry && t.runCounter == raw.runCounter && t.runs == raw.runs
    && t.rest.environments == raw.environments && t.rest.labels == raw.labels
    && PartRead(lib.actions, raw.action, t.rest.action)
    && (if |raw.run| > 1 then t.run == run else PartRead(lib.runs, raw.run, t.run))
  }

  /** What is written: each field under its own name, a part under its registered name. */
  lemma MarshalWrites(lib: Lib, t: Task)
    requires Lawful(lib) && Storable(lib, t)
    ensures Carries(lib, None, Marshal(lib, t), t)
  {
    RoundTrip(lib, t);
    UnmarshalIs(lib, None, "", Marshal(lib, t));
  }

  lemma EncodeOne(r: Registry, part: Part)
    ensures |EncodePart(r, Some(part))| == 1 && Only(EncodePart(r, Some(part))) == part.name
  {
    var m := EncodePart(r, Some(part));
    assert m.Keys == {part.name};
    assert |m| == |m.Keys|;
  }

  /** A stored task is read back as it was exactly when its action and its run are registered and
      survive their own codecs. */
  lemma RoundTrip(lib: Lib, t: Task)
    requires Lawful(lib)
    ensures Unmarshal(lib, Marshal(lib, t)) == Ok(t) <==> Storable(lib, t)
  {
    if t.rest.action.Some? {
      EncodeOne(lib.actions, t.rest.action.value);
    }
    if t.run.Some? {
      EncodeOne(lib.runs, t.run.value);
    }
  }

  /** The cron expression is not checked on the way in: a task with a broken one is read without error. */
  lemma BrokenCronIsRead(lib: Lib, t: Task)
    requires Lawful(lib) && Storable(lib, t) && t.cron != "" && !lib.cronParses(t.cron)
    ensures Unmarshal(lib, Marshal(lib, t)) == Ok(t)
    ensures UnmarshalInto(lib, None, t.cron, Marshal(lib, t)) == Err(BadCron)
  {
    RoundTrip(lib, t);
  }

  /** The two conversions and the tasks they are meant for, as values. */
  datatype TaskCodec = TaskCodec(
    write: Task -> RawTask, read: RawTask -> Result<Task, DecodeError>, storable: Task -> bool)

  ghost predicate Faithful(c: TaskCodec) {
    forall t :: c.storable(t) ==> c.read(c.write(t)) == Ok(t)
  }

  function Conversions(lib: Lib): TaskCodec {
    TaskCodec(t => Marshal(lib, t), raw => Unmarshal(lib, raw), t => Storable(lib, t))
  }

  /** The conversions of the code keep every storable task. */
  lemma ConversionsAreFaithful(lib: Lib)
    requires Lawful(lib)
    ensures Faithful(Conversions(lib))
  {
    forall t | Conversions(lib).storable(t) ensures Conversions(lib).read(Conversions(lib).write(t)) == Ok(t) {
      RoundTrip(lib, t);
    }
  }
}
