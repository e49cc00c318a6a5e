/** The store of tasks on top of the key-value store (scheduler/store.go). */
module JsonStore {
  import opened Wrappers
  import opened Tasks
  import opened Codec
  import opened Sorting
  import M = MemoryStore

  class JsonStore {
    const codec: TaskCodec
    const store: M.MemoryStore<RawTask>

    /** The entry can be read, as a storable task with the identifier it lies under. */
    ghost predicate Readable(k: string, raw: RawTask) {
      && codec.read(raw).Ok?
      && codec.read(raw).value.id == k
      && codec.storable(codec.read(raw).value)
    }

    ghost predicate Valid()
      reads store
    {
      && Faithful(codec)
      && forall k :: k in store.kv ==> Readable(k, store.kv[k])
    }

    /** The tasks as a map from identifier to task. */
    ghost function View(): map<Id, Task>
      requires Valid()
      reads store
    {
      map k | k in store.kv :: codec.read(store.kv[k]).value
    }

    constructor (lib: Lib, store: M.MemoryStore<RawTask>)
      requires Lawful(lib) && store.kv == map[]
      ensures this.codec == Conversions(lib) && this.store == store
      ensures Valid() && View() == map[]
    {
      ConversionsAreFaithful(lib);
      this.codec := Conversions(lib);
      this.store := store;
    }

    method Get(id: Id) returns (task: Option<Task>)
      requires Valid()
      ensures task == if id in View() then Some(View()[id]) else None
    {
      var raw := store.Get(id);
      if raw.None? {
        return None;
      }
      return Some(codec.read(raw.value).value);
    }

    /** Stamps the modification time; refuses a task without identifier. A task that does not survive its own
        conversions is stored as well, as it was written. */
    method Put(t: Task, now: int) returns (ok: bool)
      requires Valid()
      modifies store
      ensures ok <==> t.id != NIL_ID
      ensures store.kv == if ok then old(store.kv)[t.id := codec.write(t.(mtime := now))] else old(store.kv)
      ensures !ok || codec.storable(t.(mtime := now)) ==>
                Valid() && View() == if ok then old(View())[t.id := t.(mtime := now)] else old(View())
    {
      if t.id == NIL_ID {
        return false;
      }
      var stamped := t.(mtime := now);
      store.Put(t.id, codec.write(stamped));
      return true;
    }

    method Delete(id: Id)
      requires Valid()
      modifies store
      ensures Valid() && View() == old(View()) - {id}
    {
      store.Delete(id);
    }

    method Length() returns (n: nat)
      requires Valid()
      ensures n == |View()|
    {
      n := store.Length();
      assert View().Keys == store.kv.Keys;
    }

    /** ForEach with a callback that appends what it likes: the accepted tasks, in any order. */
    method Collect(keep: Task -> bool) returns (ts: seq<Task>)
      requires Valid()
      ensures forall t {:trigger t in ts} :: t in ts <==> t.id in View() && View()[t.id] == t && keep(t)
      ensures EachOnce(ts)
    {
      ts := [];
      var keys := store.kv.Keys;
      while keys != {}
        invariant keys <= store.kv.Keys
        invariant forall t {:trigger t in ts} ::
                    t in ts <==> t.id in View() && t.id !in keys && View()[t.id] == t && keep(t)
        invariant EachOnce(ts)
        decreases keys
      {
        var k :| k in keys;
        assert Readable(k, store.kv[k]);
        var t := codec.read(store.kv[k]).value;
        assert t !in ts;
        keys := keys - {k};
        if keep(t) {
          AppendOnce(ts, t);
          ts := ts + [t];
        }
      }
    }

    /** Removes exactly the tasks the clause accepts and counts them. */
    method DeleteWithClause(clause: Task -> bool) returns (hits: nat)
      requires Valid()
      modifies store
      ensures Valid()
      ensures View() == map k | k in old(View()) && !clause(old(View())[k]) :: old(View())[k]
      ensures hits == |old(View())| - |View()|
    {
      ghost var before := View();
      assert before.Keys == store.kv.Keys && |before| == |before.Keys|;
      var read := codec.read;
      hits := store.DeleteWithClause((k: string, raw: RawTask) => read(raw).Ok? && clause(read(raw).value));
      assert View().Keys == store.kv.Keys && |View()| == |View().Keys|;
    }
  }
}
