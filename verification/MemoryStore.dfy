/** The key-value store held in memory (store/memory.go). */
module MemoryStore {
  import opened Wrappers

  class MemoryStore<V> {
    var kv: map<string, V>

    constructor ()
      ensures kv == map[]
    {
      kv := map[];
    }

    method Get(key: string) returns (value: Option<V>)
      ensures value == if key in kv then Some(kv[key]) else None
    {
      if key in kv {
        return Some(kv[key]);
      }
      return None;
    }

    method Put(key: string, value: V)
      modifies this
      ensures kv == old(kv)[key := value]
    {
      kv := kv[key := value];
    }

    method Delete(key: string)
      modifies this
      ensures kv == old(kv) - {key}
    {
      kv := kv - {key};
    }

    method Length() returns (n: nat)
      ensures n == |kv|
    {
      return |kv|;
    }

    /** Removes exactly the entries the clause accepts. The clause is asked once per entry, in any order;
        `hits` is how often it said yes. */
    method DeleteWithClause(clause: (string, V) -> bool) returns (hits: nat)
      modifies this
      ensures kv == map k | k in old(kv) && !clause(k, old(kv)[k]) :: old(kv)[k]
      ensures hits == |old(kv)| - |kv|
    {
      var todos: seq<string> := [];
      var keys := kv.Keys;
      while keys != {}
        invariant keys <= kv.Keys && kv == old(kv)
        invariant forall k :: k in todos <==> k in kv && k !in keys && clause(k, kv[k])
        invariant forall i, j :: 0 <= i < j < |todos| ==> todos[i] != todos[j]
        decreases keys
      {
        var k :| k in keys;
        keys := keys - {k};
        if clause(k, kv[k]) {
          todos := todos + [k];
        }
      }
      hits := |todos|;
      for i := 0 to |todos|
        invariant forall k :: k in kv <==> k in old(kv) && k !in todos[..i]
        invariant forall k :: k in kv ==> kv[k] == old(kv)[k]
        invariant |kv| == |old(kv)| - i
      {
        assert todos[i] in old(kv) && todos[i] !in todos[..i];
        kv := kv - {todos[i]};
        assert todos[..i + 1] == todos[..i] + [todos[i]];
      }
      assert todos[..|todos|] == todos;
    }
  }
}
