/** The publisher as an object that its callers share (pubsub/pubsub.go), each call with the lock to itself. */
module PubSub {
  import opened Wrappers
  import opened Deliveries

  /** A Go channel with a buffer, and the history of what went through it. */
  class Chan {
    var log: Channel

    constructor ()
      ensures log == Channel([], 0)
    {
      log := Channel([], 0);
    }
  }

  function Sent(channels: map<nat, Channel>, id: nat, e: Envelope): map<nat, Channel>
    requires id in channels
  {
    channels[id := channels[id].(sent := channels[id].sent + [e])]
  }

  lemma ServedOneMore(before: map<nat, Channel>, now: map<nat, Channel>, served: set<nat>, id: nat, e: Envelope)
    requires Served(before, now, served, e) && id in now && id !in served
    ensures Served(before, Sent(now, id, e), served + {id}, e)
  {
  }

  /** The outcome of a publication that served `served`: it returned, or is stuck at a full channel; it
      returns if and only if every channel had room, and then it served every subscriber. */
  ghost predicate Published(before: map<nat, Channel>, now: map<nat, Channel>, e: Envelope,
                            stuck: Option<nat>, served: set<nat>) {
    && served <= before.Keys && Served(before, now, served, e)
    && (stuck.None? ==> served == before.Keys)
    && (stuck.None? <==> forall id :: id in before ==> HasRoom(before[id]))
    && (stuck.Some? ==> stuck.value in before && stuck.value !in served && !HasRoom(before[stuck.value]))
  }

  class PubSub {
    var cpt: nat
    var subscribers: map<nat, Chan>
    var wg: int
    /** The number of calls of Publish so far. */
    var calls: nat

    ghost predicate Valid()
      reads this`subscribers, this`cpt, this`wg
    {
      && wg == |subscribers|
      && (forall id :: id in subscribers ==> id < cpt)
      && (forall i, j :: i in subscribers && j in subscribers && i != j ==> subscribers[i] != subscribers[j])
    }

    ghost function View(): map<nat, Channel>
      reads this`subscribers, subscribers.Values
    {
      map id | id in subscribers :: subscribers[id].log
    }

    constructor ()
      ensures Valid() && subscribers == map[] && wg == 0
    {
      cpt, subscribers, wg, calls := 0, map[], 0, 0;
    }

    /** A number and a channel that no subscriber has. */
    method Subscribe() returns (id: nat, c: Chan)
      requires Valid()
      modifies this
      ensures Valid() && fresh(c) && c.log == Channel([], 0)
      ensures id == old(cpt) < cpt && id !in old(subscribers) && subscribers == old(subscribers)[id := c]
      ensures wg == old(wg) + 1 && calls == old(calls)
    {
      id := cpt;
      cpt := cpt + 1;
      c := new Chan();
      assert |subscribers[id := c]| == |subscribers| + 1 by {
        assert subscribers[id := c].Keys == subscribers.Keys + {id};
        assert |subscribers.Keys + {id}| == |subscribers.Keys| + 1;
      }
      subscribers := subscribers[id := c];
      wg := wg + 1;
    }

    /** The goroutine that closes a subscription when its context is done. */
    method Close(id: nat)
      requires Valid() && id in subscribers
      modifies this
      ensures Valid() && subscribers == old(subscribers) - {id}
      ensures wg == old(wg) - 1 && cpt == old(cpt) && calls == old(calls)
    {
      assert |subscribers - {id}| == |subscribers| - 1 by {
        assert (subscribers - {id}).Keys == subscribers.Keys - {id};
        assert |subscribers.Keys - {id}| == |subscribers.Keys| - 1;
      }
      subscribers := subscribers - {id};
      wg := wg - 1;
    }

    method Send(id: nat, e: Envelope)
      requires Valid() && id in subscribers
      modifies subscribers[id]
      ensures View() == Sent(old(View()), id, e)
    {
      var c := subscribers[id];
      c.log := c.log.(sent := c.log.sent + [e]);
    }

    /** Sends to the subscribers in any order, and stays stuck at the first full channel. */
    method Publish(event: Event) returns (stuck: Option<nat>, ghost served: set<nat>)
      requires Valid()
      modifies this`calls, subscribers.Values
      ensures Valid() && calls == old(calls) + 1
      ensures Published(old(View()), View(), Envelope(event, old(calls)), stuck, served)
    {
      calls := calls + 1;
      stuck, served := SendAll(Envelope(event, calls - 1));
    }

    method SendAll(e: Envelope) returns (stuck: Option<nat>, ghost served: set<nat>)
      requires Valid()
      modifies subscribers.Values
      ensures Published(old(View()), View(), e, stuck, served)
    {
      served, stuck := {}, None;
      ghost var before := View();
      var todo := subscribers.Keys;
      while todo != {}
        invariant todo <= subscribers.Keys && served == subscribers.Keys - todo
        invariant Served(before, View(), served, e)
        invariant forall id :: id in served ==> HasRoom(before[id])
      {
        var id :| id in todo;
        assert View()[id] == before[id];
        if !HasRoom(subscribers[id].log) {
          return Some(id), served;
        }
        ServedOneMore(before, View(), served, id, e);
        Send(id, e);
        todo := todo - {id};
        served := served + {id};
      }
    }

    /** Whether Wait would return. */
    method Wait() returns (over: bool)
      requires Valid()
      ensures over <==> subscribers == map[]
    {
      over := wg == 0;
      assert |subscribers| == 0 <==> subscribers == map[];
    }
  }
}
