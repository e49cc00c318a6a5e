/** Publishing to subscribers under a readers-writer lock (pubsub/pubsub.go), one step of one goroutine
    at a time. */
module Deliveries {

  datatype Event = Event(action: string, id: int)

  /** What a channel carries, with the number of the publication that sent it. */
  datatype Envelope = Envelope(event: Event, pub: nat)

  /** Everything ever sent on one channel; the first `received` ones are with the consumer. */
  datatype Channel = Channel(sent: seq<Envelope>, received: nat)

  const BUFFER := 100

  /** One call of Publish: `present` are the subscribers when it took the read lock. */
  datatype Publication = Publication(publisher: nat, event: Event, present: set<nat>, served: set<nat>, returned: bool)

  /** What the holder of the write lock did last. */
  datatype Writer =
    | Nobody
    | Numbered(id: nat)
    | Inserted(id: nat)
    | Deleted(id: nat)

  datatype State = State(
    cpt: nat,
    subscribers: set<nat>,
    channels: map<nat, Channel>,  // never forgotten: a consumer keeps its channel
    wg: int,
    writer: Writer,
    pubs: seq<Publication>)

  const INITIAL := State(0, {}, map[], 0, Nobody, [])

  datatype Step =
    | SubscribeNumber              // Subscribe: take the lock and a number
    | SubscribeInsert
    | SubscribeCount               // wg.Add, unlock
    | CloseDelete(id: nat)         // the closing goroutine: take the lock, delete
    | CloseCount                   // wg.Done, unlock
    | PublishEnter(publisher: nat, event: Event)
    | PublishSend(pub: nat, id: nat)
    | PublishReturn(pub: nat)
    | Consume(id: nat)

  predicate Publishing(s: State, pub: nat) {
    pub < |s.pubs| && !s.pubs[pub].returned
  }

  predicate NoReader(s: State) {
    forall p :: 0 <= p < |s.pubs| ==> s.pubs[p].returned
  }

  predicate Idle(s: State, publisher: nat) {
    forall p :: 0 <= p < |s.pubs| && !s.pubs[p].returned ==> s.pubs[p].publisher != publisher
  }

  predicate HasRoom(c: Channel) {
    |c.sent| - c.received < BUFFER
  }

  predicate Enabled(s: State, step: Step) {
    match step
    case SubscribeNumber => s.writer.Nobody? && NoReader(s)
    case SubscribeInsert => s.writer.Numbered?
    case SubscribeCount => s.writer.Inserted?
    case CloseDelete(id) => s.writer.Nobody? && NoReader(s) && id in s.subscribers
    case CloseCount => s.writer.Deleted?
    case PublishEnter(publisher, _) => s.writer.Nobody? && Idle(s, publisher)
    case PublishSend(pub, id) =>
      && Publishing(s, pub) && id in s.subscribers && id !in s.pubs[pub].served
      && id in s.channels && HasRoom(s.channels[id])
    case PublishReturn(pub) => Publishing(s, pub) && s.subscribers <= s.pubs[pub].served
    case Consume(id) => id in s.channels && s.channels[id].received < |s.channels[id].sent|
  }

  function Apply(s: State, step: Step): State
    requires Enabled(s, step)
  {
    match step
    case SubscribeNumber => s.(writer := Numbered(s.cpt), cpt := s.cpt + 1)
    case SubscribeInsert =>
      var id := s.writer.id;
      s.(subscribers := s.subscribers + {id}, channels := s.channels[id := Channel([], 0)], writer := Inserted(id))
    case SubscribeCount => s.(wg := s.wg + 1, writer := Nobody)
    case CloseDelete(id) => s.(subscribers := s.subscribers - {id}, writer := Deleted(id))
    case CloseCount => s.(wg := s.wg - 1, writer := Nobody)
    case PublishEnter(publisher, event) =>
      s.(pubs := s.pubs + [Publication(publisher, event, s.subscribers, {}, false)])
    case PublishSend(pub, id) =>
      var c, p := s.channels[id], s.pubs[pub];
      s.(channels := s.channels[id := c.(sent := c.sent + [Envelope(p.event, pub)])],
         pubs := s.pubs[pub := p.(served := p.served + {id})])
    case PublishReturn(pub) => s.(pubs := s.pubs[pub := s.pubs[pub].(returned := true)])
    case Consume(id) =>
      var c := s.channels[id];
      s.(channels := s.channels[id := c.(received := c.received + 1)])
  }

  ghost predicate ValidRun(s: State, run: seq<Step>)
    decreases |run|
  {
    run == [] || (Enabled(s, run[0]) && ValidRun(Apply(s, run[0]), run[1..]))
  }

  ghost function Exec(s: State, run: seq<Step>): State
    requires ValidRun(s, run)
    decreases |run|
  {
    if run == [] then s else Exec(Apply(s, run[0]), run[1..])
  }

  // ----- What every step keeps

  /** How many copies of publication `pub` were sent on a channel. */
  ghost function Copies(sent: seq<Envelope>, pub: nat): nat {
    if sent == [] then 0
    else Copies(sent[..|sent| - 1], pub) + (if sent[|sent| - 1].pub == pub then 1 else 0)
  }

  lemma CopiesAppend(sent: seq<Envelope>, e: Envelope, pub: nat)
    ensures Copies(sent + [e], pub) == Copies(sent, pub) + (if e.pub == pub then 1 else 0)
  {
    assert (sent + [e])[..|sent|] == sent;
  }

  lemma {:induction false} CopiesPositive(sent: seq<Envelope>, pub: nat)
    ensures Copies(sent, pub) > 0 <==> exists i :: 0 <= i < |sent| && sent[i].pub == pub
  {
    if sent != [] {
      CopiesPositive(sent[..|sent| - 1], pub);
      assert sent[|sent| - 1].pub == pub ==> exists i :: 0 <= i < |sent| && sent[i].pub == pub;
    }
  }

  /** Channels are numbered below the counter, and a number in hand has no channel yet. */
  ghost predicate Numbers(s: State) {
    && s.subscribers <= s.channels.Keys
    && (forall id :: id in s.channels ==> id < s.cpt && s.writer != Numbered(id))
    && (s.writer.Numbered? ==> s.writer.id < s.cpt)
    && (s.writer.Inserted? ==> s.writer.id in s.subscribers)
  }

  /** The wait group counts the subscribers, but for the one in the hands of the writer. */
  ghost predicate WaitGroup(s: State) {
    s.wg == |s.subscribers| + (if s.writer.Inserted? then -1 else if s.writer.Deleted? then 1 else 0)
  }

  /** Writers and readers exclude each other, so a reader's subscribers do not change. */
  ghost predicate Locking(s: State) {
    && (!s.writer.Nobody? ==> NoReader(s))
    && (forall p: nat :: Publishing(s, p) ==> s.pubs[p].present == s.subscribers)
  }

  /** Each channel got one copy of the publications that served it, and no copy of the others. */
  ghost predicate Delivered(s: State) {
    && (forall p :: 0 <= p < |s.pubs| ==> s.pubs[p].served <= s.pubs[p].present <= s.channels.Keys)
    && (forall p :: 0 <= p < |s.pubs| && s.pubs[p].returned ==> s.pubs[p].served == s.pubs[p].present)
    && (forall id, p: nat :: id in s.channels && p < |s.pubs| ==>
          Copies(s.channels[id].sent, p) == if id in s.pubs[p].served then 1 else 0)
  }

  /** A publisher has one publication at a time. */
  ghost predicate OneAtATime(s: State) {
    forall p, q :: 0 <= p < q < |s.pubs| && s.pubs[p].publisher == s.pubs[q].publisher ==> s.pubs[p].returned
  }

  /** On a channel, the events of one publisher come in the order of its publications. */
  ghost predicate InOrder(pubs: seq<Publication>, sent: seq<Envelope>) {
    && (forall i :: 0 <= i < |sent| ==> sent[i].pub < |pubs| && sent[i].event == pubs[sent[i].pub].event)
    && (forall i, j :: 0 <= i < j < |sent| && pubs[sent[i].pub].publisher == pubs[sent[j].pub].publisher
          ==> sent[i].pub < sent[j].pub)
  }

  ghost predicate Channels(s: State) {
    forall id :: id in s.channels ==>
      && InOrder(s.pubs, s.channels[id].sent)
      && s.channels[id].received <= |s.channels[id].sent| <= s.channels[id].received + BUFFER
  }

  ghost predicate Inv(s: State) {
    Numbers(s) && WaitGroup(s) && Locking(s) && Delivered(s) && OneAtATime(s) && Channels(s)
  }

  lemma NumbersStep(s: State, step: Step)
    requires Enabled(s, step) && Numbers(s)
    ensures Numbers(Apply(s, step))
  {
  }

  lemma WaitGroupStep(s: State, step: Step)
    requires Enabled(s, step) && Numbers(s) && WaitGroup(s)
    ensures WaitGroup(Apply(s, step))
  {
  }

  lemma LockingStep(s: State, step: Step)
    requires Enabled(s, step) && Locking(s)
    ensures Locking(Apply(s, step))
  {
    var s' := Apply(s, step);
    if Publishing(s, 0) || step.PublishSend? || step.PublishReturn? {
      assert step.PublishSend? || step.PublishReturn? ==> !NoReader(s);
    }
    forall p: nat | Publishing(s', p) ensures s'.pubs[p].present == s'.subscribers {
      assert p < |s.pubs| ==> Publishing(s, p);
    }
  }

  lemma DeliveredSend(s: State, pub: nat, id: nat)
    requires Enabled(s, PublishSend(pub, id)) && Locking(s) && Delivered(s)
    ensures Delivered(Apply(s, PublishSend(pub, id)))
  {
    var s' := Apply(s, PublishSend(pub, id));
    var e := Envelope(s.pubs[pub].event, pub);
    forall c, p: nat | c in s'.channels && p < |s'.pubs|
      ensures Copies(s'.channels[c].sent, p) == if c in s'.pubs[p].served then 1 else 0
    {
      CopiesAppend(s.channels[id].sent, e, p);
    }
  }

  lemma DeliveredEnter(s: State, step: Step)
    requires step.PublishEnter? && Numbers(s) && Delivered(s) && Channels(s) && Enabled(s, step)
    ensures Delivered(Apply(s, step))
  {
    forall c | c in s.channels ensures Copies(s.channels[c].sent, |s.pubs|) == 0 {
      CopiesPositive(s.channels[c].sent, |s.pubs|);
    }
  }

  lemma DeliveredStep(s: State, step: Step)
    requires Enabled(s, step) && Numbers(s) && Locking(s) && Delivered(s) && Channels(s)
    ensures Delivered(Apply(s, step))
  {
    match step
    case PublishSend(pub, id) =>
      DeliveredSend(s, pub, id);
    case PublishEnter(_, _) =>
      DeliveredEnter(s, step);
    case _ =>
  }

  lemma OneAtATimeStep(s: State, step: Step)
    requires Enabled(s, step) && OneAtATime(s)
    ensures OneAtATime(Apply(s, step))
  {
  }

  /** The publication that sends is the last one of its publisher and not yet on the channel. */
  lemma SendInOrder(s: State, pub: nat, id: nat)
    requires Enabled(s, PublishSend(pub, id)) && Delivered(s) && OneAtATime(s) && Channels(s)
    ensures InOrder(s.pubs, s.channels[id].sent + [Envelope(s.pubs[pub].event, pub)])
  {
    var sent := s.channels[id].sent;
    CopiesPositive(sent, pub);
    forall i | 0 <= i < |sent| && s.pubs[sent[i].pub].publisher == s.pubs[pub].publisher ensures sent[i].pub < pub {
      assert sent[i].pub != pub;
    }
  }

  ghost predicate SamePublications(ps: seq<Publication>, qs: seq<Publication>) {
    |ps| <= |qs| && forall p :: 0 <= p < |ps| ==> ps[p].publisher == qs[p].publisher && ps[p].event == qs[p].event
  }

  lemma InOrderKept(ps: seq<Publication>, qs: seq<Publication>, sent: seq<Envelope>)
    requires InOrder(ps, sent) && SamePublications(ps, qs)
    ensures InOrder(qs, sent)
  {
  }

  lemma ChannelsStep(s: State, step: Step)
    requires Enabled(s, step) && Delivered(s) && OneAtATime(s) && Channels(s)
    ensures Channels(Apply(s, step))
  {
    var s' := Apply(s, step);
    assert SamePublications(s.pubs, s'.pubs);
    if step.PublishSend? {
      SendInOrder(s, step.pub, step.id);
    }
    forall id | id in s'.channels
      ensures InOrder(s'.pubs, s'.channels[id].sent)
      ensures s'.channels[id].received <= |s'.channels[id].sent| <= s'.channels[id].received + BUFFER
    {
      assert InOrder(s.pubs, s'.channels[id].sent);
      InOrderKept(s.pubs, s'.pubs, s'.channels[id].sent);
    }
  }

  lemma InvStep(s: State, step: Step)
    requires Inv(s) && Enabled(s, step)
    ensures Inv(Apply(s, step))
  {
    NumbersStep(s, step);
    WaitGroupStep(s, step);
    LockingStep(s, step);
    DeliveredStep(s, step);
    OneAtATimeStep(s, step);
    ChannelsStep(s, step);
  }

  lemma {:induction false} InvRun(s: State, run: seq<Step>)
    requires Inv(s) && ValidRun(s, run)
    ensures Inv(Exec(s, run))
    decreases |run|
  {
    if run != [] {
      InvStep(s, run[0]);
      InvRun(Apply(s, run[0]), run[1..]);
    }
  }

  ghost predicate Reachable(s: State) {
    exists run :: ValidRun(INITIAL, run) && Exec(INITIAL, run) == s
  }

  lemma ReachableInv(s: State)
    requires Reachable(s)
    ensures Inv(s)
  {
    var run :| ValidRun(INITIAL, run) && Exec(INITIAL, run) == s;
    InvRun(INITIAL, run);
  }

  // ----- Main results

  /** A publication that returned put exactly one copy in the channel of each subscriber present when it took
      the read lock, and none in any other channel; one under way has put at most one copy in each. */
  lemma ExactlyOnce(s: State, pub: nat, id: nat)
    requires Reachable(s) && pub < |s.pubs| && id in s.channels
    ensures s.pubs[pub].returned ==>
              Copies(s.channels[id].sent, pub) == if id in s.pubs[pub].present then 1 else 0
    ensures Copies(s.channels[id].sent, pub) <= 1
    ensures Copies(s.channels[id].sent, pub) == 1 ==> id in s.pubs[pub].present
  {
    ReachableInv(s);
  }

  /** Nothing else is ever sent, and a consumer sees one publisher's events in the order of its calls. */
  lemma OrderedPerPublisher(s: State, id: nat)
    requires Reachable(s) && id in s.channels
    ensures InOrder(s.pubs, s.channels[id].sent)
  {
    ReachableInv(s);
  }

  /** When the write lock is free the wait group counts the subscribers, so a Wait that returns then finds none;
      the count is never negative, which would panic. */
  lemma WaitGroupCounts(s: State)
    requires Reachable(s)
    ensures s.wg >= 0
    ensures s.writer.Nobody? ==> s.wg == |s.subscribers|
    ensures s.writer.Nobody? && s.wg == 0 ==> s.subscribers == {}
  {
    ReachableInv(s);
    if s.writer.Inserted? {
      assert s.subscribers != {};
    }
  }

  /** A channel holds at most 100 events that were not received, and a send needs a hundredth free place. */
  lemma HundredPlaces(s: State, id: nat)
    requires Reachable(s) && id in s.channels
    ensures 0 <= |s.channels[id].sent| - s.channels[id].received <= 100
    ensures HasRoom(s.channels[id]) <==> |s.channels[id].sent| - s.channels[id].received < 100
  {
    ReachableInv(s);
  }

  ghost predicate Extends(a: State, b: State) {
    && a.cpt <= b.cpt
    && (forall id :: id in a.channels ==>
          id in b.channels && a.channels[id].sent <= b.channels[id].sent
          && a.channels[id].received <= b.channels[id].received)
    && (forall id :: id in b.channels && id !in a.channels ==> id >= a.cpt || a.writer == Numbered(id))
  }

  lemma ExtendsStep(s: State, step: Step)
    requires Numbers(s) && Enabled(s, step)
    ensures Extends(s, Apply(s, step))
  {
  }

  /** A number is never used for a second channel: over any run a channel keeps what was sent on it, and a new
      channel has a number that no channel had before. */
  lemma {:induction false} NumbersAreNeverReused(s: State, run: seq<Step>)
    requires Numbers(s) && ValidRun(s, run)
    ensures Extends(s, Exec(s, run))
    decreases |run|
  {
    if run != [] {
      NumbersStep(s, run[0]);
      var s1 := Apply(s, run[0]);
      ExtendsStep(s, run[0]);
      NumbersAreNeverReused(s1, run[1..]);
    }
  }

  /** Once closed, closed for good: the subscriber gets nothing more. */
  lemma {:induction false} ClosedForGood(s: State, run: seq<Step>, id: nat)
    requires Numbers(s) && ValidRun(s, run) && id in s.channels && id !in s.subscribers
    ensures var t := Exec(s, run);
            id in t.channels && id !in t.subscribers && t.channels[id].sent == s.channels[id].sent
    decreases |run|
  {
    if run != [] {
      NumbersStep(s, run[0]);
      ClosedForGood(Apply(s, run[0]), run[1..], id);
    }
  }

  // ----- A full channel

  /** A publication under way that still has to serve a full channel. */
  ghost predicate Stuck(s: State, pub: nat, id: nat) {
    && Publishing(s, pub) && id in s.subscribers && id !in s.pubs[pub].served
    && id in s.channels && !HasRoom(s.channels[id])
  }

  lemma StuckStep(s: State, step: Step, pub: nat, id: nat)
    requires Locking(s) && Stuck(s, pub, id) && Enabled(s, step) && step != Consume(id)
    ensures var t := Apply(s, step);
            Stuck(t, pub, id) && t.subscribers == s.subscribers && t.cpt == s.cpt
  {
    assert !NoReader(s);
  }

  /** As long as its consumer receives nothing, a full channel holds up the publication, and with it every
      Subscribe and every closing, its own one included. */
  lemma {:induction false} FullChannelHoldsTheLock(s: State, run: seq<Step>, pub: nat, id: nat)
    requires Locking(s) && Stuck(s, pub, id) && ValidRun(s, run)
    requires forall i :: 0 <= i < |run| ==> run[i] != Consume(id)
    ensures var t := Exec(s, run);
            && Stuck(t, pub, id) && t.subscribers == s.subscribers && t.cpt == s.cpt
            && !Enabled(t, SubscribeNumber) && forall c :: !Enabled(t, CloseDelete(c))
    decreases |run|
  {
    assert !NoReader(s);
    if run != [] {
      StuckStep(s, run[0], pub, id);
      LockingStep(s, run[0]);
      assert forall i :: 0 <= i < |run[1..]| ==> run[1..][i] == run[i + 1];
      FullChannelHoldsTheLock(Apply(s, run[0]), run[1..], pub, id);
    }
  }

  /** Otherwise nobody waits for ever: any publication can send or return, unless a channel it has yet to
      serve is full. */
  lemma PublicationCanMove(s: State, pub: nat)
    requires Numbers(s) && Publishing(s, pub)
    ensures Enabled(s, PublishReturn(pub)) || (exists id :: Enabled(s, PublishSend(pub, id)) || Stuck(s, pub, id))
  {
    if id :| id in s.subscribers && id !in s.pubs[pub].served {
      assert Enabled(s, PublishSend(pub, id)) || Stuck(s, pub, id);
    }
  }

  // ----- A whole publication

  function Sends(pub: nat, ids: seq<nat>): seq<Step> {
    if ids == [] then [PublishReturn(pub)] else [PublishSend(pub, ids[0])] + Sends(pub, ids[1..])
  }

  ghost predicate Distinct(ids: seq<nat>) {
    forall i, j :: 0 <= i < j < |ids| ==> ids[i] != ids[j]
  }

  ghost function Members(ids: seq<nat>): set<nat> {
    set id | id in ids
  }

  /** The channels after an event went to all the subscribers in `to`. */
  ghost predicate Served(a: map<nat, Channel>, b: map<nat, Channel>, to: set<nat>, e: Envelope) {
    && a.Keys == b.Keys
    && (forall id :: id in a ==>
          b[id] == if id in to then Channel(a[id].sent + [e], a[id].received) else a[id])
  }

  /** Sending on the next channel leaves the other ones to be served. */
  lemma SendOne(s: State, pub: nat, ids: seq<nat>)
    requires ToServe(s, pub, ids) && ids != []
    ensures Enabled(s, PublishSend(pub, ids[0]))
    ensures var t := Apply(s, PublishSend(pub, ids[0]));
            && ToServe(t, pub, ids[1..])
            && t.pubs == s.pubs[pub := s.pubs[pub].(served := s.pubs[pub].served + {ids[0]})]
            && Served(s.channels, t.channels, {ids[0]}, Envelope(s.pubs[pub].event, pub))
            && ids[0] !in ids[1..]
  {
    assert ids[0] in ids;
    assert forall id :: id in ids <==> id == ids[0] || id in ids[1..];
  }

  /** `ids` are the subscribers still to be served, each one once and with room in its channel. */
  ghost predicate ToServe(s: State, pub: nat, ids: seq<nat>) {
    && Publishing(s, pub) && Distinct(ids)
    && (forall id :: id in s.subscribers <==> id in s.pubs[pub].served || id in ids)
    && (forall id :: id in ids ==> id !in s.pubs[pub].served && id in s.channels && HasRoom(s.channels[id]))
  }

  /** With room in the channels, the subscribers can be served in any order, with the same result. */
  lemma {:induction false} SendsServe(s: State, pub: nat, ids: seq<nat>)
    requires ToServe(s, pub, ids)
    ensures ValidRun(s, Sends(pub, ids))
    ensures var t := Exec(s, Sends(pub, ids));
            && Served(s.channels, t.channels, Members(ids), Envelope(s.pubs[pub].event, pub))
            && t.pubs == s.pubs[pub := s.pubs[pub].(served := s.subscribers, returned := true)]
    decreases |ids|
  {
    var run := Sends(pub, ids);
    if ids == [] {
      assert run[1..] == [];
      assert s.pubs[pub].served == s.subscribers;
      assert ValidRun(Apply(s, run[0]), run[1..]);
    } else {
      SendOne(s, pub, ids);
      var t := Apply(s, run[0]);
      assert run[1..] == Sends(pub, ids[1..]);
      assert forall id :: id in ids <==> id == ids[0] || id in ids[1..];
      SendsServe(t, pub, ids[1..]);
    }
  }

  lemma {:induction false} Listed(ids: set<nat>) returns (xs: seq<nat>)
    ensures Distinct(xs) && Members(xs) == ids
  {
    if ids == {} {
      xs := [];
    } else {
      var id :| id in ids;
      var rest := Listed(ids - {id});
      xs := rest + [id];
      assert forall x :: x in rest <==> x in Members(rest);
      assert forall x :: x in xs <==> x in Members(xs);
    }
  }

  /** With the locks free and room in every channel, a whole publication is a run that serves every
      subscriber once and returns. */
  lemma WholePublish(s: State, publisher: nat, event: Event) returns (run: seq<Step>)
    requires Inv(s) && s.writer.Nobody? && NoReader(s)
    requires forall id :: id in s.subscribers ==> HasRoom(s.channels[id])
    ensures ValidRun(s, run)
    ensures var t := Exec(s, run);
            && Served(s.channels, t.channels, s.subscribers, Envelope(event, |s.pubs|))
            && t.pubs == s.pubs + [Publication(publisher, event, s.subscribers, s.subscribers, true)]
  {
    var ids := Listed(s.subscribers);
    assert forall id :: id in ids <==> id in Members(ids);
    var enter := PublishEnter(publisher, event);
    var s1 := Apply(s, enter);
    SendsServe(s1, |s.pubs|, ids);
    run := [enter] + Sends(|s.pubs|, ids);
    assert run[1..] == Sends(|s.pubs|, ids);
  }
}
