/** The choice of the next subnet on blocks of any mask, wherever they lie (network/network.go:96-134). */
module MixedSubnets {
  import opened Bits
  import opened Networks
  import opened Subnets

  // ----- Where the search stops

  /** What the search looks at: the candidates one after the other, and the distance of each one to the entry
      of the list it is compared with. */
  datatype Trace = Trace(slots: seq<Net>, gaps: seq<int>)

  ghost predicate IsTrace(t: Trace, nets: seq<Net>, mini: Net, ones: Ones) {
    && |t.slots| == |nets| + 1 && |t.gaps| == |nets| && t.slots[0] == mini
    && (forall i :: 0 <= i < |nets| ==> t.slots[i + 1] == NextNet(t.slots[i], ones))
    && (forall i :: 0 <= i < |nets| ==> t.gaps[i] == NetDistance(t.slots[i], nets[i]))
  }

  lemma {:induction false} TraceExists(nets: seq<Net>, mini: Net, ones: Ones) returns (t: Trace)
    ensures IsTrace(t, nets, mini, ones)
  {
    if nets == [] {
      t := Trace([mini], []);
    } else {
      var last := |nets| - 1;
      var rest := TraceExists(nets[..last], mini, ones);
      var n := rest.slots[last];
      t := Trace(rest.slots + [NextNet(n, ones)], rest.gaps + [NetDistance(n, nets[last])]);
    }
  }

  /** The search goes on behind entry `i`: an overlap, or a block too near with the next candidate in range. */
  predicate Passes(t: Trace, maxi: Address, size: nat, i: nat)
    requires i < |t.gaps| < |t.slots|
  {
    t.gaps[i] < 0 || (t.gaps[i] < size && t.slots[i + 1].ip <= maxi)
  }

  /** From entry `k` on the search passes up to entry `p`, where the candidate has room. */
  ghost predicate StopsAt(t: Trace, maxi: Address, size: nat, k: nat, p: nat) {
    && k <= p < |t.gaps| < |t.slots|
    && (forall i :: k <= i < p ==> Passes(t, maxi, size, i))
    && t.gaps[p] >= size
  }

  /** From entry `k` on the search passes up to the last entry, which overlaps its candidate. */
  ghost predicate RunsOff(t: Trace, maxi: Address, size: nat, k: nat) {
    && k < |t.gaps| < |t.slots|
    && (forall i :: k <= i < |t.gaps| - 1 ==> Passes(t, maxi, size, i))
    && t.gaps[|t.gaps| - 1] < 0
  }

  /** Up to entry `p`, which is too near, with the next candidate beyond the maximum. */
  ghost predicate GoesBeyond(t: Trace, maxi: Address, size: nat, k: nat, p: nat) {
    && k <= p < |t.gaps| < |t.slots|
    && (forall i :: k <= i < p ==> Passes(t, maxi, size, i))
    && 0 <= t.gaps[p] < size && t.slots[p + 1].ip > maxi
  }

  /** Up to the last entry, which is too near, with the next candidate in range. */
  ghost predicate EndsFull(t: Trace, maxi: Address, size: nat, k: nat) {
    && k < |t.gaps| < |t.slots|
    && (forall i :: k <= i < |t.gaps| ==> Passes(t, maxi, size, i))
    && t.gaps[|t.gaps| - 1] >= 0
  }

  /** Passing one entry moves the descriptions on by one. */
  lemma PassOne(t: Trace, maxi: Address, size: nat, k: nat)
    requires k + 1 < |t.gaps| < |t.slots| && Passes(t, maxi, size, k)
    ensures RunsOff(t, maxi, size, k) <==> RunsOff(t, maxi, size, k + 1)
    ensures EndsFull(t, maxi, size, k) <==> EndsFull(t, maxi, size, k + 1)
    ensures forall p: nat {:trigger GoesBeyond(t, maxi, size, k, p)} {:trigger GoesBeyond(t, maxi, size, k + 1, p)} ::
              GoesBeyond(t, maxi, size, k, p) <==> GoesBeyond(t, maxi, size, k + 1, p)
    ensures forall p: nat {:trigger StopsAt(t, maxi, size, k, p)} {:trigger StopsAt(t, maxi, size, k + 1, p)} ::
              StopsAt(t, maxi, size, k, p) <==> StopsAt(t, maxi, size, k + 1, p)
  {
  }

  /** Not passing an entry, or being at the last one, leaves one place to stop. */
  lemma StopHere(t: Trace, maxi: Address, size: nat, k: nat)
    requires k < |t.gaps| < |t.slots| && (!Passes(t, maxi, size, k) || k + 1 == |t.gaps|)
    ensures forall p: nat {:trigger StopsAt(t, maxi, size, k, p)} :: StopsAt(t, maxi, size, k, p) ==> p == k
    ensures StopsAt(t, maxi, size, k, k) <==> t.gaps[k] >= size
    ensures RunsOff(t, maxi, size, k) <==> k + 1 == |t.gaps| && t.gaps[k] < 0
    ensures forall p: nat {:trigger GoesBeyond(t, maxi, size, k, p)} :: GoesBeyond(t, maxi, size, k, p) ==> p == k
    ensures GoesBeyond(t, maxi, size, k, k) <==> 0 <= t.gaps[k] < size && t.slots[k + 1].ip > maxi
    ensures EndsFull(t, maxi, size, k) <==>
              k + 1 == |t.gaps| && 0 <= t.gaps[k] < size && t.slots[k + 1].ip <= maxi
  {
    assert EndsFull(t, maxi, size, k) ==> Passes(t, maxi, size, k);
  }

  /** One turn of the loop. */
  lemma SearchStep(nets: seq<Net>, n: Net, poz: nat, maxi: Address, ones: Ones, d: int, n': Net, size: nat)
    requires poz < |nets| && d == NetDistance(n, nets[poz]) && n' == NextNet(n, ones) && size == Size(ones)
    ensures var r := Search(nets, n, poz, maxi, ones);
            if d >= size then r == Found(n)
            else if d >= 0 && n'.ip > maxi then r == BeyondMax
            else if d >= 0 && poz + 1 == |nets| then r == FullNetwork
            else if poz + 1 == |nets| then r == Panic
            else r == Search(nets, n', poz + 1, maxi, ones)
  {
    SizeBounds(ones);
  }

  /** What a search answers, read off its trace. */
  ghost predicate Reads(t: Trace, maxi: Address, size: nat, k: nat, r: Outcome) {
    && (r.Panic? <==> RunsOff(t, maxi, size, k))
    && (r.Found? <==> exists p: nat :: StopsAt(t, maxi, size, k, p))
    && (forall p: nat :: StopsAt(t, maxi, size, k, p) ==> r == Found(t.slots[p]))
    && (r.BeyondMax? <==> exists p: nat :: GoesBeyond(t, maxi, size, k, p))
    && (r.FullNetwork? <==> EndsFull(t, maxi, size, k))
  }

  lemma ReadsStep(t: Trace, maxi: Address, size: nat, k: nat, r: Outcome)
    requires size > 0 && k < |t.gaps| < |t.slots|
    requires if t.gaps[k] >= size then r == Found(t.slots[k])
             else if t.gaps[k] >= 0 && t.slots[k + 1].ip > maxi then r == BeyondMax
             else if t.gaps[k] >= 0 && k + 1 == |t.gaps| then r == FullNetwork
             else if k + 1 == |t.gaps| then r == Panic
             else Reads(t, maxi, size, k + 1, r)
    ensures Reads(t, maxi, size, k, r)
  {
    if Passes(t, maxi, size, k) && k + 1 < |t.gaps| {
      PassOne(t, maxi, size, k);
    } else {
      StopHere(t, maxi, size, k);
    }
  }

  lemma {:induction false} SearchExactly(nets: seq<Net>, mini: Net, maxi: Address, ones: Ones, t: Trace, k: nat)
    requires IsTrace(t, nets, mini, ones) && k < |nets|
    ensures Reads(t, maxi, Size(ones), k, Search(nets, t.slots[k], k, maxi, ones))
    decreases |nets| - k
  {
    SearchStep(nets, t.slots[k], k, maxi, ones, t.gaps[k], t.slots[k + 1], Size(ones));
    if k + 1 < |nets| {
      SearchExactly(nets, mini, maxi, ones, t, k + 1);
    }
    SizeBounds(ones);
    ReadsStep(t, maxi, Size(ones), k, Search(nets, t.slots[k], k, maxi, ones));
  }

  /** For every list: the choice leaves its list exactly when there is no room in the queue, the search passes
      all entries but the last, and the last one overlaps its candidate. */
  lemma PanicsExactly(nets: seq<Net>, mini: Net, maxi: Net, ones: Ones, t: Trace)
    requires IsTrace(t, nets, mini, ones)
    ensures Allocate(nets, mini, maxi, ones).Panic? <==>
              nets != [] && !QueueRoom(nets, maxi, ones) && RunsOff(t, maxi.ip, Size(ones), 0)
  {
    if nets != [] {
      SearchExactly(nets, mini, maxi.ip, ones, t, 0);
    }
  }

  // ----- Which networks are handed out

  /** Aligned disjoint blocks of any mask, ascending. */
  ghost predicate Ordered(nets: seq<Net>) {
    && (forall i :: 0 <= i < |nets| ==> Aligned(nets[i]))
    && (forall i, j :: 0 <= i < j < |nets| ==> Last(nets[i]) < nets[j].ip)
  }

  /** The first `i` blocks start at or below `n`, the other ones above. */
  ghost predicate Between(nets: seq<Net>, n: Net, i: nat) {
    && i <= |nets|
    && (forall j :: 0 <= j < i ==> nets[j].ip <= n.ip)
    && (forall j :: i <= j < |nets| ==> n.ip < nets[j].ip)
  }

  /** `n` ends before its neighbour above and starts behind the end of the one below. */
  predicate FreeOfNeighbours(nets: seq<Net>, n: Net, i: nat)
    requires i <= |nets|
  {
    (i == 0 || Last(nets[i - 1]) < n.ip) && (i == |nets| || Last(n) < nets[i].ip)
  }

  lemma OverlapIs(a: Net, b: Net)
    ensures a.ip <= Last(a)
    ensures Overlap(a, b) <==> a.ip <= Last(b) && b.ip <= Last(a)
  {
    StartAndEnd(a);
    StartAndEnd(b);
    if a.ip <= Last(b) && b.ip <= Last(a) {
      var x := if a.ip < b.ip then b.ip else a.ip;
      assert Contains(a, x) && Contains(b, x);
    }
  }

  lemma StartAndEnd(n: Net)
    ensures n.ip <= Last(n)
  {
    LastIsEnd(n);
    SizeBounds(n.ones);
  }

  /** In an ordered list the two neighbours decide. */
  lemma FreeExactly(nets: seq<Net>, n: Net, i: nat)
    requires Ordered(nets) && Between(nets, n, i)
    ensures Free(n, nets) <==> FreeOfNeighbours(nets, n, i)
  {
    forall j | 0 <= j < |nets| ensures Overlap(n, nets[j]) <==> n.ip <= Last(nets[j]) && nets[j].ip <= Last(n) {
      OverlapIs(n, nets[j]);
    }
    OverlapIs(n, n);
    if FreeOfNeighbours(nets, n, i) {
      forall j | 0 <= j < |nets| ensures !Overlap(n, nets[j]) {
        if j < i {
          OverlapIs(nets[i - 1], nets[i - 1]);
          assert Last(nets[j]) <= Last(nets[i - 1]);
        } else {
          assert nets[i].ip <= nets[j].ip by { OverlapIs(nets[i], nets[i]); }
        }
      }
    }
  }

  /** The network in the queue is always free. */
  lemma QueueIsFree(nets: seq<Net>, maxi: Net, ones: Ones)
    requires nets != [] && Ordered(nets) && QueueRoom(nets, maxi, ones)
    ensures Free(NextNet(nets[|nets| - 1], ones), nets)
  {
    var last, n := nets[|nets| - 1], NextNet(nets[|nets| - 1], ones);
    NextStart(last, maxi, ones);
    forall j | 0 <= j < |nets| ensures Last(nets[j]) <= Last(last) {
      StartAndEnd(last);
    }
    AboveIsFree(nets, n, Last(last));
  }

  lemma NextStart(last: Net, maxi: Net, ones: Ones)
    requires Distance(Last(last), maxi.ip) > Size(ones)
    ensures NextNet(last, ones).ip == Last(last) + 1
  {
    WrapSmall(Last(last) + 1);
  }

  lemma AboveIsFree(nets: seq<Net>, n: Net, top: int)
    requires n.ip > top && forall j :: 0 <= j < |nets| ==> Last(nets[j]) <= top
    ensures Free(n, nets)
  {
  }

  /** The search stops with a candidate that meets one of its two neighbours. */
  ghost predicate StopsInBlock(nets: seq<Net>, t: Trace, maxi: Address, size: nat) {
    exists p: nat, i: nat ::
      StopsAt(t, maxi, size, 0, p) && Between(nets, t.slots[p], i) && !FreeOfNeighbours(nets, t.slots[p], i)
  }

  lemma {:induction false} SomePlace(nets: seq<Net>, n: Net) returns (i: nat)
    requires Ordered(nets)
    ensures Between(nets, n, i)
  {
    if nets == [] {
      i := 0;
    } else {
      var last := |nets| - 1;
      forall j | 0 <= j < last ensures nets[j].ip < nets[last].ip {
        StartAndEnd(nets[j]);
      }
      if nets[last].ip <= n.ip {
        i := |nets|;
      } else {
        i := SomePlace(nets[..last], n);
      }
    }
  }

  /** On ordered blocks of any mask a taken network is handed out exactly when there is no room in the queue and
      the search stops with a candidate that meets a neighbour. */
  lemma OverlapsExactly(nets: seq<Net>, mini: Net, maxi: Net, ones: Ones, t: Trace)
    requires Ordered(nets) && IsTrace(t, nets, mini, ones)
    ensures var r := Allocate(nets, mini, maxi, ones);
            r.Found? && !Free(r.net, nets) <==>
              nets != [] && !QueueRoom(nets, maxi, ones) && StopsInBlock(nets, t, maxi.ip, Size(ones))
  {
    if nets != [] {
      if QueueRoom(nets, maxi, ones) {
        QueueIsFree(nets, maxi, ones);
      } else {
        SearchExactly(nets, mini, maxi.ip, ones, t, 0);
        FoundIsTaken(nets, t, maxi.ip, Size(ones), Search(nets, mini, 0, maxi.ip, ones));
      }
    }
  }

  lemma FoundIsTaken(nets: seq<Net>, t: Trace, maxi: Address, size: nat, r: Outcome)
    requires Ordered(nets) && Reads(t, maxi, size, 0, r)
    ensures r.Found? && !Free(r.net, nets) <==> StopsInBlock(nets, t, maxi, size)
  {
    if r.Found? && !Free(r.net, nets) {
      var p: nat :| StopsAt(t, maxi, size, 0, p);
      var i := SomePlace(nets, r.net);
      FreeExactly(nets, r.net, i);
    }
    if p: nat, i: nat :|
      StopsAt(t, maxi, size, 0, p) && Between(nets, t.slots[p], i) && !FreeOfNeighbours(nets, t.slots[p], i) {
      FreeExactly(nets, t.slots[p], i);
    }
  }

  /** For every list there is one trace that says both: whether the choice leaves the list, and, on ordered
      blocks, whether it hands out a taken network. */
  lemma ChoiceExactly(nets: seq<Net>, mini: Net, maxi: Net, ones: Ones) returns (t: Trace)
    ensures IsTrace(t, nets, mini, ones)
    ensures var r, search := Allocate(nets, mini, maxi, ones), nets != [] && !QueueRoom(nets, maxi, ones);
            && (r.Panic? <==> search && RunsOff(t, maxi.ip, Size(ones), 0))
            && (Ordered(nets) ==>
                  (r.Found? && !Free(r.net, nets) <==> search && StopsInBlock(nets, t, maxi.ip, Size(ones))))
  {
    t := TraceExists(nets, mini, ones);
    PanicsExactly(nets, mini, maxi, ones, t);
    if Ordered(nets) {
      OverlapsExactly(nets, mini, maxi, ones, t);
    }
  }

  // ----- Two families

  /** It happens: an eight-address block over the range, pairs of addresses asked for. */
  lemma HandsOutTakenNetwork()
    ensures var nets, mini, maxi := [Net(0, 29), Net(12, 31)], Net(0, 31), Net(14, 31);
            && Ordered(nets) && Bounds(mini, maxi, 31)
            && Allocate(nets, mini, maxi, 31) == Found(Net(2, 31)) && Overlap(Net(2, 31), nets[0])
  {
    var nets, mini, maxi := [Net(0, 29), Net(12, 31)], Net(0, 31), Net(14, 31);
    assert Size(31) == 2 && Size(29) == 8;
    assert Aligned(nets[0]) && Aligned(nets[1]) && Aligned(mini) && Aligned(maxi) && Aligned(Net(2, 31));
    assert NextNet(mini, 31) == Net(2, 31);
    assert Contains(Net(2, 31), 2) && Contains(nets[0], 2);
    var n := Net(2, 31);
    SearchStep(nets, mini, 0, maxi.ip, 31, NetDistance(mini, nets[0]), n, 2);
    SearchStep(nets, n, 1, maxi.ip, 31, NetDistance(n, nets[1]), NextNet(n, 31), 2);
  }

  /** A lowest block below mini: the first comparison is with the wrong block. The search hands out mini,
      taken or not. */
  lemma BlockBelowMiniHidesTheOthers(nets: seq<Net>, mini: Net, maxi: Net, ones: Ones)
    requires nets != [] && !QueueRoom(nets, maxi, ones) && Bounds(mini, maxi, ones)
    requires Aligned(nets[0]) && nets[0].ones == ones && nets[0].ip < mini.ip
    ensures Allocate(nets, mini, maxi, ones) == Found(mini)
    ensures (forall i :: 0 <= i < |nets| ==> nets[i].ones == ones && Aligned(nets[i])) ==>
              ((exists i :: 0 <= i < |nets| && Overlap(mini, nets[i])) <==> Taken(nets, mini.ip))
  {
    UniformDistance(mini, nets[0]);
    if forall i :: 0 <= i < |nets| ==> nets[i].ones == ones && Aligned(nets[i]) {
      forall i | 0 <= i < |nets| ensures Overlap(mini, nets[i]) <==> nets[i].ip == mini.ip {
        UniformDistance(mini, nets[i]);
        if nets[i].ip == mini.ip {
          SizeBounds(ones);
          assert Contains(mini, mini.ip) && Contains(nets[i], mini.ip);
        }
      }
    }
  }
}
