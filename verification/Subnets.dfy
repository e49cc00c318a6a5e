/** The choice of the next subnet (network/network.go:87-134). */
module Subnets {
  import opened Bits
  import opened Networks
  import opened Sorting

  /** Panic: the index of the list is out of range. */
  datatype Outcome = Found(net: Net) | BeyondMax | FullNetwork | Panic

  predicate Failed(r: Outcome) {
    r.BeyondMax? || r.FullNetwork?
  }

  ghost predicate SortedByIp(nets: seq<Net>) {
    forall i, j :: 0 <= i < j < |nets| ==> nets[i].ip <= nets[j].ip
  }

  /** The search loop, from candidate `n` and position `poz`. */
  function Search(nets: seq<Net>, n: Net, poz: nat, fMax: Address, ones: Ones): Outcome
    decreases |nets| - poz
  {
    if poz >= |nets| then Panic
    else
      var d := NetDistance(n, nets[poz]);
      var n' := NextNet(n, ones);
      if d < 0 then Search(nets, n', poz + 1, fMax, ones)
      else if d >= Size(ones) then Found(n)
      else if Distance(fMax, n'.ip) > 0 then BeyondMax
      else if poz + 1 == |nets| then FullNetwork
      else Search(nets, n', poz + 1, fMax, ones)
  }

  /** The whole choice on a sorted list. */
  function Allocate(nets: seq<Net>, mini: Net, maxi: Net, ones: Ones): Outcome {
    if nets == [] then Found(mini)
    else if Distance(Last(nets[|nets| - 1]), maxi.ip) > Size(ones) then Found(NextNet(nets[|nets| - 1], ones))
    else Search(nets, mini, 0, maxi.ip, ones)
  }

  // ----- The code: sort in place, then search

  method SortInPlace(networks: array<Net>)
    modifies networks
    ensures SortedByIp(networks[..]) && multiset(networks[..]) == multiset(old(networks[..]))
  {
    for n := 0 to networks.Length
      invariant SortedByIp(networks[..n])
      invariant multiset(networks[..]) == multiset(old(networks[..]))
    {
      assert networks[..n] == networks[..][..n];
      Sink(networks, n);
    }
    assert networks[..networks.Length] == networks[..];
  }

  /** Sorted up to `n`, but for the element at `i`, which may still be too small. */
  ghost predicate Sinking(nets: seq<Net>, n: nat, i: nat) {
    n < |nets| && forall a, b :: 0 <= a < b <= n && b != i ==> nets[a].ip <= nets[b].ip
  }

  function Swapped(nets: seq<Net>, i: nat): (r: seq<Net>)
    requires 0 < i < |nets|
    ensures multiset(r) == multiset(nets)
  {
    nets[i - 1 := nets[i]][i := nets[i - 1]]
  }

  lemma SwapSinks(nets: seq<Net>, n: nat, i: nat)
    requires Sinking(nets, n, i) && 0 < i <= n && nets[i - 1].ip > nets[i].ip
    ensures Sinking(Swapped(nets, i), n, i - 1)
  {
  }

  /** Moves element `n` down to its place among the sorted ones before it. */
  method Sink(networks: array<Net>, n: nat)
    requires n < networks.Length && Sinking(networks[..], n, n)
    modifies networks
    ensures SortedByIp(networks[..n + 1]) && multiset(networks[..]) == multiset(old(networks[..]))
  {
    var i := n;
    while i > 0 && networks[i - 1].ip > networks[i].ip
      invariant 0 <= i <= n && Sinking(networks[..], n, i)
      invariant multiset(networks[..]) == multiset(old(networks[..]))
    {
      SwapSinks(networks[..], n, i);
      ghost var swapped := Swapped(networks[..], i);
      networks[i - 1], networks[i] := networks[i], networks[i - 1];
      assert networks[..] == swapped;
      i := i - 1;
    }
    Sunk(networks[..], n, i);
    assert networks[..][..n + 1] == networks[..n + 1];
  }

  lemma Sunk(nets: seq<Net>, n: nat, i: nat)
    requires Sinking(nets, n, i) && i <= n && (i == 0 || nets[i - 1].ip <= nets[i].ip)
    ensures SortedByIp(nets[..n + 1])
  {
    forall a, b | 0 <= a < b <= n ensures nets[a].ip <= nets[b].ip {
      if b == i {
        assert a < i - 1 ==> nets[a].ip <= nets[i - 1].ip;
      }
    }
  }

  /** Sorts the caller's list and answers the choice on the sorted list; on uniform blocks, in any order, the
      answer is right for the list that came in. */
  method NextAvailableNetwork(networks: array<Net>, mini: Net, maxi: Net, ones: Ones) returns (r: Outcome)
    modifies networks
    ensures SortedByIp(networks[..]) && multiset(networks[..]) == multiset(old(networks[..]))
    ensures r == Allocate(networks[..], mini, maxi, ones)
    ensures Bounds(mini, maxi, ones) && Blocks(old(networks[..]), mini, ones) ==>
              Right(old(networks[..]), mini, maxi, ones, r)
  {
    ghost var nets := networks[..];
    if networks.Length == 0 {
      r := Found(mini);
    } else {
      SortInPlace(networks);
      r := Choose(networks, mini, maxi, ones);
    }
    if Bounds(mini, maxi, ones) && Blocks(nets, mini, ones) {
      ChoiceIsRight(nets, networks[..], mini, maxi, ones);
    }
  }

  /** The shortcut behind the highest block, or else the search. */
  method Choose(networks: array<Net>, mini: Net, maxi: Net, ones: Ones) returns (r: Outcome)
    requires networks.Length > 0
    ensures r == Allocate(networks[..], mini, maxi, ones)
  {
    var last := networks[networks.Length - 1];
    var d := Distance(Last(last), maxi.ip);
    var maskSize := MaskSize(ones);
    if d > maskSize {
      return Found(NextNet(last, ones));
    }
    r := Scan(networks, mini, maxi, ones, maskSize);
  }

  method MaskSize(ones: Ones) returns (size: int)
    ensures size == Size(ones)
  {
    size := IntPow(2, 32 - ones);
    PowerOfTwo(32 - ones);
  }

  /** The search loop over the sorted list. */
  method Scan(networks: array<Net>, mini: Net, maxi: Net, ones: Ones, maskSize: int) returns (r: Outcome)
    requires maskSize == Size(ones)
    ensures r == Search(networks[..], mini, 0, maxi.ip, ones)
  {
    var poz, n := 0, mini;
    while true
      invariant 0 <= poz <= networks.Length
      invariant Search(networks[..], n, poz, maxi.ip, ones) == Search(networks[..], mini, 0, maxi.ip, ones)
      decreases networks.Length - poz
    {
      if poz == networks.Length {
        return Panic;
      }
      var gap := NetDistance(n, networks[poz]);
      if gap < 0 {
        n := NextNet(n, ones);
        poz := poz + 1;
        continue;
      }
      if gap >= maskSize {
        return Found(n);
      }
      n := NextNet(n, ones);
      if Distance(maxi.ip, n.ip) > 0 {
        return BeyondMax;
      }
      poz := poz + 1;
      if poz == networks.Length {
        return FullNetwork;
      }
    }
  }

  // ----- What the choice promises on uniform blocks

  /** Distinct aligned blocks of the requested mask, at or above `mini`, sorted. */
  ghost predicate Uniform(nets: seq<Net>, mini: Net, ones: Ones) {
    && (forall i :: 0 <= i < |nets| ==> nets[i].ones == ones && Aligned(nets[i]) && mini.ip <= nets[i].ip)
    && (forall i, j :: 0 <= i < j < |nets| ==> nets[i].ip < nets[j].ip)
  }

  predicate Bounds(mini: Net, maxi: Net, ones: Ones) {
    mini.ones == ones && maxi.ones == ones && Aligned(mini) && Aligned(maxi) && mini.ip <= maxi.ip
  }

  ghost predicate Taken(nets: seq<Net>, ip: int) {
    exists i :: 0 <= i < |nets| && nets[i].ip == ip
  }

  /** Every slot from `lo` up to `hi` is in the list. */
  ghost predicate AllTaken(nets: seq<Net>, lo: int, hi: int, ones: Ones) {
    forall ip: nat {:trigger Taken(nets, ip)} :: lo <= ip < hi && Divides(Size(ones), ip) ==> Taken(nets, ip)
  }

  /** Two aligned blocks of one size overlap only if they are equal; else their distance is at least the size. */
  lemma UniformDistance(a: Net, b: Net)
    requires Aligned(a) && Aligned(b) && a.ones == b.ones
    ensures a.ip == b.ip ==> NetDistance(a, b) == 0
    ensures a.ip != b.ip ==> NetDistance(a, b) >= Size(a.ones) && !Overlap(a, b)
  {
    if a.ip < b.ip {
      AlignedGap(a.ip, b.ip, Size(a.ones));
    } else if b.ip < a.ip {
      AlignedGap(b.ip, a.ip, Size(a.ones));
    }
  }

  /** The slot after an aligned block: no wrap below the top of the address space. */
  lemma NextSlot(n: Net)
    requires Aligned(n)
    ensures n.ip + Size(n.ones) <= ADDRESSES
    ensures Aligned(NextNet(n, n.ones))
    ensures n.ip + Size(n.ones) < ADDRESSES ==> NextNet(n, n.ones).ip == n.ip + Size(n.ones)
    ensures n.ip + Size(n.ones) == ADDRESSES ==> NextNet(n, n.ones).ip == 0
  {
    var size := Size(n.ones);
    SizeBounds(n.ones);
    AlignedGap(n.ip, ADDRESSES, size);
    AlignedSum(n.ip, size);
    WrapSmall(n.ip + size);
  }

  lemma WrapSmall(x: nat)
    requires x <= ADDRESSES
    ensures x % ADDRESSES == if x < ADDRESSES then x else 0
  {
  }

  /** Where the search is: every slot below the candidate is taken, by the first `poz` blocks. */
  ghost predicate Progress(nets: seq<Net>, mini: Net, n: Net, poz: nat, ones: Ones) {
    && n.ones == ones && Aligned(n) && mini.ip <= n.ip
    && poz < |nets|
    && AllTaken(nets, mini.ip, n.ip, ones)
    && (forall i :: 0 <= i < poz ==> nets[i].ip < n.ip)
    && n.ip <= nets[poz].ip
  }

  /** What a search may answer. */
  ghost predicate Answer(nets: seq<Net>, mini: Net, maxi: Net, ones: Ones, r: Outcome) {
    match r
    case Panic => false
    case Found(n) =>
      && n.ones == ones && Aligned(n) && mini.ip <= n.ip <= maxi.ip
      && !Taken(nets, n.ip) && AllTaken(nets, mini.ip, n.ip, ones)
      && (exists i :: 0 <= i < |nets| && nets[i].ip > n.ip)
    case BeyondMax =>
      AllTaken(nets, mini.ip, maxi.ip, ones) && Taken(nets, maxi.ip) && maxi.ip + Size(ones) < ADDRESSES
    case FullNetwork =>
      && AllTaken(nets, mini.ip, maxi.ip, ones)
      && ((Taken(nets, maxi.ip) && maxi.ip + Size(ones) >= ADDRESSES)
          || forall i :: 0 <= i < |nets| ==> nets[i].ip < maxi.ip)
  }

  lemma {:induction false} SearchAnswers(nets: seq<Net>, mini: Net, maxi: Net, ones: Ones, n: Net, poz: nat)
    requires Bounds(mini, maxi, ones) && Uniform(nets, mini, ones) && Progress(nets, mini, n, poz, ones)
    requires n.ip <= maxi.ip <= nets[|nets| - 1].ip + Size(ones)
    ensures Answer(nets, mini, maxi, ones, Search(nets, n, poz, maxi.ip, ones))
    decreases |nets| - poz
  {
    UniformDistance(n, nets[poz]);
    if n.ip < nets[poz].ip {
      assert !Taken(nets, n.ip);
    } else {
      SearchAdvances(nets, mini, maxi, ones, n, poz);
      var n' := NextNet(n, ones);
      if !(Distance(maxi.ip, n'.ip) > 0) && poz + 1 < |nets| {
        SearchAnswers(nets, mini, maxi, ones, n', poz + 1);
      }
    }
  }

  /** One step over a taken slot: the next candidate keeps the progress, or the list or the range is over
      and nothing was free. */
  lemma SearchAdvances(nets: seq<Net>, mini: Net, maxi: Net, ones: Ones, n: Net, poz: nat)
    requires Bounds(mini, maxi, ones) && Uniform(nets, mini, ones) && Progress(nets, mini, n, poz, ones)
    requires n.ip <= maxi.ip <= nets[|nets| - 1].ip + Size(ones)
    requires n.ip == nets[poz].ip
    ensures var n' := NextNet(n, ones);
            if Distance(maxi.ip, n'.ip) > 0 || poz + 1 == |nets|
            then Answer(nets, mini, maxi, ones, if Distance(maxi.ip, n'.ip) > 0 then BeyondMax else FullNetwork)
            else Progress(nets, mini, n', poz + 1, ones) && n'.ip <= maxi.ip
  {
    NextSlot(n);
    TakenSlot(nets, mini.ip, n.ip, ones);
    SlotAfter(n, maxi);
    if poz + 1 < |nets| {
      SlotAfter(n, nets[poz + 1]);
    }
    Advanced(nets, mini, maxi, ones, n, NextNet(n, ones), poz);
  }

  /** One more taken slot. */
  lemma TakenSlot(nets: seq<Net>, lo: nat, ip: nat, ones: Ones)
    requires AllTaken(nets, lo, ip, ones) && Divides(Size(ones), ip) && Taken(nets, ip)
    ensures AllTaken(nets, lo, ip + Size(ones), ones)
  {
    var size := Size(ones);
    SizeBounds(ones);
    forall x: nat | lo <= x < ip + size && Divides(size, x) ensures Taken(nets, x) {
      if ip < x {
        AlignedGap(ip, x, size);
      }
    }
  }

  /** A higher slot starts at the end of this one or after it. */
  lemma SlotAfter(a: Net, b: Net)
    requires Aligned(a) && Aligned(b) && a.ones == b.ones
    ensures a.ip < b.ip ==> a.ip + Size(a.ones) <= b.ip
  {
    SizeBounds(a.ones);
    if a.ip < b.ip {
      AlignedGap(a.ip, b.ip, Size(a.ones));
    }
  }

  /** The step from `n` to `n'`, the slot after it (address 0 after the last one). */
  lemma Advanced(nets: seq<Net>, mini: Net, maxi: Net, ones: Ones, n: Net, n': Net, poz: nat)
    requires poz < |nets| && n.ip == nets[poz].ip && n.ip <= maxi.ip <= nets[|nets| - 1].ip + Size(ones)
    requires forall i, j :: 0 <= i < j < |nets| ==> nets[i].ip < nets[j].ip
    requires mini.ip <= n.ip && AllTaken(nets, mini.ip, n.ip + Size(ones), ones)
    requires n'.ones == ones && Aligned(n')
    requires n'.ip == if n.ip + Size(ones) < ADDRESSES then n.ip + Size(ones) else 0
    requires n.ip < maxi.ip ==> n.ip + Size(ones) <= maxi.ip
    requires poz + 1 < |nets| ==> n.ip + Size(ones) <= nets[poz + 1].ip
    ensures if Distance(maxi.ip, n'.ip) > 0 || poz + 1 == |nets|
            then Answer(nets, mini, maxi, ones, if Distance(maxi.ip, n'.ip) > 0 then BeyondMax else FullNetwork)
            else Progress(nets, mini, n', poz + 1, ones) && n'.ip <= maxi.ip
  {
    SizeBounds(ones);
  }

  ghost predicate Highest(nets: seq<Net>, ip: int) {
    forall j :: 0 <= j < |nets| ==> nets[j].ip <= ip
  }

  /** The slot after the highest block. */
  ghost predicate AfterHighest(nets: seq<Net>, ip: int, ones: Ones) {
    exists i :: 0 <= i < |nets| && nets[i].ip + Size(ones) == ip && Highest(nets, nets[i].ip)
  }

  ghost predicate Free(n: Net, nets: seq<Net>) {
    forall i :: 0 <= i < |nets| ==> !Overlap(n, nets[i])
  }

  /** Every slot from mini up to maxi is taken, and so is maxi itself unless no block lies at or above it. */
  ghost predicate Full(nets: seq<Net>, mini: Net, maxi: Net, ones: Ones) {
    && nets != [] && AllTaken(nets, mini.ip, maxi.ip, ones)
    && (Taken(nets, maxi.ip) || forall i :: 0 <= i < |nets| ==> nets[i].ip < maxi.ip)
  }

  /** The slot after the highest block starts below maxi. */
  ghost predicate RoomBehind(nets: seq<Net>, maxi: Net, ones: Ones, ip: int) {
    AfterHighest(nets, ip, ones) && ip < maxi.ip
  }

  /** The exact answer for the caller's list, in any order. For an empty list it is mini. If the slot after the
      highest block starts below maxi, it is that slot. Otherwise it is the lowest free slot from mini up to maxi,
      or an error if and only if the range is full: beyond the maximum when maxi itself is taken and not the last
      slot of all, else a full network. A found network is aligned, lies between mini and maxi and overlaps
      nothing. */
  ghost predicate Right(nets: seq<Net>, mini: Net, maxi: Net, ones: Ones, r: Outcome) {
    && !r.Panic?
    && (nets == [] ==> r == Found(mini))
    && (forall ip: Address :: RoomBehind(nets, maxi, ones, ip) ==> r == Found(Net(ip, ones)))
    && (r.Found? && !(exists ip: Address :: RoomBehind(nets, maxi, ones, ip)) ==>
          !Taken(nets, r.net.ip) && AllTaken(nets, mini.ip, r.net.ip, ones))
    && (r.Found? ==> r.net.ones == ones && Aligned(r.net) && mini.ip <= r.net.ip <= maxi.ip && Free(r.net, nets))
    && (Failed(r) <==> Full(nets, mini, maxi, ones))
    && (r.BeyondMax? <==>
          Full(nets, mini, maxi, ones) && Taken(nets, maxi.ip) && maxi.ip + Size(ones) < ADDRESSES)
  }

  /** In an ascending list there is room behind the highest block exactly when the shortcut is taken. */
  lemma RoomIsQueueRoom(nets: seq<Net>, mini: Net, maxi: Net, ones: Ones)
    requires Bounds(mini, maxi, ones) && Uniform(nets, mini, ones) && nets != []
    ensures forall ip: int :: AfterHighest(nets, ip, ones) <==> ip == nets[|nets| - 1].ip + Size(ones)
    ensures QueueRoom(nets, maxi, ones) <==> exists ip: Address :: RoomBehind(nets, maxi, ones, ip)
    ensures QueueRoom(nets, maxi, ones) ==>
              var r := NextNet(nets[|nets| - 1], ones);
              && RoomBehind(nets, maxi, ones, r.ip)
              && forall ip: Address :: RoomBehind(nets, maxi, ones, ip) ==> ip == r.ip
  {
    var last := nets[|nets| - 1];
    assert Highest(nets, last.ip);
    forall ip: int ensures AfterHighest(nets, ip, ones) <==> ip == last.ip + Size(ones) {
      if i :| 0 <= i < |nets| && nets[i].ip + Size(ones) == ip && Highest(nets, nets[i].ip) {
        assert last.ip <= nets[i].ip;
      }
    }
    QueueFits(nets, mini, maxi, ones);
    if last.ip + Size(ones) < maxi.ip {
      assert RoomBehind(nets, maxi, ones, last.ip + Size(ones));
    }
  }

  lemma AllocateFree(nets: seq<Net>, mini: Net, ones: Ones, n: Net)
    requires Uniform(nets, mini, ones) && n.ones == ones && Aligned(n) && !Taken(nets, n.ip)
    ensures Free(n, nets)
  {
    forall i | 0 <= i < |nets| ensures !Overlap(n, nets[i]) {
      assert nets[i].ip != n.ip;
      UniformDistance(n, nets[i]);
    }
  }

  lemma QueueAnswers(nets: seq<Net>, mini: Net, maxi: Net, ones: Ones)
    requires Bounds(mini, maxi, ones) && Uniform(nets, mini, ones) && nets != [] && QueueRoom(nets, maxi, ones)
    ensures Right(nets, mini, maxi, ones, Found(NextNet(nets[|nets| - 1], ones)))
  {
    var r := NextNet(nets[|nets| - 1], ones);
    QueueFits(nets, mini, maxi, ones);
    RoomIsQueueRoom(nets, mini, maxi, ones);
    assert !Taken(nets, r.ip);
    AllocateFree(nets, mini, ones, r);
  }

  lemma SearchIsRight(nets: seq<Net>, mini: Net, maxi: Net, ones: Ones, r: Outcome)
    requires Bounds(mini, maxi, ones) && Uniform(nets, mini, ones) && nets != [] && !QueueRoom(nets, maxi, ones)
    requires Answer(nets, mini, maxi, ones, r)
    ensures Right(nets, mini, maxi, ones, r)
  {
    RoomIsQueueRoom(nets, mini, maxi, ones);
    if r.Found? {
      AllocateFree(nets, mini, ones, r.net);
      if r.net.ip == maxi.ip {
        assert !Taken(nets, maxi.ip);
      }
    }
  }

  lemma AllocateAnswers(nets: seq<Net>, mini: Net, maxi: Net, ones: Ones)
    requires Bounds(mini, maxi, ones) && Uniform(nets, mini, ones)
    ensures Right(nets, mini, maxi, ones, Allocate(nets, mini, maxi, ones))
  {
    if nets != [] {
      QueueFits(nets, mini, maxi, ones);
      if QueueRoom(nets, maxi, ones) {
        QueueAnswers(nets, mini, maxi, ones);
      } else {
        SearchAnswers(nets, mini, maxi, ones, mini, 0);
        SearchIsRight(nets, mini, maxi, ones, Allocate(nets, mini, maxi, ones));
      }
    }
  }

  /** Distinct aligned blocks of the requested mask at or above `mini`, in any order. */
  ghost predicate Blocks(nets: seq<Net>, mini: Net, ones: Ones) {
    && (forall i :: 0 <= i < |nets| ==> nets[i].ones == ones && Aligned(nets[i]) && mini.ip <= nets[i].ip)
    && EachOnce(nets)
  }

  /** Sorting the caller's blocks gives strictly ascending ones. */
  lemma SortedBlocks(nets: seq<Net>, sorted: seq<Net>, mini: Net, ones: Ones)
    requires Blocks(nets, mini, ones) && SortedByIp(sorted) && multiset(sorted) == multiset(nets)
    ensures Uniform(sorted, mini, ones)
  {
    SameElements(sorted, nets);
    forall i | 0 <= i < |sorted| ensures sorted[i].ones == ones && Aligned(sorted[i]) && mini.ip <= sorted[i].ip {
      assert sorted[i] in nets;
    }
    forall i, j | 0 <= i < j < |sorted| ensures sorted[i].ip < sorted[j].ip {
      if sorted[i].ip == sorted[j].ip {
        CountedTwice(sorted, i, j);
        CountedOnce(nets, sorted[i]);
        assert false;
      }
    }
  }

  lemma TakenPermuted(nets: seq<Net>, sorted: seq<Net>, ip: int)
    requires forall n :: n in sorted <==> n in nets
    ensures Taken(sorted, ip) <==> Taken(nets, ip)
  {
    if i :| 0 <= i < |sorted| && sorted[i].ip == ip {
      assert sorted[i] in nets;
    }
    if i :| 0 <= i < |nets| && nets[i].ip == ip {
      assert nets[i] in sorted;
    }
  }

  lemma HighestPermuted(nets: seq<Net>, sorted: seq<Net>, ip: int, ones: Ones)
    requires forall n :: n in sorted <==> n in nets
    ensures AfterHighest(sorted, ip, ones) <==> AfterHighest(nets, ip, ones)
  {
    forall i | 0 <= i < |nets| ensures nets[i] in sorted {
    }
    forall i | 0 <= i < |sorted| ensures sorted[i] in nets {
    }
    if i :| 0 <= i < |sorted| && sorted[i].ip + Size(ones) == ip && Highest(sorted, sorted[i].ip) {
      var k :| 0 <= k < |nets| && nets[k] == sorted[i];
      assert Highest(nets, nets[k].ip);
    }
    if i :| 0 <= i < |nets| && nets[i].ip + Size(ones) == ip && Highest(nets, nets[i].ip) {
      var k :| 0 <= k < |sorted| && sorted[k] == nets[i];
      assert Highest(sorted, sorted[k].ip);
    }
  }

  lemma RightPermuted(nets: seq<Net>, sorted: seq<Net>, mini: Net, maxi: Net, ones: Ones, r: Outcome)
    requires multiset(sorted) == multiset(nets) && Right(sorted, mini, maxi, ones, r)
    ensures Right(nets, mini, maxi, ones, r)
  {
    SameElements(sorted, nets);
    forall ip: int ensures Taken(sorted, ip) <==> Taken(nets, ip) {
      TakenPermuted(nets, sorted, ip);
    }
    forall ip: int ensures RoomBehind(sorted, maxi, ones, ip) <==> RoomBehind(nets, maxi, ones, ip) {
      HighestPermuted(nets, sorted, ip, ones);
    }
    forall i | 0 <= i < |nets| ensures nets[i] in sorted {
    }
    forall i | 0 <= i < |sorted| ensures sorted[i] in nets {
    }
  }

  /** The choice is right for the caller's list, in whatever order it comes. */
  lemma ChoiceIsRight(nets: seq<Net>, sorted: seq<Net>, mini: Net, maxi: Net, ones: Ones)
    requires Bounds(mini, maxi, ones) && Blocks(nets, mini, ones)
    requires SortedByIp(sorted) && multiset(sorted) == multiset(nets)
    ensures Right(nets, mini, maxi, ones, Allocate(sorted, mini, maxi, ones))
  {
    SortedBlocks(nets, sorted, mini, ones);
    AllocateAnswers(sorted, mini, maxi, ones);
    RightPermuted(nets, sorted, mini, maxi, ones, Allocate(sorted, mini, maxi, ones));
  }

  predicate QueueRoom(nets: seq<Net>, maxi: Net, ones: Ones)
    requires nets != []
  {
    Distance(Last(nets[|nets| - 1]), maxi.ip) > Size(ones)
  }

  /** The shortcut: the slot after the highest block lies wholly below maxi. */
  lemma QueueFits(nets: seq<Net>, mini: Net, maxi: Net, ones: Ones)
    requires Bounds(mini, maxi, ones) && Uniform(nets, mini, ones) && nets != []
    ensures QueueRoom(nets, maxi, ones) <==> nets[|nets| - 1].ip + Size(ones) < maxi.ip
    ensures QueueRoom(nets, maxi, ones) ==>
              var r := NextNet(nets[|nets| - 1], ones);
              Aligned(r) && r.ip == nets[|nets| - 1].ip + Size(ones)
              && (forall i :: 0 <= i < |nets| ==> nets[i].ip < r.ip)
  {
    var n := nets[|nets| - 1];
    NextSlot(n);
    SlotAfter(NextNet(n, ones), maxi);
    SizeBounds(ones);
  }

  /** A choice fails exactly when the range is full. */
  lemma FailsExactly(nets: seq<Net>, mini: Net, maxi: Net, ones: Ones)
    requires Bounds(mini, maxi, ones) && Uniform(nets, mini, ones)
    ensures Failed(Allocate(nets, mini, maxi, ones)) <==> Full(nets, mini, maxi, ones)
  {
    AllocateAnswers(nets, mini, maxi, ones);
  }

  // ----- Capacity

  /** The list after k successive choices, each one appended by the caller. */
  function Grown(mini: Net, maxi: Net, ones: Ones, k: nat): seq<Net> {
    if k == 0 then [] else Extended(Grown(mini, maxi, ones, k - 1), mini, maxi, ones)
  }

  function Extended(nets: seq<Net>, mini: Net, maxi: Net, ones: Ones): seq<Net> {
    match Allocate(nets, mini, maxi, ones)
    case Found(n) => nets + [n]
    case _ => nets
  }

  /** The length of `k` slots in a row. */
  function Span(k: nat, size: nat): nat {
    if k == 0 then 0 else Span(k - 1, size) + size
  }

  lemma {:induction false} SpanIs(k: nat, size: nat)
    ensures Span(k, size) == k * size
  {
    if k > 0 {
      SpanIs(k - 1, size);
    }
  }

  lemma {:induction false} SpanMonotone(k: nat, c: nat, size: nat)
    requires k <= c
    ensures Span(k, size) <= Span(c, size)
    decreases c
  {
    if k < c {
      SpanMonotone(k, c - 1, size);
    }
  }

  /** `c` slots fit exactly between mini and maxi. */
  predicate Capacity(mini: Net, maxi: Net, ones: Ones, c: nat) {
    Bounds(mini, maxi, ones) && c > 0 && mini.ip + Span(c, Size(ones)) == maxi.ip
  }

  /** The number of slots between aligned bounds is the length of the range divided by the size. */
  lemma CapacityExists(mini: Net, maxi: Net, ones: Ones) returns (c: nat)
    requires Bounds(mini, maxi, ones) && mini.ip < maxi.ip
    ensures Capacity(mini, maxi, ones, c) && c == Quotient(maxi.ip - mini.ip, Size(ones))
  {
    SizeBounds(ones);
    c := SlotIndex(mini.ip, maxi.ip, Size(ones));
    SpanIs(c, Size(ones));
    QuotientIs(maxi.ip - mini.ip, Size(ones), c);
  }

  /** Consecutive slots from mini on. */
  ghost predicate FirstSlots(nets: seq<Net>, mini: Net, ones: Ones) {
    forall i :: 0 <= i < |nets| ==> nets[i].ip == mini.ip + Span(i, Size(ones)) && nets[i].ones == ones
  }

  /** The k-th slot, below the capacity, ends below maxi. */
  lemma SlotBelow(mini: Net, maxi: Net, ones: Ones, c: nat, k: nat)
    requires Capacity(mini, maxi, ones, c) && k < c
    ensures mini.ip + Span(k, Size(ones)) + Size(ones) <= maxi.ip
  {
    SpanMonotone(k + 1, c, Size(ones));
  }

  /** The choice on the first |nets| slots, below the capacity, is the next slot. */
  lemma NextSlotIsChosen(mini: Net, maxi: Net, ones: Ones, c: nat, nets: seq<Net>)
    requires Capacity(mini, maxi, ones, c) && |nets| < c
    requires Uniform(nets, mini, ones) && FirstSlots(nets, mini, ones)
    ensures var r := Allocate(nets, mini, maxi, ones);
            && r.Found? && r.net.ones == ones && Aligned(r.net)
            && r.net.ip == mini.ip + Span(|nets|, Size(ones))
            && forall i :: 0 <= i < |nets| ==> nets[i].ip < r.net.ip
  {
    if nets != [] {
      SlotBelow(mini, maxi, ones, c, |nets|);
      var last := nets[|nets| - 1];
      assert last.ip + Size(ones) == mini.ip + Span(|nets|, Size(ones));
      QueueFits(nets, mini, maxi, ones);
      assert QueueRoom(nets, maxi, ones);
    }
  }

  lemma AppendSlot(nets: seq<Net>, n: Net, mini: Net, ones: Ones)
    requires Uniform(nets, mini, ones) && FirstSlots(nets, mini, ones)
    requires n.ones == ones && Aligned(n) && n.ip == mini.ip + Span(|nets|, Size(ones))
    requires forall i :: 0 <= i < |nets| ==> nets[i].ip < n.ip
    ensures Uniform(nets + [n], mini, ones) && FirstSlots(nets + [n], mini, ones)
  {
  }

  /** From an empty list, the first (maxi - mini) / size choices succeed, with consecutive and so pairwise
      disjoint slots from mini on... */
  lemma {:induction false} GrownSlots(mini: Net, maxi: Net, ones: Ones, c: nat, k: nat)
    requires Capacity(mini, maxi, ones, c) && k <= c
    ensures var nets := Grown(mini, maxi, ones, k);
            |nets| == k && FirstSlots(nets, mini, ones) && Uniform(nets, mini, ones)
  {
    if k > 0 {
      GrownSlots(mini, maxi, ones, c, k - 1);
      var nets := Grown(mini, maxi, ones, k - 1);
      NextSlotIsChosen(mini, maxi, ones, c, nets);
      AppendSlot(nets, Allocate(nets, mini, maxi, ones).net, mini, ones);
      assert Grown(mini, maxi, ones, k) == Extended(nets, mini, maxi, ones);
    }
  }

  /** The networks handed out are pairwise disjoint. */
  lemma GrownDisjoint(mini: Net, maxi: Net, ones: Ones, c: nat, k: nat, i: nat, j: nat)
    requires Capacity(mini, maxi, ones, c) && k <= c && i < j < k
    ensures |Grown(mini, maxi, ones, k)| == k
    ensures !Overlap(Grown(mini, maxi, ones, k)[i], Grown(mini, maxi, ones, k)[j])
  {
    GrownSlots(mini, maxi, ones, c, k);
    var nets := Grown(mini, maxi, ones, k);
    UniformDistance(nets[i], nets[j]);
  }

  /** ...after which every choice fails. */
  lemma CapacityExhausted(mini: Net, maxi: Net, ones: Ones, c: nat)
    requires Capacity(mini, maxi, ones, c)
    ensures Failed(Allocate(Grown(mini, maxi, ones, c), mini, maxi, ones))
  {
    var size, nets := Size(ones), Grown(mini, maxi, ones, c);
    SizeBounds(ones);
    GrownSlots(mini, maxi, ones, c, c);
    forall ip: nat | mini.ip <= ip < maxi.ip && Divides(size, ip) ensures Taken(nets, ip) {
      var i := SlotIndex(mini.ip, ip, size);
      if i >= c {
        SpanMonotone(c, i, size);
      }
      assert nets[i].ip == ip;
    }
    forall i | 0 <= i < |nets| ensures nets[i].ip < maxi.ip {
      SlotBelow(mini, maxi, ones, c, i);
    }
    FailsExactly(nets, mini, maxi, ones);
  }

  /** An aligned address is a whole number of slots above another one. */
  lemma {:induction false} SlotIndex(a: nat, b: nat, m: nat) returns (i: nat)
    requires m > 0 && Divides(m, a) && Divides(m, b) && a <= b
    ensures b == a + Span(i, m)
    decreases b
  {
    if a == b {
      i := 0;
    } else {
      AlignedGap(a, b, m);
      var rest := SlotIndex(a, b - m, m);
      i := rest + 1;
    }
  }

  lemma {:induction false} FullStays(mini: Net, maxi: Net, ones: Ones, c: nat, k: nat)
    requires k >= c && Failed(Allocate(Grown(mini, maxi, ones, c), mini, maxi, ones))
    ensures Grown(mini, maxi, ones, k) == Grown(mini, maxi, ones, c)
    decreases k
  {
    if k > c {
      FullStays(mini, maxi, ones, c, k - 1);
    }
  }

  /** Once the capacity is used up the list stays as it is. */
  lemma GrownStops(mini: Net, maxi: Net, ones: Ones, c: nat, k: nat)
    requires Capacity(mini, maxi, ones, c) && k >= c
    ensures Grown(mini, maxi, ones, k) == Grown(mini, maxi, ones, c)
    ensures Failed(Allocate(Grown(mini, maxi, ones, k), mini, maxi, ones))
  {
    CapacityExhausted(mini, maxi, ones, c);
    FullStays(mini, maxi, ones, c, k);
  }
}
