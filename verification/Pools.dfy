/** The resource counters and the holds that will be given back later (scheduler/resources.go). */
module Pools {
  import opened Wrappers

  /** One `Consume`: its context may be cancelled, then its goroutine gives the amounts back. */
  datatype Phase = Active | Cancelled | Released

  datatype Hold = Hold(cpu: int, ram: int, phase: Phase)

  datatype Usage = Usage(cpu: int, ram: int, processes: int)

  datatype Pool = Pool(totalCpu: int, totalRam: int, cpu: int, ram: int, processes: int, holds: seq<Hold>)

  function Fresh(cpu: int, ram: int): Pool {
    Pool(cpu, ram, cpu, ram, 0, [])
  }

  datatype CheckError = CpuNotPositive | TooMuchCpu | RamNotPositive | TooMuchRam

  /** The first objection to a demand, in the order of the code. */
  function CheckDemand(p: Pool, cpu: int, ram: int): Option<CheckError> {
    if cpu <= 0 then Some(CpuNotPositive)
    else if cpu > p.totalCpu then Some(TooMuchCpu)
    else if ram <= 0 then Some(RamNotPositive)
    else if ram > p.totalRam then Some(TooMuchRam)
    else None
  }

  /** The exact reason for each objection, all earlier tests being passed (scheduler/resources.go:29-43). */
  predicate DemandRefused(totalCpu: int, totalRam: int, cpu: int, ram: int, e: CheckError) {
    match e
    case CpuNotPositive => cpu <= 0
    case TooMuchCpu => cpu > 0 && cpu > totalCpu
    case RamNotPositive => 0 < cpu <= totalCpu && ram <= 0
    case TooMuchRam => 0 < cpu <= totalCpu && ram > 0 && ram > totalRam
  }

  lemma DemandRefusedIs(p: Pool, cpu: int, ram: int)
    ensures CheckDemand(p, cpu, ram).None? <==> 0 < cpu <= p.totalCpu && 0 < ram <= p.totalRam
    ensures forall e :: CheckDemand(p, cpu, ram) == Some(e) <==> DemandRefused(p.totalCpu, p.totalRam, cpu, ram, e)
  {
  }

  function Consume(p: Pool, cpu: int, ram: int): Pool {
    p.(cpu := p.cpu - cpu, ram := p.ram - ram, processes := p.processes + 1,
       holds := p.holds + [Hold(cpu, ram, Active)])
  }

  function CancelHold(p: Pool, i: nat): Pool
    requires i < |p.holds|
  {
    if p.holds[i].phase.Active? then p.(holds := p.holds[i := p.holds[i].(phase := Cancelled)]) else p
  }

  function Release(p: Pool, i: nat): Pool
    requires i < |p.holds|
  {
    var h := p.holds[i];
    p.(cpu := p.cpu + h.cpu, ram := p.ram + h.ram, processes := p.processes - 1,
       holds := p.holds[i := h.(phase := Released)])
  }

  predicate Doable(p: Pool, cpu: int, ram: int) {
    cpu <= p.cpu && ram <= p.ram
  }

  /** What the outstanding holds keep, all together. */
  function Held(holds: seq<Hold>): Usage {
    if holds == [] then Usage(0, 0, 0)
    else
      var u, h := Held(holds[..|holds| - 1]), holds[|holds| - 1];
      if h.phase.Released? then u else Usage(u.cpu + h.cpu, u.ram + h.ram, u.processes + 1)
  }

  /** Free amounts and held amounts add up to the totals; `processes` counts the holds. */
  ghost predicate Conserved(p: Pool) {
    Balanced(p, Held(p.holds))
  }

  predicate Balanced(p: Pool, u: Usage) {
    p.cpu + u.cpu == p.totalCpu && p.ram + u.ram == p.totalRam && p.processes == u.processes
  }

  function Plus(u: Usage, v: Usage): Usage {
    Usage(u.cpu + v.cpu, u.ram + v.ram, u.processes + v.processes)
  }

  function Minus(u: Usage, v: Usage): Usage {
    Usage(u.cpu - v.cpu, u.ram - v.ram, u.processes - v.processes)
  }

  function Share(h: Hold): Usage {
    if h.phase.Released? then Usage(0, 0, 0) else Usage(h.cpu, h.ram, 1)
  }

  /** Changing one hold changes the sum by the difference of the two shares. */
  lemma {:induction false} HeldUpdate(holds: seq<Hold>, i: nat, h: Hold)
    requires i < |holds|
    ensures Held(holds[i := h]) == Plus(Minus(Held(holds), Share(holds[i])), Share(h))
  {
    var n := |holds| - 1;
    if i < n {
      HeldUpdate(holds[..n], i, h);
      assert holds[i := h][..n] == holds[..n][i := h];
    } else {
      assert holds[i := h][..n] == holds[..n];
    }
  }

  lemma HeldAppend(holds: seq<Hold>, h: Hold)
    ensures Held(holds + [h]) == Plus(Held(holds), Share(h))
  {
    assert (holds + [h])[..|holds|] == holds;
  }

  lemma ConsumeConserves(p: Pool, cpu: int, ram: int)
    requires Conserved(p)
    ensures Conserved(Consume(p, cpu, ram))
  {
    var h, u, p' := Hold(cpu, ram, Active), Held(p.holds), Consume(p, cpu, ram);
    assert Balanced(p', Plus(u, Share(h)));
    HeldAppend(p.holds, h);
  }

  lemma CancelConserves(p: Pool, i: nat)
    requires Conserved(p) && i < |p.holds|
    ensures Conserved(CancelHold(p, i))
  {
    var h, u, p' := p.holds[i].(phase := Cancelled), Held(p.holds), CancelHold(p, i);
    if p.holds[i].phase.Active? {
      assert Balanced(p', Plus(Minus(u, Share(p.holds[i])), Share(h)));
      HeldUpdate(p.holds, i, h);
    }
  }

  lemma ReleaseConserves(p: Pool, i: nat)
    requires Conserved(p) && i < |p.holds| && p.holds[i].phase.Cancelled?
    ensures Conserved(Release(p, i))
  {
    var h, u, p' := p.holds[i].(phase := Released), Held(p.holds), Release(p, i);
    assert Balanced(p', Plus(Minus(u, Share(p.holds[i])), Share(h)));
    HeldUpdate(p.holds, i, h);
  }

  /** Every operation keeps free + held equal to the totals. A release counts only once its
      context is cancelled and only the first time. */
  lemma OperationsConserve(p: Pool, cpu: int, ram: int, i: nat)
    requires Conserved(p)
    ensures Conserved(Consume(p, cpu, ram))
    ensures i < |p.holds| ==> Conserved(CancelHold(p, i))
    ensures i < |p.holds| && p.holds[i].phase.Cancelled? ==> Conserved(Release(p, i))
  {
    ConsumeConserves(p, cpu, ram);
    if i < |p.holds| {
      CancelConserves(p, i);
      if p.holds[i].phase.Cancelled? {
        ReleaseConserves(p, i);
      }
    }
  }

  /** With positive demands the held amounts are non-negative, and all zero exactly when nothing is held. */
  lemma {:induction false} HeldBounds(holds: seq<Hold>)
    requires forall i :: 0 <= i < |holds| ==> holds[i].cpu > 0 && holds[i].ram > 0
    ensures Held(holds).cpu >= Held(holds).processes >= 0 && Held(holds).ram >= Held(holds).processes
    ensures Held(holds) == Usage(0, 0, 0) <==> forall i :: 0 <= i < |holds| ==> holds[i].phase.Released?
  {
    if holds != [] {
      var n := |holds| - 1;
      assert forall i :: 0 <= i < n ==> holds[..n][i] == holds[i];
      HeldBounds(holds[..n]);
    }
  }
}
