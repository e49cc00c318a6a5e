/** The resource counters as the object the scheduler shares (scheduler/resources.go). */
module Resources {
  import opened Wrappers
  import opened Pools

  class Resources {
    const totalRam: int
    const totalCpu: int
    var ram: int
    var cpu: int
    var processes: int
    /** One entry per Consume: the goroutine that waits for the context to be cancelled. */
    var holds: seq<Hold>

    ghost function View(): Pool
      reads this
    {
      Pool(totalCpu, totalRam, cpu, ram, processes, holds)
    }

    /** Free and held amounts add up. */
    ghost predicate Valid()
      reads this
    {
      Conserved(View())
    }

    constructor (cpu: int, ram: int)
      ensures View() == Pools.Fresh(cpu, ram) && Valid()
    {
      this.totalRam, this.ram, this.totalCpu, this.cpu, this.processes, this.holds := ram, ram, cpu, cpu, 0, [];
    }

    /** Accepts a demand exactly when both parts are positive and within the totals. */
    method Check(cpu: int, ram: int) returns (error: Option<CheckError>)
      ensures error == CheckDemand(View(), cpu, ram)
      ensures error.None? <==> 0 < cpu <= totalCpu && 0 < ram <= totalRam
      ensures forall e :: error == Some(e) <==> DemandRefused(totalCpu, totalRam, cpu, ram, e)
    {
      if cpu <= 0 {
        return Some(CpuNotPositive);
      }
      if cpu > totalCpu {
        return Some(TooMuchCpu);
      }
      if ram <= 0 {
        return Some(RamNotPositive);
      }
      if ram > totalRam {
        return Some(TooMuchRam);
      }
      return None;
    }

    method Consume(cpu: int, ram: int) returns (hold: nat)
      requires Valid()
      modifies this
      ensures View() == Pools.Consume(old(View()), cpu, ram)
      ensures this.cpu == old(this.cpu) - cpu && this.ram == old(this.ram) - ram && processes == old(processes) + 1
      ensures hold == |old(holds)| && holds == old(holds) + [Hold(cpu, ram, Active)]
      ensures Valid()
    {
      ConsumeConserves(View(), cpu, ram);
      this.cpu := this.cpu - cpu;
      this.ram := this.ram - ram;
      processes := processes + 1;
      hold := |holds|;
      holds := holds + [Hold(cpu, ram, Active)];
    }

    /** Cancels the context given to Consume; a second cancel does nothing. */
    method CancelContext(hold: nat)
      requires Valid() && hold < |holds|
      modifies this
      ensures View() == CancelHold(old(View()), hold)
      ensures cpu == old(cpu) && ram == old(ram) && processes == old(processes)
      ensures old(holds)[hold].phase.Active? ==>
                holds == old(holds)[hold := Hold(old(holds)[hold].cpu, old(holds)[hold].ram, Cancelled)]
      ensures !old(holds)[hold].phase.Active? ==> holds == old(holds)
      ensures Valid()
    {
      CancelConserves(View(), hold);
      if holds[hold].phase.Active? {
        holds := holds[hold := holds[hold].(phase := Cancelled)];
      }
    }

    /** The goroutine of a cancelled context gives its amounts back, once. */
    method GiveBack(hold: nat)
      requires Valid() && hold < |holds| && holds[hold].phase.Cancelled?
      modifies this
      ensures View() == Pools.Release(old(View()), hold)
      ensures cpu == old(cpu) + old(holds)[hold].cpu && ram == old(ram) + old(holds)[hold].ram
      ensures processes == old(processes) - 1
      ensures holds == old(holds)[hold := Hold(old(holds)[hold].cpu, old(holds)[hold].ram, Released)]
      ensures Valid()
    {
      ReleaseConserves(View(), hold);
      cpu := cpu + holds[hold].cpu;
      ram := ram + holds[hold].ram;
      processes := processes - 1;
      holds := holds[hold := holds[hold].(phase := Released)];
    }

    /** Consuming this demand now would over-commit nothing. */
    method IsDoable(cpu: int, ram: int) returns (ok: bool)
      ensures var after := Pools.Consume(View(), cpu, ram); ok <==> after.cpu >= 0 && after.ram >= 0
    {
      return cpu <= this.cpu && ram <= this.ram;
    }
  }
}
