/** Boot with the guest images measured: which VMs start out trusted. */
module Attest {
  import opened Words
  import opened Octets
  import opened Stage2Spec
  import opened HvSpec
  import HvBoot
  import opened Hypervisor
  import opened Measure

  function VmName(id: int): string {
    if id == 1 then "linux" else if id == 2 then "rtos" else "android"
  }

  /** The VMs whose image is not rejected. */
  function Passed(guests: seq<Guest>, mem: Bytes): set<int>
    requires AllLoaded(guests, mem)
  {
    set id | 1 <= id <= 3 && !Rejected(guests, mem, VmName(id))
  }

  method MeasureAll(guests: seq<Guest>, mem: Bytes) returns (passed: set<int>)
    requires AllLoaded(guests, mem)
    ensures passed == Passed(guests, mem)
  {
    hide Rejected, VmName;
    passed := {};
    var id := 1;
    while id <= 3
      invariant 1 <= id <= 4
      invariant passed == set j | 1 <= j < id && !Rejected(guests, mem, VmName(j))
    {
      var v := MeasureGuest(guests, mem, VmName(id));
      if v != Mismatch {
        passed := passed + {id};
      }
      id := id + 1;
    }
  }

  /** From reset through the measurements to the running machine. */
  method PowerOn(es: seq<HvBoot.Entry>, guests: seq<Guest>, mem: Bytes, now: u64) returns (hv: Hypervisor, e: Err)
    requires AllLoaded(guests, mem)
    ensures hv.tables.parked <==> Tables(HvBoot.PlatformInit(es).hv.s2) > POOL_PAGES
    ensures !hv.tables.parked ==> hv.Valid() && e == HvBoot.PlatformInit(es).err
    ensures !hv.tables.parked && e == Ok ==> hv.State() == HvBoot.Boot(es, Passed(guests, mem), now)
  {
    var passed := MeasureAll(guests, mem);
    hv, e := BringUp(es, passed, now);
  }

  /** After boot a VM is quarantined exactly when its descriptor has a golden value and
      the image in memory does not hash to it, and trusted otherwise. It runs either way. */
  lemma BootJudges(es: seq<HvBoot.Entry>, guests: seq<Guest>, mem: Bytes, now: u64, id: int)
    requires HvBoot.AllFit(es) && AllLoaded(guests, mem) && 1 <= id <= 3
    ensures var g := HvBoot.Boot(es, Passed(guests, mem), now);
            && Sized(g) && |g.vms| == 3 && g.vms[id - 1].state == Running
            && var name := ["linux", "rtos", "android"][id - 1];
            && g.trust.recs[id - 1].level == if Rejected(guests, mem, name) then Quarantine else Trusted
  {
    assert VmName(id) == ["linux", "rtos", "android"][id - 1];
    hide Rejected, VmName, HvBoot.Boot;
    HvBoot.BootIsSound(es, Passed(guests, mem), now);
  }
}
