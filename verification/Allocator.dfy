/** The address allocator of the bridge subnet. */
module Allocator {
  import opened Prelude

  /** A CIDR block, by its first (network) and last (broadcast) address. */
  datatype Subnet = Subnet(network: Ipv4, broadcast: Ipv4) {
    predicate Valid() { network <= broadcast }

    predicate Contains(ip: Ipv4) { network <= ip <= broadcast }

    /** Blocks of one or two addresses have no network or broadcast address of their own. */
    predicate IsHost(ip: Ipv4) {
      Contains(ip) && (broadcast - network > 1 ==> ip != network && ip != broadcast)
    }
  }

  /** Every address the allocator may ever hand out. */
  ghost function Pool(subnet: Subnet, bridgeIp: Ipv4): set<Ipv4> {
    set ip: Ipv4 | subnet.network <= ip <= subnet.broadcast && subnet.IsHost(ip) && ip != bridgeIp
  }

  /** All addresses of the block but the bridge; a block of more than two loses its first and its last as well. */
  lemma PoolExact(subnet: Subnet, bridgeIp: Ipv4, ip: Ipv4)
    ensures ip in Pool(subnet, bridgeIp) <==>
              && subnet.network <= ip <= subnet.broadcast && ip != bridgeIp
              && (subnet.broadcast > subnet.network + 1 ==> subnet.network < ip < subnet.broadcast)
  {
  }

  ghost predicate IsLowest(ip: Ipv4, free: set<Ipv4>) {
    ip in free && forall j :: j in free ==> ip <= j
  }

  lemma LowestExists(free: set<Ipv4>)
    requires free != {}
    ensures exists ip :: IsLowest(ip, free)
  {
    var x :| x in free;
    if free == {x} {
      assert IsLowest(x, free);
    } else {
      LowestExists(free - {x});
      var y :| IsLowest(y, free - {x});
      assert forall j :: j in free ==> j == x || j in free - {x};
      assert IsLowest(if x < y then x else y, free);
    }
  }

  /** What `release` leaves: only the bridge and foreign addresses are refused. */
  function AfterRelease(subnet: Subnet, bridgeIp: Ipv4, free: set<Ipv4>, ip: Ipv4): set<Ipv4> {
    if ip != bridgeIp && subnet.Contains(ip) then free + {ip} else free
  }

  /**
   * The guard of `release` protects the pool against everything but the
   * network and broadcast address of the subnet itself.
   */
  lemma ReleaseStaysInPool(subnet: Subnet, bridgeIp: Ipv4, free: set<Ipv4>, ip: Ipv4)
    requires free <= Pool(subnet, bridgeIp)
    ensures AfterRelease(subnet, bridgeIp, free, ip) <= Pool(subnet, bridgeIp)
            <==> ip == bridgeIp || !subnet.Contains(ip) || subnet.IsHost(ip)
  {
  }

  class IpAllocator {
    const subnet: Subnet
    const bridgeIp: Ipv4
    var free: set<Ipv4>

    constructor (subnet: Subnet, bridgeIp: Ipv4)
      requires subnet.Valid()
      ensures this.subnet == subnet && this.bridgeIp == bridgeIp
      ensures free == Pool(subnet, bridgeIp)
    {
      this.subnet, this.bridgeIp := subnet, bridgeIp;
      var hosts: set<Ipv4> := {};
      for ip: int := subnet.network to subnet.broadcast + 1
        invariant hosts == set h: Ipv4 | subnet.network <= h < ip && subnet.IsHost(h) && h != bridgeIp
      {
        if subnet.IsHost(ip) && ip != bridgeIp {
          hosts := hosts + {ip};
        }
      }
      free := hosts;
    }

    /** `None` exactly when the subnet is exhausted, else the lowest free address. */
    method Allocate() returns (ip: Option<Ipv4>)
      modifies `free
      ensures ip.None? <==> old(free) == {}
      ensures ip.Some? ==> IsLowest(ip.value, old(free)) && free == old(free) - {ip.value}
      ensures ip.None? ==> free == old(free)
    {
      if free == {} {
        return None;
      }
      LowestExists(free);
      var lowest :| lowest in free && forall j :: j in free ==> lowest <= j;
      free := free - {lowest};
      ip := Some(lowest);
    }

    /** The free set stays within the pool exactly when the guard, or the caller, keeps special addresses out. */
    method Release(ip: Ipv4)
      modifies `free
      ensures free == AfterRelease(subnet, bridgeIp, old(free), ip)
      ensures old(free) <= Pool(subnet, bridgeIp) ==>
                (free <= Pool(subnet, bridgeIp) <==> ip == bridgeIp || !subnet.Contains(ip) || subnet.IsHost(ip))
    {
      if old(free) <= Pool(subnet, bridgeIp) { ReleaseStaysInPool(subnet, bridgeIp, old(free), ip); }
      if ip != bridgeIp && subnet.Contains(ip) {
        free := free + {ip};
      }
    }

    method MarkUsed(ip: Ipv4)
      modifies `free
      ensures free == old(free) - {ip}
    {
      free := free - {ip};
    }

    /** True of what was handed out, but also of the network and broadcast address. */
    predicate IsAllocated(ip: Ipv4): (r: bool)
      reads this
      ensures r <==> ip !in free && (ip in Pool(subnet, bridgeIp)
                                     || (ip != bridgeIp && subnet.Contains(ip) && !subnet.IsHost(ip)))
    {
      ip != bridgeIp && subnet.Contains(ip) && ip !in free
    }
  }

  /**
   * Startup: the allocator refuses a bridge outside the subnet and a subnet
   * without a free host, and otherwise begins with the whole pool; its probe
   * leaves no trace.
   */
  method InitAllocator(subnet: Subnet, bridgeIp: Ipv4) returns (a: Option<IpAllocator>)
    requires subnet.Valid()
    ensures a.None? <==> !subnet.Contains(bridgeIp) || Pool(subnet, bridgeIp) == {}
    ensures a.Some? ==>
              && fresh(a.value) && a.value.subnet == subnet && a.value.bridgeIp == bridgeIp
              && a.value.free == Pool(subnet, bridgeIp)
  {
    if !subnet.Contains(bridgeIp) {
      return None;
    }
    var allocator := new IpAllocator(subnet, bridgeIp);
    var probe := allocator.Allocate();
    if probe.None? {
      return None;
    }
    allocator.Release(probe.value);
    assert allocator.free == Pool(subnet, bridgeIp);
    a := Some(allocator);
  }
}
