/** The egress controller: the allocator and the endpoint store under one roof. */
module Egress {
  import opened Prelude
  import opened Allocator
  import opened Endpoints

  /** The controller as a value. */
  datatype EgressView = EgressView(free: set<Ipv4>, store: Store) {

    /** Free and registered addresses are disjoint, and the store's indexes are inverse. */
    ghost predicate Sound(pool: set<Ipv4>) {
      && store.Coherent() && free <= pool && store.byIp.Keys <= pool && free !! store.byIp.Keys
    }

    function Registered(name: string): Option<Ipv4> {
      if name in store.byName then Some(store.byName[name].containerIp) else None
    }

    function Add(name: string, ip: Ipv4): EgressView {
      EgressView(free - {ip}, store.Insert(AllocatedApp(name, ip)))
    }

    function Drop(name: string): EgressView {
      if name !in store.byName then this
      else EgressView(free + {store.byName[name].containerIp}, store.Remove(name))
    }

    /** Nothing stops a second endpoint under one name, and that is exactly what breaks the books. */
    lemma AddSound(pool: set<Ipv4>, name: string, ip: Ipv4)
      requires Sound(pool) && ip in pool && ip !in store.byIp
      ensures Add(name, ip).Sound(pool) <==> name !in store.byName
    {
      store.InsertCoherent(AllocatedApp(name, ip));
    }

    lemma DropSound(pool: set<Ipv4>, name: string)
      requires Sound(pool)
      ensures Drop(name).Sound(pool) && Drop(name).Registered(name).None?
    {
    }

    /** Releasing what was just allocated leaves no trace. */
    lemma DropUndoesAdd(pool: set<Ipv4>, name: string, ip: Ipv4)
      requires Sound(pool) && name !in store.byName && ip in free
      ensures Add(name, ip).Drop(name) == this
    {
    }

    /** The second release of a name finds nothing, so no address is returned twice. */
    lemma DropTwice(name: string)
      ensures Drop(name).Drop(name) == Drop(name)
    {
    }

    /** Endpoints of different names do not see each other's operations. */
    lemma DropCommutes(pool: set<Ipv4>, name: string, other: string)
      requires Sound(pool) && name != other
      ensures Drop(name).Drop(other) == Drop(other).Drop(name)
      ensures Drop(name).Registered(other) == Registered(other)
    {
    }
  }

  class EgressControl {
    const allocator: IpAllocator
    const endpoints: EndpointStore

    ghost predicate Valid()
      reads this, allocator, endpoints
    {
      View().Sound(Hosts())
    }

    ghost function View(): EgressView
      reads this, allocator, endpoints
    {
      EgressView(allocator.free, endpoints.View())
    }

    ghost function Hosts(): set<Ipv4>
    {
      Pool(allocator.subnet, allocator.bridgeIp)
    }

    constructor (allocator: IpAllocator)
      requires allocator.free <= Pool(allocator.subnet, allocator.bridgeIp)
      ensures Valid() && this.allocator == allocator && fresh(endpoints)
      ensures View() == EgressView(allocator.free, Store(map[], map[]))
    {
      this.allocator := allocator;
      this.endpoints := new EndpointStore();
    }

    /**
     * A failed attach puts the address back, so every failure leaves the
     * controller as it was; a success takes the lowest free address.
     */
    method AllocateEndpoint(name: string, parsed: bool, attached: bool) returns (ip: Option<Ipv4>)
      requires Valid()
      modifies allocator`free, endpoints
      ensures Valid() <==> ip.None? || old(View()).Registered(name).None?
      ensures ip.Some? <==> parsed && attached && old(View()).free != {}
      ensures ip.Some? ==> IsLowest(ip.value, old(View()).free) && View() == old(View()).Add(name, ip.value)
      ensures ip.None? ==> View() == old(View())
    {
      if !parsed {
        return None;
      }
      ip := allocator.Allocate();
      if ip.None? {
        return;
      }
      if !attached {
        allocator.Release(ip.value);
        return None;
      }
      endpoints.Insert(AllocatedApp(name, ip.value));
      old(View()).AddSound(Hosts(), name, ip.value);
    }

    /** Idempotent: a name without an endpoint is left alone. */
    method ReleaseEndpoint(name: string)
      requires Valid()
      modifies allocator`free, endpoints
      ensures Valid() && View() == old(View()).Drop(name)
    {
      var app := endpoints.RemoveByName(name);
      if app.Some? {
        assert app.value.containerIp in old(View()).store.byIp;
        allocator.Release(app.value.containerIp);
      }
      old(View()).DropSound(Hosts(), name);
    }

    /** Takes an address that a startup claim kept out of the free set. */
    method ReattachEndpoint(name: string, ip: Ipv4, parsed: bool) returns (ok: bool)
      requires Valid() && ip in Hosts() && ip !in View().free && ip !in View().store.byIp
      modifies endpoints
      ensures Valid() <==> !ok || old(View()).Registered(name).None?
      ensures ok == parsed
      ensures View() == if ok then old(View()).Add(name, ip) else old(View())
    {
      if parsed {
        endpoints.Insert(AllocatedApp(name, ip));
        old(View()).AddSound(Hosts(), name, ip);
      }
      ok := parsed;
    }

    method CleanupOrphanEndpoint(ip: Ipv4)
      requires Valid() && ip in Hosts() && ip !in View().store.byIp
      modifies allocator`free
      ensures Valid() && View() == old(View()).(free := old(View()).free + {ip})
    {
      allocator.Release(ip);
    }
  }

  /** What an earlier instance left behind, each entry to be taken exactly once. */
  class StartupClaims {
    var discovered: map<string, Ipv4>

    constructor (discovered: map<string, Ipv4>)
      ensures this.discovered == discovered
    {
      this.discovered := discovered;
    }

    method Claim(name: string) returns (ip: Option<Ipv4>)
      modifies this
      ensures ip == if name in old(discovered) then Some(old(discovered)[name]) else None
      ensures discovered == old(discovered) - {name}
    {
      ip := if name in discovered then Some(discovered[name]) else None;
      discovered := discovered - {name};
    }
  }

  /** Every discovered address is taken out of the free set before anyone can allocate. */
  method DiscoverExistingEndpoints(allocator: IpAllocator, found: map<string, Ipv4>)
    modifies allocator`free
    ensures allocator.free == old(allocator.free) - found.Values
  {
    var rest := found;
    while rest != map[]
      invariant rest.Keys <= found.Keys && forall n :: n in rest ==> rest[n] == found[n]
      invariant forall ip: Ipv4 :: ip in allocator.free <==>
                  ip in old(allocator.free) && forall n :: n in found && n !in rest ==> found[n] != ip
      decreases |rest|
    {
      var n :| n in rest;
      allocator.MarkUsed(rest[n]);
      ghost var before := rest;
      rest := rest - {n};
      assert forall m :: m in found && m !in rest <==> m in found && (m !in before || m == n);
      assert before == rest[n := before[n]];
    }
  }
}
