/**
 * From one process to the next: what recovery leaves behind is a state from
 * which every guarantee of the running host holds.
 */
module Restart {
  import opened Prelude
  import opened Handle
  import opened Allocator
  import opened Endpoints
  import opened Egress
  import opened AppHost
  import opened Boot
  import opened HostLink
  import opened Rollover
  import opened RolloverInvariant

  import F = Fleet
  import T = RolloverTheorems

  /** The app as recovery leaves it, with no operation in flight. */
  function AppAfter(d: Disk, v: HostView, name: string): App {
    var slot := d.SlotOf(name);
    App(d.StateOf(name), slot, SideOf(v, ContainerId(name, Slot.A)), SideOf(v, ContainerId(name, Slot.B)), map[],
        T.RestHistory(SideOf(v, ContainerId(name, slot)).endpoint, slot))
  }

  /** All apps that recovery could settle. */
  function HostAfter(d: Disk, names: seq<string>, v: HostView): F.Host {
    F.Host(map n | n in names && d.Recoverable(n) :: AppAfter(d, v, n), v.egress.free)
  }

  /** What `Boot.Recover` establishes, as facts about values. */
  ghost predicate Recovered(d: Disk, names: seq<string>, v: HostView, pool: set<Ipv4>) {
    && v.egress.Sound(pool)
    && v.egress.free == pool - v.egress.store.byIp.Keys - d.LostAddresses(names)
    && (forall cid :: Resolved(d, names, v, cid))
    && WellDiscovered(d.claims, pool)
    && forall i :: 0 <= i < |names| ==>
         (v.Settled(names[i], d.StateOf(names[i]), d.SlotOf(names[i])) <==> d.Recoverable(names[i]))
  }

  lemma EndpointsApart(v: HostView, pool: set<Ipv4>, c: string, d: string, ip: Ipv4)
    requires v.egress.Sound(pool) && v.egress.Registered(c) == Some(ip)
    ensures ip !in v.egress.free && ip in v.egress.store.byIp
    ensures v.egress.Registered(d) == Some(ip) ==> c == d
  {
    if v.egress.Registered(d) == Some(ip) { v.egress.store.AddressesDistinct(c, d); }
  }

  lemma AppRests(d: Disk, names: seq<string>, v: HostView, pool: set<Ipv4>, name: string)
    requires Recovered(d, names, v, pool) && name in names && d.Recoverable(name)
    ensures T.Rested(World(AppAfter(d, v, name), v.egress.free))
  {
    var app, a, b := AppAfter(d, v, name), ContainerId(name, Slot.A), ContainerId(name, Slot.B);
    var w := World(app, v.egress.free);
    var i :| 0 <= i < |names| && names[i] == name;
    SettledAgrees(w, v, name);
    ContainerIdInjective(name, Slot.A, name, Slot.B);
    if app.sideA.endpoint.Some? { EndpointsApart(v, pool, a, b, app.sideA.endpoint.value); }
    if app.sideB.endpoint.Some? { EndpointsApart(v, pool, b, a, app.sideB.endpoint.value); }
    T.SettledRests(app, v.egress.free);
  }

  /** Who holds an address after recovery: exactly the handle of the container it is registered for. */
  lemma HolderIsRegistered(d: Disk, names: seq<string>, v: HostView, n: string, ip: Ipv4) returns (s: Slot)
    requires F.Holds(HostAfter(d, names, v), n, ip)
    ensures n in names && v.egress.Registered(ContainerId(n, s)) == Some(ip)
  {
    s := if SideOf(v, ContainerId(n, Slot.A)).endpoint == Some(ip) then Slot.A else Slot.B;
  }

  lemma RegisteredIsHeld(d: Disk, names: seq<string>, v: HostView, pool: set<Ipv4>, ip: Ipv4)
    requires Recovered(d, names, v, pool) && ip in v.egress.store.byIp
    ensures F.Taken(HostAfter(d, names, v), ip)
  {
    var cid := v.egress.store.byIp[ip].name;
    assert Resolved(d, names, v, cid) && v.egress.Registered(cid) == Some(ip);
    var i, s :| 0 <= i < |names| && d.Reattaches(names[i], s) && cid == ContainerId(names[i], s);
    assert F.Holds(HostAfter(d, names, v), names[i], ip);
  }

  /**
   * Recovery hands over: every app it could settle is at rest, no two of them
   * hold the same address, and all addresses but the lost ones are free or held.
   */
  lemma RecoveredHostRests(d: Disk, names: seq<string>, v: HostView, pool: set<Ipv4>)
    requires Recovered(d, names, v, pool)
    ensures F.HostRested(HostAfter(d, names, v), pool - d.LostAddresses(names))
  {
    var h, usable := HostAfter(d, names, v), pool - d.LostAddresses(names);
    forall n | n in h.apps ensures T.Rested(World(h.apps[n], h.free)) {
      AppRests(d, names, v, pool, n);
    }
    forall n, m, ip | F.Holds(h, n, ip) && F.Holds(h, m, ip) ensures n == m {
      var s := HolderIsRegistered(d, names, v, n, ip);
      var u := HolderIsRegistered(d, names, v, m, ip);
      EndpointsApart(v, pool, ContainerId(n, s), ContainerId(m, u), ip);
      ContainerIdInjective(n, s, m, u);
    }
    forall ip: Ipv4 ensures ip in usable <==> ip in h.free || F.Taken(h, ip) {
      if ip in v.egress.store.byIp {
        RegisteredIsHeld(d, names, v, pool, ip);
        LostIsUnregistered(d, names, v, pool, ip);
      }
      if F.Taken(h, ip) {
        var n :| F.Holds(h, n, ip);
        var s := HolderIsRegistered(d, names, v, n, ip);
        EndpointsApart(v, pool, ContainerId(n, s), ContainerId(n, s), ip);
        LostIsUnregistered(d, names, v, pool, ip);
      }
    }
  }

  /** An address that was lost is not the address of anything that is registered. */
  lemma LostIsUnregistered(d: Disk, names: seq<string>, v: HostView, pool: set<Ipv4>, ip: Ipv4)
    requires Recovered(d, names, v, pool) && ip in v.egress.store.byIp
    ensures ip !in d.LostAddresses(names)
  {
    if ip in d.LostAddresses(names) {
      var lost :| lost in d.claims && d.Lost(names, lost) && d.claims[lost] == ip;
      var cid := v.egress.store.byIp[ip].name;
      assert Resolved(d, names, v, cid) && v.egress.Registered(cid) == Some(ip);
      var i, s :| 0 <= i < |names| && d.Reattaches(names[i], s) && cid == ContainerId(names[i], s);
      var j, u :|
        0 <= j < |names| && d.Survives(names[j], u) && names[j] in d.refused && lost == ContainerId(names[j], u);
      ContainerIdInjective(names[i], s, names[j], u);
    }
  }

  /** The whole way: recover, and the host is ready for every run of `Fleet` and of `RolloverTheorems`. */
  method RestartHost(host: AppHost.Host, found: map<string, Ipv4>, handles: seq<AppHandle>, now: nat,
                     refused: set<string>, stuck: set<string>)
    requires host.Valid() && host.egress.View() == EgressView(host.egress.Hosts(), Store(map[], map[]))
    requires WellDiscovered(found, host.egress.Hosts()) && Distinct(handles)
    requires forall i :: 0 <= i < |handles| ==> Boot.Fresh(handles[i])
    modifies host.runtime, host.egress.allocator`free, host.egress.endpoints, Inners(handles)
    ensures var d := Disk(old(host.runtime.containers), found, refused, stuck); var names := Names(handles);
            && F.HostRested(HostAfter(d, names, host.View()), host.egress.Hosts() - d.LostAddresses(names))
            && forall i :: 0 <= i < |handles| && d.Recoverable(names[i]) ==>
                 var app := HostAfter(d, names, host.View()).apps[names[i]];
                 handles[i].inner.state == app.state && handles[i].inner.currentSlot == app.slot
  {
    ghost var d, names := Disk(host.runtime.containers, found, refused, stuck), Names(handles);
    Recover(host, found, handles, now, refused, stuck);
    RecoveredHostRests(d, names, host.View(), host.egress.Hosts());
  }
}
