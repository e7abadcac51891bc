/**
 * Recovery after a crash: reattach the containers that survived, purge apps
 * caught in mid-rollover, and clean up what nobody answers for.
 */
module Boot {
  import opened Prelude
  import opened Handle
  import opened Allocator
  import opened Endpoints
  import opened Egress
  import opened AppHost

  /**
   * What the previous process left in the kernel, and which calls are going to
   * fail: `refused` are the apps whose allowlist no longer parses, `stuck` the
   * containers that cannot be removed.
   */
  datatype Disk = Disk(
    containers: map<string, bool>,
    claims: map<string, Ipv4>,
    refused: set<string>,
    stuck: set<string>)
  {
    predicate Live(name: string, s: Slot) {
      ContainerId(name, s) in containers
    }

    /** The app's one surviving container is in slot `s`, and its netns was found. */
    predicate Survives(name: string, s: Slot) {
      Live(name, s) && !Live(name, s.Other()) && ContainerId(name, s) in claims
    }

    predicate Reattaches(name: string, s: Slot) {
      Survives(name, s) && name !in refused
    }

    predicate MidRollover(name: string) {
      Live(name, Slot.A) && Live(name, Slot.B)
    }

    /** Container ids that recovery keeps, those it purges at once, ... */
    ghost predicate Kept(names: seq<string>, cid: string) {
      exists i, s :: 0 <= i < |names| && Reattaches(names[i], s) && cid == ContainerId(names[i], s)
    }

    ghost predicate Purged(names: seq<string>, cid: string) {
      exists i, s: Slot :: 0 <= i < |names| && MidRollover(names[i]) && cid == ContainerId(names[i], s)
    }

    /** ... and those it claims in vain: the address stays in use until the next restart. */
    ghost predicate Lost(names: seq<string>, cid: string) {
      exists i, s :: 0 <= i < |names| && Survives(names[i], s) && names[i] in refused && cid == ContainerId(names[i], s)
    }

    ghost function LostAddresses(names: seq<string>): set<Ipv4> {
      set cid | cid in claims && Lost(names, cid) :: claims[cid]
    }

    /** The state in which a handle comes out of recovery. */
    function StateOf(name: string): AppState {
      if Reattaches(name, Slot.A) then Recovered(name, Slot.A)
      else if Reattaches(name, Slot.B) then Recovered(name, Slot.B)
      else Stopped
    }

    function SlotOf(name: string): Slot {
      if Reattaches(name, Slot.B) then Slot.B else Slot.A
    }

    function Recovered(name: string, s: Slot): AppState
      requires Survives(name, s)
    {
      var cid := ContainerId(name, s);
      if containers[cid] then Frozen(claims[cid]) else Running(claims[cid])
    }

    /** Nothing of the app is left behind its handle's back. */
    predicate Recoverable(name: string) {
      if MidRollover(name) then ContainerId(name, Slot.A) !in stuck && ContainerId(name, Slot.B) !in stuck
      else
        && (Live(name, Slot.A) ==> Reattaches(name, Slot.A))
        && (Live(name, Slot.B) ==> Reattaches(name, Slot.B))
    }
  }

  datatype AppHandle = AppHandle(name: string, inner: HandleInner)

  predicate Fresh(h: AppHandle)
    reads h.inner
  {
    h.inner.state == Stopped && h.inner.currentSlot == Slot.A
  }

  predicate Restored(d: Disk, h: AppHandle)
    reads h.inner
  {
    h.inner.state == d.StateOf(h.name) && h.inner.currentSlot == d.SlotOf(h.name)
  }

  /** Of the rest only the last use changes: it is now for a handle that came back. */
  twostate predicate AsLoaded(d: Disk, now: nat, h: AppHandle)
    reads h.inner
  {
    && h.inner.lastAccess == (if d.StateOf(h.name).Stopped? then old(h.inner.lastAccess) else now)
    && unchanged(h.inner`rollouts, h.inner`imageDigest, h.inner`cpuBaseline)
  }

  function Names(handles: seq<AppHandle>): seq<string> {
    seq(|handles|, i requires 0 <= i < |handles| => handles[i].name)
  }

  ghost function Inners(handles: seq<AppHandle>): set<object> {
    set i | 0 <= i < |handles| :: handles[i].inner
  }

  predicate Distinct(handles: seq<AppHandle>) {
    forall i, j :: 0 <= i < j < |handles| ==>
      handles[i].name != handles[j].name && handles[i].inner != handles[j].inner
  }

  // ---- how the sets grow by one handle ----

  lemma KeptSnoc(d: Disk, names: seq<string>, name: string, cid: string)
    ensures d.Kept(names + [name], cid) <==>
              d.Kept(names, cid) || exists s :: d.Reattaches(name, s) && cid == ContainerId(name, s)
  {
    var more := names + [name];
    if d.Kept(more, cid) {
      var i, s :| 0 <= i < |more| && d.Reattaches(more[i], s) && cid == ContainerId(more[i], s);
      if i < |names| { assert d.Reattaches(names[i], s); }
    }
    if d.Kept(names, cid) {
      var i, s :| 0 <= i < |names| && d.Reattaches(names[i], s) && cid == ContainerId(names[i], s);
      assert d.Reattaches(more[i], s);
    }
    if s :| d.Reattaches(name, s) && cid == ContainerId(name, s) {
      assert d.Reattaches(more[|names|], s);
    }
  }

  lemma PurgedSnoc(d: Disk, names: seq<string>, name: string, cid: string)
    ensures d.Purged(names + [name], cid) <==>
              d.Purged(names, cid) || (d.MidRollover(name) && exists s: Slot :: cid == ContainerId(name, s))
  {
    var more := names + [name];
    if d.Purged(more, cid) {
      var i, s :| 0 <= i < |more| && d.MidRollover(more[i]) && cid == ContainerId(more[i], s);
      if i < |names| { assert d.MidRollover(names[i]) && cid == ContainerId(names[i], s); }
    }
    if d.Purged(names, cid) {
      var i, s :| 0 <= i < |names| && d.MidRollover(names[i]) && cid == ContainerId(names[i], s);
      assert d.MidRollover(more[i]) && cid == ContainerId(more[i], s);
    }
    if s: Slot :| d.MidRollover(name) && cid == ContainerId(name, s) {
      assert d.MidRollover(more[|names|]) && cid == ContainerId(more[|names|], s);
    }
  }

  lemma LostSnoc(d: Disk, names: seq<string>, name: string, cid: string)
    ensures d.Lost(names + [name], cid) <==>
              || d.Lost(names, cid)
              || (name in d.refused && exists s :: d.Survives(name, s) && cid == ContainerId(name, s))
  {
    var more := names + [name];
    if d.Lost(more, cid) {
      var i, s :| 0 <= i < |more| && d.Survives(more[i], s) && more[i] in d.refused && cid == ContainerId(more[i], s);
      if i < |names| { assert d.Survives(names[i], s); }
    }
    if d.Lost(names, cid) {
      var i, s :|
        0 <= i < |names| && d.Survives(names[i], s) && names[i] in d.refused && cid == ContainerId(names[i], s);
      assert d.Survives(more[i], s);
    }
    if s :| name in d.refused && d.Survives(name, s) && cid == ContainerId(name, s) {
      assert d.Survives(more[|names|], s);
    }
  }

  /** The ids of a name that was not visited yet have had no fate. */
  lemma Unvisited(d: Disk, names: seq<string>, name: string, s: Slot)
    requires name !in names
    ensures var cid := ContainerId(name, s); !d.Kept(names, cid) && !d.Purged(names, cid) && !d.Lost(names, cid)
  {
    forall i, u | 0 <= i < |names| ensures ContainerId(names[i], u) != ContainerId(name, s) {
      ContainerIdInjective(names[i], u, name, s);
    }
  }

  // ---- the state of the recovery after some handles ----

  /** Free, claimed, registered and lost addresses partition the pool; nobody shares one. */
  ghost predicate Split(pool: set<Ipv4>, v: EgressView, claims: map<string, Ipv4>, lost: set<Ipv4>) {
    && v.Sound(pool) && lost <= pool && lost !! v.free && lost !! v.store.byIp.Keys
    && (forall n, m :: n in claims && m in claims && claims[n] == claims[m] ==> n == m)
    && (forall n :: n in claims ==>
          claims[n] in pool && claims[n] !in v.free && claims[n] !in v.store.byIp && claims[n] !in lost)
    && (forall ip: Ipv4 :: ip in pool ==> ip in v.free || ip in v.store.byIp || ip in claims.Values || ip in lost)
  }

  lemma ValuesWithout(claims: map<string, Ipv4>, name: string)
    requires name in claims
    ensures forall ip: Ipv4 :: ip in claims.Values <==> ip == claims[name] || ip in (claims - {name}).Values
  {
    forall ip | ip in claims.Values ensures ip == claims[name] || ip in (claims - {name}).Values {
      var n :| n in claims && claims[n] == ip;
      if n != name { assert n in claims - {name} && (claims - {name})[n] == ip; }
    }
  }

  /** A claim that was taken, to give its address back. */
  lemma ClaimReturned(pool: set<Ipv4>, v: EgressView, claims: map<string, Ipv4>, lost: set<Ipv4>, cid: string)
    requires Split(pool, v, claims, lost) && cid in claims
    ensures Split(pool, v.(free := v.free + {claims[cid]}), claims - {cid}, lost)
  {
    ValuesWithout(claims, cid);
  }

  /** ... to register it, ... */
  lemma ClaimRegistered(pool: set<Ipv4>, v: EgressView, claims: map<string, Ipv4>, lost: set<Ipv4>, cid: string)
    requires Split(pool, v, claims, lost) && cid in claims && v.Registered(cid).None?
    ensures Split(pool, v.Add(cid, claims[cid]), claims - {cid}, lost)
  {
    ValuesWithout(claims, cid);
    v.AddSound(pool, cid, claims[cid]);
  }

  /** ... or in vain. */
  lemma ClaimLost(pool: set<Ipv4>, v: EgressView, claims: map<string, Ipv4>, lost: set<Ipv4>, cid: string)
    requires Split(pool, v, claims, lost) && cid in claims
    ensures Split(pool, v, claims - {cid}, lost + {claims[cid]})
  {
    ValuesWithout(claims, cid);
  }

  /** What became of `cid`, when it was kept, purged, claimed in vain, or left alone. */
  ghost predicate Fate(
    d: Disk, kept: bool, purged: bool, lost: bool, v: HostView, claims: map<string, Ipv4>, cid: string)
  {
    && (cid in v.egress.store.byName <==> kept)
    && (kept ==> cid in d.claims && v.egress.Registered(cid) == Some(d.claims[cid]))
    && (cid in claims <==> cid in d.claims && !kept && !purged && !lost)
    && (cid in claims ==> claims[cid] == d.claims[cid])
    && (cid in v.containers <==> cid in d.containers && (purged ==> cid in d.stuck))
    && (cid in v.containers ==> v.containers[cid] == d.containers[cid])
  }

  /** After the handles called `names`: who is registered, what is still claimed, what still exists. */
  ghost predicate Progress(d: Disk, names: seq<string>, v: HostView, claims: map<string, Ipv4>) {
    forall cid {:trigger d.Kept(names, cid)} ::
      Fate(d, d.Kept(names, cid), d.Purged(names, cid), d.Lost(names, cid), v, claims, cid)
  }

  lemma ProgressSkips(d: Disk, names: seq<string>, name: string, v: HostView, claims: map<string, Ipv4>)
    requires Progress(d, names, v, claims) && !d.MidRollover(name) && forall s :: !d.Survives(name, s)
    ensures Progress(d, names + [name], v, claims)
    ensures d.LostAddresses(names + [name]) == d.LostAddresses(names)
  {
    var more := names + [name];
    forall cid
      ensures Fate(d, d.Kept(more, cid), d.Purged(more, cid), d.Lost(more, cid), v, claims, cid)
      ensures d.Lost(more, cid) == d.Lost(names, cid)
    {
      KeptSnoc(d, names, name, cid);
      PurgedSnoc(d, names, name, cid);
      LostSnoc(d, names, name, cid);
      assert Fate(d, d.Kept(names, cid), d.Purged(names, cid), d.Lost(names, cid), v, claims, cid);
    }
  }

  /** What is left of two containers that were to be removed. */
  function Unstuck(d: Disk, name: string): set<string> {
    {ContainerId(name, Slot.A), ContainerId(name, Slot.B)} - d.stuck
  }

  lemma ProgressPurges(d: Disk, names: seq<string>, name: string, v: HostView, claims: map<string, Ipv4>,
                       v': HostView, claims': map<string, Ipv4>)
    requires Progress(d, names, v, claims) && d.MidRollover(name) && name !in names
    requires claims' == claims - {ContainerId(name, Slot.A), ContainerId(name, Slot.B)}
    requires v'.containers == v.containers - Unstuck(d, name) && v'.egress.store == v.egress.store
    ensures Progress(d, names + [name], v', claims')
    ensures d.LostAddresses(names + [name]) == d.LostAddresses(names)
  {
    var more := names + [name];
    forall cid
      ensures Fate(d, d.Kept(more, cid), d.Purged(more, cid), d.Lost(more, cid), v', claims', cid)
      ensures d.Lost(more, cid) == d.Lost(names, cid)
    {
      KeptSnoc(d, names, name, cid);
      PurgedSnoc(d, names, name, cid);
      LostSnoc(d, names, name, cid);
      if s: Slot :| cid == ContainerId(name, s) { assert s == Slot.A || s == Slot.B; Unvisited(d, names, name, s); }
      assert Fate(d, d.Kept(names, cid), d.Purged(names, cid), d.Lost(names, cid), v, claims, cid);
    }
  }

  /** The survivor's claim was taken, and it was registered or not. */
  lemma ProgressTakes(d: Disk, names: seq<string>, name: string, s: Slot, v: HostView, claims: map<string, Ipv4>,
                      v': HostView, claims': map<string, Ipv4>)
    requires Progress(d, names, v, claims) && d.Survives(name, s) && name !in names
    requires claims' == claims - {ContainerId(name, s)} && v'.containers == v.containers
    requires v'.egress == if name in d.refused then v.egress
                          else v.egress.Add(ContainerId(name, s), d.claims[ContainerId(name, s)])
    ensures Progress(d, names + [name], v', claims')
  {
    var more := names + [name];
    Unvisited(d, names, name, s);
    forall cid ensures Fate(d, d.Kept(more, cid), d.Purged(more, cid), d.Lost(more, cid), v', claims', cid) {
      KeptSnoc(d, names, name, cid);
      PurgedSnoc(d, names, name, cid);
      LostSnoc(d, names, name, cid);
      if u :| d.Survives(name, u) && cid == ContainerId(name, u) { assert u == s; }
      assert Fate(d, d.Kept(names, cid), d.Purged(names, cid), d.Lost(names, cid), v, claims, cid);
    }
  }

  lemma LosesOne(d: Disk, names: seq<string>, name: string, s: Slot)
    requires d.Survives(name, s)
    ensures d.LostAddresses(names + [name]) ==
              d.LostAddresses(names) + if name in d.refused then {d.claims[ContainerId(name, s)]} else {}
  {
    var more := names + [name];
    forall cid ensures d.Lost(more, cid) <==> d.Lost(names, cid) || (name in d.refused && cid == ContainerId(name, s)) {
      LostSnoc(d, names, name, cid);
      if u :| d.Survives(name, u) && cid == ContainerId(name, u) { assert u == s; }
    }
  }

  lemma ProgressBegins(d: Disk, v: HostView, claims: map<string, Ipv4>)
    requires v.containers == d.containers && claims == d.claims && v.egress.store.byName == map[]
    ensures Progress(d, [], v, claims) && d.LostAddresses([]) == {}
  {
  }

  lemma OneMoreGone(containers: map<string, bool>, claims: map<string, Ipv4>, gone: set<string>, stuck: set<string>,
                    cid: string)
    ensures containers - (gone - stuck) - ({cid} - stuck) == containers - (gone + {cid} - stuck)
    ensures claims - gone - {cid} == claims - (gone + {cid})
  {
  }

  lemma NotVisited(handles: seq<AppHandle>, i: nat)
    requires Distinct(handles) && i < |handles|
    ensures handles[i].name !in Names(handles)[..i] && handles[i].inner in Inners(handles)
    ensures Names(handles)[..i + 1] == Names(handles)[..i] + [handles[i].name]
    ensures forall j :: 0 <= j < |handles| && j != i ==> handles[j].inner != handles[i].inner
  {
  }

  lemma StoppedOnSlotA(d: Disk, name: string)
    ensures d.StateOf(name).Stopped? ==> d.SlotOf(name) == Slot.A
  {
  }

  class Recovery {
    const host: Host
    const claims: StartupClaims
    const refused: set<string>
    const stuck: set<string>
    ghost var lost: set<Ipv4>

    constructor (host: Host, claims: StartupClaims, refused: set<string>, stuck: set<string>)
      ensures this.host == host && this.claims == claims && this.refused == refused && this.stuck == stuck
      ensures lost == {}
    {
      this.host, this.claims, this.refused, this.stuck := host, claims, refused, stuck;
      lost := {};
    }

    ghost predicate Valid()
      reads this, claims, host, host.egress, host.egress.allocator, host.egress.endpoints, host.runtime
    {
      Split(host.egress.Hosts(), host.egress.View(), claims.discovered, lost)
    }

    /** Remove the container if that works, and give back the address claimed for it, if any. */
    method Purge(cid: string)
      requires Valid()
      modifies claims, host.runtime, host.egress.allocator`free
      ensures Valid() && claims.discovered == old(claims.discovered) - {cid}
      ensures host.runtime.containers == old(host.runtime.containers) - ({cid} - stuck)
      ensures host.egress.View().store == old(host.egress.View().store)
    {
      if cid !in stuck {
        host.runtime.StopApp(cid);
      }
      ghost var v, c := host.egress.View(), claims.discovered;
      var ip := claims.Claim(cid);
      if ip.Some? {
        ClaimReturned(host.egress.Hosts(), v, c, lost, cid);
        host.egress.CleanupOrphanEndpoint(ip.value);
      } else {
        assert claims.discovered == c;
      }
    }

    method PurgeBothSlots(name: string)
      requires Valid()
      modifies claims, host.runtime, host.egress.allocator`free
      ensures Valid()
      ensures claims.discovered == old(claims.discovered) - {ContainerId(name, Slot.A), ContainerId(name, Slot.B)}
      ensures host.runtime.containers ==
                old(host.runtime.containers) - ({ContainerId(name, Slot.A), ContainerId(name, Slot.B)} - stuck)
      ensures host.egress.View().store == old(host.egress.View().store)
    {
      Purge(ContainerId(name, Slot.A));
      Purge(ContainerId(name, Slot.B));
    }

    /**
     * Register the survivor under its own address and restore the handle.  If
     * its allowlist does not parse the claim is spent all the same.
     */
    method ReattachOne(h: AppHandle, slot: Slot, paused: bool, now: nat)
      requires Valid() && ContainerId(h.name, slot) in claims.discovered
      requires host.egress.View().Registered(ContainerId(h.name, slot)).None?
      modifies this`lost, claims, host.egress.endpoints, h.inner`state, h.inner`currentSlot, h.inner`lastAccess
      ensures h.inner.lastAccess == if h.name in refused then old(h.inner.lastAccess) else now
      ensures Valid() && claims.discovered == old(claims.discovered) - {ContainerId(h.name, slot)}
      ensures var cid := ContainerId(h.name, slot); var ip := old(claims.discovered)[cid];
              if h.name in refused then
                && lost == old(lost) + {ip} && host.egress.View() == old(host.egress.View())
                && h.inner.state == old(h.inner.state) && h.inner.currentSlot == old(h.inner.currentSlot)
              else
                && lost == old(lost) && host.egress.View() == old(host.egress.View()).Add(cid, ip)
                && h.inner.state == (if paused then Frozen(ip) else Running(ip)) && h.inner.currentSlot == slot
    {
      var cid := ContainerId(h.name, slot);
      ghost var v, c := host.egress.View(), claims.discovered;
      var ip := claims.Claim(cid);
      var ok := host.egress.ReattachEndpoint(cid, ip.value, h.name !in refused);
      if ok {
        ClaimRegistered(host.egress.Hosts(), v, c, lost, cid);
        h.inner.currentSlot := slot;
        h.inner.state := if paused then Frozen(ip.value) else Running(ip.value);
        h.inner.lastAccess := now;
      } else {
        ClaimLost(host.egress.Hosts(), v, c, lost, cid);
        lost := lost + {ip.value};
      }
    }

    ghost predicate Follows(d: Disk, names: seq<string>)
      reads this, claims, host, host.egress, host.egress.allocator, host.egress.endpoints, host.runtime
    {
      && Valid() && refused == d.refused && stuck == d.stuck
      && Progress(d, names, host.View(), claims.discovered) && lost == d.LostAddresses(names)
    }

    /** One turn of the reattach loop. */
    method ReattachHandle(h: AppHandle, now: nat, ghost d: Disk, ghost names: seq<string>)
      requires Follows(d, names) && h.name !in names
      modifies this`lost, claims, host.runtime, host.egress.allocator`free, host.egress.endpoints,
               h.inner`state, h.inner`currentSlot, h.inner`lastAccess
      ensures Follows(d, names + [h.name])
      ensures AsLoaded(d, now, h)
      ensures h.inner.state == if d.StateOf(h.name).Stopped? then old(h.inner.state) else d.StateOf(h.name)
      ensures h.inner.currentSlot ==
                if d.StateOf(h.name).Stopped? then old(h.inner.currentSlot) else d.SlotOf(h.name)
    {
      ghost var v, c := host.View(), claims.discovered;
      Unvisited(d, names, h.name, Slot.A);
      Unvisited(d, names, h.name, Slot.B);
      var liveA := ContainerId(h.name, Slot.A) in host.runtime.containers;
      var liveB := ContainerId(h.name, Slot.B) in host.runtime.containers;
      if liveA && liveB {
        assert d.StateOf(h.name).Stopped?;
        PurgeBothSlots(h.name);
        ProgressPurges(d, names, h.name, v, c, host.View(), claims.discovered);
      } else if liveA || liveB {
        var slot := if liveA then Slot.A else Slot.B;
        if ContainerId(h.name, slot) in claims.discovered {
          assert d.StateOf(h.name) == if h.name in refused then Stopped else d.Recovered(h.name, slot);
          ReattachOne(h, slot, host.runtime.containers[ContainerId(h.name, slot)], now);
          ProgressTakes(d, names, h.name, slot, v, c, host.View(), claims.discovered);
          LosesOne(d, names, h.name, slot);
        } else {
          assert d.StateOf(h.name).Stopped?;
          ProgressSkips(d, names, h.name, v, c);
        }
      } else {
        assert d.StateOf(h.name).Stopped?;
        ProgressSkips(d, names, h.name, v, c);
      }
    }

    /** The handles are as the process made them; afterwards each is as its containers say. */
    method ReattachRunning(handles: seq<AppHandle>, now: nat, ghost d: Disk)
      requires Valid() && Distinct(handles) && lost == {} && host.egress.View().store == Store(map[], map[])
      requires d == Disk(host.runtime.containers, claims.discovered, refused, stuck)
      requires forall i :: 0 <= i < |handles| ==> Fresh(handles[i])
      modifies this`lost, claims, host.runtime, host.egress.allocator`free, host.egress.endpoints, Inners(handles)
      ensures Follows(d, Names(handles))
      ensures forall i :: 0 <= i < |handles| ==> Restored(d, handles[i])
      ensures forall i :: 0 <= i < |handles| ==> AsLoaded(d, now, handles[i])
    {
      ghost var names := Names(handles);
      ProgressBegins(d, host.View(), claims.discovered);
      for i := 0 to |handles|
        invariant Follows(d, names[..i])
        invariant forall j :: 0 <= j < i ==> Restored(d, handles[j]) && AsLoaded(d, now, handles[j])
        invariant forall j :: i <= j < |handles| ==> unchanged(handles[j].inner)
      {
        NotVisited(handles, i);
        var h := handles[i];
        ReattachHandle(h, now, d, names[..i]);
        StoppedOnSlotA(d, h.name);
        assert Restored(d, h) && AsLoaded(d, now, h);
      }
      assert names[..|handles|] == names;
    }

    /** What is still claimed belongs to nobody: give its address back, and remove its container if that works. */
    method CleanupOrphans()
      requires Valid()
      modifies claims, host.runtime, host.egress.allocator`free
      ensures Valid() && claims.discovered == map[]
      ensures host.runtime.containers == old(host.runtime.containers) - (old(claims.discovered).Keys - stuck)
      ensures host.egress.View().store == old(host.egress.View().store)
    {
      ghost var v, c, gone := host.View(), claims.discovered, {};
      while claims.discovered != map[]
        invariant Valid() && gone <= c.Keys && claims.discovered == c - gone
        invariant host.runtime.containers == v.containers - (gone - stuck)
        invariant host.egress.View().store == v.egress.store
        decreases c.Keys - gone
      {
        var cid :| cid in claims.discovered;
        Purge(cid);
        OneMoreGone(v.containers, c, gone, stuck, cid);
        gone := gone + {cid};
      }
      forall n | n in c ensures n in gone { assert n !in claims.discovered; }
      assert gone == c.Keys;
    }
  }

  // ---- recovery as a whole ----

  /** Every discovered endpoint has an address of its own, out of the pool. */
  ghost predicate WellDiscovered(found: map<string, Ipv4>, pool: set<Ipv4>) {
    && (forall n :: n in found ==> found[n] in pool)
    && (forall n, m :: n in found && m in found && found[n] == found[m] ==> n == m)
  }

  lemma FateOfApp(d: Disk, names: seq<string>, i: nat, s: Slot)
    requires i < |names|
    ensures var cid := ContainerId(names[i], s);
            && (d.Kept(names, cid) <==> d.Reattaches(names[i], s))
            && (d.Purged(names, cid) <==> d.MidRollover(names[i]))
            && (d.Lost(names, cid) <==> d.Survives(names[i], s) && names[i] in d.refused)
  {
    forall j, u | 0 <= j < |names| && ContainerId(names[j], u) == ContainerId(names[i], s)
      ensures names[j] == names[i] && u == s
    {
      ContainerIdInjective(names[i], s, names[j], u);
    }
  }

  /** What is left once the orphans are gone too. */
  ghost predicate Cleaned(d: Disk, names: seq<string>, mid: HostView, claims: map<string, Ipv4>, v: HostView) {
    && Progress(d, names, mid, claims)
    && v.containers == mid.containers - (claims.Keys - d.stuck) && v.egress.store == mid.egress.store
  }

  /** The container was to be removed: its app was in mid-rollover, or nobody answers for its endpoint. */
  ghost predicate ToRemove(d: Disk, names: seq<string>, cid: string) {
    d.Purged(names, cid) || (cid in d.claims && !d.Kept(names, cid) && !d.Lost(names, cid))
  }

  /** What the recovery leaves of any container id. */
  ghost predicate Resolved(d: Disk, names: seq<string>, v: HostView, cid: string) {
    && v.egress.Registered(cid) == (if d.Kept(names, cid) && cid in d.claims then Some(d.claims[cid]) else None)
    && (cid in v.containers <==> cid in d.containers && (ToRemove(d, names, cid) ==> cid in d.stuck))
    && (cid in v.containers ==> v.containers[cid] == d.containers[cid])
  }

  lemma ResolvedOf(d: Disk, names: seq<string>, mid: HostView, claims: map<string, Ipv4>, v: HostView, cid: string)
    requires Cleaned(d, names, mid, claims, v)
    ensures Resolved(d, names, v, cid)
  {
    assert Fate(d, d.Kept(names, cid), d.Purged(names, cid), d.Lost(names, cid), mid, claims, cid);
  }

  lemma BeginsSplit(pool: set<Ipv4>, v: EgressView, found: map<string, Ipv4>)
    requires v == EgressView(pool - found.Values, Store(map[], map[])) && WellDiscovered(found, pool)
    ensures Split(pool, v, found, {})
  {
  }

  lemma NothingClaimed(pool: set<Ipv4>, v: EgressView, lost: set<Ipv4>)
    requires Split(pool, v, map[], lost)
    ensures v.free == pool - v.store.byIp.Keys - lost
  {
  }

  /**
   * Recovery settles an app if and only if its one survivor could be
   * reattached, or everything of it could be removed.
   */
  lemma RecoverySettles(d: Disk, names: seq<string>, v: HostView, i: nat)
    requires i < |names| && forall s: Slot :: Resolved(d, names, v, ContainerId(names[i], s))
    ensures v.Settled(names[i], d.StateOf(names[i]), d.SlotOf(names[i])) <==> d.Recoverable(names[i])
  {
    FateOfApp(d, names, i, Slot.A);
    FateOfApp(d, names, i, Slot.B);
    assert Resolved(d, names, v, ContainerId(names[i], Slot.A)) && Resolved(d, names, v, ContainerId(names[i], Slot.B));
  }

  /**
   * The cases one by one, for an app that is known: one survivor with a
   * discovered endpoint comes back as it was, unless its allowlist no longer
   * parses; two containers are both purged; a lone container without an
   * endpoint is left alone, and an endpoint without a container given back.
   */
  lemma RecoveryByCase(d: Disk, names: seq<string>, v: HostView, i: nat, s: Slot)
    requires i < |names| && forall u: Slot :: Resolved(d, names, v, ContainerId(names[i], u))
    ensures var name := names[i]; var cid := ContainerId(name, s); var other := ContainerId(name, s.Other());
            if cid in d.containers && other in d.containers then
              && d.StateOf(name) == Stopped && v.egress.Registered(cid).None?
              && (cid in v.containers <==> cid in d.stuck)
            else if cid in d.containers && cid in d.claims && name !in d.refused then
              && d.StateOf(name) == (if d.containers[cid] then Frozen(d.claims[cid]) else Running(d.claims[cid]))
              && d.SlotOf(name) == s && v.egress.Registered(cid) == Some(d.claims[cid])
              && cid in v.containers && v.containers[cid] == d.containers[cid]
            else
              && (other !in d.containers ==> d.StateOf(name) == Stopped)
              && v.egress.Registered(cid).None? && (cid in v.containers <==> cid in d.containers)
  {
    var cid := ContainerId(names[i], s);
    FateOfApp(d, names, i, s);
    FateOfApp(d, names, i, s.Other());
    assert s == Slot.A || s == Slot.B;
    assert Resolved(d, names, v, cid);
  }

  /** An endpoint or a container of an app that is no longer known. */
  lemma OrphanByCase(d: Disk, names: seq<string>, v: HostView, cid: string)
    requires Resolved(d, names, v, cid) && forall i, s :: 0 <= i < |names| ==> cid != ContainerId(names[i], s)
    ensures v.egress.Registered(cid).None?
    ensures cid in v.containers <==> cid in d.containers && (cid in d.claims ==> cid in d.stuck)
  {
  }

  /**
   * Startup from any crash: each discovered endpoint is resolved once.  It is
   * registered under its own address with its handle running or frozen on that
   * slot, or its address is free again, or the app's allowlist no longer
   * parses and the address is lost; and no other address is.
   */
  method Recover(host: Host, found: map<string, Ipv4>, handles: seq<AppHandle>, now: nat,
                 refused: set<string>, stuck: set<string>)
    requires host.Valid() && host.egress.View() == EgressView(host.egress.Hosts(), Store(map[], map[]))
    requires WellDiscovered(found, host.egress.Hosts()) && Distinct(handles)
    requires forall i :: 0 <= i < |handles| ==> Fresh(handles[i])
    modifies host.runtime, host.egress.allocator`free, host.egress.endpoints, Inners(handles)
    ensures host.Valid()
    ensures var d := Disk(old(host.runtime.containers), found, refused, stuck); var names := Names(handles);
            && host.egress.View().free ==
                 host.egress.Hosts() - host.egress.View().store.byIp.Keys - d.LostAddresses(names)
            && (forall cid :: Resolved(d, names, host.View(), cid))
            && forall i :: 0 <= i < |handles| ==>
                 && Restored(d, handles[i]) && AsLoaded(d, now, handles[i])
                 && (host.View().Settled(names[i], d.StateOf(names[i]), d.SlotOf(names[i]))
                     <==> d.Recoverable(names[i]))
  {
    ghost var d, names := Disk(host.runtime.containers, found, refused, stuck), Names(handles);
    DiscoverExistingEndpoints(host.egress.allocator, found);
    BeginsSplit(host.egress.Hosts(), host.egress.View(), found);
    var claims := new StartupClaims(found);
    var recovery := new Recovery(host, claims, refused, stuck);
    Resolve(recovery, handles, now, d);
    forall i | 0 <= i < |handles|
      ensures host.View().Settled(names[i], d.StateOf(names[i]), d.SlotOf(names[i])) <==> d.Recoverable(names[i])
    {
      RecoverySettles(d, names, host.View(), i);
    }
    NothingClaimed(host.egress.Hosts(), host.egress.View(), recovery.lost);
  }

  /** The two passes, over whatever is still claimed. */
  method Resolve(recovery: Recovery, handles: seq<AppHandle>, now: nat, ghost d: Disk)
    requires recovery.Valid() && Distinct(handles) && recovery.lost == {}
    requires d == Disk(recovery.host.runtime.containers, recovery.claims.discovered, recovery.refused, recovery.stuck)
    requires recovery.host.egress.View().store == Store(map[], map[])
    requires forall i :: 0 <= i < |handles| ==> Fresh(handles[i])
    modifies recovery`lost, recovery.claims, recovery.host.runtime, recovery.host.egress.allocator`free,
             recovery.host.egress.endpoints, Inners(handles)
    ensures recovery.Valid() && recovery.claims.discovered == map[]
    ensures recovery.lost == d.LostAddresses(Names(handles))
    ensures forall cid :: Resolved(d, Names(handles), recovery.host.View(), cid)
    ensures forall i :: 0 <= i < |handles| ==> Restored(d, handles[i])
    ensures forall i :: 0 <= i < |handles| ==> AsLoaded(d, now, handles[i])
  {
    recovery.ReattachRunning(handles, now, d);
    ghost var mid, left := recovery.host.View(), recovery.claims.discovered;
    recovery.CleanupOrphans();
    forall cid ensures Resolved(d, Names(handles), recovery.host.View(), cid) {
      ResolvedOf(d, Names(handles), mid, left, recovery.host.View(), cid);
    }
  }
}
