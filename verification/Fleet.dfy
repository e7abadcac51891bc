/**
 * Any number of apps on one allocator and one endpoint store.  Each app runs
 * the machine of `Rollover`; they meet only in the free set and in the
 * container ids under which their endpoints are registered.
 */
module Fleet {
  import opened Prelude
  import opened Handle
  import opened Rollover
  import opened RolloverInvariant
  import opened RolloverTheorems

  datatype Host = Host(apps: map<string, App>, free: set<Ipv4>)

  /** App `n` takes one step; what it allocates or releases is seen by all. */
  function HostStep(h: Host, n: string, a: Action): Option<Host> {
    if n !in h.apps || a.Elsewhere? then None
    else
      match Step(World(h.apps[n], h.free), a)
      case None => None
      case Some(w) => Some(Host(h.apps[n := w.app], w.free))
  }

  datatype HostAction = HostAction(name: string, action: Action)

  predicate DisciplinedHostRun(h: Host, steps: seq<HostAction>)
    decreases |steps|
  {
    steps == [] ||
    (&& HostStep(h, steps[0].name, steps[0].action).Some?
     && Disciplined(h.apps[steps[0].name], steps[0].action)
     && DisciplinedHostRun(HostStep(h, steps[0].name, steps[0].action).value, steps[1..]))
  }

  function HostRun(h: Host, steps: seq<HostAction>): Option<Host>
    decreases |steps|
  {
    if steps == [] then Some(h)
    else
      match HostStep(h, steps[0].name, steps[0].action)
      case None => None
      case Some(h') => HostRun(h', steps[1..])
  }

  /** The endpoint store holds `ip` under container id `cid`. */
  ghost predicate Registered(h: Host, cid: string, ip: Ipv4) {
    exists n, s :: HasEndpoint(h, n, s, ip) && cid == ContainerId(n, s)
  }

  predicate HasEndpoint(h: Host, n: string, s: Slot, ip: Ipv4) {
    n in h.apps && h.apps[n].On(s).endpoint == Some(ip)
  }

  predicate Holds(h: Host, n: string, ip: Ipv4) {
    n in h.apps && Held(h.apps[n], ip) > 0
  }

  ghost predicate AppOk(h: Host, n: string)
    requires n in h.apps
  {
    exists r: Roles :: InvFor(World(h.apps[n], h.free), r)
  }

  ghost predicate OwnersDistinct(h: Host) {
    forall n, m, ip :: Holds(h, n, ip) && Holds(h, m, ip) ==> n == m
  }

  ghost predicate Taken(h: Host, ip: Ipv4) {
    exists n :: Holds(h, n, ip)
  }

  ghost predicate PoolCovered(h: Host, pool: set<Ipv4>) {
    forall ip: Ipv4 :: ip in pool <==> ip in h.free || Taken(h, ip)
  }

  ghost predicate HostInv(h: Host, pool: set<Ipv4>) {
    (forall n :: n in h.apps ==> AppOk(h, n)) && OwnersDistinct(h) && PoolCovered(h, pool)
  }

  // ---- an app can only trade addresses with the free set ----

  predicate InReach(w: World, ip: Ipv4) {
    ip in w.free || Held(w.app, ip) > 0
  }

  lemma QuietTrades(w: World, w': World)
    requires w'.free == w.free && BookUntouched(w.app, w'.app)
    ensures forall ip :: InReach(w', ip) <==> InReach(w, ip)
  {
  }

  lemma QuietFree(w: World, t: TaskId, ok: bool, ip: Ipv4)
    requires t in w.app.tasks && !MovesAddresses(w.app.tasks[t])
    ensures Next(w, t, w.app.tasks[t], ok, ip).free == w.free
  {
  }

  lemma ClimbTrades(w: World, t: TaskId, job: Job, s: Slot, phase: Phase, ok: bool, a: Ipv4)
    requires !phase.Built? && (phase.Unallocated? ==> w.app.On(s).endpoint.None?)
    ensures forall ip :: InReach(Climb(w, t, job, s, phase, ok, a), ip) <==> InReach(w, ip)
  {
  }

  lemma ReleaseStepTrades(w: World, t: TaskId)
    requires t in w.app.tasks && MovesAddresses(w.app.tasks[t]) && !w.app.tasks[t].Building?
    ensures forall ip :: InReach(Next(w, t, w.app.tasks[t], true, 0), ip) <==> InReach(w, ip)
  {
  }

  lemma StepTrades(w: World, r: Roles, a: Action, w': World)
    requires InvFor(w, r) && Step(w, a) == Some(w') && !a.Elsewhere?
    ensures forall ip :: InReach(w', ip) <==> InReach(w, ip)
  {
    if !a.Advance? {
      assert BookUntouched(w.app, w'.app);
      QuietTrades(w, w');
    } else if !MovesAddresses(w.app.tasks[a.t]) {
      QuietAdvance(w, a.t, a.ok, a.ip);
      QuietFree(w, a.t, a.ok, a.ip);
      QuietTrades(w, w');
    } else if w.app.tasks[a.t].Building? {
      var Building(job, s, phase) := w.app.tasks[a.t];
      if phase.Unallocated? { BuildsOnVacantSide(w, r, a.t); }
      ClimbTrades(w, a.t, job, s, phase, a.ok, a.ip);
    } else {
      ReleaseStepTrades(w, a.t);
    }
  }

  // ---- the invariant of the whole host ----

  /**
   * A host on which no operation is in flight, fresh or recovered: every app is
   * at rest, and each address of the pool is free or held by one of them.
   */
  ghost predicate HostRested(h: Host, pool: set<Ipv4>) {
    && (forall n :: n in h.apps ==> Rested(World(h.apps[n], h.free)))
    && OwnersDistinct(h) && PoolCovered(h, pool)
  }

  lemma FreshHostRests(h: Host, pool: set<Ipv4>)
    requires h.free == pool && forall n :: n in h.apps ==> Init(World(h.apps[n], h.free))
    ensures HostRested(h, pool)
  {
    assert forall n, ip :: !Holds(h, n, ip);
  }

  lemma RestedHostInv(h: Host, pool: set<Ipv4>)
    requires HostRested(h, pool)
    ensures HostInv(h, pool)
  {
    forall n | n in h.apps ensures AppOk(h, n) {
      RestedInv(World(h.apps[n], h.free));
    }
  }

  lemma OthersKeep(h: Host, n: string, m: string, h': Host, w': World, r: Roles)
    requires n in h.apps && m in h.apps && n != m && h' == Host(h.apps[n := w'.app], w'.free)
    requires InvFor(World(h.apps[m], h.free), r)
    requires forall ip :: InReach(w', ip) <==> InReach(World(h.apps[n], h.free), ip)
    requires forall ip :: Holds(h, n, ip) && Holds(h, m, ip) ==> n == m
    ensures InvFor(World(h.apps[m], h'.free), r)
  {
    var v := World(h.apps[m], h.free);
    forall ip | ip in h'.free ensures v.app.sideA.endpoint != Some(ip) && v.app.sideB.endpoint != Some(ip) {
      assert InReach(w', ip);
      assert ip in h.free || Holds(h, n, ip);
    }
    ElsewhereKeeps(v, r, h'.free);
  }

  /** `n` stepped from `w` to `w'`, trading addresses with the free set only. */
  ghost predicate Trade(h: Host, n: string, w: World, w': World, h': Host) {
    && n in h.apps && w == World(h.apps[n], h.free) && h' == Host(h.apps[n := w'.app], w'.free)
    && AddressesOk(w) && AddressesOk(w')
    && forall ip :: InReach(w', ip) <==> InReach(w, ip)
  }

  /** Whoever holds an address after the step of `n` held it before, or took it from the free set. */
  lemma HolderBefore(h: Host, n: string, w: World, w': World, h': Host, m: string, ip: Ipv4)
    requires Trade(h, n, w, w', h') && Holds(h', m, ip)
    ensures if m != n then Holds(h, m, ip) else Holds(h, n, ip) || ip in h.free
  {
    if m == n { assert InReach(w', ip); }
  }

  lemma FreeIsUnheld(h: Host, m: string, ip: Ipv4)
    requires m in h.apps && AppOk(h, m) && Holds(h, m, ip)
    ensures ip !in h.free
  {
  }

  lemma OwnersStayDistinct(h: Host, n: string, w: World, w': World, h': Host)
    requires Trade(h, n, w, w', h') && OwnersDistinct(h) && forall m :: m in h.apps ==> AppOk(h, m)
    ensures OwnersDistinct(h')
  {
    forall m, k, ip | Holds(h', m, ip) && Holds(h', k, ip) ensures m == k {
      HolderBefore(h, n, w, w', h', m, ip);
      HolderBefore(h, n, w, w', h', k, ip);
      if m != n { FreeIsUnheld(h, m, ip); }
      if k != n { FreeIsUnheld(h, k, ip); }
    }
  }

  lemma PoolStaysCovered(h: Host, pool: set<Ipv4>, n: string, w: World, w': World, h': Host)
    requires Trade(h, n, w, w', h') && PoolCovered(h, pool)
    ensures PoolCovered(h', pool)
  {
    forall ip: Ipv4 ensures ip in h'.free || Taken(h', ip) <==> ip in h.free || Taken(h, ip) {
      assert InReach(w', ip) <==> InReach(w, ip);
      if Taken(h, ip) {
        var m :| Holds(h, m, ip);
        assert if m != n then Holds(h', m, ip) else ip in h'.free || Holds(h', n, ip);
      }
      if ip in h.free { assert ip in h'.free || Holds(h', n, ip); }
      if Taken(h', ip) {
        var m :| Holds(h', m, ip);
        HolderBefore(h, n, w, w', h', m, ip);
      }
      if ip in h'.free { assert ip in h.free || Holds(h, n, ip); }
    }
  }

  lemma HostStepKeeps(h: Host, pool: set<Ipv4>, n: string, a: Action, h': Host)
    requires HostInv(h, pool) && HostStep(h, n, a) == Some(h') && Disciplined(h.apps[n], a)
    ensures HostInv(h', pool)
  {
    var w := World(h.apps[n], h.free);
    assert AppOk(h, n);
    var r: Roles :| InvFor(w, r);
    var w' := Step(w, a).value;
    var r' := StepKeeps(w, r, a, w');
    StepTrades(w, r, a, w');
    assert Trade(h, n, w, w', h');
    OwnersStayDistinct(h, n, w, w', h');
    PoolStaysCovered(h, pool, n, w, w', h');
    forall m | m in h'.apps ensures AppOk(h', m) {
      if m == n {
        assert InvFor(World(h'.apps[m], h'.free), r');
      } else {
        assert AppOk(h, m);
        var q: Roles :| InvFor(World(h.apps[m], h.free), q);
        OthersKeep(h, n, m, h', w', q);
      }
    }
  }

  lemma HostRunKeeps(h: Host, pool: set<Ipv4>, steps: seq<HostAction>)
    requires HostInv(h, pool) && DisciplinedHostRun(h, steps)
    ensures HostRun(h, steps).Some? && HostInv(HostRun(h, steps).value, pool)
    decreases |steps|
  {
    if steps != [] {
      var h' := HostStep(h, steps[0].name, steps[0].action).value;
      HostStepKeeps(h, pool, steps[0].name, steps[0].action, h');
      HostRunKeeps(h', pool, steps[1..]);
    }
  }

  /** Task `t` of app `n` has an allocation in flight, under this container id. */
  predicate Allocating(h: Host, n: string, t: TaskId, cid: string) {
    && n in h.apps && t in h.apps[n].tasks && h.apps[n].tasks[t].Building? && h.apps[n].tasks[t].phase.Unallocated?
    && cid == ContainerId(n, h.apps[n].tasks[t].slot)
  }

  /**
   * The lifecycle keeps its side of the egress contract: whatever the apps and
   * however they interleave, while a task allocates an endpoint, no endpoint
   * is registered under that container id, by any app, ...
   */
  lemma AllocatesOnlyFreshIds(h: Host, pool: set<Ipv4>, steps: seq<HostAction>, n: string, t: TaskId, cid: string,
                              ip: Ipv4)
    requires HostRested(h, pool) && DisciplinedHostRun(h, steps)
    ensures HostRun(h, steps).Some?
    ensures Allocating(HostRun(h, steps).value, n, t, cid) ==> !Registered(HostRun(h, steps).value, cid, ip)
  {
    RestedHostInv(h, pool);
    HostRunKeeps(h, pool, steps);
    var h' := HostRun(h, steps).value;
    if Allocating(h', n, t, cid) {
      var w := World(h'.apps[n], h'.free);
      assert AppOk(h', n);
      var r: Roles :| InvFor(w, r);
      BuildsOnVacantSide(w, r, t);
      var slot := w.app.tasks[t].slot;
      forall m, s | HasEndpoint(h', m, s, ip) ensures ContainerId(m, s) != cid {
        ContainerIdInjective(m, s, n, slot);
      }
    }
  }

  /** ... nor is any other allocation in flight under the same container id. */
  lemma AllocatesAlone(h: Host, pool: set<Ipv4>, steps: seq<HostAction>,
                       n: string, t: TaskId, m: string, u: TaskId, cid: string)
    requires HostRested(h, pool) && DisciplinedHostRun(h, steps)
    ensures HostRun(h, steps).Some?
    ensures var h' := HostRun(h, steps).value;
            Allocating(h', n, t, cid) && Allocating(h', m, u, cid) ==> n == m && t == u
  {
    RestedHostInv(h, pool);
    HostRunKeeps(h, pool, steps);
    var h' := HostRun(h, steps).value;
    if Allocating(h', n, t, cid) && Allocating(h', m, u, cid) {
      ContainerIdInjective(n, h'.apps[n].tasks[t].slot, m, h'.apps[m].tasks[u].slot);
      var w := World(h'.apps[n], h'.free);
      assert AppOk(h', n);
      var r: Roles :| InvFor(w, r);
      assert w.app.tasks[t].IsStarter() || w.app.tasks[t].IsRoller();
      assert w.app.tasks[u].IsStarter() || w.app.tasks[u].IsRoller();
    }
  }

  /**
   * One address, one owner: on the whole host every address of the pool is
   * either free or registered under exactly one container id.
   */
  lemma AddressesHaveOneOwner(h: Host, pool: set<Ipv4>, steps: seq<HostAction>, ip: Ipv4, c: string, d: string)
    requires HostRested(h, pool) && DisciplinedHostRun(h, steps)
    ensures HostRun(h, steps).Some?
    ensures var h' := HostRun(h, steps).value;
            && (Registered(h', c, ip) && Registered(h', d, ip) ==> c == d)
            && (ip in pool <==> ip in h'.free || exists e :: Registered(h', e, ip))
            && !(ip in h'.free && Registered(h', c, ip))
  {
    RestedHostInv(h, pool);
    HostRunKeeps(h, pool, steps);
    var h' := HostRun(h, steps).value;
    OwnerUnique(h', pool, ip, c, d);
    OwnerUnique(h', pool, ip, c, c);
    TakenIsRegistered(h', ip);
  }

  lemma OwnerUnique(h: Host, pool: set<Ipv4>, ip: Ipv4, c: string, d: string)
    requires HostInv(h, pool)
    ensures Registered(h, c, ip) && Registered(h, d, ip) ==> c == d && ip !in h.free
  {
    if Registered(h, c, ip) && Registered(h, d, ip) {
      var n, s :| HasEndpoint(h, n, s, ip) && c == ContainerId(n, s);
      var m, u :| HasEndpoint(h, m, u, ip) && d == ContainerId(m, u);
      OneHolder(h, pool, n, s, m, u, ip);
    }
  }

  lemma TakenIsRegistered(h: Host, ip: Ipv4)
    ensures Taken(h, ip) <==> exists e :: Registered(h, e, ip)
  {
    if Taken(h, ip) {
      var n :| Holds(h, n, ip);
      var s := if h.apps[n].sideA.endpoint == Some(ip) then Slot.A else Slot.B;
      assert HasEndpoint(h, n, s, ip);
      assert Registered(h, ContainerId(n, s), ip);
    }
    if exists e :: Registered(h, e, ip) {
      var e :| Registered(h, e, ip);
      var n, s :| HasEndpoint(h, n, s, ip) && e == ContainerId(n, s);
      assert Holds(h, n, ip);
    }
  }

  lemma OneHolder(h: Host, pool: set<Ipv4>, n: string, s: Slot, m: string, u: Slot, ip: Ipv4)
    requires HostInv(h, pool) && HasEndpoint(h, n, s, ip) && HasEndpoint(h, m, u, ip)
    ensures n == m && s == u && ip !in h.free
  {
    assert Holds(h, n, ip) && Holds(h, m, ip) && AppOk(h, n);
    var r: Roles :| InvFor(World(h.apps[n], h.free), r);
    assert AddressesOk(World(h.apps[n], h.free));
  }
}
