/**
 * The egress layer under concurrency: any number of allocations, releases,
 * reattachments and orphan cleanups, split where their locks split them.
 * The allocator lock and the store lock are never held together, so between
 * two sections an address is in the hands of the operation alone.
 */
module EgressProtocol {
  import opened Prelude
  import opened Allocator
  import opened Endpoints
  import opened Egress

  type OpId = nat

  /** An operation between two of its critical sections. */
  datatype Op =
    | Attaching(name: string, ip: Ipv4)      // took the address, wiring the netns
    | Returning(ip: Ipv4)                    // removed from the store, not yet free
    | Recovering(name: string, ip: Ipv4)     // took a startup claim

  datatype Net = Net(subnet: Subnet, bridgeIp: Ipv4)

  /**
   * `lost`: claimed addresses whose reattachment failed; they stay marked as
   * used until the next restart discovers them again.
   */
  datatype Sys = Sys(
    free: set<Ipv4>,
    store: Store,
    claims: map<string, Ipv4>,
    ops: map<OpId, Op>,
    lost: set<Ipv4>)

  datatype Action =
    | Take(op: OpId, name: string, ip: Ipv4)  // allocate_endpoint, allocator section
    | AttachFailed(op: OpId)
    | Commit(op: OpId)                        // allocate_endpoint, store section
    | Detach(op: OpId, name: string)          // release_endpoint, store section
    | GiveBack(op: OpId)                      // release_endpoint, allocator section
    | Claim(op: OpId, name: string)
    | Reattach(op: OpId, ok: bool)
    | Cleanup(op: OpId)

  function Return(net: Net, sys: Sys, op: OpId, ip: Ipv4): Sys {
    sys.(free := AfterRelease(net.subnet, net.bridgeIp, sys.free, ip), ops := sys.ops - {op})
  }

  ghost function Step(net: Net, sys: Sys, a: Action): Option<Sys> {
    match a
    case Take(op, name, ip) =>
      if op in sys.ops || !IsLowest(ip, sys.free) then None
      else Some(sys.(free := sys.free - {ip}, ops := sys.ops[op := Attaching(name, ip)]))
    case AttachFailed(op) =>
      if op in sys.ops && sys.ops[op].Attaching? then Some(Return(net, sys, op, sys.ops[op].ip)) else None
    case Commit(op) =>
      if op in sys.ops && sys.ops[op].Attaching? then
        Some(sys.(store := sys.store.Insert(AllocatedApp(sys.ops[op].name, sys.ops[op].ip)), ops := sys.ops - {op}))
      else None
    case Detach(op, name) =>
      if op in sys.ops then None
      else if name !in sys.store.byName then Some(sys)
      else Some(sys.(store := sys.store.Remove(name),
                     ops := sys.ops[op := Returning(sys.store.byName[name].containerIp)]))
    case GiveBack(op) =>
      if op in sys.ops && sys.ops[op].Returning? then Some(Return(net, sys, op, sys.ops[op].ip)) else None
    case Claim(op, name) =>
      if op in sys.ops then None
      else if name !in sys.claims then Some(sys)
      else Some(sys.(claims := sys.claims - {name}, ops := sys.ops[op := Recovering(name, sys.claims[name])]))
    case Reattach(op, ok) =>
      if op !in sys.ops || !sys.ops[op].Recovering? then None
      else if ok then
        Some(sys.(store := sys.store.Insert(AllocatedApp(sys.ops[op].name, sys.ops[op].ip)), ops := sys.ops - {op}))
      else
        Some(sys.(lost := sys.lost + {sys.ops[op].ip}, ops := sys.ops - {op}))
    case Cleanup(op) =>
      if op in sys.ops && sys.ops[op].Recovering? then Some(Return(net, sys, op, sys.ops[op].ip)) else None
  }

  // ---- conservation ----

  /** `ip` is in the hands of an operation, or of an unresolved claim. */
  ghost predicate InTransit(sys: Sys, ip: Ipv4) { exists op :: op in sys.ops && sys.ops[op].ip == ip }
  ghost predicate Claimed(sys: Sys, ip: Ipv4) { exists n :: n in sys.claims && sys.claims[n] == ip }

  function Count(b: bool): nat { if b then 1 else 0 }

  /** In how many places address `ip` is. */
  ghost function Places(sys: Sys, ip: Ipv4): nat {
    Count(ip in sys.free) + Count(InTransit(sys, ip)) + Count(ip in sys.store.byIp) +
    Count(Claimed(sys, ip)) + Count(ip in sys.lost)
  }

  /** No two operations, and no two claims, hold the same address. */
  ghost predicate HoldersDistinct(sys: Sys) {
    && (forall o, p :: o in sys.ops && p in sys.ops && sys.ops[o].ip == sys.ops[p].ip ==> o == p)
    && (forall n, m :: n in sys.claims && m in sys.claims && sys.claims[n] == sys.claims[m] ==> n == m)
  }

  /**
   * The host addresses minus the bridge are the disjoint union of free, in
   * transit, registered, claimed and lost, and the two indexes are inverse.
   */
  ghost predicate Conserved(net: Net, sys: Sys) {
    && (forall ip: Ipv4 :: Places(sys, ip) == Count(ip in Pool(net.subnet, net.bridgeIp)))
    && HoldersDistinct(sys)
    && sys.store.Coherent()
  }

  /** The operation is about to put its endpoint under a name that is still taken. */
  predicate Overwrites(sys: Sys, a: Action) {
    match a
    case Commit(op) => op in sys.ops && sys.ops[op].Attaching? && sys.ops[op].name in sys.store.byName
    case Reattach(op, ok) => ok && op in sys.ops && sys.ops[op].Recovering? && sys.ops[op].name in sys.store.byName
    case _ => false
  }

  /** An address moved to the hands of operation `op` and nothing else about holders changed. */
  lemma Grabbed(sys: Sys, sys': Sys, op: OpId, o: Op)
    requires op !in sys.ops && sys'.ops == sys.ops[op := o]
    ensures forall ip: Ipv4 :: InTransit(sys', ip) <==> InTransit(sys, ip) || ip == o.ip
  {
    forall ip: Ipv4 ensures InTransit(sys', ip) <==> InTransit(sys, ip) || ip == o.ip {
      if InTransit(sys, ip) {
        var p :| p in sys.ops && sys.ops[p].ip == ip;
        assert p in sys'.ops && sys'.ops[p].ip == ip;
      }
      if ip == o.ip { assert sys'.ops[op].ip == ip; }
    }
  }

  lemma LetGo(sys: Sys, sys': Sys, op: OpId)
    requires op in sys.ops && sys'.ops == sys.ops - {op} && HoldersDistinct(sys)
    ensures forall ip: Ipv4 :: InTransit(sys', ip) <==> InTransit(sys, ip) && ip != sys.ops[op].ip
  {
    forall ip: Ipv4 ensures InTransit(sys', ip) <==> InTransit(sys, ip) && ip != sys.ops[op].ip {
      if InTransit(sys, ip) && ip != sys.ops[op].ip {
        var p :| p in sys.ops && sys.ops[p].ip == ip;
        assert p in sys'.ops && sys'.ops[p].ip == ip;
      }
      if InTransit(sys', ip) {
        var p :| p in sys'.ops && sys'.ops[p].ip == ip;
        assert sys.ops[p].ip == ip;
      }
    }
  }

  lemma ClaimTaken(sys: Sys, sys': Sys, name: string)
    requires name in sys.claims && sys'.claims == sys.claims - {name} && HoldersDistinct(sys)
    ensures forall ip: Ipv4 :: Claimed(sys', ip) <==> Claimed(sys, ip) && ip != sys.claims[name]
  {
    forall ip: Ipv4 ensures Claimed(sys', ip) <==> Claimed(sys, ip) && ip != sys.claims[name] {
      if Claimed(sys, ip) && ip != sys.claims[name] {
        var n :| n in sys.claims && sys.claims[n] == ip;
        assert n in sys'.claims && sys'.claims[n] == ip;
      }
      if Claimed(sys', ip) {
        var n :| n in sys'.claims && sys'.claims[n] == ip;
        assert sys.claims[n] == ip;
      }
    }
  }

  lemma TakeConserves(net: Net, sys: Sys, op: OpId, name: string, ip: Ipv4)
    requires Conserved(net, sys) && op !in sys.ops && IsLowest(ip, sys.free)
    ensures Conserved(net, Step(net, sys, Take(op, name, ip)).value)
  {
    var sys' := Step(net, sys, Take(op, name, ip)).value;
    Grabbed(sys, sys', op, Attaching(name, ip));
    assert Places(sys, ip) <= 1;
    forall o | o in sys.ops ensures sys.ops[o].ip != ip { assert InTransit(sys, sys.ops[o].ip); }
    forall j: Ipv4 ensures Places(sys', j) == Places(sys, j) { assert Claimed(sys', j) == Claimed(sys, j); }
  }

  lemma ReturnConserves(net: Net, sys: Sys, op: OpId)
    requires Conserved(net, sys) && op in sys.ops
    ensures Conserved(net, Return(net, sys, op, sys.ops[op].ip))
  {
    var ip, sys' := sys.ops[op].ip, Return(net, sys, op, sys.ops[op].ip);
    LetGo(sys, sys', op);
    assert InTransit(sys, ip) && Places(sys, ip) == Count(ip in Pool(net.subnet, net.bridgeIp));
    forall j: Ipv4 ensures Places(sys', j) == Places(sys, j) { assert Claimed(sys', j) == Claimed(sys, j); }
  }

  lemma DetachConserves(net: Net, sys: Sys, op: OpId, name: string)
    requires Conserved(net, sys) && op !in sys.ops && name in sys.store.byName
    ensures Conserved(net, Step(net, sys, Detach(op, name)).value)
  {
    var ip, sys' := sys.store.byName[name].containerIp, Step(net, sys, Detach(op, name)).value;
    sys.store.RemoveCoherent(name);
    Grabbed(sys, sys', op, Returning(ip));
    assert Places(sys, ip) <= 1;
    forall o | o in sys.ops ensures sys.ops[o].ip != ip { assert InTransit(sys, sys.ops[o].ip); }
    forall j: Ipv4 ensures Places(sys', j) == Places(sys, j) { assert Claimed(sys', j) == Claimed(sys, j); }
  }

  lemma ClaimConserves(net: Net, sys: Sys, op: OpId, name: string)
    requires Conserved(net, sys) && op !in sys.ops && name in sys.claims
    ensures Conserved(net, Step(net, sys, Claim(op, name)).value)
  {
    var ip, sys' := sys.claims[name], Step(net, sys, Claim(op, name)).value;
    Grabbed(sys, sys', op, Recovering(name, ip));
    ClaimTaken(sys, sys', name);
    assert Claimed(sys, ip) && Places(sys, ip) <= 1;
    forall o | o in sys.ops ensures sys.ops[o].ip != ip { assert InTransit(sys, sys.ops[o].ip); }
    forall j: Ipv4 ensures Places(sys', j) == Places(sys, j) {}
  }

  lemma LoseConserves(net: Net, sys: Sys, op: OpId)
    requires Conserved(net, sys) && op in sys.ops && sys.ops[op].Recovering?
    ensures Conserved(net, Step(net, sys, Reattach(op, false)).value)
  {
    var ip, sys' := sys.ops[op].ip, Step(net, sys, Reattach(op, false)).value;
    LetGo(sys, sys', op);
    assert InTransit(sys, ip) && Places(sys, ip) <= 1;
    forall j: Ipv4 ensures Places(sys', j) == Places(sys, j) { assert Claimed(sys', j) == Claimed(sys, j); }
  }

  /** Registering an endpoint conserves the pool exactly when its name is vacant. */
  lemma RegisterConserves(net: Net, sys: Sys, op: OpId, sys': Sys)
    requires Conserved(net, sys) && op in sys.ops && !sys.ops[op].Returning?
    requires sys' == sys.(store := sys.store.Insert(AllocatedApp(sys.ops[op].name, sys.ops[op].ip)),
                          ops := sys.ops - {op})
    ensures Conserved(net, sys') <==> sys.ops[op].name !in sys.store.byName
  {
    var app := AllocatedApp(sys.ops[op].name, sys.ops[op].ip);
    assert InTransit(sys, app.containerIp) && Places(sys, app.containerIp) <= 1;
    sys.store.InsertCoherent(app);
    if app.name !in sys.store.byName {
      LetGo(sys, sys', op);
      forall j: Ipv4 ensures Places(sys', j) == Places(sys, j) { assert Claimed(sys', j) == Claimed(sys, j); }
    } else {
      assert sys.store.byName[app.name].containerIp in sys.store.byIp;
    }
  }

  /**
   * One step of any operation, started from any interleaving: the pool is
   * conserved exactly when the step does not overwrite a live endpoint.
   */
  lemma StepConserves(net: Net, sys: Sys, a: Action, sys': Sys)
    requires Conserved(net, sys) && Step(net, sys, a) == Some(sys')
    ensures Conserved(net, sys') <==> !Overwrites(sys, a)
  {
    match a
    case Take(op, name, ip) => TakeConserves(net, sys, op, name, ip);
    case AttachFailed(op) => ReturnConserves(net, sys, op);
    case Commit(op) => RegisterConserves(net, sys, op, sys');
    case Detach(op, name) => if name in sys.store.byName { DetachConserves(net, sys, op, name); }
    case GiveBack(op) => ReturnConserves(net, sys, op);
    case Claim(op, name) => if name in sys.claims { ClaimConserves(net, sys, op, name); }
    case Reattach(op, ok) => if ok { RegisterConserves(net, sys, op, sys'); } else { LoseConserves(net, sys, op); }
    case Cleanup(op) => ReturnConserves(net, sys, op);
  }

  // ---- the caller's side of the contract ----

  /** `name` is about to be registered by operation `op`. */
  predicate Registering(sys: Sys, op: OpId, name: string) {
    op in sys.ops && !sys.ops[op].Returning? && sys.ops[op].name == name
  }

  /**
   * What the lifecycle guarantees: an endpoint is only allocated under a name
   * that has none, is not being given one, and has no unresolved claim.
   */
  ghost predicate Fresh(sys: Sys, name: string) {
    name !in sys.store.byName && name !in sys.claims && forall op :: !Registering(sys, op, name)
  }

  ghost predicate Courteous(sys: Sys, a: Action) {
    a.Take? ==> Fresh(sys, a.name)
  }

  /** Every name has at most one source of a registration. */
  ghost predicate NamesOk(sys: Sys) {
    && (forall op, n :: Registering(sys, op, n) ==> n !in sys.store.byName && n !in sys.claims)
    && (forall o, p, n :: Registering(sys, o, n) && Registering(sys, p, n) ==> o == p)
    && (forall n :: n in sys.claims ==> n !in sys.store.byName)
  }

  lemma NamesStayOk(net: Net, sys: Sys, a: Action, sys': Sys)
    requires NamesOk(sys) && Courteous(sys, a) && Step(net, sys, a) == Some(sys')
    ensures NamesOk(sys') && !Overwrites(sys, a)
  {
    forall op, n ensures Registering(sys', op, n) ==>
                           || Registering(sys, op, n)
                           || (a.Take? && op == a.op && n == a.name)
                           || (a.Claim? && op == a.op && n == a.name && n in sys.claims)
    {
    }
    match a
    case Commit(op) => assert Registering(sys, op, sys.ops[op].name);
    case Reattach(op, ok) => assert Registering(sys, op, sys.ops[op].name);
    case _ =>
  }

  ghost predicate CourteousRun(net: Net, sys: Sys, actions: seq<Action>)
    decreases |actions|
  {
    actions == [] ||
    (&& Courteous(sys, actions[0])
     && Step(net, sys, actions[0]).Some?
     && CourteousRun(net, Step(net, sys, actions[0]).value, actions[1..]))
  }

  ghost function Run(net: Net, sys: Sys, actions: seq<Action>): Option<Sys>
    decreases |actions|
  {
    if actions == [] then Some(sys)
    else
      match Step(net, sys, actions[0])
      case None => None
      case Some(sys') => Run(net, sys', actions[1..])
  }

  /**
   * Conservation over whole runs: however the sections of any number of
   * allocations, releases (also several for one name), reattachments and
   * cleanups interleave, every host address is in exactly one place.
   */
  lemma RunConserves(net: Net, sys: Sys, actions: seq<Action>)
    requires Conserved(net, sys) && NamesOk(sys) && CourteousRun(net, sys, actions)
    ensures Run(net, sys, actions).Some?
    ensures Conserved(net, Run(net, sys, actions).value) && NamesOk(Run(net, sys, actions).value)
    decreases |actions|
  {
    if actions != [] {
      var sys' := Step(net, sys, actions[0]).value;
      NamesStayOk(net, sys, actions[0], sys');
      StepConserves(net, sys, actions[0], sys');
      RunConserves(net, sys', actions[1..]);
    }
  }

  /** The state `Egress::new` starts from, given what it discovered in the kernel. */
  ghost predicate Boot(net: Net, sys: Sys) {
    && sys.store == Store(map[], map[]) && sys.ops == map[] && sys.lost == {}
    && (forall n :: n in sys.claims ==> sys.claims[n] in Pool(net.subnet, net.bridgeIp))
    && (forall n, m :: n in sys.claims && m in sys.claims && sys.claims[n] == sys.claims[m] ==> n == m)
    && sys.free == Pool(net.subnet, net.bridgeIp) - sys.claims.Values
  }

  lemma BootConserved(net: Net, sys: Sys)
    requires Boot(net, sys)
    ensures Conserved(net, sys) && NamesOk(sys)
  {
  }

  /** When every operation has completed, no address is stuck between the two locks. */
  lemma QuietMeansNothingInTransit(net: Net, sys: Sys)
    requires Conserved(net, sys) && sys.ops == map[] && sys.claims == map[]
    ensures Pool(net.subnet, net.bridgeIp) == sys.free + sys.store.byIp.Keys + sys.lost
    ensures sys.free !! sys.store.byIp.Keys !! sys.lost
  {
  }

  // ---- what may be lost ----

  /** The action reattaches a survivor in vain, and this is its address. */
  predicate LosesAddress(sys: Sys, a: Action, ip: Ipv4) {
    a.Reattach? && !a.ok && a.op in sys.ops && sys.ops[a.op].Recovering? && sys.ops[a.op].ip == ip
  }

  ghost predicate EverLost(net: Net, sys: Sys, actions: seq<Action>, ip: Ipv4)
    decreases |actions|
  {
    actions != [] &&
    (LosesAddress(sys, actions[0], ip) ||
     (Step(net, sys, actions[0]).Some? && EverLost(net, Step(net, sys, actions[0]).value, actions[1..], ip)))
  }

  /** In any interleaving, an address is lost exactly if it was before or its reattachment failed. */
  lemma {:induction false} LostExactly(net: Net, sys: Sys, actions: seq<Action>, ip: Ipv4)
    requires Run(net, sys, actions).Some?
    ensures ip in Run(net, sys, actions).value.lost <==> ip in sys.lost || EverLost(net, sys, actions, ip)
    decreases |actions|
  {
    if actions != [] {
      LostExactly(net, Step(net, sys, actions[0]).value, actions[1..], ip);
    }
  }

  /**
   * When everything has completed, what is not registered is free, apart from
   * the addresses whose reattachment failed: no release, no failed attach and
   * no cleanup ever costs an address.
   */
  lemma QuietMeansFree(net: Net, sys: Sys, actions: seq<Action>)
    requires Conserved(net, sys) && NamesOk(sys) && CourteousRun(net, sys, actions)
    ensures Run(net, sys, actions).Some?
    ensures var sys' := Run(net, sys, actions).value;
            sys'.ops == map[] && sys'.claims == map[] ==>
              forall ip: Ipv4 :: ip in sys'.free <==>
                && ip in Pool(net.subnet, net.bridgeIp) && ip !in sys'.store.byIp
                && ip !in sys.lost && !EverLost(net, sys, actions, ip)
  {
    RunConserves(net, sys, actions);
    var sys' := Run(net, sys, actions).value;
    if sys'.ops == map[] && sys'.claims == map[] {
      forall ip: Ipv4
        ensures ip in sys'.free <==>
                  && ip in Pool(net.subnet, net.bridgeIp) && ip !in sys'.store.byIp
                  && ip !in sys.lost && !EverLost(net, sys, actions, ip)
      {
        LostExactly(net, sys, actions, ip);
        assert Places(sys', ip) == Count(ip in Pool(net.subnet, net.bridgeIp));
      }
    }
  }

  // ---- one operation from start to end ----

  /** The books of the system, as the controller of `Egress` keeps them. */
  function Books(sys: Sys): EgressView {
    EgressView(sys.free, sys.store)
  }

  lemma OneStep(net: Net, sys: Sys, a: Action)
    ensures Run(net, sys, [a]) == Step(net, sys, a)
  {
    assert [a][1..] == [];
  }

  lemma TwoSteps(net: Net, sys: Sys, a: Action, b: Action)
    requires Step(net, sys, a).Some?
    ensures Run(net, sys, [a, b]) == Step(net, Step(net, sys, a).value, b)
  {
    assert [a, b][1..] == [b];
    OneStep(net, Step(net, sys, a).value, b);
  }

  /**
   * Each operation, when its sections follow each other, does to the books what
   * the controller promises: an allocation registers the lowest free address, a
   * failed one leaves no trace, and a release frees what was registered.
   */
  lemma OperationsAgree(net: Net, sys: Sys, op: OpId, name: string, ip: Ipv4)
    requires Conserved(net, sys) && op !in sys.ops
    ensures Step(net, sys, Take(op, name, ip)).Some? <==> ip in sys.free && forall j :: j in sys.free ==> ip <= j
    ensures IsLowest(ip, sys.free) ==>
              && Ended(net, sys, [Take(op, name, ip), Commit(op)], Books(sys).Add(name, ip))
              && Ended(net, sys, [Take(op, name, ip), AttachFailed(op)], Books(sys))
    ensures name in sys.store.byName ==> Ended(net, sys, [Detach(op, name), GiveBack(op)], Books(sys).Drop(name))
    ensures name !in sys.store.byName ==> Step(net, sys, Detach(op, name)) == Some(sys)
  {
    if IsLowest(ip, sys.free) { AllocationAgrees(net, sys, op, name, ip); }
    if name in sys.store.byName { ReleaseAgrees(net, sys, op, name); }
  }

  /** The actions end with these books, and with nothing else changed. */
  ghost predicate Ended(net: Net, sys: Sys, actions: seq<Action>, books: EgressView) {
    Run(net, sys, actions) == Some(sys.(free := books.free, store := books.store))
  }

  lemma InPool(net: Net, sys: Sys, ip: Ipv4)
    requires Conserved(net, sys) && (ip in sys.free || ip in sys.store.byIp || Claimed(sys, ip))
    ensures ip in Pool(net.subnet, net.bridgeIp)
    ensures AfterRelease(net.subnet, net.bridgeIp, sys.free, ip) == sys.free + {ip}
  {
    assert Places(sys, ip) == Count(ip in Pool(net.subnet, net.bridgeIp));
  }

  lemma AllocationAgrees(net: Net, sys: Sys, op: OpId, name: string, ip: Ipv4)
    requires Conserved(net, sys) && op !in sys.ops && IsLowest(ip, sys.free)
    ensures Ended(net, sys, [Take(op, name, ip), Commit(op)], Books(sys).Add(name, ip))
    ensures Ended(net, sys, [Take(op, name, ip), AttachFailed(op)], Books(sys))
  {
    InPool(net, sys, ip);
    TwoSteps(net, sys, Take(op, name, ip), Commit(op));
    TwoSteps(net, sys, Take(op, name, ip), AttachFailed(op));
    assert sys.ops[op := Attaching(name, ip)] - {op} == sys.ops;
    assert sys.free - {ip} + {ip} == sys.free;
  }

  lemma ReleaseAgrees(net: Net, sys: Sys, op: OpId, name: string)
    requires Conserved(net, sys) && op !in sys.ops && name in sys.store.byName
    ensures Ended(net, sys, [Detach(op, name), GiveBack(op)], Books(sys).Drop(name))
  {
    var ip := sys.store.byName[name].containerIp;
    InPool(net, sys, ip);
    TwoSteps(net, sys, Detach(op, name), GiveBack(op));
    assert sys.ops[op := Returning(ip)] - {op} == sys.ops;
  }

  /** A claim is spent once: its endpoint is registered as it was, or its address is free again, or lost. */
  lemma ClaimsAgree(net: Net, sys: Sys, op: OpId, name: string)
    requires Conserved(net, sys) && op !in sys.ops
    ensures name !in sys.claims ==> Step(net, sys, Claim(op, name)) == Some(sys)
    ensures name in sys.claims ==>
              var ip, spent := sys.claims[name], sys.(claims := sys.claims - {name});
              && Run(net, sys, [Claim(op, name), Reattach(op, true)])
                 == Some(spent.(store := Books(sys).Add(name, ip).store))
              && Run(net, sys, [Claim(op, name), Cleanup(op)]) == Some(spent.(free := sys.free + {ip}))
              && Run(net, sys, [Claim(op, name), Reattach(op, false)]) == Some(spent.(lost := sys.lost + {ip}))
  {
    if name in sys.claims {
      var ip := sys.claims[name];
      assert Claimed(sys, ip);
      InPool(net, sys, ip);
      TwoSteps(net, sys, Claim(op, name), Reattach(op, true));
      TwoSteps(net, sys, Claim(op, name), Cleanup(op));
      TwoSteps(net, sys, Claim(op, name), Reattach(op, false));
      assert sys.ops[op := Recovering(name, ip)] - {op} == sys.ops;
    }
  }
}
