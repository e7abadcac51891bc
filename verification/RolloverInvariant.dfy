/**
 * The inductive invariant of the per-app machine, and the proof that one
 * disciplined step keeps it.
 */
module RolloverInvariant {
  import opened Prelude
  import opened Handle
  import opened Rollover

  /** Which task, if any, holds each of the three exclusive roles. */
  datatype Roles = Roles(starter: Option<TaskId>, roller: Option<TaskId>, stopper: Option<TaskId>)

  ghost predicate RolesOk(app: App, r: Roles) {
    && (forall t :: t in app.tasks && app.tasks[t].IsStarter() <==> r.starter == Some(t))
    && (forall t :: t in app.tasks && app.tasks[t].IsRoller() <==> r.roller == Some(t))
    && (forall t :: t in app.tasks && app.tasks[t].Tearing? <==> r.stopper == Some(t))
    && (app.state.Starting? <==> r.starter.Some?)
    && (app.state.Stopping? <==> r.stopper.Some?)
    && (app.state.RollingOver? ==>
          && r.roller.Some?
          && r.roller.value in app.tasks
          && app.tasks[r.roller.value].BeforeSwitch()
          && app.tasks[r.roller.value].FromIp() == app.state.fromIp)
  }

  predicate Vacant(side: Side) {
    side.container.None? && side.endpoint.None?
  }

  predicate Occupied(side: Side, ip: Ipv4) {
    side.container == Some(ip) && side.endpoint == Some(ip)
  }

  predicate Reserved(side: Side, ip: Ipv4) {
    side.container.None? && side.endpoint == Some(ip)
  }

  predicate StarterOk(cur: Side, slot: Slot, pc: Pc)
    requires pc.IsStarter()
  {
    match pc
    case Owner(None) => Vacant(cur)
    case Owner(Some(ip)) => Occupied(cur, ip)
    case Resuming(s, ip) => s == slot && Occupied(cur, ip)
    case Building(_, s, phase) =>
      s == slot &&
      match phase {
        case Unallocated => Vacant(cur)
        case Allocated(ip) => Reserved(cur, ip)
        case Pulled(ip) => Reserved(cur, ip)
        case Started(ip) => Occupied(cur, ip) && !cur.paused
        case Unready(ip) => Occupied(cur, ip)
        case Releasing => cur.container.None?
        case Built(Some(ip)) => Occupied(cur, ip) && !cur.paused
        case Built(None) => Vacant(cur)
      }
  }

  predicate StopperOk(cur: Side, slot: Slot, pc: Pc)
    requires pc.Tearing?
  {
    var o := slot.Other();
    && (pc.todo == [slot, o] || pc.todo == [slot] || pc.todo == [o] || pc.todo == [])
    && (slot !in pc.todo ==> Vacant(cur))
    && (pc.todo != [] && pc.stopped && pc.todo[0] == slot ==> cur.container.None?)
  }

  /** The slot traffic is (or was last) served from. */
  predicate CurrentOk(app: App, r: Roles) {
    var cur := app.On(app.slot);
    match app.state
    case Stopped => Vacant(cur)
    case Running(ip) => Occupied(cur, ip) && !cur.paused
    case RollingOver(ip) => Occupied(cur, ip) && !cur.paused
    case Frozen(ip) => Occupied(cur, ip)
    case Starting =>
      r.starter.Some? && r.starter.value in app.tasks &&
      app.tasks[r.starter.value].IsStarter() && StarterOk(cur, app.slot, app.tasks[r.starter.value])
    case Stopping =>
      r.stopper.Some? && r.stopper.value in app.tasks &&
      app.tasks[r.stopper.value].Tearing? && StopperOk(cur, app.slot, app.tasks[r.stopper.value])
  }

  /** While `intact` (no stop interfered), the built side is exactly as the ladder left it. */
  predicate RollerOk(opp: Side, other: Slot, intact: bool, pc: Pc)
    requires pc.IsRoller()
  {
    match pc
    case Entered(_) => Vacant(opp)
    case Building(_, s, phase) =>
      s == other &&
      match phase {
        case Unallocated => Vacant(opp)
        case Allocated(ip) => Reserved(opp, ip) || (!intact && Vacant(opp))
        case Pulled(ip) => Reserved(opp, ip) || (!intact && Vacant(opp))
        case Started(ip) => intact ==> Occupied(opp, ip)
        case Unready(_) => true
        case Releasing => opp.container.None?
        case Built(Some(ip)) => intact ==> Occupied(opp, ip)
        case Built(None) => Vacant(opp)
      }
    case Draining(s, _) => s == other
    case TearStop(s, _) => s == other
    case TearRelease(s, _) => s == other && opp.container.None?
  }

  /** The slot a rollover builds into or tears down. */
  predicate OppositeOk(app: App, r: Roles) {
    var opp := app.On(app.slot.Other());
    && !opp.paused
    && (match r.roller
        case None => Vacant(opp)
        case Some(t) =>
          t in app.tasks && app.tasks[t].IsRoller() &&
          RollerOk(opp, app.slot.Other(), app.state.RollingOver?, app.tasks[t]))
  }

  /**
   * While the app is frozen, a task on its way through the thaw of
   * `enter_rolling_over` unfreezes the slot in use, or nothing at all, and no
   * task is about to commit a thaw that was undone.
   */
  predicate ThawOk(app: App) {
    && (app.sideA.paused ==> app.sideA.container.Some?)
    && (app.sideB.paused ==> app.sideB.container.Some?)
    && (app.state.Frozen? ==>
          && (forall t :: t in app.tasks && app.tasks[t].Thawed? ==> !app.On(app.slot).paused)
          && (Barren(app) || forall t :: t in app.tasks && app.tasks[t].ThawAt? ==> app.tasks[t].slot == app.slot))
  }

  predicate AddressesOk(w: World) {
    var a, b := w.app.sideA.endpoint, w.app.sideB.endpoint;
    && (a.Some? ==> a.value !in w.free)
    && (b.Some? ==> b.value !in w.free)
    && (a.Some? ==> a != b)
  }

  predicate ParityOk(app: App) {
    app.slot == if app.hist.switches % 2 == 0 then Slot.A else Slot.B
  }

  ghost predicate InvFor(w: World, r: Roles) {
    && RolesOk(w.app, r)
    && CurrentOk(w.app, r)
    && OppositeOk(w.app, r)
    && ThawOk(w.app)
    && AddressesOk(w)
    && ParityOk(w.app)
  }

  /** How many registered endpoints use `ip`. */
  function Held(app: App, ip: Ipv4): nat {
    (if app.sideA.endpoint == Some(ip) then 1 else 0) + (if app.sideB.endpoint == Some(ip) then 1 else 0)
  }

  predicate Balanced(app: App, ip: Ipv4) {
    app.hist.taken[ip] == app.hist.returned[ip] + Held(app, ip)
  }

  /** The address book balances: what was taken is held or went back, with multiplicity. */
  ghost predicate LedgerOk(app: App) {
    forall ip: Ipv4 :: Balanced(app, ip)
  }

  ghost predicate Inv(w: World) {
    LedgerOk(w.app) && exists r: Roles :: InvFor(w, r)
  }

  // ---- what a step does to the parts of the invariant ----

  lemma ReleaseAddresses(w: World, s: Slot)
    requires AddressesOk(w)
    ensures AddressesOk(ReleaseEndpoint(w, s))
  {
  }

  lemma SameAddresses(w: World, w': World)
    requires AddressesOk(w) && w'.free == w.free && w'.app.hist == w.app.hist
    requires w'.app.sideA.endpoint == w.app.sideA.endpoint && w'.app.sideB.endpoint == w.app.sideB.endpoint
    ensures AddressesOk(w')
  {
  }

  lemma MovedAddresses(w: World, t: TaskId, pc: Pc)
    requires AddressesOk(w)
    ensures AddressesOk(w.At(t, pc))
  {
  }

  /** `w'` is `w` with task `t` at `pc`, side `s` replaced, and the address books updated. */
  ghost predicate Touches(w: World, t: TaskId, pc: Pc, s: Slot, side: Side, w': World) {
    && t in w.app.tasks && w'.app.tasks == w.app.tasks[t := pc]
    && w'.app.state == w.app.state && w'.app.slot == w.app.slot
    && w'.app.On(s) == side && w'.app.On(s.Other()) == w.app.On(s.Other())
    && w'.app.hist.switches == w.app.hist.switches
    && (side.paused ==> side.container.Some?)
  }

  predicate NoRole(pc: Pc) {
    !pc.IsStarter() && !pc.IsRoller() && !pc.Tearing?
  }

  lemma RolesUntouched(app: App, r: Roles, t: TaskId, pc: Pc, app': App)
    requires RolesOk(app, r) && app'.tasks == app.tasks[t := pc] && app'.state == app.state
    requires NoRole(pc) && (t in app.tasks ==> NoRole(app.tasks[t]))
    ensures RolesOk(app', r) && r.starter != Some(t) && r.stopper != Some(t) && r.roller != Some(t)
  {
  }

  lemma RolesStay(app: App, r: Roles, t: TaskId, pc: Pc, app': App)
    requires RolesOk(app, r) && t in app.tasks && app'.tasks == app.tasks[t := pc] && app'.state == app.state
    requires pc.IsStarter() <==> app.tasks[t].IsStarter()
    requires pc.IsRoller() <==> app.tasks[t].IsRoller()
    requires pc.Tearing? <==> app.tasks[t].Tearing?
    requires app.state.RollingOver? && app.tasks[t].IsRoller() ==> pc.BeforeSwitch() && pc.FromIp() == app.state.fromIp
    ensures RolesOk(app', r)
  {
  }

  predicate ThawFits(app: App, pc: Pc) {
    (pc.Thawed? ==> !app.On(app.slot).paused) && (pc.ThawAt? ==> pc.slot == app.slot)
  }

  lemma ThawStays(app: App, t: TaskId, pc: Pc, app': App)
    requires ThawOk(app) && app'.tasks == app.tasks[t := pc] && NoRole(pc)
    requires app'.state == app.state && app'.slot == app.slot
    requires app'.sideA == app.sideA && app'.sideB == app.sideB
    requires app.state.Frozen? ==> ThawFits(app, pc)
    ensures ThawOk(app')
  {
    if Barren(app) { assert Barren(app'); }
  }

  lemma CurrentStays(app: App, r: Roles, t: TaskId, pc: Pc, app': App)
    requires CurrentOk(app, r) && app'.tasks == app.tasks[t := pc]
    requires app'.state == app.state && app'.slot == app.slot && app'.On(app.slot) == app.On(app.slot)
    requires r.starter != Some(t) && r.stopper != Some(t)
    ensures CurrentOk(app', r)
  {
  }

  lemma OppositeStays(app: App, r: Roles, t: TaskId, pc: Pc, app': App)
    requires OppositeOk(app, r) && app'.tasks == app.tasks[t := pc]
    requires app'.slot == app.slot && app'.On(app.slot.Other()) == app.On(app.slot.Other())
    requires app'.state.RollingOver? <==> app.state.RollingOver?
    requires r.roller != Some(t)
    ensures OppositeOk(app', r)
  {
  }

  lemma StarterStays(w: World, r: Roles, t: TaskId, pc: Pc, side: Side, w': World)
    requires InvFor(w, r) && Touches(w, t, pc, w.app.slot, side, w') && AddressesOk(w')
    requires w.app.tasks[t].IsStarter() && pc.IsStarter() && StarterOk(side, w.app.slot, pc)
    ensures InvFor(w', r)
  {
    var app, app' := w.app, w'.app;
    assert r.starter == Some(t) && app.state.Starting?;
    assert app'.On(app.slot) == side && app'.On(app.slot.Other()) == app.On(app.slot.Other());
    RolesStay(app, r, t, pc, app');
    OppositeStays(app, r, t, pc, app');
    assert CurrentOk(app', r);
    assert ThawOk(app');
  }

  lemma OppositeMoves(app: App, r: Roles, t: TaskId, pc: Pc, app': App)
    requires r.roller == Some(t) && app'.tasks == app.tasks[t := pc] && pc.IsRoller()
    requires !app'.On(app'.slot.Other()).paused
    requires RollerOk(app'.On(app'.slot.Other()), app'.slot.Other(), app'.state.RollingOver?, pc)
    ensures OppositeOk(app', r)
  {
  }

  lemma RollerStays(w: World, r: Roles, t: TaskId, pc: Pc, side: Side, w': World)
    requires InvFor(w, r) && Touches(w, t, pc, w.app.slot.Other(), side, w') && AddressesOk(w')
    requires w.app.tasks[t].IsRoller() && pc.IsRoller() && !side.paused
    requires RollerOk(side, w.app.slot.Other(), w.app.state.RollingOver?, pc)
    requires w.app.state.RollingOver? ==> pc.BeforeSwitch() && pc.FromIp() == w.app.state.fromIp
    requires CanStart(pc) || (side.container.Some? && w.app.On(w.app.slot.Other()).container.None?) ==>
               CanStart(w.app.tasks[t])
    ensures InvFor(w', r)
  {
    var app, app' := w.app, w'.app;
    assert r.roller == Some(t);
    assert app'.On(app.slot) == app.On(app.slot) && app'.On(app.slot.Other()) == side;
    RolesStay(app, r, t, pc, app');
    CurrentStays(app, r, t, pc, app');
    OppositeMoves(app, r, t, pc, app');
    assert ThawOk(app') by { RollerThaw(app, t, pc, side, app'); }
  }

  lemma RollerThaw(app: App, t: TaskId, pc: Pc, side: Side, app': App)
    requires ThawOk(app) && t in app.tasks && app'.tasks == app.tasks[t := pc] && pc.IsRoller()
    requires app'.state == app.state && app'.slot == app.slot && app'.On(app.slot) == app.On(app.slot)
    requires app'.On(app.slot.Other()) == side && (side.paused ==> side.container.Some?)
    requires CanStart(pc) || (side.container.Some? && app.On(app.slot.Other()).container.None?) ==>
               CanStart(app.tasks[t])
    ensures ThawOk(app')
  {
    if Barren(app) { assert Barren(app'); }
  }

  lemma BystanderMoves(w: World, r: Roles, t: TaskId, pc: Pc)
    requires InvFor(w, r) && t in w.app.tasks && NoRole(w.app.tasks[t]) && NoRole(pc)
    requires w.app.state.Frozen? ==> ThawFits(w.app, pc)
    ensures InvFor(w.At(t, pc), r)
  {
    var app' := w.At(t, pc).app;
    RolesUntouched(w.app, r, t, pc, app');
    CurrentStays(w.app, r, t, pc, app');
    OppositeStays(w.app, r, t, pc, app');
    ThawStays(w.app, t, pc, app');
    MovedAddresses(w, t, pc);
  }

  lemma UnfreezeKeeps(w: World, r: Roles, s: Slot)
    requires InvFor(w, r)
    ensures InvFor(World(UnfreezeContainer(w.app, s), w.free), r)
    ensures s == w.app.slot ==> !UnfreezeContainer(w.app, s).On(s).paused
  {
  }

  lemma BystanderEnds(w: World, r: Roles, t: TaskId)
    requires InvFor(w, r) && t in w.app.tasks && NoRole(w.app.tasks[t])
    ensures InvFor(w.Done(t), r)
  {
  }

  // ---- preservation, one lemma per kind of step ----

  lemma SpawnKeeps(w: World, r: Roles, t: TaskId, pc: Pc)
    requires InvFor(w, r) && t !in w.app.tasks && (pc.Looping? || pc.Pulling?)
    ensures InvFor(w.At(t, pc), r)
  {
    var app' := w.At(t, pc).app;
    RolesUntouched(w.app, r, t, pc, app');
    CurrentStays(w.app, r, t, pc, app');
    OppositeStays(w.app, r, t, pc, app');
    ThawStays(w.app, t, pc, app');
    MovedAddresses(w, t, pc);
  }

  lemma StopKeeps(w: World, r: Roles, t: TaskId)
    requires InvFor(w, r) && t !in w.app.tasks && w.app.state.NeedsTeardown() && !w.app.state.Starting?
    ensures InvFor(
              World(w.app.(state := Stopping), w.free).At(t, Tearing(w.app.state.LiveSlots(w.app.slot), false)),
              r.(stopper := Some(t)))
  {
  }

  lemma FreezeKeeps(w: World, r: Roles)
    requires InvFor(w, r) && w.app.state.Running? && Disciplined(w.app, Freeze(true))
    ensures InvFor(Step(w, Freeze(true)).value, r)
  {
  }

  lemma ClaimKeeps(w: World, r: Roles, t: TaskId)
    requires InvFor(w, r) && t in w.app.tasks && w.app.tasks[t] == Looping && w.app.state.ClaimOf().Claimed?
    ensures InvFor(World(w.app.(state := Starting), w.free).At(t, Owner(w.app.state.ClaimOf().resumeFrom)),
                   r.(starter := Some(t)))
  {
  }

  lemma FinishStartKeeps(w: World, r: Roles, t: TaskId, s: Slot, result: Option<Ipv4>)
    requires InvFor(w, r) && t in w.app.tasks && w.app.tasks[t] == Building(ColdBuild, s, Built(result))
    ensures InvFor(World(w.app.(state := AfterStart(result)), w.free).Done(t), r.(starter := None))
  {
  }

  lemma StarterKeeps(w: World, r: Roles, t: TaskId, ok: bool, ip: Ipv4)
    requires InvFor(w, r) && t in w.app.tasks && w.app.tasks[t].IsStarter()
    requires w.app.tasks[t].Building? ==> !w.app.tasks[t].phase.Built?
    requires w.app.tasks[t].Resuming? ==> ok
    ensures InvFor(Next(w, t, w.app.tasks[t], ok, ip), r)
  {
    var cur, w' := w.app.On(w.app.slot), Next(w, t, w.app.tasks[t], ok, ip);
    assert r.starter == Some(t) && StarterOk(cur, w.app.slot, w.app.tasks[t]);
    match w.app.tasks[t]
    case Owner(_) =>
      StarterStays(w, r, t, w'.app.tasks[t], cur, w');
    case Resuming(_, _) =>
      StarterStays(w, r, t, w'.app.tasks[t], cur.(paused := false), w');
    case Building(_, s, phase) =>
      ColdClimbKeeps(w, r, t, s, phase, ok, ip);
  }

  /** What one rung of the ladder does to the side it works on. */
  predicate Rung(phase: Phase, side: Side, phase': Phase, side': Side) {
    match phase
    case Unallocated =>
      || (phase'.Allocated? && side' == side.(endpoint := Some(phase'.ip)))
      || (phase' == Built(None) && side' == side)
    case Allocated(a) => (phase' == Pulled(a) || phase' == Releasing) && side' == side
    case Pulled(a) =>
      || (phase' == Started(a) && side' == side.(container := Some(a), paused := false))
      || (phase' == Releasing && side' == side)
    case Started(a) => (phase' == Built(Some(a)) || phase' == Unready(a)) && side' == side
    case Unready(_) => phase' == Releasing && side' == side.(container := None, paused := false)
    case Releasing => phase' == Built(None) && side' == side.(endpoint := None)
    case Built(_) => false
  }

  lemma ClimbAddresses(w: World, t: TaskId, job: Job, s: Slot, phase: Phase, ok: bool, ip: Ipv4)
    requires AddressesOk(w) && !phase.Built? && (phase.Unallocated? ==> w.app.On(s).endpoint.None?)
    ensures AddressesOk(Climb(w, t, job, s, phase, ok, ip))
  {
  }

  lemma ClimbTouches(w: World, t: TaskId, job: Job, s: Slot, phase: Phase, ok: bool, ip: Ipv4)
    returns (phase': Phase, side': Side)
    requires t in w.app.tasks && !phase.Built?
    requires w.app.On(s).paused ==> w.app.On(s).container.Some?
    ensures Touches(w, t, Building(job, s, phase'), s, side', Climb(w, t, job, s, phase, ok, ip))
    ensures Rung(phase, w.app.On(s), phase', side')
  {
    var w' := Climb(w, t, job, s, phase, ok, ip);
    phase', side' := w'.app.tasks[t].phase, w'.app.On(s);
  }

  lemma ColdClimbKeeps(w: World, r: Roles, t: TaskId, s: Slot, phase: Phase, ok: bool, ip: Ipv4)
    requires InvFor(w, r) && t in w.app.tasks && w.app.tasks[t] == Building(ColdBuild, s, phase) && !phase.Built?
    ensures InvFor(Climb(w, t, ColdBuild, s, phase, ok, ip), r)
  {
    assert r.starter == Some(t) && StarterOk(w.app.On(s), w.app.slot, w.app.tasks[t]);
    ClimbAddresses(w, t, ColdBuild, s, phase, ok, ip);
    var phase', side' := ClimbTouches(w, t, ColdBuild, s, phase, ok, ip);
    StarterStays(w, r, t, Building(ColdBuild, s, phase'), side', Climb(w, t, ColdBuild, s, phase, ok, ip));
  }

  lemma RungFitsRoller(phase: Phase, side: Side, phase': Phase, side': Side, from: Ipv4, s: Slot, intact: bool)
    requires RollerOk(side, s, intact, Building(Replacement(from), s, phase)) && !side.paused
    requires Rung(phase, side, phase', side')
    ensures RollerOk(side', s, intact, Building(Replacement(from), s, phase')) && !side'.paused
  {
  }

  lemma ReplacementClimbKeeps(w: World, r: Roles, t: TaskId, from: Ipv4, s: Slot, phase: Phase, ok: bool, ip: Ipv4)
    requires InvFor(w, r) && t in w.app.tasks
    requires w.app.tasks[t] == Building(Replacement(from), s, phase) && !phase.Built?
    ensures InvFor(Climb(w, t, Replacement(from), s, phase, ok, ip), r)
  {
    var intact := w.app.state.RollingOver?;
    assert r.roller == Some(t) && RollerOk(w.app.On(s), w.app.slot.Other(), intact, w.app.tasks[t]);
    ClimbAddresses(w, t, Replacement(from), s, phase, ok, ip);
    var phase', side' := ClimbTouches(w, t, Replacement(from), s, phase, ok, ip);
    RungFitsRoller(phase, w.app.On(s), phase', side', from, s, intact);
    var w' := Climb(w, t, Replacement(from), s, phase, ok, ip);
    RollerStays(w, r, t, Building(Replacement(from), s, phase'), side', w');
  }

  lemma SwitchKeeps(w: World, r: Roles, t: TaskId, from: Ipv4, to: Slot, newIp: Ipv4)
    requires InvFor(w, r) && t in w.app.tasks
    requires w.app.tasks[t] == Building(Replacement(from), to, Built(Some(newIp))) && w.app.state.RollingOver?
    ensures InvFor(World(Conclude(w.app, t, from, to, Some(newIp)), w.free), r)
  {
  }

  lemma RollbackKeeps(w: World, r: Roles, t: TaskId, from: Ipv4, to: Slot)
    requires InvFor(w, r) && t in w.app.tasks
    requires w.app.tasks[t] == Building(Replacement(from), to, Built(None)) && w.app.state.RollingOver?
    ensures InvFor(World(Conclude(w.app, t, from, to, None), w.free), r)
  {
  }

  lemma ConcludeKeeps(w: World, r: Roles, t: TaskId, from: Ipv4, to: Slot, result: Option<Ipv4>)
    requires InvFor(w, r) && t in w.app.tasks
    requires w.app.tasks[t] == Building(Replacement(from), to, Built(result))
    ensures InvFor(World(Conclude(w.app, t, from, to, result), w.free), r)
  {
    var o := w.app.slot.Other();
    assert r.roller == Some(t) && RollerOk(w.app.On(o), o, w.app.state.RollingOver?, w.app.tasks[t]);
    if !w.app.state.RollingOver? {
      var w' := World(Conclude(w.app, t, from, to, result), w.free);
      RollerStays(w, r, t, TearStop(to, Abandoned), w.app.On(o), w');
    } else {
      match result
      case Some(newIp) => SwitchKeeps(w, r, t, from, to, newIp);
      case None => RollbackKeeps(w, r, t, from, to);
    }
  }

  /** The rollover steps outside the ladder, up to the last one. */
  lemma RollerKeeps(w: World, r: Roles, t: TaskId)
    requires InvFor(w, r) && t in w.app.tasks
    requires w.app.tasks[t].Entered? || w.app.tasks[t].Draining? || w.app.tasks[t].TearStop?
    ensures InvFor(Next(w, t, w.app.tasks[t], true, 0), r)
  {
    var o := w.app.slot.Other();
    var w', opp := Next(w, t, w.app.tasks[t], true, 0), w.app.On(o);
    assert r.roller == Some(t) && RollerOk(opp, o, w.app.state.RollingOver?, w.app.tasks[t]);
    match w.app.tasks[t]
    case Entered(_) => RollerStays(w, r, t, w'.app.tasks[t], opp, w');
    case Draining(_, _) => RollerStays(w, r, t, w'.app.tasks[t], opp, w');
    case TearStop(_, _) => RollerStays(w, r, t, w'.app.tasks[t], opp.(container := None), w');
  }

  lemma TailEndKeeps(w: World, r: Roles, t: TaskId, s: Slot, o: Outcome)
    requires InvFor(w, r) && t in w.app.tasks && w.app.tasks[t] == TearRelease(s, o)
    ensures InvFor(ReleaseEndpoint(w, s).Done(t), r.(roller := None))
  {
    ReleaseAddresses(w, s);
    var w', r' := ReleaseEndpoint(w, s).Done(t), r.(roller := None);
    SameAddresses(ReleaseEndpoint(w, s), w');
    assert RolesOk(w'.app, r');
    assert CurrentOk(w'.app, r');
  }

  lemma ThawCommitKeeps(w: World, r: Roles, t: TaskId)
    requires InvFor(w, r) && t in w.app.tasks && w.app.tasks[t].Thawed?
    ensures InvFor(World(w.app.(state := w.app.state.AfterThaw()), w.free).At(t, Gate), r)
  {
  }

  lemma ThawAtKeeps(w: World, r: Roles, t: TaskId, s: Slot, ok: bool)
    requires InvFor(w, r) && t in w.app.tasks && w.app.tasks[t] == ThawAt(s)
    ensures InvFor(Next(w, t, ThawAt(s), ok, 0), r)
  {
    if ok && w.app.On(s).container.Some? {
      assert w.app.state.Frozen? ==> s == w.app.slot;
      UnfreezeKeeps(w, r, s);
      BystanderMoves(World(UnfreezeContainer(w.app, s), w.free), r, t, Thawed);
    } else {
      BystanderEnds(w, r, t);
    }
  }

  lemma BystanderKeeps(w: World, r: Roles, t: TaskId, ok: bool)
    requires InvFor(w, r) && t in w.app.tasks
    requires var pc := w.app.tasks[t]; pc.Pulling? || pc.ThawCheck? || pc.ThawNeeded? || pc.ThawAt?
    ensures InvFor(Next(w, t, w.app.tasks[t], ok, 0), r)
  {
    match w.app.tasks[t]
    case Pulling =>
      if ok { BystanderMoves(w, r, t, ThawCheck); } else { BystanderEnds(w, r, t); }
    case ThawCheck => BystanderMoves(w, r, t, if w.app.state.Frozen? then ThawNeeded else Gate);
    case ThawNeeded => BystanderMoves(w, r, t, ThawAt(w.app.slot));
    case ThawAt(s) => ThawAtKeeps(w, r, t, s, ok);
  }

  lemma GateKeeps(w: World, r: Roles, t: TaskId)
    requires InvFor(w, r) && t in w.app.tasks && w.app.tasks[t] == Gate
    requires w.app.state.Running? && r.roller.None?
    ensures InvFor(World(w.app.(state := w.app.state.AfterEntry()), w.free).At(t, Entered(w.app.state.containerIp)),
                   r.(roller := Some(t)))
  {
  }

  /** A stop removes a container or an endpoint, never more. */
  predicate Shrinks(before: Side, after: Side) {
    after == before.(endpoint := None) || after == before.(container := None, paused := false) || after == before
  }

  lemma GateStepKeeps(w: World, r: Roles, t: TaskId) returns (r': Roles)
    requires InvFor(w, r) && t in w.app.tasks && w.app.tasks[t] == Gate
    requires w.app.state.Running? ==> forall u :: u in w.app.tasks ==> !w.app.tasks[u].IsRoller()
    ensures InvFor(Next(w, t, Gate, true, 0), r')
  {
    r' := r;
    match w.app.state
    case Running(_) =>
      GateKeeps(w, r, t);
      r' := r.(roller := Some(t));
    case Stopped => BystanderMoves(w, r, t, Looping);
    case _ => BystanderEnds(w, r, t);
  }

  lemma ElsewhereKeeps(w: World, r: Roles, free: set<Ipv4>)
    requires InvFor(w, r) && Step(w, Elsewhere(free)).Some?
    ensures InvFor(World(w.app, free), r)
  {
  }

  lemma StopperStays(w: World, r: Roles, t: TaskId, pc: Pc, side: Side, w': World)
    requires InvFor(w, r) && Touches(w, t, pc, w.app.slot, side, w') && AddressesOk(w')
    requires w.app.tasks[t].Tearing? && pc.Tearing? && StopperOk(side, w.app.slot, pc)
    ensures InvFor(w', r)
  {
  }

  lemma OppositeReaped(app: App, r: Roles, t: TaskId, pc: Pc, app': App)
    requires OppositeOk(app, r) && app'.tasks == app.tasks[t := pc] && r.roller != Some(t)
    requires app'.slot == app.slot && Shrinks(app.On(app.slot.Other()), app'.On(app.slot.Other()))
    requires !app.state.RollingOver? && !app'.state.RollingOver?
    ensures OppositeOk(app', r)
  {
  }

  lemma StopperReapsOpposite(w: World, r: Roles, t: TaskId, pc: Pc, side: Side, w': World)
    requires InvFor(w, r) && Touches(w, t, pc, w.app.slot.Other(), side, w') && AddressesOk(w')
    requires w.app.tasks[t].Tearing? && pc.Tearing? && StopperOk(w.app.On(w.app.slot), w.app.slot, pc)
    requires Shrinks(w.app.On(w.app.slot.Other()), side)
    ensures InvFor(w', r)
  {
    var app, app' := w.app, w'.app;
    assert r.stopper == Some(t) && app.state.Stopping?;
    assert app'.On(app.slot) == app.On(app.slot) && app'.On(app.slot.Other()) == side;
    RolesStay(app, r, t, pc, app');
    OppositeReaped(app, r, t, pc, app');
    assert CurrentOk(app', r);
    assert ThawOk(app');
  }

  /** One call of `teardown_containers`, as seen by the side it works on. */
  lemma TearTouches(w: World, t: TaskId, todo: seq<Slot>, stopped: bool) returns (pc: Pc, side': Side)
    requires t in w.app.tasks && AddressesOk(w) && todo != []
    requires w.app.On(todo[0]).paused ==> w.app.On(todo[0]).container.Some?
    ensures Touches(w, t, pc, todo[0], side', Next(w, t, Tearing(todo, stopped), true, 0))
    ensures AddressesOk(Next(w, t, Tearing(todo, stopped), true, 0))
    ensures pc == if stopped then Tearing(todo[1..], false) else Tearing(todo, true)
    ensures var side := w.app.On(todo[0]);
            side' == if stopped then side.(endpoint := None) else side.(container := None, paused := false)
  {
    var w' := Next(w, t, Tearing(todo, stopped), true, 0);
    pc, side' := w'.app.tasks[t], w'.app.On(todo[0]);
    if stopped { ReleaseAddresses(w, todo[0]); }
  }

  lemma TearingKeeps(w: World, r: Roles, t: TaskId, todo: seq<Slot>, stopped: bool)
    requires InvFor(w, r) && t in w.app.tasks && w.app.tasks[t] == Tearing(todo, stopped) && todo != []
    ensures InvFor(Next(w, t, Tearing(todo, stopped), true, 0), r)
  {
    var s, w' := todo[0], Next(w, t, Tearing(todo, stopped), true, 0);
    assert r.stopper == Some(t) && StopperOk(w.app.On(w.app.slot), w.app.slot, Tearing(todo, stopped));
    var pc, side := TearTouches(w, t, todo, stopped);
    if s == w.app.slot {
      StopperStays(w, r, t, pc, side, w');
    } else {
      StopperReapsOpposite(w, r, t, pc, side, w');
    }
  }

  lemma TearingEndKeeps(w: World, r: Roles, t: TaskId, stopped: bool)
    requires InvFor(w, r) && t in w.app.tasks && w.app.tasks[t] == Tearing([], stopped)
    ensures InvFor(World(w.app.(state := Stopped), w.free).Done(t), r.(stopper := None))
  {
  }

  lemma StarterStep(w: World, r: Roles, t: TaskId, ok: bool, ip: Ipv4) returns (r': Roles)
    requires InvFor(w, r) && t in w.app.tasks && w.app.tasks[t].IsStarter()
    requires Disciplined(w.app, Advance(t, ok, ip))
    ensures InvFor(Next(w, t, w.app.tasks[t], ok, ip), r')
  {
    match w.app.tasks[t]
    case Building(ColdBuild, s, Built(result)) =>
      FinishStartKeeps(w, r, t, s, result);
      r' := r.(starter := None);
    case _ =>
      StarterKeeps(w, r, t, ok, ip);
      r' := r;
  }

  lemma LadderStep(w: World, r: Roles, t: TaskId, ok: bool, ip: Ipv4)
    requires InvFor(w, r) && t in w.app.tasks && w.app.tasks[t].IsRoller() && w.app.tasks[t].Building?
    ensures InvFor(Next(w, t, w.app.tasks[t], ok, ip), r)
  {
    var Building(job, s, phase) := w.app.tasks[t];
    if phase.Built? {
      ConcludeKeeps(w, r, t, job.fromIp, s, phase.result);
    } else {
      ReplacementClimbKeeps(w, r, t, job.fromIp, s, phase, ok, ip);
    }
  }

  lemma RollerStep(w: World, r: Roles, t: TaskId, ok: bool, ip: Ipv4) returns (r': Roles)
    requires InvFor(w, r) && t in w.app.tasks && w.app.tasks[t].IsRoller()
    ensures InvFor(Next(w, t, w.app.tasks[t], ok, ip), r')
  {
    r' := r;
    match w.app.tasks[t]
    case Building(_, _, _) => LadderStep(w, r, t, ok, ip);
    case TearRelease(s, o) =>
      TailEndKeeps(w, r, t, s, o);
      r' := r.(roller := None);
    case _ => RollerKeeps(w, r, t);
  }

  lemma StopperStep(w: World, r: Roles, t: TaskId) returns (r': Roles)
    requires InvFor(w, r) && t in w.app.tasks && w.app.tasks[t].Tearing?
    ensures InvFor(Next(w, t, w.app.tasks[t], true, 0), r')
  {
    var Tearing(todo, stopped) := w.app.tasks[t];
    if todo == [] {
      TearingEndKeeps(w, r, t, stopped);
      r' := r.(stopper := None);
    } else {
      TearingKeeps(w, r, t, todo, stopped);
      r' := r;
    }
  }

  lemma LoopingStep(w: World, r: Roles, t: TaskId) returns (r': Roles)
    requires InvFor(w, r) && t in w.app.tasks && w.app.tasks[t] == Looping
    ensures InvFor(Next(w, t, Looping, true, 0), r')
  {
    r' := r;
    if w.app.state.ClaimOf().Claimed? {
      ClaimKeeps(w, r, t);
      r' := r.(starter := Some(t));
    } else if w.app.state.ClaimOf().Ready? {
      BystanderEnds(w, r, t);
    }
  }

  lemma BystanderStep(w: World, r: Roles, t: TaskId, ok: bool, ip: Ipv4) returns (r': Roles)
    requires InvFor(w, r) && t in w.app.tasks && NoRole(w.app.tasks[t])
    requires Disciplined(w.app, Advance(t, ok, ip))
    ensures InvFor(Next(w, t, w.app.tasks[t], ok, ip), r')
  {
    r' := r;
    match w.app.tasks[t]
    case Looping => r' := LoopingStep(w, r, t);
    case Thawed => ThawCommitKeeps(w, r, t);
    case Gate => r' := GateStepKeeps(w, r, t);
    case _ => BystanderKeeps(w, r, t, ok);
  }

  /** Where the roles are after task `t` took its step. */
  lemma AdvanceKeeps(w: World, r: Roles, t: TaskId, ok: bool, ip: Ipv4) returns (r': Roles)
    requires InvFor(w, r) && t in w.app.tasks && Disciplined(w.app, Advance(t, ok, ip))
    ensures InvFor(Next(w, t, w.app.tasks[t], ok, ip), r')
  {
    if w.app.tasks[t].IsStarter() {
      r' := StarterStep(w, r, t, ok, ip);
    } else if w.app.tasks[t].IsRoller() {
      r' := RollerStep(w, r, t, ok, ip);
    } else if w.app.tasks[t].Tearing? {
      r' := StopperStep(w, r, t);
    } else {
      r' := BystanderStep(w, r, t, ok, ip);
    }
  }

  lemma StepKeeps(w: World, r: Roles, a: Action, w': World) returns (r': Roles)
    requires InvFor(w, r) && Step(w, a) == Some(w') && Disciplined(w.app, a)
    ensures InvFor(w', r')
  {
    r' := r;
    match a
    case Request(t) => SpawnKeeps(w, r, t, Looping);
    case Deploy(t) => if !w.app.state.IsBusy() { SpawnKeeps(w, r, t, Pulling); }
    case Stop(t) =>
      if w.app.state.NeedsTeardown() {
        StopKeeps(w, r, t);
        r' := r.(stopper := Some(t));
      }
    case Freeze(ok) => if ok && w.app.state.Running? { FreezeKeeps(w, r); }
    case Advance(t, ok, ip) => r' := AdvanceKeeps(w, r, t, ok, ip);
    case Elsewhere(free) => ElsewhereKeeps(w, r, free);
  }

  // ---- the address book ----

  /** Neither the endpoints nor the book changed. */
  predicate BookUntouched(app: App, app': App) {
    && app'.hist.taken == app.hist.taken && app'.hist.returned == app.hist.returned
    && app'.sideA.endpoint == app.sideA.endpoint && app'.sideB.endpoint == app.sideB.endpoint
  }

  lemma LedgerStays(app: App, app': App)
    requires LedgerOk(app) && BookUntouched(app, app')
    ensures LedgerOk(app')
  {
    forall ip: Ipv4 ensures Balanced(app', ip) { assert Balanced(app, ip); }
  }

  lemma AllocateBalances(w: World, s: Slot, ip: Ipv4)
    requires LedgerOk(w.app) && w.app.On(s).endpoint.None?
    ensures LedgerOk(AllocateEndpoint(w, s, ip).app)
  {
    forall a: Ipv4 ensures Balanced(AllocateEndpoint(w, s, ip).app, a) { assert Balanced(w.app, a); }
  }

  lemma ReleaseBalances(w: World, s: Slot)
    requires LedgerOk(w.app)
    ensures LedgerOk(ReleaseEndpoint(w, s).app)
  {
    forall a: Ipv4 ensures Balanced(ReleaseEndpoint(w, s).app, a) { assert Balanced(w.app, a); }
  }

  lemma ClimbBalances(w: World, t: TaskId, job: Job, s: Slot, phase: Phase, ok: bool, ip: Ipv4)
    requires LedgerOk(w.app) && !phase.Built? && (phase.Unallocated? ==> w.app.On(s).endpoint.None?)
    ensures LedgerOk(Climb(w, t, job, s, phase, ok, ip).app)
  {
    var app' := Climb(w, t, job, s, phase, ok, ip).app;
    if phase.Unallocated? && ok && ip in w.free {
      AllocateBalances(w, s, ip);
      LedgerStays(AllocateEndpoint(w, s, ip).app, app');
    } else if phase.Releasing? {
      ReleaseBalances(w, s);
      LedgerStays(ReleaseEndpoint(w, s).app, app');
    } else {
      LedgerStays(w.app, app');
    }
  }

  lemma BuildsOnVacantSide(w: World, r: Roles, t: TaskId)
    requires InvFor(w, r) && t in w.app.tasks && w.app.tasks[t].Building? && w.app.tasks[t].phase.Unallocated?
    ensures Vacant(w.app.On(w.app.tasks[t].slot))
  {
  }

  /** The program points whose next step takes or returns an address. */
  predicate MovesAddresses(pc: Pc) {
    || (pc.Building? && !pc.phase.Built?)
    || pc.TearRelease?
    || (pc.Tearing? && pc.todo != [] && pc.stopped)
  }

  lemma QuietAdvance(w: World, t: TaskId, ok: bool, ip: Ipv4)
    requires t in w.app.tasks && !MovesAddresses(w.app.tasks[t])
    ensures BookUntouched(w.app, Next(w, t, w.app.tasks[t], ok, ip).app)
  {
  }

  lemma ReleaseStepBalances(w: World, t: TaskId)
    requires LedgerOk(w.app) && t in w.app.tasks && MovesAddresses(w.app.tasks[t]) && !w.app.tasks[t].Building?
    ensures LedgerOk(Next(w, t, w.app.tasks[t], true, 0).app)
  {
    var s := if w.app.tasks[t].TearRelease? then w.app.tasks[t].slot else w.app.tasks[t].todo[0];
    ReleaseBalances(w, s);
    LedgerStays(ReleaseEndpoint(w, s).app, Next(w, t, w.app.tasks[t], true, 0).app);
  }

  lemma AdvanceBalances(w: World, r: Roles, t: TaskId, ok: bool, ip: Ipv4)
    requires InvFor(w, r) && LedgerOk(w.app) && t in w.app.tasks
    ensures LedgerOk(Next(w, t, w.app.tasks[t], ok, ip).app)
  {
    if !MovesAddresses(w.app.tasks[t]) {
      QuietAdvance(w, t, ok, ip);
      LedgerStays(w.app, Next(w, t, w.app.tasks[t], ok, ip).app);
    } else if w.app.tasks[t].Building? {
      var Building(job, s, phase) := w.app.tasks[t];
      if phase.Unallocated? { BuildsOnVacantSide(w, r, t); }
      ClimbBalances(w, t, job, s, phase, ok, ip);
    } else {
      ReleaseStepBalances(w, t);
    }
  }

  lemma StepBalances(w: World, r: Roles, a: Action, w': World)
    requires InvFor(w, r) && LedgerOk(w.app) && Step(w, a) == Some(w')
    ensures LedgerOk(w'.app)
  {
    if a.Advance? {
      AdvanceBalances(w, r, a.t, a.ok, a.ip);
    } else {
      assert BookUntouched(w.app, w'.app);
      LedgerStays(w.app, w'.app);
    }
  }
}
