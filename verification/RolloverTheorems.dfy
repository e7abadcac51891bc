/**
 * What the per-app protocol guarantees over whole runs: for any number of
 * tasks, any interleaving of their critical sections and any outcome of every
 * phase, as long as the run is disciplined.
 */
module RolloverTheorems {
  import opened Prelude
  import opened Handle
  import opened Rollover
  import opened RolloverInvariant

  // ---- where a run begins ----

  /** What exists is what `live_container_ids` says, under the address in the state. */
  predicate Settled(app: App) {
    && app.On(app.slot.Other()) == EMPTY
    && match app.state {
         case Stopped => app.On(app.slot) == EMPTY
         case Running(ip) => Occupied(app.On(app.slot), ip) && !app.On(app.slot).paused
         case Frozen(ip) => Occupied(app.On(app.slot), ip)
         case _ => false
       }
  }

  /**
   * An app on which no operation is in flight: freshly registered, recovered
   * after a restart, or at rest after an earlier run.
   */
  ghost predicate Rested(w: World) {
    w.app.tasks == map[] && Settled(w.app) && AddressesOk(w) && LedgerOk(w.app) && ParityOk(w.app)
  }

  lemma InitRests(w: World)
    requires Init(w)
    ensures Rested(w)
  {
  }

  /** The record an app at rest should have: the address it holds, and the parity of its slot. */
  function RestHistory(held: Option<Ipv4>, slot: Slot): History {
    History(if held.Some? then multiset{held.value} else multiset{}, multiset{}, if slot == Slot.A then 0 else 1)
  }

  /** The auxiliary record never stands in the way of being at rest. */
  lemma SettledRests(app: App, free: set<Ipv4>)
    requires app.tasks == map[] && Settled(app) && AddressesOk(World(app, free))
    requires app.hist == RestHistory(app.On(app.slot).endpoint, app.slot)
    ensures Rested(World(app, free))
  {
    assert app.On(app.slot.Other()).endpoint.None?;
    forall ip: Ipv4 ensures Balanced(app, ip) {}
  }

  lemma RestedInv(w: World)
    requires Rested(w)
    ensures InvFor(w, Roles(None, None, None))
  {
  }

  // ---- runs ----

  lemma RunKeeps(w: World, r: Roles, actions: seq<Action>) returns (r': Roles)
    requires InvFor(w, r) && LedgerOk(w.app) && DisciplinedRun(w, actions)
    ensures Run(w, actions).Some? && InvFor(Run(w, actions).value, r') && LedgerOk(Run(w, actions).value.app)
    decreases |actions|
  {
    r' := r;
    if actions != [] {
      var w1 := Step(w, actions[0]).value;
      var r1 := StepKeeps(w, r, actions[0], w1);
      StepBalances(w, r, actions[0], w1);
      r' := RunKeeps(w1, r1, actions[1..]);
    }
  }

  lemma FromRest(w0: World, actions: seq<Action>) returns (w: World, r: Roles)
    requires Rested(w0) && DisciplinedRun(w0, actions)
    ensures Run(w0, actions) == Some(w) && InvFor(w, r) && LedgerOk(w.app)
  {
    var r0 := Roles(None, None, None);
    RestedInv(w0);
    r := RunKeeps(w0, r0, actions);
    w := Run(w0, actions).value;
  }

  // ---- safety ----

  /** The container behind `ip` is started, thawed, and its endpoint is registered. */
  predicate Serves(app: App, ip: Ipv4) {
    Occupied(app.On(app.slot), ip) && !app.On(app.slot).paused
  }

  /** No request is ever sent to a container that is not there. */
  lemma ReadyIsLive(w0: World, actions: seq<Action>)
    requires Rested(w0) && DisciplinedRun(w0, actions)
    ensures Run(w0, actions).Some?
    ensures var app := Run(w0, actions).value.app;
            app.state.ClaimOf().Ready? ==> Serves(app, app.state.ClaimOf().ip)
  {
    var _, _ := FromRest(w0, actions);
  }

  /** `allocate_endpoint` is only ever called for a container id without an endpoint. */
  lemma AllocatesOnlyVacantSlots(w0: World, actions: seq<Action>, t: TaskId)
    requires Rested(w0) && DisciplinedRun(w0, actions)
    ensures Run(w0, actions).Some?
    ensures var app := Run(w0, actions).value.app;
            t in app.tasks && app.tasks[t].Building? && app.tasks[t].phase.Unallocated?
            ==> Vacant(app.On(app.tasks[t].slot))
  {
    var w, r := FromRest(w0, actions);
    if t in w.app.tasks && w.app.tasks[t].Building? && w.app.tasks[t].phase.Unallocated? {
      BuildsOnVacantSide(w, r, t);
    }
  }

  /** Every address an app took is still held by one of its endpoints or went back exactly once. */
  lemma AddressesAccounted(w0: World, actions: seq<Action>)
    requires Rested(w0) && DisciplinedRun(w0, actions)
    ensures Run(w0, actions).Some?
    ensures var w := Run(w0, actions).value;
            forall ip: Ipv4 ::
              && w.app.hist.taken[ip] == w.app.hist.returned[ip] + Held(w.app, ip)
              && (Held(w.app, ip) == 0 || (Held(w.app, ip) == 1 && ip !in w.free))
  {
    var w, _ := FromRest(w0, actions);
    forall ip: Ipv4
      ensures w.app.hist.taken[ip] == w.app.hist.returned[ip] + Held(w.app, ip)
      ensures Held(w.app, ip) == 0 || (Held(w.app, ip) == 1 && ip !in w.free)
    {
      assert Balanced(w.app, ip) && AddressesOk(w);
    }
  }

  predicate StarterAt(app: App, t: TaskId) { t in app.tasks && app.tasks[t].IsStarter() }
  predicate RollerAt(app: App, t: TaskId) { t in app.tasks && app.tasks[t].IsRoller() }
  predicate StopperAt(app: App, t: TaskId) { t in app.tasks && app.tasks[t].Tearing? }

  /** The state names its owner: one task per transient state, and never a second one. */
  lemma OwnershipByState(w0: World, actions: seq<Action>)
    requires Rested(w0) && DisciplinedRun(w0, actions)
    ensures Run(w0, actions).Some?
    ensures var app := Run(w0, actions).value.app;
            && (app.state.Starting? <==> exists t :: StarterAt(app, t))
            && (forall t, u :: StarterAt(app, t) && StarterAt(app, u) ==> t == u)
            && (app.state.Stopping? <==> exists t :: StopperAt(app, t))
            && (forall t, u :: StopperAt(app, t) && StopperAt(app, u) ==> t == u)
            && (forall t, u :: RollerAt(app, t) && RollerAt(app, u) ==> t == u)
  {
    var w, r := FromRest(w0, actions);
    if w.app.state.Starting? { assert StarterAt(w.app, r.starter.value); }
    if w.app.state.Stopping? { assert StopperAt(w.app, r.stopper.value); }
  }

  /**
   * Whenever all operations have completed, whichever of their phases failed:
   * nothing leaked, the app is at rest again, and its slot has changed exactly
   * if the number of rollovers that switched is odd.
   */
  lemma SettledWhenIdle(w0: World, actions: seq<Action>)
    requires Rested(w0) && DisciplinedRun(w0, actions)
    ensures Run(w0, actions).Some?
    ensures var w := Run(w0, actions).value;
            && (w.app.tasks == map[] ==> Settled(w.app) && Rested(w))
            && (w.app.slot == w0.app.slot <==> (w.app.hist.switches - w0.app.hist.switches) % 2 == 0)
  {
    var w, r := FromRest(w0, actions);
    if w.app.tasks == map[] {
      assert forall t :: t !in w.app.tasks;
    }
  }

  // ---- runs without stop: RollingOver is owned as well ----

  predicate RollingIsOwned(app: App) {
    && (forall t :: t in app.tasks && app.tasks[t].BeforeSwitch() ==> app.state.RollingOver?)
    && (forall t :: t in app.tasks ==> !app.tasks[t].Tearing?)
  }

  /** Apart from a task's own move, ownership depends on the state not leaving `RollingOver`. */
  lemma RollingStaysOwned(w: World, r: Roles, a: Action, w': World, r': Roles)
    requires InvFor(w, r) && Step(w, a) == Some(w') && Disciplined(w.app, a) && !a.Stop?
    requires InvFor(w', r')
    requires RollingIsOwned(w.app)
    ensures RollingIsOwned(w'.app)
  {
    match a
    case Advance(t, ok, ip) => AdvanceStaysOwned(w, r, t, ok, ip);
    case _ =>
  }

  lemma AdvanceStaysOwned(w: World, r: Roles, t: TaskId, ok: bool, ip: Ipv4)
    requires RolesOk(w.app, r) && RollingIsOwned(w.app) && t in w.app.tasks
    ensures RollingIsOwned(Next(w, t, w.app.tasks[t], ok, ip).app)
  {
    var app' := Next(w, t, w.app.tasks[t], ok, ip).app;
    OwnMove(w, t, ok, ip);
    if w.app.state.RollingOver? && !app'.state.RollingOver? {
      assert r.roller == Some(t) by { LeavesRollingOver(w, r, t, ok, ip); }
    }
  }

  /** Nothing but task `t` changed its program point. */
  ghost predicate OnlyTask(app: App, t: TaskId, app': App) {
    forall u :: u != t ==>
      && (u in app'.tasks <==> u in app.tasks)
      && (u in app.tasks ==> app'.tasks[u] == app.tasks[u])
  }

  /** Where task `t` is after its step, and that no other task has moved. */
  ghost predicate MovedAlone(w: World, t: TaskId, app': App)
    requires t in w.app.tasks
  {
    && OnlyTask(w.app, t, app')
    && (t in app'.tasks ==>
          && !app'.tasks[t].Tearing?
          && (app'.tasks[t].BeforeSwitch() ==>
                app'.state.RollingOver? || (app'.state == w.app.state && w.app.tasks[t].BeforeSwitch())))
  }

  lemma LadderMove(w: World, t: TaskId, ok: bool, ip: Ipv4)
    requires t in w.app.tasks && w.app.tasks[t].Building?
    ensures MovedAlone(w, t, Next(w, t, w.app.tasks[t], ok, ip).app)
  {
    var Building(job, s, phase) := w.app.tasks[t];
    if phase.Built? && job.Replacement? {
      assert Next(w, t, w.app.tasks[t], ok, ip).app == Conclude(w.app, t, job.fromIp, s, phase.result);
    } else if !phase.Built? {
      assert Next(w, t, w.app.tasks[t], ok, ip) == Climb(w, t, job, s, phase, ok, ip);
    }
  }

  lemma TailMove(w: World, t: TaskId, ok: bool, ip: Ipv4)
    requires t in w.app.tasks
    requires var pc := w.app.tasks[t]; pc.Entered? || pc.Draining? || pc.TearStop? || pc.TearRelease?
    ensures MovedAlone(w, t, Next(w, t, w.app.tasks[t], ok, ip).app)
  {
  }

  /** A step changes no program point but its own, and never brings in a stop. */
  lemma OwnMove(w: World, t: TaskId, ok: bool, ip: Ipv4)
    requires t in w.app.tasks && !w.app.tasks[t].Tearing?
    ensures MovedAlone(w, t, Next(w, t, w.app.tasks[t], ok, ip).app)
  {
    if w.app.tasks[t].Building? {
      LadderMove(w, t, ok, ip);
    } else if w.app.tasks[t].IsRoller() {
      TailMove(w, t, ok, ip);
    }
  }

  lemma LeavesRollingOver(w: World, r: Roles, t: TaskId, ok: bool, ip: Ipv4)
    requires RolesOk(w.app, r) && t in w.app.tasks && w.app.state.RollingOver? && !w.app.tasks[t].Tearing?
    requires !Next(w, t, w.app.tasks[t], ok, ip).app.state.RollingOver?
    ensures r.roller == Some(t) && !RollerBefore(Next(w, t, w.app.tasks[t], ok, ip).app, t)
  {
  }

  predicate RollerBefore(app: App, t: TaskId) { t in app.tasks && app.tasks[t].BeforeSwitch() }

  lemma StopFreeRun(w: World, r: Roles, actions: seq<Action>)
    requires InvFor(w, r) && DisciplinedRun(w, actions) && RollingIsOwned(w.app)
    requires forall i :: 0 <= i < |actions| ==> !actions[i].Stop?
    ensures Run(w, actions).Some? && RollingIsOwned(Run(w, actions).value.app)
    decreases |actions|
  {
    if actions != [] {
      var w1 := Step(w, actions[0]).value;
      var r1 := StepKeeps(w, r, actions[0], w1);
      RollingStaysOwned(w, r, actions[0], w1, r1);
      StopFreeRun(w1, r1, actions[1..]);
    }
  }

  lemma RollingOverOwnership(w0: World, actions: seq<Action>)
    requires Rested(w0) && DisciplinedRun(w0, actions)
    requires forall i :: 0 <= i < |actions| ==> !actions[i].Stop?
    ensures Run(w0, actions).Some?
    ensures var app := Run(w0, actions).value.app;
            && (app.state.RollingOver? <==> exists t :: RollerBefore(app, t))
            && (forall t, u :: RollerBefore(app, t) && RollerBefore(app, u) ==> t == u)
  {
    var r0 := Roles(None, None, None);
    RestedInv(w0);
    StopFreeRun(w0, r0, actions);
    var w, r := FromRest(w0, actions);
    if w.app.state.RollingOver? { assert RollerBefore(w.app, r.roller.value); }
    forall t, u | RollerBefore(w.app, t) && RollerBefore(w.app, u) ensures t == u {
      assert RollerAt(w.app, t) && RollerAt(w.app, u);
    }
  }
}
