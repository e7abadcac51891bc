/**
 * Theorems about the window of one rollover, from the step that enters
 * `RollingOver` to the end of its tail: no gap for requests, exact rollback,
 * and the race with a concurrent stop.
 */
module RolloverWindows {
  import opened Prelude
  import opened Handle
  import opened Rollover
  import opened RolloverInvariant
  import opened RolloverTheorems

  /** Task `t` has just moved the state from `Running(from)` to `RollingOver(from)`. */
  ghost predicate JustEntered(w: World, r: Roles, t: TaskId, from: Ipv4) {
    && InvFor(w, r) && LedgerOk(w.app)
    && t in w.app.tasks && w.app.tasks[t] == Entered(from)
    && w.app.state == RollingOver(from)
  }

  /** The gate step is what brings a run into the window. */
  lemma GateOpensWindow(w: World, r: Roles, t: TaskId) returns (r': Roles)
    requires InvFor(w, r) && LedgerOk(w.app) && t in w.app.tasks && w.app.tasks[t] == Gate
    requires w.app.state.Running? && Disciplined(w.app, Advance(t, true, 0))
    ensures JustEntered(Next(w, t, Gate, true, 0), r', t, w.app.state.containerIp)
  {
    r' := AdvanceKeeps(w, r, t, true, 0);
    AdvanceBalances(w, r, t, true, 0);
  }

  // ---- zero gap ----

  /** The address every request must be sent to while `t` is at `pc`. */
  function TrafficTarget(pc: Pc, from: Ipv4): Ipv4
    requires pc.IsRoller()
  {
    match pc
    case Draining(_, newIp) => newIp
    case TearStop(_, Switched(newIp)) => newIp
    case TearRelease(_, Switched(newIp)) => newIp
    case _ => from
  }

  /** A request arriving now is answered at once, by a live container, at the right address. */
  predicate NoGapNow(app: App, t: TaskId, from: Ipv4)
    requires RollerAt(app, t)
  {
    && app.state.ClaimOf() == Ready(TrafficTarget(app.tasks[t], from))
    && app.state.AfterClaim() == app.state
    && Serves(app, TrafficTarget(app.tasks[t], from))
  }

  /** ... and so it goes on, action after action, until the tail of the rollover has ended. */
  predicate NoGap(w: World, actions: seq<Action>, t: TaskId, from: Ipv4)
    decreases |actions|
  {
    RollerAt(w.app, t) ==>
      && NoGapNow(w.app, t, from)
      && (actions != [] && Step(w, actions[0]).Some? ==> NoGap(Step(w, actions[0]).value, actions[1..], t, from))
  }

  /** How the state follows the program point of the rollover when nobody stops or freezes. */
  predicate InWindow(app: App, t: TaskId, from: Ipv4) {
    RollerAt(app, t) ==>
      match app.tasks[t]
      case Draining(_, newIp) => app.state == Running(newIp)
      case TearStop(_, o) => AfterOutcome(o, from, app.state)
      case TearRelease(_, o) => AfterOutcome(o, from, app.state)
      case _ => app.state == RollingOver(from)
  }

  predicate AfterOutcome(o: Outcome, from: Ipv4, state: AppState) {
    match o
    case Switched(newIp) => state == Running(newIp)
    case RolledBack(f) => f == from && state == Running(from)
    case Abandoned => false
  }

  lemma OwnStepStaysInWindow(w: World, r: Roles, t: TaskId, from: Ipv4, ok: bool, ip: Ipv4)
    requires InvFor(w, r) && RollerAt(w.app, t) && InWindow(w.app, t, from)
    ensures InWindow(Next(w, t, w.app.tasks[t], ok, ip).app, t, from)
  {
    match w.app.tasks[t]
    case Building(Replacement(f), to, Built(result)) => assert f == from;
    case Building(job, s, phase) =>
    case _ =>
  }

  lemma OtherStepStaysInWindow(w: World, r: Roles, t: TaskId, from: Ipv4, u: TaskId, ok: bool, ip: Ipv4)
    requires InvFor(w, r) && RollerAt(w.app, t) && InWindow(w.app, t, from)
    requires u in w.app.tasks && u != t && Disciplined(w.app, Advance(u, ok, ip))
    ensures InWindow(Next(w, u, w.app.tasks[u], ok, ip).app, t, from)
  {
    assert r.roller == Some(t) && r.starter.None? && r.stopper.None?;
    assert NoRole(w.app.tasks[u]);
    match w.app.tasks[u]
    case Gate => assert w.app.tasks[t].IsRoller();
    case _ =>
  }

  predicate StopOrFreeze(a: Action) {
    a.Stop? || a.Freeze?
  }

  /**
   * Zero-gap rollover.  From entry to the end of the tail, with any number of
   * requests and deployments in between, every claim is `Ready` with the
   * address of a live container: the old one until the switch and after a
   * rollback, the new one after the switch.
   */
  lemma ZeroGap(w: World, r: Roles, actions: seq<Action>, t: TaskId, from: Ipv4)
    requires JustEntered(w, r, t, from)
    requires DisciplinedRun(w, actions)
    requires forall i :: 0 <= i < |actions| ==> !StopOrFreeze(actions[i])
    ensures NoGap(w, actions, t, from)
  {
    WindowRun(w, r, actions, t, from);
  }

  lemma WindowRun(w: World, r: Roles, actions: seq<Action>, t: TaskId, from: Ipv4)
    requires InvFor(w, r) && InWindow(w.app, t, from)
    requires DisciplinedRun(w, actions)
    requires forall i :: 0 <= i < |actions| ==> !StopOrFreeze(actions[i])
    ensures NoGap(w, actions, t, from)
    decreases |actions|
  {
    if RollerAt(w.app, t) {
      NowInWindow(w, r, t, from);
      if actions != [] {
        var a, w1 := actions[0], Step(w, actions[0]).value;
        var r1 := StepKeeps(w, r, a, w1);
        if a.Advance? {
          if a.t == t {
            OwnStepStaysInWindow(w, r, t, from, a.ok, a.ip);
          } else {
            OtherStepStaysInWindow(w, r, t, from, a.t, a.ok, a.ip);
          }
        }
        WindowRun(w1, r1, actions[1..], t, from);
      }
    }
  }

  lemma NowInWindow(w: World, r: Roles, t: TaskId, from: Ipv4)
    requires InvFor(w, r) && RollerAt(w.app, t) && InWindow(w.app, t, from)
    ensures NoGapNow(w.app, t, from)
  {
  }

  // ---- exact rollback ----

  /** Only the rollover itself moves; requests may come and ask. */
  predicate OnlyRollover(app: App, a: Action, t: TaskId) {
    match a
    case Advance(u, _, _) => u == t || (u in app.tasks && app.tasks[u].Looping?)
    case Request(u) => u != t
    case _ => false
  }

  predicate OnlyRolloverRun(w: World, actions: seq<Action>, t: TaskId)
    decreases |actions|
  {
    actions == [] ||
    (&& OnlyRollover(w.app, actions[0], t)
     && Step(w, actions[0]).Some?
     && OnlyRolloverRun(Step(w, actions[0]).value, actions[1..], t))
  }

  /** `w` still is, or has become again, what it was at entry, apart from the opposite side. */
  predicate SameFromSide(w0: World, w: World, from: Ipv4) {
    var opp := w.app.On(w.app.slot.Other());
    && w.app.slot == w0.app.slot
    && w.app.On(w.app.slot) == w0.app.On(w0.app.slot)
    && w0.free == w.free + (if opp.endpoint.Some? then {opp.endpoint.value} else {})
  }

  /** The rollover has not switched: it is on its way, or it has restored the from-side. */
  predicate Restorable(w0: World, w: World, t: TaskId, from: Ipv4) {
    && SameFromSide(w0, w, from)
    && InWindow(w.app, t, from)
    && (if t in w.app.tasks then
          && w.app.tasks[t].IsRoller() && !w.app.tasks[t].Draining?
          && (w.app.tasks[t].TearStop? || w.app.tasks[t].TearRelease? ==> w.app.tasks[t].outcome.RolledBack?)
        else
          w.app.state == Running(from) && Vacant(w.app.On(w.app.slot.Other())))
  }

  predicate NeverSwitched(w0: World, w: World) {
    w.app.hist.switches == w0.app.hist.switches
  }

  lemma ClimbKeepsFromSide(w0: World, w: World, t: TaskId, job: Job, s: Slot, phase: Phase, from: Ipv4,
                           ok: bool, ip: Ipv4)
    requires SameFromSide(w0, w, from) && s == w.app.slot.Other() && !phase.Built?
    requires phase.Unallocated? ==> w.app.On(s).endpoint.None?
    requires w.app.On(s).endpoint.Some? ==> w.app.On(s).endpoint.value !in w.free
    ensures SameFromSide(w0, Climb(w, t, job, s, phase, ok, ip), from)
  {
  }

  lemma ReleaseKeepsFromSide(w0: World, w: World, from: Ipv4)
    requires SameFromSide(w0, w, from)
    ensures SameFromSide(w0, ReleaseEndpoint(w, w.app.slot.Other()), from)
  {
  }

  /** The step either keeps the way back open, or switches. */
  predicate BackOrSwitched(w0: World, w': World, t: TaskId, from: Ipv4) {
    if NeverSwitched(w0, w') then Restorable(w0, w', t, from)
    else w'.app.hist.switches > w0.app.hist.switches && (t in w'.app.tasks ==> w'.app.tasks[t].IsRoller())
  }

  lemma LadderRestorable(w0: World, w: World, r: Roles, t: TaskId, from: Ipv4, ok: bool, ip: Ipv4)
    requires InvFor(w, r) && Restorable(w0, w, t, from) && NeverSwitched(w0, w)
    requires t in w.app.tasks && w.app.tasks[t].Building? && !w.app.tasks[t].phase.Built?
    ensures BackOrSwitched(w0, Next(w, t, w.app.tasks[t], ok, ip), t, from)
  {
    var o := w.app.slot.Other();
    var Building(job, s, phase) := w.app.tasks[t];
    assert r.roller == Some(t) && RollerOk(w.app.On(o), o, true, w.app.tasks[t]);
    ClimbKeepsFromSide(w0, w, t, job, s, phase, from, ok, ip);
  }

  lemma ConcludeRestorable(w0: World, w: World, r: Roles, t: TaskId, from: Ipv4, ok: bool, ip: Ipv4)
    requires InvFor(w, r) && Restorable(w0, w, t, from) && NeverSwitched(w0, w)
    requires t in w.app.tasks && w.app.tasks[t].Building? && w.app.tasks[t].phase.Built?
    ensures BackOrSwitched(w0, Next(w, t, w.app.tasks[t], ok, ip), t, from)
  {
    var o := w.app.slot.Other();
    assert r.roller == Some(t) && RollerOk(w.app.On(o), o, true, w.app.tasks[t]);
    OwnStepStaysInWindow(w, r, t, from, ok, ip);
  }

  lemma OwnStepRestorable(w0: World, w: World, r: Roles, t: TaskId, from: Ipv4, ok: bool, ip: Ipv4)
    requires InvFor(w, r) && Restorable(w0, w, t, from) && NeverSwitched(w0, w) && t in w.app.tasks
    ensures BackOrSwitched(w0, Next(w, t, w.app.tasks[t], ok, ip), t, from)
  {
    match w.app.tasks[t]
    case Building(_, _, phase) =>
      if phase.Built? {
        ConcludeRestorable(w0, w, r, t, from, ok, ip);
      } else {
        LadderRestorable(w0, w, r, t, from, ok, ip);
      }
    case Entered(_) =>
    case _ => TailRestorable(w0, w, r, t, from, ok, ip);
  }

  lemma TailRestorable(w0: World, w: World, r: Roles, t: TaskId, from: Ipv4, ok: bool, ip: Ipv4)
    requires InvFor(w, r) && Restorable(w0, w, t, from) && NeverSwitched(w0, w)
    requires t in w.app.tasks && (w.app.tasks[t].TearStop? || w.app.tasks[t].TearRelease?)
    ensures BackOrSwitched(w0, Next(w, t, w.app.tasks[t], ok, ip), t, from)
  {
    var o := w.app.slot.Other();
    assert r.roller == Some(t) && RollerOk(w.app.On(o), o, false, w.app.tasks[t]);
    if w.app.tasks[t].TearRelease? { ReleaseKeepsFromSide(w0, w, from); }
  }

  lemma RequestRestorable(w0: World, w: World, t: TaskId, from: Ipv4, u: TaskId)
    requires Restorable(w0, w, t, from) && u != t && u in w.app.tasks && w.app.tasks[u].Looping?
    ensures Restorable(w0, Next(w, u, Looping, true, 0), t, from)
  {
  }

  /** After a switch there is nothing to restore; the count never goes down again. */
  lemma SwitchedForGood(w: World, t: TaskId, a: Action, w': World)
    requires OnlyRollover(w.app, a, t) && Step(w, a) == Some(w')
    requires t in w.app.tasks ==> w.app.tasks[t].IsRoller()
    ensures w'.app.hist.switches >= w.app.hist.switches
    ensures t in w'.app.tasks ==> w'.app.tasks[t].IsRoller()
  {
  }

  lemma RestoreRun(w0: World, w: World, r: Roles, actions: seq<Action>, t: TaskId, from: Ipv4) returns (r': Roles)
    requires InvFor(w, r) && OnlyRolloverRun(w, actions, t)
    requires if NeverSwitched(w0, w) then Restorable(w0, w, t, from)
             else w.app.hist.switches > w0.app.hist.switches && (t in w.app.tasks ==> w.app.tasks[t].IsRoller())
    ensures Run(w, actions).Some? && InvFor(Run(w, actions).value, r')
    ensures var w' := Run(w, actions).value; NeverSwitched(w0, w') ==> Restorable(w0, w', t, from)
    decreases |actions|
  {
    r' := r;
    if actions != [] {
      var a, w1 := actions[0], Step(w, actions[0]).value;
      var r1 := StepKeeps(w, r, a, w1);
      if !NeverSwitched(w0, w) {
        SwitchedForGood(w, t, a, w1);
      } else if a.Advance? {
        if a.t == t {
          OwnStepRestorable(w0, w, r, t, from, a.ok, a.ip);
        } else {
          RequestRestorable(w0, w, t, from, a.t);
        }
      }
      r' := RestoreRun(w0, w1, r1, actions[1..], t, from);
    }
  }

  /**
   * Exact rollback.  A rollover that ends without having switched, in whatever
   * phase it failed, leaves state, slot, containers, endpoints and the
   * allocator's free set exactly as they were when it entered.
   */
  lemma FailedRolloverRestores(w0: World, r: Roles, actions: seq<Action>, t: TaskId, from: Ipv4)
    requires JustEntered(w0, r, t, from) && OnlyRolloverRun(w0, actions, t)
    ensures Run(w0, actions).Some?
    ensures var w := Run(w0, actions).value;
            t !in w.app.tasks && w.app.hist.switches == w0.app.hist.switches ==>
              && w.app.state == Running(from)
              && w.app.slot == w0.app.slot
              && w.app.sideA == w0.app.sideA && w.app.sideB == w0.app.sideB
              && w.free == w0.free
  {
    var r' := RestoreRun(w0, w0, r, actions, t, from);
    var w := Run(w0, actions).value;
    if t !in w.app.tasks && NeverSwitched(w0, w) {
      assert r.roller == Some(t) && Vacant(w0.app.On(w0.app.slot.Other()));
      assert w.app.On(w.app.slot.Other()) == EMPTY == w0.app.On(w0.app.slot.Other());
    }
  }

  // ---- what decides between the two ----

  /** The action is a phase of the ladder of `t`, and that phase fails. */
  predicate PhaseFails(w: World, a: Action, t: TaskId) {
    && a.Advance? && a.t == t && t in w.app.tasks && w.app.tasks[t].Building?
    && match w.app.tasks[t].phase {
         case Unallocated => !a.ok || a.ip !in w.free
         case Allocated(_) => !a.ok
         case Pulled(_) => !a.ok || !w.app.On(w.app.tasks[t].slot).CanLaunch()
         case Started(_) => !a.ok
         case _ => false
       }
  }

  predicate SomePhaseFails(w: World, actions: seq<Action>, t: TaskId)
    decreases |actions|
  {
    actions != [] &&
    (PhaseFails(w, actions[0], t) ||
     (Step(w, actions[0]).Some? && SomePhaseFails(Step(w, actions[0]).value, actions[1..], t)))
  }

  /** Task `t` is on its ladder throughout. */
  predicate StaysOnLadder(w: World, actions: seq<Action>, t: TaskId)
    decreases |actions|
  {
    && t in w.app.tasks && w.app.tasks[t].Building?
    && (actions != [] && Step(w, actions[0]).Some? ==> StaysOnLadder(Step(w, actions[0]).value, actions[1..], t))
  }

  predicate OnTheWayDown(phase: Phase) {
    phase.Unready? || phase.Releasing? || phase == Built(None)
  }

  lemma OneStepOfLadder(w: World, a: Action, w': World, t: TaskId)
    requires Step(w, a) == Some(w') && t in w.app.tasks && w.app.tasks[t].Building?
    requires t in w'.app.tasks && w'.app.tasks[t].Building?
    ensures OnTheWayDown(w'.app.tasks[t].phase) <==> OnTheWayDown(w.app.tasks[t].phase) || PhaseFails(w, a, t)
  {
    if a.Advance? && a.t != t && a.t in w.app.tasks && !w.app.tasks[a.t].Tearing? { OwnMove(w, a.t, a.ok, a.ip); }
  }

  /**
   * The result of a ladder, of a start or of a rollover, in any run of any
   * tasks: it has one if and only if none of its phases failed.
   */
  lemma LadderReportsExactly(w: World, actions: seq<Action>, t: TaskId)
    requires StaysOnLadder(w, actions, t) && Run(w, actions).Some?
    ensures var w' := Run(w, actions).value;
            && t in w'.app.tasks && w'.app.tasks[t].Building?
            && (OnTheWayDown(w'.app.tasks[t].phase) <==>
                  OnTheWayDown(w.app.tasks[t].phase) || SomePhaseFails(w, actions, t))
    decreases |actions|
  {
    if actions != [] {
      var w1 := Step(w, actions[0]).value;
      OneStepOfLadder(w, actions[0], w1, t);
      LadderReportsExactly(w1, actions[1..], t);
    }
  }

  /** How many switches are still to come, once the fate of the ladder is known. */
  predicate StillToSwitch(pc: Pc) {
    pc.Entered? || (pc.Building? && !OnTheWayDown(pc.phase))
  }

  /** A step of the rollover: still to switch unless a phase fails, or just switched, or decided already. */
  predicate Decides(w: World, t: TaskId, failed: bool, w': World)
    requires t in w.app.tasks
  {
    var before, after := w.app.hist.switches, w'.app.hist.switches;
    if !StillToSwitch(w.app.tasks[t]) then
      after == before && (t in w'.app.tasks ==> w'.app.tasks[t].IsRoller() && !StillToSwitch(w'.app.tasks[t]))
    else
      && t in w'.app.tasks && w'.app.tasks[t].IsRoller()
      && if StillToSwitch(w'.app.tasks[t]) then after == before && !failed
         else after == before + (if failed then 0 else 1)
  }

  lemma LadderDecides(w: World, r: Roles, t: TaskId, ok: bool, ip: Ipv4)
    requires InvFor(w, r) && RollerAt(w.app, t) && w.app.tasks[t].Building? && !w.app.tasks[t].phase.Built?
    ensures Decides(w, t, PhaseFails(w, Advance(t, ok, ip), t), Next(w, t, w.app.tasks[t], ok, ip))
  {
    var Building(job, s, phase) := w.app.tasks[t];
    assert Next(w, t, w.app.tasks[t], ok, ip) == Climb(w, t, job, s, phase, ok, ip);
  }

  lemma OwnStepDecides(w: World, r: Roles, t: TaskId, from: Ipv4, ok: bool, ip: Ipv4)
    requires InvFor(w, r) && RollerAt(w.app, t) && InWindow(w.app, t, from)
    ensures Decides(w, t, PhaseFails(w, Advance(t, ok, ip), t), Next(w, t, w.app.tasks[t], ok, ip))
  {
    if w.app.tasks[t].Building? && !w.app.tasks[t].phase.Built? { LadderDecides(w, r, t, ok, ip); }
  }

  lemma OthersNeverSwitch(w: World, t: TaskId, a: Action, w': World)
    requires OnlyRollover(w.app, a, t) && Step(w, a) == Some(w') && (a.Advance? && a.t == t ==> t !in w.app.tasks)
    ensures w'.app.hist.switches == w.app.hist.switches
    ensures t in w'.app.tasks <==> t in w.app.tasks
    ensures t in w.app.tasks ==> w'.app.tasks[t] == w.app.tasks[t] && !PhaseFails(w, a, t)
  {
  }

  /** Once it is over, it is over. */
  lemma EndedStays(w: World, actions: seq<Action>, t: TaskId)
    requires OnlyRolloverRun(w, actions, t) && t !in w.app.tasks
    ensures Run(w, actions).Some? && Run(w, actions).value.app.hist.switches == w.app.hist.switches
    ensures !SomePhaseFails(w, actions, t)
    decreases |actions|
  {
    if actions != [] {
      var w1 := Step(w, actions[0]).value;
      OthersNeverSwitch(w, t, actions[0], w1);
      EndedStays(w1, actions[1..], t);
    }
  }

  lemma WindowStep(w: World, r: Roles, a: Action, w1: World, t: TaskId, from: Ipv4) returns (r1: Roles)
    requires InvFor(w, r) && RollerAt(w.app, t) && InWindow(w.app, t, from)
    requires OnlyRollover(w.app, a, t) && Step(w, a) == Some(w1)
    ensures InvFor(w1, r1) && InWindow(w1.app, t, from) && Decides(w, t, PhaseFails(w, a, t), w1)
  {
    r1 := StepKeeps(w, r, a, w1);
    if a.Advance? && a.t == t {
      OwnStepDecides(w, r, t, from, a.ok, a.ip);
      OwnStepStaysInWindow(w, r, t, from, a.ok, a.ip);
    } else {
      OthersNeverSwitch(w, t, a, w1);
      if a.Advance? { OtherStepStaysInWindow(w, r, t, from, a.t, a.ok, a.ip); }
    }
  }

  lemma SwitchesLater(w: World, r: Roles, actions: seq<Action>, t: TaskId, from: Ipv4)
    requires InvFor(w, r) && RollerAt(w.app, t) && InWindow(w.app, t, from) && OnlyRolloverRun(w, actions, t)
    ensures Run(w, actions).Some?
    ensures t !in Run(w, actions).value.app.tasks ==>
              Run(w, actions).value.app.hist.switches == w.app.hist.switches +
                if StillToSwitch(w.app.tasks[t]) && !SomePhaseFails(w, actions, t) then 1 else 0
    ensures SomePhaseFails(w, actions, t) ==> StillToSwitch(w.app.tasks[t])
    decreases |actions|
  {
    if actions != [] {
      var w1 := Step(w, actions[0]).value;
      var r1 := WindowStep(w, r, actions[0], w1, t, from);
      if t in w1.app.tasks {
        SwitchesLater(w1, r1, actions[1..], t, from);
      } else {
        EndedStays(w1, actions[1..], t);
      }
    }
  }

  /**
   * A rollover among any number of requests switches once if all its phases
   * succeed, and rolls back exactly if one of them fails.
   */
  lemma SwitchesExactly(w0: World, r: Roles, actions: seq<Action>, t: TaskId, from: Ipv4)
    requires JustEntered(w0, r, t, from) && OnlyRolloverRun(w0, actions, t)
    ensures Run(w0, actions).Some?
    ensures var w := Run(w0, actions).value;
            t !in w.app.tasks ==>
              if SomePhaseFails(w0, actions, t) then
                && w.app.state == Running(from) && w.app.slot == w0.app.slot
                && w.app.sideA == w0.app.sideA && w.app.sideB == w0.app.sideB && w.free == w0.free
              else w.app.hist.switches == w0.app.hist.switches + 1 && w.app.slot == w0.app.slot.Other()
  {
    SwitchesLater(w0, r, actions, t, from);
    FailedRolloverRestores(w0, r, actions, t, from);
    SlotFollowsSwitch(w0, r, actions, t, from);
  }

  lemma SlotFollowsSwitch(w0: World, r: Roles, actions: seq<Action>, t: TaskId, from: Ipv4)
    requires JustEntered(w0, r, t, from) && OnlyRolloverRun(w0, actions, t)
    ensures Run(w0, actions).Some?
    ensures var w := Run(w0, actions).value;
            w.app.hist.switches == w0.app.hist.switches + 1 ==> w.app.slot == w0.app.slot.Other()
  {
    var _ := RestoreRun(w0, w0, r, actions, t, from);
  }

  // ---- the race with a concurrent stop ----

  /** Only rollover `t`, the stop `s`, and other apps' allocations move. */
  predicate OnlyRolloverAndStop(a: Action, t: TaskId, s: TaskId) {
    match a
    case Advance(u, _, _) => u == t || u == s
    case Stop(u) => u == s
    case Elsewhere(_) => true
    case _ => false
  }

  /** `stopped`: the first critical section of the stop is behind us. */
  predicate Racing(app: App, t: TaskId, s: TaskId, stopped: bool) {
    && (forall u :: u in app.tasks ==> (u == t && app.tasks[u].IsRoller()) || (u == s && app.tasks[u].Tearing?))
    && (if stopped then app.state.Stopping? || app.state.Stopped?
        else app.state.RollingOver? || app.state.Running?)
  }

  lemma RacingStep(w: World, r: Roles, a: Action, w': World, t: TaskId, s: TaskId, stopped: bool)
    requires InvFor(w, r) && Step(w, a) == Some(w') && OnlyRolloverAndStop(a, t, s) && t != s
    requires Racing(w.app, t, s, stopped)
    ensures Disciplined(w.app, a)
    ensures Racing(w'.app, t, s, stopped || a.Stop?)
  {
    if a.Advance? && a.t == t {
      RacingRoller(w, r, a, w', t, s, stopped);
    }
  }

  lemma RacingRoller(w: World, r: Roles, a: Action, w': World, t: TaskId, s: TaskId, stopped: bool)
    requires InvFor(w, r) && Step(w, a) == Some(w') && a.Advance? && a.t == t && t != s
    requires Racing(w.app, t, s, stopped)
    ensures Racing(w'.app, t, s, stopped)
  {
    OwnMove(w, t, a.ok, a.ip);
    RollerStaysRoller(w, t, a.ok, a.ip);
  }

  /** A rollover stays one until it is over, and only leaves `RollingOver` for `Running`. */
  lemma RollerStaysRoller(w: World, t: TaskId, ok: bool, ip: Ipv4)
    requires RollerAt(w.app, t)
    ensures var app' := Next(w, t, w.app.tasks[t], ok, ip).app;
            && (t in app'.tasks ==> app'.tasks[t].IsRoller())
            && (app'.state == w.app.state || (w.app.state.RollingOver? && app'.state.Running?))
  {
  }

  lemma RacingRun(w: World, r: Roles, actions: seq<Action>, t: TaskId, s: TaskId, stopped: bool)
    returns (r': Roles, ended: bool)
    requires InvFor(w, r) && LedgerOk(w.app) && Racing(w.app, t, s, stopped) && t != s
    requires Run(w, actions).Some?
    requires forall i :: 0 <= i < |actions| ==> OnlyRolloverAndStop(actions[i], t, s)
    ensures var w' := Run(w, actions).value;
            InvFor(w', r') && LedgerOk(w'.app) && Racing(w'.app, t, s, ended)
    ensures ended <==> stopped || exists i :: 0 <= i < |actions| && actions[i].Stop?
    decreases |actions|
  {
    r', ended := r, stopped;
    if actions != [] {
      var a, w1 := actions[0], Step(w, actions[0]).value;
      RacingStep(w, r, a, w1, t, s, stopped);
      var r1 := StepKeeps(w, r, a, w1);
      StepBalances(w, r, a, w1);
      r', ended := RacingRun(w1, r1, actions[1..], t, s, stopped || a.Stop?);
      assert forall i :: 0 <= i < |actions[1..]| ==> actions[1..][i] == actions[i + 1];
      if exists i :: 0 <= i < |actions| && actions[i].Stop? {
        var i :| 0 <= i < |actions| && actions[i].Stop?;
        assert i == 0 || actions[1..][i - 1].Stop?;
      }
    }
  }

  /**
   * One rollover against one stop whose first section falls anywhere after
   * entry: in every interleaving and with every outcome of every phase, when
   * both are done the app is stopped, neither slot holds a container or an
   * endpoint, and every address ever taken went back exactly once.
   */
  lemma StopDuringRolloverLeavesNothing(w0: World, r: Roles, actions: seq<Action>, t: TaskId, s: TaskId, from: Ipv4)
    requires JustEntered(w0, r, t, from) && w0.app.tasks.Keys == {t} && t != s
    requires forall i :: 0 <= i < |actions| ==> OnlyRolloverAndStop(actions[i], t, s)
    requires exists i :: 0 <= i < |actions| && actions[i].Stop?
    requires Run(w0, actions).Some? && Run(w0, actions).value.app.tasks == map[]
    ensures var app := Run(w0, actions).value.app;
            && app.state == Stopped
            && app.sideA == EMPTY && app.sideB == EMPTY
            && app.hist.taken == app.hist.returned
  {
    var r', ended := RacingRun(w0, r, actions, t, s, false);
    var w := Run(w0, actions).value;
    assert forall u :: u !in w.app.tasks;
    assert w.app.state.Stopped? && r'.roller.None?;
    assert Vacant(w.app.On(w.app.slot)) && Vacant(w.app.On(w.app.slot.Other()));
    forall ip: Ipv4 ensures w.app.hist.taken[ip] == w.app.hist.returned[ip] {
      assert Balanced(w.app, ip);
    }
  }
}
