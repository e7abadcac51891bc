/**
 * The scheduling assumptions are exact.  Whatever the state of the protocol, a
 * step that breaks one of them can be continued, by steps that break none, to
 * a request sent to nothing or to an idle app with something left behind; and
 * a step that respects them cannot.
 */
module RolloverHarm {
  import opened Prelude
  import opened Handle
  import opened Rollover
  import opened RolloverInvariant
  import opened RolloverTheorems

  /**
   * What a caller or an operator can see to be wrong: a request is answered
   * with an address that nothing serves, or every operation has completed and
   * what exists is not what the handle says.
   */
  predicate Broken(app: App) {
    || (app.state.ClaimOf().Ready? && !Serves(app, app.state.ClaimOf().ip))
    || (app.tasks == map[] && !Settled(app))
  }

  predicate LeadsAstray(w: World, actions: seq<Action>) {
    DisciplinedRun(w, actions) && Run(w, actions).Some? && Broken(Run(w, actions).value.app)
  }

  ghost predicate Harmful(w: World) {
    exists actions: seq<Action> :: LeadsAstray(w, actions)
  }

  lemma AlreadyBroken(w: World)
    requires Broken(w.app)
    ensures Harmful(w)
  {
    assert LeadsAstray(w, []);
  }

  lemma HarmBefore(w: World, a: Action, w': World)
    requires Step(w, a) == Some(w') && Disciplined(w.app, a) && Harmful(w')
    ensures Harmful(w)
  {
    var rest: seq<Action> :| LeadsAstray(w', rest);
    assert ([a] + rest)[1..] == rest;
    assert LeadsAstray(w, [a] + rest);
  }

  lemma InvIsHarmless(w: World)
    requires Inv(w)
    ensures !Harmful(w)
  {
    var r: Roles :| InvFor(w, r);
    forall actions: seq<Action> | DisciplinedRun(w, actions) ensures !LeadsAstray(w, actions) {
      var r' := RunKeeps(w, r, actions);
      NotBroken(Run(w, actions).value, r');
    }
  }

  lemma NotBroken(w: World, r: Roles)
    requires InvFor(w, r)
    ensures !Broken(w.app)
  {
    if w.app.tasks == map[] {
      assert forall t :: t !in w.app.tasks;
    }
  }

  lemma FreshTask(used: set<TaskId>) returns (t: TaskId)
    ensures t !in used
  {
    t := 0;
    ghost var below: set<TaskId> := {};
    while t in used
      invariant below <= used && |below| == t && forall u: TaskId :: u in below <==> u < t
      decreases used - below
    {
      below, t := below + {t}, t + 1;
    }
  }

  /** An address that no endpoint of the app uses, made available by other apps. */
  lemma FindAddress(w: World) returns (w': World, ip: Ipv4)
    ensures w' == World(w.app, {ip}) && Step(w, Elsewhere({ip})) == Some(w')
  {
    var a, b := w.app.sideA.endpoint, w.app.sideB.endpoint;
    ip := if a != Some(0) && b != Some(0) then 0 else if a != Some(1) && b != Some(1) then 1 else 2;
    w' := World(w.app, {ip});
  }

  // ---- a stop while a start is in flight ----

  /** The stop `x` is about to remove what is in the slot in use. */
  predicate StopPending(app: App, x: TaskId) {
    x in app.tasks && app.tasks[x] == Tearing([app.slot], false)
  }

  lemma {:induction false} StartThenTorn(w: World, u: TaskId, x: TaskId, phase: Phase)
    requires StopPending(w.app, x) && u in w.app.tasks && w.app.tasks[u] == Building(ColdBuild, w.app.slot, phase)
    requires || phase.Unallocated? || phase.Allocated? || phase.Pulled? || phase.Started?
             || (phase.Built? && phase.result.Some?)
    requires phase.Unallocated? || phase.Allocated? || phase.Pulled? ==> w.app.On(w.app.slot).container.None?
    ensures Harmful(w)
    decreases StepsToBuilt(phase)
  {
    var s := w.app.slot;
    if phase.Built? {
      var w1 := Next(w, u, w.app.tasks[u], true, 0);
      var w2 := Next(w1, x, w1.app.tasks[x], true, 0);
      AlreadyBroken(w2);
      HarmBefore(w1, Advance(x, true, 0), w2);
      HarmBefore(w, Advance(u, true, 0), w1);
    } else if phase.Unallocated? {
      var v, ip := FindAddress(w);
      var v' := Next(v, u, v.app.tasks[u], true, ip);
      StartThenTorn(v', u, x, v'.app.tasks[u].phase);
      HarmBefore(v, Advance(u, true, ip), v');
      HarmBefore(w, Elsewhere({ip}), v);
    } else {
      var w' := Next(w, u, w.app.tasks[u], true, 0);
      StartThenTorn(w', u, x, w'.app.tasks[u].phase);
      HarmBefore(w, Advance(u, true, 0), w');
    }
  }

  function StepsToBuilt(phase: Phase): nat {
    match phase
    case Unallocated => 4
    case Allocated(_) => 3
    case Pulled(_) => 2
    case Started(_) => 1
    case _ => 0
  }

  /** The stop is still on its way when the next request starts the app again. */
  lemma StartAgainThenTorn(w: World, x: TaskId)
    requires StopPending(w.app, x) && w.app.state.Stopped? && w.app.On(w.app.slot).container.None?
    ensures Harmful(w)
  {
    var v := FreshTask(w.app.tasks.Keys);
    var w1 := w.At(v, Looping);
    var w2 := Next(w1, v, Looping, true, 0);
    var w3 := Next(w2, v, Owner(None), true, 0);
    StartThenTorn(w3, v, x, Unallocated);
    HarmBefore(w2, Advance(v, true, 0), w3);
    HarmBefore(w1, Advance(v, true, 0), w2);
    HarmBefore(w, Request(v), w1);
  }

  lemma FailThenTorn(w: World, u: TaskId, x: TaskId, phase: Phase)
    requires StopPending(w.app, x) && u in w.app.tasks && w.app.tasks[u] == Building(ColdBuild, w.app.slot, phase)
    requires phase.Unready? || phase.Releasing? || phase == Built(None)
    requires phase.Unready? || w.app.On(w.app.slot).container.None?
    ensures Harmful(w)
    decreases if phase.Unready? then 2 else if phase.Releasing? then 1 else 0
  {
    var w' := Next(w, u, w.app.tasks[u], true, 0);
    if phase.Built? {
      StartAgainThenTorn(w', x);
    } else {
      FailThenTorn(w', u, x, w'.app.tasks[u].phase);
    }
    HarmBefore(w, Advance(u, true, 0), w');
  }

  lemma OwnerThenTorn(w: World, u: TaskId, x: TaskId)
    requires StopPending(w.app, x) && u in w.app.tasks && (w.app.tasks[u].Owner? || w.app.tasks[u].Resuming?)
    requires StarterOk(w.app.On(w.app.slot), w.app.slot, w.app.tasks[u])
    ensures Harmful(w)
    decreases w.app.tasks[u].Owner?
  {
    var w' := Next(w, u, w.app.tasks[u], true, 0);
    match w.app.tasks[u]
    case Owner(None) => StartThenTorn(w', u, x, Unallocated); HarmBefore(w, Advance(u, true, 0), w');
    case Owner(Some(_)) => OwnerThenTorn(w', u, x); HarmBefore(w, Advance(u, true, 0), w');
    case Resuming(_, from) => StartThenTorn(w', u, x, Built(Some(from))); HarmBefore(w, Advance(u, true, 0), w');
  }

  /** Whatever the start has come to: its owner or the next request ends up at an address that was torn down. */
  lemma StopDuringStartHarms(w: World, r: Roles, x: TaskId)
    requires InvFor(w, r) && w.app.state.Starting? && x !in w.app.tasks
    ensures Harmful(Step(w, Stop(x)).value)
  {
    var w' := Step(w, Stop(x)).value;
    var u := r.starter.value;
    assert w'.app.tasks[u] == w.app.tasks[u] && StarterOk(w.app.On(w.app.slot), w.app.slot, w.app.tasks[u]);
    if w.app.tasks[u].Building? {
      var phase := w.app.tasks[u].phase;
      if phase.Unready? || phase.Releasing? || phase == Built(None) {
        FailThenTorn(w', u, x, phase);
      } else {
        StartThenTorn(w', u, x, phase);
      }
    } else {
      OwnerThenTorn(w', u, x);
    }
  }

  // ---- a freeze that a thaw does not see ----

  predicate FrozenHard(app: App) {
    app.state.Frozen? && app.On(app.slot).paused
  }

  lemma CommitHarms(w: World, t: TaskId)
    requires FrozenHard(w.app) && t in w.app.tasks && w.app.tasks[t].Thawed?
    ensures Harmful(w)
  {
    var w' := Next(w, t, Thawed, true, 0);
    AlreadyBroken(w');
    HarmBefore(w, Advance(t, true, 0), w');
  }

  lemma UnfreezeOtherHarms(w: World, t: TaskId)
    requires FrozenHard(w.app) && t in w.app.tasks && w.app.tasks[t] == ThawAt(w.app.slot.Other())
    requires w.app.On(w.app.slot.Other()).container.Some?
    ensures Harmful(w)
  {
    var w' := Next(w, t, w.app.tasks[t], true, 0);
    CommitHarms(w', t);
    HarmBefore(w, Advance(t, true, 0), w');
  }

  /** A rollover that drifted starts its container, and the thaw takes that one for its own. */
  lemma BuildThenUnfreezeHarms(w: World, t: TaskId, u: TaskId)
    requires FrozenHard(w.app) && t in w.app.tasks && w.app.tasks[t] == ThawAt(w.app.slot.Other())
    requires u in w.app.tasks && CanStart(w.app.tasks[u])
    requires w.app.tasks[u].Building? ==> w.app.tasks[u].slot == w.app.slot.Other()
    requires w.app.On(w.app.slot.Other()).container.None?
    ensures Harmful(w)
    decreases if w.app.tasks[u].Entered? then 5 else StepsToBuilt(w.app.tasks[u].phase)
  {
    if w.app.tasks[u].Building? && w.app.tasks[u].phase.Unallocated? {
      var v, ip := FindAddress(w);
      var v' := Next(v, u, v.app.tasks[u], true, ip);
      BuildThenUnfreezeHarms(v', t, u);
      HarmBefore(v, Advance(u, true, ip), v');
      HarmBefore(w, Elsewhere({ip}), v);
    } else {
      var w' := Next(w, u, w.app.tasks[u], true, 0);
      if w.app.tasks[u].Building? && w.app.tasks[u].phase.Pulled? {
        UnfreezeOtherHarms(w', t);
      } else {
        BuildThenUnfreezeHarms(w', t, u);
      }
      HarmBefore(w, Advance(u, true, 0), w');
    }
  }

  lemma FreezeDuringThawHarms(w: World, r: Roles, t: TaskId)
    requires InvFor(w, r) && w.app.state.Running? && t in w.app.tasks && ThawRace(w.app, w.app.tasks[t])
    ensures Harmful(Step(w, Freeze(true)).value)
  {
    var w' := Step(w, Freeze(true)).value;
    var opp := w.app.slot.Other();
    assert w'.app.On(opp) == w.app.On(opp);
    if w.app.tasks[t].Thawed? {
      CommitHarms(w', t);
    } else if w.app.On(opp).container.Some? {
      UnfreezeOtherHarms(w', t);
    } else {
      var u :| u in w.app.tasks && CanStart(w.app.tasks[u]);
      assert r.roller == Some(u) && RollerOk(w.app.On(opp), opp, false, w.app.tasks[u]);
      BuildThenUnfreezeHarms(w', t, u);
    }
  }

  // ---- a resume that fails ----

  /** Neither starts nor stops, and a rollover of it works on the other slot. */
  predicate Loose(app: App, pc: Pc) {
    && !pc.IsStarter() && !pc.Tearing?
    && (pc.Building? || pc.Draining? || pc.TearStop? || pc.TearRelease? ==> pc.slot == app.slot.Other())
  }

  /** How many failing steps a task needs to be over, while the app is stopped. */
  function StepsToEnd(pc: Pc): nat {
    match pc
    case Building(ColdBuild, _, phase) => if phase.Built? then 1 else 2
    case Owner(_) => 3
    case Looping => 4
    case Gate => 5
    case Thawed => 6
    case ThawCheck => 6
    case Building(Replacement(_), _, phase) =>
      (match phase
       case Built(_) => 3
       case Releasing => 4
       case Unallocated => 4
       case Allocated(_) => 5
       case Pulled(_) => 5
       case Unready(_) => 5
       case Started(_) => 6)
    case Entered(_) => 5
    case TearRelease(_, _) => 1
    case TearStop(_, _) => 2
    case Draining(_, _) => 3
    case ThawNeeded => 2
    case _ => 1
  }

  predicate OthersLoose(app: App, t: TaskId) {
    forall u :: u in app.tasks && u != t ==> Loose(app, app.tasks[u])
  }

  /** Stopped with a container in the slot, apart from what task `t` is doing about it, which will fail. */
  predicate LeftBehind(app: App, t: TaskId) {
    && app.On(app.slot).container.Some? && OthersLoose(app, t)
    && (t in app.tasks && app.tasks[t].IsStarter() ==>
          && app.state.Starting?
          && (app.tasks[t] == Owner(None) || app.tasks[t] == Building(ColdBuild, app.slot, Unallocated)
              || app.tasks[t] == Building(ColdBuild, app.slot, Built(None))))
    && (t in app.tasks && !app.tasks[t].IsStarter() ==> app.state.Stopped? && Loose(app, app.tasks[t]))
    && (t !in app.tasks ==> app.state.Stopped?)
  }

  /** Task `t` fails its way on, and nothing else changes in the slot in use. */
  ghost predicate FailedOn(w: World, t: TaskId, w': World)
    requires t in w.app.tasks
  {
    && LeftBehind(w'.app, t)
    && w'.app.tasks.Keys == (if t in w'.app.tasks then w.app.tasks.Keys else w.app.tasks.Keys - {t})
    && (t in w'.app.tasks ==> StepsToEnd(w'.app.tasks[t]) < StepsToEnd(w.app.tasks[t]))
  }

  lemma FailsToClimb(w: World, t: TaskId)
    requires LeftBehind(w.app, t) && t in w.app.tasks && w.app.tasks[t].Building? && !w.app.tasks[t].phase.Built?
    ensures FailedOn(w, t, Next(w, t, w.app.tasks[t], false, 0))
  {
    var Building(job, s, phase) := w.app.tasks[t];
    var w' := Climb(w, t, job, s, phase, false, 0);
    assert w'.app.On(s.Other()) == w.app.On(s.Other());
  }

  lemma FailsToFinish(w: World, t: TaskId)
    requires LeftBehind(w.app, t) && t in w.app.tasks && w.app.tasks[t].Building? && w.app.tasks[t].phase.Built?
    ensures FailedOn(w, t, Next(w, t, w.app.tasks[t], false, 0))
  {
  }

  lemma TailGoesOn(w: World, t: TaskId)
    requires LeftBehind(w.app, t) && t in w.app.tasks && w.app.tasks[t].IsRoller() && !w.app.tasks[t].Building?
    ensures FailedOn(w, t, Next(w, t, w.app.tasks[t], false, 0))
  {
  }

  lemma FailsOn(w: World, t: TaskId)
    requires LeftBehind(w.app, t) && t in w.app.tasks
    ensures FailedOn(w, t, Next(w, t, w.app.tasks[t], false, 0)) && Disciplined(w.app, Advance(t, false, 0))
  {
    if w.app.tasks[t].Building? {
      if w.app.tasks[t].phase.Built? { FailsToFinish(w, t); } else { FailsToClimb(w, t); }
    } else if w.app.tasks[t].IsRoller() {
      TailGoesOn(w, t);
    }
  }

  lemma LeftBehindHarms(w: World, t: TaskId)
    requires LeftBehind(w.app, t)
    ensures Harmful(w)
    decreases |w.app.tasks|, if t in w.app.tasks then StepsToEnd(w.app.tasks[t]) else 7
  {
    if t in w.app.tasks {
      var w' := Next(w, t, w.app.tasks[t], false, 0);
      FailsOn(w, t);
      LeftBehindHarms(w', t);
      HarmBefore(w, Advance(t, false, 0), w');
    } else if w.app.tasks == map[] {
      AlreadyBroken(w);
    } else {
      var u :| u in w.app.tasks;
      LeftBehindHarms(w, u);
    }
  }

  /** When all is over the app is stopped, and the container it was to resume is still there. */
  lemma FailedResumeHarms(w: World, r: Roles, t: TaskId, s: Slot, from: Ipv4, ip: Ipv4)
    requires InvFor(w, r) && t in w.app.tasks && w.app.tasks[t] == Resuming(s, from)
    ensures Harmful(Next(w, t, Resuming(s, from), false, ip))
  {
    var w' := Next(w, t, Resuming(s, from), false, ip);
    assert r.starter == Some(t) && w.app.state.Starting? && StarterOk(w.app.On(w.app.slot), w.app.slot, w.app.tasks[t]);
    forall u | u in w.app.tasks && u != t ensures Loose(w.app, w.app.tasks[u]) {
      if w.app.tasks[u].IsRoller() {
        assert r.roller == Some(u) && RollerOk(w.app.On(w.app.slot.Other()), w.app.slot.Other(), false, w.app.tasks[u]);
      }
    }
    LeftBehindHarms(w', t);
  }

  // ---- a rollover inside another one ----

  /** A rollover works on this very slot, and will tear it down if it fails or comes too late. */
  predicate WorksOn(pc: Pc, s: Slot) {
    || (pc.Building? && pc.job.Replacement? && pc.slot == s)
    || ((pc.Draining? || pc.TearStop? || pc.TearRelease?) && pc.slot == s)
  }

  lemma CurrentTorn(w: World, u: TaskId)
    requires w.app.state.Running? && u in w.app.tasks && WorksOn(w.app.tasks[u], w.app.slot)
    ensures Harmful(w)
    decreases StepsToEnd(w.app.tasks[u])
  {
    if Broken(w.app) {
      AlreadyBroken(w);
    } else {
      var w' := Next(w, u, w.app.tasks[u], false, 0);
      if Broken(w'.app) {
        AlreadyBroken(w');
      } else {
        CurrentTorn(w', u);
      }
      HarmBefore(w, Advance(u, false, 0), w');
    }
  }

  /** `t` builds and switches to the slot that `u` still works on. */
  lemma SwitchThenTorn(w: World, t: TaskId, u: TaskId)
    requires w.app.state.RollingOver? && t != u && t in w.app.tasks && u in w.app.tasks
    requires WorksOn(w.app.tasks[u], w.app.slot.Other())
    requires w.app.tasks[t].BeforeSwitch() && (w.app.tasks[t].Building? ==> w.app.tasks[t].slot == w.app.slot.Other())
    requires CanStart(w.app.tasks[t]) ==> w.app.On(w.app.slot.Other()).container.None?
    requires CanStart(w.app.tasks[t]) || w.app.tasks[t].phase.Started?
             || (w.app.tasks[t].phase.Built? && w.app.tasks[t].phase.result.Some?)
    ensures Harmful(w)
    decreases if w.app.tasks[t].Entered? then 5 else StepsToBuilt(w.app.tasks[t].phase)
  {
    if w.app.tasks[t].Building? && w.app.tasks[t].phase.Unallocated? {
      var v, ip := FindAddress(w);
      var v' := Next(v, t, v.app.tasks[t], true, ip);
      SwitchThenTorn(v', t, u);
      HarmBefore(v, Advance(t, true, ip), v');
      HarmBefore(w, Elsewhere({ip}), v);
    } else {
      var w' := Next(w, t, w.app.tasks[t], true, 0);
      if w.app.tasks[t].Building? && w.app.tasks[t].phase.Built? {
        CurrentTorn(w', u);
      } else {
        SwitchThenTorn(w', t, u);
      }
      HarmBefore(w, Advance(t, true, 0), w');
    }
  }

  /**
   * Whichever of the two switches last to the slot, the other one tears it
   * down.  If the earlier rollover `u` has started its container it switches
   * first; otherwise it lets go of any old container and `t` switches.
   */
  lemma OverlapHarms(w: World, t: TaskId, u: TaskId)
    requires w.app.state.RollingOver? && t != u && t in w.app.tasks && u in w.app.tasks
    requires w.app.tasks[t].Entered? && w.app.tasks[u].IsRoller()
    requires RollerOk(w.app.On(w.app.slot.Other()), w.app.slot.Other(), false, w.app.tasks[u])
    ensures Harmful(w)
    decreases StepsToEnd(w.app.tasks[u])
  {
    var pc := w.app.tasks[u];
    if pc.Building? && (pc.phase.Started? || (pc.phase.Built? && pc.phase.result.Some?)) {
      var w' := Next(w, t, w.app.tasks[t], true, 0);
      SwitchThenTorn(w', u, t);
      HarmBefore(w, Advance(t, true, 0), w');
    } else if pc.Entered? || pc.Draining? || pc.TearStop? || (pc.Building? && pc.phase.Unready?) {
      var w' := Next(w, u, pc, false, 0);
      OverlapHarms(w', t, u);
      HarmBefore(w, Advance(u, false, 0), w');
    } else {
      SwitchThenTorn(w, t, u);
    }
  }

  lemma SecondRolloverHarms(w: World, r: Roles, t: TaskId, u: TaskId)
    requires InvFor(w, r) && t in w.app.tasks && w.app.tasks[t] == Gate && w.app.state.Running?
    requires u in w.app.tasks && w.app.tasks[u].IsRoller()
    ensures Harmful(Next(w, t, Gate, true, 0))
  {
    assert r.roller == Some(u) && RollerOk(w.app.On(w.app.slot.Other()), w.app.slot.Other(), false, w.app.tasks[u]);
    OverlapHarms(Next(w, t, Gate, true, 0), t, u);
  }

  // ---- both directions ----

  lemma UndisciplinedHarms(w: World, r: Roles, a: Action, w': World)
    requires InvFor(w, r) && Step(w, a) == Some(w') && !Disciplined(w.app, a)
    ensures Harmful(w')
  {
    if a.Stop? {
      StopDuringStartHarms(w, r, a.t);
    } else if a.Freeze? {
      var t :| t in w.app.tasks && ThawRace(w.app, w.app.tasks[t]);
      FreezeDuringThawHarms(w, r, t);
    } else if w.app.tasks[a.t].Resuming? {
      FailedResumeHarms(w, r, a.t, w.app.tasks[a.t].slot, w.app.tasks[a.t].ip, a.ip);
    } else {
      var u :| u in w.app.tasks && w.app.tasks[u].IsRoller();
      SecondRolloverHarms(w, r, a.t, u);
    }
  }

  /**
   * From any state of the protocol, a step can be followed by visible harm, in
   * a run that otherwise respects the scheduling assumptions, if and only if
   * the step breaks one of them.
   */
  lemma StepExact(w: World, a: Action, w': World)
    requires Inv(w) && Step(w, a) == Some(w')
    ensures Harmful(w') <==> !Disciplined(w.app, a)
    ensures Inv(w') <==> Disciplined(w.app, a)
  {
    var r: Roles :| InvFor(w, r);
    if Disciplined(w.app, a) {
      var _ := StepKeeps(w, r, a, w');
      StepBalances(w, r, a, w');
      InvIsHarmless(w');
    } else {
      UndisciplinedHarms(w, r, a, w');
      if Inv(w') { InvIsHarmless(w'); }
    }
  }
}
