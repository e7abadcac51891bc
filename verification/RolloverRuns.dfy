/**
 * One operation at a time: what a start, a deployment or a stop comes to when
 * no other task takes a step in between, whatever its calls answer.
 */
module RolloverRuns {
  import opened Prelude
  import opened Handle
  import opened Rollover

  // ---- runs of one task ----

  /** How the calls of one operation turn out, and the address it is offered. */
  datatype Script = Script(
    rolloutPulled: bool,
    unfrozen: bool,
    attached: bool,
    pulled: bool,
    started: bool,
    ready: bool,
    ip: Ipv4)

  /** The answer to the call a task is about to make; everything else cannot fail. */
  function Answer(k: Script, pc: Pc): bool {
    match pc
    case Pulling => k.rolloutPulled
    case Resuming(_, _) => k.unfrozen
    case ThawAt(_) => k.unfrozen
    case Building(_, _, Unallocated) => k.attached
    case Building(_, _, Allocated(_)) => k.pulled
    case Building(_, _, Pulled(_)) => k.started
    case Building(_, _, Started(_)) => k.ready
    case _ => true
  }

  /** The next `n` steps of task `t`, or fewer when it is over before. */
  function RunTask(w: World, t: TaskId, k: Script, n: nat): World
    decreases n
  {
    if n == 0 || t !in w.app.tasks then w
    else RunTask(Next(w, t, w.app.tasks[t], Answer(k, w.app.tasks[t]), k.ip), t, k, n - 1)
  }

  /** Task `t` alone takes the world from `w` to `w'`. */
  ghost predicate Carries(w: World, t: TaskId, k: Script, w': World) {
    exists n: nat :: RunTask(w, t, k, n) == w'
  }

  /** An operation that begins with `a` and is then left to itself is over in `w'`. */
  ghost predicate EndsIn(w: World, a: Action, t: TaskId, k: Script, w': World) {
    Step(w, a).Some? && t !in w'.app.tasks && Carries(Step(w, a).value, t, k, w')
  }

  /** A script determines where the operation ends. */
  lemma EndIsUnique(w: World, a: Action, t: TaskId, k: Script, w': World, w'': World)
    requires EndsIn(w, a, t, k, w') && EndsIn(w, a, t, k, w'')
    ensures w' == w''
  {
    var w1 := Step(w, a).value;
    var n: nat :| RunTask(w1, t, k, n) == w';
    var m: nat :| RunTask(w1, t, k, m) == w'';
    if n <= m { OverStaysOver(w1, t, k, n, m); } else { OverStaysOver(w1, t, k, m, n); }
  }

  lemma {:induction false} OverStaysOver(w: World, t: TaskId, k: Script, n: nat, m: nat)
    requires t !in RunTask(w, t, k, n).app.tasks && n <= m
    ensures RunTask(w, t, k, m) == RunTask(w, t, k, n)
    decreases n
  {
    if n > 0 && t in w.app.tasks {
      OverStaysOver(Next(w, t, w.app.tasks[t], Answer(k, w.app.tasks[t]), k.ip), t, k, n - 1, m - 1);
    }
  }

  lemma Rests(w: World, t: TaskId, k: Script)
    ensures Carries(w, t, k, w)
  {
    assert RunTask(w, t, k, 0) == w;
  }

  /** One step of `t` and then the rest. */
  lemma After(w: World, t: TaskId, k: Script, w1: World, w': World)
    requires t in w.app.tasks && Next(w, t, w.app.tasks[t], Answer(k, w.app.tasks[t]), k.ip) == w1
    requires Carries(w1, t, k, w')
    ensures Carries(w, t, k, w')
  {
    var n: nat :| RunTask(w1, t, k, n) == w';
    assert RunTask(w, t, k, n + 1) == w';
  }

  /** From one program point to the next, with task `t` moved on in the world that the step leaves. */
  lemma Goes(w: World, t: TaskId, pc: Pc, k: Script, v: World, pc': Pc, w': World)
    requires Next(w.At(t, pc), t, pc, Answer(k, pc), k.ip) == v.At(t, pc).At(t, pc')
    requires Carries(v.At(t, pc'), t, k, w')
    ensures Carries(w.At(t, pc), t, k, w')
  {
    assert v.app.tasks[t := pc][t := pc'] == v.app.tasks[t := pc'];
    After(w.At(t, pc), t, k, v.At(t, pc'), w');
  }

  /** The last step: `t` is over, and the others are as they were. */
  lemma Leaves(w: World, t: TaskId, pc: Pc, k: Script, w': World)
    requires t !in w.app.tasks && t !in w'.app.tasks
    requires Next(w.At(t, pc), t, pc, Answer(k, pc), k.ip) == w'.At(t, pc).Done(t)
    ensures Carries(w.At(t, pc), t, k, w')
  {
    assert w'.app.tasks[t := pc] - {t} == w'.app.tasks;
    Rests(w', t, k);
    After(w.At(t, pc), t, k, w', w');
  }

  /** Such a run is one of the runs of the machine. */
  lemma {:induction false} TaskRuns(w: World, t: TaskId, k: Script, n: nat) returns (actions: seq<Action>)
    ensures Run(w, actions) == Some(RunTask(w, t, k, n))
    decreases n
  {
    actions := [];
    if n > 0 && t in w.app.tasks {
      var a := Advance(t, Answer(k, w.app.tasks[t]), k.ip);
      var w1 := Next(w, t, w.app.tasks[t], a.ok, a.ip);
      var rest := TaskRuns(w1, t, k, n - 1);
      actions := [a] + rest;
      assert actions[1..] == rest;
    }
  }

  // ---- the effects ----

  /** A container and its endpoint, both with address `ip`, in slot `s`. */
  function Launch(w: World, s: Slot, ip: Ipv4): World {
    var v := AllocateEndpoint(w, s, ip);
    World(v.app.Put(s, v.app.On(s).(container := Some(ip), paused := false)), v.free)
  }

  function Remove(w: World, s: Slot): World {
    ReleaseEndpoint(World(StopContainer(w.app, s), w.free), s)
  }

  function InState(w: World, state: AppState): World {
    World(w.app.(state := state), w.free)
  }

  function SwitchedTo(w: World, ip: Ipv4): World {
    var v := Launch(w, w.app.slot.Other(), ip);
    World(v.app.(state := Running(ip), slot := w.app.slot.Other(),
                 hist := v.app.hist.(switches := v.app.hist.switches + 1)), v.free)
  }

  function Thaw(w: World): World
    requires w.app.state.Frozen?
  {
    InState(World(UnfreezeContainer(w.app, w.app.slot), w.free), Running(w.app.state.containerIp))
  }

  /** The address is available and every phase of the ladder succeeds. */
  predicate AllWell(w: World, k: Script) {
    k.attached && k.pulled && k.started && k.ready && k.ip in w.free
  }

  /** ... on slot `s`, where no container is running. */
  predicate Succeeds(w: World, s: Slot, k: Script) {
    AllWell(w, k) && w.app.On(s).CanLaunch()
  }

  /** The container was there at some time, and is taken down again when it is not ready. */
  predicate WasUp(w: World, s: Slot, k: Script) {
    k.pulled && k.started && w.app.On(s).CanLaunch()
  }

  /**
   * What a failed ladder leaves of slot `s`: no endpoint, if it came to have
   * one, and of an earlier container what the failed one did not replace.
   */
  function Undone(w: World, s: Slot, k: Script): World {
    var h, side := w.app.hist, w.app.On(s);
    if !k.attached || k.ip !in w.free then w
    else
      World(
        w.app.Put(s, if WasUp(w, s, k) then EMPTY else side.(endpoint := None))
             .(hist := h.(taken := h.taken + multiset{k.ip}, returned := h.returned + multiset{k.ip})),
        w.free)
  }

  /** On an empty slot that is the world as it was, with the address booked out and in again. */
  lemma UndoneOnEmpty(w: World, s: Slot, k: Script)
    requires w.app.On(s) == EMPTY
    ensures var w' := Undone(w, s, k);
            && w' == World(w.app.(hist := w'.app.hist), w.free) && w'.app.hist.switches == w.app.hist.switches
            && (w'.app.hist == w.app.hist ||
                (&& w'.app.hist.taken == w.app.hist.taken + multiset{k.ip}
                 && w'.app.hist.returned == w.app.hist.returned + multiset{k.ip}))
  {
  }

  // ---- the ladder ----

  /** Every phase in turn: one container more, or the way back as soon as one of them fails. */
  lemma Climbs(w: World, t: TaskId, job: Job, s: Slot, k: Script, w': World)
    requires if Succeeds(w, s, k)
             then Carries(Launch(w, s, k.ip).At(t, Building(job, s, Built(Some(k.ip)))), t, k, w')
             else Carries(Undone(w, s, k).At(t, Building(job, s, Built(None))), t, k, w')
    ensures Carries(w.At(t, Building(job, s, Unallocated)), t, k, w')
  {
    var v, first := AllocateEndpoint(w, s, k.ip), Building(job, s, Unallocated);
    if !k.attached || k.ip !in w.free {
      Goes(w, t, first, k, w, Building(job, s, Built(None)), w');
    } else {
      if !Succeeds(w, s, k) { GivesBack(w, t, job, s, k, w'); }
      ClimbsOn(v, t, job, s, k, w');
      Goes(w, t, first, k, v, Building(job, s, Allocated(k.ip)), w');
    }
  }

  /** The world without the container that was started on `s`. */
  function Down(v: World, s: Slot): World {
    World(StopContainer(v.app, s), v.free)
  }

  lemma GivesBack(w: World, t: TaskId, job: Job, s: Slot, k: Script, w': World)
    requires k.attached && k.ip in w.free
    requires Carries(Undone(w, s, k).At(t, Building(job, s, Built(None))), t, k, w')
    ensures var v := AllocateEndpoint(w, s, k.ip);
            Carries((if WasUp(w, s, k) then Down(v, s) else v).At(t, Building(job, s, Releasing)), t, k, w')
  {
    var v := AllocateEndpoint(w, s, k.ip);
    var down := if WasUp(w, s, k) then Down(v, s) else v;
    assert v.free + {k.ip} == w.free;
    Goes(down, t, Building(job, s, Releasing), k, Undone(w, s, k), Building(job, s, Built(None)), w');
  }

  /** The world once the container is up on an endpoint already there. */
  function Up(v: World, s: Slot, ip: Ipv4): World {
    World(v.app.Put(s, v.app.On(s).(container := Some(ip), paused := false)), v.free)
  }

  /** From the endpoint on. */
  lemma ClimbsOn(v: World, t: TaskId, job: Job, s: Slot, k: Script, w': World)
    requires if WasUp(v, s, k) && k.ready
             then Carries(Up(v, s, k.ip).At(t, Building(job, s, Built(Some(k.ip)))), t, k, w')
             else Carries((if WasUp(v, s, k) then Down(v, s) else v).At(t, Building(job, s, Releasing)), t, k, w')
    ensures Carries(v.At(t, Building(job, s, Allocated(k.ip))), t, k, w')
  {
    if k.pulled {
      if WasUp(v, s, k) {
        ClimbsToTop(v, t, job, s, k, w');
      } else {
        Goes(v, t, Building(job, s, Pulled(k.ip)), k, v, Building(job, s, Releasing), w');
      }
    }
    var pulled := if k.pulled then Pulled(k.ip) else Releasing;
    Goes(v, t, Building(job, s, Allocated(k.ip)), k, v, Building(job, s, pulled), w');
  }

  lemma ClimbsToTop(v: World, t: TaskId, job: Job, s: Slot, k: Script, w': World)
    requires WasUp(v, s, k)
    requires if k.ready then Carries(Up(v, s, k.ip).At(t, Building(job, s, Built(Some(k.ip)))), t, k, w')
             else Carries(Down(v, s).At(t, Building(job, s, Releasing)), t, k, w')
    ensures Carries(v.At(t, Building(job, s, Pulled(k.ip))), t, k, w')
  {
    var up := Up(v, s, k.ip);
    if k.ready {
      Goes(up, t, Building(job, s, Started(k.ip)), k, up, Building(job, s, Built(Some(k.ip))), w');
    } else {
      assert Down(up, s) == Down(v, s);
      Goes(up, t, Building(job, s, Unready(k.ip)), k, Down(v, s), Building(job, s, Releasing), w');
      Goes(up, t, Building(job, s, Started(k.ip)), k, up, Building(job, s, Unready(k.ip)), w');
    }
    Goes(v, t, Building(job, s, Pulled(k.ip)), k, up, Building(job, s, Started(k.ip)), w');
  }

  // ---- starts ----

  /** A request or a deployment on a stopped app, up to the ladder and then on to `w'`. */
  lemma ClaimsTo(w: World, t: TaskId, k: Script, w': World)
    requires w.app.state.Stopped?
    requires Carries(InState(w, Starting).At(t, Building(ColdBuild, w.app.slot, Unallocated)), t, k, w')
    ensures Carries(w.At(t, Looping), t, k, w')
  {
    var v := InState(w, Starting);
    Goes(v, t, Owner(None), k, v, Building(ColdBuild, w.app.slot, Unallocated), w');
    Goes(w, t, Looping, k, v, Owner(None), w');
  }

  /** Where a start of a stopped app ends: running with one container and one endpoint more, or stopped. */
  function StartEnd(w: World, k: Script): World {
    if Succeeds(w, w.app.slot, k) then InState(Launch(w, w.app.slot, k.ip), Running(k.ip))
    else Undone(w, w.app.slot, k)
  }

  lemma LoopsToEnd(w: World, t: TaskId, k: Script)
    requires w.app.state.Stopped? && t !in w.app.tasks
    ensures Carries(w.At(t, Looping), t, k, StartEnd(w, k))
  {
    var v, s := InState(w, Starting), w.app.slot;
    if Succeeds(w, s, k) {
      Leaves(Launch(v, s, k.ip), t, Building(ColdBuild, s, Built(Some(k.ip))), k, StartEnd(w, k));
    } else {
      Leaves(Undone(v, s, k), t, Building(ColdBuild, s, Built(None)), k, StartEnd(w, k));
    }
    Climbs(v, t, ColdBuild, s, k, StartEnd(w, k));
    ClaimsTo(w, t, k, StartEnd(w, k));
  }

  /** A request on a stopped app, whatever is left in its slot. */
  lemma StartAlone(w: World, t: TaskId, k: Script)
    requires w.app.state.Stopped? && t !in w.app.tasks
    ensures EndsIn(w, Request(t), t, k, StartEnd(w, k))
  {
    LoopsToEnd(w, t, k);
  }

  /**
   * A failed resume leaves container and endpoint behind.  A start that
   * follows and succeeds starts over the paused container, and the address of
   * the old endpoint is neither free nor anybody's any more.
   */
  lemma StartOverLeftover(w: World, t: TaskId, k: Script, oldIp: Ipv4, w': World)
    requires w.app.state.Stopped? && t !in w.app.tasks && oldIp !in w.free
    requires w.app.On(w.app.slot) == Side(Some(oldIp), true, Some(oldIp))
    requires AllWell(w, k) && EndsIn(w, Request(t), t, k, w')
    ensures w'.app.state == Running(k.ip) && w'.app.On(w.app.slot) == Side(Some(k.ip), false, Some(k.ip))
    ensures w'.app.On(w.app.slot.Other()) == w.app.On(w.app.slot.Other())
    ensures oldIp !in w'.free && w'.free == w.free - {k.ip} && w'.app.hist.returned == w.app.hist.returned
  {
    StartAlone(w, t, k);
    EndIsUnique(w, Request(t), t, k, w', StartEnd(w, k));
  }

  /** Over a container that is running, no start succeeds. */
  lemma StartOverRunning(w: World, t: TaskId, k: Script, w': World)
    requires w.app.state.Stopped? && t !in w.app.tasks
    requires w.app.On(w.app.slot).container.Some? && !w.app.On(w.app.slot).paused
    requires EndsIn(w, Request(t), t, k, w')
    ensures w'.app.state == Stopped && w'.free == w.free
    ensures var was, side := w.app.On(w.app.slot), w'.app.On(w.app.slot);
            && side.container == was.container && !side.paused
            && side.endpoint == if k.attached && k.ip in w.free then None else was.endpoint
  {
    StartAlone(w, t, k);
    EndIsUnique(w, Request(t), t, k, w', StartEnd(w, k));
  }

  /** Where a request on a frozen app ends: thawed, or stopped with everything still there. */
  function ResumeEnd(w: World, k: Script): World
    requires w.app.state.Frozen?
  {
    if Thaws(w, k) then Thaw(w) else InState(w, Stopped)
  }

  /** The freezer lets go, of a container that is still there. */
  predicate Thaws(w: World, k: Script) {
    k.unfrozen && w.app.On(w.app.slot).container.Some?
  }

  lemma ResumeAlone(w: World, t: TaskId, k: Script)
    requires w.app.state.Frozen? && t !in w.app.tasks
    ensures EndsIn(w, Request(t), t, k, ResumeEnd(w, k))
  {
    var s, from, v, w' := w.app.slot, w.app.state.containerIp, InState(w, Starting), ResumeEnd(w, k);
    var built := Building(ColdBuild, s, Built(if Thaws(w, k) then Some(from) else None));
    var next := if Thaws(w, k) then World(UnfreezeContainer(v.app, s), v.free) else v;
    Leaves(next, t, built, k, w');
    Goes(v, t, Resuming(s, from), k, next, built, w');
    Goes(v, t, Owner(Some(from)), k, v, Resuming(s, from), w');
    Goes(w, t, Looping, k, v, Owner(Some(from)), w');
  }

  /** Without its container a frozen app comes to nothing, whatever the answers. */
  lemma ResumeWithoutContainer(w: World, t: TaskId, k: Script, w': World)
    requires w.app.state.Frozen? && t !in w.app.tasks && w.app.On(w.app.slot).container.None?
    ensures EndsIn(w, Request(t), t, k, w') ==> w' == InState(w, Stopped)
    ensures k.rolloutPulled && CanRollOver(Thaw(w), t) && EndsIn(w, Deploy(t), t, k, w') ==> w' == w
  {
    ResumeAlone(w, t, k);
    if EndsIn(w, Request(t), t, k, w') { EndIsUnique(w, Request(t), t, k, w', InState(w, Stopped)); }
    if k.rolloutPulled && CanRollOver(Thaw(w), t) && EndsIn(w, Deploy(t), t, k, w') {
      DeployFrozen(w, t, k);
      EndIsUnique(w, Deploy(t), t, k, w', w);
    }
  }

  /** A request on an app that serves is over at once. */
  lemma RequestReady(w: World, t: TaskId, k: Script)
    requires (w.app.state.Running? || w.app.state.RollingOver?) && t !in w.app.tasks
    ensures EndsIn(w, Request(t), t, k, w)
  {
    Leaves(w, t, Looping, k, w);
  }

  /** A request on an app that somebody else is starting or stopping keeps waiting, and changes nothing. */
  lemma {:induction false} RequestWaits(w: World, t: TaskId, k: Script, n: nat)
    requires w.app.state.Starting? || w.app.state.Stopping?
    ensures RunTask(w.At(t, Looping), t, k, n) == w.At(t, Looping)
    decreases n
  {
    if n > 0 { RequestWaits(w, t, k, n - 1); }
  }

  // ---- rollovers ----

  predicate CanRollOver(w: World, t: TaskId) {
    && w.app.state.Running? && t !in w.app.tasks && w.app.On(w.app.slot.Other()) == EMPTY
    && forall u :: u in w.app.tasks ==> !w.app.tasks[u].IsRoller()
  }

  /** The ladder of a rollover of a running app. */
  function Replacing(w: World): Pc
    requires w.app.state.Running?
  {
    Building(Replacement(w.app.state.containerIp), w.app.slot.Other(), Unallocated)
  }

  function Rolling(w: World): World
    requires w.app.state.Running?
  {
    InState(w, RollingOver(w.app.state.containerIp))
  }

  /** From the ladder of a rollover to the switch and then on to `w'`. */
  lemma SwitchesTo(w: World, t: TaskId, k: Script, w': World)
    requires CanRollOver(w, t) && AllWell(w, k)
    requires Carries(SwitchedTo(w, k.ip).At(t, Draining(w.app.slot, k.ip)), t, k, w')
    ensures Carries(Rolling(w).At(t, Replacing(w)), t, k, w')
  {
    var v, to := Rolling(w), w.app.slot.Other();
    var top := Building(Replacement(w.app.state.containerIp), to, Built(Some(k.ip)));
    Goes(Launch(v, to, k.ip), t, top, k, SwitchedTo(w, k.ip), Draining(w.app.slot, k.ip), w');
    Climbs(v, t, Replacement(w.app.state.containerIp), to, k, w');
  }

  /** The tail: the old side goes, container first. */
  lemma TailAlone(v: World, t: TaskId, s: Slot, newIp: Ipv4, k: Script)
    requires t !in v.app.tasks
    ensures Carries(v.At(t, Draining(s, newIp)), t, k, Remove(v, s))
  {
    var o, torn := Switched(newIp), World(StopContainer(v.app, s), v.free);
    Leaves(torn, t, TearRelease(s, o), k, Remove(v, s));
    Goes(v, t, TearStop(s, o), k, torn, TearRelease(s, o), Remove(v, s));
    Goes(v, t, Draining(s, newIp), k, v, TearStop(s, o), Remove(v, s));
  }

  /** A ladder that failed: the state goes back, and the sweep of the new slot finds nothing. */
  lemma RollsBack(w: World, t: TaskId, k: Script)
    requires CanRollOver(w, t) && !AllWell(w, k)
    ensures Carries(Rolling(w).At(t, Replacing(w)), t, k, Undone(w, w.app.slot.Other(), k))
  {
    var from, to := w.app.state.containerIp, w.app.slot.Other();
    var w' := Undone(w, to, k);
    var v, built, o := Rolling(w), Building(Replacement(from), to, Built(None)), RolledBack(from);
    Leaves(w', t, TearRelease(to, o), k, w');
    Goes(w', t, TearStop(to, o), k, w', TearRelease(to, o), w');
    Goes(Undone(v, to, k), t, built, k, w', TearStop(to, o), w');
    Climbs(v, t, Replacement(from), to, k, w');
  }

  /** Where a rollover ends: on the other slot, or exactly where it began. */
  function RolloverEnd(w: World, k: Script): World {
    if AllWell(w, k) then Remove(SwitchedTo(w, k.ip), w.app.slot) else Undone(w, w.app.slot.Other(), k)
  }

  lemma EntersTo(w: World, t: TaskId, k: Script, w': World)
    requires CanRollOver(w, t) && Carries(Rolling(w).At(t, Replacing(w)), t, k, w')
    ensures Carries(w.At(t, Gate), t, k, w')
  {
    var v, from := Rolling(w), w.app.state.containerIp;
    Goes(v, t, Entered(from), k, v, Replacing(w), w');
    Goes(w, t, Gate, k, v, Entered(from), w');
  }

  lemma GateToEnd(w: World, t: TaskId, k: Script)
    requires CanRollOver(w, t)
    ensures Carries(w.At(t, Gate), t, k, RolloverEnd(w, k))
  {
    if AllWell(w, k) {
      TailAlone(SwitchedTo(w, k.ip), t, w.app.slot, k.ip, k);
      SwitchesTo(w, t, k, RolloverEnd(w, k));
    } else {
      RollsBack(w, t, k);
    }
    EntersTo(w, t, k, RolloverEnd(w, k));
  }

  // ---- deployments ----

  lemma PullsTo(w: World, t: TaskId, k: Script, w': World)
    requires k.rolloutPulled && Carries(w.At(t, ThawCheck), t, k, w')
    ensures Carries(w.At(t, Pulling), t, k, w')
  {
    Goes(w, t, Pulling, k, w, ThawCheck, w');
  }

  /** A deployment that finds the app busy, or whose pull fails, does nothing. */
  lemma DeployRefused(w: World, t: TaskId, k: Script)
    requires t !in w.app.tasks
    requires w.app.state in {Starting, Stopping} || w.app.state.RollingOver? || !k.rolloutPulled
    ensures EndsIn(w, Deploy(t), t, k, w)
  {
    if w.app.state.IsBusy() {
      Rests(w, t, k);
    } else {
      Leaves(w, t, Pulling, k, w);
    }
  }

  /** A deployment of a stopped app is a start. */
  lemma DeployStopped(w: World, t: TaskId, k: Script)
    requires w.app.state.Stopped? && t !in w.app.tasks && k.rolloutPulled
    ensures EndsIn(w, Deploy(t), t, k, StartEnd(w, k))
  {
    LoopsToEnd(w, t, k);
    Goes(w, t, Gate, k, w, Looping, StartEnd(w, k));
    Goes(w, t, ThawCheck, k, w, Gate, StartEnd(w, k));
    PullsTo(w, t, k, StartEnd(w, k));
  }

  /** A deployment of a running app is a rollover. */
  lemma DeployRunning(w: World, t: TaskId, k: Script)
    requires CanRollOver(w, t) && k.rolloutPulled
    ensures EndsIn(w, Deploy(t), t, k, RolloverEnd(w, k))
  {
    GateToEnd(w, t, k);
    Goes(w, t, ThawCheck, k, w, Gate, RolloverEnd(w, k));
    PullsTo(w, t, k, RolloverEnd(w, k));
  }

  /** A deployment of a frozen app: thawed and then replaced, or left alone when the freezer does not let it go. */
  lemma DeployFrozen(w: World, t: TaskId, k: Script)
    requires w.app.state.Frozen? && t !in w.app.tasks && k.rolloutPulled
    requires CanRollOver(Thaw(w), t)
    ensures EndsIn(w, Deploy(t), t, k, if Thaws(w, k) then RolloverEnd(Thaw(w), k) else w)
  {
    var s, w' := w.app.slot, if Thaws(w, k) then RolloverEnd(Thaw(w), k) else w;
    if Thaws(w, k) {
      var v := World(UnfreezeContainer(w.app, s), w.free);
      GateToEnd(Thaw(w), t, k);
      Goes(v, t, Thawed, k, Thaw(w), Gate, w');
      Goes(w, t, ThawAt(s), k, v, Thawed, w');
    } else {
      Leaves(w, t, ThawAt(s), k, w);
    }
    Goes(w, t, ThawNeeded, k, w, ThawAt(s), w');
    Goes(w, t, ThawCheck, k, w, ThawNeeded, w');
    PullsTo(w, t, k, w');
  }

  /** A deployment that finds at the gate that the app has become busy or frozen again gives up without a trace. */
  lemma GateConflicts(w: World, t: TaskId, k: Script)
    requires t !in w.app.tasks
    requires w.app.state in {Starting, Stopping} || w.app.state.RollingOver? || w.app.state.Frozen?
    ensures Carries(w.At(t, Gate), t, k, w)
  {
    Leaves(w, t, Gate, k, w);
  }

  // ---- stops ----

  function RemoveAll(w: World, slots: seq<Slot>): World
    decreases |slots|
  {
    if slots == [] then w else RemoveAll(Remove(w, slots[0]), slots[1..])
  }

  lemma RemoveAllOne(w: World, s: Slot)
    ensures RemoveAll(w, [s]) == Remove(w, s)
  {
    assert [s][1..] == [];
  }

  /** Where a stop ends: every slot the state answers for is emptied. */
  function StopEnd(w: World): World {
    if w.app.state.Stopped? || w.app.state.Stopping? then w
    else if w.app.state.RollingOver? then
      InState(Remove(Remove(InState(w, Stopping), w.app.slot), w.app.slot.Other()), Stopped)
    else InState(Remove(InState(w, Stopping), w.app.slot), Stopped)
  }

  lemma StopAlone(w: World, t: TaskId, k: Script)
    requires t !in w.app.tasks
    ensures EndsIn(w, Stop(t), t, k, StopEnd(w))
  {
    if w.app.state.Stopped? || w.app.state.Stopping? {
      Rests(w, t, k);
    } else {
      var slots := w.app.state.LiveSlots(w.app.slot);
      var v := InState(w, Stopping);
      TearsAll(v, t, slots, k);
      if w.app.state.RollingOver? {
        assert slots[1..] == [w.app.slot.Other()];
        RemoveAllOne(Remove(v, w.app.slot), w.app.slot.Other());
      } else {
        RemoveAllOne(v, w.app.slot);
      }
    }
  }

  lemma {:induction false} TearsAll(v: World, t: TaskId, slots: seq<Slot>, k: Script)
    requires t !in v.app.tasks
    ensures Carries(v.At(t, Tearing(slots, false)), t, k, InState(RemoveAll(v, slots), Stopped))
    decreases |slots|
  {
    var w' := InState(RemoveAll(v, slots), Stopped);
    if slots == [] {
      Leaves(v, t, Tearing([], false), k, w');
    } else {
      var torn, gone := World(StopContainer(v.app, slots[0]), v.free), Remove(v, slots[0]);
      TearsAll(gone, t, slots[1..], k);
      Goes(torn, t, Tearing(slots, true), k, gone, Tearing(slots[1..], false), w');
      Goes(v, t, Tearing(slots, false), k, torn, Tearing(slots, true), w');
    }
  }
}
