/**
 * One app as a state machine over its critical sections.
 *
 * Any number of tasks run against one handle: requests (`ensure_running`),
 * deployments (`set_rollout` / `update_app`), stops and freezes.  Every
 * section under the handle's lock, and every call into the runtime or the
 * egress layer, is one step; the scheduler may interleave the steps of all
 * tasks in any order, and every phase may succeed or fail.
 */
module Rollover {
  import opened Prelude
  import opened Handle

  /** How far the start ladder (`do_start` or `build_to_slot`) has come on a slot. */
  datatype Phase =
    | Unallocated
    | Allocated(ip: Ipv4)
    | Pulled(ip: Ipv4)
    | Started(ip: Ipv4)
    | Unready(ip: Ipv4)                  // the probe failed; stop_app is next
    | Releasing                          // release_endpoint is next
    | Built(result: Option<Ipv4>)

  /** What the finished ladder reports to. */
  datatype Job = ColdBuild | Replacement(fromIp: Ipv4)

  datatype Outcome = Switched(newIp: Ipv4) | RolledBack(fromIp: Ipv4) | Abandoned

  /** The program point of one task. */
  datatype Pc =
    // ensure_running
    | Looping
    | Owner(resumeFrom: Option<Ipv4>)
    | Resuming(slot: Slot, ip: Ipv4)
    | Building(job: Job, slot: Slot, phase: Phase)
    // set_rollout and update_app, up to the entry gate
    | Pulling
    | ThawCheck
    | ThawNeeded
    | ThawAt(slot: Slot)
    | Thawed
    | Gate
    // do_blue_green
    | Entered(fromIp: Ipv4)
    | Draining(slot: Slot, newIp: Ipv4)
    | TearStop(slot: Slot, outcome: Outcome)
    | TearRelease(slot: Slot, outcome: Outcome)
    // stop
    | Tearing(todo: seq<Slot>, stopped: bool)
  {
    /** Owns the in-flight start or resume. */
    predicate IsStarter() {
      Owner? || Resuming? || (Building? && job.ColdBuild?)
    }

    /** Inside `do_blue_green`. */
    predicate IsRoller() {
      BeforeSwitch() || Draining? || TearStop? || TearRelease?
    }

    predicate BeforeSwitch() {
      Entered? || (Building? && job.Replacement?)
    }

    function FromIp(): Ipv4
      requires BeforeSwitch()
    {
      if Entered? then fromIp else job.fromIp
    }
  }

  type TaskId = nat

  /** Auxiliary record of a run; no step reads it. */
  datatype History = History(taken: multiset<Ipv4>, returned: multiset<Ipv4>, switches: nat)

  /** What exists in one slot: a container, whether the freezer holds it, an endpoint. */
  datatype Side = Side(container: Option<Ipv4>, paused: bool, endpoint: Option<Ipv4>) {
    /** `start_app` refuses a running container; it takes a paused one for stale and starts over it. */
    predicate CanLaunch() {
      container.None? || paused
    }
  }

  const EMPTY := Side(None, false, None)

  /**
   * Everything one app owns: its handle, the two sides (a container or an
   * endpoint is recorded with the address it was given), and its tasks.
   */
  datatype App = App(
    state: AppState,
    slot: Slot,
    sideA: Side,
    sideB: Side,
    tasks: map<TaskId, Pc>,
    hist: History)
  {
    function On(s: Slot): Side {
      if s == Slot.A then sideA else sideB
    }

    function Put(s: Slot, side: Side): App {
      if s == Slot.A then this.(sideA := side) else this.(sideB := side)
    }

    function At(t: TaskId, pc: Pc): App {
      this.(tasks := tasks[t := pc])
    }

    function Done(t: TaskId): App {
      this.(tasks := tasks - {t})
    }
  }

  /** An app together with the free addresses of the shared allocator. */
  datatype World = World(app: App, free: set<Ipv4>) {
    function At(t: TaskId, pc: Pc): World { World(app.At(t, pc), free) }
    function Done(t: TaskId): World { World(app.Done(t), free) }
  }

  datatype Action =
    | Request(t: TaskId)                          // a resolver request arrives
    | Deploy(t: TaskId)                           // a rollout or a spec change arrives
    | Stop(t: TaskId)
    | Freeze(ok: bool)
    | Advance(t: TaskId, ok: bool, ip: Ipv4)      // one step of task t
    | Elsewhere(free: set<Ipv4>)                  // other apps use the allocator

  // ---- runtime and egress calls ----

  /** `stop_app`: the container is gone afterwards, whether or not it existed. */
  function StopContainer(app: App, s: Slot): App {
    app.Put(s, app.On(s).(container := None, paused := false))
  }

  function UnfreezeContainer(app: App, s: Slot): App {
    app.Put(s, app.On(s).(paused := false))
  }

  /** `allocate_endpoint`, once an address was handed out. */
  function AllocateEndpoint(w: World, s: Slot, ip: Ipv4): World {
    var h := w.app.hist;
    World(
      w.app.Put(s, w.app.On(s).(endpoint := Some(ip))).(hist := h.(taken := h.taken + multiset{ip})),
      w.free - {ip})
  }

  /** `release_endpoint`: idempotent, the address goes back once. */
  function ReleaseEndpoint(w: World, s: Slot): World {
    match w.app.On(s).endpoint
    case None => w
    case Some(ip) =>
      var h := w.app.hist;
      World(
        w.app.Put(s, w.app.On(s).(endpoint := None)).(hist := h.(returned := h.returned + multiset{ip})),
        w.free + {ip})
  }

  // ---- the steps of one task ----

  /** One phase of the start ladder, up to `Built`. */
  function Climb(w: World, t: TaskId, job: Job, s: Slot, phase: Phase, ok: bool, ip: Ipv4): World
    requires !phase.Built?
  {
    match phase
    case Unallocated =>
      if ok && ip in w.free then AllocateEndpoint(w, s, ip).At(t, Building(job, s, Allocated(ip)))
      else w.At(t, Building(job, s, Built(None)))
    case Allocated(a) =>
      w.At(t, Building(job, s, if ok then Pulled(a) else Releasing))
    case Pulled(a) =>
      if ok && w.app.On(s).CanLaunch() then
        World(w.app.Put(s, w.app.On(s).(container := Some(a), paused := false)), w.free)
          .At(t, Building(job, s, Started(a)))
      else
        w.At(t, Building(job, s, Releasing))
    case Started(a) =>
      w.At(t, Building(job, s, if ok then Built(Some(a)) else Unready(a)))
    case Unready(_) =>
      World(StopContainer(w.app, s), w.free).At(t, Building(job, s, Releasing))
    case Releasing =>
      ReleaseEndpoint(w, s).At(t, Building(job, s, Built(None)))
  }

  /** What `do_blue_green` does with the finished ladder: switch, roll back, or give up. */
  function Conclude(app: App, t: TaskId, fromIp: Ipv4, to: Slot, result: Option<Ipv4>): App {
    if !app.state.RollingOver? then
      app.At(t, TearStop(to, Abandoned))
    else
      match result
      case Some(newIp) =>
        app.(state := app.state.LeaveRollingOver(newIp), slot := to,
             hist := app.hist.(switches := app.hist.switches + 1))
           .At(t, Draining(to.Other(), newIp))
      case None =>
        app.(state := app.state.LeaveRollingOver(fromIp)).At(t, TearStop(to, RolledBack(fromIp)))
  }

  /** The next section of task `t`; `ok` and `ip` are the outcomes of its calls. */
  function Next(w: World, t: TaskId, pc: Pc, ok: bool, ip: Ipv4): World {
    var app := w.app;
    match pc
    case Looping =>
      var moved := World(app.(state := app.state.AfterClaim()), w.free);
      (match app.state.ClaimOf()
       case Ready(_) => moved.Done(t)
       case Claimed(from) => moved.At(t, Owner(from))
       case _ => moved)
    case Owner(None) => w.At(t, Building(ColdBuild, app.slot, Unallocated))
    case Owner(Some(from)) => w.At(t, Resuming(app.slot, from))
    case Resuming(s, from) =>
      if ok && app.On(s).container.Some? then
        World(UnfreezeContainer(app, s), w.free).At(t, Building(ColdBuild, s, Built(Some(from))))
      else
        w.At(t, Building(ColdBuild, s, Built(None)))
    case Building(ColdBuild, _, Built(result)) =>
      World(app.(state := AfterStart(result)), w.free).Done(t)
    case Building(Replacement(from), to, Built(result)) =>
      World(Conclude(app, t, from, to, result), w.free)
    case Building(job, s, phase) =>
      Climb(w, t, job, s, phase, ok, ip)
    case Pulling => if ok then w.At(t, ThawCheck) else w.Done(t)
    case ThawCheck => w.At(t, if app.state.Frozen? then ThawNeeded else Gate)
    case ThawNeeded => w.At(t, ThawAt(app.slot))
    case ThawAt(s) =>
      if ok && app.On(s).container.Some? then World(UnfreezeContainer(app, s), w.free).At(t, Thawed)
      else w.Done(t)
    case Thawed => World(app.(state := app.state.AfterThaw()), w.free).At(t, Gate)
    case Gate =>
      var moved := World(app.(state := app.state.AfterEntry()), w.free);
      (match app.state.EntryOf()
       case ColdStart => moved.At(t, Looping)
       case BlueGreen(from) => moved.At(t, Entered(from))
       case Conflict => moved.Done(t))
    case Entered(from) => w.At(t, Building(Replacement(from), app.slot.Other(), Unallocated))
    case Draining(s, newIp) => w.At(t, TearStop(s, Switched(newIp)))
    case TearStop(s, o) => World(StopContainer(app, s), w.free).At(t, TearRelease(s, o))
    case TearRelease(s, _) => ReleaseEndpoint(w, s).Done(t)
    case Tearing(todo, stopped) =>
      if todo == [] then World(app.(state := Stopped), w.free).Done(t)
      else if !stopped then World(StopContainer(app, todo[0]), w.free).At(t, Tearing(todo, true))
      else ReleaseEndpoint(w, todo[0]).At(t, Tearing(todo[1..], false))
  }

  /** One step of the app, or `None` when the action cannot happen here. */
  function Step(w: World, a: Action): Option<World> {
    var app := w.app;
    match a
    case Request(t) =>
      if t in app.tasks then None else Some(w.At(t, Looping))
    case Deploy(t) =>
      if t in app.tasks then None
      else if app.state.IsBusy() then Some(w)
      else Some(w.At(t, Pulling))
    case Stop(t) =>
      if t in app.tasks then None
      else if !app.state.NeedsTeardown() then Some(w)
      else Some(World(app.(state := Stopping), w.free).At(t, Tearing(app.state.LiveSlots(app.slot), false)))
    case Freeze(ok) =>
      if ok && app.state.Running? then
        Some(World(
               app.Put(app.slot, app.On(app.slot).(paused := true)).(state := Frozen(app.state.containerIp)),
               w.free))
      else
        Some(w)
    case Advance(t, ok, ip) =>
      if t !in app.tasks then None else Some(Next(w, t, app.tasks[t], ok, ip))
    case Elsewhere(free) =>
      if forall ip :: ip in free ==> app.sideA.endpoint != Some(ip) && app.sideB.endpoint != Some(ip)
      then Some(World(app, free))
      else None
  }

  /** A freshly registered app: stopped on slot A, nothing allocated. */
  ghost predicate Init(w: World) {
    w.app == App(Stopped, A, EMPTY, EMPTY, map[], History(multiset{}, multiset{}, 0))
  }

  /**
   * The scheduling assumptions under which the protocol is sound, each one a
   * condition on the state in which the action is about to be taken.
   * `RolloverHarm.StepExact` shows that none of them can be relaxed.
   */
  predicate Disciplined(app: App, a: Action) {
    match a
    case Stop(_) => !app.state.Starting?
    case Freeze(ok) => ok && app.state.Running? ==> forall t :: t in app.tasks ==> !ThawRace(app, app.tasks[t])
    case Advance(t, ok, _) =>
      t in app.tasks ==>
        && (app.tasks[t].Resuming? ==> ok)
        && (app.tasks[t].Gate? && app.state.Running? ==> forall u :: u in app.tasks ==> !app.tasks[u].IsRoller())
    case _ => true
  }

  /** A rollover that has yet to start its container. */
  predicate CanStart(pc: Pc) {
    pc.Entered? ||
    (pc.Building? && pc.job.Replacement? && (pc.phase.Unallocated? || pc.phase.Allocated? || pc.phase.Pulled?))
  }

  /** The slot traffic is not served from has no container, and will not be given one. */
  predicate Barren(app: App) {
    app.On(app.slot.Other()).container.None? && forall u :: u in app.tasks ==> !CanStart(app.tasks[u])
  }

  /**
   * A thaw whose commit would not see the container being frozen again: it has
   * done its unfreezing, or is about to do it on the other slot.
   */
  predicate ThawRace(app: App, pc: Pc) {
    pc.Thawed? || (pc.ThawAt? && pc.slot != app.slot && !Barren(app))
  }

  function Run(w: World, actions: seq<Action>): Option<World>
    decreases |actions|
  {
    if actions == [] then Some(w)
    else
      match Step(w, actions[0])
      case None => None
      case Some(w') => Run(w', actions[1..])
  }

  /** `actions` is a run from `w` that respects the scheduling assumptions throughout. */
  predicate DisciplinedRun(w: World, actions: seq<Action>)
    decreases |actions|
  {
    actions == [] ||
    (&& Step(w, actions[0]).Some?
     && Disciplined(w.app, actions[0])
     && DisciplinedRun(Step(w, actions[0]).value, actions[1..]))
  }
}
