/**
 * What goes wrong in runs the scheduling assumptions rule out.  Each lemma
 * follows one such run, from registration on, to a request that ends up at an
 * address nothing serves.
 */
module RolloverLimits {
  import opened Prelude
  import opened Handle
  import opened Rollover
  import opened RolloverInvariant
  import opened RolloverRuns
  import opened RolloverTheorems

  /** Some run, disciplined or not, leads from `w0` to `w`. */
  ghost predicate Leads(w0: World, w: World) {
    exists actions: seq<Action> :: Run(w0, actions) == Some(w)
  }

  lemma {:induction false} RunConcat(w: World, first: seq<Action>, second: seq<Action>)
    requires Run(w, first).Some?
    ensures Run(w, first + second) == Run(Run(w, first).value, second)
    decreases |first|
  {
    if first == [] {
      assert first + second == second;
    } else {
      assert (first + second)[1..] == first[1..] + second;
      RunConcat(Step(w, first[0]).value, first[1..], second);
    }
  }

  /** One more action, whatever its task. */
  lemma ThenAction(w0: World, w: World, a: Action, w': World)
    requires Leads(w0, w) && Step(w, a) == Some(w')
    ensures Leads(w0, w')
  {
    var done: seq<Action> :| Run(w0, done) == Some(w);
    assert [a][1..] == [];
    RunConcat(w0, done, [a]);
  }

  /** More steps of one task, undisturbed. */
  lemma ThenTask(w0: World, w: World, t: TaskId, k: Script, w': World)
    requires Leads(w0, w) && Carries(w, t, k, w')
    ensures Leads(w0, w')
  {
    var done: seq<Action> :| Run(w0, done) == Some(w);
    var n: nat :| RunTask(w, t, k, n) == w';
    var more := TaskRuns(w, t, k, n);
    RunConcat(w0, done, more);
  }

  /** A whole operation more. */
  lemma ThenOperation(w0: World, w: World, a: Action, t: TaskId, k: Script, w': World)
    requires Leads(w0, w) && EndsIn(w, a, t, k, w')
    ensures Leads(w0, w')
  {
    ThenAction(w0, w, a, Step(w, a).value);
    ThenTask(w0, Step(w, a).value, t, k, w');
  }

  /** Every call succeeds. */
  function Fine(ip: Ipv4): Script {
    Script(true, true, true, true, true, true, ip)
  }

  // ---- a stop during a start ----

  /**
   * A stop that lands on a cold start: `finish_start` writes unconditionally,
   * so the app comes back as `Running` with everything torn down.
   */
  lemma StopDuringStartRevivesDeadApp(w0: World, ip: Ipv4) returns (w: World)
    requires Init(w0) && ip in w0.free
    ensures Leads(w0, w) && w.app.tasks == map[]
    ensures w.app.state.ClaimOf() == Ready(ip) && !Serves(w.app, ip)
    ensures w.app.sideA == EMPTY && w.app.sideB == EMPTY && ip in w.free
  {
    var up := StartsUp(w0, ip);
    var torn := StopsUnderStart(w0, up, ip);
    w := Next(torn, 1, torn.app.tasks[1], true, ip);
    ThenAction(w0, torn, Advance(1, true, ip), w);
    assert w.app.tasks == map[];
  }

  /** A first start, up to its commit. */
  lemma StartsUp(w0: World, ip: Ipv4) returns (up: World)
    requires Init(w0) && ip in w0.free
    ensures Leads(w0, up) && up.app.tasks == map[1 := Building(ColdBuild, Slot.A, Built(Some(ip)))]
    ensures up.app.state.Starting? && up.app.slot == Slot.A
    ensures up.app.sideA == Side(Some(ip), false, Some(ip)) && up.app.sideB == EMPTY
  {
    assert Run(w0, []) == Some(w0);
    var v, k := InState(w0, Starting), Fine(ip);
    up := Launch(v, Slot.A, ip).At(1, Building(ColdBuild, Slot.A, Built(Some(ip))));
    Rests(up, 1, k);
    Climbs(v, 1, ColdBuild, Slot.A, k, up);
    ClaimsTo(w0, 1, k, up);
    ThenAction(w0, w0, Request(1), w0.At(1, Looping));
    ThenTask(w0, w0.At(1, Looping), 1, k, up);
  }

  /** The stop runs from start to end while task 1 is about to commit. */
  lemma StopsUnderStart(w0: World, up: World, ip: Ipv4) returns (torn: World)
    requires Leads(w0, up) && up.app.state.Starting? && up.app.slot == Slot.A && 2 !in up.app.tasks
    requires up.app.sideA == Side(Some(ip), false, Some(ip))
    ensures Leads(w0, torn) && torn.app.tasks == up.app.tasks && torn.app.slot == Slot.A
    ensures torn.app.sideA == EMPTY && torn.app.sideB == up.app.sideB && ip in torn.free
  {
    var stopping := InState(up, Stopping);
    ThenAction(w0, up, Stop(2), stopping.At(2, Tearing([Slot.A], false)));
    TearsAll(stopping, 2, [Slot.A], Fine(ip));
    RemoveAllOne(stopping, Slot.A);
    torn := InState(Remove(stopping, Slot.A), Stopped);
    ThenTask(w0, stopping.At(2, Tearing([Slot.A], false)), 2, Fine(ip), torn);
  }

  // ---- a second rollover inside the tail of the first ----

  /** The app was started at `x` and rolled over to `y`; the first rollover drains, the second one is at the gate. */
  function AtSecondGate(w0: World, x: Ipv4, y: Ipv4): World {
    SwitchedTo(InState(Launch(w0, Slot.A, x), Running(x)), y).At(1, Draining(Slot.A, y)).At(2, Gate)
  }

  lemma ReachesSecondGate(w0: World, x: Ipv4, y: Ipv4)
    requires Init(w0) && x in w0.free && y in w0.free && x != y
    ensures Leads(w0, AtSecondGate(w0, x, y))
  {
    assert Run(w0, []) == Some(w0);
    StartAlone(w0, 1, Fine(x));
    var up := InState(Launch(w0, Slot.A, x), Running(x));
    ThenOperation(w0, w0, Request(1), 1, Fine(x), up);
    var draining := SwitchedTo(up, y).At(1, Draining(Slot.A, y));
    Rests(draining, 1, Fine(y));
    SwitchesTo(up, 1, Fine(y), draining);
    EntersTo(up, 1, Fine(y), draining);
    ReachesGate(w0, up, 1, y);
    ThenTask(w0, up.At(1, Gate), 1, Fine(y), draining);
    ReachesGate(w0, draining, 2, y);
  }

  /** A deployment of a running app, up to the gate. */
  lemma ReachesGate(w0: World, w: World, t: TaskId, ip: Ipv4)
    requires Leads(w0, w) && w.app.state.Running? && t !in w.app.tasks
    ensures Leads(w0, w.At(t, Gate))
  {
    var k := Fine(ip);
    Rests(w.At(t, Gate), t, k);
    Goes(w, t, ThawCheck, k, w, Gate, w.At(t, Gate));
    PullsTo(w, t, k, w.At(t, Gate));
    ThenAction(w0, w, Deploy(t), w.At(t, Pulling));
    ThenTask(w0, w.At(t, Pulling), t, k, w.At(t, Gate));
  }

  /**
   * A second rollover that enters while the first one still drains: it builds
   * into the slot the first one is about to tear down.  The old address `x` is
   * lost for good, the new endpoint is released under the new container, and
   * requests go to address `z` while the allocator may hand `z` to another app.
   */
  lemma RolloverDuringDrainLosesEndpoint(w0: World, x: Ipv4, y: Ipv4, z: Ipv4) returns (w: World)
    requires Init(w0) && x in w0.free && y in w0.free && z in w0.free && x != y && y != z && z != x
    ensures Leads(w0, AtSecondGate(w0, x, y)) && Leads(w0, w)
    ensures w.app.state.ClaimOf() == Ready(z) && !Serves(w.app, z) && z in w.free
    ensures x !in w.free && w.app.hist.taken[x] == 1 && w.app.hist.returned[x] == 0 && Held(w.app, x) == 0
  {
    ReachesSecondGate(w0, x, y);
    var gate := AtSecondGate(w0, x, y);
    var overlap := EntersAndAllocates(w0, gate, y, z);
    var torn := FirstTailEnds(w0, overlap, y, z);
    w := BuildsOnBareSlot(w0, torn, y, z);
  }

  /** Task 2 passes the gate and takes its endpoint, under the container id the first rollover is about to release. */
  lemma EntersAndAllocates(w0: World, gate: World, y: Ipv4, z: Ipv4) returns (w: World)
    requires Leads(w0, gate) && gate.app.state == Running(y) && gate.app.slot == Slot.B && z in gate.free
    requires 2 in gate.app.tasks && gate.app.tasks[2] == Gate
    ensures Leads(w0, w)
    ensures w == AllocateEndpoint(InState(gate, RollingOver(y)), Slot.A, z)
                   .At(2, Building(Replacement(y), Slot.A, Allocated(z)))
  {
    var v, go := InState(gate, RollingOver(y)), Advance(2, true, z);
    ThenAction(w0, gate, go, v.At(2, Entered(y)));
    var ladder := v.At(2, Building(Replacement(y), Slot.A, Unallocated));
    assert v.At(2, Entered(y)).At(2, Building(Replacement(y), Slot.A, Unallocated)) == ladder;
    ThenAction(w0, v.At(2, Entered(y)), go, ladder);
    w := AllocateEndpoint(v, Slot.A, z).At(2, Building(Replacement(y), Slot.A, Allocated(z)));
    assert Next(ladder, 2, ladder.app.tasks[2], true, z) == w;
    ThenAction(w0, ladder, go, w);
  }

  /** Task 1 ends its tail: the old container goes, and the endpoint of the new one. */
  lemma FirstTailEnds(w0: World, v: World, y: Ipv4, z: Ipv4) returns (w: World)
    requires Leads(w0, v) && 1 in v.app.tasks && v.app.tasks[1] == Draining(Slot.A, y)
    requires v.app.sideA.endpoint == Some(z)
    ensures Leads(w0, w) && w == Remove(v, Slot.A).Done(1)
  {
    var go, o, torn := Advance(1, true, z), Outcome.Switched(y), World(StopContainer(v.app, Slot.A), v.free);
    ThenAction(w0, v, go, v.At(1, TearStop(Slot.A, o)));
    assert torn.At(1, TearStop(Slot.A, o)).At(1, TearRelease(Slot.A, o)) == torn.At(1, TearRelease(Slot.A, o));
    ThenAction(w0, v.At(1, TearStop(Slot.A, o)), go, torn.At(1, TearRelease(Slot.A, o)));
    w := Remove(v, Slot.A).Done(1);
    assert v.app.tasks[1 := TearRelease(Slot.A, o)] - {1} == v.app.tasks - {1};
    ThenAction(w0, torn.At(1, TearRelease(Slot.A, o)), go, w);
  }

  /** Task 2 goes on as if nothing had happened. */
  lemma BuildsOnBareSlot(w0: World, v: World, y: Ipv4, z: Ipv4) returns (w: World)
    requires Leads(w0, v) && v.app.state == RollingOver(y) && v.app.slot == Slot.B && Vacant(v.app.sideA)
    requires 2 in v.app.tasks && v.app.tasks[2] == Building(Replacement(y), Slot.A, Allocated(z))
    ensures Leads(w0, w)
    ensures w.app.state == Running(z) && w.app.slot == Slot.A && w.app.sideA.endpoint.None? && w.free == v.free
    ensures w.app.sideB == v.app.sideB
    ensures w.app.hist.taken == v.app.hist.taken && w.app.hist.returned == v.app.hist.returned
  {
    var go, s := Advance(2, true, z), Slot.A;
    var pulled := Next(v, 2, v.app.tasks[2], true, z);
    ThenAction(w0, v, go, pulled);
    var started := Next(pulled, 2, pulled.app.tasks[2], true, z);
    ThenAction(w0, pulled, go, started);
    var built := Next(started, 2, started.app.tasks[2], true, z);
    ThenAction(w0, started, go, built);
    w := Next(built, 2, built.app.tasks[2], true, z);
    ThenAction(w0, built, go, w);
  }
}
