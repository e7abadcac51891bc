/**
 * One lifecycle operation from its first section to its last, on the real
 * objects: handle, container runtime and egress controller.  `Rollover` has
 * the same operations cut into interleaved steps.
 */
module AppHost {
  import opened Prelude
  import opened Handle
  import opened Allocator
  import opened Endpoints
  import opened Egress

  /** The containers that exist, and whether the freezer holds them. */
  class Runtime {
    var containers: map<string, bool>

    constructor (survivors: map<string, bool>)
      ensures containers == survivors
    {
      containers := survivors;
    }

    /** Refuses a running container; a paused one is taken for stale and replaced. */
    method StartApp(cid: string, ok: bool) returns (started: bool)
      modifies this
      ensures started <==> ok && (cid in old(containers) ==> old(containers)[cid])
      ensures containers == if started then old(containers)[cid := false] else old(containers)
    {
      started := ok && (cid !in containers || containers[cid]);
      if started {
        containers := containers[cid := false];
      }
    }

    method StopApp(cid: string)
      modifies this
      ensures containers == old(containers) - {cid}
    {
      containers := containers - {cid};
    }

    method SetPaused(cid: string, paused: bool, ok: bool) returns (done: bool)
      modifies this
      ensures done == (ok && cid in old(containers))
      ensures containers == if done then old(containers)[cid := paused] else old(containers)
    {
      done := ok && cid in containers;
      if done {
        containers := containers[cid := paused];
      }
    }
  }

  /** The outcome of every phase of a start. */
  datatype Phases = Phases(resolved: bool, parsed: bool, attached: bool, pulled: bool, started: bool, ready: bool)

  /** Everything outside the handles, as a value. */
  datatype HostView = HostView(containers: map<string, bool>, egress: EgressView) {

    function Launched(cid: string, ip: Ipv4): HostView {
      HostView(containers[cid := false], egress.Add(cid, ip))
    }

    function Removed(cid: string): HostView {
      HostView(containers - {cid}, egress.Drop(cid))
    }

    function Thawed(cid: string): HostView {
      HostView(containers[cid := false], egress)
    }

    /** The container in `slot` gives way to one on the other slot. */
    function Replaced(name: string, slot: Slot, newIp: Ipv4): HostView {
      Launched(ContainerId(name, slot.Other()), newIp).Removed(ContainerId(name, slot))
    }

    /** Whether the old container was thawed first does not matter once it is gone. */
    lemma ThawedReplaced(name: string, slot: Slot, newIp: Ipv4)
      ensures Thawed(ContainerId(name, slot)).Replaced(name, slot, newIp) == Replaced(name, slot, newIp)
    {
      var v := Thawed(ContainerId(name, slot));
      ContainerIdInjective(name, slot, name, slot.Other());
      assert v.Replaced(name, slot, newIp).containers == Replaced(name, slot, newIp).containers;
    }

    predicate Vacant(cid: string) {
      cid !in containers && egress.Registered(cid).None?
    }

    predicate Serving(cid: string, ip: Ipv4, paused: bool) {
      cid in containers && containers[cid] == paused && egress.Registered(cid) == Some(ip)
    }

    /**
     * What exists for an app is exactly what its state says: nothing when it
     * is stopped, else one container with the endpoint named in the state.
     */
    ghost predicate Settled(name: string, state: AppState, slot: Slot) {
      && Vacant(ContainerId(name, slot.Other()))
      && match state
         case Stopped => Vacant(ContainerId(name, slot))
         case Running(ip) => Serving(ContainerId(name, slot), ip, false)
         case Frozen(ip) => Serving(ContainerId(name, slot), ip, true)
         case _ => false
    }

    /** Tearing down what was just launched leaves no trace. */
    lemma RemovedUndoesLaunched(pool: set<Ipv4>, cid: string, ip: Ipv4)
      requires egress.Sound(pool) && Vacant(cid) && ip in egress.free
      ensures Launched(cid, ip).Removed(cid) == this
    {
    }

    lemma RemovedVacant(cid: string)
      requires Vacant(cid)
      ensures Removed(cid) == this
    {
    }

    /** What one app launches or removes is invisible to every other app. */
    lemma OthersUnaffected(pool: set<Ipv4>, cid: string, ip: Ipv4, other: string)
      requires egress.Sound(pool) && cid != other
      ensures Removed(cid).egress.Registered(other) == egress.Registered(other)
      ensures Launched(cid, ip).egress.Registered(other) == egress.Registered(other)
      ensures other in Removed(cid).containers <==> other in containers
      ensures other in Launched(cid, ip).containers <==> other in containers
    {
    }
  }

  class Host {
    const egress: EgressControl
    const runtime: Runtime

    constructor (egress: EgressControl, runtime: Runtime)
      ensures this.egress == egress && this.runtime == runtime
    {
      this.egress, this.runtime := egress, runtime;
    }

    ghost function View(): HostView
      reads this, egress, egress.allocator, egress.endpoints, runtime
    {
      HostView(runtime.containers, egress.View())
    }

    ghost predicate Valid()
      reads this, egress, egress.allocator, egress.endpoints, runtime
    {
      egress.Valid()
    }

    /**
     * The start ladder: endpoint, image, container, readiness.  Each failure
     * unwinds what the earlier phases did, so it leaves no trace at all.
     */
    method BuildContainer(cid: string, phases: Phases) returns (ip: Option<Ipv4>)
      requires Valid() && View().Vacant(cid)
      modifies egress.allocator`free, egress.endpoints, runtime
      ensures Valid()
      ensures ip.Some? <==> phases == Phases(true, true, true, true, true, true) && old(View()).egress.free != {}
      ensures ip.Some? ==> IsLowest(ip.value, old(View()).egress.free) && View() == old(View()).Launched(cid, ip.value)
      ensures ip.None? ==> View() == old(View())
    {
      ghost var before := View();
      if !phases.resolved {
        return None;
      }
      ip := egress.AllocateEndpoint(cid, phases.parsed, phases.attached);
      if ip.None? {
        return;
      }
      before.egress.DropUndoesAdd(egress.Hosts(), cid, ip.value);
      if !phases.pulled {
        egress.ReleaseEndpoint(cid);
        return None;
      }
      var started := runtime.StartApp(cid, phases.started);
      if !started {
        egress.ReleaseEndpoint(cid);
        return None;
      }
      if !phases.ready {
        runtime.StopApp(cid);
        egress.ReleaseEndpoint(cid);
        before.RemovedUndoesLaunched(egress.Hosts(), cid, ip.value);
        return None;
      }
    }

    method TeardownContainers(cids: seq<string>)
      requires Valid()
      modifies egress.allocator`free, egress.endpoints, runtime
      ensures Valid() && View() == RemovedAll(old(View()), cids)
    {
      ghost var before := View();
      for i := 0 to |cids|
        invariant Valid() && View() == RemovedAll(before, cids[..i])
      {
        runtime.StopApp(cids[i]);
        egress.ReleaseEndpoint(cids[i]);
        assert cids[..i + 1] == cids[..i] + [cids[i]];
      }
      assert cids[..|cids|] == cids;
    }

    /**
     * The work of whoever owns a start: `do_resume` or `do_start`.  Only a
     * failed resume leaves something behind.
     */
    method StartOrResume(name: string, slot: Slot, resumeFrom: Option<Ipv4>, phases: Phases, unfrozen: bool)
      returns (result: Option<Ipv4>)
      requires Valid()
      requires View().Settled(name, if resumeFrom.Some? then Frozen(resumeFrom.value) else Stopped, slot)
      modifies egress.allocator`free, egress.endpoints, runtime
      ensures Valid()
      ensures resumeFrom.Some? ==> result == if unfrozen then resumeFrom else None
      ensures resumeFrom.None? ==>
                (result.Some? <==>
                   phases == Phases(true, true, true, true, true, true) && old(View()).egress.free != {})
      ensures result.None? ==> View() == old(View())
      ensures result.Some? && resumeFrom.None? ==>
                && IsLowest(result.value, old(View()).egress.free)
                && View() == old(View()).Launched(ContainerId(name, slot), result.value)
      ensures result.Some? ==> View().Settled(name, Running(result.value), slot)
    {
      ghost var before := View();
      var cid := ContainerId(name, slot);
      ContainerIdInjective(name, slot, name, slot.Other());
      if resumeFrom.Some? {
        var done := runtime.SetPaused(cid, false, unfrozen);
        result := if done then resumeFrom else None;
      } else {
        result := BuildContainer(cid, phases);
        if result.Some? {
          before.OthersUnaffected(egress.Hosts(), cid, result.value, ContainerId(name, slot.Other()));
        }
      }
    }

    /**
     * One turn of the `ensure_running` loop; `None` with an unchanged handle
     * means that another task owns the start or the stop.  A settled app stays
     * settled, except exactly when the freezer does not let it go: then it is
     * `Stopped` with its container and endpoint still there.
     */
    method TryEnsureRunning(name: string, inner: HandleInner, now: nat, phases: Phases, unfrozen: bool)
      returns (result: Option<Ipv4>)
      requires Valid()
      requires inner.state.IsBusy() || View().Settled(name, inner.state, inner.currentSlot)
      modifies egress.allocator`free, egress.endpoints, runtime, inner`state, inner`lastAccess
      ensures Valid()
      ensures inner.lastAccess == now
      ensures old(inner.state).IsBusy() ==> inner.state == old(inner.state) && View() == old(View())
      ensures old(inner.state) == Starting || old(inner.state) == Stopping ==> result == None
      ensures old(inner.state).RollingOver? ==> result == Some(old(inner.state).fromIp)
      ensures old(inner.state).Running? ==>
                result == Some(old(inner.state).containerIp) && inner.state == old(inner.state) && View() == old(View())
      ensures old(inner.state).Stopped? ==>
                && (result.Some? <==>
                      phases == Phases(true, true, true, true, true, true) && old(View()).egress.free != {})
                && (result.Some? ==>
                      && IsLowest(result.value, old(View()).egress.free)
                      && View() == old(View()).Launched(ContainerId(name, inner.currentSlot), result.value))
                && (result.None? ==> View() == old(View()))
      ensures !old(inner.state).IsBusy() ==>
                (View().Settled(name, inner.state, inner.currentSlot) <==> (old(inner.state).Frozen? ==> unfrozen))
      ensures old(inner.state).Stopped? || old(inner.state).Frozen? ==>
                inner.state == if result.Some? then Running(result.value) else Stopped
      ensures old(inner.state).Frozen? && unfrozen ==> result == Some(old(inner.state).containerIp)
      ensures old(inner.state).Frozen? && !unfrozen ==> inner.state == Stopped && View() == old(View())
    {
      var claim := inner.ClaimStartSlot(now);
      match claim {
        case Ready(ip) => result := Some(ip);
        case Coalesce => result := None;
        case WaitForStopping => result := None;
        case Claimed(resumeFrom) =>
          result := StartOrResume(name, inner.currentSlot, resumeFrom, phases, unfrozen);
          inner.FinishStart(result);
      }
    }

    /**
     * Thaw a frozen from-side, then the locked gate.  A frozen app passes the
     * gate as a running one, a conflict changes nothing.
     */
    method EnterRollingOver(name: string, inner: HandleInner, unfrozen: bool) returns (entry: Option<RolloverEntry>)
      requires Valid()
      requires inner.state.IsBusy() || View().Settled(name, inner.state, inner.currentSlot)
      modifies runtime, inner`state
      ensures Valid() && View().egress == old(View()).egress
      ensures entry.None? <==> old(inner.state).Frozen? && !unfrozen
      ensures entry.None? ==> inner.state == old(inner.state) && View() == old(View())
      ensures entry == Some(ColdStart) <==> old(inner.state) == Stopped
      ensures entry == Some(Conflict) <==> old(inner.state).RollingOver? || old(inner.state) in {Starting, Stopping}
      ensures entry.Some? && entry.value.BlueGreen? ==>
                && inner.state == RollingOver(entry.value.fromIp)
                && (old(inner.state) == Running(entry.value.fromIp) || old(inner.state) == Frozen(entry.value.fromIp))
                && View() == old(View()).Thawed(ContainerId(name, inner.currentSlot))
      ensures entry.Some? && !entry.value.BlueGreen? ==> inner.state == old(inner.state)
      ensures entry.Some? && entry.value.BlueGreen? ==>
                && View().Serving(ContainerId(name, inner.currentSlot), entry.value.fromIp, false)
                && View().Vacant(ContainerId(name, inner.currentSlot.Other()))
      ensures entry.Some? && !entry.value.BlueGreen? ==> View() == old(View())
    {
      ContainerIdInjective(name, inner.currentSlot, name, inner.currentSlot.Other());
      if inner.state.Frozen? {
        var done := runtime.SetPaused(ContainerId(name, inner.currentSlot), false, unfrozen);
        if !done {
          return None;
        }
        inner.CommitThaw();
      }
      var outcome := inner.EnterRollingOver();
      entry := Some(outcome);
    }

    /**
     * Build, switch, tear the old side down; or roll back.  A failed rollover
     * is invisible: handle, containers, endpoints and free addresses are all
     * as before.  The same holds when the state drifted off `RollingOver`.
     */
    method DoBlueGreen(name: string, inner: HandleInner, fromIp: Ipv4, phases: Phases) returns (newIp: Option<Ipv4>)
      requires Valid() && View().Vacant(ContainerId(name, inner.currentSlot.Other()))
      modifies egress.allocator`free, egress.endpoints, runtime, inner`state, inner`currentSlot
      ensures Valid()
      ensures newIp.Some? <==> old(inner.state).RollingOver? && phases == Phases(true, true, true, true, true, true)
                               && old(View()).egress.free != {}
      ensures newIp.None? ==>
                && View() == old(View()) && inner.currentSlot == old(inner.currentSlot)
                && inner.state == if old(inner.state).RollingOver? then Running(fromIp) else old(inner.state)
      ensures newIp.Some? ==>
                && inner.state == Running(newIp.value) && inner.currentSlot == old(inner.currentSlot).Other()
                && IsLowest(newIp.value, old(View()).egress.free)
                && View() == old(View()).Launched(ContainerId(name, inner.currentSlot), newIp.value)
                                        .Removed(ContainerId(name, old(inner.currentSlot)))
    {
      ghost var before := View();
      var fromSlot := inner.currentSlot;
      var toId := ContainerId(name, fromSlot.Other());
      newIp := BuildContainer(toId, phases);
      if newIp.Some? {
        before.RemovedUndoesLaunched(egress.Hosts(), toId, newIp.value);
        var switched := inner.SwitchTo(fromSlot.Other(), newIp.value);
        if !switched {
          TeardownContainers([toId]);
          RemovedOne(before.Launched(toId, newIp.value), toId);
          return None;
        }
        TeardownContainers([ContainerId(name, fromSlot)]);
        RemovedOne(before.Launched(toId, newIp.value), ContainerId(name, fromSlot));
      } else {
        var _ := inner.Rollback(fromIp);
        TeardownContainers([toId]);
        RemovedOne(before, toId);
        before.RemovedVacant(toId);
      }
    }

    /** Whatever was running is gone, its address is free again, and the app is settled. */
    method Stop(name: string, inner: HandleInner)
      requires Valid()
      modifies egress.allocator`free, egress.endpoints, runtime, inner`state, inner`cpuBaseline
      ensures Valid()
      ensures View() == if !old(inner.state).NeedsTeardown() then old(View())
                        else RemovedAll(old(View()), Ids(name, old(inner.state).LiveSlots(inner.currentSlot)))
      ensures inner.state == if old(inner.state) == Stopping then Stopping else Stopped
      ensures old(View()).Settled(name, old(inner.state), inner.currentSlot) || old(inner.state).RollingOver? ==>
                View().Settled(name, Stopped, inner.currentSlot)
    {
      var slots := inner.BeginStop();
      if slots.None? {
        return;
      }
      if old(View()).Settled(name, old(inner.state), inner.currentSlot) || old(inner.state).RollingOver? {
        StopSettles(old(View()), egress.Hosts(), name, old(inner.state), inner.currentSlot);
      }
      TeardownContainers(Ids(name, slots.value));
      inner.FinishStop();
    }

    /** The whole of a rollover, from the gate on: replaced, or exactly as before. */
    method Replace(name: string, inner: HandleInner, fromIp: Ipv4, phases: Phases) returns (newIp: Option<Ipv4>)
      requires Valid() && inner.state == RollingOver(fromIp)
      requires View().Settled(name, Running(fromIp), inner.currentSlot)
      modifies egress.allocator`free, egress.endpoints, runtime, inner`state, inner`currentSlot
      ensures Valid() && View().Settled(name, inner.state, inner.currentSlot)
      ensures newIp.Some? <==>
                phases == Phases(true, true, true, true, true, true) && old(View()).egress.free != {}
      ensures newIp.None? ==>
                inner.state == Running(fromIp) && inner.currentSlot == old(inner.currentSlot) && View() == old(View())
      ensures newIp.Some? ==>
                && inner.state == Running(newIp.value) && inner.currentSlot == old(inner.currentSlot).Other()
                && IsLowest(newIp.value, old(View()).egress.free)
                && View() == old(View()).Replaced(name, old(inner.currentSlot), newIp.value)
    {
      ghost var v, slot := View(), inner.currentSlot;
      newIp := DoBlueGreen(name, inner, fromIp, phases);
      if newIp.Some? { SwitchSettles(v, egress.Hosts(), name, slot, fromIp, newIp.value); }
    }

    /**
     * `apply_change`, the second half of every deployment: a stopped app is
     * started, a running or frozen one replaced, a busy one left alone.
     */
    method ApplyChange(name: string, inner: HandleInner, now: nat, phases: Phases, unfrozen: bool)
      returns (newIp: Option<Ipv4>)
      requires Valid()
      requires inner.state.IsBusy() || View().Settled(name, inner.state, inner.currentSlot)
      modifies egress.allocator`free, egress.endpoints, runtime, inner`state, inner`currentSlot, inner`lastAccess
      ensures Valid()
      ensures newIp.Some? <==>
                && !(old(inner.state) in {Starting, Stopping} || old(inner.state).RollingOver?)
                && (old(inner.state).Frozen? ==> unfrozen)
                && phases == Phases(true, true, true, true, true, true) && old(View()).egress.free != {}
      ensures newIp.Some? ==>
                && IsLowest(newIp.value, old(View()).egress.free) && inner.state == Running(newIp.value)
                && View().Settled(name, inner.state, inner.currentSlot)
      ensures newIp.Some? && old(inner.state).Stopped? ==>
                && inner.currentSlot == old(inner.currentSlot)
                && View() == old(View()).Launched(ContainerId(name, inner.currentSlot), newIp.value)
      ensures newIp.Some? && !old(inner.state).Stopped? ==>
                && inner.currentSlot == old(inner.currentSlot).Other()
                && View() == old(View()).Replaced(name, old(inner.currentSlot), newIp.value)
      ensures newIp.None? ==>
                var thawed := old(inner.state).Frozen? && unfrozen;
                && inner.currentSlot == old(inner.currentSlot)
                && inner.state == (if thawed then Running(old(inner.state).containerIp) else old(inner.state))
                && View() == if thawed then old(View()).Thawed(ContainerId(name, inner.currentSlot)) else old(View())
      ensures !old(inner.state).IsBusy() ==> View().Settled(name, inner.state, inner.currentSlot)
    {
      newIp := None;
      var entry := EnterRollingOver(name, inner, unfrozen);
      if entry == Some(ColdStart) {
        newIp := TryEnsureRunning(name, inner, now, phases, unfrozen);
      } else if entry.Some? && entry.value.BlueGreen? {
        ghost var v, slot := old(View()), inner.currentSlot;
        assert View() == v.Thawed(ContainerId(name, slot));
        newIp := Replace(name, inner, entry.value.fromIp, phases);
        ThawedAgain(v, name, slot, old(inner.state), newIp);
      }
    }

    /** The freezer takes a running app unless upgraded connections are open. */
    method Freeze(name: string, inner: HandleInner, activeUpgrades: nat, frozen: bool)
      requires Valid()
      requires inner.state.IsBusy() || View().Settled(name, inner.state, inner.currentSlot)
      modifies runtime, inner`state
      ensures Valid() && View().egress == old(View()).egress
      ensures !old(inner.state).IsBusy() ==> View().Settled(name, inner.state, inner.currentSlot)
      ensures inner.state == if old(inner.state).Running? && activeUpgrades == 0 && frozen
                             then Frozen(old(inner.state).containerIp) else old(inner.state)
      ensures inner.state == old(inner.state) ==> View() == old(View())
    {
      if !inner.state.Running? || activeUpgrades > 0 {
        return;
      }
      ContainerIdInjective(name, inner.currentSlot, name, inner.currentSlot.Other());
      var done := runtime.SetPaused(ContainerId(name, inner.currentSlot), true, frozen);
      if done {
        inner.state := Frozen(inner.state.containerIp);
      }
    }
  }

  /** Thawing what runs changes nothing, and thawing what is removed does not matter. */
  lemma ThawedAgain(v: HostView, name: string, slot: Slot, state: AppState, newIp: Option<Ipv4>)
    requires v.Settled(name, state, slot)
    ensures state.Running? ==> v.Thawed(ContainerId(name, slot)) == v
    ensures newIp.Some? ==>
              v.Thawed(ContainerId(name, slot)).Replaced(name, slot, newIp.value) == v.Replaced(name, slot, newIp.value)
  {
    if newIp.Some? { v.ThawedReplaced(name, slot, newIp.value); }
  }

  function Ids(name: string, slots: seq<Slot>): seq<string> {
    seq(|slots|, i requires 0 <= i < |slots| => ContainerId(name, slots[i]))
  }

  /** Tear down the containers in the order given. */
  ghost function RemovedAll(v: HostView, cids: seq<string>): HostView {
    if cids == [] then v
    else RemovedAll(v, cids[..|cids| - 1]).Removed(cids[|cids| - 1])
  }

  lemma RemovedOne(v: HostView, cid: string)
    ensures RemovedAll(v, [cid]) == v.Removed(cid)
  {
  }

  /** A completed rollover leaves one container, on the other slot, and the old address free. */
  lemma SwitchSettles(v: HostView, pool: set<Ipv4>, name: string, slot: Slot, fromIp: Ipv4, newIp: Ipv4)
    requires v.egress.Sound(pool) && newIp in v.egress.free
    requires v.Serving(ContainerId(name, slot), fromIp, false) && v.Vacant(ContainerId(name, slot.Other()))
    ensures var v' := v.Launched(ContainerId(name, slot.Other()), newIp).Removed(ContainerId(name, slot));
            && v'.Settled(name, Running(newIp), slot.Other())
            && v'.egress.free == v.egress.free - {newIp} + {fromIp}
  {
  }

  /** Stopping a settled app, or one caught in mid-rollover, leaves nothing in either slot. */
  lemma StopSettles(v: HostView, pool: set<Ipv4>, name: string, state: AppState, slot: Slot)
    requires v.egress.Sound(pool)
    requires state.RollingOver? || (state.NeedsTeardown() && v.Vacant(ContainerId(name, slot.Other())))
    ensures RemovedAll(v, Ids(name, state.LiveSlots(slot))).Settled(name, Stopped, slot)
  {
  }

  /** A start and the stop that follows it cancel out, down to the free set. */
  lemma StopUndoesStart(v: HostView, pool: set<Ipv4>, name: string, slot: Slot, ip: Ipv4)
    requires v.egress.Sound(pool) && v.Vacant(ContainerId(name, slot)) && ip in v.egress.free
    ensures RemovedAll(v.Launched(ContainerId(name, slot), ip), Ids(name, Running(ip).LiveSlots(slot))) == v
  {
  }
}
