/**
 * The two views of one app brought together: the objects of `AppHost`, where
 * an operation runs from start to end, and the machine of `Rollover`, where it
 * is one task among many.
 */
module HostLink {
  import opened Prelude
  import opened Handle
  import opened Allocator
  import opened Endpoints
  import opened Egress
  import opened AppHost
  import opened Rollover
  import opened RolloverInvariant
  import opened RolloverRuns

  import T = RolloverTheorems

  /** What one container id looks like from the machine: a container bears the address of its netns. */
  function SideOf(v: HostView, cid: string): Side {
    Side(if cid in v.containers then v.egress.Registered(cid) else None,
         cid in v.containers && v.containers[cid],
         v.egress.Registered(cid))
  }

  /** The world shows app `name` as the host has it. */
  predicate Pictures(w: World, v: HostView, name: string) {
    && w.app.sideA == SideOf(v, ContainerId(name, Slot.A))
    && w.app.sideB == SideOf(v, ContainerId(name, Slot.B))
    && w.free == v.egress.free
  }

  /** Settled means the same thing on both sides. */
  lemma SettledAgrees(w: World, v: HostView, name: string)
    requires Pictures(w, v, name) && v.Settled(name, w.app.state, w.app.slot)
    ensures T.Settled(w.app)
  {
  }

  lemma LaunchPictures(w: World, v: HostView, pool: set<Ipv4>, name: string, s: Slot, ip: Ipv4)
    requires Pictures(w, v, name) && v.egress.Sound(pool) && v.Vacant(ContainerId(name, s)) && ip in w.free
    ensures Pictures(Launch(w, s, ip), v.Launched(ContainerId(name, s), ip), name)
  {
    var cid, other := ContainerId(name, s), ContainerId(name, s.Other());
    ContainerIdInjective(name, s, name, s.Other());
    v.OthersUnaffected(pool, cid, ip, other);
    assert SideOf(v.Launched(cid, ip), other) == SideOf(v, other);
    assert SideOf(v.Launched(cid, ip), cid) == Side(Some(ip), false, Some(ip));
  }

  lemma RemovePictures(w: World, v: HostView, pool: set<Ipv4>, name: string, s: Slot)
    requires Pictures(w, v, name) && v.egress.Sound(pool)
    ensures Pictures(Remove(w, s), v.Removed(ContainerId(name, s)), name)
  {
    var cid, other := ContainerId(name, s), ContainerId(name, s.Other());
    ContainerIdInjective(name, s, name, s.Other());
    v.OthersUnaffected(pool, cid, 0, other);
    v.egress.DropSound(pool, cid);
    assert SideOf(v.Removed(cid), other) == SideOf(v, other);
    assert SideOf(v.Removed(cid), cid) == EMPTY;
  }

  /** The answers as `AppHost` takes them: all phases succeed, and an address is free. */
  predicate HostSucceeds(v: HostView, k: Script) {
    k.attached && k.pulled && k.started && k.ready && k.ip in v.egress.free
  }

  lemma UndonePictures(w: World, v: HostView, name: string, s: Slot, k: Script)
    requires Pictures(w, v, name) && w.app.On(s) == EMPTY
    ensures var w' := Undone(w, s, k);
            && Pictures(w', v, name) && w'.app.state == w.app.state
            && w'.app.slot == w.app.slot && w'.app.tasks == w.app.tasks
  {
    UndoneOnEmpty(w, s, k);
  }

  /**
   * A request that nothing interrupts, whatever its phases answer: it does to
   * the machine what `AppHost.Host.TryEnsureRunning` does to the host.
   */
  lemma StartAgrees(w: World, v: HostView, pool: set<Ipv4>, name: string, t: TaskId, k: Script, w': World)
    requires Pictures(w, v, name) && v.egress.Sound(pool) && t !in w.app.tasks
    requires w.app.state.Stopped? && v.Settled(name, Stopped, w.app.slot)
    requires EndsIn(w, Request(t), t, k, w')
    ensures w'.app.slot == w.app.slot && w'.app.tasks == w.app.tasks
    ensures w'.app.state == if HostSucceeds(v, k) then Running(k.ip) else Stopped
    ensures Pictures(w', if HostSucceeds(v, k) then v.Launched(ContainerId(name, w.app.slot), k.ip) else v, name)
  {
    SettledAgrees(w, v, name);
    StartAlone(w, t, k);
    EndIsUnique(w, Request(t), t, k, w', StartEnd(w, k));
    StartEndPictures(w, v, pool, name, k);
  }

  lemma StartEndPictures(w: World, v: HostView, pool: set<Ipv4>, name: string, k: Script)
    requires Pictures(w, v, name) && v.egress.Sound(pool)
    requires w.app.state.Stopped? && v.Settled(name, Stopped, w.app.slot)
    ensures var w' := StartEnd(w, k);
            && w'.app.slot == w.app.slot && w'.app.tasks == w.app.tasks
            && w'.app.state == (if HostSucceeds(v, k) then Running(k.ip) else Stopped)
            && Pictures(w', if HostSucceeds(v, k) then v.Launched(ContainerId(name, w.app.slot), k.ip) else v, name)
  {
    if AllWell(w, k) {
      LaunchPictures(w, v, pool, name, w.app.slot, k.ip);
    } else {
      UndonePictures(w, v, name, w.app.slot, k);
    }
  }

  /** A request that nothing interrupts on a frozen app. */
  lemma ResumeAgrees(w: World, v: HostView, name: string, t: TaskId, k: Script, w': World)
    requires Pictures(w, v, name) && t !in w.app.tasks
    requires w.app.state.Frozen? && v.Settled(name, w.app.state, w.app.slot)
    requires EndsIn(w, Request(t), t, k, w')
    ensures w'.app.slot == w.app.slot && w'.app.tasks == w.app.tasks
    ensures w'.app.state == if k.unfrozen then Running(w.app.state.containerIp) else Stopped
    ensures Pictures(w', if k.unfrozen then v.Thawed(ContainerId(name, w.app.slot)) else v, name)
  {
    ResumeAlone(w, t, k);
    EndIsUnique(w, Request(t), t, k, w', ResumeEnd(w, k));
    if k.unfrozen { ThawPictures(w, v, name); }
  }

  lemma ThawPictures(w: World, v: HostView, name: string)
    requires Pictures(w, v, name) && w.app.state.Frozen? && v.Settled(name, w.app.state, w.app.slot)
    ensures Pictures(Thaw(w), v.Thawed(ContainerId(name, w.app.slot)), name)
  {
    ContainerIdInjective(name, w.app.slot, name, w.app.slot.Other());
  }

  lemma RolloverEndPictures(w: World, v: HostView, pool: set<Ipv4>, name: string, t: TaskId, k: Script)
    requires Pictures(w, v, name) && v.egress.Sound(pool) && CanRollOver(w, t)
    requires v.Settled(name, w.app.state, w.app.slot)
    ensures var w' := RolloverEnd(w, k);
            && w'.app.tasks == w.app.tasks
            && w'.app.state == (if HostSucceeds(v, k) then Running(k.ip) else w.app.state)
            && w'.app.slot == (if HostSucceeds(v, k) then w.app.slot.Other() else w.app.slot)
            && Pictures(w', if HostSucceeds(v, k) then v.Replaced(name, w.app.slot, k.ip) else v, name)
  {
    var to := w.app.slot.Other();
    if AllWell(w, k) {
      LaunchPictures(w, v, pool, name, to, k.ip);
      v.egress.AddSound(pool, ContainerId(name, to), k.ip);
      RemovePictures(SwitchedTo(w, k.ip), v.Launched(ContainerId(name, to), k.ip), pool, name, w.app.slot);
    } else {
      UndonePictures(w, v, name, to, k);
    }
  }

  /** No other operation of the app is in its rollover. */
  predicate NoRollover(w: World) {
    forall u :: u in w.app.tasks ==> !w.app.tasks[u].IsRoller()
  }

  /**
   * A deployment that nothing interrupts, in any state and whatever its calls
   * answer: it does to the machine what `AppHost.Host.ApplyChange` does to the
   * host, and a failed pull does nothing.
   */
  lemma DeployAgrees(w: World, v: HostView, pool: set<Ipv4>, name: string, t: TaskId, k: Script, w': World)
    requires Pictures(w, v, name) && v.egress.Sound(pool) && t !in w.app.tasks && NoRollover(w)
    requires w.app.state.Running? || w.app.state.Frozen? || w.app.state.Stopped?
    requires v.Settled(name, w.app.state, w.app.slot) && EndsIn(w, Deploy(t), t, k, w')
    ensures w'.app.tasks == w.app.tasks
    ensures var thawed := w.app.state.Frozen? && k.rolloutPulled && k.unfrozen;
            var replaced := k.rolloutPulled && (w.app.state.Frozen? ==> k.unfrozen) && HostSucceeds(v, k);
            && w'.app.state == (if replaced then Running(k.ip)
                                else if thawed then Running(w.app.state.containerIp) else w.app.state)
            && w'.app.slot == (if replaced && !w.app.state.Stopped? then w.app.slot.Other() else w.app.slot)
            && Pictures(w', if replaced && w.app.state.Stopped? then v.Launched(ContainerId(name, w.app.slot), k.ip)
                            else if replaced then v.Replaced(name, w.app.slot, k.ip)
                            else if thawed then v.Thawed(ContainerId(name, w.app.slot)) else v, name)
  {
    SettledAgrees(w, v, name);
    if !k.rolloutPulled {
      DeployRefused(w, t, k);
      EndIsUnique(w, Deploy(t), t, k, w', w);
    } else if w.app.state.Stopped? {
      DeployStopped(w, t, k);
      EndIsUnique(w, Deploy(t), t, k, w', StartEnd(w, k));
      StartEndPictures(w, v, pool, name, k);
    } else if w.app.state.Running? {
      DeployRunning(w, t, k);
      EndIsUnique(w, Deploy(t), t, k, w', RolloverEnd(w, k));
      RolloverEndPictures(w, v, pool, name, t, k);
    } else {
      DeployFrozenAgrees(w, v, pool, name, t, k, w');
    }
  }

  lemma DeployFrozenAgrees(w: World, v: HostView, pool: set<Ipv4>, name: string, t: TaskId, k: Script, w': World)
    requires Pictures(w, v, name) && v.egress.Sound(pool) && t !in w.app.tasks && NoRollover(w)
    requires w.app.state.Frozen? && k.rolloutPulled
    requires v.Settled(name, w.app.state, w.app.slot) && EndsIn(w, Deploy(t), t, k, w')
    ensures w'.app.tasks == w.app.tasks
    ensures !k.unfrozen ==> w' == w
    ensures k.unfrozen ==>
              && w'.app.state == (if HostSucceeds(v, k) then Running(k.ip) else Running(w.app.state.containerIp))
              && w'.app.slot == (if HostSucceeds(v, k) then w.app.slot.Other() else w.app.slot)
              && Pictures(w', if HostSucceeds(v, k) then v.Replaced(name, w.app.slot, k.ip)
                              else v.Thawed(ContainerId(name, w.app.slot)), name)
  {
    var cid := ContainerId(name, w.app.slot);
    ContainerIdInjective(name, w.app.slot, name, w.app.slot.Other());
    SettledAgrees(w, v, name);
    ThawPictures(w, v, name);
    DeployFrozen(w, t, k);
    EndIsUnique(w, Deploy(t), t, k, w', if k.unfrozen then RolloverEnd(Thaw(w), k) else w);
    if k.unfrozen {
      RolloverEndPictures(Thaw(w), v.Thawed(cid), pool, name, t, k);
      v.ThawedReplaced(name, w.app.slot, k.ip);
    }
  }

  /** A stop that nothing interrupts, in any state: it does to the machine what `AppHost.Host.Stop` does to the host. */
  lemma StopAgrees(w: World, v: HostView, pool: set<Ipv4>, name: string, t: TaskId, k: Script, w': World)
    requires Pictures(w, v, name) && v.egress.Sound(pool) && t !in w.app.tasks && EndsIn(w, Stop(t), t, k, w')
    ensures w'.app.slot == w.app.slot && w'.app.tasks == w.app.tasks
    ensures w'.app.state == if w.app.state.Stopping? then Stopping else Stopped
    ensures var one, two := ContainerId(name, w.app.slot), ContainerId(name, w.app.slot.Other());
            Pictures(w', if w.app.state in {Stopped, Stopping} then v
                         else if w.app.state.RollingOver? then v.Removed(one).Removed(two) else v.Removed(one), name)
  {
    StopAlone(w, t, k);
    EndIsUnique(w, Stop(t), t, k, w', StopEnd(w));
    StopEndPictures(w, v, pool, name);
  }

  lemma StopEndPictures(w: World, v: HostView, pool: set<Ipv4>, name: string)
    requires Pictures(w, v, name) && v.egress.Sound(pool)
    ensures StopEnd(w).app.tasks == w.app.tasks && StopEnd(w).app.slot == w.app.slot
    ensures var one, two := ContainerId(name, w.app.slot), ContainerId(name, w.app.slot.Other());
            Pictures(StopEnd(w), if w.app.state in {Stopped, Stopping} then v
                                 else if w.app.state.RollingOver? then v.Removed(one).Removed(two)
                                 else v.Removed(one), name)
  {
    if w.app.state.RollingOver? {
      StopRollingPictures(w, v, pool, name);
    } else if !(w.app.state in {Stopped, Stopping}) {
      RemovePictures(InState(w, Stopping), v, pool, name, w.app.slot);
    }
  }

  lemma StopRollingPictures(w: World, v: HostView, pool: set<Ipv4>, name: string)
    requires Pictures(w, v, name) && v.egress.Sound(pool) && w.app.state.RollingOver?
    ensures StopEnd(w).app.tasks == w.app.tasks && StopEnd(w).app.slot == w.app.slot
    ensures var one, two := ContainerId(name, w.app.slot), ContainerId(name, w.app.slot.Other());
            Pictures(StopEnd(w), v.Removed(one).Removed(two), name)
  {
    var s, gone := w.app.slot, Remove(InState(w, Stopping), w.app.slot);
    RemovePictures(InState(w, Stopping), v, pool, name, s);
    v.egress.DropSound(pool, ContainerId(name, s));
    RemovePictures(gone, v.Removed(ContainerId(name, s)), pool, name, s.Other());
  }

  /** A freeze does to the machine what `AppHost.Host.Freeze` does to the host. */
  lemma FreezeAgrees(w: World, v: HostView, name: string, frozen: bool)
    requires Pictures(w, v, name) && (w.app.state.IsBusy() || v.Settled(name, w.app.state, w.app.slot))
    ensures Step(w, Freeze(frozen)).Some?
    ensures var w', cid := Step(w, Freeze(frozen)).value, ContainerId(name, w.app.slot);
            if w.app.state.Running? && frozen then
              && w'.app.state == Frozen(w.app.state.containerIp) && w'.app.slot == w.app.slot
              && w'.app.tasks == w.app.tasks
              && Pictures(w', HostView(v.containers[cid := true], v.egress), name)
            else w' == w
  {
    ContainerIdInjective(name, w.app.slot, name, w.app.slot.Other());
  }
}
