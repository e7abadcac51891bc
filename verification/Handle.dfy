/**
 * The per-app handle: the two blue-green slots, the lifecycle state, and the
 * critical sections that run under the handle's lock.
 *
 * Each transition is a function on `AppState`; `HandleInner` is the object
 * those transitions update in place.  The interleaving model in `Rollover`
 * takes the same functions as its atomic steps.
 */
module Handle {
  import opened Prelude

  const MAX_ROLLOUT_HISTORY: nat := 2

  datatype Slot = A | B {
    /** The target of a rollover that starts from this slot. */
    function Other(): (o: Slot)
      ensures o != this && o.A? == this.B?
    {
      if this == A then B else A
    }

    function AsChar(): char {
      if this == A then 'a' else 'b'
    }
  }

  /** The name under which the runtime and the egress layer know one container. */
  function ContainerId(name: string, slot: Slot): string {
    name + "-" + [slot.AsChar()]
  }

  /** Container ids never collide, neither across apps nor across slots. */
  lemma ContainerIdInjective(n: string, s: Slot, m: string, t: Slot)
    ensures ContainerId(n, s) == ContainerId(m, t) <==> n == m && s == t
  {
    var x, y := ContainerId(n, s), ContainerId(m, t);
    if x == y {
      assert x[|x| - 1] == s.AsChar() && y[|y| - 1] == t.AsChar();
      assert x[..|x| - 2] == n && y[..|y| - 2] == m;
    }
  }

  datatype StartClaim =
    | Ready(ip: Ipv4)
    | Coalesce
    | WaitForStopping
    | Claimed(resumeFrom: Option<Ipv4>)

  datatype RolloverEntry = ColdStart | BlueGreen(fromIp: Ipv4) | Conflict

  datatype AppState =
    | Stopped
    | Starting
    | Running(containerIp: Ipv4)
    | Frozen(containerIp: Ipv4)
    | RollingOver(fromIp: Ipv4)
    | Stopping
  {
    predicate IsBusy() {
      Starting? || Stopping? || RollingOver?
    }

    predicate NeedsTeardown() {
      Running? || Frozen? || Starting? || RollingOver?
    }

    /** The slots the handle answers for, in teardown order. */
    function LiveSlots(current: Slot): seq<Slot> {
      match this
      case Stopped => []
      case RollingOver(_) => [current, current.Other()]
      case _ => [current]
    }

    /** What a start request is told, ... */
    function ClaimOf(): StartClaim {
      match this
      case Running(ip) => Ready(ip)
      case RollingOver(ip) => Ready(ip)
      case Starting => Coalesce
      case Stopping => WaitForStopping
      case Stopped => Claimed(None)
      case Frozen(ip) => Claimed(Some(ip))
    }

    /** ... and the state it leaves behind. */
    function AfterClaim(): AppState {
      if Stopped? || Frozen? then Starting else this
    }

    /** The locked match that ends `enter_rolling_over`. */
    function EntryOf(): RolloverEntry {
      match this
      case Stopped => ColdStart
      case Running(ip) => BlueGreen(ip)
      case _ => Conflict
    }

    function AfterEntry(): AppState {
      if Running? then RollingOver(containerIp) else this
    }

    /** The re-check after a frozen from-side was unfrozen for a rollover. */
    function AfterThaw(): AppState {
      if Frozen? then Running(containerIp) else this
    }

    /** Compare-and-swap out of `RollingOver`, used by switch and rollback alike. */
    function LeaveRollingOver(ip: Ipv4): AppState {
      if RollingOver? then Running(ip) else this
    }
  }

  function AfterStart(result: Option<Ipv4>): AppState {
    match result
    case Some(ip) => Running(ip)
    case None => Stopped
  }

  datatype DigestCache = DigestCache(repo: string, digest: string)

  function LastN<T>(s: seq<T>, n: nat): seq<T> {
    if |s| <= n then s else s[|s| - n..]
  }

  /** The mutable half of an app handle, always accessed under its lock. */
  class HandleInner {
    var state: AppState
    var currentSlot: Slot
    var lastAccess: nat
    var rollouts: seq<string>
    var imageDigest: Option<DigestCache>
    var cpuBaseline: nat

    constructor (loaded: seq<string>, now: nat)
      ensures state == Stopped && currentSlot == A && lastAccess == now
      ensures rollouts == loaded && imageDigest == None && cpuBaseline == 0
    {
      state, currentSlot, lastAccess := Stopped, A, now;
      rollouts, imageDigest, cpuBaseline := loaded, None, 0;
    }

    /**
     * Ownership of a start is granted exactly when the claim moves the state,
     * and then every later claim coalesces until the owner commits.
     */
    method ClaimStartSlot(now: nat) returns (claim: StartClaim)
      modifies `state, `lastAccess
      ensures lastAccess == now
      ensures claim == old(state).ClaimOf() && state == old(state).AfterClaim()
      ensures claim.Claimed? <==> state != old(state)
      ensures claim.Claimed? ==> state.ClaimOf() == Coalesce && state.AfterClaim() == state
      ensures claim.Claimed? ==> state == Starting
      ensures claim.Claimed? ==>
                old(state) == if claim.resumeFrom.Some? then Frozen(claim.resumeFrom.value) else Stopped
      ensures claim.Ready? <==> old(state).Running? || old(state).RollingOver?
      ensures claim.Ready? ==> state == Running(claim.ip) || state == RollingOver(claim.ip)
      ensures claim == Coalesce <==> old(state) == Starting
      ensures claim == WaitForStopping <==> old(state) == Stopping
    {
      lastAccess := now;
      match state {
        case Running(ip) => claim := Ready(ip);
        case RollingOver(ip) => claim := Ready(ip);
        case Starting => claim := Coalesce;
        case Stopping => claim := WaitForStopping;
        case Stopped =>
          state := Starting;
          claim := Claimed(None);
        case Frozen(ip) =>
          state := Starting;
          claim := Claimed(Some(ip));
      }
    }

    /** Writes unconditionally: whatever the state drifted to is overwritten. */
    method FinishStart(result: Option<Ipv4>)
      modifies `state
      ensures state == AfterStart(result)
    {
      state := if result.Some? then Running(result.value) else Stopped;
    }

    method CommitThaw()
      modifies `state
      ensures state == old(state).AfterThaw()
      ensures old(state).Frozen? ==> state == Running(old(state).containerIp)
      ensures state != old(state) <==> old(state).Frozen?
    {
      match state {
        case Frozen(ip) => state := Running(ip);
        case _ =>
      }
    }

    /** A stopped app is started, a running one replaced under the same address, and all others conflict. */
    method EnterRollingOver() returns (entry: RolloverEntry)
      modifies `state
      ensures entry == ColdStart <==> old(state) == Stopped
      ensures entry == Conflict <==> old(state) in {Starting, Stopping} || old(state).RollingOver? || old(state).Frozen?
      ensures entry.BlueGreen? ==> old(state) == Running(entry.fromIp) && state == RollingOver(entry.fromIp)
      ensures entry == old(state).EntryOf() && state == old(state).AfterEntry()
      ensures entry.BlueGreen? <==> state != old(state)
      ensures entry.BlueGreen? ==> old(state).ClaimOf() == state.ClaimOf() == Ready(entry.fromIp)
    {
      match state {
        case Stopped => entry := ColdStart;
        case Running(ip) =>
          state := RollingOver(ip);
          entry := BlueGreen(ip);
        case _ => entry := Conflict;
      }
    }

    method SwitchTo(to: Slot, newIp: Ipv4) returns (switched: bool)
      modifies `state, `currentSlot
      ensures switched <==> old(state).RollingOver?
      ensures state == old(state).LeaveRollingOver(newIp)
      ensures state == if switched then Running(newIp) else old(state)
      ensures currentSlot == if switched then to else old(currentSlot)
    {
      switched := false;
      if state.RollingOver? {
        state := Running(newIp);
        currentSlot := to;
        switched := true;
      }
    }

    method Rollback(fromIp: Ipv4) returns (restored: bool)
      modifies `state
      ensures restored <==> old(state).RollingOver?
      ensures state == old(state).LeaveRollingOver(fromIp)
      ensures state == if restored then Running(fromIp) else old(state)
    {
      restored := false;
      if state.RollingOver? {
        state := Running(fromIp);
        restored := true;
      }
    }

    /** Snapshot and transition in one section; `None` when there is nothing to stop. */
    method BeginStop() returns (slots: Option<seq<Slot>>)
      modifies `state
      ensures slots.Some? <==> old(state).NeedsTeardown()
      ensures slots.None? <==> old(state) == Stopped || old(state) == Stopping
      ensures slots.Some? ==>
                slots.value == if old(state).RollingOver? then [currentSlot, currentSlot.Other()] else [currentSlot]
      ensures slots.Some? ==> slots.value == old(state).LiveSlots(currentSlot) && state == Stopping
      ensures slots.None? ==> state == old(state)
    {
      if !state.NeedsTeardown() {
        return None;
      }
      slots := Some(state.LiveSlots(currentSlot));
      state := Stopping;
    }

    method FinishStop()
      modifies `state, `cpuBaseline
      ensures state == Stopped && cpuBaseline == 0
    {
      state, cpuBaseline := Stopped, 0;
    }

    /**
     * The history keeps the newest entries only, whatever length was loaded
     * from disk, and the digest cache moves with it in the same section.
     */
    method RecordRollout(tag: string, repo: string, digest: string)
      modifies `rollouts, `imageDigest
      ensures rollouts == LastN(old(rollouts) + [tag], MAX_ROLLOUT_HISTORY)
      ensures rollouts == if old(rollouts) == [] then [tag] else [old(rollouts)[|old(rollouts)| - 1], tag]
      ensures imageDigest == Some(DigestCache(repo, digest))
    {
      ghost var was := rollouts;
      while |rollouts| >= MAX_ROLLOUT_HISTORY
        invariant rollouts == was || |rollouts| >= MAX_ROLLOUT_HISTORY - 1
        invariant |rollouts| <= |was| && rollouts == was[|was| - |rollouts|..]
      {
        rollouts := rollouts[1..];
      }
      rollouts := rollouts + [tag];
      imageDigest := Some(DigestCache(repo, digest));
    }
  }
}
