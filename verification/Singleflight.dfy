/**
 * Concurrent pulls of image references.  A caller that misses the on-disk
 * cache either leads the pull of its reference or waits for the caller that
 * does, and starts over when that one had nothing for it.
 */
module Singleflight {
  import opened Prelude

  type CallerId = nat
  type SlotId = nat
  type Ref = string
  type Digest = string

  datatype Pc =
    | Probing
    | Claiming                                        // top of the loop
    | Pulling(slot: SlotId)                           // leader, inside the full pull
    | Pulled(slot: SlotId, result: Option<Digest>)    // not yet published
    | Published(slot: SlotId, result: Option<Digest>) // still listed as in flight
    | Unlisted(slot: SlotId, result: Option<Digest>)  // barrier still held
    | Waiting(slot: SlotId)
    | Woken(slot: SlotId)                             // about to read the slot
    | Returned(via: Option<SlotId>, result: Option<Digest>)
  {
    predicate Listed() { Pulling? || Pulled? || Published? }
    predicate Leads() { Listed() || Unlisted? }
    predicate Waits() { Waiting? || Woken? }
  }

  /**
   * `visited`: the slots this caller waited on in vain; `led`: the slot it
   * created; `steps`: how often it was scheduled.
   */
  datatype Caller = Caller(imageRef: Ref, pc: Pc, visited: set<SlotId>, led: Option<SlotId>, steps: nat)

  datatype Slot = Slot(imageRef: Ref, leader: CallerId, locked: bool, resolved: Option<Digest>)

  /**
   * `done`: digests whose directory holds the completion marker.  `broken`:
   * digests whose final directory exists without it; extraction defers to
   * such a directory, so it stays that way.  `pulls`: every answer the
   * registry gave to a full pull.
   */
  datatype Sys = Sys(
    callers: map<CallerId, Caller>,
    slots: map<SlotId, Slot>,
    inflight: map<Ref, SlotId>,
    done: set<Digest>,
    broken: set<Digest>,
    pulls: set<(Ref, Digest)>)

  datatype Action =
    | Arrive(c: CallerId, imageRef: Ref)
    | Advance(c: CallerId, ok: bool, digest: Digest, newSlot: SlotId)

  function Move(sys: Sys, c: CallerId, pc: Pc): Sys
    requires c in sys.callers
  {
    sys.(callers := sys.callers[c := sys.callers[c].(pc := pc, steps := sys.callers[c].steps + 1)])
  }

  /** Reading the cache: absent, readable, or (when not `ok`) an error. */
  function Probe(sys: Sys, c: CallerId, ok: bool, digest: Digest): Sys
    requires c in sys.callers
  {
    if !ok then Move(sys, c, Returned(None, None))
    else if digest in sys.done then Move(sys, c, Returned(None, Some(digest)))
    else Move(sys, c, Claiming)
  }

  /** The map section that decides the role. */
  function Claim(sys: Sys, c: CallerId, newSlot: SlotId): Sys
    requires c in sys.callers
  {
    var r := sys.callers[c].imageRef;
    if r in sys.inflight then Move(sys, c, Waiting(sys.inflight[r]))
    else
      var sys' := Move(sys, c, Pulling(newSlot));
      sys'.(callers := sys'.callers[c := sys'.callers[c].(led := Some(newSlot))],
            slots := sys.slots[newSlot := Slot(r, c, true, None)],
            inflight := sys.inflight[r := newSlot])
  }

  /** The map itself, under its lock: whoever finds no entry makes one and leads. */
  class Inflight {
    var entries: map<Ref, SlotId>

    method ClaimInflight(imageRef: Ref, newSlot: SlotId) returns (slot: SlotId, leads: bool)
      modifies this
      ensures leads <==> imageRef !in old(entries)
      ensures slot == if leads then newSlot else old(entries)[imageRef]
      ensures imageRef in entries && entries[imageRef] == slot
      ensures forall sys: Sys, c ::
                c in sys.callers && sys.callers[c].imageRef == imageRef && sys.inflight == old(entries) ==>
                && Claim(sys, c, newSlot).inflight == entries
                && Claim(sys, c, newSlot).callers[c].pc == if leads then Pulling(slot) else Waiting(slot)
    {
      leads := imageRef !in entries;
      if leads {
        entries := entries[imageRef := newSlot];
      }
      slot := entries[imageRef];
    }

    method ReleaseInflight(imageRef: Ref)
      modifies this
      ensures entries == old(entries) - {imageRef}
    {
      entries := entries - {imageRef};
    }
  }

  function FinishPull(sys: Sys, c: CallerId, s: SlotId, ok: bool, digest: Digest): Sys
    requires c in sys.callers
  {
    if !ok then Move(sys, c, Pulled(s, None))
    else
      Move(sys, c, Pulled(s, Some(digest))).(
        done := if digest in sys.broken then sys.done else sys.done + {digest},
        pulls := sys.pulls + {(sys.callers[c].imageRef, digest)})
  }

  function Publish(sys: Sys, c: CallerId, s: SlotId, result: Option<Digest>): Sys
    requires c in sys.callers && s in sys.slots
  {
    var sys' := Move(sys, c, Published(s, result));
    if result.Some? then sys'.(slots := sys.slots[s := sys.slots[s].(resolved := result)]) else sys'
  }

  function Unlist(sys: Sys, c: CallerId, s: SlotId, result: Option<Digest>): Sys
    requires c in sys.callers
  {
    Move(sys, c, Unlisted(s, result)).(inflight := sys.inflight - {sys.callers[c].imageRef})
  }

  function DropGuard(sys: Sys, c: CallerId, s: SlotId, result: Option<Digest>): Sys
    requires c in sys.callers && s in sys.slots
  {
    Move(sys, c, Returned(Some(s), result)).(slots := sys.slots[s := sys.slots[s].(locked := false)])
  }

  function ReadSlot(sys: Sys, c: CallerId, s: SlotId, ok: bool): Sys
    requires c in sys.callers && s in sys.slots
  {
    var resolved := sys.slots[s].resolved;
    if resolved.Some? && resolved.value in sys.done then
      Move(sys, c, Returned(Some(s), if ok then resolved else None))
    else
      var sys' := Move(sys, c, Claiming);
      sys'.(callers := sys'.callers[c := sys'.callers[c].(visited := sys.callers[c].visited + {s})])
  }

  function Step(sys: Sys, a: Action): Option<Sys> {
    match a
    case Arrive(c, r) =>
      if c in sys.callers then None
      else Some(sys.(callers := sys.callers[c := Caller(r, Probing, {}, None, 0)]))
    case Advance(c, ok, digest, newSlot) =>
      if c !in sys.callers then None
      else
        match sys.callers[c].pc
        case Probing => Some(Probe(sys, c, ok, digest))
        case Claiming => if newSlot in sys.slots then None else Some(Claim(sys, c, newSlot))
        case Pulling(s) => Some(FinishPull(sys, c, s, ok, digest))
        case Pulled(s, result) => if s in sys.slots then Some(Publish(sys, c, s, result)) else None
        case Published(s, result) => Some(Unlist(sys, c, s, result))
        case Unlisted(s, result) => if s in sys.slots then Some(DropGuard(sys, c, s, result)) else None
        case Waiting(s) => if s in sys.slots && !sys.slots[s].locked then Some(Move(sys, c, Woken(s))) else None
        case Woken(s) => if s in sys.slots then Some(ReadSlot(sys, c, s, ok)) else None
        case Returned(_, _) => None
  }

  // ---- the invariant ----

  /** A digest that a full pull of `r` returned, on disk unless its directory was broken. */
  predicate Fetched(sys: Sys, r: Ref, d: Digest) {
    (r, d) in sys.pulls && (d in sys.done || d in sys.broken)
  }

  /** Waiting on this slot was in vain: its leader had nothing that can be loaded. */
  predicate Barren(sys: Sys, s: SlotId)
    requires s in sys.slots
  {
    !sys.slots[s].locked && (sys.slots[s].resolved.None? || sys.slots[s].resolved.value in sys.broken)
  }

  predicate LeaderOk(sys: Sys, c: CallerId, s: SlotId)
    requires c in sys.callers
  {
    var me := sys.callers[c];
    && me.led == Some(s) && s in sys.slots && sys.slots[s].leader == c && sys.slots[s].imageRef == me.imageRef
    && (me.pc.Leads() ==> me.pc.slot == s && sys.slots[s].locked)
    && (me.pc.Listed() ==> me.imageRef in sys.inflight && sys.inflight[me.imageRef] == s)
    && (me.pc.Pulling? || me.pc.Pulled? ==> sys.slots[s].resolved.None?)
    && (me.pc.Pulled? && me.pc.result.Some? ==> Fetched(sys, me.imageRef, me.pc.result.value))
    && (me.pc.Published? || me.pc.Unlisted? ==> sys.slots[s].resolved == me.pc.result)
    && (!me.pc.Leads() ==> !sys.slots[s].locked && me.pc == Returned(Some(s), sys.slots[s].resolved))
  }

  predicate VisitOk(sys: Sys, c: CallerId, s: SlotId)
    requires c in sys.callers
  {
    s in sys.slots && sys.slots[s].leader != c && sys.slots[s].imageRef == sys.callers[c].imageRef
  }

  predicate WaiterOk(sys: Sys, c: CallerId)
    requires c in sys.callers
  {
    var me := sys.callers[c];
    && !me.pc.Leads()
    && (me.pc.Waits() ==> VisitOk(sys, c, me.pc.slot) && me.pc.slot !in me.visited)
    && (me.pc.Woken? ==> !sys.slots[me.pc.slot].locked)
    && (me.pc.Returned? && me.pc.via.Some? ==>
          && VisitOk(sys, c, me.pc.via.value)
          && !sys.slots[me.pc.via.value].locked
          && sys.slots[me.pc.via.value].resolved.Some?
          && sys.slots[me.pc.via.value].resolved.value in sys.done
          && (me.pc.result.Some? ==> me.pc.result == sys.slots[me.pc.via.value].resolved))
    && (me.pc.Returned? && me.pc.via.None? && me.pc.result.Some? ==> me.pc.result.value in sys.done)
  }

  predicate RoleOk(sys: Sys, c: CallerId)
    requires c in sys.callers
  {
    if sys.callers[c].led.Some? then LeaderOk(sys, c, sys.callers[c].led.value) else WaiterOk(sys, c)
  }

  predicate VisitsOk(sys: Sys, c: CallerId)
    requires c in sys.callers
  {
    forall s :: s in sys.callers[c].visited ==> VisitOk(sys, c, s) && Barren(sys, s)
  }

  predicate CallerOk(sys: Sys, c: CallerId)
    requires c in sys.callers
  {
    RoleOk(sys, c) && VisitsOk(sys, c)
  }

  /** Each turn of the loop costs a waiter three steps; the rest is paid once. */
  function Charge(pc: Pc): nat {
    match pc
    case Probing => 0
    case Claiming => 1
    case Waiting(_) => 2
    case Woken(_) => 3
    case Pulling(_) => 2
    case Pulled(_, _) => 3
    case Published(_, _) => 4
    case Unlisted(_, _) => 5
    case Returned(_, _) => 6
  }

  predicate PaceOk(me: Caller) {
    me.steps <= 3 * |me.visited| + Charge(me.pc)
  }

  predicate SlotOk(sys: Sys, s: SlotId)
    requires s in sys.slots
  {
    var slot := sys.slots[s];
    && slot.leader in sys.callers && sys.callers[slot.leader].led == Some(s)
    && (slot.resolved.Some? ==> Fetched(sys, slot.imageRef, slot.resolved.value))
  }

  predicate ListingOk(sys: Sys, r: Ref)
    requires r in sys.inflight
  {
    var s := sys.inflight[r];
    && s in sys.slots && sys.slots[s].imageRef == r && sys.slots[s].leader in sys.callers
    && sys.callers[sys.slots[s].leader].pc.Listed()
  }

  ghost predicate Inv(sys: Sys) {
    && (forall c {:trigger CallerOk(sys, c)} :: c in sys.callers ==> CallerOk(sys, c) && PaceOk(sys.callers[c]))
    && (forall s {:trigger SlotOk(sys, s)} :: s in sys.slots ==> SlotOk(sys, s))
    && (forall r {:trigger ListingOk(sys, r)} :: r in sys.inflight ==> ListingOk(sys, r))
    && sys.done !! sys.broken
  }

  predicate Init(sys: Sys) {
    sys.callers == map[] && sys.slots == map[] && sys.inflight == map[] && sys.pulls == {} && sys.done !! sys.broken
  }

  // ---- each step keeps it ----

  /** What a step of `c` leaves to everybody else. */
  ghost predicate Frame(sys: Sys, c: CallerId, sys': Sys) {
    && c in sys.callers && sys'.callers.Keys == sys.callers.Keys
    && (forall d :: d in sys.callers && d != c ==> sys'.callers[d] == sys.callers[d])
    && sys'.callers[c].imageRef == sys.callers[c].imageRef
    && (forall s :: s in sys.slots ==> s in sys'.slots && (sys.slots[s].leader != c ==> sys'.slots[s] == sys.slots[s]))
    && (forall s :: s in sys.slots ==>
          && sys'.slots[s].leader == sys.slots[s].leader && sys'.slots[s].imageRef == sys.slots[s].imageRef
          && (!sys.slots[s].locked ==> sys'.slots[s] == sys.slots[s]))
    && (forall s :: s in sys'.slots && s !in sys.slots ==> sys'.slots[s].leader == c)
    && sys.done <= sys'.done && sys'.broken == sys.broken && sys.pulls <= sys'.pulls
    && (forall r :: r in sys.inflight && sys.inflight[r] in sys.slots && sys.slots[sys.inflight[r]].leader != c ==>
          r in sys'.inflight && sys'.inflight[r] == sys.inflight[r])
    && (forall r :: r in sys'.inflight ==>
          || (r in sys.inflight && sys'.inflight[r] == sys.inflight[r])
          || (sys'.inflight[r] in sys'.slots && sys'.slots[sys'.inflight[r]].leader == c))
  }

  lemma OthersKeep(sys: Sys, c: CallerId, sys': Sys, d: CallerId)
    requires Frame(sys, c, sys') && d in sys.callers && d != c && CallerOk(sys, d)
    ensures CallerOk(sys', d)
  {
  }

  /** The step's own obligations: the caller, the slot it leads, and its listing. */
  ghost predicate OwnOk(sys: Sys, c: CallerId, sys': Sys) {
    && c in sys.callers && c in sys'.callers && CallerOk(sys', c) && PaceOk(sys'.callers[c])
    && (sys.callers[c].led.Some? ==> sys'.callers[c].led == sys.callers[c].led)
    && (forall s :: s in sys'.slots && sys'.slots[s].leader == c ==> SlotOk(sys', s))
    && (forall r :: r in sys'.inflight && sys'.inflight[r] in sys'.slots && sys'.slots[sys'.inflight[r]].leader == c ==>
          ListingOk(sys', r))
    && sys'.done !! sys'.broken
  }

  lemma Assemble(sys: Sys, c: CallerId, sys': Sys)
    requires Inv(sys) && Frame(sys, c, sys') && OwnOk(sys, c, sys')
    ensures Inv(sys')
  {
    forall d | d in sys'.callers ensures CallerOk(sys', d) && PaceOk(sys'.callers[d]) {
      if d != c { OthersKeep(sys, c, sys', d); }
    }
    forall s | s in sys'.slots ensures SlotOk(sys', s) {
      if sys'.slots[s].leader != c { assert SlotOk(sys, s); }
    }
    forall r | r in sys'.inflight ensures ListingOk(sys', r) {
      if r in sys.inflight && sys'.inflight[r] == sys.inflight[r] {
        assert ListingOk(sys, r);
      }
    }
  }

  /** What was in vain stays in vain. */
  lemma VisitsKeep(sys: Sys, c: CallerId, sys': Sys)
    requires Frame(sys, c, sys') && VisitsOk(sys, c) && sys'.callers[c].visited == sys.callers[c].visited
    ensures VisitsOk(sys', c)
  {
  }

  /** A caller moves on and leaves the slots, the listing and the disk as before. */
  lemma QuietKeeps(sys: Sys, c: CallerId, me: Caller, sys': Sys)
    requires Inv(sys) && c in sys.callers && sys' == sys.(callers := sys.callers[c := me])
    requires me.imageRef == sys.callers[c].imageRef && me.led.None? && sys.callers[c].led.None?
    requires WaiterOk(sys', c) && VisitsOk(sys', c) && PaceOk(me)
    ensures Inv(sys')
  {
    assert CallerOk(sys, c);
    forall s | s in sys.slots ensures sys.slots[s].leader != c { assert SlotOk(sys, s); }
    Assemble(sys, c, sys');
  }

  lemma FollowerKeeps(sys: Sys, c: CallerId, pc: Pc)
    requires Inv(sys) && c in sys.callers && sys.callers[c].led.None?
    requires WaiterOk(Move(sys, c, pc), c) && Charge(sys.callers[c].pc) < Charge(pc)
    ensures Inv(Move(sys, c, pc))
  {
    assert CallerOk(sys, c);
    QuietKeeps(sys, c, sys.callers[c].(pc := pc, steps := sys.callers[c].steps + 1), Move(sys, c, pc));
  }

  lemma ProbeKeeps(sys: Sys, c: CallerId, ok: bool, digest: Digest)
    requires Inv(sys) && c in sys.callers && sys.callers[c].pc.Probing?
    ensures Inv(Probe(sys, c, ok, digest))
  {
    assert CallerOk(sys, c);
    if !ok { FollowerKeeps(sys, c, Returned(None, None)); }
    else if digest in sys.done { FollowerKeeps(sys, c, Returned(None, Some(digest))); }
    else { FollowerKeeps(sys, c, Claiming); }
  }

  lemma WaitKeeps(sys: Sys, c: CallerId)
    requires Inv(sys) && c in sys.callers && sys.callers[c].pc.Claiming? && sys.callers[c].imageRef in sys.inflight
    ensures Inv(Claim(sys, c, 0))
  {
    var r := sys.callers[c].imageRef;
    var s := sys.inflight[r];
    assert CallerOk(sys, c) && ListingOk(sys, r);
    ListedIsLocked(sys, r);
    FollowerKeeps(sys, c, Waiting(s));
  }

  /** Somebody else's pull is under way behind every listed slot. */
  lemma ListedIsLocked(sys: Sys, r: Ref)
    requires Inv(sys) && r in sys.inflight
    ensures ListingOk(sys, r) && sys.slots[sys.inflight[r]].locked
  {
    var s := sys.inflight[r];
    assert ListingOk(sys, r) && SlotOk(sys, s);
    assert CallerOk(sys, sys.slots[s].leader);
  }

  lemma LeadKeeps(sys: Sys, c: CallerId, newSlot: SlotId)
    requires Inv(sys) && c in sys.callers && sys.callers[c].pc.Claiming? && sys.callers[c].imageRef !in sys.inflight
    requires newSlot !in sys.slots
    ensures Inv(Claim(sys, c, newSlot))
  {
    var sys' := Claim(sys, c, newSlot);
    assert CallerOk(sys, c);
    forall s | s in sys.slots ensures sys.slots[s].leader != c { assert SlotOk(sys, s); }
    forall r | r in sys.inflight ensures sys.inflight[r] in sys.slots { assert ListingOk(sys, r); }
    VisitsKeep(sys, c, sys');
    Assemble(sys, c, sys');
  }

  /** The steps of a leader after its claim: only its own slot can change. */
  lemma LeaderKeeps(sys: Sys, c: CallerId, s: SlotId, sys': Sys)
    requires Inv(sys) && c in sys.callers && sys.callers[c].led == Some(s) && Frame(sys, c, sys')
    requires sys'.slots.Keys == sys.slots.Keys && sys'.callers[c].led == Some(s)
    requires sys'.callers[c].visited == sys.callers[c].visited
    requires LeaderOk(sys', c, s) && PaceOk(sys'.callers[c]) && sys'.done !! sys'.broken
    requires s in sys'.slots
    requires sys'.slots[s].resolved.Some? ==> Fetched(sys', sys'.slots[s].imageRef, sys'.slots[s].resolved.value)
    requires forall r :: r in sys'.inflight && sys'.inflight[r] == s ==> ListingOk(sys', r)
    ensures Inv(sys')
  {
    forall u | u in sys'.slots && sys'.slots[u].leader == c ensures u == s && SlotOk(sys', u) { assert SlotOk(sys, u); }
    assert CallerOk(sys, c);
    VisitsKeep(sys, c, sys');
    Assemble(sys, c, sys');
  }

  lemma FinishPullKeeps(sys: Sys, c: CallerId, s: SlotId, ok: bool, digest: Digest)
    requires Inv(sys) && c in sys.callers && sys.callers[c].pc == Pulling(s)
    ensures Inv(FinishPull(sys, c, s, ok, digest))
  {
    var sys' := FinishPull(sys, c, s, ok, digest);
    assert CallerOk(sys, c);
    forall r | r in sys'.inflight && sys'.inflight[r] == s ensures ListingOk(sys', r) { assert ListingOk(sys, r); }
    LeaderKeeps(sys, c, s, sys');
  }

  lemma PublishKeeps(sys: Sys, c: CallerId, s: SlotId, result: Option<Digest>)
    requires Inv(sys) && c in sys.callers && sys.callers[c].pc == Pulled(s, result) && s in sys.slots
    ensures Inv(Publish(sys, c, s, result))
  {
    var sys' := Publish(sys, c, s, result);
    assert CallerOk(sys, c);
    forall r | r in sys'.inflight && sys'.inflight[r] == s ensures ListingOk(sys', r) { assert ListingOk(sys, r); }
    LeaderKeeps(sys, c, s, sys');
  }

  lemma UnlistKeeps(sys: Sys, c: CallerId, s: SlotId, result: Option<Digest>)
    requires Inv(sys) && c in sys.callers && sys.callers[c].pc == Published(s, result) && s in sys.slots
    ensures Inv(Unlist(sys, c, s, result))
  {
    var sys' := Unlist(sys, c, s, result);
    assert CallerOk(sys, c) && SlotOk(sys, s);
    forall r | r in sys'.inflight ensures sys'.inflight[r] != s { assert ListingOk(sys, r); }
    LeaderKeeps(sys, c, s, sys');
  }

  lemma DropGuardKeeps(sys: Sys, c: CallerId, s: SlotId, result: Option<Digest>)
    requires Inv(sys) && c in sys.callers && sys.callers[c].pc == Unlisted(s, result) && s in sys.slots
    ensures Inv(DropGuard(sys, c, s, result))
  {
    var sys' := DropGuard(sys, c, s, result);
    assert CallerOk(sys, c) && SlotOk(sys, s);
    forall r | r in sys'.inflight ensures sys'.inflight[r] != s { assert ListingOk(sys, r); }
    LeaderKeeps(sys, c, s, sys');
  }

  lemma WakeKeeps(sys: Sys, c: CallerId, s: SlotId)
    requires Inv(sys) && c in sys.callers && sys.callers[c].pc == Waiting(s) && s in sys.slots && !sys.slots[s].locked
    ensures Inv(Move(sys, c, Woken(s)))
  {
    assert CallerOk(sys, c);
    FollowerKeeps(sys, c, Woken(s));
  }

  lemma RetryKeeps(sys: Sys, c: CallerId, s: SlotId)
    requires Inv(sys) && c in sys.callers && sys.callers[c].pc == Woken(s) && s in sys.slots
    requires sys.slots[s].resolved.Some? ==> sys.slots[s].resolved.value !in sys.done
    ensures Inv(ReadSlot(sys, c, s, true))
  {
    var me, sys' := sys.callers[c], ReadSlot(sys, c, s, true);
    assert CallerOk(sys, c) && SlotOk(sys, s);
    assert |me.visited + {s}| == |me.visited| + 1;
    forall v | v in sys'.callers[c].visited ensures VisitOk(sys', c, v) && Barren(sys', v) {
      if v != s { assert VisitOk(sys, c, v) && Barren(sys, v); }
    }
    QuietKeeps(sys, c, sys'.callers[c], sys');
  }

  lemma ReadSlotKeeps(sys: Sys, c: CallerId, s: SlotId, ok: bool)
    requires Inv(sys) && c in sys.callers && sys.callers[c].pc == Woken(s) && s in sys.slots
    ensures Inv(ReadSlot(sys, c, s, ok))
  {
    assert CallerOk(sys, c) && SlotOk(sys, s);
    if sys.slots[s].resolved.Some? && sys.slots[s].resolved.value in sys.done {
      FollowerKeeps(sys, c, Returned(Some(s), if ok then sys.slots[s].resolved else None));
    } else {
      RetryKeeps(sys, c, s);
    }
  }

  lemma ArriveKeeps(sys: Sys, c: CallerId, r: Ref, sys': Sys)
    requires Inv(sys) && Step(sys, Arrive(c, r)) == Some(sys')
    ensures Inv(sys')
  {
    forall d | d in sys'.callers ensures CallerOk(sys', d) && PaceOk(sys'.callers[d]) {
      if d != c { assert CallerOk(sys, d); }
    }
    forall s | s in sys'.slots ensures SlotOk(sys', s) { assert SlotOk(sys, s); }
    forall q | q in sys'.inflight ensures ListingOk(sys', q) { assert ListingOk(sys, q); }
  }

  /** Every step of every caller, in any order, keeps the invariant. */
  lemma StepKeeps(sys: Sys, a: Action, sys': Sys)
    requires Inv(sys) && Step(sys, a) == Some(sys')
    ensures Inv(sys')
  {
    if a.Arrive? {
      ArriveKeeps(sys, a.c, a.imageRef, sys');
    } else {
      var Advance(c, ok, digest, newSlot) := a;
      assert CallerOk(sys, c);
      match sys.callers[c].pc
      case Probing => ProbeKeeps(sys, c, ok, digest);
      case Claiming =>
        if sys.callers[c].imageRef in sys.inflight { WaitKeeps(sys, c); } else { LeadKeeps(sys, c, newSlot); }
      case Pulling(s) => FinishPullKeeps(sys, c, s, ok, digest);
      case Pulled(s, result) => PublishKeeps(sys, c, s, result);
      case Published(s, result) => UnlistKeeps(sys, c, s, result);
      case Unlisted(s, result) => DropGuardKeeps(sys, c, s, result);
      case Waiting(s) => WakeKeeps(sys, c, s);
      case Woken(s) => ReadSlotKeeps(sys, c, s, ok);
    }
  }

  // ---- over whole runs ----

  function Run(sys: Sys, actions: seq<Action>): Option<Sys>
    decreases |actions|
  {
    if actions == [] then Some(sys)
    else
      match Step(sys, actions[0])
      case None => None
      case Some(sys') => Run(sys', actions[1..])
  }

  lemma RunKeeps(sys: Sys, actions: seq<Action>)
    requires Inv(sys) && Run(sys, actions).Some?
    ensures Inv(Run(sys, actions).value) && Run(sys, actions).value.broken == sys.broken
    decreases |actions|
  {
    if actions != [] {
      var sys' := Step(sys, actions[0]).value;
      StepKeeps(sys, actions[0], sys');
      RunKeeps(sys', actions[1..]);
    }
  }

  ghost predicate Reachable(sys: Sys) {
    exists s0, actions :: Init(s0) && Run(s0, actions) == Some(sys)
  }

  lemma ReachableInv(sys: Sys)
    requires Reachable(sys)
    ensures Inv(sys)
  {
    var s0, actions :| Init(s0) && Run(s0, actions) == Some(sys);
    RunKeeps(s0, actions);
  }

  /** At most one full pull per reference is under way, whatever the number of callers. */
  lemma OnePullAtATime(sys: Sys, c: CallerId, d: CallerId)
    requires Reachable(sys) && c in sys.callers && d in sys.callers
    requires sys.callers[c].pc.Pulling? && sys.callers[d].pc.Pulling?
    ensures sys.callers[c].imageRef == sys.callers[d].imageRef <==> c == d
  {
    ReachableInv(sys);
    assert CallerOk(sys, c) && CallerOk(sys, d);
  }

  /**
   * A waiter that returns an image returns what the leader of the slot it held
   * pulled for the same reference: never its own probe, never a directory
   * without its marker.  The leader got the same answer.
   */
  lemma WaiterGetsLeadersImage(sys: Sys, c: CallerId, s: SlotId, digest: Digest)
    requires Reachable(sys) && c in sys.callers && sys.callers[c].led.None?
    requires sys.callers[c].pc == Returned(Some(s), Some(digest))
    ensures s in sys.slots && sys.slots[s].imageRef == sys.callers[c].imageRef
    ensures sys.slots[s].leader in sys.callers && sys.slots[s].leader != c
    ensures sys.callers[sys.slots[s].leader].pc == Returned(Some(s), Some(digest))
    ensures (sys.callers[c].imageRef, digest) in sys.pulls && digest in sys.done
  {
    ReachableInv(sys);
    assert CallerOk(sys, c) && SlotOk(sys, s);
    assert CallerOk(sys, sys.slots[s].leader);
  }

  /** A leader's own answer is a pull of its reference, with its marker unless the directory had lost it before. */
  lemma LeaderGetsOwnPull(sys: Sys, c: CallerId, s: SlotId, digest: Digest)
    requires Reachable(sys) && c in sys.callers && sys.callers[c].led.Some?
    requires sys.callers[c].pc == Returned(Some(s), Some(digest))
    ensures sys.callers[c].led == Some(s) && (sys.callers[c].imageRef, digest) in sys.pulls
    ensures digest in sys.done <==> digest !in sys.broken
  {
    ReachableInv(sys);
    assert CallerOk(sys, c) && SlotOk(sys, s);
  }

  // ---- who fails, and why ----

  /** The call that `a.c` makes in this step fails: its probe, its pull, or its reading of an image that is there. */
  predicate CallFails(sys: Sys, a: Action) {
    && a.Advance? && !a.ok && a.c in sys.callers
    && match sys.callers[a.c].pc {
         case Probing => true
         case Pulling(_) => true
         case Woken(s) => s in sys.slots && sys.slots[s].resolved.Some? && sys.slots[s].resolved.value in sys.done
         case _ => false
       }
  }

  predicate EverFails(sys: Sys, actions: seq<Action>, c: CallerId)
    decreases |actions|
  {
    actions != [] &&
    ((actions[0].c == c && CallFails(sys, actions[0])) ||
     (Step(sys, actions[0]).Some? && EverFails(Step(sys, actions[0]).value, actions[1..], c)))
  }

  /** The caller has an error in hand, or has returned one. */
  predicate HasError(sys: Sys, c: CallerId) {
    && c in sys.callers
    && match sys.callers[c].pc {
         case Pulled(_, result) => result.None?
         case Published(_, result) => result.None?
         case Unlisted(_, result) => result.None?
         case Returned(_, result) => result.None?
         case _ => false
       }
  }

  lemma StepErrs(sys: Sys, a: Action, sys': Sys, c: CallerId)
    requires Step(sys, a) == Some(sys')
    ensures HasError(sys', c) <==> HasError(sys, c) || (a.c == c && CallFails(sys, a))
  {
    if a.c != c { StepMovesOne(sys, a, sys'); }
  }

  lemma {:induction false} ErrsLater(sys: Sys, actions: seq<Action>, c: CallerId)
    requires Run(sys, actions).Some?
    ensures HasError(Run(sys, actions).value, c) <==> HasError(sys, c) || EverFails(sys, actions, c)
    decreases |actions|
  {
    if actions != [] {
      var sys' := Step(sys, actions[0]).value;
      StepErrs(sys, actions[0], sys', c);
      ErrsLater(sys', actions[1..], c);
    }
  }

  /**
   * In any run of any number of callers, a caller that returns gives an error
   * if and only if one of its own calls failed: nobody fails for another, and
   * a waiter whose leader failed tries for itself.
   */
  lemma ErrsExactly(sys: Sys, actions: seq<Action>, c: CallerId)
    requires Init(sys) && Run(sys, actions).Some?
    ensures var sys' := Run(sys, actions).value;
            c in sys'.callers && sys'.callers[c].pc.Returned? ==>
              (sys'.callers[c].pc.result.None? <==> EverFails(sys, actions, c))
  {
    ErrsLater(sys, actions, c);
  }

  /** Where every call succeeds, every caller that returns has an image. */
  lemma {:induction false} NobodyFails(sys: Sys, actions: seq<Action>, c: CallerId)
    requires forall i :: 0 <= i < |actions| && actions[i].Advance? ==> actions[i].ok
    ensures !EverFails(sys, actions, c)
    decreases |actions|
  {
    if actions != [] && Step(sys, actions[0]).Some? {
      assert forall i :: 0 <= i < |actions[1..]| ==> actions[1..][i] == actions[i + 1];
      NobodyFails(Step(sys, actions[0]).value, actions[1..], c);
    }
  }

  /** A probe that finds the image on disk is answered from there: no slot, no pull. */
  lemma CacheHit(sys: Sys, c: CallerId, digest: Digest, newSlot: SlotId)
    requires c in sys.callers && sys.callers[c].pc.Probing? && digest in sys.done
    ensures Step(sys, Advance(c, true, digest, newSlot)).Some?
    ensures var sys' := Step(sys, Advance(c, true, digest, newSlot)).value;
            && sys'.callers[c].pc == Returned(None, Some(digest))
            && sys'.pulls == sys.pulls && sys'.inflight == sys.inflight && sys'.slots == sys.slots
  {
  }

  /** A waiter that wakes to an image on disk, and can read it, returns that image. */
  lemma WaiterIsServed(sys: Sys, c: CallerId, s: SlotId, digest: Digest, d: Digest, newSlot: SlotId)
    requires Reachable(sys) && c in sys.callers && sys.callers[c].pc == Woken(s)
    requires s in sys.slots && sys.slots[s].resolved == Some(digest) && digest in sys.done
    ensures Step(sys, Advance(c, true, d, newSlot)).Some?
    ensures Step(sys, Advance(c, true, d, newSlot)).value.callers[c].pc == Returned(Some(s), Some(digest))
    ensures (sys.callers[c].imageRef, digest) in sys.pulls
  {
    ReachableInv(sys);
    assert CallerOk(sys, c) && SlotOk(sys, s);
  }

  // ---- termination ----

  /** The caller led a pull of `r` and came back with nothing that can be loaded. */
  predicate FailedLeader(sys: Sys, d: CallerId, r: Ref)
    requires d in sys.callers
  {
    var you := sys.callers[d];
    && you.imageRef == r && you.led.Some? && you.pc.Returned?
    && (you.pc.result.None? || you.pc.result.value in sys.broken)
  }

  function FailedOthers(sys: Sys, c: CallerId): set<CallerId>
    requires c in sys.callers
  {
    set d | d in sys.callers && d != c && FailedLeader(sys, d, sys.callers[c].imageRef)
  }

  lemma {:induction false} DistinctLeaders(sys: Sys, visited: set<SlotId>, leaders: set<CallerId>)
    requires forall s :: s in visited ==> s in sys.slots && sys.slots[s].leader in leaders
    requires forall s, u :: s in visited && u in visited && sys.slots[s].leader == sys.slots[u].leader ==> s == u
    ensures |visited| <= |leaders|
  {
    if visited != {} {
      var s :| s in visited;
      DistinctLeaders(sys, visited - {s}, leaders - {sys.slots[s].leader});
    }
  }

  /**
   * Every retry of a waiter is paid for by a different caller whose pull of
   * the same reference failed, and who never leads again.
   */
  lemma RetriesAreCharged(sys: Sys, c: CallerId)
    requires Reachable(sys) && c in sys.callers
    ensures |sys.callers[c].visited| <= |FailedOthers(sys, c)|
    ensures sys.callers[c].steps <= 3 * |FailedOthers(sys, c)| + 6
  {
    ReachableInv(sys);
    ChargeHolds(sys, c);
  }

  lemma ChargeHolds(sys: Sys, c: CallerId)
    requires Inv(sys) && c in sys.callers
    ensures |sys.callers[c].visited| <= |FailedOthers(sys, c)|
    ensures sys.callers[c].steps <= 3 * |FailedOthers(sys, c)| + 6
  {
    assert CallerOk(sys, c);
    var visited := sys.callers[c].visited;
    forall s | s in visited
      ensures s in sys.slots && sys.slots[s].leader in FailedOthers(sys, c)
      ensures sys.callers[sys.slots[s].leader].led == Some(s)
    {
      assert VisitOk(sys, c, s) && Barren(sys, s) && SlotOk(sys, s);
      assert CallerOk(sys, sys.slots[s].leader);
    }
    DistinctLeaders(sys, visited, FailedOthers(sys, c));
  }

  /** No deadlock: as long as a caller has not returned, some caller can take a step. */
  lemma SomebodyCanMove(sys: Sys, c: CallerId) returns (a: Action)
    requires Reachable(sys) && c in sys.callers && !sys.callers[c].pc.Returned?
    ensures a.Advance? && Step(sys, a).Some?
  {
    ReachableInv(sys);
    var unused := UnusedSlot(sys.slots.Keys);
    a := Advance(c, true, "", unused);
    assert CallerOk(sys, c);
    if sys.callers[c].pc.Waiting? && sys.slots[sys.callers[c].pc.slot].locked {
      var leader := sys.slots[sys.callers[c].pc.slot].leader;
      assert SlotOk(sys, sys.callers[c].pc.slot);
      assert CallerOk(sys, leader);
      a := Advance(leader, true, "", unused);
    }
  }

  lemma UnusedSlot(used: set<SlotId>) returns (s: SlotId)
    ensures s !in used
  {
    s := 0;
    ghost var below: set<SlotId> := {};
    while s in used
      invariant below <= used && |below| == s && forall u: SlotId :: u in below <==> u < s
      decreases used - below
    {
      below, s := below + {s}, s + 1;
    }
  }

  /** Arrivals and steps of the callers numbered below `n`. */
  function Activity(callers: map<CallerId, Caller>, n: nat): nat {
    if n == 0 then 0
    else Activity(callers, n - 1) + if n - 1 in callers then 1 + callers[n - 1].steps else 0
  }

  lemma {:induction false} ActivityOther(callers: map<CallerId, Caller>, c: CallerId, me: Caller, n: nat)
    requires n <= c
    ensures Activity(callers[c := me], n) == Activity(callers, n)
  {
    if n > 0 { ActivityOther(callers, c, me, n - 1); }
  }

  lemma {:induction false} ActivityCounts(callers: map<CallerId, Caller>, c: CallerId, me: Caller, n: nat)
    requires c < n
    requires if c in callers then me.steps == callers[c].steps + 1 else me.steps == 0
    ensures Activity(callers[c := me], n) == Activity(callers, n) + 1
  {
    if c == n - 1 { ActivityOther(callers, c, me, c); } else { ActivityCounts(callers, c, me, n - 1); }
  }

  predicate Below(sys: Sys, n: nat) {
    forall c :: c in sys.callers ==> c < n
  }

  lemma StepMovesOne(sys: Sys, a: Action, sys': Sys)
    requires Step(sys, a) == Some(sys')
    ensures a.c in sys'.callers && sys'.callers == sys.callers[a.c := sys'.callers[a.c]]
    ensures sys'.callers[a.c].steps == if a.c in sys.callers then sys.callers[a.c].steps + 1 else 0
  {
    if a.Advance? && sys.callers[a.c].pc.Claiming? {
      ClaimMovesOne(sys, a.c, a.newSlot);
    } else if a.Advance? && sys.callers[a.c].pc.Woken? {
      ReadMovesOne(sys, a.c, sys.callers[a.c].pc.slot, a.ok);
    }
  }

  lemma ClaimMovesOne(sys: Sys, c: CallerId, newSlot: SlotId)
    requires c in sys.callers
    ensures var sys' := Claim(sys, c, newSlot);
            && c in sys'.callers && sys'.callers == sys.callers[c := sys'.callers[c]]
            && sys'.callers[c].steps == sys.callers[c].steps + 1
  {
  }

  lemma ReadMovesOne(sys: Sys, c: CallerId, s: SlotId, ok: bool)
    requires c in sys.callers && s in sys.slots
    ensures var sys' := ReadSlot(sys, c, s, ok);
            && c in sys'.callers && sys'.callers == sys.callers[c := sys'.callers[c]]
            && sys'.callers[c].steps == sys.callers[c].steps + 1
  {
  }

  lemma StepCounts(sys: Sys, a: Action, sys': Sys, n: nat)
    requires Step(sys, a) == Some(sys') && Below(sys', n)
    ensures Below(sys, n) && Activity(sys'.callers, n) == Activity(sys.callers, n) + 1
  {
    StepMovesOne(sys, a, sys');
    forall c | c in sys.callers ensures c < n { assert c in sys'.callers; }
    ActivityCounts(sys.callers, a.c, sys'.callers[a.c], n);
  }

  lemma RunCounts(sys: Sys, actions: seq<Action>, n: nat)
    requires Run(sys, actions).Some? && Below(Run(sys, actions).value, n)
    ensures Below(sys, n) && Activity(Run(sys, actions).value.callers, n) == Activity(sys.callers, n) + |actions|
    decreases |actions|
  {
    if actions != [] {
      var sys' := Step(sys, actions[0]).value;
      RunCounts(sys', actions[1..], n);
      StepCounts(sys, actions[0], sys', n);
    }
  }

  lemma {:induction false} ActivityBound(callers: map<CallerId, Caller>, n: nat, most: nat)
    requires forall c :: c in callers ==> callers[c].steps < most
    ensures Activity(callers, n) <= n * most
  {
    if n > 0 {
      ActivityBound(callers, n - 1, most);
      assert n * most == (n - 1) * most + most;
    }
  }

  lemma {:induction false} FewBelow(s: set<CallerId>, n: nat)
    requires forall c :: c in s ==> c < n
    ensures |s| <= n
  {
    if n > 0 {
      FewBelow(s - {n - 1}, n - 1);
    } else {
      assert s == {};
    }
  }

  /**
   * The protocol terminates: `n` callers take at most 3n + 6 steps each, so no
   * schedule is longer than this, and by `SomebodyCanMove` one that
   * cannot be continued has brought every caller home.
   */
  lemma RunsAreShort(s0: Sys, actions: seq<Action>, n: nat)
    requires Init(s0) && Run(s0, actions).Some? && Below(Run(s0, actions).value, n)
    ensures |actions| <= n * (3 * n + 7)
  {
    var sys := Run(s0, actions).value;
    RunKeeps(s0, actions);
    forall c | c in sys.callers ensures sys.callers[c].steps < 3 * n + 7 {
      ChargeHolds(sys, c);
      FewBelow(FailedOthers(sys, c), n);
    }
    ActivityBound(sys.callers, n, 3 * n + 7);
    RunCounts(s0, actions, n);
    ActivityEmpty(n);
  }

  lemma {:induction false} ActivityEmpty(n: nat)
    ensures Activity(map[], n) == 0
  {
    if n > 0 { ActivityEmpty(n - 1); }
  }
}
