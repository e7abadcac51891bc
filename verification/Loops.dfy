/** The timer-driven loops: memory-pressure eviction and CPU accounting. */
module Loops {
  import opened Prelude
  import opened Handle

  // ---- hysteresis ----

  /**
   * What the loop is meant to do at tick `t`: some earlier tick engaged it,
   * and since then no reading reached `hi` and no eviction came back empty.
   * A tick without a reading does nothing at all.
   */
  ghost predicate ShouldEvict(readings: seq<Option<nat>>, found: seq<bool>, lo: nat, hi: nat, t: nat)
    requires t < |readings| == |found|
  {
    && readings[t].Some? && readings[t].value < hi
    && exists e :: 0 <= e <= t && EngagedSince(readings, found, lo, hi, e, t)
  }

  /** Tick `e` crossed `lo`, and nothing from then to before `t` disengaged the loop. */
  ghost predicate EngagedSince(readings: seq<Option<nat>>, found: seq<bool>, lo: nat, hi: nat, e: nat, t: nat)
    requires e <= t <= |readings| == |found|
  {
    && e < |readings| && readings[e].Some? && readings[e].value < lo
    && forall i :: e <= i < t && readings[i].Some? ==> readings[i].value < hi && found[i]
  }

  ghost predicate Engaged(readings: seq<Option<nat>>, found: seq<bool>, lo: nat, hi: nat, t: nat)
    requires t <= |readings| == |found|
  {
    exists e :: 0 <= e < t && EngagedSince(readings, found, lo, hi, e, t)
  }

  /** `found[t]` is whether the eviction of tick `t` would find a frozen app. */
  method MemoryPressureLoop(readings: seq<Option<nat>>, found: seq<bool>, lo: nat, hi: nat)
    returns (attempts: seq<bool>)
    requires |readings| == |found|
    ensures |attempts| == |readings|
    ensures forall t :: 0 <= t < |attempts| ==> (attempts[t] <==> ShouldEvict(readings, found, lo, hi, t))
  {
    attempts := [];
    var evicting := false;
    for t := 0 to |readings|
      invariant |attempts| == t
      invariant forall u :: 0 <= u < t ==> (attempts[u] <==> ShouldEvict(readings, found, lo, hi, u))
      invariant evicting <==> Engaged(readings, found, lo, hi, t)
    {
      EngagedStep(readings, found, lo, hi, t);
      if readings[t].None? {
        attempts := attempts + [false];
        continue;
      }
      var avail := readings[t].value;
      if !evicting && avail < lo {
        evicting := true;
      }
      if evicting && avail >= hi {
        evicting := false;
        attempts := attempts + [false];
        continue;
      }
      attempts := attempts + [evicting];
      if evicting && !found[t] {
        evicting := false;
      }
    }
  }

  /** How one tick decides, and what it leaves engaged. */
  lemma EngagedStep(readings: seq<Option<nat>>, found: seq<bool>, lo: nat, hi: nat, t: nat)
    requires t < |readings| == |found|
    ensures var low := Engaged(readings, found, lo, hi, t) || (readings[t].Some? && readings[t].value < lo);
            && (ShouldEvict(readings, found, lo, hi, t) <==> readings[t].Some? && low && readings[t].value < hi)
            && (Engaged(readings, found, lo, hi, t + 1) <==>
                  if readings[t].None? then Engaged(readings, found, lo, hi, t)
                  else low && readings[t].value < hi && found[t])
  {
    if e :| 0 <= e < t && EngagedSince(readings, found, lo, hi, e, t) {
      assert readings[t].None? || (readings[t].value < hi && found[t]) ==>
               EngagedSince(readings, found, lo, hi, e, t + 1);
    }
    if readings[t].Some? && readings[t].value < lo {
      assert EngagedSince(readings, found, lo, hi, t, t);
      assert readings[t].value < hi && found[t] ==> EngagedSince(readings, found, lo, hi, t, t + 1);
    }
    var next := t + 1;
    if Engaged(readings, found, lo, hi, next) {
      var e :| 0 <= e < next && EngagedSince(readings, found, lo, hi, e, next);
      assert EngagedSince(readings, found, lo, hi, e, t);
    }
  }

  // ---- least recently used ----

  /** What the eviction looks at: is the app frozen, and when was it last used. */
  datatype Candidate = Candidate(frozen: bool, lastAccess: nat)

  /** The first of the frozen apps that were used longest ago. */
  predicate IsVictim(apps: seq<Candidate>, k: nat) {
    && k < |apps| && apps[k].frozen
    && (forall j :: 0 <= j < |apps| && apps[j].frozen ==> apps[k].lastAccess <= apps[j].lastAccess)
    && (forall j :: 0 <= j < k && apps[j].frozen ==> apps[k].lastAccess < apps[j].lastAccess)
  }

  function Frozen(apps: seq<Candidate>): nat {
    if apps == [] then 0 else Frozen(apps[..|apps| - 1]) + if apps[|apps| - 1].frozen then 1 else 0
  }

  /** The eviction stopped app `k`. */
  function Evicted(apps: seq<Candidate>, k: nat): seq<Candidate>
    requires k < |apps|
  {
    apps[k := apps[k].(frozen := false)]
  }

  ghost function Candidates(handles: seq<HandleInner>): seq<Candidate>
    reads handles
  {
    seq(|handles|, i requires 0 <= i < |handles| reads handles =>
      Candidate(handles[i].state.Frozen?, handles[i].lastAccess))
  }

  /** Stops the victim, and nothing else; false exactly when no app is frozen. */
  method EvictLruFrozen(handles: seq<HandleInner>) returns (evicted: bool)
    requires forall i, j :: 0 <= i < j < |handles| ==> handles[i] != handles[j]
    modifies handles
    ensures evicted <==> exists k: nat :: IsVictim(old(Candidates(handles)), k)
    ensures !evicted ==> Candidates(handles) == old(Candidates(handles)) && Frozen(Candidates(handles)) == 0
    ensures evicted ==>
              exists k: nat ::
                && IsVictim(old(Candidates(handles)), k)
                && Candidates(handles) == Evicted(old(Candidates(handles)), k) && handles[k].state == Stopped
                && handles[k].cpuBaseline == 0
                && forall j :: 0 <= j < |handles| && j != k ==>
                   handles[j].state == old(handles[j].state) && handles[j].cpuBaseline == old(handles[j].cpuBaseline)
    ensures !evicted ==> forall h :: h in handles ==> unchanged(h)
    ensures forall h :: h in handles ==> unchanged(h`currentSlot, h`rollouts, h`imageDigest, h`lastAccess)
  {
    ghost var apps := Candidates(handles);
    var candidate: Option<nat> := None;
    for i := 0 to |handles|
      invariant candidate.None? ==> forall j :: 0 <= j < i ==> !apps[j].frozen
      invariant candidate.Some? ==> candidate.value < i && IsVictim(apps[..i], candidate.value)
      invariant forall j :: 0 <= j < |handles| ==> apps[j] == Candidate(handles[j].state.Frozen?, handles[j].lastAccess)
    {
      if handles[i].state.Frozen? && (candidate.None? || handles[i].lastAccess < handles[candidate.value].lastAccess) {
        candidate := Some(i);
      }
    }
    assert apps[..|handles|] == apps;
    if candidate.None? {
      NoneFrozen(apps);
      return false;
    }
    var k := candidate.value;
    var _ := handles[k].BeginStop();
    handles[k].FinishStop();
    assert Candidates(handles) == Evicted(apps, k);
    evicted := true;
  }

  lemma {:induction false} NoneFrozen(apps: seq<Candidate>)
    ensures Frozen(apps) == 0 <==> forall j :: 0 <= j < |apps| ==> !apps[j].frozen
  {
    if apps != [] { NoneFrozen(apps[..|apps| - 1]); }
  }

  lemma {:induction false} EvictionCounts(apps: seq<Candidate>, k: nat)
    requires k < |apps| && apps[k].frozen
    ensures Frozen(Evicted(apps, k)) == Frozen(apps) - 1
  {
    var front := apps[..|apps| - 1];
    if k == |front| {
      assert Evicted(apps, k)[..|front|] == front;
    } else {
      EvictionCounts(front, k);
      assert Evicted(apps, k)[..|front|] == Evicted(front, k);
    }
  }

  /** `order` is a sequence of evictions with nothing else going on. */
  predicate EvictionRun(apps: seq<Candidate>, order: seq<nat>)
    decreases |order|
  {
    order == [] || (IsVictim(apps, order[0]) && EvictionRun(Evicted(apps, order[0]), order[1..]))
  }

  function AfterRun(apps: seq<Candidate>, order: seq<nat>): seq<Candidate>
    requires EvictionRun(apps, order)
    decreases |order|
  {
    if order == [] then apps else AfterRun(Evicted(apps, order[0]), order[1..])
  }

  /**
   * Repeated evictions go through the frozen apps in order of last use, each
   * app once, one fewer frozen app each time, and end when none is left.
   */
  lemma {:induction false} EvictionsFollowLastUse(apps: seq<Candidate>, order: seq<nat>)
    requires EvictionRun(apps, order)
    ensures forall i :: 0 <= i < |order| ==> order[i] < |apps| && apps[order[i]].frozen
    ensures forall i, j :: 0 <= i < j < |order| ==>
              order[i] != order[j] && apps[order[i]].lastAccess <= apps[order[j]].lastAccess
    ensures Frozen(AfterRun(apps, order)) == Frozen(apps) - |order|
    ensures (exists k: nat :: IsVictim(AfterRun(apps, order), k)) <==> |order| < Frozen(apps)
    decreases |order|
  {
    if order == [] {
      VictimExists(apps);
    } else {
      var rest := Evicted(apps, order[0]);
      EvictionCounts(apps, order[0]);
      EvictionsFollowLastUse(rest, order[1..]);
      assert forall i :: 0 < i < |order| ==> order[i] == order[1..][i - 1];
    }
  }

  lemma {:induction false} VictimExists(apps: seq<Candidate>)
    ensures (exists k: nat :: IsVictim(apps, k)) <==> Frozen(apps) > 0
  {
    NoneFrozen(apps);
    if Frozen(apps) > 0 {
      var front, last := apps[..|apps| - 1], |apps| - 1;
      VictimExists(front);
      if Frozen(front) == 0 {
        NoneFrozen(front);
        assert IsVictim(apps, last);
      } else {
        var k: nat :| IsVictim(front, k);
        assert forall j :: 0 <= j < |apps| ==> j == last || apps[j] == front[j];
        if apps[last].frozen && apps[last].lastAccess < apps[k].lastAccess {
          assert IsVictim(apps, last);
        } else {
          assert IsVictim(apps, k);
        }
      }
    }
  }

  // ---- CPU accounting ----

  datatype Event = Sample(usec: nat) | Halt

  /** What the counter is incremented by, and the new baseline. */
  method EmitSample(inner: HandleInner, usec: nat) returns (delta: nat)
    modifies inner`cpuBaseline
    ensures inner.cpuBaseline == usec
    ensures delta == if usec >= old(inner.cpuBaseline) then usec - old(inner.cpuBaseline) else usec
  {
    var last := inner.cpuBaseline;
    inner.cpuBaseline := usec;
    delta := if usec >= last then usec - last else usec;
  }

  /** The last sample of a run: what follows is a backward step, a stop, or nothing. */
  predicate EndsRun(events: seq<Event>, i: nat)
    requires i < |events|
  {
    events[i].Sample? && (i + 1 < |events| && events[i + 1].Sample? ==> events[i + 1].usec < events[i].usec)
  }

  function FinalSamples(events: seq<Event>, n: nat): nat
    requires n <= |events|
  {
    if n == 0 then 0
    else FinalSamples(events, n - 1) + if EndsRun(events, n - 1) then events[n - 1].usec else 0
  }

  /** An event changes the ends of runs only at the sample just before it. */
  lemma {:induction false} FinalSamplesPrefix(events: seq<Event>, m: nat, n: nat)
    requires n < m <= |events|
    ensures FinalSamples(events, n) == FinalSamples(events[..m], n)
  {
    if n > 0 { FinalSamplesPrefix(events, m, n - 1); }
  }

  /** The baseline after a prefix of the events. */
  function Baseline(events: seq<Event>): nat {
    if events == [] || events[|events| - 1].Halt? then 0 else events[|events| - 1].usec
  }

  lemma FinalSamplesGrow(events: seq<Event>, n: nat)
    requires n < |events|
    ensures FinalSamples(events[..n + 1], n + 1) ==
              FinalSamples(events[..n], n) +
              if events[n].Halt? then 0
              else if events[n].usec >= Baseline(events[..n]) then events[n].usec - Baseline(events[..n])
              else events[n].usec
  {
    var more, less := events[..n + 1], events[..n];
    if n > 0 {
      FinalSamplesPrefix(more, n, n - 1);
      assert more[..n] == less;
    }
  }

  /**
   * The counter is conserved: it ends at the sum of the final samples of all
   * maximal non-decreasing runs, where a stop ends a run.
   */
  method Account(inner: HandleInner, events: seq<Event>) returns (total: nat)
    requires inner.cpuBaseline == 0
    modifies inner`cpuBaseline, inner`state
    ensures total == FinalSamples(events, |events|)
    ensures inner.cpuBaseline == Baseline(events)
  {
    total := 0;
    for i := 0 to |events|
      invariant total == FinalSamples(events[..i], i) && inner.cpuBaseline == Baseline(events[..i])
    {
      FinalSamplesGrow(events, i);
      match events[i] {
        case Sample(usec) =>
          var delta := EmitSample(inner, usec);
          total := total + delta;
        case Halt =>
          inner.FinishStop();
      }
    }
    assert events[..|events|] == events;
  }
}
