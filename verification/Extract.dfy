/**
 * Publishing an image on disk.  Any number of workers extract images, several
 * of them possibly the same one, and the process may die between any two
 * file-system calls; what later pulls trust is the completion marker.  The
 * startup sweep removes directories file by file, in no particular order, and
 * may break off anywhere.
 */
module Extract {
  import opened Prelude

  type WorkerId = nat

  datatype Path = Final(name: string) | Tmp(name: string, owner: WorkerId)

  /** The parts of an image directory: how many layers are in, and the two files. */
  datatype Dir = Dir(layers: nat, config: bool, done: bool)

  datatype Pc =
    | Clearing                // remove a left-over directory of the same name
    | Creating
    | WritingConfig
    | Unpacking
    | Marking
    | Checking                // is the final directory there already?
    | Renaming
    | Discarding
    | Finished(ok: bool)

  datatype Worker = Worker(name: string, pc: Pc)

  /**
   * `layersOf` is the number of layers of each image, fixed by its digest.
   * `damaged`: final directories that lost something to a removal that broke off.
   */
  datatype Sys = Sys(
    dirs: map<Path, Dir>,
    workers: map<WorkerId, Worker>,
    layersOf: map<string, nat>,
    damaged: set<string>)

  datatype Action =
    | Begin(w: WorkerId, name: string)
    | Advance(w: WorkerId, ok: bool)
    | Crash
    | Remove(path: Path, rest: Option<Dir>)     // the startup sweep; `rest` is what a broken-off removal leaves

  function At(sys: Sys, w: WorkerId, pc: Pc): Sys
    requires w in sys.workers
  {
    sys.(workers := sys.workers[w := sys.workers[w].(pc := pc)])
  }

  function Write(sys: Sys, path: Path, dir: Dir): Sys {
    sys.(dirs := sys.dirs[path := dir])
  }

  /** One file-system call of worker `w`; any of them may fail. */
  function Next(sys: Sys, w: WorkerId, ok: bool): Sys
    requires w in sys.workers && sys.workers[w].name in sys.layersOf
  {
    var name := sys.workers[w].name;
    var tmp := Tmp(name, w);
    if !ok || sys.workers[w].pc.Finished? then At(sys, w, Finished(sys.workers[w].pc == Finished(true)))
    else
      match sys.workers[w].pc
      case Clearing => At(sys.(dirs := sys.dirs - {tmp}), w, Creating)
      case Creating => At(Write(sys, tmp, Dir(0, false, false)), w, WritingConfig)
      case WritingConfig =>
        if tmp !in sys.dirs then At(sys, w, Finished(false))
        else At(Write(sys, tmp, sys.dirs[tmp].(config := true)), w, Unpacking)
      case Unpacking =>
        if tmp !in sys.dirs then At(sys, w, Finished(false))
        else if sys.dirs[tmp].layers < sys.layersOf[name] then
          Write(sys, tmp, sys.dirs[tmp].(layers := sys.dirs[tmp].layers + 1))
        else At(sys, w, Marking)
      case Marking =>
        if tmp !in sys.dirs then At(sys, w, Finished(false))
        else At(Write(sys, tmp, sys.dirs[tmp].(done := true)), w, Checking)
      case Checking => At(sys, w, if Final(name) in sys.dirs then Discarding else Renaming)
      case Renaming =>
        // a rename onto a directory that is not empty fails
        if tmp in sys.dirs && Final(name) !in sys.dirs then
          At(sys.(dirs := (sys.dirs - {tmp})[Final(name) := sys.dirs[tmp]]), w, Finished(true))
        else At(sys, w, Finished(false))
      case Discarding => At(sys.(dirs := sys.dirs - {tmp}), w, Finished(true))
      case Finished(_) => sys
  }

  /** A removal takes files away and adds none. */
  predicate PartOf(rest: Dir, dir: Dir) {
    rest.layers <= dir.layers && (rest.config ==> dir.config) && (rest.done ==> dir.done)
  }

  function Step(sys: Sys, a: Action): Option<Sys> {
    match a
    case Begin(w, name) =>
      if w in sys.workers || name !in sys.layersOf then None
      else Some(sys.(workers := sys.workers[w := Worker(name, Clearing)]))
    case Advance(w, ok) =>
      if w in sys.workers && sys.workers[w].name in sys.layersOf then Some(Next(sys, w, ok)) else None
    case Crash => Some(sys.(workers := map[]))
    case Remove(path, None) =>
      if sys.workers != map[] || path !in sys.dirs then None
      else
        Some(sys.(dirs := sys.dirs - {path},
                  damaged := if path.Final? then sys.damaged - {path.name} else sys.damaged))
    case Remove(path, Some(rest)) =>
      if sys.workers != map[] || path !in sys.dirs || !PartOf(rest, sys.dirs[path]) then None
      else
        Some(Write(sys, path, rest).(
               damaged := if path.Final? && rest != sys.dirs[path] then sys.damaged + {path.name} else sys.damaged))
  }

  /** What a pull or a start reads back: only the marker and the configuration are looked at. */
  datatype Loaded = Absent | Unreadable | Image

  function Load(sys: Sys, name: string): Loaded {
    if Final(name) !in sys.dirs || !sys.dirs[Final(name)].done then Absent
    else if !sys.dirs[Final(name)].config then Unreadable
    else Image
  }

  // ---- the invariant ----

  predicate Complete(sys: Sys, name: string, dir: Dir) {
    name in sys.layersOf && dir == Dir(sys.layersOf[name], true, true)
  }

  /** A final directory appears complete, and is complete exactly as long as no removal broke off in it. */
  predicate FinalOk(sys: Sys, name: string) {
    && (Final(name) in sys.dirs ==>
          && name in sys.layersOf && PartOf(sys.dirs[Final(name)], Dir(sys.layersOf[name], true, true))
          && (Complete(sys, name, sys.dirs[Final(name)]) <==> name !in sys.damaged))
    && (name in sys.damaged ==> Final(name) in sys.dirs)
  }

  /** How far a worker's own directory is. */
  predicate WorkerOk(sys: Sys, w: WorkerId) {
    w in sys.workers ==>
      var name := sys.workers[w].name;
      var tmp := Tmp(name, w);
      && name in sys.layersOf
      && match sys.workers[w].pc
         case Clearing => true
         case Creating => tmp !in sys.dirs
         case WritingConfig => tmp in sys.dirs && sys.dirs[tmp] == Dir(0, false, false)
         case Unpacking =>
           && tmp in sys.dirs && sys.dirs[tmp].layers <= sys.layersOf[name]
           && sys.dirs[tmp].config && !sys.dirs[tmp].done
         case Marking => tmp in sys.dirs && sys.dirs[tmp] == Dir(sys.layersOf[name], true, false)
         case Checking => tmp in sys.dirs && Complete(sys, name, sys.dirs[tmp])
         case Renaming => tmp in sys.dirs && Complete(sys, name, sys.dirs[tmp])
         case Discarding => tmp in sys.dirs && Final(name) in sys.dirs
         case Finished(ok) => ok ==> Final(name) in sys.dirs
  }

  ghost predicate Inv(sys: Sys) {
    && (forall name {:trigger FinalOk(sys, name)} :: FinalOk(sys, name))
    && (forall w {:trigger WorkerOk(sys, w)} :: WorkerOk(sys, w))
  }

  predicate Init(sys: Sys) { sys.dirs == map[] && sys.workers == map[] && sys.damaged == {} }

  /** What worker `w` leaves alone. */
  ghost predicate Frame(sys: Sys, w: WorkerId, sys': Sys) {
    && w in sys.workers && sys'.layersOf == sys.layersOf && sys'.damaged == sys.damaged
    && (forall u :: u != w ==>
          && (u in sys'.workers <==> u in sys.workers)
          && (u in sys.workers ==> sys'.workers[u] == sys.workers[u]))
    && (forall path :: path in sys.dirs && path != Tmp(sys.workers[w].name, w) ==>
          path in sys'.dirs && sys'.dirs[path] == sys.dirs[path])
    && (forall path :: path in sys'.dirs && path !in sys.dirs ==>
          || path == Tmp(sys.workers[w].name, w)
          || (path == Final(sys.workers[w].name) && Complete(sys, path.name, sys'.dirs[path])))
  }

  lemma FrameKeeps(sys: Sys, w: WorkerId, sys': Sys)
    requires Inv(sys) && Frame(sys, w, sys') && WorkerOk(sys', w)
    ensures Inv(sys')
  {
    forall name ensures FinalOk(sys', name) { assert FinalOk(sys, name); }
    forall u ensures WorkerOk(sys', u) { assert WorkerOk(sys, u); }
  }

  lemma NextKeeps(sys: Sys, w: WorkerId, ok: bool)
    requires Inv(sys) && w in sys.workers && sys.workers[w].name in sys.layersOf
    ensures Inv(Next(sys, w, ok))
  {
    assert WorkerOk(sys, w);
    FrameKeeps(sys, w, Next(sys, w, ok));
  }

  /** Every file-system call, crash and removal, whole or broken off, keeps the invariant. */
  lemma StepKeeps(sys: Sys, a: Action, sys': Sys)
    requires Inv(sys) && Step(sys, a) == Some(sys')
    ensures Inv(sys')
  {
    if a.Advance? {
      NextKeeps(sys, a.w, a.ok);
    } else {
      forall name ensures FinalOk(sys', name) { assert FinalOk(sys, name); }
      forall u ensures WorkerOk(sys', u) { assert WorkerOk(sys, u); }
    }
  }

  function Run(sys: Sys, actions: seq<Action>): Option<Sys>
    decreases |actions|
  {
    if actions == [] then Some(sys)
    else
      match Step(sys, actions[0])
      case None => None
      case Some(sys') => Run(sys', actions[1..])
  }

  lemma RunKeeps(sys: Sys, actions: seq<Action>)
    requires Inv(sys) && Run(sys, actions).Some?
    ensures Inv(Run(sys, actions).value)
    decreases |actions|
  {
    if actions != [] {
      StepKeeps(sys, actions[0], Step(sys, actions[0]).value);
      RunKeeps(Step(sys, actions[0]).value, actions[1..]);
    }
  }

  // ---- what can be trusted ----

  /** Loaded, with its configuration and all its layers. */
  predicate LoadsWhole(sys: Sys, name: string) {
    Load(sys, name) == Image && Complete(sys, name, sys.dirs[Final(name)])
  }

  /** It loads, or fails to be read, although something of it is missing. */
  predicate LoadsDamaged(sys: Sys, name: string) {
    !Load(sys, name).Absent? && !Complete(sys, name, sys.dirs[Final(name)])
  }

  /**
   * Whatever raced or crashed: a final directory loads with everything that
   * belongs to it if and only if no removal broke off in it.
   */
  lemma FinalLoadsWhole(sys: Sys, actions: seq<Action>, name: string)
    requires Init(sys) && Run(sys, actions).Some?
    ensures var sys' := Run(sys, actions).value;
            LoadsWhole(sys', name) <==> Final(name) in sys'.dirs && name !in sys'.damaged
  {
    RunKeeps(sys, actions);
    assert FinalOk(Run(sys, actions).value, name);
  }

  /**
   * A worker that reports success has published its image, or has deferred to
   * a directory that is already there: its answer loads whole if and only if
   * that directory was not damaged before.
   */
  lemma SuccessLoadsWhole(sys: Sys, actions: seq<Action>, w: WorkerId)
    requires Init(sys) && Run(sys, actions).Some?
    requires w in Run(sys, actions).value.workers && Run(sys, actions).value.workers[w].pc == Finished(true)
    ensures var sys' := Run(sys, actions).value;
            LoadsWhole(sys', sys'.workers[w].name) <==> sys'.workers[w].name !in sys'.damaged
  {
    RunKeeps(sys, actions);
    var sys' := Run(sys, actions).value;
    assert WorkerOk(sys', w) && FinalOk(sys', sys'.workers[w].name);
  }

  /** The action is a removal that breaks off after taking something, but not the marker. */
  predicate LeavesMarker(sys: Sys, a: Action) {
    && a.Remove? && a.rest.Some? && a.path.Final? && a.path in sys.dirs
    && a.rest.value != sys.dirs[a.path] && a.rest.value.done
  }

  ghost predicate NeverLoadsDamaged(sys: Sys) {
    forall name :: !LoadsDamaged(sys, name)
  }

  /**
   * As long as nothing damaged loads, a step keeps it so if and only if it is
   * not a removal that breaks off with the marker still in place.
   */
  lemma DamageLoadsExactly(sys: Sys, a: Action, sys': Sys)
    requires Inv(sys) && NeverLoadsDamaged(sys) && Step(sys, a) == Some(sys')
    ensures NeverLoadsDamaged(sys') <==> !LeavesMarker(sys, a)
  {
    StepKeeps(sys, a, sys');
    if LeavesMarker(sys, a) {
      assert FinalOk(sys, a.path.name) && FinalOk(sys', a.path.name);
      assert LoadsDamaged(sys', a.path.name);
    } else {
      forall name ensures !LoadsDamaged(sys', name) {
        assert FinalOk(sys, name) && FinalOk(sys', name) && !LoadsDamaged(sys, name);
        if a.Advance? { FinalStays(sys, a.w, a.ok, name); }
      }
    }
  }

  /** Every removal in the run that breaks off has taken the marker, or nothing. */
  predicate MarkerGoesFirst(sys: Sys, actions: seq<Action>)
    decreases |actions|
  {
    actions == [] || Step(sys, actions[0]).None? ||
    (!LeavesMarker(sys, actions[0]) && MarkerGoesFirst(Step(sys, actions[0]).value, actions[1..]))
  }

  /** In such runs whatever loads is whole, and what is damaged reads as absent. */
  lemma MarkerFirstIsSafe(sys: Sys, actions: seq<Action>)
    requires Inv(sys) && NeverLoadsDamaged(sys) && Run(sys, actions).Some? && MarkerGoesFirst(sys, actions)
    ensures NeverLoadsDamaged(Run(sys, actions).value)
    decreases |actions|
  {
    if actions != [] {
      var sys' := Step(sys, actions[0]).value;
      StepKeeps(sys, actions[0], sys');
      DamageLoadsExactly(sys, actions[0], sys');
      MarkerFirstIsSafe(sys', actions[1..]);
    }
  }

  /** A worker never touches a final directory that is already there. */
  lemma FinalStays(sys: Sys, w: WorkerId, ok: bool, name: string)
    requires w in sys.workers && sys.workers[w].name in sys.layersOf
    ensures Final(name) in sys.dirs ==>
              Final(name) in Next(sys, w, ok).dirs && Next(sys, w, ok).dirs[Final(name)] == sys.dirs[Final(name)]
    ensures Next(sys, w, ok).damaged == sys.damaged && Next(sys, w, ok).layersOf == sys.layersOf
  {
  }

  /** The run in question, in full: an image of one layer is published, and a sweep breaks off after the layer. */
  lemma DamagedImageLoads(name: string) returns (sys: Sys, actions: seq<Action>)
    ensures Init(sys) && Run(sys, actions).Some?
    ensures var sys' := Run(sys, actions).value;
            Load(sys', name) == Image && sys'.dirs[Final(name)] == Dir(0, true, true) && LoadsDamaged(sys', name)
  {
    sys := Sys(map[], map[], map[name := 1], {});
    var full := sys.(dirs := map[Final(name) := Dir(1, true, true)]);
    var sweep := Remove(Final(name), Some(Dir(0, true, true)));
    var tail := [Crash, sweep];
    assert tail[1..] == [sweep] && [sweep][1..] == [];
    actions := Publishes(sys, full, name, tail);
  }

  /** A worker extracts an image of one layer from start to end, and `tail` follows. */
  lemma Publishes(sys: Sys, full: Sys, name: string, tail: seq<Action>) returns (actions: seq<Action>)
    requires sys == Sys(map[], map[], map[name := 1], {})
    requires full == sys.(dirs := map[Final(name) := Dir(1, true, true)])
    requires |tail| > 0 && tail[0] == Crash
    ensures Run(sys, actions) == Run(full, tail[1..])
  {
    var go, begun := Advance(0, true), sys.(workers := map[0 := Worker(name, Clearing)]);
    var created := Next(Next(begun, 0, true), 0, true);
    var unpacked := Next(Next(created, 0, true), 0, true);
    assert unpacked == sys.(dirs := map[Tmp(name, 0) := Dir(1, true, false)],
                            workers := map[0 := Worker(name, Unpacking)]);
    actions := MarksAndRenames(unpacked, full, name, tail);
    actions := Prepend(Next(created, 0, true), go, unpacked, actions);
    actions := Prepend(created, go, Next(created, 0, true), actions);
    actions := Prepend(Next(begun, 0, true), go, created, actions);
    actions := Prepend(begun, go, Next(begun, 0, true), actions);
    actions := Prepend(sys, Begin(0, name), begun, actions);
  }

  /** ... from the last layer on. */
  lemma MarksAndRenames(unpacked: Sys, full: Sys, name: string, tail: seq<Action>) returns (actions: seq<Action>)
    requires full == Sys(map[Final(name) := Dir(1, true, true)], map[], map[name := 1], {})
    requires unpacked == full.(dirs := map[Tmp(name, 0) := Dir(1, true, false)],
                               workers := map[0 := Worker(name, Unpacking)])
    requires |tail| > 0 && tail[0] == Crash
    ensures Run(unpacked, actions) == Run(full, tail[1..])
  {
    var go, marked := Advance(0, true), Next(Next(unpacked, 0, true), 0, true);
    var checked := Next(marked, 0, true);
    var over := Next(checked, 0, true);
    assert over.dirs == full.dirs;
    actions := Prepend(over, Crash, full, tail[1..]);
    actions := Prepend(checked, go, over, actions);
    actions := Prepend(marked, go, checked, actions);
    actions := Prepend(Next(unpacked, 0, true), go, marked, actions);
    actions := Prepend(unpacked, go, Next(unpacked, 0, true), actions);
  }

  lemma Prepend(sys: Sys, a: Action, sys': Sys, rest: seq<Action>) returns (actions: seq<Action>)
    requires Step(sys, a) == Some(sys')
    ensures actions == [a] + rest && Run(sys, actions) == Run(sys', rest)
  {
    actions := [a] + rest;
    assert actions[1..] == rest;
  }

  /** A damaged directory is never repaired by pulling again, whatever the number of attempts. */
  lemma DamageStays(sys: Sys, actions: seq<Action>, name: string)
    requires Inv(sys) && name in sys.damaged && Run(sys, actions).Some?
    requires forall i :: 0 <= i < |actions| ==> actions[i] != Remove(Final(name), None)
    ensures !LoadsWhole(Run(sys, actions).value, name)
    decreases |actions|
  {
    assert FinalOk(sys, name);
    if actions != [] {
      var sys' := Step(sys, actions[0]).value;
      assert actions[0] != Remove(Final(name), None);
      StepKeeps(sys, actions[0], sys');
      assert name in sys'.damaged;
      forall i | 0 <= i < |actions[1..]| ensures actions[1..][i] != Remove(Final(name), None) {
        assert actions[1..][i] == actions[i + 1];
      }
      DamageStays(sys', actions[1..], name);
    }
  }

  // ---- exactly when a worker fails ----

  /** A worker that finds the image published when it looks discards its own copy and succeeds. */
  lemma LoserDefers(sys: Sys, w: WorkerId)
    requires Inv(sys) && w in sys.workers && sys.workers[w].pc == Checking && Final(sys.workers[w].name) in sys.dirs
    ensures var name := sys.workers[w].name;
            Run(sys, [Advance(w, true), Advance(w, true)]) ==
            Some(sys.(dirs := sys.dirs - {Tmp(name, w)}, workers := sys.workers[w := Worker(name, Finished(true))]))
  {
    assert WorkerOk(sys, w);
    var name, go := sys.workers[w].name, Advance(w, true);
    var mid := Step(sys, go).value;
    var end := sys.(dirs := sys.dirs - {Tmp(name, w)}, workers := sys.workers[w := Worker(name, Finished(true))]);
    assert Step(mid, go) == Some(end) by {
      assert sys.workers[w := Worker(name, Discarding)][w := Worker(name, Finished(true))] == end.workers;
    }
    assert [go, go][1..] == [go];
    assert Run(mid, [go]) == Run(end, []);
  }

  /** The next call of `w` fails, or its rename finds that another worker was faster. */
  predicate Fails(sys: Sys, a: Action, w: WorkerId) {
    && a.Advance? && a.w == w && w in sys.workers && !sys.workers[w].pc.Finished?
    && (!a.ok || (sys.workers[w].pc == Renaming && Final(sys.workers[w].name) in sys.dirs))
  }

  predicate EverFails(sys: Sys, actions: seq<Action>, w: WorkerId)
    decreases |actions|
  {
    && actions != [] && Step(sys, actions[0]).Some?
    && (Fails(sys, actions[0], w) || EverFails(Step(sys, actions[0]).value, actions[1..], w))
  }

  /** The calls that `w` has yet to make if all goes well and nobody is faster. */
  function CallsLeft(sys: Sys, w: WorkerId): int
    requires w in sys.workers && sys.workers[w].name in sys.layersOf
  {
    var layers, tmp := sys.layersOf[sys.workers[w].name], Tmp(sys.workers[w].name, w);
    match sys.workers[w].pc
    case Clearing => layers + 7
    case Creating => layers + 6
    case WritingConfig => layers + 5
    case Unpacking => layers + 4 - (if tmp in sys.dirs then sys.dirs[tmp].layers else 0)
    case Marking => 3
    case Checking => 2
    case Renaming => 1
    case Discarding => 1
    case Finished(_) => 0
  }

  predicate FailedNow(sys: Sys, w: WorkerId) { w in sys.workers && sys.workers[w].pc == Finished(false) }

  lemma NextFails(sys: Sys, w: WorkerId, ok: bool)
    requires Inv(sys) && w in sys.workers && sys.workers[w].name in sys.layersOf && !FailedNow(sys, w)
    ensures FailedNow(Next(sys, w, ok), w) <==> Fails(sys, Advance(w, ok), w)
  {
    assert WorkerOk(sys, w);
  }

  lemma NextCounts(sys: Sys, w: WorkerId, ok: bool)
    requires Inv(sys) && w in sys.workers && sys.workers[w].name in sys.layersOf
    ensures var sys' := Next(sys, w, ok);
            && w in sys'.workers && sys'.workers[w].name == sys.workers[w].name && sys'.layersOf == sys.layersOf
            && (!sys.workers[w].pc.Finished? ==> 0 <= CallsLeft(sys', w) < CallsLeft(sys, w))
            && (sys.workers[w].pc.Finished? ==> sys'.workers[w] == sys.workers[w])
  {
    assert WorkerOk(sys, w);
  }

  /** Another worker's call leaves `w` and its directory alone. */
  lemma OthersLeave(sys: Sys, a: Action, sys': Sys, w: WorkerId)
    requires Inv(sys) && Step(sys, a) == Some(sys') && !a.Crash? && w in sys.workers
    requires a.Advance? ==> a.w != w
    ensures sys'.layersOf == sys.layersOf && w in sys'.workers && sys'.workers[w] == sys.workers[w]
    ensures var tmp := Tmp(sys.workers[w].name, w);
            (tmp in sys'.dirs <==> tmp in sys.dirs) && (tmp in sys.dirs ==> sys'.dirs[tmp] == sys.dirs[tmp])
  {
    assert !a.Remove?;
  }

  function Calls(actions: seq<Action>, w: WorkerId): nat {
    if actions == [] then 0
    else Calls(actions[1..], w) + if actions[0].Advance? && actions[0].w == w then 1 else 0
  }

  /**
   * Until the next crash, among any others: a worker has failed exactly if a
   * call of its own failed or its rename came too late, and it is done after
   * its image's layers and seven more calls.
   */
  lemma FailsExactly(sys: Sys, actions: seq<Action>, w: WorkerId)
    requires Inv(sys) && w in sys.workers && Run(sys, actions).Some?
    requires forall i :: 0 <= i < |actions| ==> !actions[i].Crash?
    ensures var sys' := Run(sys, actions).value;
            && w in sys'.workers && sys'.workers[w].name == sys.workers[w].name
            && (FailedNow(sys', w) <==> FailedNow(sys, w) || EverFails(sys, actions, w))
            && sys.workers[w].name in sys.layersOf
            && (Calls(actions, w) >= sys.layersOf[sys.workers[w].name] + 7 ==> sys'.workers[w].pc.Finished?)
  {
    assert WorkerOk(sys, w);
    WorkerEnds(sys, actions, w);
  }

  lemma WorkerEnds(sys: Sys, actions: seq<Action>, w: WorkerId)
    requires Inv(sys) && w in sys.workers && sys.workers[w].name in sys.layersOf && Run(sys, actions).Some?
    requires forall i :: 0 <= i < |actions| ==> !actions[i].Crash?
    ensures var sys' := Run(sys, actions).value;
            && w in sys'.workers && sys'.workers[w].name == sys.workers[w].name
            && (FailedNow(sys', w) <==> FailedNow(sys, w) || EverFails(sys, actions, w))
            && (Calls(actions, w) >= CallsLeft(sys, w) ==> sys'.workers[w].pc.Finished?)
    decreases |actions|
  {
    if actions == [] {
      assert WorkerOk(sys, w);
    } else {
      var a, sys' := actions[0], Step(sys, actions[0]).value;
      StepKeeps(sys, a, sys');
      if a.Advance? && a.w == w {
        NextCounts(sys, w, a.ok);
        if !FailedNow(sys, w) { NextFails(sys, w, a.ok); }
      } else {
        OthersLeave(sys, a, sys', w);
      }
      WorkerEnds(sys', actions[1..], w);
    }
  }

  // ---- one extraction, undisturbed ----

  function Calling(w: WorkerId, n: nat): seq<Action> {
    if n == 0 then [] else [Advance(w, true)] + Calling(w, n - 1)
  }

  /** The disk once worker `w` has published `name`, or has found it there. */
  function Published(sys: Sys, w: WorkerId, name: string): Sys
    requires name in sys.layersOf
  {
    var rest := sys.dirs - {Tmp(name, w)};
    sys.(dirs := if Final(name) in sys.dirs then rest else rest[Final(name) := Dir(sys.layersOf[name], true, true)],
         workers := sys.workers[w := Worker(name, Finished(true))])
  }

  /** The world in the middle of an extraction that touches its own directory only. */
  function Midway(sys: Sys, w: WorkerId, name: string, dir: Dir, pc: Pc): Sys {
    sys.(dirs := sys.dirs[Tmp(name, w) := dir], workers := sys.workers[w := Worker(name, pc)])
  }

  lemma CallsOnce(sys: Sys, w: WorkerId, sys': Sys, n: nat)
    requires w in sys.workers && sys.workers[w].name in sys.layersOf && Next(sys, w, true) == sys'
    ensures Run(sys, Calling(w, n + 1)) == Run(sys', Calling(w, n))
  {
    assert Calling(w, n + 1)[1..] == Calling(w, n);
  }

  /** The end: marked, published or discarded. */
  lemma EndsPublished(sys: Sys, w: WorkerId, name: string, dir: Dir)
    requires name in sys.layersOf && dir == Dir(sys.layersOf[name], true, false)
    ensures Run(Midway(sys, w, name, dir, Marking), Calling(w, 3)) == Some(Published(sys, w, name))
  {
    var whole := dir.(done := true);
    var checking := Midway(sys, w, name, whole, Checking);
    var last := Midway(sys, w, name, whole, if Final(name) in sys.dirs then Discarding else Renaming);
    var end := Published(sys, w, name);
    assert Next(Midway(sys, w, name, dir, Marking), w, true) == checking;
    assert Next(checking, w, true) == last;
    assert last.dirs - {Tmp(name, w)} == sys.dirs - {Tmp(name, w)};
    assert Next(last, w, true) == end;
    CallsOnce(Midway(sys, w, name, dir, Marking), w, checking, 2);
    CallsOnce(checking, w, last, 1);
    CallsOnce(last, w, end, 0);
  }

  lemma {:induction false} Unpacks(sys: Sys, w: WorkerId, name: string, dir: Dir)
    requires name in sys.layersOf && dir.layers <= sys.layersOf[name] && dir == Dir(dir.layers, true, false)
    ensures Run(Midway(sys, w, name, dir, Unpacking), Calling(w, sys.layersOf[name] - dir.layers + 4))
            == Some(Published(sys, w, name))
    decreases sys.layersOf[name] - dir.layers
  {
    var left := sys.layersOf[name] - dir.layers;
    if left == 0 {
      EndsPublished(sys, w, name, dir);
      CallsOnce(Midway(sys, w, name, dir, Unpacking), w, Midway(sys, w, name, dir, Marking), 3);
    } else {
      var more := dir.(layers := dir.layers + 1);
      Unpacks(sys, w, name, more);
      assert Next(Midway(sys, w, name, dir, Unpacking), w, true) == Midway(sys, w, name, more, Unpacking);
      CallsOnce(Midway(sys, w, name, dir, Unpacking), w, Midway(sys, w, name, more, Unpacking), left + 3);
    }
  }

  /** The beginning: a left-over directory of the same name goes, and a new one is made. */
  lemma ClearsAndCreates(sys: Sys, w: WorkerId, name: string)
    requires w !in sys.workers && name in sys.layersOf
    ensures var n := sys.layersOf[name] + 4;
            Run(sys.(workers := sys.workers[w := Worker(name, Clearing)]), Calling(w, n + 3))
            == Run(Midway(sys, w, name, Dir(0, true, false), Unpacking), Calling(w, n))
  {
    var n, tmp := sys.layersOf[name] + 4, Tmp(name, w);
    var begun := sys.(workers := sys.workers[w := Worker(name, Clearing)]);
    var cleared := sys.(dirs := sys.dirs - {tmp}, workers := sys.workers[w := Worker(name, Creating)]);
    var created := Midway(sys, w, name, Dir(0, false, false), WritingConfig);
    assert Next(begun, w, true) == cleared;
    assert cleared.dirs[tmp := Dir(0, false, false)] == created.dirs;
    CallsOnce(begun, w, cleared, n + 2);
    CallsOnce(cleared, w, created, n + 1);
    CallsOnce(created, w, Midway(sys, w, name, Dir(0, true, false), Unpacking), n);
  }

  /**
   * An extraction left to itself, from any state of the disk: its layers and
   * seven more calls later the image is published whole, or, if a directory of
   * that name was there, whole or not, that one stays and the work is discarded.
   */
  lemma ExtractAlone(sys: Sys, w: WorkerId, name: string)
    requires w !in sys.workers && name in sys.layersOf
    ensures Run(sys, [Begin(w, name)] + Calling(w, sys.layersOf[name] + 7)) == Some(Published(sys, w, name))
  {
    var layers, begun := sys.layersOf[name], sys.(workers := sys.workers[w := Worker(name, Clearing)]);
    ClearsAndCreates(sys, w, name);
    Unpacks(sys, w, name, Dir(0, true, false));
    var all := [Begin(w, name)] + Calling(w, layers + 7);
    assert all[1..] == Calling(w, layers + 7);
  }
}
