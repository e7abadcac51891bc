/**
 * The rollout history and the digest cache of one handle, under any number of
 * starts, rollouts and spec changes.  Each section under the handle's lock,
 * each spec read and each pull is one step.
 */
module DigestProtocol {
  import opened Prelude
  import opened Handle

  type TaskId = nat
  type Digest = string

  /** `since`: how many rollouts had been recorded when what it holds was read. */
  datatype Pin = Pin(digest: Digest, since: nat)

  datatype Pc =
    // the first phases of do_start and build_to_slot
    | Starting(begun: nat)
    | SpecRead(begun: nat, repo: string)
    | TagRead(begun: nat, repo: string, tag: string, since: nat)
    | CacheRead(begun: nat, repo: string, tag: string, since: nat, pin: Option<Pin>)
    | Pulled(begun: nat, repo: string, tag: string, since: nat, pin: Option<Pin>, digest: Digest)
    | Resolved(begun: nat, repo: string, since: nat, digest: Digest)
    // set_rollout
    | Rollout(tag: string)
    | RepoRead(tag: string, repo: string)
    | RolloutPulled(tag: string, repo: string, digest: Digest)

  /**
   * `loaded` and `recorded` are the history since the handle was built,
   * `pulls` every digest the registry gave for a repository and a tag.
   */
  datatype Sys = Sys(
    repo: string,
    rollouts: seq<string>,
    cache: Option<DigestCache>,
    tasks: map<TaskId, Pc>,
    loaded: seq<string>,
    recorded: seq<string>,
    pulls: set<(string, string, Digest)>)

  datatype Action =
    | UpdateSpec(repo: string)
    | BeginStart(t: TaskId)
    | BeginRollout(t: TaskId, tag: string)
    | Advance(t: TaskId, ok: bool, digest: Digest)

  /** `repo:tag@digest`, unless the reference carries a digest already. */
  function DigestPinnedRef(image: string, digest: Option<Digest>): string {
    if digest.Some? && '@' !in image then image + "@" + digest.value else image
  }

  function ImageRef(repo: string, tag: string): string { repo + ":" + tag }

  predicate IsPinned(repo: string, tag: string, digest: Option<Digest>) {
    DigestPinnedRef(ImageRef(repo, tag), digest) != ImageRef(repo, tag)
  }

  /** The cached digest counts only for the repository it was resolved against. */
  function CachedFor(cache: Option<DigestCache>, repo: string): Option<Digest> {
    if cache.Some? && cache.value.repo == repo then Some(cache.value.digest) else None
  }

  function Record(sys: Sys, tag: string, repo: string, digest: Digest): Sys {
    sys.(rollouts := LastN(sys.rollouts + [tag], MAX_ROLLOUT_HISTORY),
         recorded := sys.recorded + [tag],
         cache := Some(DigestCache(repo, digest)))
  }

  /** The section of task `t` at `pc`; a failing call ends it. */
  function Next(sys: Sys, t: TaskId, pc: Pc, ok: bool, digest: Digest): Sys {
    var n := |sys.recorded|;
    match pc
    case Starting(begun) => sys.(tasks := sys.tasks[t := SpecRead(begun, sys.repo)])
    case SpecRead(begun, repo) =>
      if sys.rollouts == [] then sys.(tasks := sys.tasks - {t})
      else sys.(tasks := sys.tasks[t := TagRead(begun, repo, sys.rollouts[|sys.rollouts| - 1], n)])
    case TagRead(begun, repo, tag, since) =>
      var cached := CachedFor(sys.cache, repo);
      var pin := if IsPinned(repo, tag, cached) then Some(Pin(cached.value, n)) else None;
      sys.(tasks := sys.tasks[t := CacheRead(begun, repo, tag, since, pin)])
    case CacheRead(begun, repo, tag, since, pin) =>
      if !ok then sys.(tasks := sys.tasks - {t})
      else
        if pin.Some? then sys.(tasks := sys.tasks[t := Pulled(begun, repo, tag, since, pin, pin.value.digest)])
        else
          sys.(pulls := sys.pulls + {(repo, tag, digest)},
               tasks := sys.tasks[t := Pulled(begun, repo, tag, since, pin, digest)])
    case Pulled(begun, repo, tag, since, pin, d) =>
      var sys' := sys.(tasks := sys.tasks[t := Resolved(begun, repo, if pin.Some? then pin.value.since else since, d)]);
      if sys.cache.None? then sys'.(cache := Some(DigestCache(repo, d))) else sys'
    case Resolved(_, _, _, _) => sys.(tasks := sys.tasks - {t})
    case Rollout(tag) => sys.(tasks := sys.tasks[t := RepoRead(tag, sys.repo)])
    case RepoRead(tag, repo) =>
      if !ok then sys.(tasks := sys.tasks - {t})
      else
        sys.(pulls := sys.pulls + {(repo, tag, digest)},
             tasks := sys.tasks[t := RolloutPulled(tag, repo, digest)])
    case RolloutPulled(tag, repo, d) => Record(sys.(tasks := sys.tasks - {t}), tag, repo, d)
  }

  function Step(sys: Sys, a: Action): Option<Sys> {
    match a
    case UpdateSpec(repo) => Some(sys.(repo := repo))
    case BeginStart(t) =>
      if t in sys.tasks then None else Some(sys.(tasks := sys.tasks[t := Pc.Starting(|sys.recorded|)]))
    case BeginRollout(t, tag) =>
      if t in sys.tasks then None else Some(sys.(tasks := sys.tasks[t := Rollout(tag)]))
    case Advance(t, ok, digest) =>
      if t in sys.tasks then Some(Next(sys, t, sys.tasks[t], ok, digest)) else None
  }

  // ---- the invariant ----

  /** The history as it stood after `k` recorded rollouts, and its newest tag. */
  function Tags(sys: Sys, k: nat): seq<string>
    requires k <= |sys.recorded|
  {
    sys.loaded + sys.recorded[..k]
  }

  predicate CurrentAt(sys: Sys, k: nat, tag: string) {
    && k <= |sys.recorded| && Tags(sys, k) != []
    && Tags(sys, k)[|Tags(sys, k)| - 1] == tag
  }

  /** `d` is what the registry gave for `repo` at the tag that was current after `k` rollouts. */
  ghost predicate ImageAt(sys: Sys, repo: string, k: nat, d: Digest) {
    exists tag :: CurrentAt(sys, k, tag) && (repo, tag, d) in sys.pulls
  }

  predicate HistoryOk(sys: Sys) {
    sys.rollouts == if sys.recorded == [] then sys.loaded else LastN(sys.loaded + sys.recorded, MAX_ROLLOUT_HISTORY)
  }

  ghost predicate CacheOk(sys: Sys) {
    if sys.cache.None? then sys.recorded == []
    else ImageAt(sys, sys.cache.value.repo, |sys.recorded|, sys.cache.value.digest)
  }

  ghost predicate PinOk(sys: Sys, begun: nat, repo: string, pin: Option<Pin>) {
    pin.Some? ==> begun <= pin.value.since && ImageAt(sys, repo, pin.value.since, pin.value.digest)
  }

  ghost predicate TaskOk(sys: Sys, pc: Pc) {
    match pc
    case Starting(begun) => begun <= |sys.recorded|
    case SpecRead(begun, repo) => begun <= |sys.recorded|
    case TagRead(begun, repo, tag, since) => begun <= since && CurrentAt(sys, since, tag)
    case CacheRead(begun, repo, tag, since, pin) =>
      begun <= since && CurrentAt(sys, since, tag) && PinOk(sys, begun, repo, pin)
    case Pulled(begun, repo, tag, since, pin, d) =>
      && begun <= since && CurrentAt(sys, since, tag) && PinOk(sys, begun, repo, pin)
      && (if pin.Some? then d == pin.value.digest && sys.cache.Some? else (repo, tag, d) in sys.pulls)
    case Resolved(begun, repo, since, d) => begun <= since && ImageAt(sys, repo, since, d)
    case Rollout(_) => true
    case RepoRead(_, _) => true
    case RolloutPulled(tag, repo, d) => (repo, tag, d) in sys.pulls
  }

  /** A pin can only come from a cache that is present, and stays so. */
  predicate PinnedMeansCached(sys: Sys, pc: Pc) {
    (pc.CacheRead? || pc.Pulled?) && pc.pin.Some? ==> sys.cache.Some?
  }

  ghost predicate Inv(sys: Sys) {
    && HistoryOk(sys) && CacheOk(sys)
    && forall t {:trigger sys.tasks[t]} :: t in sys.tasks ==>
         TaskOk(sys, sys.tasks[t]) && PinnedMeansCached(sys, sys.tasks[t])
  }

  predicate Init(sys: Sys) {
    sys.rollouts == sys.loaded && sys.recorded == [] && sys.cache.None? && sys.tasks == map[] && sys.pulls == {}
  }

  // ---- what is true stays true ----

  /** Histories and pulls only grow, and a present cache never disappears. */
  predicate Grows(sys: Sys, sys': Sys) {
    && sys'.loaded == sys.loaded && sys.recorded <= sys'.recorded && sys.pulls <= sys'.pulls
    && (sys.cache.Some? ==> sys'.cache.Some?)
  }

  lemma CurrentStays(sys: Sys, sys': Sys, k: nat, tag: string)
    requires Grows(sys, sys') && CurrentAt(sys, k, tag)
    ensures CurrentAt(sys', k, tag)
  {
  }

  lemma ImageStays(sys: Sys, sys': Sys, repo: string, k: nat, d: Digest)
    requires Grows(sys, sys') && ImageAt(sys, repo, k, d)
    ensures ImageAt(sys', repo, k, d)
  {
  }

  lemma TaskStays(sys: Sys, sys': Sys, pc: Pc)
    requires Grows(sys, sys') && TaskOk(sys, pc) && PinnedMeansCached(sys, pc)
    ensures TaskOk(sys', pc) && PinnedMeansCached(sys', pc)
  {
    if pc.TagRead? || pc.CacheRead? || pc.Pulled? { CurrentStays(sys, sys', pc.since, pc.tag); }
    if (pc.CacheRead? || pc.Pulled?) && pc.pin.Some? {
      ImageStays(sys, sys', pc.repo, pc.pin.value.since, pc.pin.value.digest);
    }
    if pc.Resolved? { ImageStays(sys, sys', pc.repo, pc.since, pc.digest); }
  }

  lemma LastNSnoc<T>(s: seq<T>, x: T, n: nat)
    requires n > 0
    ensures LastN(LastN(s, n) + [x], n) == LastN(s + [x], n)
  {
  }

  /** The newest entry of the bounded history is the newest entry there ever was. */
  lemma BackIsCurrent(sys: Sys)
    requires HistoryOk(sys) && sys.rollouts != []
    ensures CurrentAt(sys, |sys.recorded|, sys.rollouts[|sys.rollouts| - 1])
  {
  }

  /** The step of one task leaves the others alone. */
  lemma OthersStay(sys: Sys, t: TaskId, sys': Sys)
    requires Inv(sys) && Grows(sys, sys') && HistoryOk(sys') && CacheOk(sys')
    requires forall u :: u in sys'.tasks && u != t ==> u in sys.tasks && sys'.tasks[u] == sys.tasks[u]
    requires t in sys'.tasks ==> TaskOk(sys', sys'.tasks[t]) && PinnedMeansCached(sys', sys'.tasks[t])
    ensures Inv(sys')
  {
    forall u | u in sys'.tasks ensures TaskOk(sys', sys'.tasks[u]) && PinnedMeansCached(sys', sys'.tasks[u]) {
      if u != t { TaskStays(sys, sys', sys.tasks[u]); }
    }
  }

  lemma CacheStays(sys: Sys, sys': Sys)
    requires CacheOk(sys) && Grows(sys, sys') && sys'.cache == sys.cache && sys'.recorded == sys.recorded
    ensures CacheOk(sys')
  {
  }

  lemma RecordKeeps(sys: Sys, t: TaskId, tag: string, repo: string, d: Digest)
    requires Inv(sys) && t in sys.tasks && sys.tasks[t] == RolloutPulled(tag, repo, d)
    ensures Inv(Record(sys.(tasks := sys.tasks - {t}), tag, repo, d))
  {
    var sys' := Record(sys.(tasks := sys.tasks - {t}), tag, repo, d);
    assert TaskOk(sys, sys.tasks[t]);
    assert sys.recorded == [] ==> sys.loaded + sys.recorded == sys.loaded;
    LastNSnoc(sys.loaded + sys.recorded, tag, MAX_ROLLOUT_HISTORY);
    assert sys'.loaded + sys'.recorded == (sys.loaded + sys.recorded) + [tag];
    assert sys'.recorded[..|sys'.recorded|] == sys'.recorded;
    assert CurrentAt(sys', |sys'.recorded|, tag);
    OthersStay(sys, t, sys');
  }

  /** The write-back of a start: into an empty cache only, so no rollout can have come between. */
  lemma WriteBackKeeps(sys: Sys, t: TaskId, pc: Pc, ok: bool, digest: Digest)
    requires Inv(sys) && t in sys.tasks && sys.tasks[t] == pc && pc.Pulled?
    ensures Inv(Next(sys, t, pc, ok, digest))
  {
    var sys' := Next(sys, t, pc, ok, digest);
    assert TaskOk(sys, pc) && PinnedMeansCached(sys, pc);
    var since := if pc.pin.Some? then pc.pin.value.since else pc.since;
    if pc.pin.None? {
      assert CurrentAt(sys, pc.since, pc.tag) && (pc.repo, pc.tag, pc.digest) in sys.pulls;
      assert ImageAt(sys, pc.repo, pc.since, pc.digest);
    }
    ImageStays(sys, sys', pc.repo, since, pc.digest);
    if sys.cache.Some? { CacheStays(sys, sys'); }
    OthersStay(sys, t, sys');
  }

  lemma ReadCacheKeeps(sys: Sys, t: TaskId, pc: Pc, ok: bool, digest: Digest)
    requires Inv(sys) && t in sys.tasks && sys.tasks[t] == pc && pc.TagRead?
    ensures Inv(Next(sys, t, pc, ok, digest))
  {
    var sys' := Next(sys, t, pc, ok, digest);
    assert TaskOk(sys, pc);
    var pin := sys'.tasks[t].pin;
    CurrentStays(sys, sys', pc.since, pc.tag);
    if pin.Some? { ImageStays(sys, sys', pc.repo, pin.value.since, pin.value.digest); }
    CacheStays(sys, sys');
    OthersStay(sys, t, sys');
  }

  lemma PullKeeps(sys: Sys, t: TaskId, pc: Pc, ok: bool, digest: Digest)
    requires Inv(sys) && t in sys.tasks && sys.tasks[t] == pc && pc.CacheRead?
    ensures Inv(Next(sys, t, pc, ok, digest))
  {
    var sys' := Next(sys, t, pc, ok, digest);
    assert TaskOk(sys, pc) && PinnedMeansCached(sys, pc);
    TaskStays(sys, sys', pc);
    CacheStays(sys, sys');
    OthersStay(sys, t, sys');
  }

  lemma StepKeeps(sys: Sys, a: Action, sys': Sys)
    requires Inv(sys) && Step(sys, a) == Some(sys')
    ensures Inv(sys')
  {
    if a.UpdateSpec? {
      CacheStays(sys, sys');
      forall u | u in sys'.tasks ensures TaskOk(sys', sys'.tasks[u]) && PinnedMeansCached(sys', sys'.tasks[u]) {
        TaskStays(sys, sys', sys.tasks[u]);
      }
    } else if !a.Advance? {
      CacheStays(sys, sys');
      OthersStay(sys, a.t, sys');
    } else {
      var pc := sys.tasks[a.t];
      if pc.RolloutPulled? { RecordKeeps(sys, a.t, pc.tag, pc.repo, pc.digest); }
      else if pc.Pulled? { WriteBackKeeps(sys, a.t, pc, a.ok, a.digest); }
      else if pc.TagRead? { ReadCacheKeeps(sys, a.t, pc, a.ok, a.digest); }
      else if pc.CacheRead? { PullKeeps(sys, a.t, pc, a.ok, a.digest); }
      else { EasyKeeps(sys, a.t, pc, a.ok, a.digest); }
    }
  }

  lemma EasyKeeps(sys: Sys, t: TaskId, pc: Pc, ok: bool, digest: Digest)
    requires Inv(sys) && t in sys.tasks && sys.tasks[t] == pc
    requires pc.Starting? || pc.SpecRead? || pc.Resolved? || pc.Rollout? || pc.RepoRead?
    ensures Inv(Next(sys, t, pc, ok, digest))
  {
    var sys' := Next(sys, t, pc, ok, digest);
    assert TaskOk(sys, pc);
    if pc.SpecRead? && sys.rollouts != [] {
      BackIsCurrent(sys);
      CurrentStays(sys, sys', |sys.recorded|, sys.rollouts[|sys.rollouts| - 1]);
    }
    CacheStays(sys, sys');
    OthersStay(sys, t, sys');
  }

  // ---- over whole runs ----

  function Run(sys: Sys, actions: seq<Action>): Option<Sys>
    decreases |actions|
  {
    if actions == [] then Some(sys)
    else
      match Step(sys, actions[0])
      case None => None
      case Some(sys') => Run(sys', actions[1..])
  }

  lemma StepGrows(sys: Sys, a: Action, sys': Sys)
    requires Step(sys, a) == Some(sys')
    ensures Grows(sys, sys')
  {
  }

  lemma RunKeeps(sys: Sys, actions: seq<Action>)
    requires Inv(sys) && Run(sys, actions).Some?
    ensures Inv(Run(sys, actions).value) && Grows(sys, Run(sys, actions).value)
    decreases |actions|
  {
    if actions != [] {
      var sys' := Step(sys, actions[0]).value;
      StepKeeps(sys, actions[0], sys');
      StepGrows(sys, actions[0], sys');
      RunKeeps(sys', actions[1..]);
    }
  }

  /**
   * In every interleaving, a cached digest was pulled from its own repository
   * at the tag at the back of the history, and an empty cache means that no
   * rollout was recorded since the handle was loaded.
   */
  lemma CacheMatchesHistory(sys: Sys, actions: seq<Action>)
    requires Init(sys) && Run(sys, actions).Some?
    ensures var sys' := Run(sys, actions).value;
            && (sys'.cache.None? ==> sys'.recorded == [])
            && (sys'.cache.Some? ==>
                  && sys'.rollouts != []
                  && (sys'.cache.value.repo, sys'.rollouts[|sys'.rollouts| - 1], sys'.cache.value.digest) in sys'.pulls)
  {
    RunKeeps(sys, actions);
    var sys' := Run(sys, actions).value;
    if sys'.cache.Some? {
      var cache, n := sys'.cache.value, |sys'.recorded|;
      var tag :| CurrentAt(sys', n, tag) && (cache.repo, tag, cache.digest) in sys'.pulls;
      assert sys'.recorded[..n] == sys'.recorded;
      BackIsCurrent(sys');
    }
  }

  /** The bounded history is the end of everything that was ever loaded or recorded. */
  lemma HistoryIsNewest(sys: Sys, actions: seq<Action>)
    requires Init(sys) && Run(sys, actions).Some?
    ensures var sys' := Run(sys, actions).value;
            sys'.rollouts == if sys'.recorded == [] then sys.loaded
                             else LastN(sys.loaded + sys'.recorded, MAX_ROLLOUT_HISTORY)
  {
    RunKeeps(sys, actions);
  }

  /**
   * A start never resolves to a stale or a foreign image: the digest it runs
   * was pulled from the repository of the spec it read, at a tag that was
   * current when the start began or became so later.
   */
  lemma StartIsNeverStale(sys: Sys, actions: seq<Action>, t: TaskId)
    requires Init(sys) && Run(sys, actions).Some?
    requires t in Run(sys, actions).value.tasks && Run(sys, actions).value.tasks[t].Resolved?
    ensures var sys' := Run(sys, actions).value; var pc := sys'.tasks[t];
            && pc.begun <= pc.since <= |sys'.recorded|
            && exists tag :: CurrentAt(sys', pc.since, tag) && (pc.repo, tag, pc.digest) in sys'.pulls
  {
    RunKeeps(sys, actions);
    var sys' := Run(sys, actions).value;
    assert TaskOk(sys', sys'.tasks[t]);
  }

  /** A pull is pinned only to a digest of the very repository it asks for. */
  lemma PinnedOnlyToOwnRepo(sys: Sys, actions: seq<Action>, t: TaskId)
    requires Init(sys) && Run(sys, actions).Some?
    requires t in Run(sys, actions).value.tasks && Run(sys, actions).value.tasks[t].CacheRead?
    requires Run(sys, actions).value.tasks[t].pin.Some?
    ensures var sys' := Run(sys, actions).value; var pc := sys'.tasks[t];
            exists tag :: (pc.repo, tag, pc.pin.value.digest) in sys'.pulls && CurrentAt(sys', pc.pin.value.since, tag)
  {
    RunKeeps(sys, actions);
    var sys' := Run(sys, actions).value;
    assert TaskOk(sys', sys'.tasks[t]);
  }

  /** The repository in force after the actions: the last one written, or the first. */
  function LastWritten(repo: string, actions: seq<Action>): string {
    if actions == [] then repo
    else if actions[|actions| - 1].UpdateSpec? then actions[|actions| - 1].repo
    else LastWritten(repo, actions[..|actions| - 1])
  }

  lemma {:induction false} LastWrittenSplit(repo: string, a: Action, rest: seq<Action>)
    ensures LastWritten(repo, [a] + rest) == LastWritten(if a.UpdateSpec? then a.repo else repo, rest)
  {
    var all := [a] + rest;
    if rest != [] {
      assert all[..|all| - 1] == [a] + rest[..|rest| - 1];
      LastWrittenSplit(repo, a, rest[..|rest| - 1]);
    }
  }

  /** Only a spec change changes the repository, in any interleaving, and it is in force at once. */
  lemma {:induction false} RepoIsLastWritten(sys: Sys, actions: seq<Action>)
    requires Run(sys, actions).Some?
    ensures Run(sys, actions).value.repo == LastWritten(sys.repo, actions)
    decreases |actions|
  {
    if actions != [] {
      RepoIsLastWritten(Step(sys, actions[0]).value, actions[1..]);
      LastWrittenSplit(sys.repo, actions[0], actions[1..]);
      assert actions == [actions[0]] + actions[1..];
    }
  }

  // ---- undisturbed operations ----

  /** Without a rollout there is no tag to start, and nothing happens. */
  lemma StartWithoutRollout(sys: Sys, t: TaskId)
    requires t !in sys.tasks && sys.rollouts == []
    ensures Run(sys, [BeginStart(t), Advance(t, true, ""), Advance(t, true, "")]) == Some(sys)
  {
    var n, go := |sys.recorded|, Advance(t, true, "");
    var s1 := sys.(tasks := sys.tasks[t := Pc.Starting(n)]);
    var s2 := sys.(tasks := sys.tasks[t := SpecRead(n, sys.repo)]);
    Overwrites(sys, t, Pc.Starting(n), SpecRead(n, sys.repo));
    Overwrites(sys, t, SpecRead(n, sys.repo), SpecRead(n, sys.repo));
    assert [BeginStart(t), go, go][1..] == [go, go] && [go, go][1..] == [go] && [go][1..] == [];
    assert Step(s1, go) == Some(s2) && Step(s2, go) == Some(sys);
    assert Run(s1, [go, go]) == Run(s2, [go]) == Run(sys, []);
  }

  /** Among references without a digest, what is asked for tells the reference and the digest apart. */
  lemma PinnedRefText(image: string, digest: Digest, image': string, digest': Digest)
    requires '@' !in image && '@' !in image'
    ensures DigestPinnedRef(image, Some(digest)) == image + "@" + digest
    ensures DigestPinnedRef(image, Some(digest)) == DigestPinnedRef(image', Some(digest')) ==>
              image == image' && digest == digest'
  {
    var x, y := image + "@" + digest, image' + "@" + digest';
    assert x[|image|] == '@' && y[|image'|] == '@';
    if x == y {
      assert forall k :: 0 <= k < |image| ==> x[k] == image[k] != '@';
      assert forall k :: 0 <= k < |image'| ==> y[k] == image'[k] != '@';
      assert |image| == |image'|;
      assert image == x[..|image|] && digest == x[|image| + 1..] && digest' == y[|image'| + 1..];
    }
  }

  /** A reference that carries a digest is asked for as it stands. */
  lemma PinnedRefStays(image: string, digest: Option<Digest>)
    ensures '@' in image || digest.None? <==> DigestPinnedRef(image, digest) == image
  {
    if '@' !in image && digest.Some? {
      assert |image + "@" + digest.value| > |image|;
    }
  }

  /** The digest that is used instead of asking the registry: one of the own repository, for a plain reference. */
  predicate Usable(sys: Sys, d: Digest) {
    && sys.cache == Some(DigestCache(sys.repo, d)) && sys.rollouts != []
    && '@' !in sys.repo && '@' !in sys.rollouts[|sys.rollouts| - 1]
  }

  /** The section that looks into the cache, on its own. */
  lemma LooksIntoCache(sys: Sys, t: TaskId, begun: nat, tag: string, since: nat, ok: bool, answer: Digest)
    requires sys.rollouts != [] && tag == sys.rollouts[|sys.rollouts| - 1]
    ensures exists pin ::
              && Next(sys, t, TagRead(begun, sys.repo, tag, since), ok, answer)
                 == sys.(tasks := sys.tasks[t := CacheRead(begun, sys.repo, tag, since, pin)])
              && (if pin.Some? then Usable(sys, pin.value.digest) && pin.value.since == |sys.recorded|
                  else forall d :: !Usable(sys, d))
  {
    var cached, image := CachedFor(sys.cache, sys.repo), ImageRef(sys.repo, tag);
    PinnedRefStays(image, cached);
    assert '@' in image <==> '@' in sys.repo || '@' in tag;
    var pin := if IsPinned(sys.repo, tag, cached) then Some(Pin(cached.value, |sys.recorded|)) else None;
    assert Next(sys, t, TagRead(begun, sys.repo, tag, since), ok, answer)
           == sys.(tasks := sys.tasks[t := CacheRead(begun, sys.repo, tag, since, pin)]);
  }

  /**
   * An undisturbed start runs the cached digest if it is usable and otherwise
   * what the registry answers, and fills an empty cache with it.  A pull that
   * fails leaves everything as it was.
   */
  lemma StartAlone(sys: Sys, t: TaskId, ok: bool, answer: Digest) returns (d: Digest)
    requires t !in sys.tasks && sys.rollouts != []
    ensures Usable(sys, d) || (d == answer && forall x :: !Usable(sys, x))
    ensures var begin := [BeginStart(t), Advance(t, true, ""), Advance(t, true, ""), Advance(t, true, "")];
            Run(sys, begin + [Advance(t, ok, answer)] + if ok then [Advance(t, true, "")] else []) ==
            if !ok then Some(sys)
            else
              Some(sys.(tasks := sys.tasks[t := Resolved(|sys.recorded|, sys.repo, |sys.recorded|, d)],
                        cache := if sys.cache.None? then Some(DigestCache(sys.repo, d)) else sys.cache,
                        pulls := if Usable(sys, d) then sys.pulls
                                 else sys.pulls + {(sys.repo, sys.rollouts[|sys.rollouts| - 1], answer)}))
  {
    var n, tag := |sys.recorded|, sys.rollouts[|sys.rollouts| - 1];
    var begin := [BeginStart(t), Advance(t, true, ""), Advance(t, true, ""), Advance(t, true, "")];
    var rest := [Advance(t, ok, answer)] + if ok then [Advance(t, true, "")] else [];
    var pin := StartAsks(sys, t, rest);
    var s4 := sys.(tasks := sys.tasks[t := CacheRead(n, sys.repo, tag, n, pin)]);
    d := if pin.Some? then pin.value.digest else answer;
    assert begin + [Advance(t, ok, answer)] + (if ok then [Advance(t, true, "")] else []) == begin + rest;
    if ok {
      assert rest[1..] == [Advance(t, true, "")];
      Overwrites(sys, t, CacheRead(n, sys.repo, tag, n, pin), Pulled(n, sys.repo, tag, n, pin, d));
      Overwrites(sys, t, Pulled(n, sys.repo, tag, n, pin, d), Resolved(n, sys.repo, n, d));
      var s5 := Step(s4, rest[0]).value;
      assert Run(s5, rest[1..]) == Run(Step(s5, Advance(t, true, "")).value, []);
    } else {
      assert s4.tasks - {t} == sys.tasks;
      assert Run(s4, rest) == Run(sys, rest[1..]);
    }
  }

  /** Up to the pull: the spec, the newest tag and the cache are read. */
  lemma StartAsks(sys: Sys, t: TaskId, rest: seq<Action>) returns (pin: Option<Pin>)
    requires t !in sys.tasks && sys.rollouts != []
    ensures if pin.Some? then Usable(sys, pin.value.digest) && pin.value.since == |sys.recorded|
            else forall d :: !Usable(sys, d)
    ensures var n := |sys.recorded|;
            Run(sys, [BeginStart(t), Advance(t, true, ""), Advance(t, true, ""), Advance(t, true, "")] + rest) ==
            Run(sys.(tasks := sys.tasks[t := CacheRead(n, sys.repo, sys.rollouts[|sys.rollouts| - 1], n, pin)]), rest)
  {
    var n, tag := |sys.recorded|, sys.rollouts[|sys.rollouts| - 1];
    var s1 := sys.(tasks := sys.tasks[t := Pc.Starting(n)]);
    var s2 := sys.(tasks := sys.tasks[t := SpecRead(n, sys.repo)]);
    var s3 := sys.(tasks := sys.tasks[t := TagRead(n, sys.repo, tag, n)]);
    LooksIntoCache(s3, t, n, tag, n, true, "");
    pin :| Next(s3, t, TagRead(n, sys.repo, tag, n), true, "")
           == s3.(tasks := s3.tasks[t := CacheRead(n, sys.repo, tag, n, pin)])
           && if pin.Some? then Usable(s3, pin.value.digest) && pin.value.since == n else forall d :: !Usable(s3, d);
    var s4 := sys.(tasks := sys.tasks[t := CacheRead(n, sys.repo, tag, n, pin)]);
    forall x ensures Usable(sys, x) <==> Usable(s3, x) { }
    Overwrites(sys, t, Pc.Starting(n), SpecRead(n, sys.repo));
    Overwrites(sys, t, SpecRead(n, sys.repo), TagRead(n, sys.repo, tag, n));
    Overwrites(sys, t, TagRead(n, sys.repo, tag, n), CacheRead(n, sys.repo, tag, n, pin));
    var begin := [BeginStart(t), Advance(t, true, ""), Advance(t, true, ""), Advance(t, true, "")];
    FourSteps(sys, begin, rest, s1, s2, s3, s4);
  }

  lemma Overwrites(sys: Sys, t: TaskId, pc: Pc, pc': Pc)
    ensures sys.tasks[t := pc][t := pc'] == sys.tasks[t := pc']
    ensures t !in sys.tasks ==> sys.tasks[t := pc] - {t} == sys.tasks
  {
  }

  lemma FourSteps(sys: Sys, begin: seq<Action>, rest: seq<Action>, s1: Sys, s2: Sys, s3: Sys, s4: Sys)
    requires |begin| == 4
    requires Step(sys, begin[0]) == Some(s1) && Step(s1, begin[1]) == Some(s2)
    requires Step(s2, begin[2]) == Some(s3) && Step(s3, begin[3]) == Some(s4)
    ensures Run(sys, begin + rest) == Run(s4, rest)
  {
    var all := begin + rest;
    assert all[1..][1..] == all[2..] && all[2..][1..] == all[3..] && all[3..][1..] == rest;
    assert Run(sys, all) == Run(s1, all[1..]) == Run(s2, all[2..]);
    assert Run(s2, all[2..]) == Run(s3, all[3..]) == Run(s4, rest);
  }

  /**
   * An undisturbed rollout asks the registry, not the cache, and ends with its
   * tag at the back, the newest tag before it and no other, and the answer
   * cached for its repository.  A pull that fails leaves everything as it was.
   */
  lemma RolloutAlone(sys: Sys, t: TaskId, tag: string, ok: bool, answer: Digest)
    requires t !in sys.tasks
    ensures Run(sys, [BeginRollout(t, tag), Advance(t, true, ""), Advance(t, ok, answer)]
                     + if ok then [Advance(t, true, "")] else []) ==
            if !ok then Some(sys)
            else
              Some(sys.(rollouts := if sys.rollouts == [] then [tag] else [sys.rollouts[|sys.rollouts| - 1], tag],
                        recorded := sys.recorded + [tag],
                        cache := Some(DigestCache(sys.repo, answer)),
                        pulls := sys.pulls + {(sys.repo, tag, answer)}))
  {
    var rest := [Advance(t, ok, answer)] + if ok then [Advance(t, true, "")] else [];
    var all := [BeginRollout(t, tag), Advance(t, true, ""), Advance(t, ok, answer)]
               + if ok then [Advance(t, true, "")] else [];
    var s1 := sys.(tasks := sys.tasks[t := Rollout(tag)]);
    var s2 := sys.(tasks := sys.tasks[t := RepoRead(tag, sys.repo)]);
    assert all[1..][1..] == rest;
    Overwrites(sys, t, Rollout(tag), RepoRead(tag, sys.repo));
    Overwrites(sys, t, RepoRead(tag, sys.repo), RolloutPulled(tag, sys.repo, answer));
    Overwrites(sys, t, RolloutPulled(tag, sys.repo, answer), Rollout(tag));
    assert Run(sys, all) == Run(s1, all[1..]) == Run(s2, rest);
    if ok {
      var s3 := Step(s2, rest[0]).value;
      assert rest[1..] == [Advance(t, true, "")];
      var s4 := Step(s3, Advance(t, true, "")).value;
      assert Run(s3, rest[1..]) == Run(s4, []);
      assert s4.tasks == sys.tasks;
      assert s4.rollouts == if sys.rollouts == [] then [tag] else [sys.rollouts[|sys.rollouts| - 1], tag];
    } else {
      assert s2.tasks - {t} == sys.tasks;
      assert Run(s2, rest) == Run(sys, rest[1..]);
    }
  }
}
