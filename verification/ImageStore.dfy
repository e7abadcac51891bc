/** The on-disk image cache: names of image directories, and the startup sweep. */
module ImageStore {
  import opened Prelude

  // ---- digests as directory names ----

  /** `ImageId::fs_component`: every colon becomes an underscore. */
  function FsComponent(digest: string): string {
    if digest == "" then ""
    else [if digest[0] == ':' then '_' else digest[0]] + FsComponent(digest[1..])
  }

  lemma {:induction false} FsComponentAt(digest: string, i: nat)
    requires i < |digest|
    ensures |FsComponent(digest)| == |digest|
    ensures FsComponent(digest)[i] == if digest[i] == ':' then '_' else digest[i]
  {
    if |digest| > 1 { FsComponentAt(digest[1..], if i > 0 then i - 1 else 0); }
  }

  /** What the bundle scan does to get a digest back: the first underscore becomes a colon. */
  function UndoFirst(name: string): string {
    if name == "" then ""
    else if name[0] == '_' then ":" + name[1..]
    else [name[0]] + UndoFirst(name[1..])
  }

  lemma {:induction false} FsFixesColonFree(name: string)
    ensures FsComponent(name) == name <==> ':' !in name
  {
    if name != "" {
      FsFixesColonFree(name[1..]);
      assert name == [name[0]] + name[1..];
    }
  }

  /** Undoing only the first underscore is harmless: the sweep maps it back. */
  lemma {:induction false} FsAbsorbsUndo(name: string)
    ensures FsComponent(UndoFirst(name)) == FsComponent(name)
  {
    if name != "" {
      if name[0] == '_' {
        assert (":" + name[1..])[1..] == name[1..];
      } else {
        FsAbsorbsUndo(name[1..]);
        assert ([name[0]] + UndoFirst(name[1..]))[1..] == UndoFirst(name[1..]);
      }
    }
  }

  /** The directory name survives scan and sweep exactly when it has no colon. */
  lemma ScanRoundTrip(name: string)
    ensures FsComponent(UndoFirst(name)) == name <==> ':' !in name
  {
    FsAbsorbsUndo(name);
    FsFixesColonFree(name);
  }

  /** A digest that has one colon, before any underscore, or neither character at all. */
  predicate Recoverable(digest: string) {
    if digest == "" then true
    else if digest[0] == ':' then ':' !in digest[1..]
    else digest[0] != '_' && Recoverable(digest[1..])
  }

  /** The digest itself is recovered exactly for ids of the form `algorithm:hex`. */
  lemma {:induction false} DigestRoundTrip(digest: string)
    ensures UndoFirst(FsComponent(digest)) == digest <==> Recoverable(digest)
  {
    if digest != "" {
      var rest := FsComponent(digest[1..]);
      FsFixesColonFree(digest[1..]);
      DigestRoundTrip(digest[1..]);
      assert FsComponent(digest)[1..] == rest;
      assert digest == [digest[0]] + digest[1..];
      if digest[0] == ':' || digest[0] == '_' {
        assert UndoFirst(FsComponent(digest)) == ":" + rest;
        assert digest[0] == ':' ==> (":" + rest == digest <==> rest == digest[1..]);
      } else {
        assert UndoFirst(FsComponent(digest)) == [digest[0]] + UndoFirst(rest);
      }
    }
  }

  // ---- the bundle scan ----

  /** An entry of the bundles directory; a link target is given by its path components. */
  datatype Bundle = NotADirectory | Unlinked | Linked(target: seq<string>)

  /** The image directory a bundle's `rootfs` link points into. */
  function ImageDirOf(b: Bundle): Option<string> {
    if b.Linked? && |b.target| >= 2 && b.target[|b.target| - 2] != ".." then Some(b.target[|b.target| - 2]) else None
  }

  /** The link leads to a file or directory inside `name`, at any depth. */
  ghost predicate PointsInto(b: Bundle, name: string) {
    name != ".." && exists front, leaf :: b == Linked(front + [name, leaf])
  }

  /** The parent's file name is the directory the link points into, and there is no other. */
  lemma ImageDirExact(b: Bundle, name: string)
    ensures ImageDirOf(b) == Some(name) <==> PointsInto(b, name)
  {
    if ImageDirOf(b) == Some(name) {
      var k := |b.target| - 2;
      assert b.target == b.target[..k] + [name, b.target[k + 1]];
    }
  }

  ghost predicate LinkedTo(bundles: seq<Bundle>, name: string) {
    exists i :: 0 <= i < |bundles| && PointsInto(bundles[i], name)
  }

  method LiveImageDigests(bundles: seq<Bundle>) returns (live: set<string>)
    ensures forall digest :: digest in live <==> exists name :: LinkedTo(bundles, name) && digest == UndoFirst(name)
  {
    live := {};
    for i := 0 to |bundles|
      invariant forall digest :: digest in live <==>
                  exists j :: 0 <= j < i && ImageDirOf(bundles[j]).Some?
                              && digest == UndoFirst(ImageDirOf(bundles[j]).value)
    {
      var name := ImageDirOf(bundles[i]);
      if name.Some? {
        live := live + {UndoFirst(name.value)};
      }
    }
    forall j, name | 0 <= j < |bundles| ensures ImageDirOf(bundles[j]) == Some(name) <==> PointsInto(bundles[j], name) {
      ImageDirExact(bundles[j], name);
    }
    forall digest | digest in live ensures exists name :: LinkedTo(bundles, name) && digest == UndoFirst(name) {
      var j :| 0 <= j < |bundles| && ImageDirOf(bundles[j]).Some? && digest == UndoFirst(ImageDirOf(bundles[j]).value);
      assert LinkedTo(bundles, ImageDirOf(bundles[j]).value);
    }
    forall name | LinkedTo(bundles, name) ensures UndoFirst(name) in live {
      var j :| 0 <= j < |bundles| && PointsInto(bundles[j], name);
      assert ImageDirOf(bundles[j]) == Some(name);
    }
  }

  // ---- the sweep ----

  datatype Entry = File | Dir(done: bool)

  /** Complete, and named after a digest in use. */
  predicate InUse(entries: map<string, Entry>, live: set<string>, name: string)
    requires name in entries
  {
    entries[name] == Dir(true) && exists digest :: digest in live && name == FsComponent(digest)
  }

  lemma EntryCount(entries: map<string, Entry>, n: string, e: Entry)
    requires n in entries
    ensures |entries - {n}| == |entries| - 1 && |entries[n := e]| == |entries|
  {
    assert entries == (entries - {n})[n := entries[n]];
    assert entries[n := e].Keys == entries.Keys;
  }

  class Cache {
    var entries: map<string, Entry>

    constructor (found: map<string, Entry>)
      ensures entries == found
    {
      entries := found;
    }

    /**
     * Removes every directory that is incomplete or unused; plain files are
     * not touched.  `failing` are the removals that break off, and whether the
     * marker is still there afterwards: what else they took is not seen here.
     */
    method Sweep(live: set<string>, failing: map<string, bool>) returns (removed: nat)
      modifies this
      ensures entries.Keys <= old(entries).Keys && removed == |old(entries)| - |entries|
      ensures forall n :: n in old(entries) ==> Swept(old(entries), InUse(old(entries), live, n), failing, entries, n)
    {
      var liveFs := set d | d in live :: FsComponent(d);
      ghost var found := entries;
      var todo := entries.Keys;
      removed := 0;
      while todo != {}
        invariant todo <= entries.Keys <= found.Keys && forall n :: n in todo ==> entries[n] == found[n]
        invariant forall n :: n in found && n !in todo ==>
                    Swept(found, found[n] == Dir(true) && n in liveFs, failing, entries, n)
        invariant removed == |found| - |entries|
        decreases todo
      {
        var n :| n in todo;
        if entries[n].Dir? && (!entries[n].done || n !in liveFs) {
          EntryCount(entries, n, Dir(entries[n].done && n in failing && failing[n]));
          if n in failing {
            entries := entries[n := Dir(entries[n].done && failing[n])];
          } else {
            entries := entries - {n};
            removed := removed + 1;
          }
        }
        todo := todo - {n};
      }
      forall n | n in found ensures found[n] == Dir(true) && n in liveFs <==> InUse(found, live, n) {
        assert n in liveFs <==> exists digest :: digest in live && n == FsComponent(digest);
      }
    }

    /**
     * Scan and sweep together: a directory stays exactly when it is complete
     * and some bundle links to it, up to the spelling of colons, or when its
     * removal breaks off.
     */
    method GcUnusedImages(bundles: seq<Bundle>, failing: map<string, bool>) returns (removed: nat)
      modifies this
      ensures entries.Keys <= old(entries).Keys && removed == |old(entries)| - |entries|
      ensures forall n :: n in old(entries) ==>
                Swept(old(entries), KeptByGc(old(entries), bundles, n), failing, entries, n)
      ensures forall n :: n in old(entries) && ':' !in n && old(entries)[n] == Dir(true)
                          && (exists i :: 0 <= i < |bundles| && PointsInto(bundles[i], n)) ==>
                n in entries && entries[n] == Dir(true)
      ensures (forall i, name :: 0 <= i < |bundles| && PointsInto(bundles[i], name) ==> ':' !in name) ==>
                forall n :: n in old(entries) && old(entries)[n].Dir? && n !in failing ==>
                  (n in entries <==>
                     old(entries)[n].done && exists i :: 0 <= i < |bundles| && PointsInto(bundles[i], n))
    {
      var live := LiveImageDigests(bundles);
      removed := Sweep(live, failing);
      forall n | n in old(entries)
        ensures InUse(old(entries), live, n) <==> KeptByGc(old(entries), bundles, n)
      {
        ScanKeepsLinked(old(entries), bundles, live, n);
      }
      forall n | n in old(entries)
        ensures ':' !in n && old(entries)[n] == Dir(true) && LinkedTo(bundles, n) ==> KeptByGc(old(entries), bundles, n)
        ensures (forall name :: LinkedTo(bundles, name) ==> ':' !in name) ==>
                  (KeptByGc(old(entries), bundles, n) <==> old(entries)[n] == Dir(true) && LinkedTo(bundles, n))
      {
        GcIsExact(old(entries), bundles, n);
      }
    }
  }

  /** What became of entry `n`: kept as it was, removed, or left with or without its marker. */
  predicate Swept(
    found: map<string, Entry>, keep: bool, failing: map<string, bool>, entries: map<string, Entry>, n: string)
    requires n in found
  {
    if found[n].File? || keep then n in entries && entries[n] == found[n]
    else if n in failing then n in entries && entries[n] == Dir(found[n].done && failing[n])
    else n !in entries
  }

  ghost predicate KeptByGc(entries: map<string, Entry>, bundles: seq<Bundle>, n: string)
    requires n in entries
  {
    entries[n] == Dir(true) && exists name :: LinkedTo(bundles, name) && FsComponent(name) == n
  }

  lemma ScanKeepsLinked(entries: map<string, Entry>, bundles: seq<Bundle>, live: set<string>, n: string)
    requires n in entries
    requires forall digest :: digest in live <==> exists name :: LinkedTo(bundles, name) && digest == UndoFirst(name)
    ensures InUse(entries, live, n) <==> KeptByGc(entries, bundles, n)
  {
    if digest :| digest in live && n == FsComponent(digest) {
      var name :| LinkedTo(bundles, name) && digest == UndoFirst(name);
      FsAbsorbsUndo(name);
    }
    if name :| LinkedTo(bundles, name) && FsComponent(name) == n {
      FsAbsorbsUndo(name);
      assert UndoFirst(name) in live;
    }
  }

  /**
   * A linked image is kept if its name has no colon; and as long as bundles
   * link to directories that the runtime named itself, every complete image in
   * use is kept and everything else removed.
   */
  lemma GcIsExact(entries: map<string, Entry>, bundles: seq<Bundle>, n: string)
    requires n in entries
    ensures ':' !in n && entries[n] == Dir(true) && LinkedTo(bundles, n) ==> KeptByGc(entries, bundles, n)
    ensures (forall name :: LinkedTo(bundles, name) ==> ':' !in name) ==>
              (KeptByGc(entries, bundles, n) <==> entries[n] == Dir(true) && LinkedTo(bundles, n))
  {
    FsFixesColonFree(n);
    forall name | LinkedTo(bundles, name) && ':' !in name ensures FsComponent(name) == name {
      FsFixesColonFree(name);
    }
  }

  lemma {:induction false} FsIsColonFree(digest: string)
    ensures ':' !in FsComponent(digest)
  {
    if digest != "" { FsIsColonFree(digest[1..]); }
  }

  /** A directory whose name holds a colon is swept even while a bundle links to it. */
  lemma ColonIsNeverKept(entries: map<string, Entry>, bundles: seq<Bundle>, n: string)
    requires n in entries && ':' in n
    ensures !KeptByGc(entries, bundles, n)
  {
    forall name | LinkedTo(bundles, name) ensures FsComponent(name) != n {
      FsIsColonFree(name);
    }
  }
}
