/** Merging a container's environment: image, then `PORT`, then the user's entries. */
module EnvMerge {
  import opened Prelude

  const DEFAULT_PATH := "/usr/local/sbin:/usr/local/bin:/usr/sbin:/usr/bin:/sbin:/bin"

  type Binding = (string, string)

  function Entry(key: string, value: string): string { key + "=" + value }

  /** The entry starts with `key=`, which is how the code recognises a binding. */
  predicate Binds(e: string, key: string) {
    |key| < |e| && e[..|key|] == key && e[|key|] == '='
  }

  function Retain(env: seq<string>, key: string): seq<string> {
    if env == [] then []
    else Retain(env[..|env| - 1], key) + if Binds(env[|env| - 1], key) then [] else [env[|env| - 1]]
  }

  function Push(env: seq<string>, key: string, value: string): seq<string> {
    Retain(env, key) + [Entry(key, value)]
  }

  function PushAll(env: seq<string>, order: seq<Binding>): seq<string> {
    if order == [] then env
    else Push(PushAll(env, order[..|order| - 1]), order[|order| - 1].0, order[|order| - 1].1)
  }

  function WithPath(image: seq<string>): seq<string> {
    if exists i :: 0 <= i < |image| && Binds(image[i], "PATH") then image else image + [Entry("PATH", DEFAULT_PATH)]
  }

  /** The merged environment, when the user's map happens to be iterated as `order`. */
  function Derived(image: seq<string>, port: string, order: seq<Binding>): seq<string> {
    PushAll(Push(WithPath(image), "PORT", port), order)
  }

  method PushEnv(env: seq<string>, key: string, value: string) returns (out: seq<string>)
    ensures out == Push(env, key, value)
  {
    out := [];
    for i := 0 to |env|
      invariant out == Retain(env[..i], key)
    {
      assert env[..i + 1][..i] == env[..i];
      if !Binds(env[i], key) {
        out := out + [env[i]];
      }
    }
    assert env[..|env|] == env;
    out := out + [Entry(key, value)];
  }

  method HasBinding(env: seq<string>, key: string) returns (found: bool)
    ensures found <==> exists i :: 0 <= i < |env| && Binds(env[i], key)
  {
    found := false;
    for i := 0 to |env|
      invariant found <==> exists j :: 0 <= j < i && Binds(env[j], key)
    {
      found := found || Binds(env[i], key);
    }
  }

  method DeriveEnv(image: Option<seq<string>>, port: string, order: seq<Binding>) returns (out: seq<string>)
    ensures out == Derived(if image.Some? then image.value else [], port, order)
  {
    var base := if image.Some? then image.value else [];
    out := base;
    var hasPath := HasBinding(base, "PATH");
    if !hasPath {
      out := out + [Entry("PATH", DEFAULT_PATH)];
    }
    out := PushEnv(out, "PORT", port);
    for i := 0 to |order|
      invariant out == PushAll(Push(WithPath(base), "PORT", port), order[..i])
    {
      assert order[..i + 1][..i] == order[..i];
      out := PushEnv(out, order[i].0, order[i].1);
    }
    assert order[..|order|] == order;
  }

  // ---- reading the result ----

  /** `order` lists every binding of `user` once. */
  ghost predicate IterationOf(order: seq<Binding>, user: map<string, string>) {
    && (forall i :: 0 <= i < |order| ==> order[i].0 in user && user[order[i].0] == order[i].1)
    && (forall i, j :: 0 <= i < j < |order| ==> order[i].0 != order[j].0)
    && (forall k :: k in user ==> exists i :: 0 <= i < |order| && order[i].0 == k)
  }

  /** Every value the environment binds to `key`, in order. */
  function Values(env: seq<string>, key: string): seq<string> {
    if env == [] then []
    else
      var e := env[|env| - 1];
      Values(env[..|env| - 1], key) + if Binds(e, key) then [e[|key| + 1..]] else []
  }

  lemma BindsOne(e: string, j: string, k: string)
    requires Binds(e, j) && Binds(e, k) && '=' !in j && '=' !in k
    ensures j == k
  {
  }

  lemma EntryBinds(key: string, value: string)
    ensures Binds(Entry(key, value), key) && Entry(key, value)[|key| + 1..] == value
  {
  }

  lemma {:induction false} ValuesOfRetained(env: seq<string>, j: string, k: string)
    requires '=' !in j && '=' !in k
    ensures Values(Retain(env, k), j) == if j == k then [] else Values(env, j)
  {
    if env != [] {
      var e := env[|env| - 1];
      ValuesOfRetained(env[..|env| - 1], j, k);
      if !Binds(e, k) {
        assert Retain(env, k)[..|Retain(env, k)| - 1] == Retain(env[..|env| - 1], k);
      } else {
        assert Retain(env, k) == Retain(env[..|env| - 1], k);
        if Binds(e, j) { BindsOne(e, j, k); }
      }
    }
  }

  lemma ValuesOfPushed(env: seq<string>, j: string, key: string, value: string)
    requires '=' !in j && '=' !in key
    ensures Values(Push(env, key, value), j) == if j == key then [value] else Values(env, j)
  {
    var out := Push(env, key, value);
    assert out[..|out| - 1] == Retain(env, key);
    ValuesOfRetained(env, j, key);
    EntryBinds(key, value);
    if j != key && Binds(Entry(key, value), j) { BindsOne(Entry(key, value), j, key); }
  }

  lemma {:induction false} ValuesOfAll(env: seq<string>, order: seq<Binding>, j: string)
    requires '=' !in j && forall i :: 0 <= i < |order| ==> '=' !in order[i].0
    requires forall i, k :: 0 <= i < k < |order| ==> order[i].0 != order[k].0
    ensures (forall i :: 0 <= i < |order| ==> order[i].0 != j) ==> Values(PushAll(env, order), j) == Values(env, j)
    ensures forall i :: 0 <= i < |order| && order[i].0 == j ==> Values(PushAll(env, order), j) == [order[i].1]
  {
    if order != [] {
      var front, last := order[..|order| - 1], order[|order| - 1];
      ValuesOfAll(env, front, j);
      ValuesOfPushed(PushAll(env, front), j, last.0, last.1);
      assert forall i :: 0 <= i < |front| ==> front[i] == order[i];
    }
  }

  lemma {:induction false} NoValues(env: seq<string>, key: string)
    ensures Values(env, key) == [] <==> forall i :: 0 <= i < |env| ==> !Binds(env[i], key)
  {
    if env != [] {
      var front, last := env[..|env| - 1], |env| - 1;
      NoValues(front, key);
      assert forall i :: 0 <= i < last ==> front[i] == env[i];
    }
  }

  lemma ValuesOfWithPath(image: seq<string>, j: string)
    requires '=' !in j
    ensures Values(WithPath(image), j) ==
              if j == "PATH" && Values(image, j) == [] then [DEFAULT_PATH] else Values(image, j)
  {
    NoValues(image, "PATH");
    var path := Entry("PATH", DEFAULT_PATH);
    EntryBinds("PATH", DEFAULT_PATH);
    if WithPath(image) != image {
      assert WithPath(image)[..|image|] == image;
      if Binds(path, j) { BindsOne(path, j, "PATH"); }
    }
  }

  /** The values of `key` are what follows `key=` in the entries. */
  lemma {:induction false} ValuesAreEntries(env: seq<string>, key: string, value: string)
    ensures value in Values(env, key) <==> key + "=" + value in env
  {
    if env != [] {
      var front, e := env[..|env| - 1], env[|env| - 1];
      ValuesAreEntries(front, key, value);
      assert env == front + [e];
      if Binds(e, key) {
        assert e == key + "=" + e[|key| + 1..];
        assert key + "=" + value == e ==> value == e[|key| + 1..];
      } else {
        EntryBinds(key, value);
      }
    }
  }

  /**
   * The merged environment as a lookup: the user wins, then `PORT`, then a
   * default `PATH`, then the image.  The user's bindings and `PORT` occur once,
   * and the order in which the user's map is iterated does not show.
   */
  lemma EnvLookup(image: seq<string>, port: string, user: map<string, string>, order: seq<Binding>, key: string)
    requires IterationOf(order, user) && '=' !in key && forall k :: k in user ==> '=' !in k
    ensures Values(Derived(image, port, order), key) ==
              if key in user then [user[key]]
              else if key == "PORT" then [port]
              else if key == "PATH" && Values(image, key) == [] then
                ["/usr/local/sbin:/usr/local/bin:/usr/sbin:/usr/bin:/sbin:/bin"]
              else Values(image, key)
    ensures forall v :: key + "=" + v in Derived(image, port, order) <==> v in Values(Derived(image, port, order), key)
  {
    forall v ensures key + "=" + v in Derived(image, port, order) <==> v in Values(Derived(image, port, order), key) {
      ValuesAreEntries(Derived(image, port, order), key, v);
    }
    ValuesOfWithPath(image, key);
    ValuesOfPushed(WithPath(image), key, "PORT", port);
    ValuesOfAll(Push(WithPath(image), "PORT", port), order, key);
    if key in user {
      var i :| 0 <= i < |order| && order[i].0 == key;
    }
  }

  // ---- what is left of the image ----

  predicate Mentions(keys: set<string>, e: string) {
    exists k :: k in keys && Binds(e, k)
  }

  /** The entries that bind none of the keys. */
  function Others(env: seq<string>, keys: set<string>): seq<string> {
    if env == [] then []
    else Others(env[..|env| - 1], keys) + if Mentions(keys, env[|env| - 1]) then [] else [env[|env| - 1]]
  }

  lemma {:induction false} OthersOfRetained(env: seq<string>, keys: set<string>, k: string)
    requires k in keys
    ensures Others(Retain(env, k), keys) == Others(env, keys)
  {
    if env != [] {
      OthersOfRetained(env[..|env| - 1], keys, k);
      if !Binds(env[|env| - 1], k) {
        assert Retain(env, k)[..|Retain(env, k)| - 1] == Retain(env[..|env| - 1], k);
      } else {
        assert Retain(env, k) == Retain(env[..|env| - 1], k);
      }
    }
  }

  lemma OthersOfPushed(env: seq<string>, keys: set<string>, k: string, v: string)
    requires k in keys
    ensures Others(Push(env, k, v), keys) == Others(env, keys)
  {
    OthersOfRetained(env, keys, k);
    EntryBinds(k, v);
    assert Push(env, k, v)[..|Push(env, k, v)| - 1] == Retain(env, k);
  }

  lemma {:induction false} OthersOfAll(env: seq<string>, keys: set<string>, order: seq<Binding>)
    requires forall i :: 0 <= i < |order| ==> order[i].0 in keys
    ensures Others(PushAll(env, order), keys) == Others(env, keys)
  {
    if order != [] {
      OthersOfAll(env, keys, order[..|order| - 1]);
      OthersOfPushed(PushAll(env, order[..|order| - 1]), keys, order[|order| - 1].0, order[|order| - 1].1);
    }
  }

  /** Every other entry of the image is kept, in its place, and nothing else is added. */
  lemma ImageEntriesKept(image: seq<string>, port: string, user: map<string, string>, order: seq<Binding>)
    requires IterationOf(order, user)
    ensures var keys := user.Keys + {"PORT", "PATH"};
            Others(Derived(image, port, order), keys) == Others(image, keys)
  {
    var keys := user.Keys + {"PORT", "PATH"};
    var path := WithPath(image);
    if path != image {
      EntryBinds("PATH", DEFAULT_PATH);
      assert path[..|image|] == image && Mentions(keys, path[|image|]);
    }
    OthersOfPushed(path, keys, "PORT", port);
    OthersOfAll(Push(path, "PORT", port), keys, order);
  }

  // ---- keys with an equals sign ----

  /** No entry of one key is mistaken for a binding of another, unless they are the same text. */
  ghost predicate NoClash(user: map<string, string>) {
    forall k, l :: k in user && l in user && Binds(Entry(l, user[l]), k) ==> Entry(l, user[l]) == Entry(k, user[k])
  }

  lemma {:induction false} RetainKeeps(env: seq<string>, key: string, e: string)
    ensures e in Retain(env, key) <==> e in env && !Binds(e, key)
  {
    if env != [] { RetainKeeps(env[..|env| - 1], key, e); }
  }

  /** A pushed entry can only be lost to a later one. */
  lemma {:induction false} EntrySurvives(env: seq<string>, order: seq<Binding>, user: map<string, string>, i: nat)
    requires i < |order| && NoClash(user)
    requires forall j :: 0 <= j < |order| ==> order[j].0 in user && user[order[j].0] == order[j].1
    ensures Entry(order[i].0, order[i].1) in PushAll(env, order)
  {
    var front, last := order[..|order| - 1], order[|order| - 1];
    var e := Entry(order[i].0, order[i].1);
    if i < |front| {
      EntrySurvives(env, front, user, i);
      RetainKeeps(PushAll(env, front), last.0, e);
    }
  }

  lemma IterationSnoc(order: seq<Binding>, user: map<string, string>, k: string, v: string)
    requires IterationOf(order, user) && k !in user
    ensures IterationOf(order + [(k, v)], user[k := v])
  {
    var more, grown := order + [(k, v)], user[k := v];
    forall j | j in grown ensures exists i :: 0 <= i < |more| && more[i].0 == j {
      if j == k {
        assert more[|order|].0 == j;
      } else {
        var i :| 0 <= i < |order| && order[i].0 == j;
        assert more[i].0 == j;
      }
    }
  }

  lemma OrderOf(user: map<string, string>) returns (order: seq<Binding>)
    ensures IterationOf(order, user)
    decreases |user|
  {
    order := [];
    if user != map[] {
      var k :| k in user;
      var rest := user - {k};
      assert user == rest[k := user[k]];
      var front := OrderOf(rest);
      IterationSnoc(front, rest, k, user[k]);
      order := front + [(k, user[k])];
    }
  }

  /** An order of the map that ends with the given two keys. */
  lemma OrderEndingIn(user: map<string, string>, l: string, k: string) returns (order: seq<Binding>)
    requires l in user && k in user && l != k
    ensures IterationOf(order, user) && |order| >= 2
    ensures order[|order| - 2].0 == l && order[|order| - 1].0 == k
  {
    var rest := user - {l, k};
    var front := OrderOf(rest);
    IterationSnoc(front, rest, l, user[l]);
    IterationSnoc(front + [(l, user[l])], rest[l := user[l]], k, user[k]);
    order := front + [(l, user[l])] + [(k, user[k])];
    assert rest[l := user[l]][k := user[k]] == user;
  }

  ghost predicate AlwaysSurvives(image: seq<string>, port: string, user: map<string, string>) {
    forall order: seq<Binding>, k :: IterationOf(order, user) && k in user ==>
      Entry(k, user[k]) in Derived(image, port, order)
  }

  /**
   * Without any assumption on the keys: every user entry reaches the container
   * under every iteration order exactly when no two entries clash.
   */
  lemma UserWinsIffNoClash(image: seq<string>, port: string, user: map<string, string>)
    ensures AlwaysSurvives(image, port, user) <==> NoClash(user)
  {
    var base := Push(WithPath(image), "PORT", port);
    if NoClash(user) {
      forall order: seq<Binding>, k | IterationOf(order, user) && k in user
        ensures Entry(k, user[k]) in Derived(image, port, order)
      {
        var i :| 0 <= i < |order| && order[i].0 == k;
        EntrySurvives(base, order, user, i);
      }
    } else {
      var k, l :| k in user && l in user && Binds(Entry(l, user[l]), k) && Entry(l, user[l]) != Entry(k, user[k]);
      var order := OrderEndingIn(user, l, k);
      RetainKeeps(PushAll(base, order[..|order| - 1]), k, Entry(l, user[l]));
      assert Entry(l, user[l]) !in Derived(image, port, order);
    }
  }

  /**
   * A map that does clash: `A=B=x` reads as a binding of `A`, and is lost
   * whenever the key `A` comes after the key `A=B`.
   */
  lemma ClashingMap(image: seq<string>, port: string)
    ensures var user, order := map["A" := "1", "A=B" := "x"], [("A=B", "x"), ("A", "1")];
            IterationOf(order, user) && !NoClash(user) && Entry("A=B", user["A=B"]) !in Derived(image, port, order)
  {
    var user, order := map["A" := "1", "A=B" := "x"], [("A=B", "x"), ("A", "1")];
    var lost, kept := Entry("A=B", "x"), Entry("A", "1");
    assert lost == "A=B=x" && kept == "A=1" && lost[..1] == "A";
    assert Binds(lost, "A") && lost != kept;
    var front := PushAll(Push(WithPath(image), "PORT", port), order[..1]);
    RetainKeeps(front, "A", lost);
    assert Derived(image, port, order) == Retain(front, "A") + [kept];
    assert order[0].0 == "A=B" && order[1].0 == "A";
  }

  /** Keys without an equals sign never clash. */
  lemma PlainKeysNeverClash(user: map<string, string>)
    requires forall k :: k in user ==> '=' !in k
    ensures NoClash(user)
  {
    forall k, l | k in user && l in user && Binds(Entry(l, user[l]), k) ensures k == l {
      EntryBinds(l, user[l]);
      BindsOne(Entry(l, user[l]), k, l);
    }
  }
}
