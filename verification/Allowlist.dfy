/**
 * The domain allowlist.  The code compares characters; what it decides is a
 * question about dot-separated labels.
 */
module Allowlist {
  import opened Prelude

  datatype Rule = Domain(name: string) | Wildcard(name: string) | Cidr(first: Ipv4, last: Ipv4)

  function LowerChar(c: char): char {
    if 'A' <= c <= 'Z' then (c as int + 32) as char else c
  }

  function Lower(s: string): string {
    seq(|s|, i requires 0 <= i < |s| => LowerChar(s[i]))
  }

  function TrimDots(s: string): string {
    if s != "" && s[|s| - 1] == '.' then TrimDots(s[..|s| - 1]) else s
  }

  function Normalise(s: string): string { Lower(TrimDots(s)) }

  predicate EndsWith(s: string, tail: string) {
    |tail| <= |s| && s[|s| - |tail|..] == tail
  }

  /** Longer than the parent, ends with it, and a dot at the boundary. */
  predicate IsSubdomainOf(parent: string, name: string) {
    |name| > |parent| && EndsWith(name, parent) && name[|name| - |parent| - 1] == '.'
  }

  // ---- labels ----

  /** The dot-separated labels of a name; there is always at least one. */
  function Labels(s: string): (labels: seq<string>)
    ensures |labels| > 0
  {
    if s == "" then [""]
    else
      var rest := Labels(s[1..]);
      if s[0] == '.' then [""] + rest else [[s[0]] + rest[0]] + rest[1..]
  }

  function Join(labels: seq<string>): string
    requires |labels| > 0
  {
    if |labels| == 1 then labels[0] else labels[0] + "." + Join(labels[1..])
  }

  lemma {:induction false} JoinHead(head: string, labels: seq<string>)
    requires |labels| > 0
    ensures Join([head + labels[0]] + labels[1..]) == head + Join(labels)
  {
  }

  /** Nothing is lost: a name is its labels, joined. */
  lemma {:induction false} JoinLabels(s: string)
    ensures Join(Labels(s)) == s
  {
    if s != "" {
      JoinLabels(s[1..]);
      var rest := Labels(s[1..]);
      assert s == [s[0]] + s[1..];
      if s[0] == '.' {
        assert ([""] + rest)[1..] == rest;
      } else {
        JoinHead([s[0]], rest);
      }
    }
  }

  /** Labels distinguish names. */
  lemma LabelsInjective(s: string, t: string)
    requires Labels(s) == Labels(t)
    ensures s == t
  {
    JoinLabels(s);
    JoinLabels(t);
  }

  /** A dot separates: the labels of `a.b` are those of `a` and then those of `b`. */
  lemma {:induction false} LabelsSplit(a: string, b: string)
    ensures Labels(a + "." + b) == Labels(a) + Labels(b)
  {
    var s := a + "." + b;
    if a == "" {
      assert s[1..] == b;
    } else {
      LabelsSplit(a[1..], b);
      LabelsPrepend(a[0], a[1..]);
      LabelsPrepend(a[0], a[1..] + "." + b);
      assert a == [a[0]] + a[1..] && s == [a[0]] + (a[1..] + "." + b);
      Prepended(a[0], Labels(a[1..]), Labels(b));
    }
  }

  function Prepend(c: char, labels: seq<string>): seq<string>
    requires |labels| > 0
  {
    if c == '.' then [""] + labels else [[c] + labels[0]] + labels[1..]
  }

  lemma LabelsPrepend(c: char, s: string)
    ensures Labels([c] + s) == Prepend(c, Labels(s))
  {
  }

  lemma Prepended(c: char, x: seq<string>, y: seq<string>)
    requires |x| > 0
    ensures Prepend(c, x + y) == Prepend(c, x) + y
  {
  }

  lemma {:induction false} JoinSplit(front: seq<string>, back: seq<string>)
    requires |front| > 0 && |back| > 0
    ensures Join(front + back) == Join(front) + "." + Join(back)
  {
    if |front| == 1 {
      assert (front + back)[1..] == back;
    } else {
      JoinSplit(front[1..], back);
      assert (front + back)[1..] == front[1..] + back;
      var head, mid, tail := front[0], Join(front[1..]), Join(back);
      assert head + "." + (mid + "." + tail) == (head + "." + mid) + "." + tail;
    }
  }

  predicate ProperLabelSuffix(parent: string, name: string) {
    |Labels(parent)| < |Labels(name)| && Labels(name)[|Labels(name)| - |Labels(parent)|..] == Labels(parent)
  }

  /** The character test decides the label question, both ways. */
  lemma SubdomainIsLabelSuffix(parent: string, name: string)
    ensures IsSubdomainOf(parent, name) <==> ProperLabelSuffix(parent, name)
  {
    if IsSubdomainOf(parent, name) {
      var front := name[..|name| - |parent| - 1];
      assert name == front + "." + parent;
      LabelsSplit(front, parent);
    }
    if ProperLabelSuffix(parent, name) {
      var k := |Labels(name)| - |Labels(parent)|;
      var front := Labels(name)[..k];
      assert Labels(name) == front + Labels(parent);
      JoinSplit(front, Labels(parent));
      JoinLabels(name);
      JoinLabels(parent);
      assert name == Join(front) + "." + parent;
    }
  }

  // ---- the decision ----

  predicate RuleMatches(rule: Rule, name: string) {
    match rule
    case Domain(d) => name == d || IsSubdomainOf(d, name)
    case Wildcard(d) => IsSubdomainOf(d, name)
    case Cidr(_, _) => false
  }

  /** What a rule means: its labels end the name's labels, and for a wildcard do not exhaust them. */
  predicate RuleMeans(rule: Rule, labels: seq<string>) {
    match rule
    case Domain(d) => |Labels(d)| <= |labels| && labels[|labels| - |Labels(d)|..] == Labels(d)
    case Wildcard(d) => |Labels(d)| < |labels| && labels[|labels| - |Labels(d)|..] == Labels(d)
    case Cidr(_, _) => false
  }

  lemma RuleMatchesMeaning(rule: Rule, name: string)
    ensures RuleMatches(rule, name) <==> RuleMeans(rule, Labels(name))
  {
    if !rule.Cidr? {
      SubdomainIsLabelSuffix(rule.name, name);
      if rule.Domain? && |Labels(rule.name)| == |Labels(name)| && Labels(name)[0..] == Labels(rule.name) {
        LabelsInjective(name, rule.name);
      }
    }
  }

  predicate MatchesDomain(rules: seq<Rule>, query: string) {
    exists i :: 0 <= i < |rules| && RuleMatches(rules[i], Normalise(query))
  }

  /** Suffix matching is label matching: a name is allowed exactly when some rule's labels end its own. */
  lemma MatchesByLabels(rules: seq<Rule>, query: string)
    ensures MatchesDomain(rules, query) <==>
              exists i :: 0 <= i < |rules| && RuleMeans(rules[i], Labels(Normalise(query)))
  {
    var name := Normalise(query);
    forall i | 0 <= i < |rules| ensures RuleMatches(rules[i], name) <==> RuleMeans(rules[i], Labels(name)) {
      RuleMatchesMeaning(rules[i], name);
    }
  }

  // ---- spelling does not matter ----

  function Dots(n: nat): string {
    if n == 0 then "" else Dots(n - 1) + "."
  }

  lemma {:induction false} TrimDotsDrops(s: string, n: nat)
    ensures TrimDots(s + Dots(n)) == TrimDots(s)
  {
    if n == 0 {
      assert s + Dots(0) == s;
    } else {
      var t := s + Dots(n);
      assert t[..|t| - 1] == s + Dots(n - 1);
      TrimDotsDrops(s, n - 1);
    }
  }

  lemma {:induction false} TrimDotsLower(s: string)
    ensures TrimDots(Lower(s)) == Lower(TrimDots(s))
  {
    if s != "" && s[|s| - 1] == '.' {
      assert Lower(s)[..|s| - 1] == Lower(s[..|s| - 1]);
      TrimDotsLower(s[..|s| - 1]);
    }
  }

  lemma LowerTwice(s: string)
    ensures Lower(Lower(s)) == Lower(s)
  {
  }

  /** `u` is the capital of the small letter `l`. */
  predicate CapitalOf(u: char, l: char) {
    'A' <= u <= 'Z' && 'a' <= l <= 'z' && l as int - 'a' as int == u as int - 'A' as int
  }

  /** Equal but for the case of ASCII letters. */
  predicate SameSpelling(s: string, t: string) {
    |s| == |t| && forall i :: 0 <= i < |s| ==> s[i] == t[i] || CapitalOf(s[i], t[i]) || CapitalOf(t[i], s[i])
  }

  lemma LowerDecidesSpelling(s: string, t: string)
    ensures Lower(s) == Lower(t) <==> SameSpelling(s, t)
  {
    forall i | 0 <= i < |s| && i < |t|
      ensures Lower(s)[i] == Lower(t)[i] <==> s[i] == t[i] || CapitalOf(s[i], t[i]) || CapitalOf(t[i], s[i])
    {
    }
    if Lower(s) == Lower(t) {
      assert |Lower(s)| == |s| && |Lower(t)| == |t|;
    }
  }

  predicate NoFinalDot(s: string) { s == "" || s[|s| - 1] != '.' }

  /** The normal form: all trailing dots are dropped, no other character is, and no capital is left. */
  lemma {:induction false} NormaliseExact(s: string) returns (core: string, n: nat)
    ensures s == core + Dots(n) && NoFinalDot(core)
    ensures SameSpelling(Normalise(s), core) && forall c :: c in Normalise(s) ==> !('A' <= c <= 'Z')
  {
    core, n := s, 0;
    if s != "" && s[|s| - 1] == '.' {
      core, n := NormaliseExact(s[..|s| - 1]);
      assert s == s[..|s| - 1] + ".";
      n := n + 1;
      assert s == core + Dots(n);
    }
  }

  /** The answer depends neither on letter case nor on trailing dots. */
  lemma SpellingIsIrrelevant(rules: seq<Rule>, query: string, other: string, m: nat, n: nat)
    requires SameSpelling(query, other)
    ensures MatchesDomain(rules, query + Dots(m)) <==> MatchesDomain(rules, other + Dots(n))
  {
    LowerDecidesSpelling(query, other);
    TrimDotsDrops(query, m);
    TrimDotsDrops(other, n);
    TrimDotsLower(query);
    TrimDotsLower(other);
  }

  // ---- parsing ----

  /** The characters with the White_Space property of Unicode. */
  predicate IsSpace(c: char) {
    || '\t' <= c <= '\r' || c == ' ' || c == '\U{0085}' || c == '\U{00A0}' || c == '\U{1680}'
    || '\U{2000}' <= c <= '\U{200A}' || c == '\U{2028}' || c == '\U{2029}' || c == '\U{202F}'
    || c == '\U{205F}' || c == '\U{3000}'
  }

  function Trim(s: string): string {
    if s != "" && IsSpace(s[0]) then Trim(s[1..])
    else if s != "" && IsSpace(s[|s| - 1]) then Trim(s[..|s| - 1])
    else s
  }

  predicate IsDomainChar(c: char) {
    'a' <= c <= 'z' || 'A' <= c <= 'Z' || '0' <= c <= '9' || c == '.' || c == '-' || c == '_'
  }

  /** The library's parsers of address literals and blocks: a block as its first and last address. */
  datatype NetParsers = NetParsers(block: string -> Option<(Ipv4, Ipv4)>, literal: string -> Option<Ipv4>)

  function ParseRule(net: NetParsers, s: string): Option<Rule> {
    if '/' in s then
      match net.block(s)
      case Some(b) => Some(Cidr(b.0, b.1))
      case None => None
    else if net.literal(s).Some? then Some(Cidr(net.literal(s).value, net.literal(s).value))
    else if |s| >= 2 && s[..2] == "*." then
      if Normalise(s[2..]) == "" then None else Some(Wildcard(Normalise(s[2..])))
    else if forall c :: c in s ==> IsDomainChar(c) then Some(Domain(Normalise(s)))
    else None
  }

  function ParseAll(net: NetParsers, raw: seq<string>): Option<seq<Rule>> {
    if raw == [] then Some([])
    else
      var front, last := ParseAll(net, raw[..|raw| - 1]), Trim(raw[|raw| - 1]);
      if front.None? || last == "" then front
      else if ParseRule(net, last).None? then None
      else Some(front.value + [ParseRule(net, last).value])
  }

  /** Blank entries are skipped; the first bad one refuses the whole list. */
  method Parse(net: NetParsers, raw: seq<string>) returns (rules: Option<seq<Rule>>)
    ensures rules == ParseAll(net, raw)
  {
    var parsed: seq<Rule> := [];
    for i := 0 to |raw|
      invariant ParseAll(net, raw[..i]) == Some(parsed)
    {
      assert raw[..i + 1][..i] == raw[..i];
      var entry := Trim(raw[i]);
      if entry != "" {
        var rule := ParseRule(net, entry);
        if rule.None? {
          ParseStaysRefused(net, raw, i + 1);
          return None;
        }
        parsed := parsed + [rule.value];
      }
    }
    assert raw[..|raw|] == raw;
    rules := Some(parsed);
  }

  lemma {:induction false} ParseStaysRefused(net: NetParsers, raw: seq<string>, n: nat)
    requires n <= |raw| && ParseAll(net, raw[..n]).None?
    ensures ParseAll(net, raw).None?
  {
    if n == |raw| {
      assert raw[..n] == raw;
    } else {
      assert raw[..|raw| - 1][..n] == raw[..n];
      ParseStaysRefused(net, raw[..|raw| - 1], n);
    }
  }

  /** The list is accepted exactly when every entry is blank or a rule. */
  lemma {:induction false} ParseAccepts(net: NetParsers, raw: seq<string>)
    ensures ParseAll(net, raw).Some? <==>
              forall i :: 0 <= i < |raw| ==> Trim(raw[i]) == "" || ParseRule(net, Trim(raw[i])).Some?
  {
    if raw != [] {
      var front, last := raw[..|raw| - 1], |raw| - 1;
      ParseAccepts(net, front);
      assert forall i :: 0 <= i < last ==> front[i] == raw[i];
    }
  }

  /** Every rule that parsing yields is in normal form, so it is compared like with like. */
  lemma RulesAreNormal(net: NetParsers, s: string)
    requires ParseRule(net, s).Some? && !ParseRule(net, s).value.Cidr?
    ensures var name := ParseRule(net, s).value.name;
            && Normalise(name) == name
            && (ParseRule(net, s).value.Wildcard? ==> name != "")
  {
    var raw := if |s| >= 2 && s[..2] == "*." then s[2..] else s;
    TrimDotsTwice(raw);
    TrimDotsLower(TrimDots(raw));
    LowerTwice(TrimDots(raw));
  }

  lemma {:induction false} TrimDotsTwice(s: string)
    ensures TrimDots(TrimDots(s)) == TrimDots(s)
  {
    if s != "" && s[|s| - 1] == '.' { TrimDotsTwice(s[..|s| - 1]); }
  }

  // ---- from text to decision ----

  predicate IsBlank(s: string) { forall c :: c in s ==> IsSpace(c) }

  predicate NoOuterSpace(s: string) { s != "" ==> !IsSpace(s[0]) && !IsSpace(s[|s| - 1]) }

  /** Space is dropped at both ends, and nothing but space. */
  lemma {:induction false} TrimExact(s: string) returns (before: string, after: string)
    ensures s == before + Trim(s) + after && IsBlank(before) && IsBlank(after) && NoOuterSpace(Trim(s))
    decreases |s|
  {
    if s != "" && IsSpace(s[0]) {
      before, after := TrimExact(s[1..]);
      before := [s[0]] + before;
      assert s == [s[0]] + s[1..];
    } else if s != "" && IsSpace(s[|s| - 1]) {
      before, after := TrimExact(s[..|s| - 1]);
      after := after + [s[|s| - 1]];
      assert s == s[..|s| - 1] + [s[|s| - 1]];
    } else {
      before, after := "", "";
    }
  }

  lemma {:induction false} TrimDrops(before: string, s: string, after: string)
    requires IsBlank(before) && IsBlank(after) && NoOuterSpace(s)
    ensures Trim(before + s + after) == s
    decreases |before| + |after|
  {
    var t := before + s + after;
    if before != "" {
      assert t[0] == before[0] && t[1..] == before[1..] + s + after;
      assert before[0] in before && IsBlank(before[1..]);
      TrimDrops(before[1..], s, after);
    } else if after != "" {
      var front := after[..|after| - 1];
      assert after[|after| - 1] in after && IsBlank(front);
      assert t[|t| - 1] == after[|after| - 1] && t[..|t| - 1] == before + s + front;
      TrimDrops(before, s, front);
      if s == "" { AllBlank(t); }
    } else {
      assert t == s;
    }
  }

  lemma {:induction false} AllBlank(s: string)
    requires IsBlank(s)
    ensures Trim(s) == ""
  {
    if s != "" {
      assert s[0] in s && IsBlank(s[1..]);
      AllBlank(s[1..]);
    }
  }

  /** `q` ends in a dot and then `tail`, up to letter case. */
  ghost predicate Below(q: string, tail: string) {
    exists front, t :: q == front + "." + t && SameSpelling(t, tail)
  }

  /** What the character test says of two names in normal form, on the names as they were written. */
  lemma BelowMeansSubdomain(q: string, tail: string)
    ensures Below(q, tail) <==> IsSubdomainOf(Lower(tail), Lower(q))
  {
    if front, t :| q == front + "." + t && SameSpelling(t, tail) {
      LowerDecidesSpelling(t, tail);
      var k := |q| - |tail|;
      assert q[k..] == t && Lower(q)[k..] == Lower(q[k..]);
    }
    if IsSubdomainOf(Lower(tail), Lower(q)) {
      var k := |q| - |tail|;
      assert q == q[..k - 1] + "." + q[k..];
      assert Lower(q)[k..] == Lower(q[k..]);
      LowerDecidesSpelling(q[k..], tail);
    }
  }

  lemma NormalCore(core: string, n: nat)
    requires NoFinalDot(core)
    ensures Normalise(core + Dots(n)) == Lower(core)
  {
    TrimDotsDrops(core, n);
  }

  /** In ASCII: a letter, a digit, a dot, a hyphen or an underscore. */
  predicate IsNameCode(n: int) { 97 <= n <= 122 || 65 <= n <= 90 || 48 <= n <= 57 || n in {45, 46, 95} }

  lemma {:induction false} DotsOnly(n: nat, c: char)
    requires c in Dots(n)
    ensures c == '.'
  {
    if n > 0 && c in Dots(n - 1) { DotsOnly(n - 1, c); }
  }

  /** Without a slash, a leading star or the form of an address, an entry is a rule exactly if its characters are. */
  lemma NameEntryAccepted(net: NetParsers, name: string, n: nat)
    requires NoFinalDot(name) && net.literal(name + Dots(n)).None?
    requires name != "" ==> name[0] != '*'
    requires '/' !in name
    ensures ParseRule(net, name + Dots(n)) ==
            if forall c :: c in name ==> IsNameCode(c as int) then Some(Domain(Lower(name))) else None
  {
    var entry := name + Dots(n);
    forall c ensures c in entry ==> c in name || c == '.' {
      if c in Dots(n) { DotsOnly(n, c); }
    }
    forall c | c in name ensures c in entry { }
    assert IsDomainChar('.');
    if |entry| >= 2 && name == "" { assert entry[0] in entry; }
    assert |entry| >= 2 ==> entry[..2][0] == entry[0] != '*';
    NormalCore(name, n);
  }

  /**
   * A plain name, trailing dots or not, admits itself and everything below it,
   * in any letter case.
   */
  lemma DomainEntryAdmits(net: NetParsers, name: string, n: nat, q: string, m: nat)
    requires NoFinalDot(name) && NoFinalDot(q) && net.literal(name + Dots(n)).None?
    requires forall c :: c in name ==> IsNameCode(c as int)
    ensures EntryAdmits(net, name + Dots(n), q + Dots(m)) <==>
              name + Dots(n) != "" && (SameSpelling(q, name) || Below(q, name))
  {
    assert name != "" ==> name[0] in name;
    NameEntryAccepted(net, name, n);
    NormalCore(q, m);
    assert [Domain(Lower(name))][0] == Domain(Lower(name));
    LowerDecidesSpelling(q, name);
    BelowMeansSubdomain(q, name);
  }

  /** A star before a name admits everything below the name but not the name; a star before nothing is refused. */
  lemma WildcardEntryAdmits(net: NetParsers, name: string, n: nat, q: string, m: nat)
    requires NoFinalDot(name) && NoFinalDot(q)
    requires '/' !in name && net.literal("*." + name + Dots(n)).None?
    ensures ParseRule(net, "*." + name + Dots(n)).Some? <==> name != ""
    ensures name != "" ==>
              (MatchesDomain([ParseRule(net, "*." + name + Dots(n)).value], q + Dots(m)) <==> Below(q, name))
  {
    var entry := "*." + name + Dots(n);
    if '/' in Dots(n) { DotsOnly(n, '/'); }
    assert '/' !in entry;
    assert entry[..2] == "*." && entry[2..] == name + Dots(n);
    NormalCore(name, n);
    NormalCore(q, m);
    if name != "" {
      assert [ParseRule(net, entry).value][0] == Wildcard(Lower(name));
      BelowMeansSubdomain(q, name);
    }
  }

  /** A list admits a name exactly when one of its entries, without the space around it, does on its own. */
  lemma {:induction false} ListAdmits(net: NetParsers, raw: seq<string>, query: string)
    requires ParseAll(net, raw).Some?
    ensures MatchesDomain(ParseAll(net, raw).value, query) <==>
              exists i :: 0 <= i < |raw| && EntryAdmits(net, Trim(raw[i]), query)
  {
    if raw != [] {
      var front, last := raw[..|raw| - 1], |raw| - 1;
      ListAdmits(net, front, query);
      var rules, rest := ParseAll(net, raw).value, ParseAll(net, front).value;
      assert forall i :: 0 <= i < last ==> front[i] == raw[i];
      if Trim(raw[last]) != "" {
        var rule := ParseRule(net, Trim(raw[last])).value;
        assert rules == rest + [rule] && rules[|rest|] == rule && [rule][0] == rule;
        assert forall i :: 0 <= i < |rest| ==> rules[i] == rest[i];
      }
    }
  }

  predicate EntryAdmits(net: NetParsers, entry: string, query: string) {
    entry != "" && ParseRule(net, entry).Some? && MatchesDomain([ParseRule(net, entry).value], query)
  }
}
