/** Deploy tokens: what is authenticated, and what `Verify` accepts. */
module DeployKey {
  import opened Prelude

  newtype byte = i: int | 0 <= i < 256
  type bytes = seq<byte>

  const U32_MAX: nat := 0xFFFF_FFFF
  const MAC_LEN: nat := 32
  const HEX_MAC_LEN: nat := 64

  const WIRE_PREFIX: bytes := [98, 112, 49, 46]       // "bp1."
  const HMAC_DOMAIN_TAG: bytes := [98, 112, 49, 0]    // "bp1" and a zero byte

  // ---- the authenticated text ----

  function Min(a: nat, b: nat): nat { if a < b then a else b }

  /** The `k` low bytes of `n`, least significant first. */
  function LittleEndian(n: nat, k: nat): (r: bytes)
    ensures |r| == k
  {
    if k == 0 then [] else [(n % 256) as byte] + LittleEndian(n / 256, k - 1)
  }

  function FromLittleEndian(b: bytes): nat {
    if b == [] then 0 else b[0] as nat + 256 * FromLittleEndian(b[1..])
  }

  function Power256(k: nat): nat { if k == 0 then 1 else 256 * Power256(k - 1) }

  lemma {:induction false} LittleEndianRoundTrip(n: nat, k: nat)
    requires n < Power256(k)
    ensures FromLittleEndian(LittleEndian(n, k)) == n
  {
    if k > 0 {
      LittleEndianRoundTrip(n / 256, k - 1);
      assert LittleEndian(n, k)[1..] == LittleEndian(n / 256, k - 1);
    }
  }

  function Le32(n: nat): (r: bytes)
    requires n <= U32_MAX
    ensures |r| == 4
  {
    LittleEndian(n, 4)
  }

  lemma Le32Injective(n: nat, m: nat)
    requires n <= U32_MAX && m <= U32_MAX && Le32(n) == Le32(m)
    ensures n == m
  {
    assert Power256(4) == 0x1_0000_0000;
    LittleEndianRoundTrip(n, 4);
    LittleEndianRoundTrip(m, 4);
  }

  /** A field and its length, which saturates beyond 32 bits. */
  function Field(b: bytes): bytes { Le32(Min(|b|, U32_MAX)) + b }

  function MacInput(name: bytes, repo: bytes): bytes {
    HMAC_DOMAIN_TAG + Field(name) + Field(repo)
  }

  lemma FieldInjective(a: bytes, b: bytes)
    requires Field(a) == Field(b)
    ensures a == b
  {
    assert a == Field(a)[4..] && b == Field(b)[4..];
  }

  /** The field boundary cannot shift, as long as one of the lengths is not saturated. */
  lemma NameRecovered(n: bytes, r: bytes, m: bytes, q: bytes)
    requires Field(n) + r == Field(m) + q && |n| <= U32_MAX && (|n| < U32_MAX || |m| <= U32_MAX)
    ensures n == m && r == q
  {
    var x, y := Field(n) + r, Field(m) + q;
    assert x[..4] == Le32(|n|) && y[..4] == Le32(Min(|m|, U32_MAX));
    Le32Injective(|n|, Min(|m|, U32_MAX));
    assert x[4..] == n + r && y[4..] == m + q;
    assert n == x[4..4 + |n|] && m == y[4..4 + |m|];
    assert r == x[4 + |n|..] && q == y[4 + |m|..];
  }

  /** A name as long as the largest length the encoding can hold is ambiguous. */
  lemma LongNameCollides(name: bytes)
    requires |name| >= U32_MAX
    ensures MacInput(name, Le32(0)) == MacInput(name + Le32(4), [])
  {
  }

  /** Among names that fit the encoding, the text and the pair determine each other. */
  lemma FittingNamesInjective(name: bytes, repo: bytes, name': bytes, repo': bytes)
    requires |name| <= U32_MAX && |name'| <= U32_MAX
    ensures MacInput(name, repo) == MacInput(name', repo') <==> name == name' && repo == repo'
  {
    if MacInput(name, repo) == MacInput(name', repo') {
      TextDetermines(name, repo, name', repo');
    }
  }

  lemma TextDetermines(name: bytes, repo: bytes, name': bytes, repo': bytes)
    requires MacInput(name, repo) == MacInput(name', repo')
    requires |name| <= U32_MAX && (|name| < U32_MAX || |name'| <= U32_MAX)
    ensures name == name' && repo == repo'
  {
    var k := |HMAC_DOMAIN_TAG|;
    assert MacInput(name, repo)[k..] == Field(name) + Field(repo);
    assert MacInput(name', repo')[k..] == Field(name') + Field(repo');
    NameRecovered(name, Field(repo), name', Field(repo'));
    FieldInjective(repo, repo');
  }

  ghost predicate Unambiguous(name: bytes) {
    forall repo, name', repo' :: MacInput(name, repo) == MacInput(name', repo') ==> name == name' && repo == repo'
  }

  /**
   * What is authenticated determines the pair, for repositories of any
   * length, exactly when the name is shorter than 2^32 - 1 bytes.
   */
  lemma MacInputInjective(name: bytes)
    ensures Unambiguous(name) <==> |name| < U32_MAX
  {
    if |name| < U32_MAX {
      forall repo, name', repo' | MacInput(name, repo) == MacInput(name', repo')
        ensures name == name' && repo == repo'
      {
        TextDetermines(name, repo, name', repo');
      }
    } else {
      LongNameCollides(name);
    }
  }

  // ---- hexadecimal ----

  function HexDigit(n: nat): byte
    requires n < 16
  {
    if n < 10 then (48 + n) as byte else (87 + n) as byte
  }

  /** Either letter case. */
  function HexValue(c: byte): Option<nat> {
    if 48 <= c <= 57 then Some(c as nat - 48)
    else if 97 <= c <= 102 then Some(c as nat - 87)
    else if 65 <= c <= 70 then Some(c as nat - 55)
    else None
  }

  function HexEncode(b: bytes): (h: bytes)
    ensures |h| == 2 * |b|
  {
    if b == [] then [] else [HexDigit(b[0] as nat / 16), HexDigit(b[0] as nat % 16)] + HexEncode(b[1..])
  }

  function HexDecode(h: bytes): Option<bytes> {
    if h == [] then Some([])
    else if |h| == 1 then None
    else
      match (HexValue(h[0]), HexValue(h[1]), HexDecode(h[2..]))
      case (Some(hi), Some(lo), Some(rest)) => Some([(16 * hi + lo) as byte] + rest)
      case _ => None
  }

  /** `h` writes down `b`, two digits a byte, in either case. */
  predicate Spells(h: bytes, b: bytes) {
    && |h| == 2 * |b|
    && forall i :: 0 <= i < |b| ==>
         HexValue(h[2 * i]) == Some(b[i] as nat / 16) && HexValue(h[2 * i + 1]) == Some(b[i] as nat % 16)
  }

  lemma {:induction false} DecodeSpells(h: bytes, b: bytes)
    ensures HexDecode(h) == Some(b) <==> Spells(h, b)
  {
    if |h| >= 2 && b != [] {
      DecodeSpells(h[2..], b[1..]);
      assert b == [b[0]] + b[1..];
      SpellsTail(h, b);
    }
  }

  lemma SpellsTail(h: bytes, b: bytes)
    requires |h| >= 2 && b != []
    ensures Spells(h, b) <==>
              && HexValue(h[0]) == Some(b[0] as nat / 16) && HexValue(h[1]) == Some(b[0] as nat % 16)
              && Spells(h[2..], b[1..])
  {
  }

  lemma DigitHasValue(n: nat)
    requires n < 16
    ensures HexValue(HexDigit(n)) == Some(n)
  {
  }

  lemma {:induction false} EncodeSpells(b: bytes)
    ensures Spells(HexEncode(b), b)
  {
    if b != [] {
      var h, hi, lo := HexEncode(b), b[0] as nat / 16, b[0] as nat % 16;
      EncodeSpells(b[1..]);
      assert h[0] == HexDigit(hi) && h[1] == HexDigit(lo) && h[2..] == HexEncode(b[1..]);
      DigitHasValue(hi);
      DigitHasValue(lo);
      SpellsTail(h, b);
    }
  }

  // ---- the token ----

  /** HMAC-SHA256 under the host's secret (section 2 of RFC 2104), of which only the length is known. */
  ghost predicate IsMac(hmac: bytes -> bytes) {
    forall text :: |hmac(text)| == MAC_LEN
  }

  /** The tag, then each field with its length, one update after the other. */
  method MacBytes(hmac: bytes -> bytes, name: bytes, repo: bytes) returns (mac: bytes)
    ensures mac == hmac(MacInput(name, repo))
  {
    var text := HMAC_DOMAIN_TAG;
    text := text + Le32(Min(|name|, U32_MAX));
    text := text + name;
    text := text + Le32(Min(|repo|, U32_MAX));
    text := text + repo;
    assert text == MacInput(name, repo);
    mac := hmac(text);
  }

  /** What is derived for a pair is accepted for it. */
  method Derive(hmac: bytes -> bytes, name: bytes, repo: bytes) returns (token: bytes)
    ensures token == Token(hmac, name, repo)
    ensures IsMac(hmac) ==> Accepted(hmac, token, name, repo)
  {
    var mac := MacBytes(hmac, name, repo);
    token := WIRE_PREFIX;
    token := token + HexEncode(mac);
    EncodeSpells(mac);
  }

  function Token(hmac: bytes -> bytes, name: bytes, repo: bytes): bytes {
    WIRE_PREFIX + HexEncode(hmac(MacInput(name, repo)))
  }

  /** Exactly the prefix followed by 64 hexadecimal characters, of either case, that spell the pair's MAC. */
  method Verify(hmac: bytes -> bytes, presented: bytes, name: bytes, repo: bytes) returns (ok: bool)
    ensures ok <==> Accepted(hmac, presented, name, repo)
  {
    if |presented| != |WIRE_PREFIX| + HEX_MAC_LEN {
      return false;
    }
    if presented[..|WIRE_PREFIX|] != WIRE_PREFIX {
      return false;
    }
    var hexPart := presented[|WIRE_PREFIX|..];
    var decoded := HexDecode(hexPart);
    var expected := MacBytes(hmac, name, repo);
    DecodeSpells(hexPart, expected);
    ok := decoded.Some? && decoded.value == expected;
    if ok { assert presented == WIRE_PREFIX + hexPart; }
  }

  ghost predicate Accepted(hmac: bytes -> bytes, presented: bytes, name: bytes, repo: bytes) {
    exists h :: |h| == HEX_MAC_LEN && presented == WIRE_PREFIX + h && Spells(h, hmac(MacInput(name, repo)))
  }

  lemma {:induction false} SpellsOne(h: bytes, a: bytes, b: bytes)
    requires Spells(h, a) && Spells(h, b)
    ensures a == b
  {
  }

  /** A derived token opens another pair exactly when the two MACs collide, and always its own. */
  lemma TokenOpens(hmac: bytes -> bytes, name: bytes, repo: bytes, name': bytes, repo': bytes)
    requires IsMac(hmac)
    ensures Accepted(hmac, Token(hmac, name, repo), name', repo') <==>
              hmac(MacInput(name, repo)) == hmac(MacInput(name', repo'))
  {
    var mac := hmac(MacInput(name, repo));
    var h := HexEncode(mac);
    EncodeSpells(mac);
    assert Token(hmac, name, repo)[|WIRE_PREFIX|..] == h;
    var mac', token := hmac(MacInput(name', repo')), Token(hmac, name, repo);
    if g :| |g| == HEX_MAC_LEN && token == WIRE_PREFIX + g && Spells(g, mac') {
      assert g == (WIRE_PREFIX + g)[|WIRE_PREFIX|..] == h;
      SpellsOne(h, mac, mac');
    }
  }

  /** Unless the MAC itself collides on the two texts, a token opens its own pair only. */
  lemma TokenIsBound(hmac: bytes -> bytes, name: bytes, repo: bytes, name': bytes, repo': bytes)
    requires IsMac(hmac) && |name| < U32_MAX
    requires hmac(MacInput(name, repo)) == hmac(MacInput(name', repo')) ==>
               MacInput(name, repo) == MacInput(name', repo')
    ensures Accepted(hmac, Token(hmac, name, repo), name', repo') <==> name == name' && repo == repo'
  {
    TokenOpens(hmac, name, repo, name', repo');
    MacInputInjective(name);
  }

  // ---- the layout, byte by byte ----

  /**
   * What is authenticated: "bp1" and a zero byte, then each field after its
   * length, least significant byte first.
   */
  lemma MacInputLayout(name: bytes, repo: bytes, a: byte, b: byte, c: byte, d: byte, e: byte, f: byte, g: byte, h: byte)
    requires |name| == a as nat + 256 * b as nat + 65536 * c as nat + 16777216 * d as nat
    requires |repo| == e as nat + 256 * f as nat + 65536 * g as nat + 16777216 * h as nat
    ensures MacInput(name, repo) == [98, 112, 49, 0] + [a, b, c, d] + name + [e, f, g, h] + repo
  {
    Le32Bytes(a, b, c, d);
    Le32Bytes(e, f, g, h);
  }

  lemma Le32Bytes(a: byte, b: byte, c: byte, d: byte)
    ensures var n := a as nat + 256 * b as nat + 65536 * c as nat + 16777216 * d as nat;
            n <= U32_MAX && Le32(n) == [a, b, c, d]
  {
    var n3 := d as nat;
    var n2 := c as nat + 256 * n3;
    var n1 := b as nat + 256 * n2;
    var n := a as nat + 256 * n1;
    assert n / 256 == n1 && n1 / 256 == n2 && n2 / 256 == n3;
    assert LittleEndian(n3, 1) == [d];
    assert LittleEndian(n2, 2) == [c] + LittleEndian(n3, 1);
    assert LittleEndian(n1, 3) == [b] + LittleEndian(n2, 2);
    assert LittleEndian(n, 4) == [a] + LittleEndian(n1, 3);
  }

  /** A length that does not fit is written as four bytes 255. */
  lemma LongLengthLayout(name: bytes, repo: bytes)
    requires |name| >= U32_MAX
    ensures MacInput(name, repo)[..8] == [98, 112, 49, 0, 255, 255, 255, 255]
  {
    Le32Bytes(255, 255, 255, 255);
  }

  /**
   * A token is "bp1." and the MAC in small hexadecimal digits: the digit at
   * an even place is the high half of its byte.
   */
  lemma TokenLayout(hmac: bytes -> bytes, name: bytes, repo: bytes, i: nat)
    requires i < |hmac(MacInput(name, repo))|
    ensures var mac, token := hmac(MacInput(name, repo)), Token(hmac, name, repo);
            && |token| == 4 + 2 * |mac| && token[..4] == [98, 112, 49, 46]
            && SmallHex(token[4 + 2 * i], mac[i] as nat / 16) && SmallHex(token[5 + 2 * i], mac[i] as nat % 16)
  {
    HexEncodeAt(hmac(MacInput(name, repo)), i);
  }

  predicate SmallHex(c: byte, n: nat) {
    n < 16 && c == [48, 49, 50, 51, 52, 53, 54, 55, 56, 57, 97, 98, 99, 100, 101, 102][n]
  }

  lemma {:induction false} HexEncodeAt(b: bytes, i: nat)
    requires i < |b|
    ensures SmallHex(HexEncode(b)[2 * i], b[i] as nat / 16) && SmallHex(HexEncode(b)[2 * i + 1], b[i] as nat % 16)
  {
    if i > 0 { HexEncodeAt(b[1..], i - 1); }
  }

  /** The characters with a value are the digits and both cases of `a` to `f`, in order. */
  lemma HexValueExact(c: byte, n: nat)
    ensures HexValue(c) == Some(n) <==>
              SmallHex(c, n) || (n < 16 && c == [48, 49, 50, 51, 52, 53, 54, 55, 56, 57, 65, 66, 67, 68, 69, 70][n])
  {
    if HexValue(c) == Some(n) {
      assert n < 16;
    }
  }
}
