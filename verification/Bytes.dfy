/** UTF-8 file contents and the SHA-256 parameter. */
module Bytes {
  import opened Basics
  import opened Json
  import opened Text
  import opened Printer

  newtype byte = b: int | 0 <= b < 256

  type Content = seq<byte>

  /** The hexadecimal SHA-256 of a byte string. */
  type Sha256 = Content -> string

  // ----- UTF-8 -----

  function EncodeChar(c: char): Content {
    var p := c as int;
    if p < 0x80 then [p as byte]
    else if p < 0x800 then [(0xC0 + p / 64) as byte, (0x80 + p % 64) as byte]
    else if p < 0x10000 then
      [(0xE0 + p / 4096) as byte, (0x80 + p / 64 % 64) as byte, (0x80 + p % 64) as byte]
    else
      [(0xF0 + p / 262144) as byte, (0x80 + p / 4096 % 64) as byte, (0x80 + p / 64 % 64) as byte, (0x80 + p % 64) as byte]
  }

  function Encode(s: string): Content {
    if s == [] then [] else EncodeChar(s[0]) + Encode(s[1..])
  }

  /** How many bytes a scalar takes, read off its first byte, and the scalar itself. */
  function Width(first: byte): nat {
    if first < 0x80 then 1 else if first < 0xE0 then 2 else if first < 0xF0 then 3 else 4
  }

  function Scalar(x: Content): int
    requires x != [] && Width(x[0]) <= |x|
  {
    match Width(x[0])
    case 1 => x[0] as int
    case 2 => (x[0] as int - 0xC0) * 64 + (x[1] as int - 0x80)
    case 3 => (x[0] as int - 0xE0) * 4096 + (x[1] as int - 0x80) * 64 + (x[2] as int - 0x80)
    case _ =>
      (x[0] as int - 0xF0) * 262144 + (x[1] as int - 0x80) * 4096 + (x[2] as int - 0x80) * 64 + (x[3] as int - 0x80)
  }

  lemma EncodeCharDecodes(c: char)
    ensures Width(EncodeChar(c)[0]) == |EncodeChar(c)|
    ensures Scalar(EncodeChar(c)) == c as int
  {
    var p := c as int;
    assert p == p / 64 * 64 + p % 64;
    assert p / 64 == p / 64 / 64 * 64 + p / 64 % 64 && p / 64 / 64 == p / 4096;
    assert p / 4096 == p / 4096 / 64 * 64 + p / 4096 % 64 && p / 4096 / 64 == p / 262144;
  }

  lemma EncodeCharUnique(c: char, d: char, s: Content, t: Content)
    requires EncodeChar(c) + s == EncodeChar(d) + t
    ensures c == d && s == t
  {
    var x := EncodeChar(c) + s;
    EncodeCharDecodes(c);
    EncodeCharDecodes(d);
    var a, b := EncodeChar(c), EncodeChar(d);
    SameHead(a, b, s, t);
    assert a == b by {
      assert a == x[..|a|] && b == x[..|b|];
    }
    assert x[|a|..] == s && (b + t)[|b|..] == t;
  }

  lemma SameHead(a: Content, b: Content, s: Content, t: Content)
    requires a != [] && b != [] && a + s == b + t
    ensures a[0] == b[0]
  {
    assert (a + s)[0] == a[0] && (b + t)[0] == b[0];
  }

  lemma {:induction false} EncodeInjective(a: string, b: string)
    requires Encode(a) == Encode(b)
    ensures a == b
  {
    if a != [] && b != [] {
      EncodeCharUnique(a[0], b[0], Encode(a[1..]), Encode(b[1..]));
      EncodeInjective(a[1..], b[1..]);
      assert a == [a[0]] + a[1..];
    } else {
      assert a != [] ==> |Encode(a)| > 0;
      assert b != [] ==> |Encode(b)| > 0;
    }
  }

  lemma {:induction false} EncodeConcat(a: string, b: string)
    ensures Encode(a + b) == Encode(a) + Encode(b)
  {
    hide EncodeChar;
    if a == [] {
      assert a + b == b;
    } else {
      EncodeConcat(a[1..], b);
      assert (a + b)[0] == a[0] && (a + b)[1..] == a[1..] + b;
    }
  }

  lemma {:induction false} EncodeAscii(a: string)
    requires forall i | 0 <= i < |a| :: a[i] as int < 0x80
    ensures |Encode(a)| == |a|
  {
    if a != [] {
      EncodeAscii(a[1..]);
    }
  }

  // ----- a reader of UTF-8, from the byte ranges of section 4 of RFC 3629 -----

  predicate Tail(b: byte) {
    0x80 <= b <= 0xBF
  }

  /** The second byte's range, narrower after four of the first bytes. */
  predicate Second(first: byte, b: byte) {
    && Tail(b) && (first == 0xE0 ==> b >= 0xA0) && (first == 0xED ==> b <= 0x9F)
    && (first == 0xF0 ==> b >= 0x90) && (first == 0xF4 ==> b <= 0x8F)
  }

  /** How many bytes a sequence with that first byte has; none, if it starts no sequence. */
  function SequenceLength(first: byte): nat {
    if first <= 0x7F then 1
    else if 0xC2 <= first <= 0xDF then 2
    else if 0xE0 <= first <= 0xEF then 3
    else if 0xF0 <= first <= 0xF4 then 4
    else 0
  }

  /** The bytes begin with a well-formed sequence. */
  predicate BeginsSequence(x: Content) {
    && x != [] && 1 <= SequenceLength(x[0]) <= |x|
    && (SequenceLength(x[0]) >= 2 ==> Second(x[0], x[1]))
    && (SequenceLength(x[0]) >= 3 ==> Tail(x[2]))
    && (SequenceLength(x[0]) == 4 ==> Tail(x[3]))
  }

  /** The scalar value a well-formed sequence denotes: its payload bits, six for each byte after the first. */
  function Denoted(x: Content): (scalar: int)
    requires BeginsSequence(x)
    ensures 0 <= scalar < 0xD800 || 0xE000 <= scalar < 0x11_0000
  {
    match SequenceLength(x[0])
    case 1 => x[0] as int
    case 2 => (x[0] as int - 0xC0) * 64 + (x[1] as int - 0x80)
    case 3 => ((x[0] as int - 0xE0) * 64 + (x[1] as int - 0x80)) * 64 + (x[2] as int - 0x80)
    case _ => (((x[0] as int - 0xF0) * 64 + (x[1] as int - 0x80)) * 64 + (x[2] as int - 0x80)) * 64 + (x[3] as int - 0x80)
  }

  /** The text the bytes denote, if they are UTF-8. */
  function Decode(x: Content): Option<string> {
    if x == [] then Some("")
    else if !BeginsSequence(x) then None
    else
      match Decode(x[SequenceLength(x[0])..])
      case None => None
      case Some(rest) => Some([Denoted(x) as char] + rest)
  }

  lemma EncodedBegins(c: char, rest: Content)
    ensures var x := EncodeChar(c) + rest;
            BeginsSequence(x) && SequenceLength(x[0]) == |EncodeChar(c)| && Denoted(x) == c as int
  {
    var p, a := c as int, EncodeChar(c);
    assert p == p / 64 * 64 + p % 64;
    assert p / 64 == p / 64 / 64 * 64 + p / 64 % 64 && p / 64 / 64 == p / 4096;
    assert p / 4096 == p / 4096 / 64 * 64 + p / 4096 % 64 && p / 4096 / 64 == p / 262144;
  }

  lemma SixBits(u: nat, v: nat)
    requires v < 64
    ensures (u * 64 + v) / 64 == u && (u * 64 + v) % 64 == v
  {
  }

  lemma BegunTwo(x: Content)
    requires BeginsSequence(x) && SequenceLength(x[0]) == 2
    ensures x[..2] == EncodeChar(Denoted(x) as char)
  {
    var a, b := x[0] as int - 0xC0, x[1] as int - 0x80;
    SixBits(a, b);
    assert Denoted(x) == a * 64 + b;
  }

  lemma BegunThree(x: Content)
    requires BeginsSequence(x) && SequenceLength(x[0]) == 3
    ensures x[..3] == EncodeChar(Denoted(x) as char)
  {
    var a, b, c := x[0] as int - 0xE0, x[1] as int - 0x80, x[2] as int - 0x80;
    SixBits(a, b);
    SixBits(a * 64 + b, c);
    var p := Denoted(x);
    assert p == (a * 64 + b) * 64 + c && p / 4096 == p / 64 / 64;
    assert 0x800 <= p < 0x10000;
  }

  lemma BegunFour(x: Content)
    requires BeginsSequence(x) && SequenceLength(x[0]) == 4
    ensures x[..4] == EncodeChar(Denoted(x) as char)
  {
    var a, b, c, d := x[0] as int - 0xF0, x[1] as int - 0x80, x[2] as int - 0x80, x[3] as int - 0x80;
    SixBits(a, b);
    SixBits(a * 64 + b, c);
    SixBits((a * 64 + b) * 64 + c, d);
    var p := Denoted(x);
    assert p == ((a * 64 + b) * 64 + c) * 64 + d && p / 4096 == p / 64 / 64 && p / 262144 == p / 64 / 64 / 64;
    assert 0x10000 <= p;
  }

  lemma BegunIsEncoded(x: Content)
    requires BeginsSequence(x)
    ensures x[..SequenceLength(x[0])] == EncodeChar(Denoted(x) as char)
  {
    hide Denoted, Second;
    var n := SequenceLength(x[0]);
    if n == 1 {
      BegunOne(x);
    } else if n == 2 {
      BegunTwo(x);
    } else if n == 3 {
      BegunThree(x);
    } else {
      BegunFour(x);
    }
  }

  lemma BegunOne(x: Content)
    requires BeginsSequence(x) && SequenceLength(x[0]) == 1
    ensures x[..1] == EncodeChar(Denoted(x) as char)
  {
  }

  lemma Begun(x: Content)
    ensures BeginsSequence(x) ==> x != [] && 1 <= SequenceLength(x[0]) <= |x|
  {
  }

  /** The bytes written for a text are exactly the UTF-8 that denotes it. */
  lemma {:induction false} EncodedIffDecoded(x: Content, s: string)
    ensures x == Encode(s) <==> Decode(x) == Some(s)
    decreases |x| + |s|
  {
    hide BeginsSequence, Denoted, EncodeChar, SequenceLength;
    if s != [] {
      var rest := Encode(s[1..]);
      EncodedBegins(s[0], rest);
      if x == Encode(s) {
        EncodedIffDecoded(rest, s[1..]);
        assert x[|EncodeChar(s[0])|..] == rest;
        assert s == [s[0]] + s[1..];
      }
    }
    if x != [] && Decode(x) == Some(s) {
      Begun(x);
      BegunIsEncoded(x);
      var n := SequenceLength(x[0]);
      EncodedIffDecoded(x[n..], s[1..]);
      assert s[1..] == Decode(x[n..]).value;
      assert x == x[..n] + x[n..];
    }
  }

  // ----- digests -----

  predicate IsSha256(digest: string) {
    |digest| == 64 && forall i | 0 <= i < 64 :: 'a' <= digest[i] <= 'f' || '0' <= digest[i] <= '9'
  }

  /** Different contents among those at hand have different digests. */
  ghost predicate CollisionFree(sha: Sha256, contents: set<Content>) {
    forall a, b | a in contents && b in contents && sha(a) == sha(b) :: a == b
  }

  /** `canonical_sha256`: the digest of the UTF-8 canonical text. */
  function CanonicalSha256(sha: Sha256, repr: FloatText, v: Json): string {
    sha(Encode(Print(v, repr)))
  }

  /** Equal canonical digests mean equal values, when SHA-256 does not collide on the two texts. */
  lemma CanonicalSha256Commits(sha: Sha256, repr: FloatText, v: Json, w: Json, floats: set<real>)
    requires FloatsWithin(v, floats) && FloatsWithin(w, floats) && Faithful(repr, floats)
    requires CollisionFree(sha, {Encode(Print(v, repr)), Encode(Print(w, repr))})
    ensures CanonicalSha256(sha, repr, v) == CanonicalSha256(sha, repr, w) <==> v == w
  {
    if CanonicalSha256(sha, repr, v) == CanonicalSha256(sha, repr, w) {
      EncodeInjective(Print(v, repr), Print(w, repr));
      PrintInjective(v, w, repr, floats);
    }
  }

  /** `json_bytes`: the canonical text with a final newline, in UTF-8. */
  function JsonBytes(v: Json, repr: FloatText): Content {
    Encode(Print(v, repr) + "\n")
  }

  lemma JsonBytesInjective(v: Json, w: Json, repr: FloatText, floats: set<real>)
    requires FloatsWithin(v, floats) && FloatsWithin(w, floats) && Faithful(repr, floats)
    requires JsonBytes(v, repr) == JsonBytes(w, repr)
    ensures v == w
  {
    var x, y := Print(v, repr) + "\n", Print(w, repr) + "\n";
    EncodeInjective(x, y);
    assert x[..|x| - 1] == Print(v, repr) && y[..|y| - 1] == Print(w, repr);
    PrintInjective(v, w, repr, floats);
  }
}
