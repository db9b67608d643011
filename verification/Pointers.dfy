/** JSON pointers (sections 3 and 4 of RFC 6901) as confidentiality.py writes them. */
module Pointers {
  import opened Basics
  import opened Text

  /** `_pointer_token`: two replacements, the tilde first. */
  function PointerToken(value: string): string {
    ReplaceChar(ReplaceChar(value, '~', "~0"), '/', "~1")
  }

  function Pointer(tokens: seq<string>): string {
    if tokens == [] then "" else "/" + PointerToken(tokens[0]) + Pointer(tokens[1..])
  }

  // ----- reading a pointer -----

  function DecodeToken(text: string): string {
    if text == [] then []
    else if text[0] == '~' && |text| > 1 then
      [if text[1] == '1' then '/' else '~'] + DecodeToken(text[2..])
    else [text[0]] + DecodeToken(text[1..])
  }

  /** The length of the first token of `text`: up to the next slash. */
  function TokenLength(text: string): (n: nat)
    ensures n <= |text|
  {
    if text == [] || text[0] == '/' then 0 else 1 + TokenLength(text[1..])
  }

  function ParsePointer(path: string): seq<string> {
    if path == [] then []
    else
      var rest := path[1..];
      var n := TokenLength(rest);
      [DecodeToken(rest[..n])] + ParsePointer(rest[n..])
  }

  // ----- round trip -----

  function EscapeOne(c: char): string {
    if c == '~' then "~0" else if c == '/' then "~1" else [c]
  }

  lemma Assoc(a: string, b: string, c: string)
    ensures (a + b) + c == a + (b + c)
  {
  }

  lemma {:induction false} ReplaceConcat(a: string, b: string, c: char, replacement: string)
    ensures ReplaceChar(a + b, c, replacement) == ReplaceChar(a, c, replacement) + ReplaceChar(b, c, replacement)
  {
    if a == [] {
      assert a + b == b;
    } else {
      ReplaceConcat(a[1..], b, c, replacement);
      assert (a + b)[0] == a[0] && (a + b)[1..] == a[1..] + b;
      Assoc(if a[0] == c then replacement else [a[0]], ReplaceChar(a[1..], c, replacement), ReplaceChar(b, c, replacement));
    }
  }

  /** The two passes together escape character by character. */
  lemma TokenStep(value: string)
    requires value != []
    ensures PointerToken(value) == EscapeOne(value[0]) + PointerToken(value[1..])
  {
    var c := value[0];
    var first := if c == '~' then "~0" else [c];
    var rest := ReplaceChar(value[1..], '~', "~0");
    ReplaceConcat(first, rest, '/', "~1");
    assert ReplaceChar(value, '~', "~0") == first + rest;
    assert ReplaceChar(first, '/', "~1") == EscapeOne(c) by {
      assert ReplaceChar([c], '/', "~1") == (if c == '/' then "~1" else [c]) + ReplaceChar([], '/', "~1");
      assert "~0"[1..] == "0" && "0"[1..] == "";
      assert ReplaceChar("0", '/', "~1") == "0";
      assert ReplaceChar("~0", '/', "~1") == "~" + ReplaceChar("0", '/', "~1");
    }
  }

  lemma {:induction false} TokenRoundTrip(value: string)
    ensures DecodeToken(PointerToken(value)) == value
  {
    hide PointerToken;
    if value == [] {
      assert PointerToken([]) == [] by { EmptyToken(); }
    } else {
      TokenStep(value);
      TokenRoundTrip(value[1..]);
      var text := PointerToken(value);
      var rest := PointerToken(value[1..]);
      assert text[|EscapeOne(value[0])|..] == rest;
      assert value == [value[0]] + value[1..];
    }
  }

  lemma EmptyToken()
    ensures PointerToken([]) == []
  {
  }

  /** An escaped token holds no slash, so it ends where the next one begins. */
  lemma {:induction false} TokenEnds(value: string, rest: string)
    requires rest == [] || rest[0] == '/'
    ensures TokenLength(PointerToken(value) + rest) == |PointerToken(value)|
  {
    hide PointerToken;
    if value == [] {
      EmptyToken();
      assert PointerToken(value) + rest == rest;
    } else {
      TokenStep(value);
      TokenEnds(value[1..], rest);
      NoSlashSkips(EscapeOne(value[0]), PointerToken(value[1..]) + rest);
      assert PointerToken(value) + rest == EscapeOne(value[0]) + (PointerToken(value[1..]) + rest);
    }
  }

  lemma {:induction false} NoSlashSkips(head: string, rest: string)
    requires forall i | 0 <= i < |head| :: head[i] != '/'
    ensures TokenLength(head + rest) == |head| + TokenLength(rest)
  {
    if head == [] {
      assert head + rest == rest;
    } else {
      NoSlashSkips(head[1..], rest);
      assert (head + rest)[0] == head[0] && (head + rest)[1..] == head[1..] + rest;
    }
  }

  /** Every path decodes to the token list it was written from. */
  lemma {:induction false} PointerRoundTrip(tokens: seq<string>)
    ensures ParsePointer(Pointer(tokens)) == tokens
  {
    hide PointerToken, DecodeToken, TokenLength;
    if tokens != [] {
      var path, token, rest := Pointer(tokens), PointerToken(tokens[0]), Pointer(tokens[1..]);
      PointerRoundTrip(tokens[1..]);
      TokenRoundTrip(tokens[0]);
      TokenEnds(tokens[0], rest);
      assert path[1..] == token + rest;
      assert (token + rest)[..|token|] == token && (token + rest)[|token|..] == rest;
      assert tokens == [tokens[0]] + tokens[1..];
    }
  }

  lemma {:induction false} PointerConcat(a: seq<string>, b: seq<string>)
    ensures Pointer(a + b) == Pointer(a) + Pointer(b)
  {
    hide PointerToken;
    if a == [] {
      assert a + b == b;
    } else {
      PointerConcat(a[1..], b);
      assert (a + b)[0] == a[0] && (a + b)[1..] == a[1..] + b;
      Assoc("/" + PointerToken(a[0]), Pointer(a[1..]), Pointer(b));
    }
  }

  lemma SameSplit(a: string, b: string, s: string, t: string)
    requires a + s == b + t && |a| == |b|
    ensures a == b && s == t
  {
    assert a == (a + s)[..|a|] && b == (b + t)[..|b|];
    assert s == (a + s)[|a|..] && t == (b + t)[|b|..];
  }

  lemma AfterSlash(token: string, rest: string)
    ensures ("/" + token + rest)[1..] == token + rest
  {
  }

  /** A path that extends another as text, at a slash, has tokens that extend the other's. */
  lemma {:induction false} PointerPrefix(a: seq<string>, b: seq<string>, suffix: string)
    requires Pointer(b) == Pointer(a) + suffix && (suffix == [] || suffix[0] == '/')
    ensures a <= b
  {
    hide PointerToken, TokenLength;
    if a != [] {
      var token := PointerToken(a[0]);
      Assoc("/" + token, Pointer(a[1..]), suffix);
      assert b != [];
      var other := PointerToken(b[0]);
      var ra, rb := Pointer(a[1..]) + suffix, Pointer(b[1..]);
      AfterSlash(token, ra);
      AfterSlash(other, rb);
      TokenEnds(a[0], ra);
      TokenEnds(b[0], rb);
      SameSplit(token, other, ra, rb);
      TokenRoundTrip(a[0]);
      TokenRoundTrip(b[0]);
      PointerPrefix(a[1..], b[1..], suffix);
      assert a == [a[0]] + a[1..] && b == [b[0]] + b[1..];
    }
  }
}
