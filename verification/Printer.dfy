/**
 The canonical text (canonical.py, `json.dumps` with sorted keys, compact separators and no ASCII
 escaping). Float rendering is the parameter `repr`.
 */
module Printer {
  import opened Basics
  import opened Json
  import opened Text
  import opened Canonical

  type FloatText = real -> string

  // ----- strings -----

  function ShortEscape(c: char): Option<char> {
    match c
    case '\"' => Some('\"')
    case '\\' => Some('\\')
    case '\U{0008}' => Some('b')
    case '\U{000C}' => Some('f')
    case '\n' => Some('n')
    case '\r' => Some('r')
    case '\t' => Some('t')
    case _ => None
  }

  const HEX: string := "0123456789abcdef"

  function EscapeChar(c: char): string {
    match ShortEscape(c)
    case Some(letter) => ['\\', letter]
    case None =>
      if c as int < 0x20 then "\\u00" + [HEX[c as int / 16], HEX[c as int % 16]] else [c]
  }

  function Escape(s: string): string {
    if s == [] then [] else EscapeChar(s[0]) + Escape(s[1..])
  }

  function Quote(s: string): string {
    "\"" + Escape(s) + "\""
  }

  // ----- values -----

  function Print(v: Json, repr: FloatText): string
    decreases v, 1, 0
  {
    match v
    case Null => "null"
    case Bool(b) => if b then "true" else "false"
    case Int(n) => IntText(n)
    case Float(r) => repr(r)
    case Str(s) => Quote(s)
    case Arr(items) =>
      if items == [] then "[]" else "[" + Print(items[0], repr) + PrintTail(items[1..], repr) + "]"
    case Obj(fields) =>
      var names := SortedStrings(fields.Keys);
      if names == [] then "{}"
      else "{" + PrintMember(fields, names[0], repr) + PrintMembers(fields, names[1..], repr) + "}"
  }

  function PrintTail(items: seq<Json>, repr: FloatText): string
    decreases items, 0, 0
  {
    if items == [] then "" else "," + Print(items[0], repr) + PrintTail(items[1..], repr)
  }

  function PrintMember(fields: Fields, name: string, repr: FloatText): string
    requires name in fields
    decreases Obj(fields), 0, 0
  {
    Quote(name) + ":" + Print(fields[name], repr)
  }

  function PrintMembers(fields: Fields, names: seq<string>, repr: FloatText): string
    requires forall n <- names :: n in fields
    decreases Obj(fields), 0, |names| + 1
  {
    if names == [] then ""
    else assert names[0] in names; "," + PrintMember(fields, names[0], repr) + PrintMembers(fields, names[1..], repr)
  }

  /** `canonical_json(value)` */
  function CanonicalText(v: PyValue, repr: FloatText): Result<string, CanonicalizationError> {
    var normalized :- Normalize(v);
    Ok(Print(normalized, repr))
  }

  // ----- unique readability -----

  predicate NumberChar(c: char) {
    '0' <= c <= '9' || c in "+-.e"
  }

  /** The shape of a finite float's `repr`: number characters, with a point or an exponent. */
  predicate FloatToken(t: string) {
    && t != [] && (t[0] == '-' || '0' <= t[0] <= '9')
    && (forall i | 0 <= i < |t| :: NumberChar(t[i]))
    && exists i :: 0 <= i < |t| && t[i] in ".e"
  }

  /** `repr` tells the floats at hand apart, and writes each as a float. */
  ghost predicate Faithful(repr: FloatText, floats: set<real>) {
    && (forall r <- floats :: FloatToken(repr(r)))
    && (forall r, q | r in floats && q in floats && repr(r) == repr(q) :: r == q)
  }

  predicate FloatsWithin(v: Json, floats: set<real>) {
    match v
    case Float(r) => r in floats
    case Arr(items) => forall i | 0 <= i < |items| :: FloatsWithin(items[i], floats)
    case Obj(fields) => forall k | k in fields :: FloatsWithin(fields[k], floats)
    case _ => true
  }

  /** What may follow a printed value: nothing, or a separator. */
  predicate Delimited(rest: string) {
    rest == [] || rest[0] in ",]}"
  }

  /** Cancelling a common prefix of a concatenation. */
  lemma PrefixCancels(a: string, s: string, t: string)
    requires a + s == a + t
    ensures s == t
  {
    assert (a + s)[|a|..] == s && (a + t)[|a|..] == t;
  }

  lemma NumberTokenEnds(a: string, b: string, s: string, t: string)
    requires forall i | 0 <= i < |a| :: NumberChar(a[i])
    requires forall i | 0 <= i < |b| :: NumberChar(b[i])
    requires Delimited(s) && Delimited(t) && a + s == b + t
    ensures a == b && s == t
  {
    var x := a + s;
    assert forall i | 0 <= i < |a| :: x[i] == a[i];
    assert forall i | 0 <= i < |b| :: x[i] == b[i];
    assert |a| < |x| ==> x[|a|] == s[0] && !NumberChar(x[|a|]);
    assert |b| < |x| ==> x[|b|] == t[0] && !NumberChar(x[|b|]);
    assert |a| == |b|;
    assert a == x[..|a|] && b == x[..|b|];
    PrefixCancels(a, s, t);
  }

  // Regrouping a concatenation, and dropping its first character.

  lemma Regroup(a: string, b: string, c: string, d: string)
    ensures a + b + c + d == a + (b + c + d)
    ensures a + b + c == a + (b + c)
  {
  }

  lemma DropHead(head: char, a: string, b: string, c: string)
    ensures ([head] + a + b + c)[1..] == a + (b + c)
    ensures ([head] + a + b)[1..] == a + b
    ensures ([head] + a)[1..] == a
  {
  }

  /** How long an escape is, read off the first two characters of the text it starts. */
  function EscapeWidth(x: string): nat {
    if x == [] || x[0] != '\\' then 1 else if |x| > 1 && x[1] == 'u' then 6 else 2
  }

  lemma EscapeCharWidth(c: char, s: string)
    ensures |EscapeChar(c)| == EscapeWidth(EscapeChar(c) + s)
  {
  }

  lemma EscapeCharInjective(c: char, d: char)
    requires EscapeChar(c) == EscapeChar(d)
    ensures c == d
  {
    if |EscapeChar(c)| == 6 {
      assert HEX[c as int / 16] == EscapeChar(c)[4] && HEX[c as int % 16] == EscapeChar(c)[5];
      assert HEX[d as int / 16] == EscapeChar(d)[4] && HEX[d as int % 16] == EscapeChar(d)[5];
    } else if |EscapeChar(c)| == 2 {
      assert EscapeChar(c)[1] == EscapeChar(d)[1];
    } else {
      assert EscapeChar(c)[0] == EscapeChar(d)[0];
    }
  }

  lemma EscapeCharUnique(c: char, d: char, s: string, t: string)
    requires EscapeChar(c) + s == EscapeChar(d) + t
    ensures c == d && s == t
  {
    hide EscapeChar, EscapeWidth;
    var x := EscapeChar(c) + s;
    EscapeCharWidth(c, s);
    EscapeCharWidth(d, t);
    assert EscapeChar(c) == x[..|EscapeChar(c)|] && EscapeChar(d) == x[..|EscapeChar(d)|];
    EscapeCharInjective(c, d);
    PrefixCancels(EscapeChar(c), s, t);
  }

  lemma EscapeEnds(a: string, s: string)
    ensures (Escape(a) + "\"" + s)[0] == '\"' <==> a == []
    ensures a != [] ==> Escape(a) + "\"" + s == EscapeChar(a[0]) + (Escape(a[1..]) + "\"" + s)
    ensures a == [] ==> Escape(a) + "\"" + s == "\"" + s
  {
    if a != [] {
      Regroup(EscapeChar(a[0]), Escape(a[1..]), "\"", s);
    }
  }

  lemma {:induction false} EscapeUnique(a: string, b: string, s: string, t: string)
    requires Escape(a) + "\"" + s == Escape(b) + "\"" + t
    ensures a == b && s == t
  {
    EscapeEnds(a, s);
    EscapeEnds(b, t);
    if a == [] {
      PrefixCancels("\"", s, t);
    } else {
      EscapeCharUnique(a[0], b[0], Escape(a[1..]) + "\"" + s, Escape(b[1..]) + "\"" + t);
      EscapeUnique(a[1..], b[1..], s, t);
      assert a == [a[0]] + a[1..];
    }
  }

  lemma QuoteUnique(a: string, b: string, s: string, t: string)
    requires Quote(a) + s == Quote(b) + t
    ensures a == b && s == t
  {
    DropHead('\"', Escape(a), "\"", s);
    DropHead('\"', Escape(b), "\"", t);
    assert Escape(a) + ("\"" + s) == Escape(a) + "\"" + s;
    assert Escape(b) + ("\"" + t) == Escape(b) + "\"" + t;
    EscapeUnique(a, b, s, t);
  }

  /** The first character of a printed value determines its kind. */
  function Kind(c: char): nat {
    if c == 'n' then 0
    else if c == 't' || c == 'f' then 1
    else if c == '-' || '0' <= c <= '9' then 2
    else if c == '\"' then 3
    else if c == '[' then 4
    else if c == '{' then 5
    else 6
  }

  lemma PrintStarts(v: Json, repr: FloatText, floats: set<real>)
    requires FloatsWithin(v, floats) && Faithful(repr, floats)
    ensures Print(v, repr) != []
    ensures Kind(Print(v, repr)[0]) ==
            match v case Null => 0 case Bool(_) => 1 case Int(_) => 2 case Float(_) => 2
                    case Str(_) => 3 case Arr(_) => 4 case Obj(_) => 5
  {
  }

  /**
   Unique readability: a printed value can be told from any other, wherever it stands. Two values
   whose texts agree up to what follows them are equal, and so is what follows.
   */
  lemma {:induction false} PrintUnique(v: Json, w: Json, s: string, t: string, repr: FloatText, floats: set<real>)
    requires FloatsWithin(v, floats) && FloatsWithin(w, floats) && Faithful(repr, floats)
    requires Delimited(s) && Delimited(t)
    requires Print(v, repr) + s == Print(w, repr) + t
    ensures v == w && s == t
    decreases v, 3, 0
  {
    PrintStarts(v, repr, floats);
    PrintStarts(w, repr, floats);
    var x := Print(v, repr) + s;
    assert x[0] == Print(v, repr)[0] == Print(w, repr)[0];
    match v
    case Null =>
      PrefixCancels("null", s, t);
    case Bool(b) =>
      assert x[0] == if b then 't' else 'f';
      PrefixCancels(if b then "true" else "false", s, t);
    case Int(_) => NumbersUnique(v, w, s, t, repr, floats);
    case Float(_) => NumbersUnique(v, w, s, t, repr, floats);
    case Str(a) =>
      QuoteUnique(a, w.s, s, t);
    case Arr(items) =>
      ArraysUnique(items, w.items, s, t, repr, floats);
    case Obj(fields) =>
      ObjectsUnique(fields, w.fields, s, t, repr, floats);
  }

  lemma NumbersUnique(v: Json, w: Json, s: string, t: string, repr: FloatText, floats: set<real>)
    requires (v.Int? || v.Float?) && (w.Int? || w.Float?)
    requires FloatsWithin(v, floats) && FloatsWithin(w, floats) && Faithful(repr, floats)
    requires Delimited(s) && Delimited(t)
    requires Print(v, repr) + s == Print(w, repr) + t
    ensures v == w && s == t
  {
    NumberTokenEnds(Print(v, repr), Print(w, repr), s, t);
    if v.Int? && w.Int? {
      IntTextInjective(v.n, w.n);
    }
  }

  /** How the text of an array, of its remaining items, of an object and of its remaining members begins. */
  lemma ArrayOpens(xs: seq<Json>, s: string, repr: FloatText, floats: set<real>)
    requires FloatsWithin(Arr(xs), floats) && Faithful(repr, floats)
    ensures Print(Arr(xs), repr) + s != [] && |Print(Arr(xs), repr) + s| > 1
    ensures (Print(Arr(xs), repr) + s)[1] == ']' <==> xs == []
    ensures xs == [] ==> Print(Arr(xs), repr) + s == "[]" + s
    ensures xs != [] ==>
              (Print(Arr(xs), repr) + s)[1..] == Print(xs[0], repr) + (PrintTail(xs[1..], repr) + "]" + s)
  {
    if xs != [] {
      PrintStarts(xs[0], repr, floats);
      DropHead('[', Print(xs[0], repr), PrintTail(xs[1..], repr) + "]", s);
      Regroup("[" + Print(xs[0], repr), PrintTail(xs[1..], repr), "]", s);
      Regroup("[" + Print(xs[0], repr), PrintTail(xs[1..], repr) + "]", s, []);
    }
  }

  lemma TailOpens(xs: seq<Json>, s: string, repr: FloatText)
    ensures (PrintTail(xs, repr) + "]" + s)[0] == ']' <==> xs == []
    ensures xs == [] ==> PrintTail(xs, repr) + "]" + s == "]" + s
    ensures xs != [] ==>
              (PrintTail(xs, repr) + "]" + s)[1..] == Print(xs[0], repr) + (PrintTail(xs[1..], repr) + "]" + s)
  {
    if xs != [] {
      DropHead(',', Print(xs[0], repr), PrintTail(xs[1..], repr) + "]", s);
      Regroup("," + Print(xs[0], repr), PrintTail(xs[1..], repr), "]", s);
      Regroup("," + Print(xs[0], repr), PrintTail(xs[1..], repr) + "]", s, []);
    }
  }

  lemma ObjectOpens(m: Fields, names: seq<string>, s: string, repr: FloatText)
    requires names == SortedStrings(m.Keys)
    ensures |Print(Obj(m), repr) + s| > 1
    ensures (Print(Obj(m), repr) + s)[1] == '}' <==> names == []
    ensures names == [] ==> Print(Obj(m), repr) + s == "{}" + s
    ensures names != [] ==>
              && names[0] in names
              && (forall k <- names[1..] :: k in names)
              && (Print(Obj(m), repr) + s)[1..]
                 == PrintMember(m, names[0], repr) + (PrintMembers(m, names[1..], repr) + "}" + s)
  {
    if names != [] {
      var first, rest := PrintMember(m, names[0], repr), PrintMembers(m, names[1..], repr);
      assert first[0] == '\"';
      DropHead('{', first, rest + "}", s);
      Regroup("{" + first, rest, "}", s);
      Regroup("{" + first, rest + "}", s, []);
    }
  }

  lemma MembersOpen(m: Fields, names: seq<string>, s: string, repr: FloatText)
    requires forall k <- names :: k in m
    ensures (PrintMembers(m, names, repr) + "}" + s)[0] == '}' <==> names == []
    ensures names == [] ==> PrintMembers(m, names, repr) + "}" + s == "}" + s
    ensures names != [] ==>
              && names[0] in names
              && (forall k <- names[1..] :: k in names)
              && (PrintMembers(m, names, repr) + "}" + s)[1..]
                 == PrintMember(m, names[0], repr) + (PrintMembers(m, names[1..], repr) + "}" + s)
  {
    if names != [] {
      assert names[0] in names;
      var first, rest := PrintMember(m, names[0], repr), PrintMembers(m, names[1..], repr);
      DropHead(',', first, rest + "}", s);
      Regroup("," + first, rest, "}", s);
      Regroup("," + first, rest + "}", s, []);
    }
  }

  lemma {:induction false} ArraysUnique(xs: seq<Json>, ys: seq<Json>, s: string, t: string, repr: FloatText, floats: set<real>)
    requires FloatsWithin(Arr(xs), floats) && FloatsWithin(Arr(ys), floats) && Faithful(repr, floats)
    requires Print(Arr(xs), repr) + s == Print(Arr(ys), repr) + t
    ensures xs == ys && s == t
    decreases Arr(xs), 0, 0
  {
    ArrayOpens(xs, s, repr, floats);
    ArrayOpens(ys, t, repr, floats);
    if xs == [] {
      PrefixCancels("[]", s, t);
    } else {
      PrintUnique(xs[0], ys[0], PrintTail(xs[1..], repr) + "]" + s, PrintTail(ys[1..], repr) + "]" + t, repr, floats);
      TailsUnique(xs[1..], ys[1..], s, t, repr, floats);
      assert xs == [xs[0]] + xs[1..];
    }
  }

  lemma {:induction false} TailsUnique(xs: seq<Json>, ys: seq<Json>, s: string, t: string, repr: FloatText, floats: set<real>)
    requires forall i | 0 <= i < |xs| :: FloatsWithin(xs[i], floats)
    requires forall i | 0 <= i < |ys| :: FloatsWithin(ys[i], floats)
    requires Faithful(repr, floats)
    requires PrintTail(xs, repr) + "]" + s == PrintTail(ys, repr) + "]" + t
    ensures xs == ys && s == t
    decreases xs, 0, 0
  {
    TailOpens(xs, s, repr);
    TailOpens(ys, t, repr);
    if xs == [] {
      PrefixCancels("]", s, t);
    } else {
      PrintUnique(xs[0], ys[0], PrintTail(xs[1..], repr) + "]" + s, PrintTail(ys[1..], repr) + "]" + t, repr, floats);
      TailsUnique(xs[1..], ys[1..], s, t, repr, floats);
      assert xs == [xs[0]] + xs[1..];
    }
  }

  lemma {:induction false} ObjectsUnique(m: Fields, n: Fields, s: string, t: string, repr: FloatText, floats: set<real>)
    requires FloatsWithin(Obj(m), floats) && FloatsWithin(Obj(n), floats) && Faithful(repr, floats)
    requires Print(Obj(m), repr) + s == Print(Obj(n), repr) + t
    ensures m == n && s == t
    decreases Obj(m), 2, 0
  {
    var ms, ns := SortedStrings(m.Keys), SortedStrings(n.Keys);
    ObjectOpens(m, ms, s, repr);
    ObjectOpens(n, ns, t, repr);
    if ms == [] {
      PrefixCancels("{}", s, t);
      assert m.Keys == {} == n.Keys;
    } else {
      var a, b := PrintMembers(m, ms[1..], repr) + "}" + s, PrintMembers(n, ns[1..], repr) + "}" + t;
      MembersOpen(m, ms[1..], s, repr);
      MembersOpen(n, ns[1..], t, repr);
      MemberUnique(m, n, ms[0], ns[0], a, b, repr, floats);
      MembersUnique(m, n, ms[1..], ns[1..], s, t, repr, floats);
      SameMembers(m, n, ms, ns);
    }
  }

  lemma SameMembers(m: Fields, n: Fields, ms: seq<string>, ns: seq<string>)
    requires (forall k :: k in ms <==> k in m) && (forall k :: k in ns <==> k in n)
    requires ms != [] && ns != [] && ms[0] == ns[0] && ms[1..] == ns[1..]
    requires ms[0] in m && ms[0] in n && m[ms[0]] == n[ms[0]]
    requires forall k <- ms[1..] :: k in m && k in n && m[k] == n[k]
    ensures m == n
  {
    assert ms == [ms[0]] + ms[1..] && ns == [ns[0]] + ns[1..];
    assert m.Keys == n.Keys by { assert forall k :: k in m <==> k in ms; }
    forall k | k in m ensures m[k] == n[k] {
      assert k in ms;
    }
  }

  lemma {:induction false} MemberUnique(m: Fields, n: Fields, k: string, l: string, s: string, t: string,
                                        repr: FloatText, floats: set<real>)
    requires k in m && l in n
    requires FloatsWithin(m[k], floats) && FloatsWithin(n[l], floats) && Faithful(repr, floats)
    requires Delimited(s) && Delimited(t)
    requires PrintMember(m, k, repr) + s == PrintMember(n, l, repr) + t
    ensures k == l && m[k] == n[l] && s == t
    decreases Obj(m), 1, 0
  {
    var p, q := Print(m[k], repr), Print(n[l], repr);
    Regroup(Quote(k), ":", p, s);
    Regroup(Quote(l), ":", q, t);
    QuoteUnique(k, l, ":" + p + s, ":" + q + t);
    DropHead(':', p, s, []);
    DropHead(':', q, t, []);
    PrintUnique(m[k], n[l], s, t, repr, floats);
  }

  lemma {:induction false} MembersUnique(m: Fields, n: Fields, ms: seq<string>, ns: seq<string>, s: string, t: string,
                                         repr: FloatText, floats: set<real>)
    requires (forall k <- ms :: k in m) && (forall k <- ns :: k in n)
    requires FloatsWithin(Obj(m), floats) && FloatsWithin(Obj(n), floats) && Faithful(repr, floats)
    requires PrintMembers(m, ms, repr) + "}" + s == PrintMembers(n, ns, repr) + "}" + t
    ensures ms == ns && s == t
    ensures forall k <- ms :: k in n && m[k] == n[k]
    decreases Obj(m), 1, |ms| + 1
  {
    MembersOpen(m, ms, s, repr);
    MembersOpen(n, ns, t, repr);
    if ms == [] {
      PrefixCancels("}", s, t);
    } else {
      var a, b := PrintMembers(m, ms[1..], repr) + "}" + s, PrintMembers(n, ns[1..], repr) + "}" + t;
      MembersOpen(m, ms[1..], s, repr);
      MembersOpen(n, ns[1..], t, repr);
      MemberUnique(m, n, ms[0], ns[0], a, b, repr, floats);
      MembersUnique(m, n, ms[1..], ns[1..], s, t, repr, floats);
      assert ms == [ms[0]] + ms[1..];
    }
  }

  /** Distinct normalized values have distinct canonical texts. */
  lemma PrintInjective(v: Json, w: Json, repr: FloatText, floats: set<real>)
    requires FloatsWithin(v, floats) && FloatsWithin(w, floats) && Faithful(repr, floats)
    requires Print(v, repr) == Print(w, repr)
    ensures v == w
  {
    assert Print(v, repr) + [] == Print(w, repr) + [];
    PrintUnique(v, w, [], [], repr, floats);
  }

  /** Two acceptable values have one canonical text exactly when they differ in spelling only. */
  lemma CanonicalTextIffSameShape(v: PyValue, w: PyValue, repr: FloatText, floats: set<real>)
    requires WellFormed(v) && WellFormed(w) && Normalize(v).Ok? && Normalize(w).Ok?
    requires FloatsWithin(Normalize(v).value, floats) && FloatsWithin(Normalize(w).value, floats)
    requires Faithful(repr, floats)
    ensures CanonicalText(v, repr) == CanonicalText(w, repr) <==> SameShape(v, w)
  {
    NormalizeForgetsSpellingOnly(v, w);
    if CanonicalText(v, repr) == CanonicalText(w, repr) {
      PrintInjective(Normalize(v).value, Normalize(w).value, repr, floats);
    }
  }
}
