/** How the byte size of a printed document changes when one value inside it is replaced. */
module PrintedSizes {
  import opened Basics
  import opened Json
  import opened Text
  import opened Printer
  import opened Bytes
  import opened DigitCounts

  function Size(v: Json, repr: FloatText): nat {
    |Encode(Print(v, repr))|
  }

  lemma {:induction false} MembersReplace(m: Fields, key: string, v: Json, w: Json, names: seq<string>, repr: FloatText)
    requires key in m && Distinct(names) && forall n <- names :: n in m
    ensures |Encode(PrintMembers(m[key := v], names, repr))| + (if key in names then Size(w, repr) else 0) ==
            |Encode(PrintMembers(m[key := w], names, repr))| + (if key in names then Size(v, repr) else 0)
    decreases |names|
  {
    hide Print, Quote, PrintMember, Encode;
    if names != [] {
      var name, rest := names[0], names[1..];
      assert forall n <- rest :: n in names;
      assert key in names <==> key == name || key in rest;
      assert name !in rest;
      MembersReplace(m, key, v, w, rest, repr);
      MembersStep(m[key := v], names, repr);
      MembersStep(m[key := w], names, repr);
      MemberSize(m[key := v], name, repr);
      MemberSize(m[key := w], name, repr);
    }
  }

  lemma MembersStep(m: Fields, names: seq<string>, repr: FloatText)
    requires names != [] && forall n <- names :: n in m
    ensures names[0] in m && forall n <- names[1..] :: n in m
    ensures |Encode(PrintMembers(m, names, repr))| ==
            |Encode(",")| + |Encode(PrintMember(m, names[0], repr))| + |Encode(PrintMembers(m, names[1..], repr))|
  {
    hide Encode, PrintMember;
    assert names[0] in names && forall n <- names[1..] :: n in names;
    EncodeConcat("," + PrintMember(m, names[0], repr), PrintMembers(m, names[1..], repr));
    EncodeConcat(",", PrintMember(m, names[0], repr));
  }

  lemma MemberSize(m: Fields, name: string, repr: FloatText)
    requires name in m
    ensures |Encode(PrintMember(m, name, repr))| == |Encode(Quote(name) + ":")| + Size(m[name], repr)
  {
    hide Encode, Quote, Print;
    EncodeConcat(Quote(name) + ":", Print(m[name], repr));
  }

  lemma NamesCover(m: Fields)
    requires m != map[]
    ensures var names := SortedStrings(m.Keys);
            names != [] && names[0] in m && (forall n <- names :: n in m) && forall n <- names[1..] :: n in m
  {
    hide SortedStrings;
    var names := SortedStrings(m.Keys);
    var k :| k in m;
    assert k in names && names[0] in names;
    assert forall n <- names[1..] :: n in names;
  }

  lemma ObjText(m: Fields, repr: FloatText)
    requires m != map[]
    ensures var names := SortedStrings(m.Keys);
            && names != [] && names[0] in m && (forall n <- names[1..] :: n in m)
            && Print(Obj(m), repr) == "{" + PrintMember(m, names[0], repr) + PrintMembers(m, names[1..], repr) + "}"
  {
    hide PrintMember, PrintMembers, SortedStrings;
    NamesCover(m);
  }

  lemma ObjSize(m: Fields, repr: FloatText)
    requires m != map[]
    ensures var names := SortedStrings(m.Keys);
            && names != [] && names[0] in m && (forall n <- names[1..] :: n in m)
            && Size(Obj(m), repr) == |Encode("{")| + |Encode(PrintMember(m, names[0], repr))|
                                     + |Encode(PrintMembers(m, names[1..], repr))| + |Encode("}")|
  {
    hide Encode, Print, PrintMember, PrintMembers, SortedStrings;
    ObjText(m, repr);
    var names := SortedStrings(m.Keys);
    EncodeFour("{", PrintMember(m, names[0], repr), PrintMembers(m, names[1..], repr), "}");
  }

  lemma EncodeFour(a: string, b: string, c: string, d: string)
    ensures |Encode(a + b + c + d)| == |Encode(a)| + |Encode(b)| + |Encode(c)| + |Encode(d)|
  {
    hide Encode;
    EncodeConcat(a + b + c, d);
    EncodeConcat(a + b, c);
    EncodeConcat(a, b);
  }

  /** Replacing one field's value changes the object's size by the difference of the two values' sizes. */
  lemma FieldReplace(m: Fields, key: string, v: Json, w: Json, repr: FloatText)
    requires key in m
    ensures Size(Obj(m[key := v]), repr) + Size(w, repr) == Size(Obj(m[key := w]), repr) + Size(v, repr)
  {
    hide Encode, PrintMember, PrintMembers, Print, Quote, SortedStrings, StrictlySorted;
    var f, g := m[key := v], m[key := w];
    var names := SortedStrings(m.Keys);
    assert f.Keys == m.Keys && g.Keys == m.Keys;
    assert key in f && key in g;
    ObjSize(f, repr);
    ObjSize(g, repr);
    SortedDistinct(SortedStrings(m.Keys));
    assert key in names;
    assert names[0] !in names[1..] && (key == names[0] || key in names[1..]);
    MembersReplace(m, key, v, w, names[1..], repr);
    MemberSize(f, names[0], repr);
    MemberSize(g, names[0], repr);
  }

  // ----- arrays -----

  lemma TailStep(items: seq<Json>, repr: FloatText)
    requires items != []
    ensures |Encode(PrintTail(items, repr))| == |Encode(",")| + Size(items[0], repr) + |Encode(PrintTail(items[1..], repr))|
  {
    hide Encode, Print;
    EncodeConcat("," + Print(items[0], repr), PrintTail(items[1..], repr));
    EncodeConcat(",", Print(items[0], repr));
  }

  lemma {:induction false} TailReplace(items: seq<Json>, i: nat, v: Json, w: Json, repr: FloatText)
    requires i < |items|
    ensures |Encode(PrintTail(items[i := v], repr))| + Size(w, repr) == |Encode(PrintTail(items[i := w], repr))| + Size(v, repr)
  {
    hide Encode, Print, PrintTail;
    TailStep(items[i := v], repr);
    TailStep(items[i := w], repr);
    if i == 0 {
      assert items[i := v][1..] == items[1..] == items[i := w][1..];
    } else {
      TailReplace(items[1..], i - 1, v, w, repr);
      assert items[i := v][1..] == items[1..][i - 1 := v] && items[i := w][1..] == items[1..][i - 1 := w];
    }
  }

  lemma ArrSize(items: seq<Json>, repr: FloatText)
    requires items != []
    ensures Size(Arr(items), repr) == |Encode("[")| + Size(items[0], repr) + |Encode(PrintTail(items[1..], repr))| + |Encode("]")|
  {
    hide Encode, PrintTail;
    var a, b := "[" + Print(items[0], repr), PrintTail(items[1..], repr);
    assert Print(Arr(items), repr) == a + b + "]";
    hide Print;
    EncodeConcat(a + b, "]");
    EncodeConcat(a, b);
    EncodeConcat("[", Print(items[0], repr));
  }

  /** Replacing one item changes the array's size by the difference of the two items' sizes. */
  lemma ItemReplace(items: seq<Json>, i: nat, v: Json, w: Json, repr: FloatText)
    requires i < |items|
    ensures Size(Arr(items[i := v]), repr) + Size(w, repr) == Size(Arr(items[i := w]), repr) + Size(v, repr)
  {
    hide Encode, Print, PrintTail;
    ArrSize(items[i := v], repr);
    ArrSize(items[i := w], repr);
    if i == 0 {
      assert items[i := v][1..] == items[1..] == items[i := w][1..];
    } else {
      TailReplace(items[1..], i - 1, v, w, repr);
      assert items[i := v][1..] == items[1..][i - 1 := v] && items[i := w][1..] == items[1..][i - 1 := w];
    }
  }

  // ----- leaves -----

  lemma IntSize(n: nat, repr: FloatText)
    ensures Size(Int(n), repr) == DigitCount(n)
  {
    EncodeAscii(Digits(n));
  }

  lemma {:induction false} PlainEscape(s: string)
    requires forall i | 0 <= i < |s| :: 'a' <= s[i] <= 'f' || '0' <= s[i] <= '9'
    ensures Escape(s) == s
  {
    if s != [] {
      PlainEscape(s[1..]);
    }
  }

  /** Every digest prints to the same number of bytes. */
  lemma DigestSize(digest: string, repr: FloatText)
    requires IsSha256(digest)
    ensures Size(Str(digest), repr) == 66
  {
    PlainEscape(digest);
    var text := "\"" + digest + "\"";
    forall i | 0 <= i < |text| ensures text[i] as int < 0x80 {
      if 0 < i < 65 { assert text[i] == digest[i - 1]; }
    }
    EncodeAscii(text);
  }

  lemma JsonBytesSize(v: Json, repr: FloatText)
    ensures |JsonBytes(v, repr)| == Size(v, repr) + |Encode("\n")|
  {
    hide Encode, Print;
    EncodeConcat(Print(v, repr), "\n");
  }
}
