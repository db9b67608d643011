/**
 A reader of JSON texts, after sections 2 to 7 of RFC 8259 and without reference to the printer, and the
 proof that it reads every canonical text back.
 */
module JsonReader {
  import opened Basics
  import opened Json
  import opened Text
  import opened Canonical
  import opened Printer

  // ----- what is read -----

  /** A text's structure: members in the order they are written. */
  datatype Syntax = Scalar(value: Json) | List(items: seq<Syntax>) | Table(members: seq<Member>)

  datatype Member = Member(name: string, value: Syntax)

  /** The value a structure denotes; of members with one name the last counts. */
  function ValueOf(t: Syntax): Json
    decreases t, 0
  {
    match t
    case Scalar(v) => v
    case List(items) => Arr(seq(|items|, i requires 0 <= i < |items| => ValueOf(items[i])))
    case Table(members) => Obj(FieldsOf(members))
  }

  function FieldsOf(members: seq<Member>): Fields
    decreases members, 1
  {
    if members == [] then map[]
    else FieldsOf(Front(members))[Last(members).name := ValueOf(Last(members).value)]
  }

  /** The members of every object are written in strictly increasing code-point order of their names. */
  predicate NamesRise(t: Syntax) {
    match t
    case Scalar(_) => true
    case List(items) => forall i | 0 <= i < |items| :: NamesRise(items[i])
    case Table(members) =>
      && (forall i, j | 0 <= i < j < |members| :: StrLess(members[i].name, members[j].name))
      && forall i | 0 <= i < |members| :: NamesRise(members[i].value)
  }

  /** A value read, and the text after it. */
  datatype Taken<+T> = Taken(value: T, rest: string)

  /** `float(text)` */
  type FloatReader = string -> real

  // ----- section 2: insignificant whitespace, if it is allowed -----

  function Skip(s: string, spaced: bool): (t: string)
    ensures |t| <= |s|
  {
    if spaced && s != [] && s[0] in " \t\n\r" then Skip(s[1..], spaced) else s
  }

  // ----- section 6: numbers -----

  predicate Digit(c: char) {
    '0' <= c <= '9'
  }

  /** How many digits the text begins with. */
  function DigitRun(s: string): (n: nat)
    ensures n <= |s| && forall i | 0 <= i < n :: Digit(s[i])
    ensures n < |s| ==> !Digit(s[n])
  {
    if s == [] || !Digit(s[0]) then 0 else 1 + DigitRun(s[1..])
  }

  /** The length of an integer part: zero, or digits that do not begin with zero. */
  function IntegerLength(s: string): (n: nat)
    ensures n <= |s|
  {
    if s != [] && s[0] == '0' then 1 else DigitRun(s)
  }

  function FractionLength(s: string): (n: nat)
    ensures n <= |s|
  {
    if s != [] && s[0] == '.' && DigitRun(s[1..]) > 0 then 1 + DigitRun(s[1..]) else 0
  }

  /** Digits with an optional sign before them. */
  function SignedRun(s: string): (n: nat)
    ensures n <= |s|
  {
    if s != [] && s[0] in "+-" then (if DigitRun(s[1..]) > 0 then 1 + DigitRun(s[1..]) else 0) else DigitRun(s)
  }

  function ExponentLength(s: string): (n: nat)
    ensures n <= |s|
  {
    if s != [] && s[0] in "eE" && SignedRun(s[1..]) > 0 then 1 + SignedRun(s[1..]) else 0
  }

  /** The longest number the text begins with: its integer part, and the fraction and exponent after it. */
  datatype NumberToken = NumberToken(integer: nat, more: nat)

  function FindNumber(s: string): (t: Option<NumberToken>)
    ensures t.Some? ==> 0 < t.value.integer && t.value.integer + t.value.more <= |s|
  {
    var sign := if s != [] && s[0] == '-' then 1 else 0;
    var digits := IntegerLength(s[sign..]);
    if digits == 0 then None
    else
      var integer := sign + digits;
      var fraction := FractionLength(s[integer..]);
      Some(NumberToken(integer, fraction + ExponentLength(s[integer + fraction..])))
  }

  function IntegerValue(s: string): int {
    if s != [] && s[0] == '-' then -DigitsValue(s[1..]) else DigitsValue(s)
  }

  function ReadNumber(s: string, float: FloatReader): (r: Option<Taken<Json>>)
    ensures r.Some? ==> |r.value.rest| < |s|
  {
    match FindNumber(s)
    case None => None
    case Some(token) =>
      var end := token.integer + token.more;
      Some(Taken(if token.more == 0 then Int(IntegerValue(s[..end])) else Float(float(s[..end])), s[end..]))
  }

  // ----- section 7: strings -----

  function HexDigit(c: char): Option<nat> {
    if '0' <= c <= '9' then Some(c as int - '0' as int)
    else if 'a' <= c <= 'f' then Some(10 + c as int - 'a' as int)
    else if 'A' <= c <= 'F' then Some(10 + c as int - 'A' as int)
    else None
  }

  /** Four hexadecimal digits. */
  function ReadUnit(s: string): (r: Option<Taken<nat>>)
    ensures r.Some? ==> |r.value.rest| < |s| && r.value.value < 0x10000
  {
    if |s| < 4 then None
    else
      match (HexDigit(s[0]), HexDigit(s[1]), HexDigit(s[2]), HexDigit(s[3]))
      case (Some(a), Some(b), Some(c), Some(d)) =>
        if a < 16 && b < 16 && c < 16 && d < 16 then Some(Taken(4096 * a + 256 * b + 16 * c + d, s[4..])) else None
      case _ => None
  }

  /** A `\u` escape after its letter: one unit, or a surrogate pair. */
  function ReadUnicode(s: string): (r: Option<Taken<char>>)
    ensures r.Some? ==> |r.value.rest| < |s|
  {
    match ReadUnit(s)
    case None => None
    case Some(Taken(high, rest)) =>
      if high < 0xD800 || 0xE000 <= high then Some(Taken(high as char, rest))
      else if high < 0xDC00 && |rest| >= 2 && rest[0] == '\\' && rest[1] == 'u' then
        match ReadUnit(rest[2..])
        case Some(Taken(low, after)) =>
          if 0xDC00 <= low < 0xE000
          then Some(Taken((0x10000 + 0x400 * (high - 0xD800) + (low - 0xDC00)) as char, after)) else None
        case None => None
      else None
  }

  /** The escape after a backslash. */
  function ReadEscape(s: string): (r: Option<Taken<char>>)
    ensures r.Some? ==> |r.value.rest| < |s|
  {
    if s == [] then None
    else match s[0]
      case '\"' => Some(Taken('\"', s[1..]))
      case '\\' => Some(Taken('\\', s[1..]))
      case '/' => Some(Taken('/', s[1..]))
      case 'b' => Some(Taken('\U{0008}', s[1..]))
      case 'f' => Some(Taken('\U{000C}', s[1..]))
      case 'n' => Some(Taken('\n', s[1..]))
      case 'r' => Some(Taken('\r', s[1..]))
      case 't' => Some(Taken('\t', s[1..]))
      case 'u' => ReadUnicode(s[1..])
      case _ => None
  }

  /** A string after its opening quotation mark. */
  function ReadChars(s: string): (r: Option<Taken<string>>)
    ensures r.Some? ==> |r.value.rest| < |s|
    decreases |s|
  {
    if s == [] || s[0] as int < 0x20 then None
    else if s[0] == '\"' then Some(Taken("", s[1..]))
    else
      var first := if s[0] == '\\' then ReadEscape(s[1..]) else Some(Taken(s[0], s[1..]));
      match first
      case None => None
      case Some(Taken(c, after)) =>
        match ReadChars(after)
        case None => None
        case Some(Taken(tail, rest)) => Some(Taken([c] + tail, rest))
  }

  // ----- sections 3 to 5: values, objects and arrays -----

  function AfterLiteral(s: string, name: string, value: Json): (r: Option<Taken<Syntax>>)
    requires name != []
    ensures r.Some? ==> |r.value.rest| < |s|
  {
    if name <= s then Some(Taken(Scalar(value), s[|name|..])) else None
  }

  function AsScalar(r: Option<Taken<Json>>): Option<Taken<Syntax>> {
    match r case None => None case Some(Taken(v, rest)) => Some(Taken(Scalar(v), rest))
  }

  /** A value. */
  function ReadValue(s: string, spaced: bool, float: FloatReader): (r: Option<Taken<Syntax>>)
    ensures r.Some? ==> |r.value.rest| < |s|
    decreases |s|, 0
  {
    var t := Skip(s, spaced);
    if t == [] then None
    else match t[0]
      case '{' =>
        var u := Skip(t[1..], spaced);
        if u != [] && u[0] == '}' then Some(Taken(Table([]), u[1..]))
        else
          (match ReadMembers(t[1..], spaced, float)
           case None => None
           case Some(Taken(members, rest)) => Some(Taken(Table(members), rest)))
      case '[' =>
        var u := Skip(t[1..], spaced);
        if u != [] && u[0] == ']' then Some(Taken(List([]), u[1..]))
        else
          (match ReadItems(t[1..], spaced, float)
           case None => None
           case Some(Taken(items, rest)) => Some(Taken(List(items), rest)))
      case '\"' =>
        (match ReadChars(t[1..])
         case None => None
         case Some(Taken(text, rest)) => Some(Taken(Scalar(Str(text)), rest)))
      case 't' => AfterLiteral(t, "true", Bool(true))
      case 'f' => AfterLiteral(t, "false", Bool(false))
      case 'n' => AfterLiteral(t, "null", Null)
      case _ => AsScalar(ReadNumber(t, float))
  }

  /** One or more items and the closing bracket. */
  function ReadItems(s: string, spaced: bool, float: FloatReader): (r: Option<Taken<seq<Syntax>>>)
    ensures r.Some? ==> |r.value.rest| < |s|
    decreases |s|, 1
  {
    match ReadValue(s, spaced, float)
    case None => None
    case Some(Taken(item, after)) =>
      var t := Skip(after, spaced);
      if t == [] then None
      else if t[0] == ']' then Some(Taken([item], t[1..]))
      else if t[0] != ',' then None
      else
        match ReadItems(t[1..], spaced, float)
        case None => None
        case Some(Taken(items, rest)) => Some(Taken([item] + items, rest))
  }

  /** One name, colon and value. */
  function ReadMember(s: string, spaced: bool, float: FloatReader): (r: Option<Taken<Member>>)
    ensures r.Some? ==> |r.value.rest| < |s|
    decreases |s|, 1
  {
    var t := Skip(s, spaced);
    if t == [] || t[0] != '\"' then None
    else
      match ReadChars(t[1..])
      case None => None
      case Some(Taken(name, after)) =>
        var u := Skip(after, spaced);
        if u == [] || u[0] != ':' then None
        else
          match ReadValue(u[1..], spaced, float)
          case None => None
          case Some(Taken(value, rest)) => Some(Taken(Member(name, value), rest))
  }

  /** One or more members and the closing brace. */
  function ReadMembers(s: string, spaced: bool, float: FloatReader): (r: Option<Taken<seq<Member>>>)
    ensures r.Some? ==> |r.value.rest| < |s|
    decreases |s|, 2
  {
    match ReadMember(s, spaced, float)
    case None => None
    case Some(Taken(member, after)) =>
      var t := Skip(after, spaced);
      if t == [] then None
      else if t[0] == '}' then Some(Taken([member], t[1..]))
      else if t[0] != ',' then None
      else
        match ReadMembers(t[1..], spaced, float)
        case None => None
        case Some(Taken(members, rest)) => Some(Taken([member] + members, rest))
  }

  /** A whole text: one value, and whitespace around it if that is allowed. */
  function ReadText(s: string, spaced: bool, float: FloatReader): Option<Syntax> {
    match ReadValue(s, spaced, float)
    case None => None
    case Some(Taken(t, rest)) => if Skip(rest, spaced) == [] then Some(t) else None
  }

  // ----- numbers are read back -----

  /** What follows a printed value begins no digit, fraction or exponent, and is not whitespace. */
  predicate Bounds(rest: string) {
    rest == [] || rest[0] in ",]}"
  }

  lemma {:induction false} DigitRunStands(a: string, rest: string)
    requires Bounds(rest)
    ensures DigitRun(a + rest) == DigitRun(a)
  {
    if a == [] {
      assert a + rest == rest;
    } else if Digit(a[0]) {
      assert (a + rest)[1..] == a[1..] + rest;
      DigitRunStands(a[1..], rest);
    }
  }

  lemma PartsStand(a: string, rest: string)
    requires Bounds(rest)
    ensures IntegerLength(a + rest) == IntegerLength(a) && FractionLength(a + rest) == FractionLength(a)
  {
    DigitRunStands(a, rest);
    if a == [] {
      assert a + rest == rest;
    } else {
      assert (a + rest)[1..] == a[1..] + rest;
      DigitRunStands(a[1..], rest);
    }
  }

  lemma SignedRunStands(a: string, rest: string)
    requires Bounds(rest)
    ensures SignedRun(a + rest) == SignedRun(a)
  {
    hide DigitRun;
    DigitRunStands(a, rest);
    if a == [] {
      assert a + rest == rest;
    } else {
      assert (a + rest)[0] == a[0];
      DropConcat(a, rest, 1);
      DigitRunStands(a[1..], rest);
    }
  }

  lemma ExponentStands(a: string, rest: string)
    requires Bounds(rest)
    ensures ExponentLength(a + rest) == ExponentLength(a)
  {
    hide SignedRun;
    if a == [] {
      assert a + rest == rest;
    } else {
      assert (a + rest)[0] == a[0];
      DropConcat(a, rest, 1);
      SignedRunStands(a[1..], rest);
    }
  }

  lemma DropConcat(a: string, rest: string, k: nat)
    requires k <= |a|
    ensures (a + rest)[k..] == a[k..] + rest
  {
  }

  lemma MoreStands(a: string, rest: string)
    requires Bounds(rest)
    ensures FractionLength(a + rest) == FractionLength(a)
    ensures var fraction := FractionLength(a);
            fraction <= |a + rest| && ExponentLength((a + rest)[fraction..]) == ExponentLength(a[fraction..])
  {
    hide IntegerLength, FractionLength, ExponentLength;
    PartsStand(a, rest);
    var fraction := FractionLength(a);
    DropConcat(a, rest, fraction);
    ExponentStands(a[fraction..], rest);
  }

  /** A number is found in front of a delimiter as it is found alone. */
  lemma NumberStands(a: string, rest: string)
    requires Bounds(rest)
    ensures FindNumber(a + rest) == FindNumber(a)
  {
    hide IntegerLength, FractionLength, ExponentLength;
    if a == [] {
      assert a + rest == rest;
      NoNumber(rest);
      NoNumber(a);
    } else {
      var sign := if a[0] == '-' then 1 else 0;
      DropConcat(a, rest, sign);
      PartsStand(a[sign..], rest);
      var integer := sign + IntegerLength(a[sign..]);
      DropConcat(a, rest, integer);
      MoreStands(a[integer..], rest);
      var fraction := FractionLength(a[integer..]);
      assert (a + rest)[integer + fraction..] == (a + rest)[integer..][fraction..];
      assert a[integer + fraction..] == a[integer..][fraction..];
    }
  }

  lemma NoNumber(s: string)
    requires Bounds(s)
    ensures FindNumber(s) == None
  {
    assert s[0..] == s;
  }

  lemma {:induction false} AllDigits(s: string)
    requires forall i | 0 <= i < |s| :: Digit(s[i])
    ensures DigitRun(s) == |s|
  {
    if s != [] {
      AllDigits(s[1..]);
    }
  }

  lemma {:induction false} NoLeadingZero(n: nat)
    ensures Digits(n)[0] == '0' <==> n == 0
    ensures n == 0 ==> |Digits(n)| == 1
  {
    if n >= 10 {
      NoLeadingZero(n / 10);
      assert Digits(n)[0] == Digits(n / 10)[0];
    } else {
      assert DIGITS[0] == '0' && (n > 0 ==> DIGITS[n] != '0');
    }
  }

  lemma DigitsAreAnInteger(n: nat)
    ensures IntegerLength(Digits(n)) == |Digits(n)| && DigitRun([]) == 0
  {
    NoLeadingZero(n);
    AllDigits(Digits(n));
  }

  lemma IntegerIsFound(n: int)
    ensures FindNumber(IntText(n)) == Some(NumberToken(|IntText(n)|, 0))
    ensures IntegerValue(IntText(n)) == n
  {
    hide Digits, DigitsValue, IntegerLength;
    var s := IntText(n);
    if n < 0 {
      assert s[1..] == Digits(-n);
      DigitsAreAnInteger(-n);
      DigitsRoundTrip(-n);
    } else {
      assert s[0..] == s && s[0] != '-';
      DigitsAreAnInteger(n);
      DigitsRoundTrip(n);
    }
    assert s[|s|..] == [];
  }

  lemma IntegerReads(n: int, rest: string, float: FloatReader)
    requires Bounds(rest)
    ensures ReadNumber(IntText(n) + rest, float) == Some(Taken(Int(n), rest))
  {
    hide FindNumber, IntegerValue;
    var s := IntText(n);
    NumberStands(s, rest);
    IntegerIsFound(n);
    assert (s + rest)[..|s|] == s && (s + rest)[|s|..] == rest;
  }

  /** The float texts at hand are numbers with a fraction or an exponent, and `float` reads each back. */
  ghost predicate ReadsFloats(repr: FloatText, float: FloatReader, floats: set<real>) {
    forall r <- floats ::
      && FindNumber(repr(r)).Some? && FindNumber(repr(r)).value.more > 0
      && FindNumber(repr(r)).value.integer + FindNumber(repr(r)).value.more == |repr(r)|
      && float(repr(r)) == r
  }

  lemma FloatReads(r: real, rest: string, repr: FloatText, float: FloatReader, floats: set<real>)
    requires Bounds(rest) && ReadsFloats(repr, float, floats) && r in floats
    ensures ReadNumber(repr(r) + rest, float) == Some(Taken(Float(r), rest))
  {
    hide FindNumber;
    var s := repr(r);
    NumberStands(s, rest);
    assert (s + rest)[..|s|] == s && (s + rest)[|s|..] == rest;
  }

  /** A number begins with a sign or a digit. */
  lemma NumberBegins(s: string)
    requires FindNumber(s).Some?
    ensures s != [] && (s[0] == '-' || Digit(s[0]))
  {
  }

  // ----- strings are read back -----

  lemma HexIsRead(k: nat)
    requires k < 16
    ensures HexDigit(HEX[k]) == Some(k)
  {
  }

  lemma ControlIsRead(c: char, more: string)
    requires c as int < 0x20
    ensures ReadUnicode("00" + [HEX[c as int / 16], HEX[c as int % 16]] + more) == Some(Taken(c, more))
  {
    HexIsRead(0);
    HexIsRead(c as int / 16);
    HexIsRead(c as int % 16);
    assert HEX[0] == '0';
    var s := "00" + [HEX[c as int / 16], HEX[c as int % 16]] + more;
    assert s[4..] == more;
    var n := c as int;
    assert 16 * (n / 16) + n % 16 == n;
  }

  lemma ShortIsRead(c: char, more: string)
    requires ShortEscape(c).Some?
    ensures ReadEscape([ShortEscape(c).value] + more) == Some(Taken(c, more))
  {
    hide ReadUnicode;
    var s := [ShortEscape(c).value] + more;
    assert s[0] == ShortEscape(c).value && s[1..] == more;
  }

  lemma LongIsRead(c: char, more: string)
    requires c as int < 0x20
    ensures ReadEscape("u00" + [HEX[c as int / 16], HEX[c as int % 16]] + more) == Some(Taken(c, more))
  {
    hide ReadUnicode;
    var digits := "00" + [HEX[c as int / 16], HEX[c as int % 16]];
    var s := "u00" + [HEX[c as int / 16], HEX[c as int % 16]] + more;
    assert s == "u" + digits + more && s[0] == 'u' && s[1..] == digits + more;
    ControlIsRead(c, more);
  }

  lemma EscapeIsRead(c: char, more: string)
    requires EscapeChar(c)[0] == '\\'
    ensures ReadEscape(EscapeChar(c)[1..] + more) == Some(Taken(c, more))
  {
    hide ReadEscape, ShortEscape;
    if ShortEscape(c).Some? {
      ShortIsRead(c, more);
      assert EscapeChar(c)[1..] == [ShortEscape(c).value];
    } else if c as int < 0x20 {
      LongIsRead(c, more);
      assert EscapeChar(c)[1..] == "u00" + [HEX[c as int / 16], HEX[c as int % 16]];
    } else {
      BackslashIsShort(c);
    }
  }

  lemma BackslashIsShort(c: char)
    ensures c == '\\' ==> ShortEscape(c).Some?
  {
  }

  lemma EscapeBegins(c: char)
    ensures var e := EscapeChar(c);
            e != [] && e[0] as int >= 0x20 && e[0] != '\"' && (e[0] != '\\' ==> e == [c])
  {
    BackslashIsShort(c);
  }

  lemma CharStep(s: string, c: char, after: string, tail: string, rest: string)
    requires s != [] && s[0] as int >= 0x20 && s[0] != '\"'
    requires (if s[0] == '\\' then ReadEscape(s[1..]) else Some(Taken(s[0], s[1..]))) == Some(Taken(c, after))
    requires ReadChars(after) == Some(Taken(tail, rest))
    ensures ReadChars(s) == Some(Taken([c] + tail, rest))
  {
    hide ReadEscape;
  }

  lemma CharIsRead(c: char, more: string, tail: string, rest: string)
    requires ReadChars(more) == Some(Taken(tail, rest))
    ensures ReadChars(EscapeChar(c) + more) == Some(Taken([c] + tail, rest))
  {
    hide ReadEscape, ReadChars, EscapeChar;
    var e := EscapeChar(c);
    var s := e + more;
    EscapeBegins(c);
    assert s[0] == e[0] && s[1..] == e[1..] + more;
    if e[0] == '\\' {
      EscapeIsRead(c, more);
    } else {
      assert s[1..] == more;
    }
    CharStep(s, c, more, tail, rest);
  }

  lemma {:induction false} CharsAreRead(s: string, rest: string)
    ensures ReadChars(Escape(s) + "\"" + rest) == Some(Taken(s, rest))
  {
    hide EscapeChar;
    if s == [] {
      assert (Escape(s) + "\"" + rest)[1..] == rest;
    } else {
      hide ReadChars;
      CharsAreRead(s[1..], rest);
      var more := Escape(s[1..]) + "\"" + rest;
      CharIsRead(s[0], more, s[1..], rest);
      assert Escape(s) + "\"" + rest == EscapeChar(s[0]) + more;
      assert [s[0]] + s[1..] == s;
    }
  }

  lemma QuoteIsRead(s: string, rest: string)
    ensures (Quote(s) + rest) != [] && (Quote(s) + rest)[0] == '\"' && ReadChars((Quote(s) + rest)[1..]) == Some(Taken(s, rest))
  {
    hide ReadChars, Escape;
    CharsAreRead(s, rest);
    assert (Quote(s) + rest)[1..] == Escape(s) + "\"" + rest;
  }

  // ----- values are read back -----

  lemma NothingToSkip(s: string, spaced: bool)
    requires s == [] || s[0] !in " \t\n\r"
    ensures Skip(s, spaced) == s
  {
  }

  /** The text of a value is read, up to what follows it, as a structure that denotes the value. */
  ghost predicate Reads(v: Json, text: string, rest: string, spaced: bool, float: FloatReader, t: Syntax) {
    ReadValue(text + rest, spaced, float) == Some(Taken(t, rest)) && ValueOf(t) == v && NamesRise(t)
  }

  lemma LiteralReads(v: Json, name: string, rest: string, spaced: bool, float: FloatReader)
    requires (v, name) in {(Null, "null"), (Bool(true), "true"), (Bool(false), "false")}
    ensures Reads(v, name, rest, spaced, float, Scalar(v))
  {
    hide ReadNumber, ReadChars;
    var s := name + rest;
    assert s[0] == name[0] && name <= s && s[|name|..] == rest;
    NothingToSkip(s, spaced);
  }

  lemma NumberTextReads(v: Json, text: string, rest: string, spaced: bool, float: FloatReader)
    requires FindNumber(text).Some? && (v.Int? || v.Float?) && ReadNumber(text + rest, float) == Some(Taken(v, rest))
    ensures Reads(v, text, rest, spaced, float, Scalar(v))
  {
    hide ReadNumber, ReadChars, FindNumber;
    NumberBegins(text);
    var s := text + rest;
    assert s[0] == text[0];
    NothingToSkip(s, spaced);
  }

  lemma StringReads(text: string, rest: string, spaced: bool, float: FloatReader)
    ensures Reads(Str(text), Quote(text), rest, spaced, float, Scalar(Str(text)))
  {
    hide ReadNumber, ReadChars, Escape;
    QuoteIsRead(text, rest);
    NothingToSkip(Quote(text) + rest, spaced);
  }

  lemma ScalarReads(v: Json, repr: FloatText, rest: string, spaced: bool, float: FloatReader, floats: set<real>)
    requires !v.Arr? && !v.Obj? && Bounds(rest) && ReadsFloats(repr, float, floats) && FloatsWithin(v, floats)
    ensures Reads(v, Print(v, repr), rest, spaced, float, Scalar(v))
  {
    hide ReadNumber, Quote, IntText, FindNumber, Reads;
    match v
    case Null => LiteralReads(v, "null", rest, spaced, float);
    case Bool(b) => LiteralReads(v, if b then "true" else "false", rest, spaced, float);
    case Int(n) =>
      IntegerReads(n, rest, float);
      IntegerIsFound(n);
      NumberTextReads(v, IntText(n), rest, spaced, float);
    case Float(r) =>
      FloatReads(r, rest, repr, float, floats);
      NumberTextReads(v, repr(r), rest, spaced, float);
    case Str(text) => StringReads(text, rest, spaced, float);
  }

  lemma {:induction false} ReadBack(v: Json, repr: FloatText, rest: string, spaced: bool, float: FloatReader, floats: set<real>)
    returns (t: Syntax)
    requires Bounds(rest) && ReadsFloats(repr, float, floats) && FloatsWithin(v, floats)
    ensures Reads(v, Print(v, repr), rest, spaced, float, t)
    decreases v, 2, 0
  {
    match v
    case Arr(items) =>
      if items == [] {
        t := List([]);
        EmptyArrayReads(rest, spaced, float);
      } else {
        var ts := ItemsBack(items, repr, rest, spaced, float, floats);
        t := List(ts);
        ArrayReads(items, repr, rest, spaced, float, ts);
      }
    case Obj(fields) =>
      var names := SortedStrings(fields.Keys);
      if names == [] {
        t := Table([]);
        assert fields.Keys == {} by { assert forall k :: k in fields.Keys ==> k in names; }
        assert fields == map[];
        EmptyObjectReads(rest, spaced, float);
      } else {
        assert forall n <- names :: n in fields;
        var ms := MembersBack(fields, names, repr, rest, spaced, float, floats);
        t := Table(ms);
        ObjectReads(fields, names, repr, rest, spaced, float, ms);
      }
    case _ =>
      t := Scalar(v);
      ScalarReads(v, repr, rest, spaced, float, floats);
  }

  lemma EmptyArrayReads(rest: string, spaced: bool, float: FloatReader)
    ensures Reads(Arr([]), "[]", rest, spaced, float, List([]))
  {
    var s := "[]" + rest;
    assert s[0] == '[' && s[1..] == "]" + rest && s[1..][0] == ']' && s[1..][1..] == rest;
    NothingToSkip(s, spaced);
    NothingToSkip(s[1..], spaced);
  }

  lemma EmptyObjectReads(rest: string, spaced: bool, float: FloatReader)
    ensures Reads(Obj(map[]), "{}", rest, spaced, float, Table([]))
  {
    var s := "{}" + rest;
    assert s[0] == '{' && s[1..] == "}" + rest && s[1..][0] == '}' && s[1..][1..] == rest;
    NothingToSkip(s, spaced);
    NothingToSkip(s[1..], spaced);
  }

  // ----- arrays -----

  /** The items of a printed array, with its closing bracket. */
  function ItemsText(items: seq<Json>, repr: FloatText): string
    requires items != []
  {
    Print(items[0], repr) + PrintTail(items[1..], repr) + "]"
  }

  ghost predicate ItemsRead(items: seq<Json>, repr: FloatText, rest: string, spaced: bool, float: FloatReader, ts: seq<Syntax>)
    requires items != []
  {
    && ReadItems(ItemsText(items, repr) + rest, spaced, float) == Some(Taken(ts, rest)) && |ts| == |items|
    && forall i | 0 <= i < |ts| :: ValueOf(ts[i]) == items[i] && NamesRise(ts[i])
  }

  lemma {:induction false} ItemsBack(items: seq<Json>, repr: FloatText, rest: string, spaced: bool, float: FloatReader, floats: set<real>)
    returns (ts: seq<Syntax>)
    requires items != [] && ReadsFloats(repr, float, floats) && forall i | 0 <= i < |items| :: FloatsWithin(items[i], floats)
    ensures ItemsRead(items, repr, rest, spaced, float, ts)
    decreases items, 1, 0
  {
    hide ReadsFloats, ReadValue, ReadItems, Print, ValueOf, NamesRise;
    var after := PrintTail(items[1..], repr) + "]" + rest;
    assert Bounds(after) by { TailBounds(items[1..], repr, "]" + rest); }
    var t := ReadBack(items[0], repr, after, spaced, float, floats);
    assert ItemsText(items, repr) + rest == Print(items[0], repr) + after;
    if |items| == 1 {
      ts := [t];
      LastItem(items, repr, rest, spaced, float, t);
    } else {
      var more := ItemsBack(items[1..], repr, rest, spaced, float, floats);
      ts := [t] + more;
      NextItem(items, repr, rest, spaced, float, t, more);
    }
  }

  lemma TailBounds(items: seq<Json>, repr: FloatText, end: string)
    requires Bounds(end) && end != []
    ensures Bounds(PrintTail(items, repr) + end)
  {
    hide Print;
    assert items == [] ==> PrintTail(items, repr) + end == end;
  }

  lemma LastItem(items: seq<Json>, repr: FloatText, rest: string, spaced: bool, float: FloatReader, t: Syntax)
    requires |items| == 1 && Reads(items[0], Print(items[0], repr), PrintTail(items[1..], repr) + "]" + rest, spaced, float, t)
    ensures ItemsRead(items, repr, rest, spaced, float, [t])
  {
    hide ReadValue, Print, ValueOf, NamesRise;
    var after := PrintTail(items[1..], repr) + "]" + rest;
    assert items[1..] == [] && after == "]" + rest && after[1..] == rest;
    assert ItemsText(items, repr) + rest == Print(items[0], repr) + after;
    NothingToSkip(after, spaced);
  }

  lemma NextItem(items: seq<Json>, repr: FloatText, rest: string, spaced: bool, float: FloatReader, t: Syntax, more: seq<Syntax>)
    requires |items| > 1 && Reads(items[0], Print(items[0], repr), PrintTail(items[1..], repr) + "]" + rest, spaced, float, t)
    requires ItemsRead(items[1..], repr, rest, spaced, float, more)
    ensures ItemsRead(items, repr, rest, spaced, float, [t] + more)
  {
    hide ReadValue, Print, ValueOf, NamesRise;
    var after := PrintTail(items[1..], repr) + "]" + rest;
    assert items[1..][0] == items[1] && items[1..][1..] == items[2..];
    assert PrintTail(items[1..], repr) == "," + Print(items[1], repr) + PrintTail(items[2..], repr);
    assert after == "," + (ItemsText(items[1..], repr) + rest) && after[1..] == ItemsText(items[1..], repr) + rest;
    assert ItemsText(items, repr) + rest == Print(items[0], repr) + after;
    NothingToSkip(after, spaced);
    forall i | 0 <= i < |[t] + more| ensures ValueOf(([t] + more)[i]) == items[i] && NamesRise(([t] + more)[i]) {
      if i > 0 {
        assert ([t] + more)[i] == more[i - 1] && items[1..][i - 1] == items[i];
      }
    }
  }

  lemma ArrayReads(items: seq<Json>, repr: FloatText, rest: string, spaced: bool, float: FloatReader, ts: seq<Syntax>)
    requires items != [] && ItemsRead(items, repr, rest, spaced, float, ts)
    ensures Reads(Arr(items), Print(Arr(items), repr), rest, spaced, float, List(ts))
  {
    hide ReadItems;
    var s := Print(Arr(items), repr) + rest;
    assert s == "[" + (ItemsText(items, repr) + rest) && s[0] == '[' && s[1..] == ItemsText(items, repr) + rest;
    NothingToSkip(s, spaced);
    ItemsBegin(s[1..], spaced, float);
    assert seq(|ts|, i requires 0 <= i < |ts| => ValueOf(ts[i])) == items;
  }

  /** What is read as items does not begin with the closing bracket. */
  lemma ItemsBegin(s: string, spaced: bool, float: FloatReader)
    requires ReadItems(s, spaced, float).Some?
    ensures Skip(s, spaced) != [] && Skip(s, spaced)[0] != ']'
  {
    hide ReadMembers;
  }

  // ----- objects -----

  /** The members of a printed object, with its closing brace. */
  function MembersText(fields: Fields, names: seq<string>, repr: FloatText): string
    requires names != [] && forall n <- names :: n in fields
  {
    assert names[0] in names && forall n <- names[1..] :: n in names;
    PrintMember(fields, names[0], repr) + PrintMembers(fields, names[1..], repr) + "}"
  }

  ghost predicate MembersRead(fields: Fields, names: seq<string>, repr: FloatText, rest: string, spaced: bool, float: FloatReader,
                              ms: seq<Member>)
    requires names != [] && forall n <- names :: n in fields
  {
    && ReadMembers(MembersText(fields, names, repr) + rest, spaced, float) == Some(Taken(ms, rest)) && |ms| == |names|
    && forall i | 0 <= i < |ms| ::
         ms[i].name == names[i] && names[i] in fields && ValueOf(ms[i].value) == fields[names[i]] && NamesRise(ms[i].value)
  }

  lemma MemberReads(fields: Fields, name: string, repr: FloatText, after: string, spaced: bool, float: FloatReader, t: Syntax)
    requires name in fields && Reads(fields[name], Print(fields[name], repr), after, spaced, float, t)
    ensures ReadMember(PrintMember(fields, name, repr) + after, spaced, float) == Some(Taken(Member(name, t), after))
  {
    hide ReadValue, ReadChars, Print, Quote;
    var value := Print(fields[name], repr) + after;
    var s := PrintMember(fields, name, repr) + after;
    assert s == Quote(name) + (":" + value);
    QuoteIsRead(name, ":" + value);
    NothingToSkip(s, spaced);
    NothingToSkip(":" + value, spaced);
    assert (":" + value)[1..] == value;
  }

  lemma {:induction false} MembersBack(fields: Fields, names: seq<string>, repr: FloatText, rest: string, spaced: bool,
                                       float: FloatReader, floats: set<real>) returns (ms: seq<Member>)
    requires names != [] && (forall n <- names :: n in fields) && ReadsFloats(repr, float, floats)
    requires forall k | k in fields :: FloatsWithin(fields[k], floats)
    ensures MembersRead(fields, names, repr, rest, spaced, float, ms)
    decreases Obj(fields), 1, |names|
  {
    hide ReadsFloats, ReadValue, ReadMembers, Print, PrintMember, ValueOf, NamesRise;
    assert names[0] in names && forall n <- names[1..] :: n in names;
    var after := PrintMembers(fields, names[1..], repr) + "}" + rest;
    assert Bounds(after) by { MembersBound(fields, names[1..], repr, "}" + rest); }
    assert fields[names[0]] < Obj(fields);
    var t := ReadBack(fields[names[0]], repr, after, spaced, float, floats);
    MemberReads(fields, names[0], repr, after, spaced, float, t);
    if |names| == 1 {
      ms := [Member(names[0], t)];
      LastMember(fields, names, repr, rest, spaced, float, t);
    } else {
      var more := MembersBack(fields, names[1..], repr, rest, spaced, float, floats);
      ms := [Member(names[0], t)] + more;
      NextMember(fields, names, repr, rest, spaced, float, t, more);
    }
  }

  lemma MembersBound(fields: Fields, names: seq<string>, repr: FloatText, end: string)
    requires Bounds(end) && end != [] && forall n <- names :: n in fields
    ensures Bounds(PrintMembers(fields, names, repr) + end)
  {
    hide PrintMember;
    assert names == [] ==> PrintMembers(fields, names, repr) + end == end;
  }

  /** The first member's text was read, as a member whose value is the field's. */
  ghost predicate FirstRead(fields: Fields, names: seq<string>, repr: FloatText, rest: string, spaced: bool, float: FloatReader,
                            t: Syntax)
    requires names != [] && forall n <- names :: n in fields
  {
    assert names[0] in names && forall n <- names[1..] :: n in names;
    var after := PrintMembers(fields, names[1..], repr) + "}" + rest;
    && ReadMember(PrintMember(fields, names[0], repr) + after, spaced, float) == Some(Taken(Member(names[0], t), after))
    && ValueOf(t) == fields[names[0]] && NamesRise(t)
  }

  lemma LastMember(fields: Fields, names: seq<string>, repr: FloatText, rest: string, spaced: bool, float: FloatReader, t: Syntax)
    requires |names| == 1 && (forall n <- names :: n in fields) && FirstRead(fields, names, repr, rest, spaced, float, t)
    ensures MembersRead(fields, names, repr, rest, spaced, float, [Member(names[0], t)])
  {
    hide ReadMember, PrintMember, ValueOf, NamesRise;
    var after := PrintMembers(fields, names[1..], repr) + "}" + rest;
    assert names[1..] == [] && after == "}" + rest && after[1..] == rest;
    assert MembersText(fields, names, repr) + rest == PrintMember(fields, names[0], repr) + after;
    NothingToSkip(after, spaced);
  }

  lemma NextMember(fields: Fields, names: seq<string>, repr: FloatText, rest: string, spaced: bool, float: FloatReader, t: Syntax,
                   more: seq<Member>)
    requires |names| > 1 && (forall n <- names :: n in fields) && FirstRead(fields, names, repr, rest, spaced, float, t)
    requires forall n <- names[1..] :: n in fields
    requires MembersRead(fields, names[1..], repr, rest, spaced, float, more)
    ensures MembersRead(fields, names, repr, rest, spaced, float, [Member(names[0], t)] + more)
  {
    hide ReadMember, PrintMember, ValueOf, NamesRise;
    assert names[1..][0] == names[1] && names[1..][1..] == names[2..];
    var after := PrintMembers(fields, names[1..], repr) + "}" + rest;
    assert after == "," + (MembersText(fields, names[1..], repr) + rest);
    assert after[1..] == MembersText(fields, names[1..], repr) + rest;
    assert MembersText(fields, names, repr) + rest == PrintMember(fields, names[0], repr) + after;
    NothingToSkip(after, spaced);
    var ms := [Member(names[0], t)] + more;
    forall i | 0 <= i < |ms|
      ensures ms[i].name == names[i] && names[i] in fields && ValueOf(ms[i].value) == fields[names[i]] && NamesRise(ms[i].value)
    {
      if i > 0 {
        assert ms[i] == more[i - 1] && names[1..][i - 1] == names[i];
      }
    }
  }

  lemma {:induction false} FieldsBack(fields: Fields, ms: seq<Member>)
    requires forall i | 0 <= i < |ms| :: ms[i].name in fields && ValueOf(ms[i].value) == fields[ms[i].name]
    ensures forall k :: k in FieldsOf(ms) <==> exists i :: 0 <= i < |ms| && ms[i].name == k
    ensures forall k | k in FieldsOf(ms) :: k in fields && FieldsOf(ms)[k] == fields[k]
  {
    hide ValueOf;
    if ms != [] {
      FieldsBack(fields, Front(ms));
      forall k ensures k in FieldsOf(ms) <==> exists i :: 0 <= i < |ms| && ms[i].name == k {
        if i :| 0 <= i < |ms| && ms[i].name == k {
          assert i < |ms| - 1 ==> Front(ms)[i].name == k;
        }
        if i :| 0 <= i < |Front(ms)| && Front(ms)[i].name == k {
          assert ms[i].name == k;
        }
        if k == Last(ms).name {
          assert ms[|ms| - 1].name == k;
        }
      }
    }
  }

  /** Members that cover an object's names denote the object. */
  lemma MembersDenote(fields: Fields, names: seq<string>, ms: seq<Member>)
    requires |ms| == |names| && forall k :: k in names <==> k in fields
    requires forall i | 0 <= i < |ms| :: ms[i].name == names[i] && names[i] in fields && ValueOf(ms[i].value) == fields[names[i]]
    ensures FieldsOf(ms) == fields
  {
    hide ValueOf, FieldsOf;
    FieldsBack(fields, ms);
    forall k | k in fields ensures k in FieldsOf(ms) {
      var i :| 0 <= i < |names| && names[i] == k;
      assert ms[i].name == k;
    }
  }

  lemma ObjectReads(fields: Fields, names: seq<string>, repr: FloatText, rest: string, spaced: bool, float: FloatReader,
                    ms: seq<Member>)
    requires names == SortedStrings(fields.Keys) && names != [] && (forall n <- names :: n in fields)
    requires MembersRead(fields, names, repr, rest, spaced, float, ms)
    ensures Reads(Obj(fields), Print(Obj(fields), repr), rest, spaced, float, Table(ms))
  {
    hide ReadMembers, PrintMember, SortedStrings, StrLess, FieldsOf;
    MembersDenote(fields, names, ms);
    ObjectTextReads(fields, names, repr, rest, spaced, float, ms);
  }

  lemma ObjectTextReads(fields: Fields, names: seq<string>, repr: FloatText, rest: string, spaced: bool, float: FloatReader,
                        ms: seq<Member>)
    requires names == SortedStrings(fields.Keys) && names != [] && (forall n <- names :: n in fields)
    requires ReadMembers(MembersText(fields, names, repr) + rest, spaced, float) == Some(Taken(ms, rest))
    ensures ReadValue(Print(Obj(fields), repr) + rest, spaced, float) == Some(Taken(Table(ms), rest))
  {
    hide ReadMembers, PrintMember, SortedStrings, ReadNumber, ReadChars, ReadItems;
    var s := Print(Obj(fields), repr) + rest;
    assert s == "{" + (MembersText(fields, names, repr) + rest);
    assert s[0] == '{' && s[1..] == MembersText(fields, names, repr) + rest;
    NothingToSkip(s, spaced);
    MembersBegin(s[1..], spaced, float);
  }

  lemma MembersBegin(s: string, spaced: bool, float: FloatReader)
    requires ReadMembers(s, spaced, float).Some?
    ensures Skip(s, spaced) != [] && Skip(s, spaced)[0] == '\"'
  {
  }

  // ----- the canonical text -----

  /**
   The text of every value is a JSON text for that value, with or without allowing whitespace, and its
   objects' members are written in strictly increasing order of their names.
   */
  lemma CanonicalTextIsRead(v: Json, repr: FloatText, spaced: bool, float: FloatReader, floats: set<real>)
    requires ReadsFloats(repr, float, floats) && FloatsWithin(v, floats)
    ensures var t := ReadText(Print(v, repr), spaced, float);
            t.Some? && ValueOf(t.value) == v && NamesRise(t.value)
  {
    hide Print, ReadValue, ValueOf, NamesRise, ReadsFloats, FloatsWithin;
    var t := ReadBack(v, repr, "", spaced, float, floats);
    assert Print(v, repr) + "" == Print(v, repr);
    NothingToSkip("", spaced);
  }

  /** So the canonical text of whatever can be normalized is a JSON text for its normalized value. */
  lemma CanonicalJsonIsRead(v: PyValue, repr: FloatText, spaced: bool, float: FloatReader, floats: set<real>)
    requires Normalize(v).Ok? && ReadsFloats(repr, float, floats) && FloatsWithin(Normalize(v).value, floats)
    ensures CanonicalText(v, repr).Ok?
    ensures var t := ReadText(CanonicalText(v, repr).value, spaced, float);
            t.Some? && ValueOf(t.value) == Normalize(v).value && NamesRise(t.value)
  {
    hide Print, ReadText, ValueOf, NamesRise, ReadsFloats, FloatsWithin, Normalize;
    CanonicalTextIsRead(Normalize(v).value, repr, spaced, float, floats);
  }

  /** The escaping is the one of `json.dumps`: seven short escapes, lower-case hexadecimal for the other controls, and nothing else. */
  lemma EscapesAre(c: char)
    ensures EscapeChar('\"') == "\\\"" && EscapeChar('\\') == "\\\\" && EscapeChar('\n') == "\\n" && EscapeChar('\r') == "\\r"
    ensures EscapeChar('\t') == "\\t" && EscapeChar('\U{0008}') == "\\b" && EscapeChar('\U{000C}') == "\\f"
    ensures c as int >= 0x20 && c != '\"' && c != '\\' ==> EscapeChar(c) == [c]
    ensures c as int < 0x20 && c !in "\n\r\t\U{0008}\U{000C}" ==>
              && |EscapeChar(c)| == 6 && EscapeChar(c)[..4] == "\\u00"
              && (forall i | 4 <= i < 6 :: EscapeChar(c)[i] !in "ABCDEF")
              && ReadUnit(EscapeChar(c)[2..]) == Some(Taken(c as int, ""))
  {
    if c as int < 0x20 {
      ControlUnit(c);
    }
  }

  lemma ControlUnit(c: char)
    requires c as int < 0x20
    ensures var digits := "00" + [HEX[c as int / 16], HEX[c as int % 16]];
            ReadUnit(digits) == Some(Taken(c as int, "")) && forall i | 0 <= i < 4 :: digits[i] !in "ABCDEF"
  {
    HexIsRead(0);
    HexIsRead(c as int / 16);
    HexIsRead(c as int % 16);
    assert HEX[0] == '0';
    var n := c as int;
    assert 16 * (n / 16) + n % 16 == n;
    assert ("00" + [HEX[n / 16], HEX[n % 16]])[4..] == "";
  }
}
