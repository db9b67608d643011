/**
 Deterministic JSON (canonical.py): detaching Python values, freezing them, and the sorted compact
 printer whose text every digest is taken of.
 */
module Canonical {
  import opened Basics
  import opened Json
  import opened Text

  datatype PyKey = StrKey(name: string) | OtherKey(tag: int)

  /** A candidate value. A mapping lists its entries in insertion order. */
  datatype PyValue =
    | PyNone
    | PyBool(b: bool)
    | PyInt(n: int)
    | PyFloat(r: real)
    | PyNonFinite
    | PyStr(s: string)
    | PyList(items: seq<PyValue>)
    | PyTuple(items: seq<PyValue>)
    | PyMapping(entries: seq<Entry>)
    | PyOther

  datatype Entry = Entry(key: PyKey, value: PyValue)

  datatype CanonicalizationError = NonFiniteNumber | KeyNotString | UnsupportedType

  /** A Python mapping never holds one key twice. */
  predicate WellFormed(v: PyValue) {
    match v
    case PyList(items) => forall i | 0 <= i < |items| :: WellFormed(items[i])
    case PyTuple(items) => forall i | 0 <= i < |items| :: WellFormed(items[i])
    case PyMapping(entries) =>
      && (forall i, j | 0 <= i < j < |entries| :: entries[i].key != entries[j].key)
      && (forall i | 0 <= i < |entries| :: WellFormed(entries[i].value))
    case _ => true
  }

  // ----- normalize and freeze -----

  function Normalize(v: PyValue): Result<Json, CanonicalizationError> {
    match v
    case PyNone => Ok(Null)
    case PyBool(b) => Ok(Bool(b))
    case PyInt(n) => Ok(Int(n))
    case PyFloat(r) => Ok(Float(r))
    case PyNonFinite => Err(NonFiniteNumber)
    case PyStr(s) => Ok(Str(s))
    case PyList(items) => var normalized :- NormalizeItems(items); Ok(Arr(normalized))
    case PyTuple(items) => var normalized :- NormalizeItems(items); Ok(Arr(normalized))
    case PyMapping(entries) => var normalized :- NormalizeEntries(entries); Ok(Obj(normalized))
    case PyOther => Err(UnsupportedType)
  }

  function NormalizeItems(items: seq<PyValue>): Result<seq<Json>, CanonicalizationError> {
    if items == [] then
      Ok([])
    else
      var first :- Normalize(items[0]);
      var rest :- NormalizeItems(items[1..]);
      Ok([first] + rest)
  }

  /** The dictionary-filling loop, over a prefix of the entries. */
  function NormalizeEntries(entries: seq<Entry>): Result<Fields, CanonicalizationError> {
    if entries == [] then
      Ok(map[])
    else
      var filled :- NormalizeEntries(entries[..|entries| - 1]);
      var last := entries[|entries| - 1];
      var item :- NormalizeEntry(last);
      Ok(filled[last.key.name := item])
  }

  function NormalizeEntry(entry: Entry): (item: Result<Json, CanonicalizationError>)
    ensures item.Ok? ==> entry.key.StrKey?
  {
    if entry.key.OtherKey? then Err(KeyNotString) else Normalize(entry.value)
  }

  /** The detached built-in value: lists and dictionaries. */
  function Builtin(j: Json): PyValue {
    match j
    case Null => PyNone
    case Bool(b) => PyBool(b)
    case Int(n) => PyInt(n)
    case Float(r) => PyFloat(r)
    case Str(s) => PyStr(s)
    case Arr(items) => PyList(seq(|items|, i requires 0 <= i < |items| => Builtin(items[i])))
    case Obj(fields) =>
      var names := SortedStrings(fields.Keys);
      PyMapping(seq(|names|, i requires 0 <= i < |names| =>
        assert names[i] in names; Entry(StrKey(names[i]), Builtin(fields[names[i]]))))
  }

  /** The deeply immutable value: tuples and read-only mappings. */
  function Frozen(j: Json): PyValue {
    match j
    case Null => PyNone
    case Bool(b) => PyBool(b)
    case Int(n) => PyInt(n)
    case Float(r) => PyFloat(r)
    case Str(s) => PyStr(s)
    case Arr(items) => PyTuple(seq(|items|, i requires 0 <= i < |items| => Frozen(items[i])))
    case Obj(fields) =>
      var names := SortedStrings(fields.Keys);
      PyMapping(seq(|names|, i requires 0 <= i < |names| =>
        assert names[i] in names; Entry(StrKey(names[i]), Frozen(fields[names[i]]))))
  }

  /** `freeze_json_value`; normalizing again on the way down changes nothing (NormalizeIdempotent). */
  function Freeze(v: PyValue): Result<PyValue, CanonicalizationError> {
    var normalized :- Normalize(v);
    Ok(Frozen(normalized))
  }

  lemma {:induction false} NormalizeItemsPointwise(items: seq<PyValue>)
    ensures NormalizeItems(items).Ok? <==> forall i | 0 <= i < |items| :: Normalize(items[i]).Ok?
    ensures NormalizeItems(items).Ok? ==>
              && |NormalizeItems(items).value| == |items|
              && forall i | 0 <= i < |items| :: Normalize(items[i]) == Ok(NormalizeItems(items).value[i])
  {
    if items != [] {
      NormalizeItemsPointwise(items[1..]);
      forall i | 0 < i < |items| ensures items[i] == items[1..][i - 1] {}
      assert (forall i | 0 <= i < |items| :: Normalize(items[i]).Ok?) ==>
          forall i | 0 <= i < |items[1..]| :: Normalize(items[1..][i]).Ok?;
    }
  }

  predicate DistinctKeys(entries: seq<Entry>) {
    forall i, j | 0 <= i < j < |entries| :: entries[i].key != entries[j].key
  }

  function Keys(entries: seq<Entry>): set<PyKey> {
    set i | 0 <= i < |entries| :: entries[i].key
  }

  lemma {:induction false} NormalizeEntriesPointwise(entries: seq<Entry>)
    requires DistinctKeys(entries)
    ensures NormalizeEntries(entries).Ok? <==> forall i | 0 <= i < |entries| :: NormalizeEntry(entries[i]).Ok?
    ensures NormalizeEntries(entries).Ok? ==>
              var m := NormalizeEntries(entries).value;
              && (forall i | 0 <= i < |entries| :: entries[i].key.StrKey? && entries[i].key.name in m
                    && Normalize(entries[i].value) == Ok(m[entries[i].key.name]))
              && (forall k :: k in m <==> StrKey(k) in Keys(entries))
  {
    if entries != [] {
      var front := entries[..|entries| - 1];
      NormalizeEntriesPointwise(front);
      assert forall i | 0 <= i < |front| :: front[i] == entries[i];
      assert Keys(entries) == Keys(front) + {entries[|entries| - 1].key};
    }
  }

  /** A mapping that lists each name of `fields` with a value normalizing to it normalizes to `fields`. */
  lemma ListingNormalizes(entries: seq<Entry>, fields: Fields, names: seq<string>)
    requires StrictlySorted(names) && forall k :: k in names <==> k in fields
    requires |entries| == |names|
    requires forall i | 0 <= i < |names| ::
               names[i] in fields && entries[i].key == StrKey(names[i])
               && Normalize(entries[i].value) == Ok(fields[names[i]])
    ensures NormalizeEntries(entries) == Ok(fields)
  {
    forall i, j | 0 <= i < j < |entries| ensures entries[i].key != entries[j].key {
      StrLessTrichotomy(names[i], names[j]);
    }
    NormalizeEntriesPointwise(entries);
    var m := NormalizeEntries(entries).value;
    forall k | k in fields ensures k in m && m[k] == fields[k] {
      var i :| 0 <= i < |names| && names[i] == k;
      assert entries[i].key.name in m;
    }
    forall k | k in m ensures k in fields {
      var i :| 0 <= i < |entries| && entries[i].key == StrKey(k);
    }
    assert m == fields;
  }

  /** Normalizing an already normalized value changes nothing, and normalizing undoes freezing. */
  lemma {:induction false} NormalizeIdempotent(j: Json)
    ensures Normalize(Builtin(j)) == Ok(j)
    ensures Normalize(Frozen(j)) == Ok(j)
  {
    match j
    case Arr(items) =>
      forall i | 0 <= i < |items|
        ensures Normalize(Builtin(items[i])) == Ok(items[i]) && Normalize(Frozen(items[i])) == Ok(items[i])
      {
        NormalizeIdempotent(items[i]);
      }
      NormalizeItemsPointwise(Builtin(j).items);
      NormalizeItemsPointwise(Frozen(j).items);
      assert NormalizeItems(Builtin(j).items).value == items;
      assert NormalizeItems(Frozen(j).items).value == items;
    case Obj(fields) =>
      forall k | k in fields
        ensures Normalize(Builtin(fields[k])) == Ok(fields[k]) && Normalize(Frozen(fields[k])) == Ok(fields[k])
      {
        NormalizeIdempotent(fields[k]);
      }
      var names := SortedStrings(fields.Keys);
      forall i | 0 <= i < |names| ensures names[i] in fields { assert names[i] in names; }
      ListingNormalizes(Builtin(j).entries, fields, names);
      ListingNormalizes(Frozen(j).entries, fields, names);
    case _ =>
  }

  /** `freeze` then `normalize` is `normalize`. */
  lemma NormalizeUndoesFreeze(v: PyValue)
    ensures Freeze(v).Ok? <==> Normalize(v).Ok?
    ensures Freeze(v).Ok? ==> Normalize(Freeze(v).value) == Normalize(v)
  {
    if Freeze(v).Ok? {
      NormalizeIdempotent(Normalize(v).value);
    }
  }

  // ----- what normalization forgets -----

  /** Equal up to the order of mapping entries and the choice between list and tuple. */
  predicate SameShape(v: PyValue, w: PyValue) {
    if IsSequence(v) && IsSequence(w) then
      |v.items| == |w.items| && forall i | 0 <= i < |v.items| :: SameShape(v.items[i], w.items[i])
    else if v.PyMapping? && w.PyMapping? then
      && Keys(v.entries) == Keys(w.entries)
      && (forall i, j | 0 <= i < |v.entries| && 0 <= j < |w.entries| && v.entries[i].key == w.entries[j].key ::
            SameShape(v.entries[i].value, w.entries[j].value))
    else
      v == w
  }

  predicate IsSequence(v: PyValue) {
    v.PyList? || v.PyTuple?
  }

  /** Two acceptable values normalize alike exactly when they have the same shape. */
  lemma {:induction false} NormalizeForgetsSpellingOnly(v: PyValue, w: PyValue)
    requires WellFormed(v) && WellFormed(w)
    requires Normalize(v).Ok?
    ensures SameShape(v, w) <==> Normalize(w) == Normalize(v)
  {
    if IsSequence(v) && IsSequence(w) {
      SequencesNormalizeAlike(v, w);
    } else if v.PyMapping? && w.PyMapping? {
      MappingsNormalizeAlike(v, w);
    }
  }

  lemma {:induction false} SequencesNormalizeAlike(v: PyValue, w: PyValue)
    requires WellFormed(v) && WellFormed(w) && IsSequence(v) && IsSequence(w)
    requires Normalize(v).Ok?
    ensures SameShape(v, w) <==> Normalize(w) == Normalize(v)
    decreases v, w, 0
  {
    NormalizeItemsPointwise(v.items);
    NormalizeItemsPointwise(w.items);
    if |v.items| == |w.items| {
      forall i | 0 <= i < |v.items|
        ensures SameShape(v.items[i], w.items[i]) <==> Normalize(w.items[i]) == Normalize(v.items[i])
      {
        NormalizeForgetsSpellingOnly(v.items[i], w.items[i]);
      }
      if SameShape(v, w) {
        assert NormalizeItems(w.items).value == NormalizeItems(v.items).value;
      }
    }
  }

  lemma {:induction false} MappingsNormalizeAlike(v: PyValue, w: PyValue)
    requires WellFormed(v) && WellFormed(w) && v.PyMapping? && w.PyMapping?
    requires Normalize(v).Ok?
    ensures SameShape(v, w) <==> Normalize(w) == Normalize(v)
    decreases v, w, 0
  {
    forall i, j | 0 <= i < |v.entries| && 0 <= j < |w.entries|
      ensures ValuesAlike(v.entries[i].value, w.entries[j].value)
    {
      NormalizeEntriesPointwise(v.entries);
      NormalizeForgetsSpellingOnly(v.entries[i].value, w.entries[j].value);
    }
    if SameShape(v, w) {
      SameShapeGivesSameFields(v.entries, w.entries);
    } else if Normalize(w) == Normalize(v) {
      SameFieldsGiveSameShape(v.entries, w.entries);
    }
  }

  predicate ValuesAlike(v: PyValue, w: PyValue) {
    SameShape(v, w) <==> Normalize(w) == Normalize(v)
  }

  predicate EntriesMatch(es: seq<Entry>, fs: seq<Entry>) {
    && Keys(es) == Keys(fs)
    && forall i, j | 0 <= i < |es| && 0 <= j < |fs| && es[i].key == fs[j].key :: SameShape(es[i].value, fs[j].value)
  }

  lemma SameShapeGivesSameFields(es: seq<Entry>, fs: seq<Entry>)
    requires DistinctKeys(es) && DistinctKeys(fs) && NormalizeEntries(es).Ok?
    requires forall i, j | 0 <= i < |es| && 0 <= j < |fs| :: ValuesAlike(es[i].value, fs[j].value)
    requires EntriesMatch(es, fs)
    ensures NormalizeEntries(fs) == NormalizeEntries(es)
  {
    hide SameShape, Normalize, NormalizeItems, NormalizeEntries;
    NormalizeEntriesPointwise(es);
    NormalizeEntriesPointwise(fs);
    var m := NormalizeEntries(es).value;
    forall j | 0 <= j < |fs| ensures NormalizeEntry(fs[j]).Ok? && NormalizeEntry(fs[j]) == Ok(m[fs[j].key.name]) {
      assert fs[j].key in Keys(es);
      var i :| 0 <= i < |es| && es[i].key == fs[j].key;
      assert ValuesAlike(es[i].value, fs[j].value);
    }
    var n := NormalizeEntries(fs).value;
    assert forall k :: k in m <==> k in n;
    forall k | k in m ensures n[k] == m[k] {
      var j :| 0 <= j < |fs| && fs[j].key == StrKey(k);
    }
    assert m == n;
  }

  lemma SameFieldsGiveSameShape(es: seq<Entry>, fs: seq<Entry>)
    requires DistinctKeys(es) && DistinctKeys(fs) && NormalizeEntries(es).Ok?
    requires forall i, j | 0 <= i < |es| && 0 <= j < |fs| :: ValuesAlike(es[i].value, fs[j].value)
    requires NormalizeEntries(fs) == NormalizeEntries(es)
    ensures EntriesMatch(es, fs)
  {
    hide SameShape, Normalize, NormalizeItems, NormalizeEntries;
    NormalizeEntriesPointwise(es);
    NormalizeEntriesPointwise(fs);
    var m := NormalizeEntries(es).value;
    assert forall k :: k in Keys(es) <==> k.StrKey? && k.name in m;
    assert forall k :: k in Keys(fs) <==> k.StrKey? && k.name in m;
    assert Keys(es) == Keys(fs);
    forall i, j | 0 <= i < |es| && 0 <= j < |fs| && es[i].key == fs[j].key
      ensures SameShape(es[i].value, fs[j].value)
    {
      assert ValuesAlike(es[i].value, fs[j].value);
    }
  }
}
