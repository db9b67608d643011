/**
 The complete difference of two JSON trees (confidentiality.py, `_state_differences`): what its
 records mean, that they are enough to turn the first tree into the second, and that no two overlap.
 */
module StateDiff {
  import opened Basics
  import opened Json
  import opened Text
  import opened Pointers

  datatype StateDifference = StateDifference(path: string, noHiddenPresent: bool, noHiddenValue: Json,
                                             hiddenPresent: bool, hiddenValue: Json)

  /** A record before its path is written out: the tokens, and each side's value if it is there. */
  datatype Delta = Delta(tokens: seq<string>, before: Option<Json>, after: Option<Json>)

  function Field(m: Fields, name: string): Option<Json> {
    if name in m then Some(m[name]) else None
  }

  function Item(xs: seq<Json>, i: nat): Option<Json> {
    if i < |xs| then Some(xs[i]) else None
  }

  function Under(token: string, ds: seq<Delta>): seq<Delta> {
    seq(|ds|, i requires 0 <= i < |ds| => ds[i].(tokens := [token] + ds[i].tokens))
  }

  function Longer(xs: seq<Json>, ys: seq<Json>): nat {
    if |xs| < |ys| then |ys| else |xs|
  }

  function Names(m: Fields, n: Fields): seq<string> {
    SortedStrings(m.Keys + n.Keys)
  }

  function Diff(v: Json, w: Json): seq<Delta>
    decreases v, 1, 0
  {
    if v.Obj? && w.Obj? then DiffFields(v.fields, w.fields, Names(v.fields, w.fields))
    else if v.Arr? && w.Arr? then DiffItems(v.items, w.items, Longer(v.items, w.items))
    else if PyEq(v, w) then []
    else [Delta([], Some(v), Some(w))]
  }

  /** What one field name contributes: a record if a side lacks it, and the nested differences otherwise. */
  function FoundField(m: Fields, n: Fields, name: string): seq<Delta>
    decreases Obj(m), 0, 0
  {
    if name in m && name in n then Diff(m[name], n[name]) else [Delta([], Field(m, name), Field(n, name))]
  }

  function FoundItem(xs: seq<Json>, ys: seq<Json>, i: nat): seq<Delta>
    decreases Arr(xs), 0, 0
  {
    if i < |xs| && i < |ys| then Diff(xs[i], ys[i]) else [Delta([], Item(xs, i), Item(ys, i))]
  }

  /** The loop over the sorted field names, over a prefix of them. */
  function DiffFields(m: Fields, n: Fields, names: seq<string>): seq<Delta>
    decreases Obj(m), 0, |names| + 1
  {
    if names == [] then []
    else DiffFields(m, n, Front(names)) + Under(Last(names), FoundField(m, n, Last(names)))
  }

  /** The loop over the first `k` indices. */
  function DiffItems(xs: seq<Json>, ys: seq<Json>, k: nat): seq<Delta>
    decreases Arr(xs), 0, k + 1
  {
    if k == 0 then [] else DiffItems(xs, ys, k - 1) + Under(IntText(k - 1), FoundItem(xs, ys, k - 1))
  }

  // ----- the records as the source writes them -----

  function ValueOf(side: Option<Json>): Json {
    if side.Some? then side.value else Null
  }

  /** `path or "/"` */
  function Write(path: string, d: Delta): StateDifference {
    var full := path + Pointer(d.tokens);
    StateDifference(if full == "" then "/" else full, d.before.Some?, ValueOf(d.before), d.after.Some?, ValueOf(d.after))
  }

  function WriteAll(path: string, ds: seq<Delta>): seq<StateDifference> {
    seq(|ds|, i requires 0 <= i < |ds| => Write(path, ds[i]))
  }

  lemma WriteUnder(path: string, token: string, ds: seq<Delta>)
    ensures WriteAll(path, Under(token, ds)) == WriteAll(path + "/" + PointerToken(token), ds)
  {
    hide PointerToken;
    forall i | 0 <= i < |ds|
      ensures path + Pointer([token] + ds[i].tokens) == path + "/" + PointerToken(token) + Pointer(ds[i].tokens)
    {
      assert ([token] + ds[i].tokens)[1..] == ds[i].tokens;
      Assoc(path, "/" + PointerToken(token), Pointer(ds[i].tokens));
      Assoc(path, "/", PointerToken(token));
    }
  }

  lemma WriteConcat(path: string, ds: seq<Delta>, es: seq<Delta>)
    ensures WriteAll(path, ds + es) == WriteAll(path, ds) + WriteAll(path, es)
  {
    hide Write;
  }

  /** Digits need no escaping. */
  lemma {:induction false} IndexToken(text: string)
    requires forall i | 0 <= i < |text| :: '-' == text[i] || '0' <= text[i] <= '9'
    ensures PointerToken(text) == text
  {
    hide PointerToken;
    if text == [] {
      EmptyToken();
    } else {
      TokenStep(text);
      IndexToken(text[1..]);
    }
  }

  /** `_state_differences` */
  method StateDifferences(noHidden: Json, hidden: Json, path: string) returns (differences: seq<StateDifference>)
    ensures differences == WriteAll(path, Diff(noHidden, hidden))
    decreases noHidden
  {
    hide PointerToken, Write, IntText;
    if noHidden.Obj? && hidden.Obj? {
      var m, n := noHidden.fields, hidden.fields;
      var names := Names(m, n);
      differences := [];
      for i := 0 to |names|
        invariant differences == WriteAll(path, DiffFields(m, n, names[..i]))
      {
        assert Front(names[..i + 1]) == names[..i] && Last(names[..i + 1]) == names[i];
        var child := path + "/" + PointerToken(names[i]);
        ghost var found := FoundField(m, n, names[i]);
        WriteUnder(path, names[i], found);
        WriteConcat(path, DiffFields(m, n, names[..i]), Under(names[i], found));
        if names[i] in m && names[i] in n {
          var nested := StateDifferences(m[names[i]], n[names[i]], child);
          differences := differences + nested;
        } else {
          WriteSingle(child, Field(m, names[i]), Field(n, names[i]));
          differences := differences + [StateDifference(child, names[i] in m, ValueOf(Field(m, names[i])),
                                                        names[i] in n, ValueOf(Field(n, names[i])))];
        }
      }
      assert names[..|names|] == names;
      return;
    }
    if noHidden.Arr? && hidden.Arr? {
      var xs, ys := noHidden.items, hidden.items;
      differences := [];
      for i := 0 to Longer(xs, ys)
        invariant differences == WriteAll(path, DiffItems(xs, ys, i))
      {
        var child := path + "/" + IntText(i);
        ghost var found := FoundItem(xs, ys, i);
        IndexToken(IntText(i));
        WriteUnder(path, IntText(i), found);
        WriteConcat(path, DiffItems(xs, ys, i), Under(IntText(i), found));
        if i < |xs| && i < |ys| {
          var nested := StateDifferences(xs[i], ys[i], child);
          differences := differences + nested;
        } else {
          WriteSingle(child, Item(xs, i), Item(ys, i));
          differences := differences + [StateDifference(child, i < |xs|, ValueOf(Item(xs, i)), i < |ys|, ValueOf(Item(ys, i)))];
        }
      }
      return;
    }
    if PyEq(noHidden, hidden) {
      return [];
    }
    WriteLeaf(path, noHidden, hidden);
    return [StateDifference(if path == "" then "/" else path, true, noHidden, true, hidden)];
  }

  lemma WriteSingle(child: string, before: Option<Json>, after: Option<Json>)
    requires child != ""
    ensures WriteAll(child, [Delta([], before, after)]) ==
            [StateDifference(child, before.Some?, ValueOf(before), after.Some?, ValueOf(after))]
  {
    assert child + Pointer([]) == child;
  }

  lemma WriteLeaf(path: string, v: Json, w: Json)
    ensures WriteAll(path, [Delta([], Some(v), Some(w))]) ==
            [StateDifference(if path == "" then "/" else path, true, v, true, w)]
  {
    assert path + Pointer([]) == path;
  }

  // ----- completeness: empty exactly when equal -----

  lemma {:induction false} EmptyIffEqual(v: Json, w: Json)
    ensures Diff(v, w) == [] <==> PyEq(v, w)
    decreases v, 1, 0
  {
    if v.Obj? && w.Obj? {
      var names := Names(v.fields, w.fields);
      FieldsEmptyIff(v.fields, w.fields, names);
      assert forall k :: k in names <==> k in v.fields || k in w.fields;
    } else if v.Arr? && w.Arr? {
      ItemsEmptyIff(v.items, w.items, Longer(v.items, w.items));
    }
  }

  predicate FieldsAgree(m: Fields, n: Fields, name: string) {
    (name in m <==> name in n) && (name in m && name in n ==> PyEq(m[name], n[name]))
  }

  lemma {:induction false} FieldsEmptyIff(m: Fields, n: Fields, names: seq<string>)
    requires forall k <- names :: k in m || k in n
    ensures DiffFields(m, n, names) == [] <==> forall k <- names :: FieldsAgree(m, n, k)
    decreases Obj(m), 0, |names| + 1
  {
    if names != [] {
      var name := Last(names);
      assert name in names && forall k <- Front(names) :: k in names;
      FieldsEmptyIff(m, n, Front(names));
      if name in m && name in n {
        EmptyIffEqual(m[name], n[name]);
      }
      assert forall k <- names :: k in Front(names) || k == name;
    }
  }

  lemma {:induction false} ItemsEmptyIff(xs: seq<Json>, ys: seq<Json>, k: nat)
    requires k <= Longer(xs, ys)
    ensures DiffItems(xs, ys, k) == [] <==>
            k <= |xs| && k <= |ys| && forall i | 0 <= i < k :: PyEq(xs[i], ys[i])
    decreases Arr(xs), 0, k + 1
  {
    hide IntText, PyEq, FoundItem;
    if k > 0 {
      ItemsEmptyIff(xs, ys, k - 1);
      FoundItemEmptyIff(xs, ys, k - 1);
    }
  }

  lemma {:induction false} FoundItemEmptyIff(xs: seq<Json>, ys: seq<Json>, i: nat)
    ensures FoundItem(xs, ys, i) == [] <==> i < |xs| && i < |ys| && PyEq(xs[i], ys[i])
    decreases Arr(xs), 0, 0
  {
    hide Diff, PyEq;
    if i < |xs| && i < |ys| {
      EmptyIffEqual(xs[i], ys[i]);
    }
  }

  // ----- swapping the arguments swaps every record -----

  function Swap(ds: seq<Delta>): seq<Delta> {
    seq(|ds|, i requires 0 <= i < |ds| => Delta(ds[i].tokens, ds[i].after, ds[i].before))
  }

  lemma SwapUnder(token: string, ds: seq<Delta>)
    ensures Swap(Under(token, ds)) == Under(token, Swap(ds))
  {
  }

  lemma SwapConcat(ds: seq<Delta>, es: seq<Delta>)
    ensures Swap(ds + es) == Swap(ds) + Swap(es)
  {
  }

  lemma {:induction false} SwapArguments(v: Json, w: Json)
    ensures Diff(w, v) == Swap(Diff(v, w))
    decreases v, 1, 0
  {
    if v.Obj? && w.Obj? {
      assert v.fields.Keys + w.fields.Keys == w.fields.Keys + v.fields.Keys;
      SwapFields(v.fields, w.fields, Names(v.fields, w.fields));
    } else if v.Arr? && w.Arr? {
      SwapItems(v.items, w.items, Longer(v.items, w.items));
    } else {
      PyEqSymmetric(v, w);
    }
  }

  lemma {:induction false} SwapFields(m: Fields, n: Fields, names: seq<string>)
    ensures DiffFields(n, m, names) == Swap(DiffFields(m, n, names))
    decreases Obj(m), 0, |names| + 1
  {
    hide FoundField, Swap, Under;
    if names == [] {
      assert Swap([]) == [] by { SwapNothing(); }
    } else {
      var name := Last(names);
      SwapFields(m, n, Front(names));
      SwapFoundField(m, n, name);
      SwapUnder(name, FoundField(m, n, name));
      SwapConcat(DiffFields(m, n, Front(names)), Under(name, FoundField(m, n, name)));
    }
  }

  lemma SwapNothing()
    ensures Swap([]) == []
  {
  }

  lemma {:induction false} SwapFoundField(m: Fields, n: Fields, name: string)
    ensures FoundField(n, m, name) == Swap(FoundField(m, n, name))
    decreases Obj(m), 0, 0
  {
    hide Diff;
    if name in m && name in n {
      SwapArguments(m[name], n[name]);
    }
  }

  lemma {:induction false} SwapItems(xs: seq<Json>, ys: seq<Json>, k: nat)
    ensures DiffItems(ys, xs, k) == Swap(DiffItems(xs, ys, k))
    decreases Arr(xs), 0, k + 1
  {
    hide FoundItem, Swap, Under, IntText;
    if k == 0 {
      SwapNothing();
    } else {
      SwapItems(xs, ys, k - 1);
      SwapFoundItem(xs, ys, k - 1);
      SwapUnder(IntText(k - 1), FoundItem(xs, ys, k - 1));
      SwapConcat(DiffItems(xs, ys, k - 1), Under(IntText(k - 1), FoundItem(xs, ys, k - 1)));
    }
  }

  lemma {:induction false} SwapFoundItem(xs: seq<Json>, ys: seq<Json>, i: nat)
    ensures FoundItem(ys, xs, i) == Swap(FoundItem(xs, ys, i))
    decreases Arr(xs), 0, 0
  {
    hide Diff;
    if i < |xs| && i < |ys| {
      SwapArguments(xs[i], ys[i]);
    }
  }

  // ----- patching -----

  /** Puts one record's hidden side in place: replaces, adds or removes what its tokens name. */
  function PatchOne(v: Json, tokens: seq<string>, after: Option<Json>): Json {
    if tokens == [] then
      if after.Some? then after.value else v
    else match v
      case Obj(fields) =>
        var name := tokens[0];
        if |tokens| == 1 then
          Obj(if after.Some? then fields[name := after.value] else fields - {name})
        else if name in fields then Obj(fields[name := PatchOne(fields[name], tokens[1..], after)])
        else v
      case Arr(items) =>
        var i := DigitsValue(tokens[0]);
        if |tokens| == 1 && after.None? then Arr(if 0 <= i < |items| then items[..i] else items)
        else if |tokens| == 1 && i == |items| then Arr(items + [after.value])
        else if 0 <= i < |items| then Arr(items[i := PatchOne(items[i], tokens[1..], after)])
        else v
      case _ => v
  }

  function PatchAll(v: Json, ds: seq<Delta>): Json {
    if ds == [] then v else PatchOne(PatchAll(v, Front(ds)), Last(ds).tokens, Last(ds).after)
  }

  lemma {:induction false} PatchConcat(v: Json, ds: seq<Delta>, es: seq<Delta>)
    ensures PatchAll(v, ds + es) == PatchAll(PatchAll(v, ds), es)
  {
    hide PatchOne;
    if es == [] {
      assert ds + es == ds;
    } else {
      PatchConcat(v, ds, Front(es));
      assert Front(ds + es) == ds + Front(es) && Last(ds + es) == Last(es);
    }
  }

  /** No record removes the root. */
  predicate KeepsRoot(ds: seq<Delta>) {
    forall d <- ds :: d.tokens == [] ==> d.after.Some?
  }

  lemma {:induction false} PatchUnderField(m: Fields, name: string, ds: seq<Delta>)
    requires name in m && KeepsRoot(ds)
    ensures PatchAll(Obj(m), Under(name, ds)) == Obj(m[name := PatchAll(m[name], ds)])
  {
    if ds == [] {
      assert m[name := m[name]] == m;
    } else {
      assert KeepsRoot(Front(ds)) && Last(ds) in ds;
      PatchUnderField(m, name, Front(ds));
      assert Front(Under(name, ds)) == Under(name, Front(ds));
      var patched := PatchAll(m[name], Front(ds));
      var d := Last(ds);
      assert ([name] + d.tokens)[1..] == d.tokens;
      assert m[name := patched][name := PatchOne(patched, d.tokens, d.after)] == m[name := PatchOne(patched, d.tokens, d.after)];
    }
  }

  lemma {:induction false} PatchUnderItem(xs: seq<Json>, i: nat, ds: seq<Delta>)
    requires i < |xs| && KeepsRoot(ds)
    ensures PatchAll(Arr(xs), Under(IntText(i), ds)) == Arr(xs[i := PatchAll(xs[i], ds)])
  {
    hide IntText, DigitsValue;
    if ds == [] {
      assert xs[i := xs[i]] == xs;
    } else {
      assert KeepsRoot(Front(ds)) && Last(ds) in ds;
      PatchUnderItem(xs, i, Front(ds));
      assert Front(Under(IntText(i), ds)) == Under(IntText(i), Front(ds));
      var patched := PatchAll(xs[i], Front(ds));
      var d := Last(ds);
      IndexRoundTrip(i);
      assert ([IntText(i)] + d.tokens)[1..] == d.tokens;
      assert xs[i := patched][i := PatchOne(patched, d.tokens, d.after)] == xs[i := PatchOne(patched, d.tokens, d.after)];
    }
  }

  lemma IndexRoundTrip(i: nat)
    ensures DigitsValue(IntText(i)) == i
  {
    DigitsRoundTrip(i);
  }

  lemma {:induction false} DiffKeepsRoot(v: Json, w: Json)
    ensures KeepsRoot(Diff(v, w))
  {
    if v.Obj? && w.Obj? {
      FieldsHaveTokens(v.fields, w.fields, Names(v.fields, w.fields));
    } else if v.Arr? && w.Arr? {
      ItemsHaveTokens(v.items, w.items, Longer(v.items, w.items));
    }
  }

  /** Every record of an object starts with one of the names gone through, and one of an array with an index. */
  lemma {:induction false} FieldsHaveTokens(m: Fields, n: Fields, names: seq<string>)
    ensures forall d <- DiffFields(m, n, names) :: d.tokens != [] && d.tokens[0] in names
    decreases |names|
  {
    hide Diff;
    if names != [] {
      FieldsHaveTokens(m, n, Front(names));
      assert Last(names) in names && forall k <- Front(names) :: k in names;
    }
  }

  lemma {:induction false} ItemsHaveTokens(xs: seq<Json>, ys: seq<Json>, k: nat)
    ensures forall d <- DiffItems(xs, ys, k) :: d.tokens != [] && exists i :: 0 <= i < k && d.tokens[0] == IntText(i)
    decreases k
  {
    hide Diff, IntText;
    if k > 0 {
      ItemsHaveTokens(xs, ys, k - 1);
      forall d | d in DiffItems(xs, ys, k) ensures d.tokens != [] && exists i :: 0 <= i < k && d.tokens[0] == IntText(i) {
        if d in DiffItems(xs, ys, k - 1) {
          var i :| 0 <= i < k - 1 && d.tokens[0] == IntText(i);
          assert 0 <= i < k && d.tokens[0] == IntText(i);
        } else {
          assert d.tokens[0] == IntText(k - 1);
        }
      }
    }
  }

  /** Patching the first tree with the records yields a tree equal to the second. */
  lemma {:induction false} PatchYieldsSecond(v: Json, w: Json)
    ensures PyEq(PatchAll(v, Diff(v, w)), w)
    decreases v, 1, 0
  {
    if v.Obj? && w.Obj? {
      var names := Names(v.fields, w.fields);
      assert forall k :: k in names <==> k in v.fields || k in w.fields;
      SortedDistinct(names);
      PatchFields(v.fields, w.fields, names);
    } else if v.Arr? && w.Arr? {
      PatchItems(v.items, w.items, Longer(v.items, w.items));
    } else if PyEq(v, w) {
    } else {
      PyEqReflexive(w);
      var ds := [Delta([], Some(v), Some(w))];
      assert Front(ds) == [] && PatchAll(v, ds) == w;
    }
  }

  /** The object once the given names have been patched: those from the second, the rest from the first. */
  ghost predicate PatchedFields(v: Json, m: Fields, n: Fields, names: seq<string>) {
    && v.Obj?
    && (forall k :: k in v.fields <==> if k in names then k in n else k in m)
    && (forall k | k in v.fields :: if k in names then k in n && PyEq(v.fields[k], n[k]) else k in m && v.fields[k] == m[k])
  }

  lemma {:induction false} PatchFields(m: Fields, n: Fields, names: seq<string>)
    requires Distinct(names) && forall k <- names :: k in m || k in n
    ensures PatchedFields(PatchAll(Obj(m), DiffFields(m, n, names)), m, n, names)
    decreases Obj(m), 0, |names| + 1
  {
    hide Diff, PatchOne, PyEq, PatchedFields, PatchAll;
    if names == [] {
      PatchedNothing(m, n);
    } else {
      var name := Last(names);
      assert name in names && forall k <- Front(names) :: k in names;
      PatchFields(m, n, Front(names));
      var earlier := PatchAll(Obj(m), DiffFields(m, n, Front(names)));
      var found := FoundField(m, n, name);
      PatchConcat(Obj(m), DiffFields(m, n, Front(names)), Under(name, found));
      LastNameUntouched(earlier, m, n, names);
      if name in m && name in n {
        DiffKeepsRoot(m[name], n[name]);
        PatchUnderField(earlier.fields, name, found);
        PatchYieldsSecond(m[name], n[name]);
        PatchedOneMore(earlier, m, n, names, Some(PatchAll(m[name], found)));
      } else {
        PatchMissingField(earlier.fields, name, Field(m, name), Field(n, name));
        if name in n { PyEqReflexive(n[name]); }
        PatchedOneMore(earlier, m, n, names, Field(n, name));
      }
    }
  }

  lemma PatchedNothing(m: Fields, n: Fields)
    ensures PatchedFields(PatchAll(Obj(m), []), m, n, [])
  {
  }

  lemma LastNameUntouched(earlier: Json, m: Fields, n: Fields, names: seq<string>)
    requires names != [] && Distinct(names) && PatchedFields(earlier, m, n, Front(names))
    ensures earlier.Obj? && Field(earlier.fields, Last(names)) == Field(m, Last(names))
  {
    hide PyEq;
    assert Last(names) !in Front(names);
  }

  lemma PatchedOneMore(earlier: Json, m: Fields, n: Fields, names: seq<string>, after: Option<Json>)
    requires names != [] && Distinct(names) && PatchedFields(earlier, m, n, Front(names))
    requires after.Some? <==> Last(names) in n
    requires after.Some? ==> PyEq(after.value, n[Last(names)])
    ensures var fields := earlier.fields;
            PatchedFields(Obj(if after.Some? then fields[Last(names) := after.value] else fields - {Last(names)}), m, n, names)
  {
    hide PyEq;
    assert forall k :: k in names <==> k in Front(names) || k == Last(names);
  }

  lemma PatchMissingField(fields: Fields, name: string, before: Option<Json>, after: Option<Json>)
    ensures PatchAll(Obj(fields), Under(name, [Delta([], before, after)])) ==
            Obj(if after.Some? then fields[name := after.value] else fields - {name})
  {
    var ds := Under(name, [Delta([], before, after)]);
    assert Front(ds) == [] && Last(ds).tokens == [name];
  }

  /** The array once the first `k` indices have been patched. */
  predicate PatchedItems(v: Json, xs: seq<Json>, ys: seq<Json>, k: nat) {
    && v.Arr?
    && |v.items| == (if k <= |xs| && k <= |ys| then |xs| else if |xs| < |ys| then k else |ys|)
    && (forall i | 0 <= i < |v.items| :: if i < k then i < |ys| && PyEq(v.items[i], ys[i]) else i < |xs| && v.items[i] == xs[i])
  }

  lemma {:induction false} PatchItems(xs: seq<Json>, ys: seq<Json>, k: nat)
    requires k <= Longer(xs, ys)
    ensures PatchedItems(PatchAll(Arr(xs), DiffItems(xs, ys, k)), xs, ys, k)
    decreases Arr(xs), 0, k + 1
  {
    hide Diff, PatchOne, PyEq, IntText, PatchAll;
    if k == 0 {
      assert PatchAll(Arr(xs), []) == Arr(xs) by { PatchNothing(Arr(xs)); }
    } else {
      var i := k - 1;
      PatchItems(xs, ys, i);
      var earlier := PatchAll(Arr(xs), DiffItems(xs, ys, i));
      var found := FoundItem(xs, ys, i);
      PatchConcat(Arr(xs), DiffItems(xs, ys, i), Under(IntText(i), found));
      if i < |xs| && i < |ys| {
        DiffKeepsRoot(xs[i], ys[i]);
        PatchUnderItem(earlier.items, i, found);
        PatchYieldsSecond(xs[i], ys[i]);
      } else {
        PatchMissingItem(earlier.items, i, Item(xs, i), Item(ys, i));
        if i < |ys| { PyEqReflexive(ys[i]); }
      }
    }
  }

  lemma PatchNothing(v: Json)
    ensures PatchAll(v, []) == v
  {
  }

  lemma PatchMissingItem(items: seq<Json>, i: nat, before: Option<Json>, after: Option<Json>)
    requires after.Some? ==> i == |items|
    ensures PatchAll(Arr(items), Under(IntText(i), [Delta([], before, after)])) ==
            Arr(if after.Some? then items + [after.value] else if i < |items| then items[..i] else items)
  {
    hide IntText, DigitsValue;
    IndexRoundTrip(i);
    var ds := Under(IntText(i), [Delta([], before, after)]);
    assert Front(ds) == [] && Last(ds).tokens == [IntText(i)];
  }

  // ----- no two records overlap -----

  /** The token lists are pairwise distinct, and none extends another. */
  predicate PrefixFree(ds: seq<Delta>) {
    forall i, j | 0 <= i < |ds| && 0 <= j < |ds| && i != j :: !(ds[i].tokens <= ds[j].tokens)
  }

  lemma PrefixFreeUnder(token: string, ds: seq<Delta>)
    requires PrefixFree(ds)
    ensures PrefixFree(Under(token, ds))
  {
    var es := Under(token, ds);
    forall i, j | 0 <= i < |es| && 0 <= j < |es| && i != j ensures !(es[i].tokens <= es[j].tokens) {
      assert es[i].tokens[1..] == ds[i].tokens && es[j].tokens[1..] == ds[j].tokens;
    }
  }

  /** Records that start differently do not overlap. */
  lemma PrefixFreeConcat(ds: seq<Delta>, es: seq<Delta>)
    requires PrefixFree(ds) && PrefixFree(es)
    requires (forall d <- ds :: d.tokens != []) && (forall e <- es :: e.tokens != [])
    requires forall d, e | d in ds && e in es :: d.tokens[0] != e.tokens[0]
    ensures PrefixFree(ds + es)
  {
    var all := ds + es;
    forall i, j | 0 <= i < |all| && 0 <= j < |all| && i != j ensures !(all[i].tokens <= all[j].tokens) {
      if i < |ds| && j >= |ds| {
        assert all[i] in ds && all[j] in es;
      } else if i >= |ds| && j < |ds| {
        assert all[i] in es && all[j] in ds;
      } else if i < |ds| {
        assert all[i] == ds[i] && all[j] == ds[j];
      } else {
        assert all[i] == es[i - |ds|] && all[j] == es[j - |ds|];
      }
    }
  }

  lemma {:induction false} RecordsDoNotOverlap(v: Json, w: Json)
    ensures PrefixFree(Diff(v, w))
    decreases v, 1, 0
  {
    if v.Obj? && w.Obj? {
      SortedDistinct(Names(v.fields, w.fields));
      FieldsDoNotOverlap(v.fields, w.fields, Names(v.fields, w.fields));
    } else if v.Arr? && w.Arr? {
      ItemsDoNotOverlap(v.items, w.items, Longer(v.items, w.items));
    }
  }

  lemma {:induction false} FieldsDoNotOverlap(m: Fields, n: Fields, names: seq<string>)
    requires Distinct(names)
    ensures PrefixFree(DiffFields(m, n, names))
    decreases Obj(m), 0, |names| + 1
  {
    hide Diff, PrefixFree;
    if names == [] {
      assert PrefixFree([]) by { NothingOverlaps(); }
    } else {
      var name := Last(names);
      FieldsDoNotOverlap(m, n, Front(names));
      FieldsHaveTokens(m, n, Front(names));
      assert name !in Front(names);
      var found := FoundField(m, n, name);
      if name in m && name in n {
        RecordsDoNotOverlap(m[name], n[name]);
      } else {
        OneDoesNotOverlap(found[0]);
      }
      PrefixFreeUnder(name, found);
      PrefixFreeConcat(DiffFields(m, n, Front(names)), Under(name, found));
    }
  }

  lemma NothingOverlaps()
    ensures PrefixFree([])
  {
  }

  lemma OneDoesNotOverlap(d: Delta)
    ensures PrefixFree([d])
  {
  }

  lemma {:induction false} ItemsDoNotOverlap(xs: seq<Json>, ys: seq<Json>, k: nat)
    ensures PrefixFree(DiffItems(xs, ys, k))
    decreases Arr(xs), 0, k + 1
  {
    hide Diff, PrefixFree, IntText;
    if k == 0 {
      NothingOverlaps();
    } else {
      var i := k - 1;
      ItemsDoNotOverlap(xs, ys, i);
      ItemsHaveTokens(xs, ys, i);
      var found := FoundItem(xs, ys, i);
      if i < |xs| && i < |ys| {
        RecordsDoNotOverlap(xs[i], ys[i]);
      } else {
        OneDoesNotOverlap(found[0]);
      }
      PrefixFreeUnder(IntText(i), found);
      forall d, e | d in DiffItems(xs, ys, i) && e in Under(IntText(i), found) ensures d.tokens[0] != e.tokens[0] {
        var j :| 0 <= j < i && d.tokens[0] == IntText(j);
        if IntText(j) == IntText(i) { IntTextInjective(j, i); }
      }
      PrefixFreeConcat(DiffItems(xs, ys, i), Under(IntText(i), found));
    }
  }

  /**
   For two objects, or two arrays, the written paths are pointers: each decodes to its record's
   tokens, no two are equal, and none is a proper ancestor of another.
   */
  lemma PathsDoNotOverlap(v: Json, w: Json)
    requires (v.Obj? && w.Obj?) || (v.Arr? && w.Arr?)
    ensures var ds := Diff(v, w);
            var written := WriteAll("", ds);
            && (forall i | 0 <= i < |ds| :: ParsePointer(written[i].path) == ds[i].tokens)
            && (forall i, j, rest | 0 <= i < |ds| && 0 <= j < |ds| && i != j ::
                  written[i].path != written[j].path && written[j].path != written[i].path + "/" + rest)
  {
    hide Diff, PointerToken, ParsePointer, DiffFields, DiffItems;
    var ds := Diff(v, w);
    var written := WriteAll("", ds);
    RecordsDoNotOverlap(v, w);
    RootsHaveTokens(v, w);
    forall i | 0 <= i < |ds| ensures written[i].path == Pointer(ds[i].tokens) && ParsePointer(written[i].path) == ds[i].tokens {
      assert ds[i] in ds;
      assert "" + Pointer(ds[i].tokens) == Pointer(ds[i].tokens);
      PointerRoundTrip(ds[i].tokens);
    }
    forall i, j, rest | 0 <= i < |ds| && 0 <= j < |ds| && i != j
      ensures written[i].path != written[j].path && written[j].path != written[i].path + "/" + rest
    {
      if written[j].path == written[i].path + "/" + rest {
        Assoc(written[i].path, "/", rest);
        PointerPrefix(ds[i].tokens, ds[j].tokens, "/" + rest);
      }
    }
  }

  lemma RootsHaveTokens(v: Json, w: Json)
    requires (v.Obj? && w.Obj?) || (v.Arr? && w.Arr?)
    ensures forall d <- Diff(v, w) :: d.tokens != []
  {
    hide DiffFields, DiffItems;
    if v.Obj? && w.Obj? {
      FieldsHaveTokens(v.fields, w.fields, Names(v.fields, w.fields));
    } else {
      ItemsHaveTokens(v.items, w.items, Longer(v.items, w.items));
    }
  }

  // ----- a difference under one field -----

  lemma {:induction false} OnlyOneFieldDiffers(m: Fields, n: Fields, key: string, names: seq<string>)
    requires key in m && m.Keys == n.Keys && (forall k | k in m && k != key :: n[k] == m[k])
    requires Distinct(names) && forall k <- names :: k in m
    ensures DiffFields(m, n, names) == if key in names then Under(key, Diff(m[key], n[key])) else []
    decreases |names|
  {
    hide Diff, Under, StrictlySorted;
    if names != [] {
      var name := Last(names);
      assert name in names && name !in Front(names) && forall k <- Front(names) :: k in names;
      OnlyOneFieldDiffers(m, n, key, Front(names));
      assert key in names <==> key in Front(names) || key == name;
      var front, found := DiffFields(m, n, Front(names)), Under(name, Diff(m[name], n[name]));
      assert DiffFields(m, n, names) == front + found;
      if name == key {
        assert front == [];
        assert front + found == found;
      } else {
        NothingToReport(m[name], name);
        assert front + found == front;
      }
    }
  }

  lemma NothingToReport(v: Json, token: string)
    ensures Under(token, Diff(v, v)) == []
  {
    hide Diff;
    PyEqReflexive(v);
    EmptyIffEqual(v, v);
    UnderNothing(token);
  }

  lemma UnderNothing(token: string)
    ensures Under(token, []) == []
  {
  }

  /** Replacing one field's value: the difference is that field's difference, one token deeper. */
  lemma FieldUpdateDiff(m: Fields, key: string, w: Json)
    requires key in m
    ensures Diff(Obj(m), Obj(m[key := w])) == Under(key, Diff(m[key], w))
  {
    hide Under, DiffFields;
    var n := m[key := w];
    var names := Names(m, n);
    SortedDistinct(names);
    assert forall k :: k in names <==> k in m;
    OnlyOneFieldDiffers(m, n, key, names);
  }
}
