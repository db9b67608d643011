/** What the state difference reports, said of each record without walking the trees (confidentiality.py). */
module DiffMeaning {
  import opened Basics
  import opened Json
  import opened Text
  import opened StateDiff

  // ----- which records -----

  /**
   The record names a place reached through containers of one kind in both trees, where the trees differ: one
   side has nothing there, or both have something and it is not two objects, two arrays, or equal values. It
   holds what each tree has there.
   */
  predicate Differs(v: Json, w: Json, d: Delta)
    decreases |d.tokens|, 0
  {
    if d.tokens == [] then
      && !(v.Obj? && w.Obj?) && !(v.Arr? && w.Arr?) && !PyEq(v, w)
      && d.before == Some(v) && d.after == Some(w)
    else
      || (v.Obj? && w.Obj? && DiffersAt(Field(v.fields, d.tokens[0]), Field(w.fields, d.tokens[0]), Beneath(d)))
      || (v.Arr? && w.Arr? && exists i | 0 <= i < Longer(v.items, w.items) ::
                                IsIndex(d.tokens[0], i) && DiffersAt(Item(v.items, i), Item(w.items, i), Beneath(d)))
  }

  predicate DiffersAt(x: Option<Json>, y: Option<Json>, d: Delta)
    decreases |d.tokens|, 1
  {
    if x.Some? && y.Some? then Differs(x.value, y.value, d)
    else (x.Some? || y.Some?) && d == Delta([], x, y)
  }

  predicate IsIndex(token: string, i: nat) {
    token == IntText(i)
  }

  /** The record, as seen from one token further down. */
  function Beneath(d: Delta): Delta
    requires d.tokens != []
  {
    Delta(d.tokens[1..], d.before, d.after)
  }

  lemma UnderHolds(token: string, ds: seq<Delta>, d: Delta)
    ensures d in Under(token, ds) <==> d.tokens != [] && d.tokens[0] == token && Beneath(d) in ds
  {
    if d in Under(token, ds) {
      var i :| 0 <= i < |ds| && Under(token, ds)[i] == d;
      assert d.tokens[1..] == ds[i].tokens;
      assert Beneath(d) == ds[i];
    }
    if d.tokens != [] && d.tokens[0] == token && Beneath(d) in ds {
      var i :| 0 <= i < |ds| && ds[i] == Beneath(d);
      assert [token] + ds[i].tokens == d.tokens;
      assert Under(token, ds)[i] == d;
    }
  }

  lemma {:induction false} FieldsHold(m: Fields, n: Fields, names: seq<string>, d: Delta)
    ensures d in DiffFields(m, n, names) <==>
            d.tokens != [] && d.tokens[0] in names && Beneath(d) in FoundField(m, n, d.tokens[0])
  {
    hide FoundField, Under;
    if names != [] {
      FieldsHold(m, n, Front(names), d);
      UnderHolds(Last(names), FoundField(m, n, Last(names)), d);
      assert names == Front(names) + [Last(names)];
    }
  }

  /** The record is of the item at the index. */
  predicate IsOfItem(xs: seq<Json>, ys: seq<Json>, d: Delta, i: nat) {
    hide FoundItem;
    d.tokens != [] && IsIndex(d.tokens[0], i) && Beneath(d) in FoundItem(xs, ys, i)
  }

  lemma {:induction false} ItemsHold(xs: seq<Json>, ys: seq<Json>, k: nat, d: Delta)
    ensures d in DiffItems(xs, ys, k) <==> exists i | 0 <= i < k :: IsOfItem(xs, ys, d, i)
  {
    hide IsOfItem, Under;
    if k > 0 {
      ItemsHold(xs, ys, k - 1, d);
      UnderHolds(IntText(k - 1), FoundItem(xs, ys, k - 1), d);
      assert d in Under(IntText(k - 1), FoundItem(xs, ys, k - 1)) <==> IsOfItem(xs, ys, d, k - 1) by { IsOfItemMeans(xs, ys, d, k - 1); }
    }
  }

  lemma IsOfItemMeans(xs: seq<Json>, ys: seq<Json>, d: Delta, i: nat)
    ensures IsOfItem(xs, ys, d, i) <==> d.tokens != [] && d.tokens[0] == IntText(i) && Beneath(d) in FoundItem(xs, ys, i)
  {
    hide FoundItem;
  }

  lemma {:induction false} FoundIff(x: Option<Json>, y: Option<Json>, d: Delta)
    requires x.Some? || y.Some?
    ensures d in (if x.Some? && y.Some? then Diff(x.value, y.value) else [Delta([], x, y)]) <==> DiffersAt(x, y, d)
    decreases |d.tokens|, 1
  {
    hide Diff;
    if x.Some? && y.Some? {
      DiffIsExact(x.value, y.value, d);
    }
  }

  /** The difference reports exactly the places where the trees differ, each with what the two trees have there. */
  lemma {:induction false} DiffIsExact(v: Json, w: Json, d: Delta)
    ensures d in Diff(v, w) <==> Differs(v, w, d)
    decreases |d.tokens|, 0
  {
    hide DiffFields, DiffItems, PyEq, Names;
    if v.Obj? && w.Obj? {
      FieldsHold(v.fields, w.fields, Names(v.fields, w.fields), d);
      if d.tokens != [] {
        NamesAre(v.fields, w.fields, d.tokens[0]);
        FieldFound(v.fields, w.fields, d.tokens[0]);
        if d.tokens[0] in v.fields || d.tokens[0] in w.fields {
          FoundIff(Field(v.fields, d.tokens[0]), Field(w.fields, d.tokens[0]), Beneath(d));
        }
      }
    } else if v.Arr? && w.Arr? {
      ItemsHold(v.items, w.items, Longer(v.items, w.items), d);
      if d.tokens != [] {
        forall i | 0 <= i < Longer(v.items, w.items)
          ensures IsOfItem(v.items, w.items, d, i) <==>
                  IsIndex(d.tokens[0], i) && DiffersAt(Item(v.items, i), Item(w.items, i), Beneath(d))
        {
          ItemFound(v.items, w.items, i);
          FoundIff(Item(v.items, i), Item(w.items, i), Beneath(d));
        }
      }
    }
  }

  lemma NamesAre(m: Fields, n: Fields, name: string)
    ensures name in Names(m, n) <==> name in m || name in n
  {
  }

  lemma FieldFound(m: Fields, n: Fields, name: string)
    ensures FoundField(m, n, name) ==
            if Field(m, name).Some? && Field(n, name).Some? then Diff(Field(m, name).value, Field(n, name).value)
            else [Delta([], Field(m, name), Field(n, name))]
  {
    hide Diff;
  }

  lemma ItemFound(xs: seq<Json>, ys: seq<Json>, i: nat)
    ensures FoundItem(xs, ys, i) ==
            if Item(xs, i).Some? && Item(ys, i).Some? then Diff(Item(xs, i).value, Item(ys, i).value)
            else [Delta([], Item(xs, i), Item(ys, i))]
  {
    hide Diff;
  }

  // ----- in which order -----

  /** The one place comes before the other: by name among an object's members, by index among an array's items, then deeper. */
  predicate Rises(v: Json, w: Json, a: seq<string>, b: seq<string>)
    decreases |a|, 0
  {
    && a != [] && b != []
    && if v.Obj? && w.Obj? then
         StrLess(a[0], b[0]) || (a[0] == b[0] && RisesWithin(Field(v.fields, a[0]), Field(w.fields, a[0]), a[1..], b[1..]))
       else
         && v.Arr? && w.Arr?
         && exists i, j | 0 <= i < Longer(v.items, w.items) && 0 <= j < Longer(v.items, w.items) ::
              && IsIndex(a[0], i) && IsIndex(b[0], j)
              && (i < j || (i == j && RisesWithin(Item(v.items, i), Item(w.items, i), a[1..], b[1..])))
  }

  predicate RisesWithin(x: Option<Json>, y: Option<Json>, a: seq<string>, b: seq<string>)
    decreases |a|, 1
  {
    x.Some? && y.Some? && Rises(x.value, y.value, a, b)
  }

  predicate Ordered(v: Json, w: Json, ds: seq<Delta>) {
    forall i, j | 0 <= i < j < |ds| :: Rises(v, w, ds[i].tokens, ds[j].tokens)
  }

  predicate OrderedWithin(x: Option<Json>, y: Option<Json>, ds: seq<Delta>) {
    forall i, j | 0 <= i < j < |ds| :: RisesWithin(x, y, ds[i].tokens, ds[j].tokens)
  }

  lemma {:induction false} FieldsRise(m: Fields, n: Fields, names: seq<string>)
    requires StrictlySorted(names) && forall name <- names :: OrderedWithin(Field(m, name), Field(n, name), FoundField(m, n, name))
    ensures Ordered(Obj(m), Obj(n), DiffFields(m, n, names))
  {
    hide FoundField, RisesWithin, StrLess;
    if names != [] {
      var front, name := DiffFields(m, n, Front(names)), Last(names);
      assert name in names && forall x <- Front(names) :: x in names;
      FieldsRise(m, n, Front(names));
      var found, ds := FoundField(m, n, name), DiffFields(m, n, names);
      forall i, j | 0 <= i < j < |ds| ensures Rises(Obj(m), Obj(n), ds[i].tokens, ds[j].tokens) {
        if i < |front| {
          FieldsHold(m, n, Front(names), front[i]);
          if j < |front| {
            assert ds[i] == front[i] && ds[j] == front[j];
          } else {
            assert ds[j] == Under(name, found)[j - |front|];
            assert StrLess(ds[i].tokens[0], name) by { SortedFront(names, ds[i].tokens[0]); }
          }
        } else {
          assert ds[i] == Under(name, found)[i - |front|] && ds[j] == Under(name, found)[j - |front|];
          assert ds[i].tokens[1..] == found[i - |front|].tokens && ds[j].tokens[1..] == found[j - |front|].tokens;
        }
      }
    }
  }

  lemma SortedFront(names: seq<string>, x: string)
    requires StrictlySorted(names) && names != [] && x in Front(names)
    ensures StrLess(x, Last(names))
  {
    var i :| 0 <= i < |names| - 1 && names[i] == x;
  }

  lemma EarlierItemRises(xs: seq<Json>, ys: seq<Json>, d: Delta, e: Delta, i: nat, j: nat)
    requires i < j < Longer(xs, ys) && IsOfItem(xs, ys, d, i) && e.tokens != [] && e.tokens[0] == IntText(j)
    ensures Rises(Arr(xs), Arr(ys), d.tokens, e.tokens)
  {
    hide FoundItem, RisesWithin, Item;
    IsOfItemMeans(xs, ys, d, i);
    assert IsIndex(d.tokens[0], i) && IsIndex(e.tokens[0], j);
  }

  lemma SameItemRises(xs: seq<Json>, ys: seq<Json>, a: seq<string>, b: seq<string>, i: nat)
    requires i < Longer(xs, ys) && RisesWithin(Item(xs, i), Item(ys, i), a, b)
    ensures Rises(Arr(xs), Arr(ys), [IntText(i)] + a, [IntText(i)] + b)
  {
    hide RisesWithin, Item;
    var x, y := [IntText(i)] + a, [IntText(i)] + b;
    assert x[1..] == a && y[1..] == b;
    assert IsIndex(x[0], i) && IsIndex(y[0], i);
  }

  lemma {:induction false} ItemsRise(xs: seq<Json>, ys: seq<Json>, k: nat)
    requires k <= Longer(xs, ys) && forall i | 0 <= i < k :: OrderedWithin(Item(xs, i), Item(ys, i), FoundItem(xs, ys, i))
    ensures Ordered(Arr(xs), Arr(ys), DiffItems(xs, ys, k))
  {
    hide FoundItem, RisesWithin, Rises, Item, IsOfItem;
    if k > 0 {
      var front, token := DiffItems(xs, ys, k - 1), IntText(k - 1);
      ItemsRise(xs, ys, k - 1);
      var found, ds := FoundItem(xs, ys, k - 1), DiffItems(xs, ys, k);
      forall i, j | 0 <= i < j < |ds| ensures Rises(Arr(xs), Arr(ys), ds[i].tokens, ds[j].tokens) {
        if i < |front| {
          if j < |front| {
            assert ds[i] == front[i] && ds[j] == front[j];
          } else {
            ItemsHold(xs, ys, k - 1, front[i]);
            assert ds[i] == front[i] && ds[j] == Under(token, found)[j - |front|];
            var n :| 0 <= n < k - 1 && IsOfItem(xs, ys, ds[i], n);
            EarlierItemRises(xs, ys, ds[i], ds[j], n, k - 1);
          }
        } else {
          assert ds[i] == Under(token, found)[i - |front|] && ds[j] == Under(token, found)[j - |front|];
          SameItemRises(xs, ys, found[i - |front|].tokens, found[j - |front|].tokens, k - 1);
        }
      }
    }
  }

  /** The records are listed in order of their places, depth first. */
  lemma {:induction false} DiffIsOrdered(v: Json, w: Json)
    ensures Ordered(v, w, Diff(v, w))
    decreases v
  {
    hide Diff, DiffFields, DiffItems, FoundField, FoundItem, Rises, PyEq, Names;
    DiffCases(v, w);
    if v.Obj? && w.Obj? {
      forall name | name in v.fields || name in w.fields
        ensures OrderedWithin(Field(v.fields, name), Field(w.fields, name), FoundField(v.fields, w.fields, name))
      {
        FieldFound(v.fields, w.fields, name);
        if name in v.fields && name in w.fields {
          DiffIsOrdered(v.fields[name], w.fields[name]);
        }
      }
      NamesSorted(v.fields, w.fields);
      FieldsRise(v.fields, w.fields, Names(v.fields, w.fields));
    } else if v.Arr? && w.Arr? {
      forall i | 0 <= i < Longer(v.items, w.items)
        ensures OrderedWithin(Item(v.items, i), Item(w.items, i), FoundItem(v.items, w.items, i))
      {
        ItemFound(v.items, w.items, i);
        if i < |v.items| && i < |w.items| {
          DiffIsOrdered(v.items[i], w.items[i]);
        }
      }
      ItemsRise(v.items, w.items, Longer(v.items, w.items));
    }
  }

  lemma DiffCases(v: Json, w: Json)
    ensures v.Obj? && w.Obj? ==> Diff(v, w) == DiffFields(v.fields, w.fields, Names(v.fields, w.fields))
    ensures v.Arr? && w.Arr? ==> Diff(v, w) == DiffItems(v.items, w.items, Longer(v.items, w.items))
    ensures !(v.Obj? && w.Obj?) && !(v.Arr? && w.Arr?) ==> |Diff(v, w)| <= 1
  {
    hide DiffFields, DiffItems, PyEq, Names;
  }

  lemma NamesSorted(m: Fields, n: Fields)
    ensures StrictlySorted(Names(m, n)) && forall name <- Names(m, n) :: name in m || name in n
  {
  }
}
