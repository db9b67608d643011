/** Normalized JSON values and Python's `==` on them. */
module Json {
  /** What `normalize_json_value` returns: built-in scalars, lists and dictionaries with string keys. */
  datatype Json =
    | Null
    | Bool(b: bool)
    | Int(n: int)
    | Float(r: real)
    | Str(s: string)
    | Arr(items: seq<Json>)
    | Obj(fields: map<string, Json>)

  type Fields = map<string, Json>

  /** `value.get(key)`, with `None` for a missing key. */
  function Get(fields: Fields, key: string): Json {
    if key in fields then fields[key] else Null
  }

  /** `bool(value)` */
  predicate Truthy(v: Json) {
    match v
    case Null => false
    case Bool(b) => b
    case Int(n) => n != 0
    case Float(r) => r != 0.0
    case Str(s) => s != ""
    case Arr(items) => items != []
    case Obj(fields) => fields != map[]
  }

  predicate IsNumber(v: Json) {
    v.Bool? || v.Int? || v.Float?
  }

  /** The number a Python `bool`, `int` or `float` denotes. */
  function NumberValue(v: Json): real
    requires IsNumber(v)
  {
    match v
    case Bool(b) => if b then 1.0 else 0.0
    case Int(n) => n as real
    case Float(r) => r
  }

  /** Python's `==`: `True`, `1` and `1.0` are equal, containers are compared elementwise. */
  predicate PyEq(v: Json, w: Json) {
    if IsNumber(v) && IsNumber(w) then
      NumberValue(v) == NumberValue(w)
    else if v.Arr? && w.Arr? then
      |v.items| == |w.items| && forall i | 0 <= i < |v.items| :: PyEq(v.items[i], w.items[i])
    else if v.Obj? && w.Obj? then
      v.fields.Keys == w.fields.Keys && forall k | k in v.fields :: PyEq(v.fields[k], w.fields[k])
    else
      v == w
  }

  lemma {:induction false} PyEqReflexive(v: Json)
    ensures PyEq(v, v)
  {
    match v
    case Arr(items) =>
      forall i | 0 <= i < |items| ensures PyEq(items[i], items[i]) { PyEqReflexive(items[i]); }
    case Obj(fields) =>
      forall k | k in fields ensures PyEq(fields[k], fields[k]) { PyEqReflexive(fields[k]); }
    case _ =>
  }

  /** Equal to a text is being it. */
  lemma TextIsItself(s: string, w: Json)
    ensures PyEq(Str(s), w) <==> w == Str(s)
    ensures PyEq(w, Str(s)) <==> w == Str(s)
  {
  }

  lemma {:induction false} PyEqSymmetric(v: Json, w: Json)
    ensures PyEq(v, w) == PyEq(w, v)
  {
    if v.Arr? && w.Arr? {
      if |v.items| == |w.items| {
        forall i | 0 <= i < |v.items| ensures PyEq(v.items[i], w.items[i]) == PyEq(w.items[i], v.items[i]) {
          PyEqSymmetric(v.items[i], w.items[i]);
        }
      }
    } else if v.Obj? && w.Obj? {
      if v.fields.Keys == w.fields.Keys {
        forall k | k in v.fields ensures PyEq(v.fields[k], w.fields[k]) == PyEq(w.fields[k], v.fields[k]) {
          PyEqSymmetric(v.fields[k], w.fields[k]);
        }
      }
    }
  }

  /** Without the number-kind identifications, Python's `==` is identity of the value. */
  predicate WithoutCoercibles(v: Json) {
    match v
    case Bool(_) => false
    case Float(_) => false
    case Arr(items) => forall i | 0 <= i < |items| :: WithoutCoercibles(items[i])
    case Obj(fields) => forall k | k in fields :: WithoutCoercibles(fields[k])
    case _ => true
  }

  lemma {:induction false} PyEqIsIdentity(v: Json, w: Json)
    requires WithoutCoercibles(v) && WithoutCoercibles(w)
    ensures PyEq(v, w) <==> v == w
  {
    PyEqReflexive(v);
    if PyEq(v, w) {
      if v.Arr? && w.Arr? {
        forall i | 0 <= i < |v.items| ensures v.items[i] == w.items[i] { PyEqIsIdentity(v.items[i], w.items[i]); }
        assert v.items == w.items;
      } else if v.Obj? && w.Obj? {
        forall k | k in v.fields ensures v.fields[k] == w.fields[k] { PyEqIsIdentity(v.fields[k], w.fields[k]); }
        assert v.fields == w.fields;
      }
    }
  }
}
