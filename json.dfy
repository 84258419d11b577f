/** JavaScript values and plain objects, as the untyped sources (the mock database
    service, the map context and the AI service) handle them. An object is a finite
    map from property names to values; a property that is absent reads as `undefined`.
    Numbers are integers here. */
module Json {
  import opened Wrappers

  datatype Value =
    | Null
    | Bool(b: bool)
    | Num(n: int)
    | Str(s: string)
    | Arr(items: seq<Value>)
    | Obj(fields: map<string, Value>)

  type Object = map<string, Value>

  /** `o[k]`, with `None` for `undefined`. */
  function Get(o: Object, k: string): (r: Option<Value>)
    ensures r.Some? <==> k in o
    ensures r.Some? ==> r.value == o[k]
  {
    if k in o then Some(o[k]) else None
  }

  /** `o[k] === v` for a primitive `v`: the property is present and equal to `v`. */
  predicate Has(o: Object, k: string, v: Value) {
    k in o && o[k] == v
  }

  /** `{ ...a, ...b }` and `Object.assign({}, a, b)`: every property of `b`, and the
      properties of `a` that `b` does not have. */
  function Spread(a: Object, b: Object): Object {
    a + b
  }

  /** The properties of a spread: those of both, the later ones winning. */
  lemma SpreadFields(a: Object, b: Object)
    ensures Spread(a, b).Keys == a.Keys + b.Keys
    ensures forall k :: k in b ==> Spread(a, b)[k] == b[k]
    ensures forall k :: k in a && k !in b ==> Spread(a, b)[k] == a[k]
  {
  }

  /** Spreading the same properties a second time changes nothing. */
  lemma SpreadIdempotent(a: Object, b: Object)
    ensures Spread(Spread(a, b), b) == Spread(a, b)
  {
    var once, twice := Spread(a, b), Spread(Spread(a, b), b);
    assert twice.Keys == once.Keys;
    forall k | k in once ensures twice[k] == once[k] {}
  }

  /** Later spreads win: spreading `b` and then `c` is spreading `b` overridden by `c`. */
  lemma SpreadAssociative(a: Object, b: Object, c: Object)
    ensures Spread(Spread(a, b), c) == Spread(a, Spread(b, c))
  {
    var l, r := Spread(Spread(a, b), c), Spread(a, Spread(b, c));
    assert l.Keys == r.Keys;
    forall k | k in l ensures l[k] == r[k] {}
  }

  /** JavaScript truthiness of a possibly undefined value: `undefined`, `null`, `false`,
      `0` and `""` are falsy, everything else (arrays and objects included) is truthy. */
  predicate Truthy(v: Option<Value>) {
    match v
    case None => false
    case Some(Null) => false
    case Some(Bool(b)) => b
    case Some(Num(n)) => n != 0
    case Some(Str(s)) => s != ""
    case Some(Arr(_)) => true
    case Some(Obj(_)) => true
  }

  /** The number a relational comparison (`<`, `>`, `>=`) converts a value to, `None`
      standing for `NaN`, against which every comparison is false: `null` is 0, booleans
      are 0 and 1, numbers are themselves, and `undefined` is `NaN`. */
  function ToNumber(v: Option<Value>): (r: Option<int>)
    ensures v.Some? && v.value.Num? ==> r == Some(v.value.n)
    ensures v == Some(Null) || v == Some(Bool(false)) ==> r == Some(0)
    ensures v == Some(Bool(true)) ==> r == Some(1)
    ensures v.None? ==> r.None?
  {
    match v
    case None => None
    case Some(Null) => Some(0)
    case Some(Bool(b)) => Some(if b then 1 else 0)
    case Some(Num(n)) => Some(n)
    case Some(_) => None
  }

  /** `o[k] > bound`, with JavaScript's conversion of the property to a number. */
  predicate GreaterThan(o: Object, k: string, bound: int) {
    var x := ToNumber(Get(o, k)); x.Some? && x.value > bound
  }

  /** `o[k] < bound`, with JavaScript's conversion of the property to a number. */
  predicate LessThan(o: Object, k: string, bound: int) {
    var x := ToNumber(Get(o, k)); x.Some? && x.value < bound
  }
}
