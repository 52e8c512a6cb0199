/** JavaScript values as the dispatch code handles them (the results of
    JSON.parse and the objects it builds), and the few JavaScript operators
    the code applies to them: truthiness, `||`, `??`, property reads, `?.`
    and object spread. */
module Json {

  datatype Option<T> = None | Some(value: T)

  /** The outcome of an expression that may throw; a thrown error is kept as
      its message. */
  datatype Result<T> = Ok(value: T) | Err(error: string)

  /** A JavaScript value. `Undefined` is needed because the code builds
      objects whose keys may hold `undefined`. Numbers are JSON numbers, so
      there is no NaN. */
  datatype Value =
    | Undefined
    | Null
    | Bool(b: bool)
    | Num(n: real)
    | Str(s: string)
    | Arr(items: seq<Value>)
    | Obj(fields: map<string, Value>)

  type Object = map<string, Value>

  predicate Nullish(v: Value) {
    v.Undefined? || v.Null?
  }

  predicate Truthy(v: Value) {
    match v
    case Undefined => false
    case Null => false
    case Bool(b) => b
    case Num(n) => n != 0.0
    case Str(s) => s != ""
    case Arr(_) => true
    case Obj(_) => true
  }

  /** `a || b` */
  function Or(a: Value, b: Value): Value {
    if Truthy(a) then a else b
  }

  /** `a ?? b` */
  function Coalesce(a: Value, b: Value): Value {
    if Nullish(a) then b else a
  }

  /** Reading a key an object does not have gives `undefined`. */
  function Get(m: Object, k: string): Value {
    if k in m then m[k] else Undefined
  }

  /** The keys under which arrays and strings expose their elements. */
  predicate IsIndexKey(k: string) {
    |k| > 0 && forall j :: 0 <= j < |k| ==> '0' <= k[j] <= '9'
  }

  function Digit(d: nat): (c: char)
    requires d < 10
    ensures '0' <= c <= '9'
  {
    (('0' as int) + d) as char
  }

  /** The decimal name of index `i`. */
  function IndexKey(i: nat): (k: string)
    ensures IsIndexKey(k)
    decreases i
  {
    if i < 10 then [Digit(i)] else IndexKey(i / 10) + [Digit(i % 10)]
  }

  /** The own enumerable properties of an array with elements `items`. */
  function IndexFields(items: seq<Value>): (m: Object)
    ensures forall k :: k in m ==> IsIndexKey(k)
    ensures |m| <= |items|
    decreases |items|
  {
    if items == [] then map[]
    else
      var n := |items| - 1;
      IndexFields(items[..n])[IndexKey(n) := items[n]]
  }

  /** A string seen element by element, each element a one-character string. */
  function Chars(s: string): seq<Value> {
    seq(|s|, i requires 0 <= i < |s| => Str([s[i]]))
  }

  /** The properties that object spread `{...v}` copies out of `v`. */
  function Own(v: Value): (m: Object)
    ensures v.Obj? ==> m == v.fields
    ensures !v.Obj? ==> forall k :: k in m ==> IsIndexKey(k)
  {
    match v
    case Obj(f) => f
    case Arr(items) => IndexFields(items)
    case Str(s) => IndexFields(Chars(s))
    case _ => map[]
  }

  /** The text of the TypeError a property read on null or undefined throws. */
  function ReadError(v: Value, k: string): string {
    "Cannot read properties of " + (if v.Null? then "null" else "undefined") + " (reading '" + k + "')"
  }

  /** `v.k` on a value that is neither null nor undefined. */
  function Field(v: Value, k: string): Value {
    Get(Own(v), k)
  }

  /** `v.k`: throws on null and undefined. */
  function Prop(v: Value, k: string): Result<Value> {
    if Nullish(v) then Err(ReadError(v, k)) else Ok(Field(v, k))
  }

  /** `v?.k` */
  function OptProp(v: Value, k: string): Value {
    if Nullish(v) then Undefined else Field(v, k)
  }

  /** `{ type: tag, ...v }`: the keys of `v` win, `type` included. */
  function Tagged(tag: string, v: Value): Value {
    Obj(map["type" := Str(tag)] + Own(v))
  }

  /** A named key (one that does not start with a digit) is never an index key. */
  predicate Named(k: string) {
    |k| > 0 && !('0' <= k[0] <= '9')
  }

  /** Reading a named key sees only the fields of an object: arrays, strings
      and the other primitives have none. */
  lemma NamedField(v: Value, k: string)
    requires Named(k)
    ensures Field(v, k) == if v.Obj? && k in v.fields then v.fields[k] else Undefined
  {
  }

  /** Spreading `v` behind a tag keeps every property of `v` and adds `type`
      only when `v` has none: the spread's right operand wins. */
  lemma TaggedFields(tag: string, v: Value)
    ensures Tagged(tag, v).Obj?
    ensures Field(Tagged(tag, v), "type") == if v.Obj? && "type" in v.fields then v.fields["type"] else Str(tag)
    ensures forall k :: k != "type" ==> Field(Tagged(tag, v), k) == Field(v, k)
  {
    NamedField(v, "type");
  }

  /** Spreading `v` over `base`: a named key reads as `v`'s own value when
      `v` has the key, and as in `base` otherwise. */
  lemma SpreadLast(base: Object, v: Value, k: string)
    requires Named(k)
    ensures Field(Obj(base + Own(v)), k) == if v.Obj? && k in v.fields then v.fields[k] else Get(base, k)
  {
  }

  /** A key given a default (`v.k ?? d` or `v.k || d`) and then spread over
      by `v` reads as `v`'s own value when `v` has the key, and as the
      default otherwise. */
  lemma DefaultUnlessOwn(base: Object, v: Value, k: string, fallback: Value)
    requires Named(k) && k in base
    requires base[k] == Coalesce(Field(v, k), fallback) || base[k] == Or(Field(v, k), fallback)
    ensures Field(Obj(base + Own(v)), k) == if v.Obj? && k in v.fields then v.fields[k] else fallback
  {
    SpreadLast(base, v, k);
    NamedField(v, k);
  }
}
