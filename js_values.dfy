/** The JavaScript values that cross the inspector's boundaries (JSON-safe
    values plus `undefined`), with the few operators the core applies to
    them: truthiness, `typeof v === 'object'`, `k in v`, `v.k` and the
    object spread `{...v}`. */
module JsValues {
  import opened Wrappers
  import opened Text

  datatype JsValue =
    | Undefined
    | Null
    | Bool(b: bool)
    | Num(n: real)
    | Str(s: string)
    | Arr(items: seq<JsValue>)
    | Obj(fields: map<string, JsValue>)

  /** JavaScript truthiness (the model has no NaN). */
  predicate Truthy(v: JsValue) {
    match v
    case Undefined => false
    case Null => false
    case Bool(b) => b
    case Num(n) => n != 0.0
    case Str(s) => s != ""
    case Arr(_) => true
    case Obj(_) => true
  }

  /** `typeof v === 'object'`: null, arrays and plain objects. */
  predicate IsObjectType(v: JsValue) {
    v.Null? || v.Arr? || v.Obj?
  }

  /** The array index a property key names, if it is a canonical one
      (`"0"`, `"1"`, ... but not `"01"` or `"-1"`). */
  function CanonicalIndex(k: string): (r: Option<nat>)
    ensures r.Some? ==> NatToString(r.value) == k
  {
    if k != [] && AllDigits(k) && NatToString(DigitsValue(k)) == k then Some(DigitsValue(k)) else None
  }

  lemma CanonicalIndexOfNatToString(i: nat)
    ensures CanonicalIndex(NatToString(i)) == Some(i)
  {
    DigitsValueOfNatToString(i);
  }

  /** `k in v` for an array or a plain object: its own keys (their
      prototypes hold none of the keys the core asks about). */
  predicate HasKey(v: JsValue, k: string)
    requires v.Arr? || v.Obj?
  {
    match v
    case Obj(m) => k in m
    case Arr(items) => k == "length" || (CanonicalIndex(k).Some? && CanonicalIndex(k).value < |items|)
  }

  /** `v.k` for a value that is neither null nor undefined (reading a key of
      those throws, and the callers model that case themselves). */
  function Get(v: JsValue, k: string): JsValue
    requires !v.Undefined? && !v.Null?
  {
    match v
    case Obj(m) => if k in m then m[k] else Undefined
    case Arr(items) =>
      if k == "length" then Num(|items| as real)
      else if CanonicalIndex(k).Some? && CanonicalIndex(k).value < |items| then items[CanonicalIndex(k).value]
      else Undefined
    case Str(s) =>
      if k == "length" then Num(|s| as real)
      else if CanonicalIndex(k).Some? && CanonicalIndex(k).value < |s| then Str([s[CanonicalIndex(k).value]])
      else Undefined
    case _ => Undefined
  }

  /** The keys `{...v}` copies from an indexed value of length `n`. */
  function IndexKeys(n: nat): set<string> {
    set i | 0 <= i < n :: NatToString(i)
  }

  /** The own enumerable properties that `{...v}` copies: an object's
      entries, an array's or a string's indexed elements, nothing for the
      other primitives, null and undefined. */
  function Spread(v: JsValue): (m: map<string, JsValue>)
    ensures v.Obj? ==> m == v.fields
    ensures !v.Obj? && !v.Arr? && !v.Str? ==> m == map[]
  {
    match v
    case Obj(fields) => fields
    case Arr(items) =>
      map k | k in IndexKeys(|items|) :: (CanonicalIndexOfKey(k, |items|); items[CanonicalIndex(k).value])
    case Str(s) =>
      map k | k in IndexKeys(|s|) :: (CanonicalIndexOfKey(k, |s|); Str([s[CanonicalIndex(k).value]]))
    case _ => map[]
  }

  lemma CanonicalIndexOfKey(k: string, n: nat)
    requires k in IndexKeys(n)
    ensures CanonicalIndex(k).Some? && CanonicalIndex(k).value < n
  {
    var i :| 0 <= i < n && NatToString(i) == k;
    CanonicalIndexOfNatToString(i);
  }

  /** What the spread copies from an array is its elements, in place. */
  lemma SpreadArray(items: seq<JsValue>, i: nat)
    requires i < |items|
    ensures NatToString(i) in Spread(Arr(items)) && Spread(Arr(items))[NatToString(i)] == items[i]
  {
    CanonicalIndexOfNatToString(i);
    assert NatToString(i) in IndexKeys(|items|);
  }

}
