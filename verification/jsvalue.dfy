/**
 The slice of JavaScript value semantics the matcher relies on: truthiness,
 the `value` property of a cookie descriptor, `Object.values` and the
 SameValueZero membership test of `Array.prototype.includes`.
 */
module JsValue {
  import opened Wrappers

  /** A value as `JSON.parse` or cookie-parser produces it. JSON has no NaN,
      so a number is a plain real here. */
  datatype Value =
    | Null
    | Bool(b: bool)
    | Num(n: real)
    | Str(s: string)
    | Arr(items: seq<Value>)
    | Obj(fields: map<string, Value>)

  /** A property read: `None` is `undefined`. */
  type Slot = Option<Value>

  /** What `Object.values` throws when handed `undefined` or `null`. */
  datatype TypeError = CannotConvertToObject

  /** Arrays and objects compare by identity; every one of them here comes
      from its own JSON parse, so no two are ever the same object. */
  predicate IsPrimitive(v: Value) {
    !v.Arr? && !v.Obj?
  }

  /** `!!v`. */
  predicate Truthy(v: Slot) {
    match v
    case None => false
    case Some(Null) => false
    case Some(Bool(b)) => b
    case Some(Num(n)) => n != 0.0
    case Some(Str(s)) => s != ""
    case Some(_) => true
  }

  /** `v.value` for a value that is neither `undefined` nor `null`. Of the
      values JSON produces only an object can carry a `value` property. */
  function ValueField(v: Value): Slot {
    if v.Obj? && "value" in v.fields then Some(v.fields["value"]) else None
  }

  /** A character JavaScript keeps in one UTF-16 code unit. */
  predicate OneCodeUnit(c: char) {
    (c as int) < 0x1_0000
  }

  /** `x` is one of the entries `Object.values(c)` lists: an own field value of
      an object, an element of an array, a one-code-unit string of a string.
      A character beyond U+FFFF is two code units, each a lone surrogate; no
      string of the model (a sequence of Unicode scalar values) is a lone
      surrogate, so such entries equal nothing here and are not listed.
      Numbers and booleans have no own enumerable properties. */
  ghost predicate Lists(c: Value, x: Value) {
    match c
    case Obj(fields) => exists k :: k in fields && fields[k] == x
    case Arr(items) => exists i :: 0 <= i < |items| && items[i] == x
    case Str(s) => exists i :: 0 <= i < |s| && OneCodeUnit(s[i]) && x == Str([s[i]])
    case _ => false
  }

  /** `Object.values(v)`, kept as the set of values it lists: its only consumer
      is a membership test, for which order and repetition do not matter. */
  function ObjectValues(v: Slot): (r: Result<set<Value>, TypeError>)
    ensures r.Err? <==> v == None || v == Some(Null)
    ensures r.Ok? ==> forall x :: x in r.value <==> Lists(v.value, x)
  {
    match v
    case None => Err(CannotConvertToObject)
    case Some(Null) => Err(CannotConvertToObject)
    case Some(Bool(_)) => Ok({})
    case Some(Num(_)) => Ok({})
    case Some(Str(s)) => Ok(set i | 0 <= i < |s| && OneCodeUnit(s[i]) :: Str([s[i]]))
    case Some(Arr(items)) => Ok(set x | x in items)
    case Some(Obj(fields)) => Ok(fields.Values)
  }

  /** `Object.values("\U{1F600}")` lists the two surrogate halves of the
      emoji and neither equals a string the model can hold, while a character
      inside the Basic Multilingual Plane is listed as itself. */
  lemma SurrogatePairsSplit()
    ensures ObjectValues(Some(Str("\U{1F600}"))) == Ok({})
    ensures ObjectValues(Some(Str("ab"))) == Ok({Str("a"), Str("b")})
  {
    var emoji := "\U{1F600}";
    assert |emoji| == 1 && !OneCodeUnit(emoji[0]);
    var none := ObjectValues(Some(Str(emoji))).value;
    assert forall x :: x !in none;
    assert none == {};
    var ab := "ab";
    assert |ab| == 2 && ab[0] == 'a' && ab[1] == 'b';
    var both := ObjectValues(Some(Str(ab))).value;
    assert Str("a") in both && Str("b") in both;
    assert forall x :: x in both ==> x == Str("a") || x == Str("b");
    assert both == {Str("a"), Str("b")};
  }

  /** `vals.includes(x)` under SameValueZero: `undefined` is never listed in a
      parsed value, primitives compare by value, arrays and objects never match. */
  predicate Includes(vals: set<Value>, x: Slot) {
    x.Some? && IsPrimitive(x.value) && x.value in vals
  }
}
