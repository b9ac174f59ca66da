/**
 * The JSON values that `res.json()` produces, and the few JavaScript
 * operations the classifiers apply to them: property access, truthiness and
 * `String.prototype.includes` / `Array.prototype.includes`.
 */
module Json {
  import opened Wrappers

  /** A parsed JSON value. Numbers are exact reals (see README, "Left out"). */
  datatype Json =
    | JNull
    | JBool(b: bool)
    | JNumber(n: real)
    | JString(s: string)
    | JArray(items: seq<Json>)
    | JObject(fields: map<string, Json>)

  /**
   * `v[key]` for a value that is not `null`: an own member of an object, and
   * `undefined` for every other value. The keys read by the classifiers
   * ("code", "message", "status", "msg") are not inherited properties of
   * strings, numbers, booleans or arrays, so `None` is exact for them.
   */
  function Member(v: Json, key: string): Option<Json>
  {
    if v.JObject? && key in v.fields then Some(v.fields[key]) else None
  }

  /** JavaScript's ToBoolean for a property value (`None` is `undefined`). */
  predicate Truthy(v: Option<Json>)
  {
    match v
    case None => false
    case Some(JNull) => false
    case Some(JBool(b)) => b
    case Some(JNumber(n)) => n != 0.0
    case Some(JString(s)) => s != ""
    case Some(_) => true
  }

  /**
   * JavaScript's ToString on `v` succeeds, as a template literal or `new Error(v)`
   * applies it. An object converts through its `toString`; an own `toString`
   * member is never callable in JSON, and the `valueOf` tried next yields the
   * object itself, so the conversion throws a TypeError. An array converts by
   * joining its elements, so it fails exactly when one of them does.
   */
  predicate Printable(v: Json)
  {
    match v
    case JObject(fields) => "toString" !in fields
    case JArray(items) => forall i :: 0 <= i < |items| ==> Printable(items[i])
    case _ => true
  }

  /** `needle` starts at position `i` of `hay`. */
  ghost predicate OccursAt(needle: string, hay: string, i: int)
  {
    0 <= i && i + |needle| <= |hay| && hay[i..i + |needle|] == needle
  }

  /** `needle` occurs in `hay` at some position: the meaning of `includes`. */
  ghost predicate Occurs(needle: string, hay: string)
  {
    exists i :: OccursAt(needle, hay, i)
  }

  /** `hay.includes(needle)`, searching position by position from the left. */
  function Includes(hay: string, needle: string): bool
    decreases |hay|
  {
    if |needle| <= |hay| && hay[..|needle|] == needle then true
    else if hay == [] then false
    else Includes(hay[1..], needle)
  }

  lemma {:induction false} IncludesIffOccurs(hay: string, needle: string)
    ensures Includes(hay, needle) <==> Occurs(needle, hay)
    decreases |hay|
  {
    if |needle| <= |hay| && hay[..|needle|] == needle {
      assert OccursAt(needle, hay, 0);
    } else if hay == [] {
    } else {
      IncludesIffOccurs(hay[1..], needle);
      OccursInTail(hay, needle);
    }
  }

  /** Past a mismatch at the first position, `needle` occurs in `hay` iff it occurs in its tail. */
  lemma OccursInTail(hay: string, needle: string)
    requires hay != [] && !(|needle| <= |hay| && hay[..|needle|] == needle)
    ensures Occurs(needle, hay) <==> Occurs(needle, hay[1..])
  {
    if Occurs(needle, hay[1..]) {
      var i :| OccursAt(needle, hay[1..], i);
      assert hay[i + 1..i + 1 + |needle|] == hay[1..][i..i + |needle|];
      assert OccursAt(needle, hay, i + 1);
    }
    if Occurs(needle, hay) {
      var i :| OccursAt(needle, hay, i);
      assert i != 0;
      assert hay[1..][i - 1..i - 1 + |needle|] == hay[i..i + |needle|];
      assert OccursAt(needle, hay[1..], i - 1);
    }
  }

  /** Why evaluating the optional call `v?.includes(needle)` threw. */
  datatype SearchFault = NotSearchable

  /**
   * Whether `v?.includes(needle)` is truthy: `undefined` and `null` short-circuit
   * to `undefined`, a string is searched for the substring, an array for an
   * element equal to the string, and a number, boolean or object has no
   * callable `includes`, so the call throws a TypeError.
   */
  function OptionalIncludes(v: Option<Json>, needle: string): (r: Result<bool, SearchFault>)
    ensures r.Failure? <==> v.Some? && (v.value.JNumber? || v.value.JBool? || v.value.JObject?)
    ensures r == Success(true) <==> Mentions(v, needle)
  {
    IncludesIffOccurs(if v.Some? && v.value.JString? then v.value.s else "", needle);
    match v
    case None => Success(false)
    case Some(JNull) => Success(false)
    case Some(JString(s)) => Success(Includes(s, needle))
    case Some(JArray(items)) => Success(JString(needle) in items)
    case Some(_) => Failure(NotSearchable)
  }

  /** `v` is a string containing `needle`, or an array holding the string `needle`. */
  ghost predicate Mentions(v: Option<Json>, needle: string)
  {
    || (v.Some? && v.value.JString? && Occurs(needle, v.value.s))
    || (v.Some? && v.value.JArray? && JString(needle) in v.value.items)
  }
}
