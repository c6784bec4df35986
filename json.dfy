/**
 * JSON values as the client sees them through nlohmann::json: objects are
 * key-ordered maps (so a key occurs once), numbers are integral or floating.
 * The library's parser and serialiser are not modelled; the conversions the
 * client performs (`j.get<T>()`, implicit conversion on assignment) are, with
 * the `what()` text of the `type_error` they throw.
 */
module Json {
  import opened Wrappers
  import opened Strings

  datatype Json =
    | JNull
    | JBool(b: bool)
    | JInt(i: int)
    | JReal(r: real)
    | JStr(s: string)
    | JArr(items: seq<Json>)
    | JObj(fields: map<string, Json>)

  /** `type_name()`. */
  function TypeName(j: Json): string {
    match j
    case JNull => "null"
    case JBool(_) => "boolean"
    case JInt(_) => "number"
    case JReal(_) => "number"
    case JStr(_) => "string"
    case JArr(_) => "array"
    case JObj(_) => "object"
  }

  /** `j.contains(key)`: only an object contains anything. */
  predicate Contains(j: Json, key: string) {
    j.JObj? && key in j.fields
  }

  /** The `what()` text of `type_error` 302, thrown by a conversion to the wrong type. */
  function TypeMustBe(expected: string, j: Json): string {
    "[json.exception.type_error.302] type must be " + expected + ", but is " + TypeName(j)
  }

  /** The `what()` text of `type_error` 305, thrown by `j[0]` on anything but an array or null. */
  function NumericIndexError(j: Json): string {
    "[json.exception.type_error.305] cannot use operator[] with a numeric argument with " + TypeName(j)
  }

  /** Conversion to `std::string`: only a JSON string converts. */
  function GetString(j: Json): (r: Result<string, string>)
    ensures r.Success? <==> j.JStr?
    ensures r.Success? ==> j == JStr(r.value)
    ensures r.Failure? ==> r.error == TypeMustBe("string", j)
  {
    if j.JStr? then Success(j.s) else Failure(TypeMustBe("string", j))
  }

  /**
   * Conversion to `size_t`: any number converts; a negative integer wraps
   * modulo 2^64 and a floating value is truncated toward zero first.
   */
  function GetSizeT(j: Json): (r: Result<SizeT, string>)
    ensures r.Success? <==> j.JInt? || j.JReal?
    ensures j.JInt? && 0 <= j.i < SIZE_T_MODULUS ==> r == Success(j.i)
    ensures r.Failure? ==> r.error == TypeMustBe("number", j)
  {
    match j
    case JInt(i) => Success(ToSizeT(i))
    case JReal(x) => Success(ToSizeT(if x >= 0.0 then x.Floor else -((-x).Floor)))
    case _ => Failure(TypeMustBe("number", j))
  }

  /**
   * Conversion to `float`: any number converts, and so does a boolean (to 0
   * or 1), as the library's generic arithmetic conversion allows; rounding
   * to single precision is not modelled.
   */
  function GetFloat(j: Json): (r: Option<real>)
    ensures r.Some? <==> j.JInt? || j.JReal? || j.JBool?
    ensures j.JReal? ==> r == Some(j.r)
  {
    match j
    case JInt(i) => Some(i as real)
    case JReal(x) => Some(x)
    case JBool(b) => Some(if b then 1.0 else 0.0)
    case _ => None
  }

  /** Conversion to `bool`: only a JSON boolean converts. */
  function GetBool(j: Json): (r: Option<bool>)
    ensures r.Some? <==> j.JBool?
  {
    if j.JBool? then Some(j.b) else None
  }

  /** Conversion to `std::map<std::string, std::string>`: an object whose every value is a string. */
  function GetStringMap(j: Json): (r: Option<map<string, string>>)
    ensures r.Some? <==> j.JObj? && forall k :: k in j.fields ==> j.fields[k].JStr?
    ensures r.Some? ==> r.value.Keys == j.fields.Keys
    ensures r.Some? ==> forall k :: k in r.value ==> j.fields[k] == JStr(r.value[k])
  {
    if j.JObj? && forall k :: k in j.fields ==> j.fields[k].JStr? then
      Some(map k | k in j.fields :: j.fields[k].s)
    else None
  }

  /** A string map as a JSON object (the conversion the other way). */
  function StringMapToJson(m: map<string, string>): (j: Json)
    ensures GetStringMap(j) == Some(m)
  {
    var j := JObj(map k | k in m :: JStr(m[k]));
    assert (map k | k in j.fields :: j.fields[k].s) == m;
    j
  }

  /** `j.empty()`: null, an empty array and an empty object are empty; a scalar never is. */
  predicate IsEmpty(j: Json) {
    j.JNull? || (j.JArr? && j.items == []) || (j.JObj? && j.fields == map[])
  }

  /**
   * `j[0]` on a non-const value: an array gives its first
   * element, growing an empty array by one null; null becomes `[null]` and
   * gives null; anything else throws type_error 305.
   */
  function ElementZero(j: Json): (r: Result<Json, string>)
    ensures r.Failure? <==> !(j.JArr? || j.JNull?)
  {
    if j.JArr? then Success(if |j.items| == 0 then JNull else j.items[0])
    else if j.JNull? then Success(JNull)
    else Failure(NumericIndexError(j))
  }

  /**
   * The order of the keys of a nlohmann object, `std::string`'s `<`: byte by
   * byte, a proper prefix first. A model string holds the bytes of the
   * `std::string`, one character per byte, so comparing the characters is
   * comparing the bytes.
   */
  predicate KeyBefore(a: string, b: string) {
    if a == [] then b != []
    else if b == [] then false
    else if a[0] != b[0] then a[0] < b[0]
    else KeyBefore(a[1..], b[1..])
  }

  lemma {:induction false} KeyBeforeAsymmetric(a: string, b: string)
    ensures KeyBefore(a, b) ==> !KeyBefore(b, a)
  {
    if a != [] && b != [] && a[0] == b[0] {
      KeyBeforeAsymmetric(a[1..], b[1..]);
    }
  }

  lemma {:induction false} KeyBeforeTotal(a: string, b: string)
    ensures a != b ==> KeyBefore(a, b) || KeyBefore(b, a)
  {
    if a != [] && b != [] && a[0] == b[0] {
      KeyBeforeTotal(a[1..], b[1..]);
      if a[1..] == b[1..] {
        assert a == [a[0]] + a[1..] && b == [b[0]] + b[1..];
      }
    }
  }

  lemma {:induction false} KeyBeforeTransitive(a: string, b: string, c: string)
    ensures KeyBefore(a, b) && KeyBefore(b, c) ==> KeyBefore(a, c)
  {
    if a != [] && b != [] && c != [] && a[0] == b[0] && b[0] == c[0] {
      KeyBeforeTransitive(a[1..], b[1..], c[1..]);
    }
  }

  /** Whether `k` is in `keys` and comes before every other key there. */
  predicate IsLeastKey(k: string, keys: set<string>) {
    k in keys && forall x :: x in keys && x != k ==> KeyBefore(k, x)
  }

  /** A non-empty finite set of keys has a least key. */
  lemma {:induction false} LeastKeyExists(keys: set<string>)
    requires keys != {}
    ensures exists k :: IsLeastKey(k, keys)
    decreases |keys|
  {
    var y :| y in keys;
    var others := keys - {y};
    if others == {} {
      assert keys == {y};
      assert IsLeastKey(y, keys);
    } else {
      LeastKeyExists(others);
      var m :| IsLeastKey(m, others);
      KeyBeforeTotal(m, y);
      if KeyBefore(m, y) {
        assert IsLeastKey(m, keys);
      } else {
        forall x | x in keys && x != y
          ensures KeyBefore(y, x)
        {
          if x != m {
            KeyBeforeTransitive(y, m, x);
          }
        }
        assert IsLeastKey(y, keys);
      }
    }
  }

  /** There is only one least key. */
  lemma LeastKeyUnique(k: string, k': string, keys: set<string>)
    requires IsLeastKey(k, keys) && IsLeastKey(k', keys)
    ensures k == k'
  {
    if k != k' {
      KeyBeforeAsymmetric(k, k');
    }
  }

  /** The first key of an object in iteration order. */
  function LeastKey(keys: set<string>): (k: string)
    requires keys != {}
    ensures IsLeastKey(k, keys)
  {
    LeastKeyExists(keys);
    assert forall k, k' :: IsLeastKey(k, keys) && IsLeastKey(k', keys) ==> k == k' by {
      forall k, k' | IsLeastKey(k, keys) && IsLeastKey(k', keys)
        ensures k == k'
      {
        LeastKeyUnique(k, k', keys);
      }
    }
    var k :| IsLeastKey(k, keys);
    k
  }

  /** The keys of an object in the order its iterators visit them: each key once, in increasing order. */
  function SortedKeys(keys: set<string>): (ks: seq<string>)
    ensures |ks| == |keys|
    ensures forall i :: 0 <= i < |ks| ==> ks[i] in keys
    ensures forall k :: k in keys ==> k in ks
    ensures forall i, j :: 0 <= i < j < |ks| ==> KeyBefore(ks[i], ks[j])
    decreases |keys|
  {
    if keys == {} then []
    else
      var k := LeastKey(keys);
      [k] + SortedKeys(keys - {k})
  }

  /** The member values of an object in iteration order, which is what a range-for over it visits. */
  function ObjectValues(fields: map<string, Json>): (vs: seq<Json>)
    ensures |vs| == |fields|
    ensures forall i :: 0 <= i < |vs| ==> vs[i] == fields[SortedKeys(fields.Keys)[i]]
  {
    var ks := SortedKeys(fields.Keys);
    seq(|ks|, i requires 0 <= i < |ks| => fields[ks[i]])
  }
}
