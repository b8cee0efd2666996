/** The slice of JavaScript value semantics the relay relies on: the values a
    JSON request body can hold, truthiness, `== null`, `typeof`, `String(v)`,
    `Object.entries`, property reads and the two string tests used to dispatch
    on a content type. */
module Js {
  import opened Wrappers

  /** A value produced by `JSON.parse`, plus `undefined` for a missing
      property. Numbers are integers. An object's fields are listed in the
      order of the JSON text, whereas `Object.entries` lists integer-like keys
      first in ascending order; every object the relay reads is turned into
      a map over distinct keys, where that order cannot be seen. */
  datatype JsValue =
    | Undefined
    | Null
    | Bool(b: bool)
    | Number(n: int)
    | Str(s: string)
    | Array(items: seq<JsValue>)
    | Object(fields: seq<(string, JsValue)>)

  /** `v == null`: true of `null` and `undefined` only. */
  predicate Nullish(v: JsValue)
    ensures Nullish(v) <==> v == Undefined || v == Null
    ensures !Nullish(v) <==> v.Bool? || v.Number? || v.Str? || v.Array? || v.Object?
  {
    v.Undefined? || v.Null?
  }

  /** `!!v`: null and undefined are falsy, arrays and objects truthy. */
  predicate Truthy(v: JsValue)
    ensures Truthy(v) ==> !Nullish(v)
    ensures v.Array? || v.Object? ==> Truthy(v)
  {
    match v
    case Undefined => false
    case Null => false
    case Bool(b) => b
    case Number(n) => n != 0
    case Str(s) => s != ""
    case Array(_) => true
    case Object(_) => true
  }

  /** `typeof v === 'object'`, which includes `null`; only together with
      truthiness does it single out arrays and objects. */
  predicate TypeofObject(v: JsValue)
    ensures TypeofObject(v) && Truthy(v) <==> v.Array? || v.Object?
  {
    v.Null? || v.Array? || v.Object?
  }

  /** No key occurs twice; every JavaScript object, and so every object that
      `JSON.parse` builds, has this property. */
  predicate DistinctKeys<V>(entries: seq<(string, V)>) {
    forall i, j :: 0 <= i < j < |entries| ==> entries[i].0 != entries[j].0
  }

  /** What `JSON.parse` can produce: no `undefined` anywhere, and no key
      twice in any object (a repeated key in the text keeps its last value). */
  predicate WellFormed(v: JsValue) {
    match v
    case Undefined => false
    case Array(items) => forall i :: 0 <= i < |items| ==> WellFormed(items[i])
    case Object(fields) => DistinctKeys(fields) && forall i :: 0 <= i < |fields| ==> WellFormed(fields[i].1)
    case _ => true
  }

  // ---------------------------------------------------------------------------
  // Decimal notation of naturals, as `String(n)` writes an integer

  function DigitChar(d: nat): (c: char)
    requires d < 10
    ensures '0' <= c <= '9' && c as int - '0' as int == d
  {
    ('0' as int + d) as char
  }

  predicate IsDigits(s: string) {
    forall i :: 0 <= i < |s| ==> '0' <= s[i] <= '9'
  }

  function Decimal(n: nat): (s: string)
    ensures |s| >= 1 && IsDigits(s)
  {
    if n < 10 then [DigitChar(n)] else Decimal(n / 10) + [DigitChar(n % 10)]
  }

  /** The number a string of digits denotes. */
  function DigitsValue(s: string): nat
    requires IsDigits(s)
  {
    if s == [] then 0 else DigitsValue(s[..|s| - 1]) * 10 + (s[|s| - 1] as int - '0' as int)
  }

  lemma {:induction false} DecimalRoundTrip(n: nat)
    ensures DigitsValue(Decimal(n)) == n
  {
    if n >= 10 {
      var s := Decimal(n);
      assert s[..|s| - 1] == Decimal(n / 10);
      DecimalRoundTrip(n / 10);
    }
  }

  /** Distinct numbers print differently, so the keys of an array's entries are distinct. */
  lemma DecimalInjective(m: nat, n: nat)
    requires Decimal(m) == Decimal(n)
    ensures m == n
  {
    DecimalRoundTrip(m);
    DecimalRoundTrip(n);
  }

  // ---------------------------------------------------------------------------
  // String(v)

  function JoinComma(parts: seq<string>): string {
    if parts == [] then ""
    else if |parts| == 1 then parts[0]
    else parts[0] + "," + JoinComma(parts[1..])
  }

  /** `String(v)`: an array joins its elements' strings with commas, writing
      `null` and `undefined` elements as empty strings; a plain object prints
      as `[object Object]`. */
  function ToJsString(v: JsValue): (s: string)
    ensures v.Str? ==> s == v.s
  {
    match v
    case Undefined => "undefined"
    case Null => "null"
    case Bool(b) => if b then "true" else "false"
    case Number(n) => if n < 0 then "-" + Decimal(-n) else Decimal(n)
    case Str(s) => s
    case Array(items) =>
      JoinComma(seq(|items|, i requires 0 <= i < |items| =>
        if Nullish(items[i]) then "" else ToJsString(items[i])))
    case Object(_) => "[object Object]"
  }

  // ---------------------------------------------------------------------------
  // Objects

  /** `Object.entries(v)` for an array or a plain object: an array's entries
      are keyed by the decimal indices. */
  function Entries(v: JsValue): (entries: seq<(string, JsValue)>)
    requires v.Array? || v.Object?
    ensures v.Array? ==> |entries| == |v.items|
    ensures v.Array? ==> forall i :: 0 <= i < |entries| ==> entries[i] == (Decimal(i), v.items[i])
    ensures v.Object? ==> entries == v.fields
  {
    match v
    case Array(items) => seq(|items|, i requires 0 <= i < |items| => (Decimal(i), items[i]))
    case Object(fields) => fields
  }

  lemma ArrayEntriesDistinct(items: seq<JsValue>)
    ensures DistinctKeys(Entries(Array(items)))
  {
    var entries := Entries(Array(items));
    forall i, j | 0 <= i < j < |entries|
      ensures entries[i].0 != entries[j].0
    {
      if entries[i].0 == entries[j].0 {
        DecimalInjective(i, j);
      }
    }
  }

  function FieldLookup(fields: seq<(string, JsValue)>, name: string): (v: JsValue)
    ensures !v.Undefined? ==> exists i :: 0 <= i < |fields| && fields[i] == (name, v)
    ensures DistinctKeys(fields) ==> forall i :: 0 <= i < |fields| && fields[i].0 == name ==> v == fields[i].1
  {
    if fields == [] then Undefined
    else if fields[0].0 == name then fields[0].1
    else
      assert DistinctKeys(fields) ==> DistinctKeys(fields[1..]);
      FieldLookup(fields[1..], name)
  }

  /** `v[name]` for a name that no prototype in play defines (`url`, `method`,
      `headers`, `body`): an own field of an object, `undefined` otherwise.
      Reading a property of `null` or `undefined` throws in JavaScript; here it
      gives `undefined` (see `RouteAsWritten` for the throwing form). */
  function Property(v: JsValue, name: string): (r: JsValue)
    ensures !v.Object? ==> r.Undefined?
    ensures v.Object? && !r.Undefined? ==> exists i :: 0 <= i < |v.fields| && v.fields[i] == (name, r)
    ensures v.Object? && DistinctKeys(v.fields) ==>
      forall i :: 0 <= i < |v.fields| && v.fields[i].0 == name ==> r == v.fields[i].1
  {
    if v.Object? then FieldLookup(v.fields, name) else Undefined
  }

  // ---------------------------------------------------------------------------
  // Strings

  /** `s.startsWith(prefix)`: `s` agrees with `prefix` character by character. */
  predicate StartsWith(s: string, prefix: string)
    ensures StartsWith(s, prefix) <==> |prefix| <= |s| && forall i :: 0 <= i < |prefix| ==> s[i] == prefix[i]
    ensures StartsWith(s, prefix) ==> s == prefix + s[|prefix|..]
  {
    |prefix| <= |s| && s[..|prefix|] == prefix
  }

  /** `s.includes(sub)`: `sub` starts at some position of `s`. */
  predicate Includes(s: string, sub: string)
    decreases |s|
    ensures StartsWith(s, sub) ==> Includes(s, sub)
    ensures Includes(s, sub) ==> |sub| <= |s|
  {
    StartsWith(s, sub) || (s != [] && Includes(s[1..], sub))
  }

  /** `includes` searches every position: `sub` is included exactly when some
      suffix of `s` starts with it. */
  lemma {:induction false} IncludesOccurrence(s: string, sub: string)
    ensures Includes(s, sub) <==> exists i :: 0 <= i <= |s| && StartsWith(s[i..], sub)
    decreases |s|
  {
    if StartsWith(s, sub) {
      assert s[0..] == s;
    } else if s == [] {
      forall i | 0 <= i <= |s|
        ensures !StartsWith(s[i..], sub)
      {
        assert s[i..] == s;
      }
    } else {
      IncludesOccurrence(s[1..], sub);
      if Includes(s[1..], sub) {
        var j :| 0 <= j <= |s[1..]| && StartsWith(s[1..][j..], sub);
        assert s[1..][j..] == s[j + 1..];
      } else {
        forall i | 0 <= i <= |s|
          ensures !StartsWith(s[i..], sub)
        {
          if i == 0 {
            assert s[i..] == s;
          } else {
            assert s[1..][i - 1..] == s[i..];
          }
        }
      }
    }
  }

  predicate IsLowerAscii(c: char) {
    'a' <= c <= 'z'
  }

  function UpperAscii(c: char): char {
    if IsLowerAscii(c) then (c as int - 32) as char else c
  }

  /** `s.toUpperCase()` on ASCII letters; every other character is kept. */
  function ToUpperCase(s: string): (r: string)
    ensures |r| == |s|
    ensures forall i :: 0 <= i < |r| ==> !IsLowerAscii(r[i])
    ensures forall i :: 0 <= i < |r| ==> (if IsLowerAscii(s[i]) then r[i] as int == s[i] as int - 32 else r[i] == s[i])
  {
    seq(|s|, i requires 0 <= i < |s| => UpperAscii(s[i]))
  }
}
