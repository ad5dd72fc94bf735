/**
 * Small shared vocabulary for the storefront model: optional values, a
 * success-or-error result, JavaScript string interpolation of a possibly
 * missing value, UTF-16 string length, and removal of records by id from a
 * list (the `filter(x => x.id !== id)` idiom the admin and profile pages use).
 */
module Common {

  /** A JavaScript value that may be `null`/`undefined` (None) or present. */
  datatype Option<+T> = None | Some(value: T) {
    function GetOr(default: T): T {
      match this
      case Some(v) => v
      case None => default
    }
  }

  /** The outcome of a call that can throw: a value, or the thrown message. */
  datatype Result<+T> = Ok(value: T) | Error(message: string)

  /**
   * `${v}` inside a template literal: a missing environment variable is
   * rendered as the text "undefined", a present one as itself.
   */
  function Interpolate(v: Option<string>): (r: string)
    ensures v.Some? ==> r == v.value
    ensures v.None? ==> r == "undefined" && r != ""
  {
    v.GetOr("undefined")
  }

  /** A string is truthy in JavaScript exactly when it is present and non-empty. */
  predicate Truthy(v: Option<string>) {
    v.Some? && v.value != ""
  }

  /** `s.startsWith(p)`. */
  predicate StartsWith(s: string, p: string) {
    p <= s
  }

  /** Number of UTF-16 code units a character occupies: two above the Basic Multilingual Plane. */
  function Utf16Units(c: char): nat {
    if c as int >= 0x1_0000 then 2 else 1
  }

  /**
   * JavaScript's `s.length`, which counts UTF-16 code units, whereas a Dafny
   * string counts Unicode scalar values.
   */
  function Utf16Length(s: string): (n: nat)
    ensures |s| <= n <= 2 * |s|
    ensures (forall i :: 0 <= i < |s| ==> s[i] as int < 0x1_0000) ==> n == |s|
  {
    if s == [] then 0 else Utf16Units(s[0]) + Utf16Length(s[1..])
  }

  /**
   * `xs.filter(x => key(x) !== k)`: the records whose key differs from k,
   * in their original order.
   */
  function WithoutKey<T>(xs: seq<T>, key: T -> int, k: int): (r: seq<T>)
    ensures forall i :: 0 <= i < |r| ==> r[i] in xs && key(r[i]) != k
    ensures forall i :: 0 <= i < |xs| && key(xs[i]) != k ==> xs[i] in r
    ensures |r| <= |xs|
  {
    if xs == [] then []
    else (if key(xs[0]) != k then [xs[0]] else []) + WithoutKey(xs[1..], key, k)
  }

  /** Filtering distributes over concatenation, so the survivors keep their relative order. */
  lemma {:induction false} WithoutKeyAppend<T>(a: seq<T>, b: seq<T>, key: T -> int, k: int)
    ensures WithoutKey(a + b, key, k) == WithoutKey(a, key, k) + WithoutKey(b, key, k)
  {
    if a == [] {
      assert a + b == b;
    } else {
      assert (a + b)[1..] == a[1..] + b;
      WithoutKeyAppend(a[1..], b, key, k);
    }
  }

  /** Removing an id that no record carries leaves the list exactly as it was. */
  lemma {:induction false} WithoutAbsentKey<T>(xs: seq<T>, key: T -> int, k: int)
    requires forall i :: 0 <= i < |xs| ==> key(xs[i]) != k
    ensures WithoutKey(xs, key, k) == xs
  {
    if xs != [] {
      WithoutAbsentKey(xs[1..], key, k);
    }
  }

  /** Removing the same id twice is the same as removing it once. */
  lemma WithoutKeyIdempotent<T>(xs: seq<T>, key: T -> int, k: int)
    ensures WithoutKey(WithoutKey(xs, key, k), key, k) == WithoutKey(xs, key, k)
  {
    var r := WithoutKey(xs, key, k);
    WithoutAbsentKey(r, key, k);
  }
}
