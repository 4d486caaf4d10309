/** JavaScript values as they travel between the board's server and its browsers.

    A task record is a JavaScript object: a finite map from property names to
    JSON values. Object spread `{...a, ...b}` is Dafny's map union `a + b`, in
    which the right operand wins on shared keys. Reading a property that is not
    there yields `undefined`, modelled as `None`.
 */
module JsValues {

  datatype Option<+T> = None | Some(value: T)

  /** A JSON value. `Iso(ms)` is the ISO-8601 string that `new Date(ms).toISOString()`
      produces; the model keeps the instant, since that rendering is one-to-one.
      A `Str` is taken never to hold such a rendering, so every ISO string is an `Iso`. */
  datatype Value =
    | Null
    | Bool(b: bool)
    | Num(n: int)
    | Str(s: string)
    | Iso(ms: int)
    | List(items: seq<Value>)

  type Record = map<string, Value>

  /** `r.f`: the property, or `undefined` when the object has no such key. */
  function Get(r: Record, f: string): (v: Option<Value>)
    ensures v.Some? <==> f in r
    ensures f in r ==> v.value == r[f]
  {
    if f in r then Some(r[f]) else None
  }

  /** `a === b`. Strings, numbers, booleans, null and undefined compare by value;
      arrays compare by identity, and two arrays decoded from separate messages
      are never the same object. */
  predicate StrictEq(a: Option<Value>, b: Option<Value>)
  {
    a == b && !(a.Some? && a.value.List?)
  }

  lemma StrictEqSymmetric(a: Option<Value>, b: Option<Value>)
    ensures StrictEq(a, b) <==> StrictEq(b, a)
  {
  }

  /** JavaScript truthiness of a property read. */
  predicate Truthy(v: Option<Value>)
  {
    match v
    case None => false
    case Some(Null) => false
    case Some(Bool(b)) => b
    case Some(Num(n)) => n != 0
    case Some(Str(s)) => s != ""
    case Some(Iso(_)) => true
    case Some(List(_)) => true
  }

  /** The test `t => t[f] === s` for a string `s`. */
  function FieldIs(f: string, s: string): Record -> bool
  {
    t => Get(t, f) == Some(Str(s))
  }

  /** The instants whose ISO-8601 form has a four-digit year, 0000 to 9999;
      outside them `toISOString` writes a signed six-digit year. */
  const FirstFourDigitYearMs: int := -62_167_219_200_000
  const LastFourDigitYearMs: int := 253_402_300_799_999

  /** `v.length`, where it is defined: strings and arrays. An ISO timestamp is
      "YYYY-MM-DDTHH:mm:ss.sssZ", or three characters longer with an extended year. */
  function Length(v: Value): (n: Option<nat>)
    ensures n.Some? <==> v.Str? || v.List? || v.Iso?
    ensures v.Iso? ==> n.value == if FirstFourDigitYearMs <= v.ms <= LastFourDigitYearMs then 24 else 27
  {
    match v
    case Str(s) => Some(|s|)
    case List(items) => Some(|items|)
    case Iso(ms) => Some(if FirstFourDigitYearMs <= ms <= LastFourDigitYearMs then 24 else 27)
    case _ => None
  }

  /** The digit for 0 <= d < 10. */
  function Digit(d: nat): (c: char)
    requires d < 10
    ensures '0' <= c <= '9'
  {
    "0123456789"[d]
  }

  /** `n.toString()` for a non-negative integer such as `Date.now()`. */
  function DecimalString(n: nat): (s: string)
    ensures |s| > 0
    ensures forall i :: 0 <= i < |s| ==> '0' <= s[i] <= '9'
    ensures n > 0 ==> s[0] != '0'
  {
    if n < 10 then [Digit(n)] else DecimalString(n / 10) + [Digit(n % 10)]
  }

  /** Reads a decimal string back; the partner of DecimalString. */
  function DecimalValue(s: string): nat
    requires forall i :: 0 <= i < |s| ==> '0' <= s[i] <= '9'
  {
    if s == [] then 0 else 10 * DecimalValue(s[..|s| - 1]) + (s[|s| - 1] as int - '0' as int)
  }

  lemma {:induction false} DecimalRoundTrip(n: nat)
    ensures DecimalValue(DecimalString(n)) == n
  {
    var s := DecimalString(n);
    if n >= 10 {
      DecimalRoundTrip(n / 10);
      assert s[..|s| - 1] == DecimalString(n / 10);
    }
  }

  /** Two different clock readings give two different identifiers. */
  lemma DecimalStringInjective(m: nat, n: nat)
    ensures DecimalString(m) == DecimalString(n) <==> m == n
  {
    if DecimalString(m) == DecimalString(n) {
      DecimalRoundTrip(m);
      DecimalRoundTrip(n);
    }
  }

  /** `s.toLowerCase()` on the ASCII letters. */
  function Lower(s: string): (r: string)
    ensures |r| == |s|
    ensures forall i :: 0 <= i < |s| ==> r[i] == (if 'A' <= s[i] <= 'Z' then (s[i] as int + 32) as char else s[i])
  {
    seq(|s|, i requires 0 <= i < |s| => if 'A' <= s[i] <= 'Z' then (s[i] as int + 32) as char else s[i])
  }

  /** `p` occurs somewhere in `s` as a contiguous piece. */
  predicate Contains(s: string, p: string)
    decreases |s|
  {
    p <= s || (|s| > 0 && Contains(s[1..], p))
  }

  lemma {:induction false} ContainsAt(s: string, p: string)
    ensures Contains(s, p) <==> exists i :: 0 <= i <= |s| - |p| && p <= s[i..]
  {
    if p <= s {
      assert s[0..] == s;
    } else if |s| > 0 {
      ContainsAt(s[1..], p);
      if Contains(s[1..], p) {
        var i :| 0 <= i <= |s| - 1 - |p| && p <= s[1..][i..];
        assert s[1..][i..] == s[i + 1..];
      }
      if exists i :: 0 <= i <= |s| - |p| && p <= s[i..] {
        var i :| 0 <= i <= |s| - |p| && p <= s[i..];
        assert i != 0;
        assert s[1..][i - 1..] == s[i..];
      }
    }
  }

  /** Whatever contains `p` is at least as long as `p`. */
  lemma {:induction false} ContainsLength(s: string, p: string)
    requires Contains(s, p)
    ensures |p| <= |s|
    decreases |s|
  {
    if !(p <= s) {
      ContainsLength(s[1..], p);
    }
  }

  /** Whatever contains `p` contains its first character. */
  lemma {:induction false} ContainsHead(s: string, p: string)
    requires p != [] && Contains(s, p)
    ensures p[0] in s
    decreases |s|
  {
    if !(p <= s) {
      ContainsHead(s[1..], p);
    }
  }
}
