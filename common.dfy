/**
 * Shared vocabulary of the handlers: optional values, results, the shape of a
 * document-store document, JavaScript truthiness, millisecond day arithmetic
 * and a few string helpers.
 */
module Common {

  datatype Option<T> = None | Some(value: T)

  datatype Result<T, E> = Ok(value: T) | Err(error: E)

  /** One day in milliseconds; every date difference in the handlers divides by it. */
  const DAY_MS: int := 86_400_000

  /**
   * A field value of a stored document, as far as the handlers read or write it.
   * `Undefined` is a JavaScript `undefined` (a missing field when read; a write
   * that contains one is rejected by the store). `Euros(c)` is an amount of `c`
   * cents that the source divides by 100; `NaN` is what that division gives
   * when the amount is missing. `ServerTime` is the store's server timestamp.
   */
  datatype Value =
    | Str(s: string)
    | Int(i: int)
    | Bool(b: bool)
    | Time(ms: int)
    | Euros(cents: int)
    | NaN
    | ServerTime
    | Null
    | Undefined
    | Record(fields: map<string, Value>)

  type Doc = map<string, Value>

  /** Reading a field: a field that is not there reads as `undefined`. */
  function Get(d: Doc, key: string): (v: Value)
    ensures key !in d ==> v == Undefined
    ensures key in d ==> v == d[key]
  {
    if key in d then d[key] else Undefined
  }

  /** A field of a nested value: `v.key`, undefined when `v` is not a record. */
  function Field(v: Value, key: string): (r: Value)
    ensures !v.Record? ==> r == Undefined
    ensures v.Record? ==> r == Get(v.fields, key)
  {
    if v.Record? then Get(v.fields, key) else Undefined
  }

  /** JavaScript truthiness of a value. */
  predicate Truthy(v: Value) {
    match v
    case Str(s) => s != ""
    case Int(i) => i != 0
    case Bool(b) => b
    case Euros(c) => c != 0
    case NaN => false
    case Null => false
    case Undefined => false
    case _ => true
  }

  /** `v || fallback` in JavaScript. */
  function OrElse(v: Value, fallback: Value): (r: Value)
    ensures Truthy(v) ==> r == v
    ensures !Truthy(v) ==> r == fallback
  {
    if Truthy(v) then v else fallback
  }

  /** `s || fallback` on a string. */
  function OrDefault(s: string, fallback: string): (r: string)
    ensures s != "" ==> r == s
    ensures s == "" ==> r == fallback
  {
    if s != "" then s else fallback
  }

  /** The store refuses a write holding an `undefined` field. */
  predicate Writable(d: Doc) {
    forall k :: k in d ==> d[k] != Undefined
  }

  /** `Math.ceil(x / DAY_MS)` for an integer number of milliseconds. */
  function CeilDays(x: int): (d: int)
    ensures (d - 1) * DAY_MS < x <= d * DAY_MS
  {
    -((-x) / DAY_MS)
  }

  /** `Math.floor(x / DAY_MS)` for an integer number of milliseconds. */
  function FloorDays(x: int): (d: int)
    ensures d * DAY_MS <= x < (d + 1) * DAY_MS
  {
    x / DAY_MS
  }

  predicate StartsWith(s: string, prefix: string) {
    |prefix| <= |s| && s[..|prefix|] == prefix
  }

  /** The decimal digit for 0..9. */
  function DigitChar(n: nat): (c: char)
    requires n < 10
    ensures '0' <= c <= '9'
  {
    ('0' as int + n) as char
  }

  predicate AllDigits(s: string) {
    forall i :: 0 <= i < |s| ==> '0' <= s[i] <= '9'
  }

  /** The value of a string of decimal digits: the inverse of `NatToString`. */
  function ParseNat(s: string): nat
    requires AllDigits(s)
    decreases |s|
  {
    if s == [] then 0 else ParseNat(s[..|s| - 1]) * 10 + (s[|s| - 1] as int - '0' as int)
  }

  /** Decimal rendering of a natural number, as JavaScript interpolates it. */
  function NatToString(n: nat): (s: string)
    ensures |s| >= 1 && '0' <= s[0] <= '9'
    ensures AllDigits(s)
    decreases n
  {
    if n < 10 then [DigitChar(n)] else NatToString(n / 10) + [DigitChar(n % 10)]
  }

  /** Decimal rendering of an integer, with a leading '-' when negative. */
  function IntToString(i: int): (s: string)
    ensures |s| >= 1
    ensures (s[0] == '-') <==> i < 0
  {
    if i < 0 then "-" + NatToString(-i) else NatToString(i)
  }

  /** Reading back a rendered natural number gives the number. */
  lemma {:induction false} NatToStringRoundTrip(n: nat)
    ensures ParseNat(NatToString(n)) == n
    decreases n
  {
    var s := NatToString(n);
    if n >= 10 {
      NatToStringRoundTrip(n / 10);
      assert s[..|s| - 1] == NatToString(n / 10);
    }
  }

  /** Distinct natural numbers render differently. */
  lemma NatToStringInjective(a: nat, b: nat)
    requires NatToString(a) == NatToString(b)
    ensures a == b
  {
    NatToStringRoundTrip(a);
    NatToStringRoundTrip(b);
  }

  /** Distinct integers render differently. */
  lemma IntToStringInjective(a: int, b: int)
    requires IntToString(a) == IntToString(b)
    ensures a == b
  {
    var s := IntToString(a);
    if a < 0 && b < 0 {
      assert s[1..] == NatToString(-a);
      assert s[1..] == NatToString(-b);
      NatToStringInjective(-a, -b);
    } else if a >= 0 && b >= 0 {
      NatToStringInjective(a, b);
    }
  }

  /** `pattern` occurs in `s` at index `j`. */
  predicate OccursAt(s: string, pattern: string, j: nat) {
    j + |pattern| <= |s| && s[j..j + |pattern|] == pattern
  }

  /** The index of the first occurrence of `pattern` in `s` (JavaScript `indexOf`). */
  function IndexOf(s: string, pattern: string): (r: Option<nat>)
    ensures r.Some? ==> OccursAt(s, pattern, r.value)
    decreases |s|
  {
    if |s| < |pattern| then None
    else if s[..|pattern|] == pattern then Some(0)
    else match IndexOf(s[1..], pattern)
      case None => None
      case Some(j) => Some(j + 1)
  }

  lemma OccursShift(s: string, pattern: string, j: nat)
    requires |s| > 0
    ensures OccursAt(s[1..], pattern, j) <==> OccursAt(s, pattern, j + 1)
  {
    if j + 1 + |pattern| <= |s| {
      assert s[1..][j..j + |pattern|] == s[j + 1..j + 1 + |pattern|];
    }
  }

  /** `IndexOf` finds the first occurrence, and finds none only when there is none. */
  lemma {:induction false} IndexOfFirst(s: string, pattern: string)
    ensures IndexOf(s, pattern).Some? ==>
      forall j: nat :: j < IndexOf(s, pattern).value ==> !OccursAt(s, pattern, j)
    ensures IndexOf(s, pattern).None? <==> forall j: nat :: !OccursAt(s, pattern, j)
    decreases |s|
  {
    if |s| < |pattern| {
    } else if s[..|pattern|] == pattern {
      assert OccursAt(s, pattern, 0);
    } else {
      IndexOfFirst(s[1..], pattern);
      assert !OccursAt(s, pattern, 0);
      forall j: nat
        ensures OccursAt(s[1..], pattern, j) <==> OccursAt(s, pattern, j + 1)
      {
        OccursShift(s, pattern, j);
      }
      match IndexOf(s[1..], pattern)
      case None =>
        forall j: nat ensures !OccursAt(s, pattern, j) {
          if j > 0 {
            assert !OccursAt(s[1..], pattern, j - 1);
          }
        }
      case Some(k) =>
        assert IndexOf(s, pattern) == Some(k + 1);
        forall j: nat | j < k + 1 ensures !OccursAt(s, pattern, j) {
          if j > 0 {
            assert !OccursAt(s[1..], pattern, j - 1);
          }
        }
    }
  }

  /** JavaScript `s.replace(pattern, replacement)` with a string pattern: the first occurrence only. */
  function ReplaceFirst(s: string, pattern: string, replacement: string): (r: string)
    ensures IndexOf(s, pattern).None? ==> r == s
    ensures IndexOf(s, pattern).Some? ==>
      var i := IndexOf(s, pattern).value;
      r == s[..i] + replacement + s[i + |pattern|..]
  {
    match IndexOf(s, pattern)
    case None => s
    case Some(i) => s[..i] + replacement + s[i + |pattern|..]
  }
}
