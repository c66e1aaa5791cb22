/**
  The values the frontend receives from the API, as JavaScript sees them, and
  the few JavaScript value rules the display code relies on: `||` truthiness
  and the conversion of a number to a string.
 */
module JsValues {
  import opened Wrappers

  /** A program as the frontend receives it: `program_type` is a plain string. */
  datatype ProgramJson = ProgramJson(
    name: string,
    ageRange: string,
    description: string,
    monthlyPrice: int,
    quarterlyPrice: int,
    features: seq<string>,
    programType: string)

  /**
    An integer a JavaScript number holds exactly: a safe integer, at most
    2^53 - 1 in magnitude. For these `String(n)` prints exactly the decimal
    digits of `n`; beyond them a number is rounded to a float and printed
    with the shortest digits that read back to that float.
   */
  type JsInteger = n: int | -9_007_199_254_740_991 <= n <= 9_007_199_254_740_991

  /**
    The stats object as the display sections read it. A field that is absent
    or `null` is `None`.
   */
  datatype StatsJson = StatsJson(
    totalStudents: Option<int>,
    successRate: Option<string>,
    expertEducators: Option<JsInteger>,
    supportHours: Option<string>)

  /** The page's stats before (or without) a successful fetch: the empty object `{}`. */
  const EmptyStats := StatsJson(None, None, None, None)

  /** JavaScript truthiness of an optional string: present and not empty. */
  predicate TruthyString(v: Option<string>)
  {
    v.Some? && v.value != ""
  }

  /** JavaScript truthiness of an optional number: present and not zero. */
  predicate TruthyNumber(v: Option<JsInteger>)
  {
    v.Some? && v.value != 0
  }

  function DigitChar(d: nat): (c: char)
    requires d < 10
    ensures '0' <= c <= '9' && (c as int) - ('0' as int) == d
  {
    ['0', '1', '2', '3', '4', '5', '6', '7', '8', '9'][d]
  }

  /** The decimal digits of `n`, most significant first, without leading zeros. */
  function Digits(n: nat): (r: string)
    ensures |r| > 0
    ensures forall k :: 0 <= k < |r| ==> '0' <= r[k] <= '9'
    ensures |r| > 1 ==> r[0] != '0'
  {
    if n < 10 then [DigitChar(n)] else Digits(n / 10) + [DigitChar(n % 10)]
  }

  /** The number a string of decimal digits denotes. */
  function DigitsValue(s: string): int
  {
    if s == [] then 0 else 10 * DigitsValue(s[..|s| - 1]) + ((s[|s| - 1] as int) - ('0' as int))
  }

  /** Reading the digits back gives the number: `Digits` loses nothing. */
  lemma {:induction false} DigitsRoundTrip(n: nat)
    ensures DigitsValue(Digits(n)) == n
  {
    if n >= 10 {
      DigitsRoundTrip(n / 10);
      var s := Digits(n);
      assert s[..|s| - 1] == Digits(n / 10);
    }
  }

  /** `String(n)` for an integer-valued number: an optional minus sign, then the digits. */
  function NumberToString(n: JsInteger): (r: string)
    ensures |r| > 0
    ensures forall k :: 0 <= k < |r| ==> r[k] == '-' || '0' <= r[k] <= '9'
    ensures forall k :: 0 <= k < |r| && (k > 0 || n >= 0) ==> '0' <= r[k] <= '9'
    ensures r[0] == '-' <==> n < 0
    ensures n >= 0 ==> DigitsValue(r) == n && (r[0] != '0' || r == "0")
    ensures n < 0 ==> DigitsValue(r[1..]) == -n && r[1] != '0'
  {
    if n < 0 then
      DigitsRoundTrip(-n);
      var d := Digits(-n);
      assert ("-" + d)[1..] == d;
      "-" + d
    else
      DigitsRoundTrip(n);
      var d := Digits(n);
      assert |d| == 1 && d[0] == '0' ==> d == "0";
      d
  }

  /** How many times `c` occurs in `s`. */
  function Occurrences(s: string, c: char): nat
  {
    if s == [] then 0 else Occurrences(s[..|s| - 1], c) + (if s[|s| - 1] == c then 1 else 0)
  }

  lemma {:induction false} OccurrencesOfConcat(a: string, b: string, c: char)
    ensures Occurrences(a + b, c) == Occurrences(a, c) + Occurrences(b, c)
  {
    if b != [] {
      assert (a + b)[..|a + b| - 1] == a + b[..|b| - 1];
      OccurrencesOfConcat(a, b[..|b| - 1], c);
    } else {
      assert a + b == a;
    }
  }

  lemma {:induction false} OccurrencesOfAbsent(s: string, c: char)
    requires forall k :: 0 <= k < |s| ==> s[k] != c
    ensures Occurrences(s, c) == 0
  {
    if s != [] {
      OccurrencesOfAbsent(s[..|s| - 1], c);
    }
  }
}
