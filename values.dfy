/**
 * The dynamically typed values a pipeline context holds, and the PHP 8
 * conversions the stages apply to them: string casts, integer numeric
 * strings, trim, loose comparison, and substring search.
 */
module Values {
  import opened Common

  /** A context value. Floats and string-keyed arrays are not modelled. */
  datatype Value =
    | Null
    | Bool(b: bool)
    | Int(i: int)
    | Str(s: string)
    | List(items: seq<Value>)

  /** A pipeline context: parameter name to value. */
  type Context = map<string, Value>

  /** PipelineContext::getParameter: an absent parameter reads as null. */
  function Lookup(ctx: Context, name: string): (v: Value)
    ensures name in ctx ==> v == ctx[name]
    ensures name !in ctx ==> v == Null
  {
    if name in ctx then ctx[name] else Null
  }

  // ---------------------------------------------------------------------
  // Decimal digits

  predicate IsDigit(c: char) { '0' <= c <= '9' }

  predicate AllDigits(s: string) { forall k :: 0 <= k < |s| ==> IsDigit(s[k]) }

  function DigitChar(d: nat): (c: char)
    requires d < 10
    ensures IsDigit(c)
  {
    ('0' as int + d) as char
  }

  function DigitValue(c: char): (d: nat)
    requires IsDigit(c)
    ensures d < 10 && DigitChar(d) == c
  {
    c as int - '0' as int
  }

  /** The value of a run of decimal digits (leading zeros allowed). */
  function DigitsValue(ds: string): nat
    requires AllDigits(ds)
  {
    if ds == [] then 0 else DigitsValue(ds[..|ds| - 1]) * 10 + DigitValue(ds[|ds| - 1])
  }

  /** The decimal form of a natural number, without leading zeros. */
  function NatToString(n: nat): (s: string)
    ensures |s| >= 1 && AllDigits(s)
    ensures s[0] == '0' ==> n == 0
  {
    if n < 10 then [DigitChar(n)] else NatToString(n / 10) + [DigitChar(n % 10)]
  }

  /** PHP's (string) cast of an integer. */
  function IntToString(i: int): (s: string)
    ensures |s| >= 1 && (s[0] == '-' || IsDigit(s[0])) && IsDigit(s[|s| - 1])
  {
    if i < 0 then "-" + NatToString(-i) else NatToString(i)
  }

  lemma {:induction false} NatToStringRoundTrip(n: nat)
    ensures DigitsValue(NatToString(n)) == n
  {
    if n >= 10 {
      var s := NatToString(n);
      assert s[..|s| - 1] == NatToString(n / 10);
      NatToStringRoundTrip(n / 10);
    }
  }

  // ---------------------------------------------------------------------
  // Stripping characters from both ends

  /** Drops every leading character that is in `cut`. */
  function StripLeft(s: string, cut: set<char>): (r: string)
    ensures |r| <= |s| && r == s[|s| - |r|..]
    ensures r == [] || r[0] !in cut
    ensures forall k :: 0 <= k < |s| - |r| ==> s[k] in cut
  {
    if s != [] && s[0] in cut then StripLeft(s[1..], cut) else s
  }

  /** Drops every trailing character that is in `cut`. */
  function StripRight(s: string, cut: set<char>): (r: string)
    ensures |r| <= |s| && r == s[..|r|]
    ensures r == [] || r[|r| - 1] !in cut
    ensures forall k :: |r| <= k < |s| ==> s[k] in cut
  {
    if s != [] && s[|s| - 1] in cut then StripRight(s[..|s| - 1], cut) else s
  }

  function Strip(s: string, cut: set<char>): string
  {
    StripRight(StripLeft(s, cut), cut)
  }

  /** The characters PHP's trim() removes by default. */
  const TrimChars: set<char> := {' ', '\t', '\n', '\r', '\0', '\U{000B}'}

  /** The whitespace PHP 8 allows around a numeric string. */
  const NumericSpace: set<char> := {' ', '\t', '\n', '\r', '\U{000B}', '\U{000C}'}

  /**
   * `r` is the infix of `s` starting at `a`, and every character cut off
   * on either side is in `cut`.
   */
  predicate StrippedAt(s: string, cut: set<char>, r: string, a: int)
  {
    && 0 <= a <= |s| - |r| && r == s[a..a + |r|]
    && (forall k :: 0 <= k < a ==> s[k] in cut)
    && (forall k :: a + |r| <= k < |s| ==> s[k] in cut)
  }

  /** Stripping both ends keeps an infix and cuts only characters of `cut`. */
  lemma {:induction false} StripIsInfix(s: string, cut: set<char>)
    ensures StrippedAt(s, cut, Strip(s, cut), |s| - |StripLeft(s, cut)|)
  {
    var l := StripLeft(s, cut);
    PrefixOfSuffix(s, cut, l, StripRight(l, cut));
  }

  /** A prefix `r` of a suffix `l` of `s`, each cutting only characters of `cut`, is stripped from `s`. */
  lemma {:induction false} PrefixOfSuffix(s: string, cut: set<char>, l: string, r: string)
    requires |l| <= |s| && l == s[|s| - |l|..] && forall k :: 0 <= k < |s| - |l| ==> s[k] in cut
    requires |r| <= |l| && r == l[..|r|] && forall k :: |r| <= k < |l| ==> l[k] in cut
    ensures StrippedAt(s, cut, r, |s| - |l|)
  {
    var a := |s| - |l|;
    assert r == s[a..a + |r|];
    forall k | a + |r| <= k < |s|
      ensures s[k] in cut
    {
      assert s[k] == l[k - a];
    }
  }

  /** PHP's trim() with its default character list. */
  function Trim(s: string): (r: string)
    ensures |r| <= |s|
    ensures r == [] || (r[0] !in TrimChars && r[|r| - 1] !in TrimChars)
    ensures (forall k :: 0 <= k < |s| ==> s[k] !in TrimChars) ==> r == s
    ensures exists a :: StrippedAt(s, TrimChars, r, a)
  {
    var l := StripLeft(s, TrimChars);
    assert (forall k :: 0 <= k < |s| ==> s[k] !in TrimChars) ==> l == s;
    StripIsInfix(s, TrimChars);
    StripRight(l, TrimChars)
  }

  // ---------------------------------------------------------------------
  // Integer numeric strings

  /**
   * The integer a PHP 8 numeric string denotes: optional surrounding
   * whitespace, an optional sign and at least one digit. Float forms
   * ("2.5", "2e3") are not modelled and read as non-numeric.
   */
  function ParseInt(s: string): Option<int>
  {
    ParseSignedDigits(Strip(s, NumericSpace))
  }

  /** An optional sign followed by at least one digit, and nothing else. */
  function ParseSignedDigits(t: string): Option<int>
  {
    if |t| > 0 && (t[0] == '-' || t[0] == '+') then
      var ds := t[1..];
      if |ds| > 0 && AllDigits(ds) then
        Some(if t[0] == '-' then -(DigitsValue(ds) as int) else DigitsValue(ds))
      else None
    else if |t| > 0 && AllDigits(t) then Some(DigitsValue(t))
    else None
  }

  predicate IsNumeric(s: string) { ParseInt(s).Some? }

  /** Stripping leaves alone a string whose two ends are kept. */
  lemma StripKeeps(s: string, cut: set<char>)
    requires s != [] && s[0] !in cut && s[|s| - 1] !in cut
    ensures Strip(s, cut) == s
  {
    assert StripLeft(s, cut) == s;
  }

  /** A string with no surrounding whitespace parses as its sign and digits. */
  lemma ParseUnpadded(t: string)
    requires t != [] && t[0] !in NumericSpace && t[|t| - 1] !in NumericSpace
    ensures ParseInt(t) == ParseSignedDigits(t)
  {
    StripKeeps(t, NumericSpace);
  }

  lemma ParseSignedNegative(t: string, n: string)
    requires |n| > 0 && AllDigits(n)
    requires |t| > 0 && t[0] == '-' && t[1..] == n
    ensures ParseSignedDigits(t) == Some(-(DigitsValue(n) as int))
  {
  }

  /** Parsing the decimal form of an integer gives the integer back. */
  lemma IntToStringRoundTrip(i: int)
    ensures ParseInt(IntToString(i)) == Some(i)
  {
    if i < 0 {
      NegativeRoundTrip(i);
    } else {
      NonNegativeRoundTrip(i);
    }
  }

  lemma NegativeRoundTrip(i: int)
    requires i < 0
    ensures ParseInt(IntToString(i)) == Some(i)
  {
    var m: nat := -i;
    var n := NatToString(m);
    var s := IntToString(i);
    assert s == "-" + n;
    assert s[0] == '-' && s[1..] == n;
    ParseUnpadded(s);
    ParseSignedNegative(s, n);
    NatToStringRoundTrip(m);
  }

  lemma NonNegativeRoundTrip(i: int)
    requires i >= 0
    ensures ParseInt(IntToString(i)) == Some(i)
  {
    var s := IntToString(i);
    ParseUnpadded(s);
    assert !(s[0] == '-' || s[0] == '+');
    NatToStringRoundTrip(i);
  }

  /** A string that starts and ends with a lower-case letter is not numeric. */
  lemma LetterEndsNotNumeric(t: string)
    requires |t| > 0 && 'a' <= t[0] <= 'z' && 'a' <= t[|t| - 1] <= 'z'
    ensures !IsNumeric(t)
  {
    ParseUnpadded(t);
    assert !IsDigit(t[0]);
  }

  // ---------------------------------------------------------------------
  // Casts

  /** PHP's (string) cast. An array casts to "Array" (with a warning). */
  function Stringify(v: Value): string
  {
    match v
    case Null => ""
    case Bool(b) => if b then "1" else ""
    case Int(i) => IntToString(i)
    case Str(s) => s
    case List(_) => "Array"
  }

  /** PHP's (bool) cast. */
  function ToBool(v: Value): bool
  {
    match v
    case Null => false
    case Bool(b) => b
    case Int(i) => i != 0
    case Str(s) => s != "" && s != "0"
    case List(xs) => xs != []
  }

  /**
   * A value passed to a string parameter of a PHP built-in (str_contains,
   * stripos): arrays raise a TypeError, everything else is cast.
   */
  function TextArgument(v: Value, what: string): (r: Result<string>)
    ensures r.Err? <==> v.List?
    ensures r.Ok? ==> r.value == Stringify(v)
  {
    if v.List? then Err(TypeError(what)) else Ok(Stringify(v))
  }

  // ---------------------------------------------------------------------
  // Loose comparison (PHP 8 `<=>`, `==`, `<`, ...)

  function CompareInt(x: int, y: int): (r: int)
    ensures r == 0 <==> x == y
    ensures r < 0 <==> x < y
    ensures r > 0 <==> x > y
  {
    if x < y then -1 else if x > y then 1 else 0
  }

  function CompareBool(x: bool, y: bool): int
  {
    if x == y then 0 else if !x then -1 else 1
  }

  /** strcmp, normalised to -1, 0 or 1: lexicographic on characters. */
  function StrCompare(s: string, t: string): (r: int)
    ensures -1 <= r <= 1
  {
    if s == [] && t == [] then 0
    else if s == [] then -1
    else if t == [] then 1
    else if s[0] < t[0] then -1
    else if s[0] > t[0] then 1
    else StrCompare(s[1..], t[1..])
  }

  /**
   * PHP 8 loose comparison on the modelled values: bool or null against
   * anything compares as booleans (null against a string compares "" with
   * it), arrays compare by size and then element by element and are greater
   * than any scalar, numeric strings compare numerically with integers and
   * with each other, other strings compare lexicographically.
   */
  function Compare(a: Value, b: Value): (r: int)
    ensures -1 <= r <= 1
    decreases a
  {
    match (a, b)
    case (Null, Null) => 0
    case (Bool(x), _) => CompareBool(x, ToBool(b))
    case (_, Bool(y)) => CompareBool(ToBool(a), y)
    case (Null, Str(t)) => StrCompare("", t)
    case (Str(s), Null) => StrCompare(s, "")
    case (Null, _) => CompareBool(false, ToBool(b))
    case (_, Null) => CompareBool(ToBool(a), false)
    case (List(xs), List(ys)) =>
      if |xs| < |ys| then -1 else if |xs| > |ys| then 1 else CompareItems(xs, ys)
    case (List(_), _) => 1
    case (_, List(_)) => -1
    case (Int(x), Int(y)) => CompareInt(x, y)
    case (Int(x), Str(t)) =>
      if IsNumeric(t) then CompareInt(x, ParseInt(t).value) else StrCompare(IntToString(x), t)
    case (Str(s), Int(y)) =>
      if IsNumeric(s) then CompareInt(ParseInt(s).value, y) else StrCompare(s, IntToString(y))
    case (Str(s), Str(t)) =>
      if IsNumeric(s) && IsNumeric(t) then CompareInt(ParseInt(s).value, ParseInt(t).value)
      else StrCompare(s, t)
  }

  /** Element-by-element comparison of two lists of the same length. */
  function CompareItems(xs: seq<Value>, ys: seq<Value>): (r: int)
    requires |xs| == |ys|
    ensures -1 <= r <= 1
    decreases xs
  {
    if xs == [] then 0
    else
      var c := Compare(xs[0], ys[0]);
      if c != 0 then c else CompareItems(xs[1..], ys[1..])
  }

  /** PHP 8 loose equality `==`. */
  predicate LooseEqual(a: Value, b: Value) { Compare(a, b) == 0 }

  lemma {:induction false} StrCompareAntisymmetric(s: string, t: string)
    ensures StrCompare(s, t) == -StrCompare(t, s)
  {
    if s != [] && t != [] && s[0] == t[0] {
      StrCompareAntisymmetric(s[1..], t[1..]);
    }
  }

  lemma {:induction false} StrCompareZero(s: string, t: string)
    ensures StrCompare(s, t) == 0 <==> s == t
  {
    if s != [] && t != [] && s[0] == t[0] {
      StrCompareZero(s[1..], t[1..]);
      assert s == [s[0]] + s[1..] && t == [t[0]] + t[1..];
    }
  }

  /** Two strings, one of them not numeric, are loosely equal exactly when they are the same. */
  lemma NonNumericStringEquality(s: string, t: string)
    requires !IsNumeric(t)
    ensures LooseEqual(Str(s), Str(t)) <==> s == t
  {
    assert Compare(Str(s), Str(t)) == StrCompare(s, t);
    StrCompareZero(s, t);
  }

  /** Swapping the operands of a loose comparison negates its result. */
  lemma {:induction false} CompareAntisymmetric(a: Value, b: Value)
    ensures Compare(a, b) == -Compare(b, a)
    decreases a
  {
    if a.Null? || a.Bool? || b.Null? || b.Bool? {
      CastCompareAntisymmetric(a, b);
    } else if a.List? && b.List? {
      if |a.items| == |b.items| { CompareItemsAntisymmetric(a.items, b.items); }
    } else if !a.List? && !b.List? {
      ScalarCompareAntisymmetric(a, b);
    }
  }

  /** The comparisons of two integers or strings. */
  lemma ScalarCompareAntisymmetric(a: Value, b: Value)
    requires (a.Int? || a.Str?) && (b.Int? || b.Str?)
    ensures Compare(a, b) == -Compare(b, a)
  {
    match (a, b)
    case (Int(x), Str(t)) => IntStrCompareAntisymmetric(x, t);
    case (Str(s), Int(y)) => IntStrCompareAntisymmetric(y, s);
    case (Str(s), Str(t)) => StrStrCompareAntisymmetric(s, t);
    case _ =>
  }

  lemma IntStrCompareAntisymmetric(x: int, t: string)
    ensures Compare(Int(x), Str(t)) == -Compare(Str(t), Int(x))
  {
    if !IsNumeric(t) {
      StrCompareAntisymmetric(IntToString(x), t);
    }
  }

  lemma StrStrCompareAntisymmetric(s: string, t: string)
    ensures Compare(Str(s), Str(t)) == -Compare(Str(t), Str(s))
  {
    if !(IsNumeric(s) && IsNumeric(t)) {
      StrCompareAntisymmetric(s, t);
    }
  }

  /** The comparisons where a null or a boolean operand decides how both are read. */
  lemma CastCompareAntisymmetric(a: Value, b: Value)
    requires a.Null? || a.Bool? || b.Null? || b.Bool?
    ensures Compare(a, b) == -Compare(b, a)
  {
    match (a, b)
    case (Null, Str(t)) => StrCompareAntisymmetric("", t);
    case (Str(s), Null) => StrCompareAntisymmetric(s, "");
    case _ =>
  }

  lemma {:induction false} CompareItemsAntisymmetric(xs: seq<Value>, ys: seq<Value>)
    requires |xs| == |ys|
    ensures CompareItems(xs, ys) == -CompareItems(ys, xs)
    decreases xs
  {
    if xs != [] {
      CompareAntisymmetric(xs[0], ys[0]);
      CompareItemsAntisymmetric(xs[1..], ys[1..]);
    }
  }

  /** Every value is loosely equal to itself. */
  lemma {:induction false} CompareReflexive(a: Value)
    ensures Compare(a, a) == 0
    decreases a
  {
    match a
    case Str(s) => StrCompareZero(s, s);
    case List(xs) => CompareItemsReflexive(xs);
    case _ =>
  }

  lemma {:induction false} CompareItemsReflexive(xs: seq<Value>)
    ensures CompareItems(xs, xs) == 0
    decreases xs
  {
    if xs != [] {
      CompareReflexive(xs[0]);
      CompareItemsReflexive(xs[1..]);
    }
  }

  /** A decimal string compares with an integer exactly as its value does. */
  lemma NumericStringComparesAsInteger(x: int, y: int)
    ensures Compare(Str(IntToString(x)), Int(y)) == CompareInt(x, y)
    ensures Compare(Int(y), Str(IntToString(x))) == CompareInt(y, x)
  {
    IntToStringRoundTrip(x);
  }

  // ---------------------------------------------------------------------
  // Substring search (str_contains, stripos)

  predicate IsPrefix(p: string, s: string) { |p| <= |s| && s[..|p|] == p }

  /** True when `needle` occurs in `haystack`; the empty needle always occurs. */
  predicate ContainsText(haystack: string, needle: string)
    decreases |haystack|
  {
    IsPrefix(needle, haystack) || (|haystack| > 0 && ContainsText(haystack[1..], needle))
  }

  /** `needle` sits in `haystack` at position `i`. */
  predicate OccursAt(haystack: string, needle: string, i: int)
  {
    0 <= i <= |haystack| - |needle| && haystack[i..i + |needle|] == needle
  }

  /** ContainsText holds exactly when the needle sits at some position. */
  lemma {:induction false} ContainsTextAt(haystack: string, needle: string)
    ensures ContainsText(haystack, needle) <==> exists i :: OccursAt(haystack, needle, i)
    decreases |haystack|
  {
    var h := haystack;
    if IsPrefix(needle, h) {
      assert OccursAt(h, needle, 0);
    } else if |h| > 0 {
      ContainsTextAt(h[1..], needle);
      if ContainsText(h[1..], needle) {
        var i :| OccursAt(h[1..], needle, i);
        assert h[1..][i..i + |needle|] == h[i + 1..i + 1 + |needle|];
        assert OccursAt(h, needle, i + 1);
      }
      if exists i :: OccursAt(h, needle, i) {
        var i :| OccursAt(h, needle, i);
        assert i != 0;
        assert h[1..][i - 1..i - 1 + |needle|] == h[i..i + |needle|];
        assert OccursAt(h[1..], needle, i - 1);
      }
    } else {
      assert forall i :: !OccursAt(h, needle, i);
    }
  }

  function LowerChar(c: char): char
  {
    if 'A' <= c <= 'Z' then (c as int + 32) as char else c
  }

  /** ASCII lower-casing, as stripos applies to both operands. */
  function Lower(s: string): (r: string)
    ensures |r| == |s| && forall k :: 0 <= k < |s| ==> r[k] == LowerChar(s[k])
  {
    seq(|s|, k requires 0 <= k < |s| => LowerChar(s[k]))
  }

  /**
   * Lower-casing changes exactly the ASCII capitals, each to its small
   * letter, and leaves no capital behind.
   */
  lemma LowerChangesOnlyCapitals(s: string)
    ensures forall k :: 0 <= k < |s| ==> (Lower(s)[k] != s[k] <==> 'A' <= s[k] <= 'Z')
    ensures forall k :: 0 <= k < |s| && 'A' <= s[k] <= 'Z' ==> Lower(s)[k] as int == s[k] as int + 32
    ensures forall k :: 0 <= k < |s| ==> !('A' <= Lower(s)[k] <= 'Z')
  {
  }

  /** Lower-casing twice is lower-casing once. */
  lemma LowerIdempotent(s: string)
    ensures Lower(Lower(s)) == Lower(s)
  {
    LowerChangesOnlyCapitals(Lower(s));
  }
}
