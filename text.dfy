/** The Kotlin string functions the screens rely on: `isBlank`, `trim`, `Char.isDigit`,
    `Int.toString`, `String.toIntOrNull` and `joinToString`. */
module Text {
  import opened Numeric
  import opened Wrappers

  /** Kotlin `Char.isWhitespace()` on the JVM: `Character.isWhitespace(c) ||
      Character.isSpaceChar(c)`, i.e. the ASCII controls TAB..CR and FS..US, and the
      Unicode space, line and paragraph separators (including the no-break ones). */
  predicate IsWhitespace(c: char)
  {
    var n := c as int;
    || 0x09 <= n <= 0x0D
    || 0x1C <= n <= 0x20
    || n == 0xA0
    || n == 0x1680
    || 0x2000 <= n <= 0x200A
    || n == 0x2028 || n == 0x2029
    || n == 0x202F || n == 0x205F
    || n == 0x3000
  }

  /** Kotlin `CharSequence.isBlank()`: empty or whitespace only. */
  predicate IsBlank(s: string)
  {
    forall i :: 0 <= i < |s| ==> IsWhitespace(s[i])
  }

  /** The first index at or after `i` that does not hold whitespace (`|s|` when
      there is none): the forward scan of `trim()`. */
  function SkipWhitespace(s: string, i: nat): (k: nat)
    requires i <= |s|
    ensures i <= k <= |s|
    ensures forall j :: i <= j < k ==> IsWhitespace(s[j])
    ensures k < |s| ==> !IsWhitespace(s[k])
    decreases |s| - i
  {
    if i == |s| || !IsWhitespace(s[i]) then i else SkipWhitespace(s, i + 1)
  }

  /** The backward scan of `trim()`: from the end `j`, steps back over whitespace,
      never past `lo`. */
  function SkipWhitespaceBack(s: string, lo: nat, j: nat): (k: nat)
    requires lo <= j <= |s|
    ensures lo <= k <= j
    ensures forall m :: k <= m < j ==> IsWhitespace(s[m])
    ensures k > lo ==> !IsWhitespace(s[k - 1])
  {
    if j == lo || !IsWhitespace(s[j - 1]) then j else SkipWhitespaceBack(s, lo, j - 1)
  }

  /** Kotlin `String.trim()`: the part between the first and the last character that
      is not whitespace. */
  function Trim(s: string): (r: string)
    ensures |r| <= |s|
  {
    var start := SkipWhitespace(s, 0);
    s[start..SkipWhitespaceBack(s, start, |s|)]
  }

  /** `trim()` removes only whitespace, and leaves none at either end: it keeps the
      part of `s` between a whitespace-only prefix and a whitespace-only suffix, and
      that part is empty or starts and ends with a character that is not whitespace. */
  lemma TrimSpec(s: string)
    ensures exists a, b ::
      && 0 <= a <= b <= |s| && Trim(s) == s[a..b]
      && (forall i :: 0 <= i < a ==> IsWhitespace(s[i]))
      && (forall i :: b <= i < |s| ==> IsWhitespace(s[i]))
      && (a < b ==> !IsWhitespace(s[a]) && !IsWhitespace(s[b - 1]))
  {
    var a := SkipWhitespace(s, 0);
    var b := SkipWhitespaceBack(s, a, |s|);
    assert forall i :: b <= i < |s| ==> IsWhitespace(s[i]);
    assert Trim(s) == s[a..b];
  }

  /** The first and last characters of a trimmed string are not whitespace. */
  lemma TrimLeavesNoEdgeWhitespace(s: string)
    ensures var r := Trim(s);
      r == [] || (!IsWhitespace(r[0]) && !IsWhitespace(r[|r| - 1]))
  {
    var a := SkipWhitespace(s, 0);
    var b := SkipWhitespaceBack(s, a, |s|);
    if a < b {
      assert Trim(s)[0] == s[a] && Trim(s)[b - a - 1] == s[b - 1];
    }
  }

  /** A string is blank exactly when trimming it leaves nothing. */
  lemma BlankIffTrimEmpty(s: string)
    ensures IsBlank(s) <==> Trim(s) == ""
  {
    var a := SkipWhitespace(s, 0);
    var b := SkipWhitespaceBack(s, a, |s|);
    if IsBlank(s) {
      assert a == |s|;
    }
    if Trim(s) == "" {
      assert a == b;
    }
  }

  /** Trimming twice is trimming once. */
  lemma TrimIdempotent(s: string)
    ensures Trim(Trim(s)) == Trim(s)
  {
    var r := Trim(s);
    TrimLeavesNoEdgeWhitespace(s);
    if r != [] {
      assert SkipWhitespace(r, 0) == 0;
      assert SkipWhitespaceBack(r, 0, |r|) == |r|;
    }
  }

  /** Kotlin `Char.isDigit()`, restricted to the ASCII digits. */
  predicate IsDigit(c: char)
  {
    '0' <= c <= '9'
  }

  /** The text-field filter `it.all { char -> char.isDigit() }`. */
  predicate AllDigits(s: string)
  {
    forall i :: 0 <= i < |s| ==> IsDigit(s[i])
  }

  /** The number a string of decimal digits denotes (0 for the empty string). */
  function DigitsValue(s: string): nat
    requires AllDigits(s)
  {
    if s == [] then 0
    else DigitsValue(s[..|s| - 1]) * 10 + (s[|s| - 1] as int - '0' as int)
  }

  /** Kotlin `String.toIntOrNull()`: an optional `+` or `-` followed by at least one
      digit, and the value must fit in an `Int`; anything else gives null. */
  function ParseInt(s: string): (r: Option<Int32>)
    ensures r.Some? ==> s != []
    ensures s != [] && AllDigits(s) ==> (r.Some? <==> DigitsValue(s) <= MaxInt)
    ensures r.Some? && AllDigits(s) ==> r.value == DigitsValue(s)
  {
    if s == [] then None
    else if s[0] == '-' || s[0] == '+' then
      if |s| == 1 || !AllDigits(s[1..]) then None
      else
        var v: int := DigitsValue(s[1..]);
        var n := if s[0] == '-' then -v else v;
        if MinInt <= n <= MaxInt then Some(n) else None
    else if AllDigits(s) then
      var v := DigitsValue(s);
      if v <= MaxInt then Some(v) else None
    else None
  }

  function DigitChar(d: int): (c: char)
    requires 0 <= d < 10
    ensures IsDigit(c) && c as int - '0' as int == d
  {
    (d + '0' as int) as char
  }

  /** The decimal digits of a natural number, without leading zeros. */
  function FormatNat(n: nat): (s: string)
    ensures s != [] && AllDigits(s)
  {
    if n < 10 then [DigitChar(n)] else FormatNat(n / 10) + [DigitChar(n % 10)]
  }

  /** Kotlin `Int.toString()`. */
  function FormatInt(n: int): (s: string)
    ensures s != []
    ensures n >= 0 <==> AllDigits(s)
    ensures n < 0 ==> s[0] == '-'
  {
    if n < 0 then
      var s := "-" + FormatNat(-n);
      assert !IsDigit(s[0]);
      s
    else FormatNat(n)
  }

  lemma {:induction false} DigitsValueOfFormatNat(n: nat)
    ensures DigitsValue(FormatNat(n)) == n
  {
    if n >= 10 {
      var s := FormatNat(n);
      assert s[..|s| - 1] == FormatNat(n / 10);
      DigitsValueOfFormatNat(n / 10);
  }
  }

  /** `toIntOrNull` reads back every value `toString` writes: the round trip behind
      an edit field that is initialised from a number and parsed again on save. */
  lemma ParseFormatRoundTrip(n: Int32)
    ensures ParseInt(FormatInt(n)) == Some(n)
  {
    var s, m := FormatInt(n), n as int;
    if m < 0 {
      assert s[0] == '-' && s[1..] == FormatNat(-m);
      DigitsValueOfFormatNat(-m);
      assert DigitsValue(s[1..]) == -m;
    } else {
      assert s == FormatNat(n);
      assert IsDigit(s[0]);
      DigitsValueOfFormatNat(n);
      assert DigitsValue(s) == n;
  }
  }

  /** `toString` is injective: distinct numbers are printed differently. */
  lemma FormatIntInjective(a: Int32, b: Int32)
    requires FormatInt(a) == FormatInt(b)
    ensures a == b
  {
    ParseFormatRoundTrip(a);
    ParseFormatRoundTrip(b);
  }

  /** Kotlin `List<String>.joinToString(separator)`. */
  function JoinToString(items: seq<string>, separator: string): (r: string)
    ensures items == [] ==> r == ""
    ensures |items| == 1 ==> r == items[0]
    ensures |items| == 2 ==> r == items[0] + separator + items[1]
  {
    if items == [] then ""
    else if |items| == 1 then items[0]
    else items[0] + separator + JoinToString(items[1..], separator)
  }

  /** One more item is joined on after one more separator, so a separator stands
      between every two consecutive items and nowhere else. */
  lemma {:induction false} JoinToStringAppend(items: seq<string>, x: string, separator: string)
    requires items != []
    ensures JoinToString(items + [x], separator) == JoinToString(items, separator) + separator + x
  {
    if |items| > 1 {
      assert (items + [x])[1..] == items[1..] + [x];
      JoinToStringAppend(items[1..], x, separator);
    }
  }
}
