/** Decimal rendering of numbers as Java prints them (`Long.toString`,
    `String.valueOf`, `%d`, `%02d`, the fixed-width fields of
    `DateTimeFormatter`), the inverse parse, and the facts about them that
    the rate-limit keys and message ids rely on. */
module Text {
  import opened JavaLang

  predicate IsDigit(c: char) { '0' <= c <= '9' }

  predicate AllDigits(s: string) { forall i :: 0 <= i < |s| ==> IsDigit(s[i]) }

  function DigitChar(d: nat): (c: char)
    requires d < 10
    ensures IsDigit(c) && c as int - '0' as int == d
  {
    (d + '0' as int) as char
  }

  function DigitValue(c: char): (d: nat)
    requires IsDigit(c)
    ensures d < 10 && DigitChar(d) == c
  {
    c as int - '0' as int
  }

  function Pow10(n: nat): (p: nat)
    ensures p >= 1
  {
    if n == 0 then 1 else 10 * Pow10(n - 1)
  }

  /** The value of a string of decimal digits (the empty string reads as 0). */
  function ParseDigits(s: string): nat
    requires AllDigits(s)
  {
    if s == [] then 0 else 10 * ParseDigits(s[..|s| - 1]) + DigitValue(s[|s| - 1])
  }

  /** The `width` lowest decimal digits of `n`, zero-padded on the left:
      a fixed-width numeric field such as `yyyy` or `MM`. */
  function Pad(n: nat, width: nat): (s: string)
    ensures |s| == width && AllDigits(s)
  {
    if width == 0 then "" else Pad(n / 10, width - 1) + [DigitChar(n % 10)]
  }

  /** `Long.toString(n)` for a non-negative `n`: no leading zeros. */
  function NatToString(n: nat): (s: string)
    ensures 1 <= |s| && AllDigits(s)
  {
    if n < 10 then [DigitChar(n)] else NatToString(n / 10) + [DigitChar(n % 10)]
  }

  /** `Long.toString(x)`, which is also what `%d` prints. */
  function IntToString(x: int): (s: string)
    ensures 1 <= |s|
    ensures (s[0] == '-') == (x < 0)
    ensures s[0] == '-' || IsDigit(s[0])
  {
    if x < 0 then "-" + NatToString(-x) else NatToString(x)
  }

  /** `String.valueOf(Long)` or `%d` of a possibly-null `Long`. */
  function LongText(x: Option<int>): (s: string)
    ensures 1 <= |s| && (s[0] == 'n') == x.None?
  {
    match x
    case None => "null"
    case Some(v) => IntToString(v)
  }

  /** `%02d`: at least two characters, zero-padded when the value is a single digit. */
  function TwoDigits(x: int): (s: string)
    ensures 0 <= x < 100 ==> |s| == 2 && AllDigits(s) && ParseDigits(s) == x
  {
    if 0 <= x < 100 then
      assert Pow10(2) == 100;
      PadRoundTrip(x, 2);
      Pad(x, 2)
    else IntToString(x)
  }

  lemma {:induction false} PadRoundTrip(n: nat, width: nat)
    requires n < Pow10(width)
    ensures ParseDigits(Pad(n, width)) == n
  {
    if width > 0 {
      var s := Pad(n, width);
      PadRoundTrip(n / 10, width - 1);
      assert s[..|s| - 1] == Pad(n / 10, width - 1);
    }
  }

  /** Fixed-width fields keep distinct values apart. */
  lemma PadInjective(a: nat, b: nat, width: nat)
    requires a < Pow10(width) && b < Pow10(width)
    requires Pad(a, width) == Pad(b, width)
    ensures a == b
  {
    PadRoundTrip(a, width);
    PadRoundTrip(b, width);
  }

  lemma {:induction false} NatToStringRoundTrip(n: nat)
    ensures ParseDigits(NatToString(n)) == n
  {
    if n >= 10 {
      var s := NatToString(n);
      NatToStringRoundTrip(n / 10);
      assert s[..|s| - 1] == NatToString(n / 10);
    }
  }

  lemma NatToStringInjective(a: nat, b: nat)
    requires NatToString(a) == NatToString(b)
    ensures a == b
  {
    NatToStringRoundTrip(a);
    NatToStringRoundTrip(b);
  }

  /** Distinct longs print differently. */
  lemma IntToStringInjective(a: int, b: int)
    requires IntToString(a) == IntToString(b)
    ensures a == b
  {
    if a < 0 && b < 0 {
      var sa, sb := IntToString(a), IntToString(b);
      assert sa[1..] == NatToString(-a) && sb[1..] == NatToString(-b);
      NatToStringInjective(-a, -b);
    } else if a >= 0 && b >= 0 {
      NatToStringInjective(a, b);
    }
  }

  /** A printed long never contains a colon. */
  lemma IntToStringNoColon(x: int)
    ensures ':' !in IntToString(x)
  {
    var d := NatToString(if x < 0 then -x else x);
    assert forall i :: 0 <= i < |d| ==> d[i] != ':';
    assert x < 0 ==> forall i :: 0 < i < |IntToString(x)| ==> IntToString(x)[i] == d[i - 1];
  }

  /** `String.valueOf` of distinct nullable longs differs. */
  lemma LongTextInjective(a: Option<int>, b: Option<int>)
    requires LongText(a) == LongText(b)
    ensures a == b
  {
    if a.Some? && b.Some? {
      IntToStringInjective(a.value, b.value);
    }
  }

  lemma LongTextNoColon(x: Option<int>)
    ensures ':' !in LongText(x)
  {
    if x.Some? { IntToStringNoColon(x.value); }
  }

  /** Splitting at the first separator: if neither head contains `sep`, equal
      joins have equal heads and equal tails. */
  lemma SeparatorSplit(a: string, b: string, c: string, d: string, sep: char)
    requires sep !in a && sep !in c
    requires a + [sep] + b == c + [sep] + d
    ensures a == c && b == d
  {
    var l, r := a + [sep] + b, c + [sep] + d;
    SeparatorPosition(a, b, sep);
    SeparatorPosition(c, d, sep);
    assert |a| == |c|;
    assert a == l[..|a|] && c == r[..|c|];
    assert b == l[|a| + 1..] && d == r[|c| + 1..];
  }

  /** In `a + [sep] + b` with no `sep` in `a`, the first `sep` is at `|a|`. */
  lemma SeparatorPosition(a: string, b: string, sep: char)
    requires sep !in a
    ensures (a + [sep] + b)[|a|] == sep
    ensures forall i :: 0 <= i < |a| ==> (a + [sep] + b)[i] != sep
  {
    assert forall i :: 0 <= i < |a| ==> (a + [sep] + b)[i] == a[i];
  }

  /** `Character.toUpperCase` restricted to ASCII: the only letters a UUID's
      text contains. */
  function UpperAscii(c: char): char
  {
    if 'a' <= c <= 'z' then (c as int - 32) as char else c
  }

  function UpperCase(s: string): (r: string)
    ensures |r| == |s| && forall i :: 0 <= i < |s| ==> r[i] == UpperAscii(s[i])
  {
    seq(|s|, i requires 0 <= i < |s| => UpperAscii(s[i]))
  }
}
