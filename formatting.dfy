/** The two pieces of Python string formatting the patch-file translator relies on:
    `"{}".format(n)` for an integer `n` (its decimal form, with a leading `-`
    when negative) and `sep.join(parts)`. */
module Formatting {

  const Digits: string := "0123456789"

  predicate IsDigit(c: char) {
    '0' <= c <= '9'
  }

  function DigitChar(d: int): (c: char)
    requires 0 <= d < 10
    ensures IsDigit(c) && c as int - '0' as int == d
  {
    Digits[d]
  }

  /** The decimal digits of `n`, most significant first, without leading zeros. */
  function NatToDecimal(n: nat): (s: string)
    ensures |s| > 0
    ensures forall k :: 0 <= k < |s| ==> IsDigit(s[k])
    ensures |s| > 1 ==> s[0] != '0'
    decreases n
  {
    if n < 10 then [DigitChar(n)] else NatToDecimal(n / 10) + [DigitChar(n % 10)]
  }

  /** `"{}".format(n)` for an integer `n`. */
  function IntToDecimal(n: int): (s: string)
    ensures |s| > 0
    ensures (s[0] == '-') <==> n < 0
  {
    if n < 0 then "-" + NatToDecimal(-n) else NatToDecimal(n)
  }

  /** Reads a string of decimal digits back into the number it denotes. */
  function DecimalToNat(s: string): nat
    requires forall k :: 0 <= k < |s| ==> IsDigit(s[k])
  {
    if |s| == 0 then 0
    else
      assert IsDigit(s[|s| - 1]);
      DecimalToNat(s[..|s| - 1]) * 10 + (s[|s| - 1] as int - '0' as int)
  }

  /** The inverse of `IntToDecimal`: an optional `-` followed by digits. */
  function DecimalToInt(s: string): int
    requires |s| > 0
    requires s[0] == '-' ==> forall k :: 1 <= k < |s| ==> IsDigit(s[k])
    requires s[0] != '-' ==> forall k :: 0 <= k < |s| ==> IsDigit(s[k])
  {
    if s[0] == '-' then 0 - DecimalToNat(s[1..]) as int else DecimalToNat(s)
  }

  lemma {:induction false} NatToDecimalRoundTrip(n: nat)
    ensures DecimalToNat(NatToDecimal(n)) == n
    decreases n
  {
    if n >= 10 {
      var s := NatToDecimal(n);
      assert s[..|s| - 1] == NatToDecimal(n / 10);
      NatToDecimalRoundTrip(n / 10);
    }
  }

  /** Formatting an integer loses nothing: the text reads back as the same
      number, so two different quantities never print alike. */
  lemma IntToDecimalRoundTrip(n: int)
    ensures DecimalToInt(IntToDecimal(n)) == n
  {
    var s := IntToDecimal(n);
    if n < 0 {
      var digits := NatToDecimal(-n);
      assert s[1..] == digits;
      assert forall k :: 1 <= k < |s| ==> s[k] == digits[k - 1];
      NatToDecimalRoundTrip(-n);
    } else {
      assert s == NatToDecimal(n);
      NatToDecimalRoundTrip(n);
    }
  }

  lemma IntToDecimalInjective(m: int, n: int)
    requires IntToDecimal(m) == IntToDecimal(n)
    ensures m == n
  {
    IntToDecimalRoundTrip(m);
    IntToDecimalRoundTrip(n);
  }

  /** `sep.join(parts)`: the parts in order, with `sep` between neighbours. */
  function Join(sep: string, parts: seq<string>): string
  {
    if |parts| == 0 then ""
    else if |parts| == 1 then parts[0]
    else Join(sep, parts[..|parts| - 1]) + sep + parts[|parts| - 1]
  }

  function TotalLength(parts: seq<string>): nat
  {
    if |parts| == 0 then 0 else TotalLength(parts[..|parts| - 1]) + |parts[|parts| - 1]|
  }

  /** The joined text is as long as all the parts together plus one
      separator between each pair of neighbours. */
  lemma {:induction false} JoinLength(sep: string, parts: seq<string>)
    requires |parts| > 0
    ensures |Join(sep, parts)| == TotalLength(parts) + (|parts| - 1) * |sep|
  {
    if |parts| > 1 {
      JoinLength(sep, parts[..|parts| - 1]);
      assert TotalLength(parts[..|parts| - 1][..|parts| - 2]) == TotalLength(parts[..|parts| - 2]) by {
        assert parts[..|parts| - 1][..|parts| - 2] == parts[..|parts| - 2];
      }
    } else {
      assert parts[..0] == [];
    }
  }

  /** Read from the front, the joined text is the first part, then (when
      there are more parts) the separator and the join of the rest; so it
      starts with the first part. */
  lemma {:induction false} JoinFront(sep: string, parts: seq<string>)
    requires |parts| > 0
    ensures parts[0] <= Join(sep, parts)
    ensures |parts| > 1 ==> Join(sep, parts) == parts[0] + sep + Join(sep, parts[1..])
  {
    var n := |parts|;
    if n == 2 {
      assert parts[..1] == [parts[0]];
      assert parts[1..] == [parts[1]];
    } else if n > 2 {
      var init := parts[..n - 1];
      var rest := parts[1..];
      JoinFront(sep, init);
      assert init[0] == parts[0];
      assert init[1..] == rest[..|rest| - 1];
      assert rest[|rest| - 1] == parts[n - 1];
      calc {
        Join(sep, parts);
        Join(sep, init) + sep + parts[n - 1];
        parts[0] + sep + Join(sep, init[1..]) + sep + parts[n - 1];
        parts[0] + sep + (Join(sep, rest[..|rest| - 1]) + sep + rest[|rest| - 1]);
        parts[0] + sep + Join(sep, rest);
      }
    }
  }
}
