/** Text helpers used by the client's error messages: decimal rendering of
    integers (what `%v` and `strconv.FormatInt` print) and `strings.Join`. */
module Text {

  function DigitChar(d: nat): (c: char)
    requires d < 10
    ensures '0' <= c <= '9'
  {
    ('0' as int + d) as char
  }

  function DigitValue(c: char): (d: nat)
    requires '0' <= c <= '9'
    ensures d < 10 && DigitChar(d) == c
  {
    c as int - '0' as int
  }

  predicate IsDigits(s: string) {
    forall i :: 0 <= i < |s| ==> '0' <= s[i] <= '9'
  }

  /** Base-10 digits of `n`, most significant first, without leading zeros. */
  function NatToDecimal(n: nat): (s: string)
    ensures |s| >= 1 && IsDigits(s)
    ensures s[0] == '0' ==> n == 0
    decreases n
  {
    if n < 10 then [DigitChar(n)] else NatToDecimal(n / 10) + [DigitChar(n % 10)]
  }

  /** Value of a string of decimal digits (an independent reading of NatToDecimal's output). */
  function DecimalValue(s: string): nat
    requires IsDigits(s)
  {
    if |s| == 0 then 0 else DecimalValue(s[..|s| - 1]) * 10 + DigitValue(s[|s| - 1])
  }

  /** Decimal text of a (possibly negative) integer, as Go's `%v` prints an int. */
  function IntToDecimal(x: int): (s: string)
    ensures |s| >= 1
    ensures s[0] == '-' <==> x < 0
  {
    if x < 0 then "-" + NatToDecimal(-x) else NatToDecimal(x)
  }

  /** Reads back a decimal integer; defined on the shapes IntToDecimal produces. */
  function ParseDecimal(s: string): int {
    if |s| > 0 && s[0] == '-' && IsDigits(s[1..]) then -(DecimalValue(s[1..]) as int)
    else if IsDigits(s) then DecimalValue(s)
    else 0
  }

  lemma {:induction false} NatDecimalRoundTrip(n: nat)
    ensures DecimalValue(NatToDecimal(n)) == n
    decreases n
  {
    if n >= 10 {
      var s := NatToDecimal(n / 10);
      var t := NatToDecimal(n);
      assert t == s + [DigitChar(n % 10)];
      assert t[..|t| - 1] == s;
      NatDecimalRoundTrip(n / 10);
    }
  }

  /** Decimal rendering loses nothing: the integer can be read back. */
  lemma IntDecimalRoundTrip(x: int)
    ensures ParseDecimal(IntToDecimal(x)) == x
  {
    if x < 0 {
      var s := IntToDecimal(x);
      assert s[1..] == NatToDecimal(-x);
      NatDecimalRoundTrip(-x);
    } else {
      NatDecimalRoundTrip(x);
    }
  }

  /** Distinct integers (status codes, error ids) never print alike. */
  lemma IntToDecimalInjective(x: int, y: int)
    requires IntToDecimal(x) == IntToDecimal(y)
    ensures x == y
  {
    IntDecimalRoundTrip(x);
    IntDecimalRoundTrip(y);
  }

  /** `strings.Join`: the parts in order, with `sep` between neighbours. */
  function Join(parts: seq<string>, sep: string): string
    decreases |parts|
  {
    if |parts| == 0 then ""
    else if |parts| == 1 then parts[0]
    else parts[0] + sep + Join(parts[1..], sep)
  }

  /** Joining two non-empty lists of parts is joining each and separating the halves. */
  lemma {:induction false} JoinAppend(a: seq<string>, b: seq<string>, sep: string)
    requires |a| > 0 && |b| > 0
    ensures Join(a + b, sep) == Join(a, sep) + sep + Join(b, sep)
    decreases |a|
  {
    if |a| == 1 {
      assert (a + b)[1..] == b;
    } else {
      assert (a + b)[1..] == a[1..] + b;
      JoinAppend(a[1..], b, sep);
    }
  }
}
