/** Value types and text helpers shared by the handlers of the media server. */
module Base {

  datatype Option<+T> = None | Some(value: T)

  /** Go's strings.HasPrefix: `s` starts with `prefix`, character by character. */
  predicate HasPrefix(s: string, prefix: string): (b: bool)
    ensures b <==> |prefix| <= |s| && forall i :: 0 <= i < |prefix| ==> s[i] == prefix[i]
  {
    |prefix| <= |s| && s[..|prefix|] == prefix
  }

  predicate IsDigit(c: char) {
    '0' <= c <= '9'
  }

  predicate AllDigits(s: string) {
    forall i :: 0 <= i < |s| ==> IsDigit(s[i])
  }

  /** The shape Go gives an `int` in decimal: digits, after an optional minus sign. */
  predicate IsDecimal(s: string) {
    || (|s| >= 1 && AllDigits(s))
    || (|s| >= 2 && s[0] == '-' && AllDigits(s[1..]))
  }

  function DigitChar(d: nat): (c: char)
    requires d < 10
    ensures IsDigit(c) && c as int - '0' as int == d
  {
    ('0' as int + d) as char
  }

  /** The decimal digits of `n`, most significant first. */
  function NatToDecimal(n: nat): (s: string)
    ensures |s| >= 1 && AllDigits(s)
  {
    if n < 10 then [DigitChar(n)] else NatToDecimal(n / 10) + [DigitChar(n % 10)]
  }

  /** Go's `strconv.Itoa`, which is also what the `%d` verb of `fmt` prints for an `int`. */
  function Itoa(n: int): (s: string)
    ensures IsDecimal(s)
    ensures ' ' !in s && '/' !in s
  {
    if n < 0 then "-" + NatToDecimal(-n) else NatToDecimal(n)
  }

  /** The value of a string of decimal digits, read most significant digit first. */
  function DecimalValue(s: string): nat
    requires AllDigits(s)
  {
    if s == [] then 0 else DecimalValue(s[..|s| - 1]) * 10 + (s[|s| - 1] as int - '0' as int)
  }

  /** Reads back what `Itoa` writes (a left inverse: it also accepts leading zeros). */
  function ParseInt(s: string): int
    requires IsDecimal(s)
  {
    if s[0] == '-' then -(DecimalValue(s[1..]) as int) else DecimalValue(s)
  }

  lemma {:induction false} DecimalValueOfDigits(n: nat)
    ensures DecimalValue(NatToDecimal(n)) == n
  {
    if n >= 10 {
      var s := NatToDecimal(n);
      assert s[..|s| - 1] == NatToDecimal(n / 10);
      DecimalValueOfDigits(n / 10);
    }
  }

  /** Formatting an integer and reading it back gives the integer. */
  lemma ItoaRoundTrip(n: int)
    ensures ParseInt(Itoa(n)) == n
  {
    if n < 0 {
      assert Itoa(n)[1..] == NatToDecimal(-n);
      DecimalValueOfDigits(-n);
    } else {
      DecimalValueOfDigits(n);
    }
  }

  /** Distinct integers are printed as distinct strings. */
  lemma ItoaInjective(a: int, b: int)
    ensures Itoa(a) == Itoa(b) ==> a == b
  {
    ItoaRoundTrip(a);
    ItoaRoundTrip(b);
  }

  /** In `u + [sep] + x` with `sep` not in `u`, the first `sep` stands right after `u`. */
  lemma FirstSeparator(u: string, x: string, sep: char)
    requires sep !in u
    ensures (u + [sep] + x)[|u|] == sep
    ensures forall i :: 0 <= i < |u| ==> (u + [sep] + x)[i] != sep
  {
  }

  /** A string split at the first occurrence of a separator that the head does not contain
      determines both the head and the tail. */
  lemma SplitAtSeparator(u: string, x: string, v: string, y: string, sep: char)
    requires sep !in u && sep !in v
    requires u + [sep] + x == v + [sep] + y
    ensures u == v && x == y
  {
    var s := u + [sep] + x;
    FirstSeparator(u, x, sep);
    FirstSeparator(v, y, sep);
    assert |u| == |v|;
    assert u == s[..|u|];
    assert v == s[..|v|];
    assert x == s[|u| + 1..];
    assert y == s[|v| + 1..];
  }

  /** Equal strings with a common prefix agree after it. */
  lemma DropCommonPrefix(p: string, x: string, y: string)
    requires p + x == p + y
    ensures x == y
  {
    assert x == (p + x)[|p|..];
    assert y == (p + y)[|p|..];
  }

  /** Equal strings with a common suffix agree before it. */
  lemma DropCommonSuffix(x: string, y: string, q: string)
    requires x + q == y + q
    ensures x == y
  {
    assert x == (x + q)[..|x|];
    assert y == (y + q)[..|y|];
  }
}
