/** Decimal numerals as Python prints them (`{n:0wd}`) and reads them (`int`). */
module Numerals {

  predicate IsDigit(c: char) { '0' <= c <= '9' }

  predicate AllDigits(s: string) { forall c | c in s :: IsDigit(c) }

  function DigitOf(d: nat): (c: char)
    requires d < 10
    ensures IsDigit(c)
  {
    '0' + d as char
  }

  function Digits(n: nat): (s: string)
    ensures s != "" && AllDigits(s)
  {
    if n < 10 then [DigitOf(n)] else Digits(n / 10) + [DigitOf(n % 10)]
  }

  function Zeros(k: nat): (s: string)
    ensures |s| == k && forall c | c in s :: c == '0'
  {
    if k == 0 then "" else "0" + Zeros(k - 1)
  }

  /** `f"{n:0{width}d}"`: at least `width` characters, never truncated. */
  function Pad(width: nat, n: nat): (s: string)
    ensures s != "" && AllDigits(s) && |s| >= width
  {
    var d := Digits(n);
    if |d| >= width then d else Zeros(width - |d|) + d
  }

  /** `int(s)` */
  function Value(s: string): nat
    requires AllDigits(s)
  {
    if s == "" then 0
    else
      var last := |s| - 1;
      assert s[last] in s;
      10 * Value(s[..last]) + (s[last] - '0') as nat
  }

  lemma {:induction false} ValueOfDigits(n: nat)
    ensures Value(Digits(n)) == n
  {
    if n >= 10 {
      ValueOfDigits(n / 10);
      assert Digits(n)[..|Digits(n)| - 1] == Digits(n / 10);
    } else {
      assert Digits(n)[..0] == "";
    }
  }

  lemma {:induction false} ValueOfPadding(k: nat, s: string)
    requires AllDigits(s)
    ensures AllDigits(Zeros(k) + s) && Value(Zeros(k) + s) == Value(s)
  {
    if s != "" {
      var last := |s| - 1;
      assert s[last] in s;
      ValueOfPadding(k, s[..last]);
      assert (Zeros(k) + s)[..|Zeros(k) + s| - 1] == Zeros(k) + s[..last];
    } else if k > 0 {
      ValueOfPadding(k - 1, "");
      assert Zeros(k) == Zeros(k - 1) + "0" by { ZerosEndInZero(k); }
      assert (Zeros(k) + "") == Zeros(k) && Zeros(k)[..k - 1] == Zeros(k - 1) && Zeros(k - 1) + "" == Zeros(k - 1);
    }
  }

  lemma {:induction false} ZerosEndInZero(k: nat)
    requires k > 0
    ensures Zeros(k) == Zeros(k - 1) + "0"
  {
    if k > 1 { ZerosEndInZero(k - 1); }
  }

  /** Reading a printed number gives it back, for every width and every number of digits. */
  lemma ReadBack(width: nat, n: nat)
    ensures Value(Pad(width, n)) == n
  {
    ValueOfDigits(n);
    if |Digits(n)| < width {
      ValueOfPadding(width - |Digits(n)|, Digits(n));
    }
  }

  lemma PadIsInjective(width: nat, m: nat, n: nat)
    requires Pad(width, m) == Pad(width, n)
    ensures m == n
  {
    ReadBack(width, m);
    ReadBack(width, n);
  }
}
