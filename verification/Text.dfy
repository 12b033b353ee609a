/** Characters and decimal numerals. */
module Text {
  /** What the white space class of a pattern and trimming take for white space. */
  predicate IsSpace(c: char) {
    || '\t' <= c <= '\r' || c == ' ' || c == '\U{A0}' || c == '\U{1680}' || '\U{2000}' <= c <= '\U{200A}'
    || c == '\U{2028}' || c == '\U{2029}' || c == '\U{202F}' || c == '\U{205F}' || c == '\U{3000}' || c == '\U{FEFF}'
  }

  function Lower(c: char): char {
    if 'A' <= c <= 'Z' then ((c as int) + 32) as char else c
  }

  function TrimEnd(s: string): string {
    if s != "" && IsSpace(s[|s| - 1]) then TrimEnd(s[..|s| - 1]) else s
  }

  const BLANKS: set<char> :=
    {'\t', '\n', '\U{b}', '\U{c}', '\r', ' ', '\U{a0}', '\U{1680}', '\U{2000}', '\U{2001}', '\U{2002}', '\U{2003}',
     '\U{2004}', '\U{2005}', '\U{2006}', '\U{2007}', '\U{2008}', '\U{2009}', '\U{200a}', '\U{2028}', '\U{2029}',
     '\U{202f}', '\U{205f}', '\U{3000}', '\U{feff}'}

  /** The white space and line terminators of ECMAScript, which are 25 characters. */
  lemma BlanksAre(c: char)
    ensures IsSpace(c) <==> c in BLANKS
  {
  }

  predicate IsDigit(c: char) {
    '0' <= c <= '9'
  }

  predicate OnlyDigits(s: string) {
    forall i :: 0 <= i < |s| ==> IsDigit(s[i])
  }

  function Number(digits: string): nat
    requires OnlyDigits(digits)
  {
    if digits == "" then 0
    else 10 * Number(digits[..|digits| - 1]) + (digits[|digits| - 1] as int - '0' as int)
  }

  /** The numeral of n without leading zeros. */
  function Print(n: nat): string {
    if n < 10 then ["0123456789"[n]] else Print(n / 10) + ["0123456789"[n % 10]]
  }

  function Zeros(k: nat): string {
    if k == 0 then "" else "0" + Zeros(k - 1)
  }

  function Power10(k: nat): (p: nat)
    ensures p > 0
  {
    if k == 0 then 1 else 10 * Power10(k - 1)
  }

  /** The last k digits of n, with leading zeros. */
  function Padded(n: nat, k: nat): string {
    if k == 0 then "" else Padded(n / 10, k - 1) + ["0123456789"[n % 10]]
  }

  lemma DigitPrinted(d: nat)
    requires d < 10
    ensures var c := "0123456789"[d]; IsDigit(c) && c as int - '0' as int == d
  {
  }

  lemma NumberSnoc(digits: string, d: nat)
    requires OnlyDigits(digits) && d < 10
    ensures OnlyDigits(digits + ["0123456789"[d]]) && Number(digits + ["0123456789"[d]]) == 10 * Number(digits) + d
  {
    var s := digits + ["0123456789"[d]];
    DigitPrinted(d);
    assert s[..|s| - 1] == digits;
  }

  lemma {:induction false} PrintsDigits(n: nat)
    ensures Print(n) != "" && OnlyDigits(Print(n)) && Number(Print(n)) == n
  {
    if n >= 10 {
      PrintsDigits(n / 10);
      NumberSnoc(Print(n / 10), n % 10);
    } else {
      NumberSnoc("", n);
      assert "" + ["0123456789"[n]] == Print(n);
    }
  }

  lemma {:induction false} ZerosAreDigits(k: nat)
    ensures OnlyDigits(Zeros(k)) && Number(Zeros(k)) == 0
  {
    if k > 0 {
      ZerosAreDigits(k - 1);
      ZerosEnd(k);
      NumberSnoc(Zeros(k - 1), 0);
      assert ["0123456789"[0]] == "0";
    }
  }

  lemma {:induction false} ZerosEnd(k: nat)
    requires k > 0
    ensures Zeros(k) == Zeros(k - 1) + "0"
  {
    if k > 1 {
      ZerosEnd(k - 1);
    }
  }

  lemma {:induction false} LeadingZeros(k: nat, digits: string)
    requires OnlyDigits(digits)
    ensures OnlyDigits(Zeros(k) + digits) && Number(Zeros(k) + digits) == Number(digits)
    decreases |digits|
  {
    ZerosAreDigits(k);
    if digits == "" {
      assert Zeros(k) + digits == Zeros(k);
    } else {
      LeadingZeros(k, digits[..|digits| - 1]);
      assert (Zeros(k) + digits)[..|Zeros(k) + digits| - 1] == Zeros(k) + digits[..|digits| - 1];
    }
  }

  lemma {:induction false} PaddedIsDigits(n: nat, k: nat)
    ensures |Padded(n, k)| == k && OnlyDigits(Padded(n, k))
  {
    if k > 0 {
      PaddedIsDigits(n / 10, k - 1);
      DigitPrinted(n % 10);
    }
  }

  lemma Shifted(x: nat, p: nat, high: nat, low: nat)
    ensures 10 * (x * p + high) + low == x * (10 * p) + (10 * high + low)
  {
  }

  /** k more digits after a number shift it by k places. */
  lemma {:induction false} PaddedAfter(digits: string, n: nat, k: nat)
    requires OnlyDigits(digits) && n < Power10(k)
    ensures OnlyDigits(digits + Padded(n, k))
    ensures Number(digits + Padded(n, k)) == Number(digits) * Power10(k) + n
    decreases k
  {
    hide Number, IsDigit, OnlyDigits;
    if k == 0 {
      assert digits + Padded(n, 0) == digits;
    } else {
      var before := digits + Padded(n / 10, k - 1);
      PaddedAfter(digits, n / 10, k - 1);
      NumberSnoc(before, n % 10);
      assert digits + Padded(n, k) == before + ["0123456789"[n % 10]];
      Shifted(Number(digits), Power10(k - 1), n / 10, n % 10);
    }
  }
}
