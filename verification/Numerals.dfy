/**
  Positional numerals, as printed by the formatting macros the program uses:
  plain decimal (`{}`), zero-padded decimal (`{:02}`) and zero-padded
  hexadecimal (`{:016x}`, `{:02x}`).
 */
module Numerals {
  import opened Environment

  function DigitChar(d: nat): (c: char)
    requires d < 16
  {
    if d < 10 then ('0' as int + d) as char else ('a' as int + (d - 10)) as char
  }

  /** Digit value of a lower-case hexadecimal digit; 0 for any other character. */
  function DigitValue(c: char): (d: nat)
    ensures d < 16
  {
    if '0' <= c <= '9' then c as int - '0' as int
    else if 'a' <= c <= 'f' then c as int - 'a' as int + 10
    else 0
  }

  predicate IsDecimalDigit(c: char) { '0' <= c <= '9' }

  predicate IsHexDigit(c: char) { '0' <= c <= '9' || 'a' <= c <= 'f' }

  function Render(n: nat, base: nat): (s: string)
    requires base == 10 || base == 16
    ensures s != []
    decreases n
  {
    if n < base then [DigitChar(n)] else Render(n / base, base) + [DigitChar(n % base)]
  }

  function Value(s: string, base: nat): nat {
    if s == [] then 0 else Value(s[..|s| - 1], base) * base + DigitValue(s[|s| - 1])
  }

  function Zeros(k: nat): (s: string)
    ensures |s| == k && forall i :: 0 <= i < k ==> s[i] == '0'
  {
    seq(k, _ => '0')
  }

  /** `{:0width}`: pad with zeros on the left, never truncate. */
  function Padded(n: nat, base: nat, width: nat): (s: string)
    requires base == 10 || base == 16
    ensures |s| >= width
  {
    var digits := Render(n, base);
    if |digits| < width then Zeros(width - |digits|) + digits else digits
  }

  lemma {:induction false} ValueOfRender(n: nat, base: nat)
    requires base == 10 || base == 16
    ensures Value(Render(n, base), base) == n
    decreases n
  {
    if n < base {
      assert Render(n, base)[..0] == [];
    } else {
      var s := Render(n, base);
      assert s[..|s| - 1] == Render(n / base, base);
      ValueOfRender(n / base, base);
      assert Value(s, base) == (n / base) * base + n % base;
    }
  }

  lemma {:induction false} ValueOfZeros(k: nat, base: nat)
    ensures Value(Zeros(k), base) == 0
  {
    if k > 0 {
      assert Zeros(k)[..k - 1] == Zeros(k - 1);
      ValueOfZeros(k - 1, base);
    }
  }

  lemma {:induction false} LeadingZeros(k: nat, s: string, base: nat)
    ensures Value(Zeros(k) + s, base) == Value(s, base)
    decreases |s|
  {
    var t := Zeros(k) + s;
    if s == [] {
      assert t == Zeros(k);
      ValueOfZeros(k, base);
    } else {
      assert t[..|t| - 1] == Zeros(k) + s[..|s| - 1];
      LeadingZeros(k, s[..|s| - 1], base);
    }
  }

  lemma ValueOfPadded(n: nat, base: nat, width: nat)
    requires base == 10 || base == 16
    ensures Value(Padded(n, base, width), base) == n
  {
    hide Value, Render, Zeros;
    var digits := Render(n, base);
    ValueOfRender(n, base);
    if |digits| < width {
      LeadingZeros(width - |digits|, digits, base);
    }
  }

  /** Padding never makes two different numbers print alike. */
  lemma PaddedIsInjective(m: nat, n: nat, base: nat, width: nat)
    requires base == 10 || base == 16
    requires Padded(m, base, width) == Padded(n, base, width)
    ensures m == n
  {
    ValueOfPadded(m, base, width);
    ValueOfPadded(n, base, width);
  }

  lemma {:induction false} RenderDigits(n: nat, base: nat)
    requires base == 10 || base == 16
    ensures forall i :: 0 <= i < |Render(n, base)| ==>
              if base == 10 then IsDecimalDigit(Render(n, base)[i]) else IsHexDigit(Render(n, base)[i])
    decreases n
  {
    if n >= base {
      RenderDigits(n / base, base);
    }
  }

  // ------------------------------------------------------------- signed 64-bit numbers

  const I64_MIN: int := -0x8000_0000_0000_0000
  const I64_MAX: nat := 0x7fff_ffff_ffff_ffff

  predicate I64(x: int) { I64_MIN <= x <= I64_MAX }

  predicate Decimal(s: string) { s != [] && forall i :: 0 <= i < |s| ==> IsDecimalDigit(s[i]) }

  /** `str::parse::<i64>`: an optional sign, at least one digit, no overflow. */
  function ParseI64(s: string): Option<int> {
    var negative := s != [] && s[0] == '-';
    var digits := if s != [] && (s[0] == '-' || s[0] == '+') then s[1..] else s;
    if !Decimal(digits) then None
    else
      var v := if negative then 0 - Value(digits, 10) else Value(digits, 10);
      if I64(v) then Some(v) else None
  }

  function ShowI64(x: int): string {
    if x < 0 then "-" + Render(-x, 10) else Render(x, 10)
  }

  lemma ParseShow(x: int)
    requires I64(x)
    ensures ParseI64(ShowI64(x)) == Some(x)
  {
    var n := if x < 0 then -x else x;
    RenderDigits(n, 10);
    ValueOfRender(n, 10);
    hide Render, Value;
    if x < 0 { assert ShowI64(x)[1..] == Render(n, 10); }
  }

  /** A plus sign and leading zeros change nothing. */
  lemma ParseIgnores(s: string, k: nat)
    requires Decimal(s)
    ensures ParseI64("+" + s) == ParseI64(s) == ParseI64(Zeros(k) + s)
  {
    LeadingZeros(k, s, 10);
    hide Value;
    assert ("+" + s)[1..] == s;
    assert Decimal(Zeros(k) + s) && IsDecimalDigit((Zeros(k) + s)[0]);
    assert IsDecimalDigit(s[0]);
  }

  lemma ShowChars(x: int)
    ensures forall i :: 0 <= i < |ShowI64(x)| ==> IsDecimalDigit(ShowI64(x)[i]) || ShowI64(x)[i] == '-'
  {
    RenderDigits(if x < 0 then -x else x, 10);
    hide Render;
  }

  lemma PaddedChars(n: nat, width: nat)
    ensures forall i :: 0 <= i < |Padded(n, 16, width)| ==> IsHexDigit(Padded(n, 16, width)[i])
  {
    RenderDigits(n, 16);
    hide Render;
  }

  /** A decimal without needless leading zeros. */
  predicate Shortest(s: string) { Decimal(s) && (|s| > 1 ==> s[0] != '0') }

  /** How a signed number is spelled: `0`, or an optional minus and digits that do not start with `0`. */
  predicate Spelling(s: string) {
    Shortest(s) || (s != [] && s[0] == '-' && Shortest(s[1..]) && s[1] != '0')
  }

  lemma {:induction false} LeadingDigitCounts(s: string)
    requires Decimal(s) && s[0] != '0'
    ensures Value(s, 10) > 0
    decreases |s|
  {
    if |s| > 1 { LeadingDigitCounts(s[..|s| - 1]); }
  }

  lemma {:induction false} ShortestIsRendered(s: string)
    requires Shortest(s)
    ensures Render(Value(s, 10), 10) == s
    decreases |s|
  {
    var n := |s| - 1;
    var d := DigitValue(s[n]);
    assert DigitChar(d) == s[n];
    if n == 0 {
      assert s[..0] == [];
    } else {
      ShortestIsRendered(s[..n]);
      LeadingDigitCounts(s[..n]);
      assert Value(s, 10) / 10 == Value(s[..n], 10) && Value(s, 10) % 10 == d;
    }
  }

  lemma {:induction false} RenderIsShortest(n: nat)
    ensures Shortest(Render(n, 10)) && (n > 0 ==> Render(n, 10)[0] != '0')
    decreases n
  {
    if n >= 10 {
      RenderIsShortest(n / 10);
    }
  }

  /** The printed number is the only spelling that is read as that number. */
  lemma ShowIsTheSpelling(s: string, x: int)
    ensures Spelling(s) && ParseI64(s) == Some(x) <==> I64(x) && s == ShowI64(x)
  {
    if I64(x) && s == ShowI64(x) {
      ParseShow(x);
      ShowIsASpelling(x);
    }
    if Spelling(s) && ParseI64(s) == Some(x) {
      SpellingIsShown(s, x);
    }
  }

  lemma ShowIsASpelling(x: int)
    ensures Spelling(ShowI64(x))
  {
    RenderIsShortest(if x < 0 then -x else x);
    hide Render, Shortest;
    if x < 0 { assert ShowI64(x)[1..] == Render(-x, 10); }
  }

  lemma SpellingIsShown(s: string, x: int)
    requires Spelling(s) && ParseI64(s) == Some(x)
    ensures I64(x) && s == ShowI64(x)
  {
    hide Render, Value;
    var digits := if s[0] == '-' then s[1..] else s;
    ShortestIsRendered(digits);
    if s[0] == '-' {
      LeadingDigitCounts(digits);
      assert s == "-" + digits;
    }
  }

  /** One byte is two digits, the high half first. */
  lemma PaddedByte(b: nat)
    requires b < 256
    ensures Padded(b, 16, 2) == [DigitChar(b / 16), DigitChar(b % 16)]
  {
    if b < 16 {
      assert Render(b, 16) == [DigitChar(b)];
      assert Zeros(1) == ['0'];
    } else {
      assert Render(b / 16, 16) == [DigitChar(b / 16)];
    }
  }

  function Power(base: nat, k: nat): nat {
    if k == 0 then 1 else base * Power(base, k - 1)
  }

  lemma {:induction false} RenderLength(n: nat, base: nat, k: nat)
    requires (base == 10 || base == 16) && k > 0 && n < Power(base, k)
    ensures |Render(n, base)| <= k
    decreases k
  {
    if n >= base {
      assert k > 1 by { assert Power(base, 1) == base * Power(base, 0) == base; }
      assert n / base < Power(base, k - 1);
      RenderLength(n / base, base, k - 1);
    }
  }

  /** A number that fits the width is padded to exactly that width. */
  lemma PaddedLength(n: nat, base: nat, width: nat)
    requires (base == 10 || base == 16) && width > 0 && n < Power(base, width)
    ensures |Padded(n, base, width)| == width
  {
    hide Render;
    RenderLength(n, base, width);
  }
}
