/**
  The browser's conversion between byte buffers and Base64URL text. `Btoa` is
  section 4 of RFC 4648; `Atob` is the forgiving decoder browsers provide.
 */
module Base64Url {
  import opened Environment
  import opened Text

  // ------------------------------------------------------------------- six-bit digits

  type digit = x: int | 0 <= x < 64

  function Digits(bytes: seq<byte>): seq<digit> {
    if |bytes| == 0 then []
    else if |bytes| == 1 then [bytes[0] / 4, (bytes[0] % 4) * 16]
    else if |bytes| == 2 then [bytes[0] / 4, (bytes[0] % 4) * 16 + bytes[1] / 16, (bytes[1] % 16) * 4]
    else [bytes[0] / 4, (bytes[0] % 4) * 16 + bytes[1] / 16, (bytes[1] % 16) * 4 + bytes[2] / 64, bytes[2] % 64]
         + Digits(bytes[3..])
  }

  /** Leftover bits of a final partial group are dropped. */
  function Bytes(digits: seq<digit>): seq<byte> {
    if |digits| < 2 then []
    else if |digits| == 2 then [FirstByte(digits[0], digits[1])]
    else if |digits| == 3 then [FirstByte(digits[0], digits[1]), SecondByte(digits[1], digits[2])]
    else [FirstByte(digits[0], digits[1]), SecondByte(digits[1], digits[2]), ThirdByte(digits[2], digits[3])]
         + Bytes(digits[4..])
  }

  function FirstByte(a: int, b: int): byte
    requires 0 <= a < 64 && 0 <= b < 64
  {
    a * 4 + b / 16
  }

  function SecondByte(b: int, c: int): byte
    requires 0 <= b < 64 && 0 <= c < 64
  {
    (b % 16) * 16 + c / 4
  }

  function ThirdByte(c: int, d: int): byte
    requires 0 <= c < 64 && 0 <= d < 64
  {
    (c % 4) * 64 + d
  }

  /** Each byte is recovered from the two digits it was spread over. */
  lemma GroupReadsBack(a: byte, b: byte, c: byte)
    ensures FirstByte(a / 4, (a % 4) * 16 + b / 16) == a && FirstByte(a / 4, (a % 4) * 16) == a
    ensures SecondByte((a % 4) * 16 + b / 16, (b % 16) * 4 + c / 64) == b && SecondByte((a % 4) * 16 + b / 16, (b % 16) * 4) == b
    ensures ThirdByte((b % 16) * 4 + c / 64, c % 64) == c
  {
  }

  lemma {:induction false} BytesOfDigits(bytes: seq<byte>)
    ensures Bytes(Digits(bytes)) == bytes
    decreases |bytes|
  {
    hide FirstByte, SecondByte, ThirdByte;
    if |bytes| == 1 {
      GroupReadsBack(bytes[0], 0, 0);
    } else if |bytes| == 2 {
      GroupReadsBack(bytes[0], bytes[1], 0);
    } else if |bytes| > 2 {
      GroupReadsBack(bytes[0], bytes[1], bytes[2]);
      BytesOfDigits(bytes[3..]);
      assert Digits(bytes)[4..] == Digits(bytes[3..]);
      assert bytes == [bytes[0], bytes[1], bytes[2]] + bytes[3..];
    }
  }

  /** Four digits for three bytes, and two or three for a rest of one or two. */
  lemma {:induction false} DigitCount(bytes: seq<byte>)
    ensures |Digits(bytes)| == DigitsFor(|bytes|)
    decreases |bytes|
  {
    if |bytes| > 2 { DigitCount(bytes[3..]); }
  }

  function DigitsFor(n: nat): nat {
    4 * (n / 3) + if n % 3 == 0 then 0 else n % 3 + 1
  }

  // ----------------------------------------------------------------------- alphabet

  function Letter(d: digit): char {
    if d < 26 then ('A' as int + d) as char
    else if d < 52 then ('a' as int + (d - 26)) as char
    else if d < 62 then ('0' as int + (d - 52)) as char
    else if d == 62 then '+' else '/'
  }

  function DigitOf(c: char): Option<digit> {
    if 'A' <= c <= 'Z' then Some(c as int - 'A' as int)
    else if 'a' <= c <= 'z' then Some(c as int - 'a' as int + 26)
    else if '0' <= c <= '9' then Some(c as int - '0' as int + 52)
    else if c == '+' then Some(62)
    else if c == '/' then Some(63)
    else None
  }

  /** Section 5 of RFC 4648. */
  predicate UrlSafe(c: char) { 'A' <= c <= 'Z' || 'a' <= c <= 'z' || '0' <= c <= '9' || c == '-' || c == '_' }

  function Spell(digits: seq<digit>): (s: string)
    ensures |s| == |digits| && forall i :: 0 <= i < |s| ==> s[i] == Letter(digits[i])
  {
    seq(|digits|, i requires 0 <= i < |digits| => Letter(digits[i]))
  }

  function Pads(n: nat): (s: string)
    ensures |s| == n && forall i :: 0 <= i < n ==> s[i] == '='
  {
    seq(n, _ => '=')
  }

  function PadCount(length: nat): nat { (4 - length % 4) % 4 }

  function Btoa(bytes: seq<byte>): string {
    var letters := Spell(Digits(bytes));
    letters + Pads(PadCount(|letters|))
  }

  predicate AllLetters(s: string) { forall i :: 0 <= i < |s| ==> DigitOf(s[i]).Some? }

  function ReadDigits(s: string): (digits: seq<digit>)
    requires AllLetters(s)
    ensures |digits| == |s| && forall i :: 0 <= i < |s| ==> digits[i] == DigitOf(s[i]).value
  {
    seq(|s|, i requires 0 <= i < |s| => DigitOf(s[i]).value)
  }

  predicate Whitespace(c: char) { c == ' ' || c == '\t' || c == '\n' || c == '\r' || c == 12 as char }

  function WithoutWhitespace(s: string): string {
    if s == [] then []
    else if Whitespace(s[0]) then WithoutWhitespace(s[1..]) else [s[0]] + WithoutWhitespace(s[1..])
  }

  /** Up to two padding characters come off when the length is a multiple of four. */
  function Unpad(s: string): string {
    if |s| == 0 || |s| % 4 != 0 || s[|s| - 1] != '=' then s
    else if |s| > 1 && s[|s| - 2] == '=' then s[..|s| - 2]
    else s[..|s| - 1]
  }

  function Atob(s: string): Option<seq<byte>> {
    var data := Unpad(WithoutWhitespace(s));
    if |data| % 4 == 1 || !AllLetters(data) then None else Some(Bytes(ReadDigits(data)))
  }

  // ---------------------------------------------------------------------- functions

  function StripPadding(s: string): string {
    if s != [] && s[|s| - 1] == '=' then StripPadding(s[..|s| - 1]) else s
  }

  function ToUrlAlphabet(s: string): string { ReplaceChar(ReplaceChar(s, '+', "-"), '/', "_") }

  function FromUrlAlphabet(s: string): string { ReplaceChar(ReplaceChar(s, '-', "+"), '_', "/") }

  function UrlOf(bytes: seq<byte>): string { StripPadding(ToUrlAlphabet(Btoa(bytes))) }

  function BufferOf(text: string): Option<seq<byte>> { Atob(FromUrlAlphabet(text + Pads(PadCount(|text|)))) }

  // ------------------------------------------------------------------------ programs

  /** `bufferToBase64Url`: the binary string grows one character per byte. */
  method BufferToBase64Url(input: array<byte>) returns (text: string)
    ensures text == UrlOf(input[..])
  {
    var binary: seq<byte> := [];
    for i := 0 to input.Length
      invariant binary == input[..i]
    {
      binary := binary + [input[i]];
    }
    assert binary == input[..];
    text := StripPadding(ToUrlAlphabet(Btoa(binary)));
  }

  /** `base64UrlToBuffer`: decode, then fill an array of the right size. */
  method Base64UrlToBuffer(text: string) returns (out: Option<array<byte>>)
    ensures out.Some? <==> BufferOf(text).Some?
    ensures out.Some? ==> fresh(out.value) && out.value[..] == BufferOf(text).value
  {
    var raw := Atob(FromUrlAlphabet(text + Pads(PadCount(|text|))));
    if raw.None? { return None; }
    var bytes := new byte[|raw.value|];
    for i := 0 to |raw.value|
      invariant bytes[..i] == raw.value[..i]
    {
      bytes[i] := raw.value[i];
    }
    assert bytes[..] == raw.value;
    out := Some(bytes);
  }

  // --------------------------------------------------------------------------- proofs

  function Swap(s: string, c: char, d: char): (t: string)
    ensures |t| == |s| && forall i :: 0 <= i < |s| ==> t[i] == if s[i] == c then d else s[i]
  {
    seq(|s|, i requires 0 <= i < |s| => if s[i] == c then d else s[i])
  }

  /** Replacing by a single character is a character map. */
  lemma {:induction false} ReplaceIsSwap(s: string, c: char, d: char)
    ensures ReplaceChar(s, c, [d]) == Swap(s, c, d)
    decreases |s|
  {
    if s != [] {
      ReplaceIsSwap(s[1..], c, d);
      assert Swap(s, c, d) == [if s[0] == c then d else s[0]] + Swap(s[1..], c, d);
    }
  }

  lemma UrlSwaps(s: string)
    ensures ToUrlAlphabet(s) == Swap(Swap(s, '+', '-'), '/', '_')
    ensures FromUrlAlphabet(s) == Swap(Swap(s, '-', '+'), '_', '/')
  {
    hide Swap, ReplaceChar;
    ReplaceIsSwap(s, '+', '-');
    ReplaceIsSwap(Swap(s, '+', '-'), '/', '_');
    ReplaceIsSwap(s, '-', '+');
    ReplaceIsSwap(Swap(s, '-', '+'), '_', '/');
  }

  lemma {:induction false} StripPads(s: string, n: nat)
    requires s == [] || s[|s| - 1] != '='
    ensures StripPadding(s + Pads(n)) == s
    decreases n
  {
    if n == 0 {
      assert s + Pads(0) == s;
    } else {
      assert (s + Pads(n))[..|s| + n - 1] == s + Pads(n - 1);
      StripPads(s, n - 1);
    }
  }

  /** The digits of the bytes, spelled in the URL alphabet, nothing else. */
  lemma UrlOfIs(bytes: seq<byte>)
    ensures UrlOf(bytes) == Swap(Swap(Spell(Digits(bytes)), '+', '-'), '/', '_')
  {
    hide Digits;
    var letters := Spell(Digits(bytes));
    var url := Swap(Swap(letters, '+', '-'), '/', '_');
    var n := PadCount(|letters|);
    UrlSwaps(letters + Pads(n));
    assert Swap(Swap(letters + Pads(n), '+', '-'), '/', '_') == url + Pads(n);
    StripPads(url, n);
  }

  /** The encoding is unpadded, uses only the URL-safe alphabet, and has the expected length. */
  lemma UrlOfIsUrlSafe(bytes: seq<byte>)
    ensures forall i :: 0 <= i < |UrlOf(bytes)| ==> UrlSafe(UrlOf(bytes)[i])
    ensures |UrlOf(bytes)| == DigitsFor(|bytes|)
  {
    hide Digits;
    UrlOfIs(bytes);
    DigitCount(bytes);
  }

  /** The table of section 5 of RFC 4648, in code points. */
  predicate Stands(c: char, x: nat) {
    || (x < 26 && c as int == 65 + x)
    || (26 <= x < 52 && c as int == 97 + x - 26)
    || (52 <= x < 62 && c as int == 48 + x - 52)
    || (x == 62 && c == '-') || (x == 63 && c == '_')
  }

  function Weight(k: nat): nat {
    match k
    case 0 => 128
    case 1 => 64
    case 2 => 32
    case 3 => 16
    case 4 => 8
    case 5 => 4
    case 6 => 2
    case _ => 1
  }

  /** Bit `p` of the buffer, most significant first; zero behind its end. */
  function Bit(bytes: seq<byte>, p: nat): nat {
    if p / 8 < |bytes| then bytes[p / 8] / Weight(p % 8) % 2 else 0
  }

  /** The six bits from position `6 * i` on, as a number. */
  function Sextet(bytes: seq<byte>, i: nat): nat {
    32 * Bit(bytes, 6 * i) + 16 * Bit(bytes, 6 * i + 1) + 8 * Bit(bytes, 6 * i + 2)
    + 4 * Bit(bytes, 6 * i + 3) + 2 * Bit(bytes, 6 * i + 4) + Bit(bytes, 6 * i + 5)
  }

  /** A byte is halved step by step. */
  lemma Halving(a: byte)
    ensures a / 2 == 2 * (a / 4) + a / 2 % 2 && a / 4 == 2 * (a / 8) + a / 4 % 2 && a / 8 == 2 * (a / 16) + a / 8 % 2
    ensures a / 16 == 2 * (a / 32) + a / 16 % 2 && a / 32 == 2 * (a / 64) + a / 32 % 2 && a / 64 == 2 * (a / 128) + a / 64 % 2
    ensures a == 2 * (a / 2) + a / 1 % 2 && a / 128 == a / 128 % 2
  {
    LowHalves(a);
    HighHalves(a / 16);
    assert a / 16 / 2 == a / 32 by { Nested(a, 2); }
    assert a / 16 / 4 == a / 64 by { Nested(a, 4); }
    assert a / 16 / 8 == a / 128 by { Nested(a, 8); }
  }

  lemma LowHalves(a: byte)
    ensures a / 2 == 2 * (a / 4) + a / 2 % 2 && a / 4 == 2 * (a / 8) + a / 4 % 2 && a / 8 == 2 * (a / 16) + a / 8 % 2
  {
  }

  lemma HighHalves(h: nat)
    requires h < 16
    ensures h == 2 * (h / 2) + h % 2 && h / 2 == 2 * (h / 4) + h / 2 % 2 && h / 4 == 2 * (h / 8) + h / 4 % 2 && h / 8 == h / 8 % 2
  {
  }

  lemma Nested(a: byte, k: nat)
    requires k == 2 || k == 4 || k == 8
    ensures a / 16 / k == a / (16 * k)
  {
  }

  lemma Remainders(a: byte)
    ensures a % 4 == a - 4 * (a / 4) && a % 16 == a - 16 * (a / 16) && a % 64 == a - 64 * (a / 64)
  {
  }

  /** The parts of a byte that the digits take, bit by bit. */
  lemma ByteBits(a: byte)
    ensures a / 4 == 32 * (a / 128 % 2) + 16 * (a / 64 % 2) + 8 * (a / 32 % 2) + 4 * (a / 16 % 2) + 2 * (a / 8 % 2) + a / 4 % 2
    ensures a % 4 == 2 * (a / 2 % 2) + a / 1 % 2
    ensures a / 16 == 8 * (a / 128 % 2) + 4 * (a / 64 % 2) + 2 * (a / 32 % 2) + a / 16 % 2
    ensures a % 16 == 8 * (a / 8 % 2) + 4 * (a / 4 % 2) + 2 * (a / 2 % 2) + a / 1 % 2
    ensures a / 64 == 2 * (a / 128 % 2) + a / 64 % 2
    ensures a % 64 == 32 * (a / 32 % 2) + 16 * (a / 16 % 2) + 8 * (a / 8 % 2) + 4 * (a / 4 % 2) + 2 * (a / 2 % 2) + a / 1 % 2
  {
    Halving(a);
    Remainders(a);
  }

  /** Bits `8 * q` to `8 * q + 7` are those of byte `q`. */
  lemma BitsOfByte(bytes: seq<byte>, q: nat, k: nat)
    requires k < 8
    ensures Bit(bytes, 8 * q + k) == if q < |bytes| then bytes[q] / Weight(k) % 2 else 0
  {
    assert (8 * q + k) / 8 == q && (8 * q + k) % 8 == k;
  }

  ghost predicate Spread(bytes: seq<byte>, q: nat, a: int) {
    && Bit(bytes, 8 * q) == a / 128 % 2 && Bit(bytes, 8 * q + 1) == a / 64 % 2 && Bit(bytes, 8 * q + 2) == a / 32 % 2
    && Bit(bytes, 8 * q + 3) == a / 16 % 2 && Bit(bytes, 8 * q + 4) == a / 8 % 2 && Bit(bytes, 8 * q + 5) == a / 4 % 2
    && Bit(bytes, 8 * q + 6) == a / 2 % 2 && Bit(bytes, 8 * q + 7) == a / 1 % 2
  }

  lemma SpreadByte(bytes: seq<byte>, q: nat)
    ensures Spread(bytes, q, if q < |bytes| then bytes[q] else 0)
  {
    hide Bit;
    BitsOfByte(bytes, q, 0);
    BitsOfByte(bytes, q, 1);
    BitsOfByte(bytes, q, 2);
    BitsOfByte(bytes, q, 3);
    BitsOfByte(bytes, q, 4);
    BitsOfByte(bytes, q, 5);
    BitsOfByte(bytes, q, 6);
    BitsOfByte(bytes, q, 7);
  }

  lemma SextetZero(bytes: seq<byte>, a: byte)
    requires Spread(bytes, 0, a)
    ensures Sextet(bytes, 0) == a / 4
  {
    hide Bit;
    ByteBits(a);
  }

  lemma SextetOne(bytes: seq<byte>, a: byte, b: byte)
    requires Spread(bytes, 0, a) && Spread(bytes, 1, b)
    ensures Sextet(bytes, 1) == (a % 4) * 16 + b / 16
  {
    hide Bit;
    ByteBits(a);
    ByteBits(b);
  }

  lemma SextetTwo(bytes: seq<byte>, b: byte, c: byte)
    requires Spread(bytes, 1, b) && Spread(bytes, 2, c)
    ensures Sextet(bytes, 2) == (b % 16) * 4 + c / 64
  {
    hide Bit;
    ByteBits(b);
    ByteBits(c);
  }

  lemma SextetThree(bytes: seq<byte>, c: byte)
    requires Spread(bytes, 2, c)
    ensures Sextet(bytes, 3) == c % 64
  {
    hide Bit;
    ByteBits(c);
  }

  lemma FirstSextets(bytes: seq<byte>, i: nat)
    requires i < 4 && i < |Digits(bytes)|
    ensures Digits(bytes)[i] == Sextet(bytes, i)
  {
    hide Bit, Sextet, Spread;
    SpreadByte(bytes, 0);
    SpreadByte(bytes, 1);
    SpreadByte(bytes, 2);
    var a: byte, b: byte, c: byte := bytes[0], if |bytes| > 1 then bytes[1] else 0, if |bytes| > 2 then bytes[2] else 0;
    SextetZero(bytes, a);
    SextetOne(bytes, a, b);
    SextetTwo(bytes, b, c);
    SextetThree(bytes, c);
  }

  lemma BitShift(bytes: seq<byte>, p: nat)
    requires |bytes| > 2 && p >= 24
    ensures Bit(bytes, p) == Bit(bytes[3..], p - 24)
  {
    assert p / 8 == (p - 24) / 8 + 3 && p % 8 == (p - 24) % 8;
  }

  lemma SextetShift(bytes: seq<byte>, i: nat)
    requires |bytes| > 2 && i >= 4
    ensures Sextet(bytes, i) == Sextet(bytes[3..], i - 4)
  {
    hide Bit;
    BitShift(bytes, 6 * i);
    BitShift(bytes, 6 * i + 1);
    BitShift(bytes, 6 * i + 2);
    BitShift(bytes, 6 * i + 3);
    BitShift(bytes, 6 * i + 4);
    BitShift(bytes, 6 * i + 5);
  }

  lemma {:induction false} DigitsAreSextets(bytes: seq<byte>, i: nat)
    requires i < |Digits(bytes)|
    ensures Digits(bytes)[i] == Sextet(bytes, i)
    decreases |bytes|
  {
    hide Sextet;
    if i < 4 {
      FirstSextets(bytes, i);
    } else {
      DigitsAreSextets(bytes[3..], i - 4);
      SextetShift(bytes, i);
    }
  }

  lemma LetterStands(d: digit)
    ensures Stands(if Letter(d) == '+' then '-' else if Letter(d) == '/' then '_' else Letter(d), d)
  {
  }

  /** Character `i` of the encoding stands for bits `6 * i` to `6 * i + 5`, and all bits are covered. */
  lemma UrlOfIsByBits(bytes: seq<byte>)
    ensures 6 * |UrlOf(bytes)| - 6 < 8 * |bytes| <= 6 * |UrlOf(bytes)|
    ensures forall i :: 0 <= i < |UrlOf(bytes)| ==> Stands(UrlOf(bytes)[i], Sextet(bytes, i))
  {
    hide Digits, Sextet, Letter, Stands;
    UrlOfIs(bytes);
    DigitCount(bytes);
    forall i | 0 <= i < |UrlOf(bytes)| ensures Stands(UrlOf(bytes)[i], Sextet(bytes, i)) {
      DigitsAreSextets(bytes, i);
      LetterStands(Digits(bytes)[i]);
    }
  }

  /** The padding the decoder adds is the padding the encoder stripped. */
  lemma PaddingIsRestored(bytes: seq<byte>)
    ensures FromUrlAlphabet(UrlOf(bytes) + Pads(PadCount(|UrlOf(bytes)|))) == Btoa(bytes)
  {
    hide Digits;
    UrlOfIs(bytes);
    var url := UrlOf(bytes);
    UrlSwaps(url + Pads(PadCount(|url|)));
    var letters := Spell(Digits(bytes));
    assert Swap(Swap(url + Pads(PadCount(|url|)), '-', '+'), '_', '/') == letters + Pads(PadCount(|letters|));
  }

  lemma {:induction false} NoWhitespace(s: string)
    requires forall i :: 0 <= i < |s| ==> !Whitespace(s[i])
    ensures WithoutWhitespace(s) == s
    decreases |s|
  {
    if s != [] { NoWhitespace(s[1..]); }
  }

  lemma PadCountIs(n: nat)
    requires n % 4 != 1
    ensures PadCount(n) <= 2 && (n + PadCount(n)) % 4 == 0
  {
  }

  lemma UnpadPads(letters: string, n: nat)
    requires n <= 2 && (|letters| + n) % 4 == 0 && forall i :: 0 <= i < |letters| ==> letters[i] != '='
    ensures Unpad(letters + Pads(n)) == letters
  {
    var s := letters + Pads(n);
    var last := |s| - 1;
    if n == 0 {
      assert s == letters;
    } else if n == 1 {
      assert s[last] == '=' && s[..last] == letters;
      assert last > 0 ==> s[last - 1] == letters[last - 1];
    } else {
      assert s[last] == '=' && s[last - 1] == '=' && s[..last - 1] == letters;
    }
  }

  lemma UnpadBtoa(letters: string)
    requires |letters| % 4 != 1 && forall i :: 0 <= i < |letters| ==> letters[i] != '='
    ensures Unpad(letters + Pads(PadCount(|letters|))) == letters
  {
    hide Unpad, PadCount, Pads;
    PadCountIs(|letters|);
    UnpadPads(letters, PadCount(|letters|));
  }

  /** Standard Base64 decodes to what was encoded. */
  lemma AtobUndoesBtoa(bytes: seq<byte>)
    ensures Atob(Btoa(bytes)) == Some(bytes)
  {
    var digits := Digits(bytes);
    var letters := Spell(digits);
    DigitCount(bytes);
    BytesOfDigits(bytes);
    hide Digits, Bytes, Unpad;
    NoWhitespace(Btoa(bytes));
    UnpadBtoa(letters);
    assert AllLetters(letters) && ReadDigits(letters) == digits;
  }

  /** Every buffer survives the round trip. */
  lemma RoundTrip(bytes: seq<byte>)
    ensures BufferOf(UrlOf(bytes)) == Some(bytes)
  {
    hide UrlOf, Atob, Btoa, FromUrlAlphabet;
    PaddingIsRestored(bytes);
    AtobUndoesBtoa(bytes);
  }

  /** Hence no two buffers share an encoding. */
  lemma UrlOfIsInjective(a: seq<byte>, b: seq<byte>)
    ensures UrlOf(a) == UrlOf(b) <==> a == b
  {
    hide UrlOf, BufferOf;
    RoundTrip(a);
    RoundTrip(b);
  }

  // -------------------------------------------------------------------- which texts

  /** The bits a final partial group does not use are zero. */
  predicate NoLeftover(digits: seq<digit>) {
    var n := |digits|;
    n % 4 != 1 && (n % 4 == 2 ==> digits[n - 1] % 16 == 0) && (n % 4 == 3 ==> digits[n - 1] % 4 == 0)
  }

  lemma NoLeftoverRest(digits: seq<digit>)
    requires NoLeftover(digits) && |digits| > 3
    ensures NoLeftover(digits[4..])
  {
    var rest := digits[4..];
    assert |rest| > 0 ==> rest[|rest| - 1] == digits[|digits| - 1];
  }

  /** A group of three bytes yields its four digits, and the rest its own. */
  lemma DigitsUnfold(x: byte, y: byte, z: byte, rest: seq<byte>)
    ensures Digits([x, y, z] + rest) ==
      [x / 4, (x % 4) * 16 + y / 16, (y % 16) * 4 + z / 64, z % 64] + Digits(rest)
  {
    assert ([x, y, z] + rest)[3..] == rest;
  }

  lemma {:induction false} DigitsOfBytes(digits: seq<digit>)
    requires NoLeftover(digits)
    ensures Digits(Bytes(digits)) == digits
    decreases |digits|
  {
    if |digits| > 3 {
      hide Digits, FirstByte, SecondByte, ThirdByte, NoLeftover;
      var rest := digits[4..];
      NoLeftoverRest(digits);
      DigitsOfBytes(rest);
      FourDigits(digits[0], digits[1], digits[2], digits[3]);
      DigitsUnfold(FirstByte(digits[0], digits[1]), SecondByte(digits[1], digits[2]), ThirdByte(digits[2], digits[3]), Bytes(rest));
      assert digits == [digits[0], digits[1], digits[2], digits[3]] + rest;
    } else {
      FewDigits(digits);
    }
  }

  lemma FewDigits(digits: seq<digit>)
    requires NoLeftover(digits) && |digits| <= 3
    ensures Digits(Bytes(digits)) == digits
  {
    hide FirstByte, SecondByte;
    if |digits| == 2 {
      TwoDigits(digits[0], digits[1]);
    } else if |digits| == 3 {
      ThreeDigits(digits[0], digits[1], digits[2]);
    }
  }

  lemma TwoDigits(a: digit, b: digit)
    requires b % 16 == 0
    ensures var x := FirstByte(a, b); x / 4 == a && (x % 4) * 16 == b
  {
  }

  lemma ThreeDigits(a: digit, b: digit, c: digit)
    requires c % 4 == 0
    ensures var x, y := FirstByte(a, b), SecondByte(b, c);
            x / 4 == a && (x % 4) * 16 + y / 16 == b && (y % 16) * 4 == c
  {
  }

  lemma FourDigits(a: digit, b: digit, c: digit, d: digit)
    ensures var x, y, z := FirstByte(a, b), SecondByte(b, c), ThirdByte(c, d);
            x / 4 == a && (x % 4) * 16 + y / 16 == b && (y % 16) * 4 + z / 64 == c && z % 64 == d
  {
  }

  lemma {:induction false} DigitsHaveNoLeftover(bytes: seq<byte>)
    ensures NoLeftover(Digits(bytes))
    decreases |bytes|
  {
    if |bytes| > 2 {
      DigitsHaveNoLeftover(bytes[3..]);
      var rest := Digits(bytes[3..]);
      assert Digits(bytes)[4..] == rest;
      assert |rest| > 0 ==> rest[|rest| - 1] == Digits(bytes)[|Digits(bytes)| - 1];
    }
  }

  /** The digit a URL-safe letter stands for. */
  function UrlDigit(c: char): digit
    requires UrlSafe(c)
  {
    if c == '-' then 62 else if c == '_' then 63 else DigitOf(c).value
  }

  function UrlDigits(text: string): (digits: seq<digit>)
    requires forall i :: 0 <= i < |text| ==> UrlSafe(text[i])
    ensures |digits| == |text| && forall i :: 0 <= i < |text| ==> digits[i] == UrlDigit(text[i])
  {
    seq(|text|, i requires 0 <= i < |text| => UrlDigit(text[i]))
  }

  lemma LetterOfUrlDigit(c: char)
    requires UrlSafe(c)
    ensures var l := Letter(UrlDigit(c)); c == if l == '+' then '-' else if l == '/' then '_' else l
  {
  }

  /** A text is the encoding of some buffer if and only if it is URL-safe and has no leftover bits. */
  lemma EncodingsAre(text: string)
    ensures (exists bytes :: UrlOf(bytes) == text) <==>
              (forall i :: 0 <= i < |text| ==> UrlSafe(text[i])) && NoLeftover(UrlDigits(text))
  {
    hide Digits, Bytes, UrlOf;
    if bytes :| UrlOf(bytes) == text {
      UrlOfIsUrlSafe(bytes);
      UrlOfIs(bytes);
      DigitsHaveNoLeftover(bytes);
      forall i | 0 <= i < |text| ensures UrlDigit(text[i]) == Digits(bytes)[i] { UrlDigitOfLetter(Digits(bytes)[i]); }
      assert UrlDigits(text) == Digits(bytes);
    }
    if (forall i :: 0 <= i < |text| ==> UrlSafe(text[i])) && NoLeftover(UrlDigits(text)) {
      var bytes := Bytes(UrlDigits(text));
      DigitsOfBytes(UrlDigits(text));
      UrlOfIs(bytes);
      forall i | 0 <= i < |text| ensures UrlOf(bytes)[i] == text[i] { LetterOfUrlDigit(text[i]); }
      assert UrlOf(bytes) == text;
    }
  }

  lemma UrlDigitOfLetter(d: digit)
    ensures var l := Letter(d);
            var c := if l == '+' then '-' else if l == '/' then '_' else l;
            UrlSafe(c) && UrlDigit(c) == d
  {
  }
}
