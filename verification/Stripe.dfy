/**
  Verification of the `Stripe-Signature` header. The keyed hash is a parameter:
  nothing is assumed about it. Header values are ASCII, so a character is a byte.
 */
module Stripe {
  import opened Environment
  import opened Numerals
  import opened Text

  type Mac = (seq<byte>, seq<byte>) -> seq<byte>

  datatype Verdict = Accepted | Malformed | OutsideTolerance | Mismatch

  // ------------------------------------------------------------------------ numbers

  function Wrap(x: int): int {
    if x > I64_MAX then x - 0x1_0000_0000_0000_0000
    else if x < I64_MIN then x + 0x1_0000_0000_0000_0000
    else x
  }

  function Abs(x: int): nat { if x < 0 then -x else x }

  /** `(now - timestamp).abs()` in wrapping 64-bit arithmetic; the least value has no absolute value. */
  function Drift(now: int, timestamp: int): int {
    var d := Wrap(now - timestamp);
    if d == I64_MIN then I64_MIN else Abs(d)
  }

  /** The tolerance in seconds, capped at the largest signed value. */
  function Cap(tolerance: nat): int { if tolerance > I64_MAX then I64_MAX else tolerance }

  // -------------------------------------------------------------------------- bytes

  function Ascii(s: string): (bytes: seq<byte>)
    ensures |bytes| == |s|
    ensures forall i :: 0 <= i < |s| ==> bytes[i] == (s[i] as int) % 256
  {
    seq(|s|, i requires 0 <= i < |s| => (s[i] as int) % 256)
  }

  function SignedPayload(timestamp: int, payload: seq<byte>): seq<byte> {
    Ascii(ShowI64(timestamp)) + [46] + payload
  }

  /** Two lower-case hexadecimal digits per byte. */
  function HexLower(bytes: seq<byte>): string {
    if bytes == [] then [] else HexLower(bytes[..|bytes| - 1]) + Padded(bytes[|bytes| - 1], 16, 2)
  }

  method HexLowerLoop(bytes: seq<byte>) returns (out: string)
    ensures out == HexLower(bytes)
  {
    out := "";
    for i := 0 to |bytes|
      invariant out == HexLower(bytes[..i])
    {
      assert bytes[..i + 1][..i] == bytes[..i];
      out := out + Padded(bytes[i], 16, 2);
    }
    assert bytes[..|bytes|] == bytes;
  }

  function Lower(c: char): char { if 'A' <= c <= 'Z' then (c as int + 32) as char else c }

  predicate EqIgnoreCase(a: string, b: string) {
    |a| == |b| && forall i :: 0 <= i < |a| ==> Lower(a[i]) == Lower(b[i])
  }

  /** The comparison accumulates differences instead of stopping at the first. */
  method ConstantTimeEq(a: string, b: string) returns (equal: bool)
    ensures equal <==> EqIgnoreCase(a, b)
  {
    if |a| != |b| { return false; }
    var diff := false;
    for i := 0 to |a|
      invariant diff <==> exists k :: 0 <= k < i && Lower(a[k]) != Lower(b[k])
    {
      diff := diff || Lower(a[i]) != Lower(b[i]);
    }
    equal := !diff;
  }

  // ------------------------------------------------------------------------- header

  function Parts(header: string): seq<string> { Split(header, ',') }

  function KeyOf(part: string): string { Trim(FirstPiece(part, '=').0) }

  function ValueOf(part: string): string { Trim(FirstPiece(part, '=').1) }

  predicate IsTimestamp(part: string) { KeyOf(part) == "t" }

  predicate IsSignature(part: string) { KeyOf(part) == "v1" }

  datatype Scan = Scan(timestamp: Option<int>, signatures: seq<string>)

  /** The header loop: the last `t` decides, `v1` values are collected, other keys are ignored. */
  function ScanParts(parts: seq<string>): Option<Scan> {
    if parts == [] then Some(Scan(None, []))
    else
      var before, part := ScanParts(parts[..|parts| - 1]), parts[|parts| - 1];
      if before.None? || '=' !in part then None
      else if IsTimestamp(part) then Some(before.value.(timestamp := ParseI64(ValueOf(part))))
      else if IsSignature(part) then Some(before.value.(signatures := before.value.signatures + [ValueOf(part)]))
      else before
  }

  function Expected(mac: Mac, secret: seq<byte>, timestamp: int, payload: seq<byte>): string {
    HexLower(mac(SignedPayload(timestamp, payload), secret))
  }

  function Verify(mac: Mac, payload: seq<byte>, header: string, secret: seq<byte>, now: int, tolerance: nat): Verdict {
    var scan := ScanParts(Parts(header));
    if scan.None? || scan.value.timestamp.None? || scan.value.signatures == [] then Malformed
    else
      var t := scan.value.timestamp.value;
      if Drift(now, t) > Cap(tolerance) then OutsideTolerance
      else if exists s :: s in scan.value.signatures && EqIgnoreCase(s, Expected(mac, secret, t, payload)) then Accepted
      else Mismatch
  }

  method VerifySignature(mac: Mac, payload: seq<byte>, header: string, secret: seq<byte>, now: int, tolerance: nat)
    returns (verdict: Verdict)
    ensures verdict == Verify(mac, payload, header, secret, now, tolerance)
  {
    hide EqIgnoreCase, HexLower, ParseI64, Drift, SignedPayload, Split, KeyOf, ValueOf;
    var parts := Parts(header);
    var timestamp: Option<int>, signatures: seq<string> := None, [];
    for i := 0 to |parts|
      invariant ScanParts(parts[..i]) == Some(Scan(timestamp, signatures))
    {
      var part := parts[i];
      assert parts[..i + 1][..i] == parts[..i];
      if '=' !in part {
        ScanStops(parts, i + 1);
        return Malformed;
      }
      if IsTimestamp(part) {
        timestamp := ParseI64(ValueOf(part));
      } else if IsSignature(part) {
        signatures := signatures + [ValueOf(part)];
      }
    }
    assert parts[..|parts|] == parts;
    if timestamp.None? || signatures == [] { return Malformed; }
    if Drift(now, timestamp.value) > Cap(tolerance) { return OutsideTolerance; }
    var expected := HexLowerLoop(mac(SignedPayload(timestamp.value, payload), secret));
    for i := 0 to |signatures|
      invariant forall k :: 0 <= k < i ==> !EqIgnoreCase(signatures[k], expected)
    {
      var equal := ConstantTimeEq(signatures[i], expected);
      if equal {
        assert signatures[i] in signatures;
        return Accepted;
      }
    }
    verdict := Mismatch;
  }

  lemma {:induction false} ScanStops(parts: seq<string>, i: nat)
    requires i <= |parts| && ScanParts(parts[..i]).None?
    ensures ScanParts(parts).None?
    decreases |parts| - i
  {
    if i == |parts| {
      assert parts[..i] == parts;
    } else {
      assert parts[..i + 1][..i] == parts[..i];
      ScanStops(parts, i + 1);
    }
  }

  // ---------------------------------------------------------- what is accepted, exactly

  /** The decisive timestamp part: no later part has the key `t`. */
  ghost predicate LastTimestamp(parts: seq<string>, i: int) {
    0 <= i < |parts| && IsTimestamp(parts[i]) && forall k :: i < k < |parts| ==> !IsTimestamp(parts[k])
  }

  /** The last `t` part parses to `t`; an earlier one does not matter, even if only the earlier one parses. */
  ghost predicate SaysTimestamp(parts: seq<string>, t: int) {
    exists i :: LastTimestamp(parts, i) && ParseI64(ValueOf(parts[i])) == Some(t)
  }

  ghost predicate Offers(parts: seq<string>, signature: string) {
    exists j :: 0 <= j < |parts| && IsSignature(parts[j]) && ValueOf(parts[j]) == signature
  }

  ghost predicate AllPairs(parts: seq<string>) { forall i :: 0 <= i < |parts| ==> '=' in parts[i] }

  lemma {:induction false} ScanNeedsPairs(parts: seq<string>)
    ensures ScanParts(parts).Some? <==> AllPairs(parts)
    decreases |parts|
  {
    hide IsTimestamp, IsSignature, ParseI64, ValueOf;
    if parts != [] {
      var n := |parts| - 1;
      ScanNeedsPairs(parts[..n]);
      if AllPairs(parts[..n]) && '=' in parts[n] {
        forall i | 0 <= i < |parts| ensures '=' in parts[i] { if i < n { assert parts[i] == parts[..n][i]; } }
      }
    }
  }

  lemma {:induction false} ScanCollects(parts: seq<string>, s: string)
    requires ScanParts(parts).Some?
    ensures s in ScanParts(parts).value.signatures <==> Offers(parts, s)
    decreases |parts|
  {
    hide ParseI64, ValueOf, KeyOf;
    if parts != [] {
      var n := |parts| - 1;
      ScanCollects(parts[..n], s);
      OffersSnoc(parts, s);
      assert IsTimestamp(parts[n]) ==> !IsSignature(parts[n]);
    }
  }

  lemma OffersSnoc(parts: seq<string>, s: string)
    requires parts != []
    ensures var n := |parts| - 1;
            Offers(parts, s) <==> Offers(parts[..n], s) || (IsSignature(parts[n]) && ValueOf(parts[n]) == s)
  {
    hide IsSignature, ValueOf;
    var n := |parts| - 1;
    if Offers(parts[..n], s) {
      var j :| 0 <= j < n && IsSignature(parts[..n][j]) && ValueOf(parts[..n][j]) == s;
      assert parts[j] == parts[..n][j];
    }
    if Offers(parts, s) {
      var j :| 0 <= j < |parts| && IsSignature(parts[j]) && ValueOf(parts[j]) == s;
      if j < n { assert parts[j] == parts[..n][j]; }
    }
  }

  lemma {:induction false} ScanKeepsTheLastTimestamp(parts: seq<string>, t: int)
    requires ScanParts(parts).Some?
    ensures ScanParts(parts).value.timestamp == Some(t) <==> SaysTimestamp(parts, t)
    decreases |parts|
  {
    hide ParseI64, ValueOf, KeyOf;
    if parts != [] {
      var n := |parts| - 1;
      ScanKeepsTheLastTimestamp(parts[..n], t);
      SaysSnoc(parts, t);
    }
  }

  lemma SaysSnoc(parts: seq<string>, t: int)
    requires parts != []
    ensures var n := |parts| - 1;
            SaysTimestamp(parts, t) <==>
              if IsTimestamp(parts[n]) then ParseI64(ValueOf(parts[n])) == Some(t) else SaysTimestamp(parts[..n], t)
  {
    hide ParseI64, ValueOf, IsTimestamp;
    var n := |parts| - 1;
    if IsTimestamp(parts[n]) {
      assert LastTimestamp(parts, n);
      if SaysTimestamp(parts, t) {
        var i :| LastTimestamp(parts, i) && ParseI64(ValueOf(parts[i])) == Some(t);
        assert i == n;
      }
    } else {
      if SaysTimestamp(parts, t) {
        var i :| LastTimestamp(parts, i) && ParseI64(ValueOf(parts[i])) == Some(t);
        assert LastTimestamp(parts[..n], i);
      }
      if SaysTimestamp(parts[..n], t) {
        var i :| LastTimestamp(parts[..n], i) && ParseI64(ValueOf(parts[..n][i])) == Some(t);
        assert LastTimestamp(parts, i);
      }
    }
  }

  // ------------------------------------------------------------- what is signed, exactly

  /**
    The bytes a sender signs for a time and a payload: the time spelled in
    decimal, a dot, the payload.
   */
  ghost predicate Signs(bytes: seq<byte>, t: int, payload: seq<byte>) {
    exists s :: Spelling(s) && ParseI64(s) == Some(t) && bytes == Ascii(s) + [46] + payload
  }

  /** There is exactly one such byte sequence for every time, and it is what the check hashes. */
  lemma SignsIs(bytes: seq<byte>, t: int, payload: seq<byte>)
    ensures Signs(bytes, t, payload) <==> I64(t) && bytes == SignedPayload(t, payload)
  {
    hide Spelling, ParseI64, ShowI64;
    if I64(t) && bytes == SignedPayload(t, payload) {
      ShowIsTheSpelling(ShowI64(t), t);
    }
    if Signs(bytes, t, payload) {
      var s :| Spelling(s) && ParseI64(s) == Some(t) && bytes == Ascii(s) + [46] + payload;
      ShowIsTheSpelling(s, t);
    }
  }

  /** The time ends at the first dot, so nothing can move between the time and the payload. */
  lemma SignsIsInjective(bytes: seq<byte>, t: int, payload: seq<byte>, u: int, other: seq<byte>)
    requires Signs(bytes, t, payload) && Signs(bytes, u, other)
    ensures t == u && payload == other
  {
    hide Spelling, ParseI64, ShowI64;
    var r :| Spelling(r) && ParseI64(r) == Some(t) && bytes == Ascii(r) + [46] + payload;
    var s :| Spelling(s) && ParseI64(s) == Some(u) && bytes == Ascii(s) + [46] + other;
    NoDotInside(r, t);
    NoDotInside(s, u);
    assert bytes[|r|] == 46 && bytes[|s|] == 46;
    assert forall i :: 0 <= i < |r| ==> bytes[i] == Ascii(r)[i];
    assert forall i :: 0 <= i < |s| ==> bytes[i] == Ascii(s)[i];
    assert Ascii(r) == bytes[..|r|] == Ascii(s);
    SameAscii(r, s);
    assert payload == bytes[|r| + 1..] == other;
  }

  ghost predicate Low(s: string) { forall i :: 0 <= i < |s| ==> s[i] as int < 256 && s[i] != '.' }

  lemma NoDotInside(s: string, t: int)
    requires Spelling(s) && ParseI64(s) == Some(t)
    ensures Low(s) && forall i :: 0 <= i < |s| ==> Ascii(s)[i] != 46
  {
    hide Spelling, ParseI64, ShowI64;
    ShowIsTheSpelling(s, t);
    ShowChars(t);
  }

  lemma SameAscii(r: string, s: string)
    requires Low(r) && Low(s) && Ascii(r) == Ascii(s)
    ensures r == s
  {
    forall i | 0 <= i < |r| ensures r[i] == s[i] {
      assert Ascii(r)[i] == Ascii(s)[i];
    }
  }

  function Nibble(c: char): Option<nat> {
    if '0' <= c <= '9' then Some(c as int - '0' as int)
    else if 'a' <= c <= 'f' then Some(c as int - 'a' as int + 10)
    else if 'A' <= c <= 'F' then Some(c as int - 'A' as int + 10)
    else None
  }

  /** Hexadecimal text as bytes: two digits of either case for each, the high half first. */
  function HexDecode(s: string): Option<seq<int>> {
    if s == [] then Some([])
    else if |s| == 1 then None
    else
      var n := |s| - 2;
      var before, high, low := HexDecode(s[..n]), Nibble(s[n]), Nibble(s[n + 1]);
      if before.None? || high.None? || low.None? then None else Some(before.value + [16 * high.value + low.value])
  }

  lemma NibbleIs(c: char, d: nat)
    requires d < 16
    ensures Lower(c) == Lower(DigitChar(d)) <==> Nibble(c) == Some(d)
  {
  }

  /** A text is equal to the printed bytes, ignoring letter case, if and only if it reads as them. */
  lemma {:induction false} EqualIffItReads(s: string, bytes: seq<byte>)
    ensures EqIgnoreCase(s, HexLower(bytes)) <==> HexDecode(s) == Some(bytes)
    decreases |bytes|
  {
    hide EqIgnoreCase, Nibble;
    if bytes == [] {
      EqIgnoreCaseEmpty(s);
    } else {
      var k := |bytes| - 1;
      var b := bytes[k];
      PaddedByte(b);
      var hex, pair := HexLower(bytes[..k]), [DigitChar(b / 16), DigitChar(b % 16)];
      if |s| < 2 {
        EqIgnoreCaseLength(s, hex + pair);
      } else {
        var n := |s| - 2;
        EqualIffItReads(s[..n], bytes[..k]);
        EqIgnoreCaseSplit(s, hex, b / 16, b % 16);
        DecodeSnoc(s, bytes);
      }
    }
  }

  lemma EqIgnoreCaseEmpty(s: string)
    ensures EqIgnoreCase(s, []) <==> s == []
  {
  }

  lemma EqIgnoreCaseLength(a: string, b: string)
    ensures EqIgnoreCase(a, b) ==> |a| == |b|
  {
  }

  lemma EqIgnoreCaseSplit(s: string, hex: string, high: nat, low: nat)
    requires |s| >= 2 && high < 16 && low < 16
    ensures var n := |s| - 2;
            EqIgnoreCase(s, hex + [DigitChar(high), DigitChar(low)]) <==>
              EqIgnoreCase(s[..n], hex) && Nibble(s[n]) == Some(high) && Nibble(s[n + 1]) == Some(low)
  {
    hide Nibble, Lower, DigitChar;
    var n, text := |s| - 2, hex + [DigitChar(high), DigitChar(low)];
    NibbleIs(s[n], high);
    NibbleIs(s[n + 1], low);
    if |hex| == n {
      assert text[n] == DigitChar(high) && text[n + 1] == DigitChar(low);
      if EqIgnoreCase(s, text) {
        forall i | 0 <= i < n ensures Lower(s[..n][i]) == Lower(hex[i]) { assert s[i] == s[..n][i] && text[i] == hex[i]; }
      }
      if EqIgnoreCase(s[..n], hex) && Lower(s[n]) == Lower(text[n]) && Lower(s[n + 1]) == Lower(text[n + 1]) {
        forall i | 0 <= i < |s| ensures Lower(s[i]) == Lower(text[i]) {
          if i < n { assert s[i] == s[..n][i] && text[i] == hex[i]; }
        }
      }
    }
  }

  lemma NibbleRange(c: char)
    ensures Nibble(c).Some? ==> Nibble(c).value < 16
  {
  }

  lemma DecodeSnoc(s: string, bytes: seq<byte>)
    requires |s| >= 2 && bytes != []
    ensures var n, k := |s| - 2, |bytes| - 1;
            HexDecode(s) == Some(bytes) <==>
              HexDecode(s[..n]) == Some(bytes[..k])
              && Nibble(s[n]) == Some(bytes[k] / 16) && Nibble(s[n + 1]) == Some(bytes[k] % 16)
  {
    hide Nibble, HexDecode;
    var n, k := |s| - 2, |bytes| - 1;
    DecodeLast(s);
    NibbleRange(s[n]);
    NibbleRange(s[n + 1]);
    var before, high, low := HexDecode(s[..n]), Nibble(s[n]), Nibble(s[n + 1]);
    if before.Some? && high.Some? && low.Some? {
      SnocIs(before.value, 16 * high.value + low.value, bytes);
      Halves(bytes[k], high.value, low.value);
    }
  }

  lemma DecodeLast(s: string)
    requires |s| >= 2
    ensures var n := |s| - 2;
            var before, high, low := HexDecode(s[..n]), Nibble(s[n]), Nibble(s[n + 1]);
            HexDecode(s) ==
              if before.None? || high.None? || low.None? then None else Some(before.value + [16 * high.value + low.value])
  {
    hide Nibble;
  }

  lemma SnocIs(a: seq<int>, x: int, s: seq<int>)
    requires s != []
    ensures a + [x] == s <==> a == s[..|s| - 1] && x == s[|s| - 1]
  {
    assert s == s[..|s| - 1] + [s[|s| - 1]];
    if a + [x] == s { assert a == (a + [x])[..|a|]; }
  }

  lemma Halves(b: nat, high: nat, low: nat)
    requires b < 256 && high < 16 && low < 16
    ensures 16 * high + low == b <==> high == b / 16 && low == b % 16
  {
  }

  const TWO_63: int := 0x8000_0000_0000_0000
  const TWO_64: int := 0x1_0000_0000_0000_0000

  /** How far apart two times are, in unbounded arithmetic. */
  ghost function Apart(now: int, timestamp: int): nat {
    if now < timestamp then timestamp - now else now - timestamp
  }

  /** The subtraction overflows, or its result has no absolute value. */
  ghost predicate Overflows(now: int, timestamp: int) { !(0 - TWO_63 < now - timestamp < TWO_63) }

  /**
    The times are so far apart that the wrapped distance is within the tolerance:
    exactly 2^63 seconds, or within the tolerance of 2^64.
   */
  ghost predicate WrapsIntoTolerance(now: int, timestamp: int, tolerance: nat) {
    Overflows(now, timestamp) && (Apart(now, timestamp) == TWO_63 || TWO_64 - Apart(now, timestamp) <= tolerance)
  }

  ghost predicate InTime(now: int, timestamp: int, tolerance: nat) {
    Apart(now, timestamp) <= tolerance || WrapsIntoTolerance(now, timestamp, tolerance)
  }

  lemma WrappedDistance(now: int, timestamp: int)
    requires I64(now) && I64(timestamp)
    ensures Drift(now, timestamp) ==
      if !Overflows(now, timestamp) then Apart(now, timestamp)
      else if Apart(now, timestamp) == TWO_63 then I64_MIN
      else TWO_64 - Apart(now, timestamp)
  {
    var d := now - timestamp;
    if d > I64_MAX {
      assert Wrap(d) == d - TWO_64 && d <= TWO_64 - 1;
    } else if d < I64_MIN {
      assert Wrap(d) == d + TWO_64 && d >= 1 - TWO_64;
    }
  }

  /** The check refuses a timestamp if and only if it is too far away and does not wrap into the tolerance. */
  lemma DriftIsDistance(now: int, timestamp: int, tolerance: nat)
    requires I64(now) && I64(timestamp)
    ensures Drift(now, timestamp) > Cap(tolerance) <==> !InTime(now, timestamp, tolerance)
  {
    hide Drift;
    WrappedDistance(now, timestamp);
    assert Overflows(now, timestamp) ==> TWO_63 <= Apart(now, timestamp) < TWO_64;
  }

  /** The two ends of the range are one second apart to the wrapping check. */
  lemma WrappedDriftIsSmall()
    ensures Drift(I64_MAX, I64_MIN) == 1 && Apart(I64_MAX, I64_MIN) == TWO_64 - 1
  {
  }

  /** Some offered text reads as the MAC of the bytes to be signed. */
  ghost predicate Matches(mac: Mac, parts: seq<string>, secret: seq<byte>, t: int, payload: seq<byte>) {
    exists text, bytes :: Offers(parts, text) && Signs(bytes, t, payload) && HexDecode(text) == Some(mac(bytes, secret))
  }

  ghost predicate WellFormed(parts: seq<string>) {
    AllPairs(parts) && (exists s :: Offers(parts, s)) && (exists t :: SaysTimestamp(parts, t))
  }

  lemma WellFormedIs(parts: seq<string>)
    ensures WellFormed(parts) <==>
              var scan := ScanParts(parts); scan.Some? && scan.value.timestamp.Some? && scan.value.signatures != []
  {
    hide AllPairs, Offers, SaysTimestamp, ScanParts;
    ScanNeedsPairs(parts);
    var scan := ScanParts(parts);
    if scan.Some? {
      forall s ensures s in scan.value.signatures <==> Offers(parts, s) { ScanCollects(parts, s); }
      forall t ensures scan.value.timestamp == Some(t) <==> SaysTimestamp(parts, t) { ScanKeepsTheLastTimestamp(parts, t); }
      if scan.value.timestamp.Some? { assert SaysTimestamp(parts, scan.value.timestamp.value); }
      if scan.value.signatures != [] { assert Offers(parts, scan.value.signatures[0]); }
    }
  }

  /** Malformed headers, and only those, are rejected as malformed. */
  lemma MalformedIff(mac: Mac, payload: seq<byte>, header: string, secret: seq<byte>, now: int, tolerance: nat)
    ensures Verify(mac, payload, header, secret, now, tolerance) == Malformed <==> !WellFormed(Parts(header))
  {
    hide WellFormed, ScanParts, Parts, Expected, EqIgnoreCase, Drift;
    WellFormedIs(Parts(header));
  }

  /**
    A well-formed header is accepted if and only if its last timestamp is within
    tolerance, or wraps into it, and some `v1` value reads as the MAC of the bytes
    signed for that time and this payload.
   */
  lemma AcceptedIff(mac: Mac, payload: seq<byte>, header: string, secret: seq<byte>, now: int, tolerance: nat, t: int)
    requires WellFormed(Parts(header)) && SaysTimestamp(Parts(header), t) && I64(now)
    ensures Verify(mac, payload, header, secret, now, tolerance) ==
      if !InTime(now, t, tolerance) then OutsideTolerance
      else if Matches(mac, Parts(header), secret, t, payload) then Accepted
      else Mismatch
  {
    hide WellFormed, ScanParts, Parts, Expected, EqIgnoreCase, Offers, SaysTimestamp, Drift, InTime;
    var parts := Parts(header);
    WellFormedIs(parts);
    ScanKeepsTheLastTimestamp(parts, t);
    TimestampFits(parts, t);
    DriftIsDistance(now, t, tolerance);
    forall s ensures s in ScanParts(parts).value.signatures <==> Offers(parts, s) { ScanCollects(parts, s); }
    MatchesIs(mac, parts, secret, t, payload);
  }

  lemma MatchesIs(mac: Mac, parts: seq<string>, secret: seq<byte>, t: int, payload: seq<byte>)
    requires I64(t)
    ensures Matches(mac, parts, secret, t, payload) <==>
              exists s :: Offers(parts, s) && EqIgnoreCase(s, Expected(mac, secret, t, payload))
  {
    hide Offers, EqIgnoreCase, HexDecode, HexLower, Signs, SignedPayload;
    var bytes := SignedPayload(t, payload);
    SignsIs(bytes, t, payload);
    forall s ensures EqIgnoreCase(s, Expected(mac, secret, t, payload)) <==> HexDecode(s) == Some(mac(bytes, secret)) {
      EqualIffItReads(s, mac(bytes, secret));
    }
    if Matches(mac, parts, secret, t, payload) {
      var s, other :| Offers(parts, s) && Signs(other, t, payload) && HexDecode(s) == Some(mac(other, secret));
      SignsIs(other, t, payload);
    }
  }

  lemma TimestampFits(parts: seq<string>, t: int)
    requires SaysTimestamp(parts, t)
    ensures I64(t)
  {
    hide IsTimestamp, ValueOf, Value;
    var i :| LastTimestamp(parts, i) && ParseI64(ValueOf(parts[i])) == Some(t);
  }

  // --------------------------------------------------------------- signed headers verify

  /** One `key=value` part with white space around the key and the value. */
  function SpacedPart(key: string, value: string, pad: string): string {
    pad + key + pad + ['='] + (pad + value + pad)
  }

  /** A header as a sender builds it: the time, then the MAC in hexadecimal. */
  function Header(time: string, hex: string, pad: string): string {
    SpacedPart("t", time, pad) + [','] + SpacedPart("v1", hex, pad)
  }

  predicate NoSeparator(s: string) { '=' !in s && ',' !in s }

  lemma PartReadsBack(key: string, value: string, pad: string)
    requires Trimmed(key) && Trimmed(value) && Blank(pad) && NoSeparator(key) && ',' !in value
    ensures var part := SpacedPart(key, value, pad);
            '=' in part && ',' !in part && KeyOf(part) == key && ValueOf(part) == value
  {
    hide WhiteSpace, Trim, FirstPiece;
    var front, back := pad + key + pad, pad + value + pad;
    BlankHasNone(pad);
    FirstPieceOf(front, '=', back);
    TrimIs(pad, key, pad);
    TrimIs(pad, value, pad);
    assert SpacedPart(key, value, pad)[|front|] == '=';
  }

  lemma BlankHasNone(pad: string)
    requires Blank(pad)
    ensures NoSeparator(pad)
  {
    forall i | 0 <= i < |pad| ensures pad[i] != '=' && pad[i] != ',' { assert WhiteSpace(pad[i]); }
  }

  /** A number that parses has no separators and no white space at its ends. */
  lemma NumberIsPlain(time: string)
    requires ParseI64(time).Some?
    ensures ',' !in time && Trimmed(time)
  {
    hide Value;
    var n := |time| - 1;
    var digits := if time[0] == '-' || time[0] == '+' then time[1..] else time;
    assert IsDecimalDigit(time[n]) by { assert time[n] == digits[|digits| - 1]; }
    forall i | 0 <= i < |time| ensures time[i] != ',' {
      if i > 0 { assert time[i] == digits[i - |time| + |digits|]; } else if digits == time { assert time[0] == digits[0]; }
    }
  }

  predicate IsNibble(c: char) { Nibble(c).Some? }

  lemma {:induction false} HexHasDigitsOnly(s: string)
    requires HexDecode(s).Some?
    ensures forall i :: 0 <= i < |s| ==> IsNibble(s[i])
    decreases |s|
  {
    hide Nibble;
    if s != [] {
      var n := |s| - 2;
      HexHasDigitsOnly(s[..n]);
      forall i | 0 <= i < |s| ensures IsNibble(s[i]) {
        if i < n { assert s[i] == s[..n][i]; }
      }
    }
  }

  lemma HexIsPlain(s: string)
    requires HexDecode(s).Some?
    ensures ',' !in s && Trimmed(s)
  {
    HexHasDigitsOnly(s);
    hide HexDecode;
    forall i | 0 <= i < |s| ensures s[i] != ',' && !WhiteSpace(s[i]) { assert IsNibble(s[i]); }
  }

  lemma {:induction false} HeaderParts(time: string, hex: string, pad: string)
    requires ParseI64(time).Some? && HexDecode(hex).Some? && Blank(pad)
    ensures var a, b := SpacedPart("t", time, pad), SpacedPart("v1", hex, pad);
            && Parts(Header(time, hex, pad)) == [a, b] && AllPairs([a, b])
            && KeyOf(a) == "t" && ValueOf(a) == time && KeyOf(b) == "v1" && ValueOf(b) == hex
  {
    hide ParseI64, HexDecode, Split, KeyOf, ValueOf, SpacedPart, Trimmed;
    var a, b := SpacedPart("t", time, pad), SpacedPart("v1", hex, pad);
    NumberIsPlain(time);
    HexIsPlain(hex);
    KeysArePlain();
    PartReadsBack("t", time, pad);
    PartReadsBack("v1", hex, pad);
    SplitJoin([a, b], ',');
    JoinTwo(a, b);
  }

  lemma KeysArePlain()
    ensures Trimmed("t") && Trimmed("v1") && NoSeparator("t") && NoSeparator("v1")
  {
  }

  lemma JoinTwo(a: string, b: string)
    ensures Join([a, b], ',') == a + [','] + b
  {
    assert [a, b][1..] == [b];
  }

  /** What such a header says: one time and one signature. */
  lemma HeaderSays(time: string, hex: string, pad: string, t: int)
    requires ParseI64(time) == Some(t) && HexDecode(hex).Some? && Blank(pad)
    ensures var parts := Parts(Header(time, hex, pad));
            && WellFormed(parts) && SaysTimestamp(parts, t) && forall s :: Offers(parts, s) <==> s == hex
  {
    hide ParseI64, HexDecode, Parts, KeyOf, ValueOf, SpacedPart, Header;
    HeaderParts(time, hex, pad);
    var a, b := SpacedPart("t", time, pad), SpacedPart("v1", hex, pad);
    assert LastTimestamp([a, b], 0);
    assert SaysTimestamp([a, b], t);
    assert IsSignature([a, b][1]) && !IsSignature([a, b][0]);
    assert Offers([a, b], hex);
  }

  /**
    A header verifies within the tolerance when its text reads as the MAC of the
    bytes signed for its time and the payload, and only then.
   */
  lemma HeaderVerifiesIff(mac: Mac, payload: seq<byte>, secret: seq<byte>, time: string, hex: string, pad: string,
                          t: int, bytes: seq<byte>, now: int, tolerance: nat)
    requires ParseI64(time) == Some(t) && Signs(bytes, t, payload) && HexDecode(hex).Some? && Blank(pad)
    requires I64(now) && InTime(now, t, tolerance)
    ensures Verify(mac, payload, Header(time, hex, pad), secret, now, tolerance) ==
            if HexDecode(hex) == Some(mac(bytes, secret)) then Accepted else Mismatch
  {
    hide ParseI64, HexDecode, Parts, Verify, Header, Blank, WellFormed, SaysTimestamp, Offers, Signs, InTime;
    HeaderSays(time, hex, pad, t);
    AcceptedIff(mac, payload, Header(time, hex, pad), secret, now, tolerance, t);
    assert forall other :: Signs(other, t, payload) ==> other == bytes by {
      SignsIs(bytes, t, payload);
      forall other | Signs(other, t, payload) ensures other == bytes { SignsIs(other, t, payload); }
    }
  }

  /**
    Every header a sender signs is accepted within the tolerance, however the time
    is written, in either case of the digits and with any white space.
   */
  lemma SignedHeaderVerifies(mac: Mac, payload: seq<byte>, secret: seq<byte>, time: string, hex: string, pad: string,
                             t: int, bytes: seq<byte>, now: int, tolerance: nat)
    requires ParseI64(time) == Some(t) && Signs(bytes, t, payload) && HexDecode(hex) == Some(mac(bytes, secret)) && Blank(pad)
    requires I64(now) && InTime(now, t, tolerance)
    ensures Verify(mac, payload, Header(time, hex, pad), secret, now, tolerance) == Accepted
  {
    hide ParseI64, HexDecode, Verify, Header, Blank, Signs, InTime;
    HeaderVerifiesIff(mac, payload, secret, time, hex, pad, t, bytes, now, tolerance);
  }

  /**
    With a MAC that never collides, a signature made for one time and payload
    passes for no other: neither a fresh time nor another body can be put under it.
   */
  lemma TamperedIsMismatch(mac: Mac, payload: seq<byte>, secret: seq<byte>, time: string, hex: string, pad: string,
                           t: int, u: int, signed: seq<byte>, bytes: seq<byte>, now: int, tolerance: nat)
    requires forall x, y :: mac(x, secret) == mac(y, secret) ==> x == y
    requires Signs(bytes, u, signed) && HexDecode(hex) == Some(mac(bytes, secret))
    requires ParseI64(time) == Some(t) && (t, payload) != (u, signed) && Blank(pad)
    requires I64(now) && InTime(now, t, tolerance)
    ensures Verify(mac, payload, Header(time, hex, pad), secret, now, tolerance) == Mismatch
  {
    hide HexDecode, Verify, Header, Blank, Signs, ShowI64, Value, InTime;
    var offered := SignedPayload(t, payload);
    SignsIs(offered, t, payload);
    if mac(offered, secret) == mac(bytes, secret) {
      SignsIsInjective(bytes, t, payload, u, signed);
      assert false;
    }
    HeaderVerifiesIff(mac, payload, secret, time, hex, pad, t, offered, now, tolerance);
  }
}
