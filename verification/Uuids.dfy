/** Identifiers and their hyphenated spelling. */
module Uuids {
  import opened Numerals

  type Uuid = nat

  /** The hyphenated form of a UUID: 8-4-4-4-12 hexadecimal digits. */
  function UuidText(id: Uuid): string {
    var h := Padded(id, 16, 32);
    h[..8] + "-" + h[8..12] + "-" + h[12..16] + "-" + h[16..20] + "-" + h[20..]
  }

  lemma UuidTextIsInjective(a: Uuid, b: Uuid)
    requires UuidText(a) == UuidText(b)
    ensures a == b
  {
    hide Padded;
    var g, h := Padded(a, 16, 32), Padded(b, 16, 32);
    Unhyphenate(g);
    Unhyphenate(h);
    PaddedIsInjective(a, b, 16, 32);
  }

  lemma Unhyphenate(h: string)
    requires |h| >= 32
    ensures var t := h[..8] + "-" + h[8..12] + "-" + h[12..16] + "-" + h[16..20] + "-" + h[20..];
            h == t[..8] + t[9..13] + t[14..18] + t[19..23] + t[24..]
  {
    var t := h[..8] + "-" + h[8..12] + "-" + h[12..16] + "-" + h[16..20] + "-" + h[20..];
    assert t[..8] == h[..8] && t[9..13] == h[8..12] && t[14..18] == h[12..16];
    assert t[19..23] == h[16..20] && t[24..] == h[20..];
    assert h == h[..8] + h[8..12] + h[12..16] + h[16..20] + h[20..];
  }

  /** Hexadecimal digits and hyphens only. */
  lemma UuidTextChars(id: Uuid)
    ensures forall i :: 0 <= i < |UuidText(id)| ==> IsHexDigit(UuidText(id)[i]) || UuidText(id)[i] == '-'
  {
    hide Padded;
    PaddedChars(id, 32);
  }

  /** The hyphens stand behind digits 8, 12, 16 and 20, and the digits without them read as the identifier. */
  lemma UuidTextReadsBack(id: Uuid)
    ensures var t := UuidText(id);
            && |t| >= 36 && t[8] == t[13] == t[18] == t[23] == '-'
            && Value(t[..8] + t[9..13] + t[14..18] + t[19..23] + t[24..], 16) == id
            && (id < Power(16, 32) ==> |t| == 36)
  {
    hide Padded, Value;
    Unhyphenate(Padded(id, 16, 32));
    ValueOfPadded(id, 16, 32);
    if id < Power(16, 32) { PaddedLength(id, 16, 32); }
  }
}
