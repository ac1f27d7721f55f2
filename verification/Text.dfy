/** The string operations the programs share. */
module Text {
  type byte = x: int | 0 <= x < 256

  /** Every occurrence of one character replaced by a string. */
  function ReplaceChar(s: string, c: char, text: string): string {
    if s == [] then [] else (if s[0] == c then text else [s[0]]) + ReplaceChar(s[1..], c, text)
  }

  lemma {:induction false} ReplaceAppend(a: string, b: string, c: char, text: string)
    ensures ReplaceChar(a + b, c, text) == ReplaceChar(a, c, text) + ReplaceChar(b, c, text)
    decreases |a|
  {
    if a == [] {
      assert a + b == b;
    } else {
      assert (a + b)[1..] == a[1..] + b;
      ReplaceAppend(a[1..], b, c, text);
    }
  }

  function Join(parts: seq<string>, separator: char): string {
    if parts == [] then []
    else if |parts| == 1 then parts[0]
    else parts[0] + [separator] + Join(parts[1..], separator)
  }

  /** The piece before the first separator, and what follows it. */
  function FirstPiece(s: string, separator: char): (r: (string, string, bool))
    ensures r.2 <==> separator in s
    ensures r.2 ==> s == r.0 + [separator] + r.1
    ensures !r.2 ==> r.0 == s && r.1 == []
    ensures separator !in r.0
    ensures |r.1| <= |s| && (r.2 ==> |r.1| < |s|)
  {
    if s == [] then ([], [], false)
    else if s[0] == separator then ([], s[1..], true)
    else
      var (head, tail, found) := FirstPiece(s[1..], separator);
      ([s[0]] + head, tail, found)
  }

  /** `str::split` on a character: at least one piece, possibly empty ones. */
  function Split(s: string, separator: char): (pieces: seq<string>)
    ensures |pieces| >= 1
    ensures forall i :: 0 <= i < |pieces| ==> separator !in pieces[i]
    decreases |s|
  {
    var (head, tail, found) := FirstPiece(s, separator);
    if found then [head] + Split(tail, separator) else [s]
  }

  lemma {:induction false} FirstPieceOf(head: string, separator: char, tail: string)
    requires separator !in head
    ensures FirstPiece(head + [separator] + tail, separator) == (head, tail, true)
    decreases |head|
  {
    var s := head + [separator] + tail;
    if head != [] {
      assert s[0] == head[0] && s[1..] == head[1..] + [separator] + tail;
      FirstPieceOf(head[1..], separator, tail);
      assert [head[0]] + head[1..] == head;
    }
  }

  /** Splitting undoes joining. */
  lemma {:induction false} SplitJoin(parts: seq<string>, separator: char)
    requires parts != [] && forall i :: 0 <= i < |parts| ==> separator !in parts[i]
    ensures Split(Join(parts, separator), separator) == parts
    decreases |parts|
  {
    if |parts| > 1 {
      FirstPieceOf(parts[0], separator, Join(parts[1..], separator));
      SplitJoin(parts[1..], separator);
    }
  }

  /** The characters `str::trim` removes: Unicode White_Space. */
  predicate WhiteSpace(c: char) {
    var n := c as int;
    || 9 <= n <= 13 || n == 0x20 || n == 0x85 || n == 0xA0 || n == 0x1680 || 0x2000 <= n <= 0x200A
    || n == 0x2028 || n == 0x2029 || n == 0x202F || n == 0x205F || n == 0x3000
  }

  function TrimStart(s: string): string {
    if s != [] && WhiteSpace(s[0]) then TrimStart(s[1..]) else s
  }

  function TrimEnd(s: string): string {
    if s != [] && WhiteSpace(s[|s| - 1]) then TrimEnd(s[..|s| - 1]) else s
  }

  function Trim(s: string): string { TrimEnd(TrimStart(s)) }

  lemma TrimNothing(s: string)
    requires forall i :: 0 <= i < |s| ==> !WhiteSpace(s[i])
    ensures Trim(s) == s
  {
  }

  predicate Blank(s: string) { forall i :: 0 <= i < |s| ==> WhiteSpace(s[i]) }

  /** Nothing to trim at either end. */
  predicate Trimmed(s: string) { s == [] || (!WhiteSpace(s[0]) && !WhiteSpace(s[|s| - 1])) }

  lemma {:induction false} TrimStartOf(a: string, s: string)
    requires Blank(a) && (s == [] || !WhiteSpace(s[0]))
    ensures TrimStart(a + s) == s
    decreases |a|
  {
    if a == [] {
      assert a + s == s;
    } else {
      assert (a + s)[1..] == a[1..] + s;
      TrimStartOf(a[1..], s);
    }
  }

  lemma {:induction false} TrimEndOf(s: string, b: string)
    requires Blank(b) && (s == [] || !WhiteSpace(s[|s| - 1]))
    ensures TrimEnd(s + b) == s
    decreases |b|
  {
    if b == [] {
      assert s + b == s;
    } else {
      var t := s + b;
      assert t[..|t| - 1] == s + b[..|b| - 1];
      TrimEndOf(s, b[..|b| - 1]);
    }
  }

  /** Trimming takes all white space from both ends and nothing else. */
  lemma TrimIs(a: string, s: string, b: string)
    requires Blank(a) && Blank(b) && Trimmed(s)
    ensures Trim(a + s + b) == s
  {
    hide TrimStart, TrimEnd;
    if s == [] {
      assert a + s + b == (a + b) + [];
      TrimStartOf(a + b, []);
      TrimEndOf([], []);
      assert [] + [] == s;
    } else {
      assert a + s + b == a + (s + b);
      TrimStartOf(a, s + b);
      TrimEndOf(s, b);
    }
  }

  lemma BlankCons(s: string)
    requires s != []
    ensures Blank(s) <==> WhiteSpace(s[0]) && Blank(s[1..])
  {
    hide WhiteSpace;
    if WhiteSpace(s[0]) && Blank(s[1..]) {
      forall i | 0 <= i < |s| ensures WhiteSpace(s[i]) {
        if i > 0 { assert s[i] == s[1..][i - 1]; }
      }
    }
  }

  lemma {:induction false} TrimEndEmptyIff(s: string)
    ensures TrimEnd(s) == [] <==> Blank(s)
    decreases |s|
  {
    hide WhiteSpace;
    if s != [] && WhiteSpace(s[|s| - 1]) {
      var n := |s| - 1;
      TrimEndEmptyIff(s[..n]);
      assert forall i :: 0 <= i < n ==> s[..n][i] == s[i];
    }
  }

  /** Trimming leaves nothing exactly when there is nothing but white space. */
  lemma {:induction false} TrimEmptyIff(s: string)
    ensures Trim(s) == [] <==> Blank(s)
    decreases |s|
  {
    hide WhiteSpace, TrimEnd, Blank;
    TrimEndEmptyIff(s);
    if s != [] && WhiteSpace(s[0]) {
      BlankCons(s);
      TrimEmptyIff(s[1..]);
    }
  }
}
