/**
  The text the metrics store exchanges with its backend: label values escaped
  for the Prometheus exposition format, sample lines, and PromQL selectors; and
  a reader for that text.
 */
module MetricsText {
  import opened Numerals
  import opened Text

  datatype Label = Label(name: string, value: string)

  /** A floating-point number as it is printed: it never holds a blank or a line break. */
  type Number = s: string | ' ' !in s && '\n' !in s

  /** A timestamp in milliseconds, a signed 64-bit integer. */
  type Millis = t: int | I64(t)

  datatype Sample = Sample(labels: seq<Label>, timestamp: Millis, value: Number)

  // -------------------------------------------------------------------- escaping

  /** Three replacements, one after the other. */
  function PromEscape(s: string): string {
    ReplaceChar(ReplaceChar(ReplaceChar(s, '\\', "\\\\"), '"', "\\\""), '\n', "\\n")
  }

  function EscapeChar(c: char): string {
    if c == '\\' then "\\\\" else if c == '"' then "\\\"" else if c == '\n' then "\\n" else [c]
  }

  /** All characters escaped at once. */
  function EscapeAll(s: string): string {
    if s == [] then [] else EscapeChar(s[0]) + EscapeAll(s[1..])
  }

  lemma PromEscapeAppend(a: string, b: string)
    ensures PromEscape(a + b) == PromEscape(a) + PromEscape(b)
  {
    hide ReplaceChar;
    ReplaceAppend(a, b, '\\', "\\\\");
    ReplaceAppend(ReplaceChar(a, '\\', "\\\\"), ReplaceChar(b, '\\', "\\\\"), '"', "\\\"");
    ReplaceAppend(ReplaceChar(ReplaceChar(a, '\\', "\\\\"), '"', "\\\""), ReplaceChar(ReplaceChar(b, '\\', "\\\\"), '"', "\\\""),
                  '\n', "\\n");
  }

  lemma ReplaceOne(c: char, d: char, text: string)
    ensures ReplaceChar([c], d, text) == if c == d then text else [c]
  {
    assert [c][1..] == [];
    assert ReplaceChar([c][1..], d, text) == [];
  }

  lemma ReplaceTwo(a: char, b: char, d: char, text: string)
    requires a != d && b != d
    ensures ReplaceChar([a, b], d, text) == [a, b]
  {
    ReplaceOne(b, d, text);
    assert [a, b][1..] == [b];
  }

  lemma PromEscapeOne(c: char)
    ensures PromEscape([c]) == EscapeChar(c)
  {
    hide ReplaceChar;
    ReplaceOne(c, '\\', "\\\\");
    ReplaceOne(c, '"', "\\\"");
    ReplaceOne(c, '\n', "\\n");
    ReplaceTwo('\\', '\\', '"', "\\\"");
    ReplaceTwo('\\', '\\', '\n', "\\n");
    ReplaceTwo('\\', '"', '\n', "\\n");
  }

  /** The chained replacements never touch each other's output. */
  lemma {:induction false} PromEscapeIsSimultaneous(s: string)
    ensures PromEscape(s) == EscapeAll(s)
    decreases |s|
  {
    hide PromEscape, EscapeChar;
    if s == [] {
      EscapeNothing();
    } else {
      assert s == [s[0]] + s[1..];
      PromEscapeAppend([s[0]], s[1..]);
      PromEscapeOne(s[0]);
      PromEscapeIsSimultaneous(s[1..]);
    }
  }

  lemma EscapeNothing()
    ensures PromEscape([]) == []
  {
  }

  // ---------------------------------------------------------------------- reading

  datatype Parsed<T> = Fail | Ok(value: T, rest: string)

  /** The inside of a quoted string, up to the closing quote. */
  function ReadQuoted(s: string): (p: Parsed<string>)
    ensures p.Ok? ==> |p.rest| < |s|
  {
    if s == [] || s[0] == '\n' then Fail
    else if s[0] == '"' then Ok([], s[1..])
    else if s[0] == '\\' then
      if |s| < 2 || (s[1] != '\\' && s[1] != '"' && s[1] != 'n') then Fail
      else
        var p := ReadQuoted(s[2..]);
        if p.Fail? then Fail else Ok([if s[1] == 'n' then '\n' else s[1]] + p.value, p.rest)
    else
      var p := ReadQuoted(s[1..]);
      if p.Fail? then Fail else Ok([s[0]] + p.value, p.rest)
  }

  lemma ReadOneEscaped(c: char, tail: string)
    ensures ReadQuoted(EscapeChar(c) + tail) ==
      if ReadQuoted(tail).Fail? then Fail else Ok([c] + ReadQuoted(tail).value, ReadQuoted(tail).rest)
  {
    var s := EscapeChar(c) + tail;
    if |EscapeChar(c)| == 2 {
      assert s[2..] == tail && s[0] == '\\' && s[1] == EscapeChar(c)[1];
    } else {
      assert s[1..] == tail;
    }
  }

  lemma {:induction false} ReadEscapedPrefix(v: string, end: string)
    requires ReadQuoted(end).Ok?
    ensures ReadQuoted(EscapeAll(v) + end) == Ok(v + ReadQuoted(end).value, ReadQuoted(end).rest)
    decreases |v|
  {
    hide ReadQuoted, EscapeChar;
    if v == [] {
      assert EscapeAll(v) + end == end;
      assert v + ReadQuoted(end).value == ReadQuoted(end).value;
    } else {
      var tail := EscapeAll(v[1..]) + end;
      ReadEscapedPrefix(v[1..], end);
      assert EscapeAll(v) + end == EscapeChar(v[0]) + tail;
      ReadOneEscaped(v[0], tail);
      assert [v[0]] + (v[1..] + ReadQuoted(end).value) == v + ReadQuoted(end).value;
    }
  }

  /** Reading undoes escaping. */
  lemma ReadQuotedEscaped(v: string, rest: string)
    ensures ReadQuoted(EscapeAll(v) + (['"'] + rest)) == Ok(v, rest)
  {
    var end := ['"'] + rest;
    assert end[1..] == rest;
    assert ReadQuoted(end) == Ok([], rest);
    hide ReadQuoted, EscapeAll;
    ReadEscapedPrefix(v, end);
    assert v + [] == v;
  }

  /** So the simultaneous escape has a left inverse, and escaping loses nothing. */
  lemma EscapeIsInjective(a: string, b: string)
    ensures PromEscape(a) == PromEscape(b) <==> a == b
  {
    hide PromEscape, EscapeAll, ReadQuoted;
    PromEscapeIsSimultaneous(a);
    PromEscapeIsSimultaneous(b);
    ReadQuotedEscaped(a, []);
    ReadQuotedEscaped(b, []);
  }

  predicate NameChar(c: char) { 'a' <= c <= 'z' || 'A' <= c <= 'Z' || '0' <= c <= '9' || c == '_' || c == ':' }

  /** A little wider than the exposition format, which allows no leading digit and no colon in a label name. */
  predicate NameOk(name: string) { name != [] && forall i :: 0 <= i < |name| ==> NameChar(name[i]) }

  function ReadName(s: string): (p: (string, string))
    ensures |p.1| <= |s|
  {
    if s == [] || !NameChar(s[0]) then ([], s)
    else
      var (name, rest) := ReadName(s[1..]);
      ([s[0]] + name, rest)
  }

  lemma {:induction false} ReadNameOf(name: string, rest: string)
    requires (forall i :: 0 <= i < |name| ==> NameChar(name[i])) && (rest == [] || !NameChar(rest[0]))
    ensures ReadName(name + rest) == (name, rest)
    decreases |name|
  {
    if name == [] {
      assert name + rest == rest;
    } else {
      assert (name + rest)[0] == name[0] && (name + rest)[1..] == name[1..] + rest;
      ReadNameOf(name[1..], rest);
      assert name == [name[0]] + name[1..];
    }
  }

  lemma {:induction false} ReadNameChars(s: string)
    ensures forall i :: 0 <= i < |ReadName(s).0| ==> NameChar(ReadName(s).0[i])
    decreases |s|
  {
    if s != [] && NameChar(s[0]) { ReadNameChars(s[1..]); }
  }

  predicate StartsWith(s: string, c: char) { s != [] && s[0] == c }

  /** `name="value"`. */
  function ReadPair(s: string): (p: Parsed<Label>)
    ensures p.Ok? ==> |p.rest| < |s|
  {
    var (name, t) := ReadName(s);
    if name == [] || |t| < 2 || t[0] != '=' || t[1] != '"' then Fail
    else
      var q := ReadQuoted(t[2..]);
      if q.Fail? then Fail else Ok(Label(name, q.value), q.rest)
  }

  /** One or more pairs separated by commas. */
  function ReadPairs(s: string): (p: Parsed<seq<Label>>)
    ensures p.Ok? ==> |p.rest| < |s|
    decreases |s|
  {
    var first := ReadPair(s);
    if first.Fail? then Fail
    else if !StartsWith(first.rest, ',') then Ok([first.value], first.rest)
    else
      var more := ReadPairs(first.rest[1..]);
      if more.Fail? then Fail else Ok([first.value] + more.value, more.rest)
  }

  // ---------------------------------------------------------------------- writing

  function Pair(l: Label): string { l.name + ['=', '"'] + PromEscape(l.value) + ['"'] }

  function Pairs(labels: seq<Label>): (parts: seq<string>)
    ensures |parts| == |labels| && forall i :: 0 <= i < |labels| ==> parts[i] == Pair(labels[i])
  {
    seq(|labels|, i requires 0 <= i < |labels| => Pair(labels[i]))
  }

  lemma ReadPairOf(l: Label, rest: string)
    requires NameOk(l.name)
    ensures ReadPair(Pair(l) + rest) == Ok(l, rest)
  {
    hide EscapeAll, ReadQuoted, ReadName, PromEscape;
    var escaped := EscapeAll(l.value);
    PromEscapeIsSimultaneous(l.value);
    var after := escaped + (['"'] + rest);
    var t := ['=', '"'] + after;
    assert Pair(l) + rest == l.name + t;
    ReadNameOf(l.name, t);
    assert t[2..] == after;
    ReadQuotedEscaped(l.value, rest);
  }

  ghost predicate NamesOk(labels: seq<Label>) { forall i :: 0 <= i < |labels| ==> NameOk(labels[i].name) }

  lemma {:induction false} ReadPairsOf(labels: seq<Label>, rest: string)
    requires labels != [] && NamesOk(labels) && !StartsWith(rest, ',')
    ensures ReadPairs(Join(Pairs(labels), ',') + rest) == Ok(labels, rest)
    decreases |labels|
  {
    hide Pair, ReadPair, NameOk;
    if |labels| == 1 {
      ReadPairOf(labels[0], rest);
      assert Join(Pairs(labels), ',') == Pair(labels[0]);
      assert labels == [labels[0]];
    } else {
      var tail := labels[1..];
      assert Pairs(labels)[1..] == Pairs(tail);
      var more := Join(Pairs(tail), ',') + rest;
      assert Join(Pairs(labels), ',') + rest == Pair(labels[0]) + ([','] + more);
      ReadPairOf(labels[0], [','] + more);
      assert ([','] + more)[1..] == more;
      ReadPairsOf(tail, rest);
      assert labels == [labels[0]] + tail;
    }
  }

  /** Whatever the text, the names that are read are well formed. */
  lemma {:induction false} ReadPairsNames(s: string)
    ensures ReadPairs(s).Ok? ==> NamesOk(ReadPairs(s).value)
    decreases |s|
  {
    hide ReadQuoted, ReadName, NameChar;
    ReadNameChars(s);
    var first := ReadPair(s);
    if first.Ok? && StartsWith(first.rest, ',') { ReadPairsNames(first.rest[1..]); }
  }
}
