/**
  Quoting of values that go into a remote command line, read back by the
  quoting rules of sections 2.2.1 and 2.2.2 of the POSIX Shell Command Language.
 */
module Shell {
  import opened Environment
  import opened Text

  function ShellEscape(value: string): string {
    "'" + ReplaceChar(value, '\'', "'\\''") + "'"
  }

  // ---------------------------------------------------------------------- reader

  datatype Mode = Between | InWord | InQuotes

  predicate Blank(c: char) { c == ' ' || c == '\t' }

  /** Characters the shell would act on when they stand outside quotes. */
  predicate Special(c: char) {
    || c == '|' || c == '&' || c == ';' || c == '<' || c == '>' || c == '(' || c == ')' || c == '$' || c == '`'
    || c == '"' || c == '*' || c == '?' || c == '[' || c == ']' || c == '#' || c == '~' || c == '=' || c == '%'
    || c == '!' || c == '{' || c == '}' || c == '\n'
  }

  /**
    Reads a command line into words. No result for an unfinished quote or for
    anything that is more than plain words.
   */
  function Read(s: string, mode: Mode, word: string, words: seq<string>): Option<seq<string>>
    decreases |s|
  {
    if s == [] then
      match mode
      case Between => Some(words)
      case InWord => Some(words + [word])
      case InQuotes => None
    else if mode.InQuotes? then
      if s[0] == '\'' then Read(s[1..], InWord, word, words) else Read(s[1..], InQuotes, word + [s[0]], words)
    else if s[0] == '\'' then Read(s[1..], InQuotes, word, words)
    else if s[0] == '\\' then
      if |s| == 1 then None
      else if s[1] == '\n' then Read(s[2..], mode, word, words)
      else Read(s[2..], InWord, word + [s[1]], words)
    else if Blank(s[0]) then
      if mode.Between? then Read(s[1..], Between, [], words) else Read(s[1..], Between, [], words + [word])
    else if Special(s[0]) then None
    else Read(s[1..], InWord, word + [s[0]], words)
  }

  function Words(command: string): Option<seq<string>> {
    Read(command, Between, [], [])
  }

  // ------------------------------------------------------------------ round trip

  /** Inside quotes, the escaped text up to the closing quote spells the value. */
  lemma {:induction false} ReadEscaped(value: string, rest: string, word: string, words: seq<string>)
    ensures Read(ReplaceChar(value, '\'', "'\\''") + "'" + rest, InQuotes, word, words)
         == Read(rest, InWord, word + value, words)
    decreases |value|
  {
    var s := ReplaceChar(value, '\'', "'\\''") + "'" + rest;
    if value == [] {
      assert s[1..] == rest;
      assert word + value == word;
    } else {
      var tail := ReplaceChar(value[1..], '\'', "'\\''") + "'" + rest;
      assert word + [value[0]] + value[1..] == word + value;
      if value[0] == '\'' {
        assert s == ['\'', '\\', '\'', '\''] + tail;
        ReadEscapedQuote(tail, word, words);
      } else {
        assert s[1..] == tail;
      }
      ReadEscaped(value[1..], rest, word + [value[0]], words);
    }
  }

  /** Close the quotes, one escaped quote, open them again. */
  lemma ReadEscapedQuote(tail: string, word: string, words: seq<string>)
    ensures Read(['\'', '\\', '\'', '\''] + tail, InQuotes, word, words) == Read(tail, InQuotes, word + ['\''], words)
  {
    var s := ['\'', '\\', '\'', '\''] + tail;
    var closed, reopened := ['\\', '\'', '\''] + tail, ['\''] + tail;
    assert s[1..] == closed && closed[2..] == reopened && reopened[1..] == tail;
    assert Read(s, InQuotes, word, words) == Read(closed, InWord, word, words);
    assert Read(closed, InWord, word, words) == Read(reopened, InWord, word + ['\''], words);
  }

  lemma ReadValue(value: string, rest: string, words: seq<string>)
    ensures Read(ShellEscape(value) + rest, Between, [], words) == Read(rest, InWord, value, words)
  {
    var body := ReplaceChar(value, '\'', "'\\''");
    assert (ShellEscape(value) + rest)[1..] == body + "'" + rest;
    ReadEscaped(value, rest, [], words);
    assert [] + value == value;
  }

  /** Every value is read back as one word, whatever it contains. */
  lemma EscapedIsOneWord(value: string)
    ensures Words(ShellEscape(value)) == Some([value])
  {
    assert ShellEscape(value) + [] == ShellEscape(value);
    ReadValue(value, [], []);
    assert [] + [value] == [value];
  }

  // -------------------------------------------------------------------- commands

  /** A word of a command template: fixed text, or an inserted value. */
  datatype Piece = Plain(text: string) | Value(value: string)

  predicate Literal(text: string) {
    text != [] && forall i :: 0 <= i < |text| ==> !Blank(text[i]) && !Special(text[i]) && text[i] != '\'' && text[i] != '\\'
  }

  predicate WellFormed(pieces: seq<Piece>) {
    forall i :: 0 <= i < |pieces| ==> pieces[i].Plain? ==> Literal(pieces[i].text)
  }

  function Spell(p: Piece): string {
    match p
    case Plain(text) => text
    case Value(value) => ShellEscape(value)
  }

  function Meant(p: Piece): string {
    match p
    case Plain(text) => text
    case Value(value) => value
  }

  function Spelled(pieces: seq<Piece>): (texts: seq<string>)
    ensures |texts| == |pieces|
    ensures forall i :: 0 <= i < |pieces| ==> texts[i] == Spell(pieces[i])
  {
    seq(|pieces|, i requires 0 <= i < |pieces| => Spell(pieces[i]))
  }

  function Intended(pieces: seq<Piece>): (words: seq<string>)
    ensures |words| == |pieces|
    ensures forall i :: 0 <= i < |pieces| ==> words[i] == Meant(pieces[i])
  {
    seq(|pieces|, i requires 0 <= i < |pieces| => Meant(pieces[i]))
  }

  function Command(pieces: seq<Piece>): string {
    Join(Spelled(pieces), ' ')
  }

  lemma {:induction false} ReadLiteral(text: string, rest: string, word: string, words: seq<string>)
    requires Literal(text)
    ensures Read(text + rest, InWord, word, words) == Read(rest, InWord, word + text, words)
    decreases |text|
  {
    assert (text + rest)[1..] == text[1..] + rest;
    if |text| == 1 {
      assert text[1..] + rest == rest;
      assert word + [text[0]] == word + text;
    } else {
      assert Literal(text[1..]);
      ReadLiteral(text[1..], rest, word + [text[0]], words);
      assert word + [text[0]] + text[1..] == word + text;
    }
  }

  /** The first character of a literal starts a word just as it continues one. */
  lemma ReadFirstLiteral(text: string, rest: string, words: seq<string>)
    requires Literal(text)
    ensures Read(text + rest, Between, [], words) == Read(text + rest, InWord, [], words)
  {
    assert (text + rest)[0] == text[0];
  }

  lemma ReadPiece(p: Piece, rest: string, words: seq<string>)
    requires p.Plain? ==> Literal(p.text)
    ensures Read(Spell(p) + rest, Between, [], words) == Read(rest, InWord, Meant(p), words)
  {
    hide Read;
    match p
    case Plain(text) =>
      ReadFirstLiteral(text, rest, words);
      ReadLiteral(text, rest, [], words);
      assert [] + text == text;
    case Value(value) => ReadValue(value, rest, words);
  }

  lemma ReadSeparator(tail: string, word: string, words: seq<string>)
    ensures Read([' '] + tail, InWord, word, words) == Read(tail, Between, [], words + [word])
  {
    assert ([' '] + tail)[1..] == tail;
  }

  lemma CommandUnfold(pieces: seq<Piece>)
    requires |pieces| > 1
    ensures Command(pieces) == Spell(pieces[0]) + ([' '] + Command(pieces[1..]))
  {
    hide Spell;
    assert Spelled(pieces)[1..] == Spelled(pieces[1..]);
  }

  lemma {:induction false} ReadCommand(pieces: seq<Piece>, words: seq<string>)
    requires WellFormed(pieces)
    ensures Read(Command(pieces), Between, [], words) == Some(words + Intended(pieces))
    decreases |pieces|
  {
    hide Spell, Meant, Literal;
    if pieces == [] {
      assert words + Intended(pieces) == words;
    } else if |pieces| == 1 {
      ReadPiece(pieces[0], [], words);
      assert Spell(pieces[0]) + [] == Command(pieces);
      assert Intended(pieces) == [Meant(pieces[0])];
    } else {
      hide Read, Command;
      var tail, first := pieces[1..], Meant(pieces[0]);
      CommandUnfold(pieces);
      ReadPiece(pieces[0], [' '] + Command(tail), words);
      ReadSeparator(Command(tail), first, words);
      ReadCommand(tail, words + [first]);
      assert words + [first] + Intended(tail) == words + Intended(pieces);
    }
  }

  /** A command of literals and escaped values is read as exactly those words. */
  lemma CommandReadsBack(pieces: seq<Piece>)
    requires WellFormed(pieces)
    ensures Words(Command(pieces)) == Some(Intended(pieces))
  {
    ReadCommand(pieces, []);
    assert [] + Intended(pieces) == Intended(pieces);
  }

  /** `k3sup join` as the agent installation builds it. */
  function JoinCommand(serverIp: string, version: string, token: string): seq<Piece> {
    [Plain("k3sup"), Plain("join"), Plain("--server-ip"), Value(serverIp), Plain("--k3s-version"), Value(version),
     Plain("--token"), Value(token)]
  }

  /** The remote shell sees the three values as they were given, each as one argument. */
  lemma JoinCommandReadsBack(serverIp: string, version: string, token: string)
    ensures Words(Command(JoinCommand(serverIp, version, token))) ==
      Some(["k3sup", "join", "--server-ip", serverIp, "--k3s-version", version, "--token", token])
  {
    hide Words, Command, Special;
    var pieces := JoinCommand(serverIp, version, token);
    TemplateIsLiteral();
    CommandReadsBack(pieces);
    assert Intended(pieces) == ["k3sup", "join", "--server-ip", serverIp, "--k3s-version", version, "--token", token];
  }

  predicate Lowercase(c: char) { 'a' <= c <= 'z' || '0' <= c <= '9' || c == '-' }

  lemma LowercaseIsLiteral(text: string)
    requires text != [] && forall i :: 0 <= i < |text| ==> Lowercase(text[i])
    ensures Literal(text)
  {
  }

  lemma TemplateIsLiteral()
    ensures Literal("k3sup") && Literal("join") && Literal("--server-ip") && Literal("--k3s-version") && Literal("--token")
  {
    hide Literal;
    LowercaseIsLiteral("k3sup");
    LowercaseIsLiteral("join");
    LowercaseIsLiteral("--server-ip");
    LowercaseIsLiteral("--k3s-version");
    LowercaseIsLiteral("--token");
  }
}
