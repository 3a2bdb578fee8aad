/** The nested quoting of the managed-settings write (channelsetup.go): paths
    quoted for the POSIX shell, inside an AppleScript string. The readers below
    are written from the two languages' rules, not from the writers. */
module Quoting {
  import opened Records

  // ---- The writers ----

  /** Letters, digits and @%+=:,./-_ */
  predicate IsSafe(c: char) {
    || 'A' <= c <= 'Z' || 'a' <= c <= 'z' || '0' <= c <= '9'
    || c == '@' || c == '%' || c == '+' || c == '=' || c == ':'
    || c == ',' || c == '.' || c == '/' || c == '-' || c == '_'
  }

  predicate AllSafe(s: string) { forall i :: 0 <= i < |s| ==> IsSafe(s[i]) }

  /** Each `c` replaced. */
  function ReplaceAll(s: string, c: char, replacement: string): string {
    if s == "" then "" else (if s[0] == c then replacement else [s[0]]) + ReplaceAll(s[1..], c, replacement)
  }

  function ShellQuote(s: string): string {
    if s == "" then "''"
    else if AllSafe(s) then s
    else "'" + ReplaceAll(s, '\'', "'\\''") + "'"
  }

  function AppleScriptQuote(s: string): string {
    if s == "" then ""
    else (if s[0] == '\\' then "\\\\" else if s[0] == '"' then "\\\"" else [s[0]]) + AppleScriptQuote(s[1..])
  }

  /** The command's format, part by part: text of its own, a quoted path, or the
      and-operator, with one blank between parts. */
  datatype Part = Literal(text: string) | Path(path: string) | And

  function Render(part: Part): string {
    match part
    case Literal(text) => text
    case Path(path) => ShellQuote(path)
    case And => "&&"
  }

  function Spaced(parts: seq<Part>): string {
    if parts == [] then ""
    else if |parts| == 1 then Render(parts[0])
    else Render(parts[0]) + (" " + Spaced(parts[1..]))
  }

  /** `dir` is the directory of `dest`. */
  function Parts(dir: string, dest: string, tmp: string): seq<Part> {
    [Literal("mkdir"), Literal("-p"), Path(dir), And,
     Literal("cp"), Path(tmp), Path(dest), And,
     Literal("chmod"), Literal("644"), Path(dest)]
  }

  function ShellCommand(dir: string, dest: string, tmp: string): string {
    Spaced(Parts(dir, dest, tmp))
  }

  const Opening := "do shell script \""
  const Privileges := " with administrator privileges"

  function Script(command: string): string {
    Opening + (AppleScriptQuote(command) + ("\"" + Privileges))
  }

  function AdminScript(dir: string, dest: string, tmp: string): string {
    Script(ShellCommand(dir, dest, tmp))
  }

  // ---- The readers ----

  /** An AppleScript string from after its opening quote: its text, and what
      follows its closing quote. */
  function ReadString(s: string): Option<(string, string)> {
    if s == "" then None
    else if s[0] == '"' then Some(("", s[1..]))
    else if s[0] == '\\' then
      if |s| == 1 then None else
        match Escaped(s[1])
        case None => None
        case Some(c) => Before(c, ReadString(s[2..]))
    else Before(s[0], ReadString(s[1..]))
  }

  function Escaped(c: char): Option<char> {
    if c == '\\' || c == '"' then Some(c)
    else if c == 'n' then Some('\n')
    else if c == 'r' then Some('\r')
    else if c == 't' then Some('\t')
    else None
  }

  function Before(c: char, read: Option<(string, string)>): Option<(string, string)> {
    match read
    case None => None
    case Some((text, rest)) => Some(([c] + text, rest))
  }

  datatype Token = Word(text: string) | AndIf

  datatype Mode = Plain | Single | Double

  /** Token recognition with the quoting rules of section 2.2 of the POSIX Shell
      Command Language: escape character, single-quotes, double-quotes. `word` is
      the word under way. Unquoted, a character that may be an operator, an
      expansion, a pattern, a comment or a tilde prefix is not read at all, and so
      is an expansion within double-quotes: None. */
  function Lex(mode: Mode, s: string, word: Option<string>): Option<seq<Token>>
    decreases |s|
  {
    if s == "" then if mode == Plain then Some(Flush(word)) else None
    else
      var c := s[0];
      match mode
      case Single => if c == '\'' then Lex(Plain, s[1..], word) else Lex(Single, s[1..], Grow(word, c))
      case Double =>
        if c == '"' then Lex(Plain, s[1..], word)
        else if c == '$' || c == '`' then None
        else if c == '\\' && |s| > 1 && s[1] == '\n' then Lex(Double, s[2..], word)
        else if c == '\\' && |s| > 1 && (s[1] == '$' || s[1] == '`' || s[1] == '"' || s[1] == '\\') then
          Lex(Double, s[2..], Grow(word, s[1]))
        else Lex(Double, s[1..], Grow(word, c))
      case Plain =>
        if c == ' ' || c == '\t' then Tokens(Flush(word), Lex(Plain, s[1..], None))
        else if c == '\'' then Lex(Single, s[1..], Some(Text(word)))
        else if c == '"' then Lex(Double, s[1..], Some(Text(word)))
        else if c == '\\' then
          if |s| == 1 then None
          else if s[1] == '\n' then Lex(Plain, s[2..], word)
          else Lex(Plain, s[2..], Grow(word, s[1]))
        else if c == '&' then
          if |s| > 1 && s[1] == '&' then Tokens(Flush(word) + [AndIf], Lex(Plain, s[2..], None)) else None
        else if IsSpecial(c) then None
        else Lex(Plain, s[1..], Grow(word, c))
  }

  predicate IsSpecial(c: char) {
    || c == '|' || c == ';' || c == '<' || c == '>' || c == '(' || c == ')' || c == '$' || c == '`' || c == '\n'
    || c == '*' || c == '?' || c == '[' || c == '#' || c == '~' || c == '!' || c == '{' || c == '}'
  }

  function Text(word: Option<string>): string { if word.Some? then word.value else "" }

  function Grow(word: Option<string>, c: char): Option<string> { Some(Text(word) + [c]) }

  function Flush(word: Option<string>): seq<Token> { if word.Some? then [Word(word.value)] else [] }

  function Tokens(first: seq<Token>, rest: Option<seq<Token>>): Option<seq<Token>> {
    if rest.Some? then Some(first + rest.value) else None
  }

  function Split(s: string): Option<seq<Token>> { Lex(Plain, s, None) }

  // ---- Reading what was written ----

  /** The character at the head of a text, and what follows it. */
  predicate Heads(text: string, c: char, rest: string) {
    |text| == 1 + |rest| && text[0] == c && text[1..] == rest
  }

  lemma {:induction false} AppleScriptReads(s: string, rest: string)
    ensures ReadString(AppleScriptQuote(s) + ("\"" + rest)) == Some((s, rest))
  {
    var text := AppleScriptQuote(s) + ("\"" + rest);
    if s == "" {
      assert Heads(text, '"', rest);
    } else {
      AppleScriptReads(s[1..], rest);
      var tail := AppleScriptQuote(s[1..]) + ("\"" + rest);
      assert [s[0]] + s[1..] == s;
      if s[0] == '\\' || s[0] == '"' {
        assert text == ['\\', s[0]] + tail;
        assert text[2..] == tail;
      } else {
        assert text == [s[0]] + tail;
        assert Heads(text, s[0], tail);
      }
    }
  }

  lemma {:induction false} SafeReads(s: string, rest: string, word: Option<string>)
    requires AllSafe(s) && s != ""
    ensures Lex(Plain, s + rest, word) == Lex(Plain, rest, Some(Text(word) + s))
    decreases |s|
  {
    OneSafe(s, rest, word);
    if |s| == 1 {
      assert s[1..] + rest == rest && s == [s[0]];
    } else {
      SafeReads(s[1..], rest, Grow(word, s[0]));
      assert Text(word) + [s[0]] + s[1..] == Text(word) + s;
    }
  }

  lemma OneSafe(s: string, rest: string, word: Option<string>)
    requires AllSafe(s) && s != ""
    ensures Lex(Plain, s + rest, word) == Lex(Plain, s[1..] + rest, Grow(word, s[0]))
  {
    assert Heads(s + rest, s[0], s[1..] + rest);
  }

  function Inside(s: string): string { ReplaceAll(s, '\'', "'\\''") }

  /** What stands between the single-quotes: an embedded quote leaves them, is
      escaped, and enters them again. */
  lemma {:induction false} QuotedReads(s: string, rest: string, word: string)
    ensures Lex(Single, Inside(s) + ("'" + rest), Some(word)) == Lex(Plain, rest, Some(word + s))
    decreases |s|
  {
    var text := Inside(s) + ("'" + rest);
    if s == "" {
      assert Heads(text, '\'', rest);
      assert word + s == word;
    } else {
      var tail := Inside(s[1..]) + ("'" + rest);
      QuotedReads(s[1..], rest, word + [s[0]]);
      assert word + [s[0]] + s[1..] == word + s;
      if s[0] == '\'' {
        assert text == "'\\''" + tail;
        EmbeddedQuote(text, tail, word);
      } else {
        assert text == [s[0]] + tail;
        assert Heads(text, s[0], tail);
      }
    }
  }

  lemma EmbeddedQuote(text: string, tail: string, word: string)
    requires text == "'\\''" + tail
    ensures Lex(Single, text, Some(word)) == Lex(Single, tail, Some(word + ['\'']))
  {
    assert Heads(text, '\'', "\\''" + tail);
    var escaped := "\\''" + tail;
    assert Lex(Single, text, Some(word)) == Lex(Plain, escaped, Some(word));
    var reopened := "'" + tail;
    assert escaped[0] == '\\' && escaped[1] == '\'' && escaped[2..] == reopened;
    assert Lex(Plain, escaped, Some(word)) == Lex(Plain, reopened, Some(word + ['\'']));
    assert Heads(reopened, '\'', tail);
  }

  /** A quoted path joins the word under way unchanged, whatever it is made of. */
  lemma QuoteReads(s: string, rest: string, word: Option<string>)
    ensures Lex(Plain, ShellQuote(s) + rest, word) == Lex(Plain, rest, Some(Text(word) + s))
  {
    if s == "" {
      EmptyReads(rest, word);
      assert Text(word) + s == Text(word);
    } else if AllSafe(s) {
      SafeReads(s, rest, word);
    } else {
      var inside := Inside(s) + ("'" + rest);
      assert ShellQuote(s) + rest == "'" + inside;
      assert Heads("'" + inside, '\'', inside);
      QuotedReads(s, rest, Text(word));
    }
  }

  lemma EmptyReads(rest: string, word: Option<string>)
    ensures Lex(Plain, "''" + rest, word) == Lex(Plain, rest, Some(Text(word)))
  {
    var text := "'" + rest;
    assert Heads("''" + rest, '\'', text);
    assert Heads(text, '\'', rest);
  }

  lemma WordEnds(s: string, rest: string)
    requires rest == "" || rest[0] == ' '
    ensures Lex(Plain, rest, Some(s)) == Tokens([Word(s)], Lex(Plain, rest, None))
  {
    if rest == "" {
      assert [Word(s)] + [] == [Word(s)];
    } else {
      Regrouped([Word(s)], [], Lex(Plain, rest[1..], None));
      assert [Word(s)] + [] == [Word(s)];
    }
  }

  lemma Regrouped(a: seq<Token>, b: seq<Token>, rest: Option<seq<Token>>)
    ensures Tokens(a, Tokens(b, rest)) == Tokens(a + b, rest)
  {
    if rest.Some? { assert a + (b + rest.value) == (a + b) + rest.value; }
  }

  function Means(part: Part): Token {
    match part
    case Literal(text) => Word(text)
    case Path(path) => Word(path)
    case And => AndIf
  }

  predicate Readable(part: Part) {
    part.Literal? ==> part.text != "" && AllSafe(part.text)
  }

  lemma PartReads(part: Part, rest: string)
    requires Readable(part) && (rest == "" || rest[0] == ' ')
    ensures Lex(Plain, Render(part) + rest, None) == Tokens([Means(part)], Lex(Plain, rest, None))
  {
    match part
    case Literal(text) =>
      SafeReads(text, rest, None);
      assert "" + text == text;
      WordEnds(text, rest);
    case Path(path) =>
      QuoteReads(path, rest, None);
      assert "" + path == path;
      WordEnds(path, rest);
    case And =>
      var s := "&&" + rest;
      assert s[0] == '&' && s[1] == '&' && s[2..] == rest;
      assert Flush(None) + [AndIf] == [AndIf];
  }

  lemma BlankReads(rest: string)
    ensures Lex(Plain, " " + rest, None) == Lex(Plain, rest, None)
  {
    assert Heads(" " + rest, ' ', rest);
    NoTokens(Lex(Plain, rest, None));
  }

  lemma NoTokens(rest: Option<seq<Token>>)
    ensures Tokens([], rest) == rest
  {
    if rest.Some? { assert [] + rest.value == rest.value; }
  }

  function Meanings(parts: seq<Part>): seq<Token> {
    if parts == [] then [] else [Means(parts[0])] + Meanings(parts[1..])
  }

  lemma {:induction false} MeaningsAre(parts: seq<Part>)
    ensures |Meanings(parts)| == |parts|
    ensures forall i :: 0 <= i < |parts| ==> Meanings(parts)[i] == Means(parts[i])
  {
    if parts != [] { MeaningsAre(parts[1..]); }
  }

  predicate AllReadable(parts: seq<Part>) { forall i :: 0 <= i < |parts| ==> Readable(parts[i]) }

  lemma {:induction false} SpacedReads(parts: seq<Part>)
    requires AllReadable(parts)
    ensures Split(Spaced(parts)) == Some(Meanings(parts))
  {
    if |parts| == 1 {
      LastReads(parts[0]);
      assert Meanings(parts) == [Means(parts[0])];
    } else if parts != [] {
      SpacedReads(parts[1..]);
      PartReads(parts[0], " " + Spaced(parts[1..]));
      BlankReads(Spaced(parts[1..]));
    }
  }

  lemma LastReads(part: Part)
    requires Readable(part)
    ensures Split(Render(part)) == Some([Means(part)])
  {
    PartReads(part, "");
    assert Render(part) + "" == Render(part);
    assert [Means(part)] + [] == [Means(part)];
  }

  // ---- The theorems ----

  function Intended(dir: string, dest: string, tmp: string): seq<Token> {
    [Word("mkdir"), Word("-p"), Word(dir), AndIf,
     Word("cp"), Word(tmp), Word(dest), AndIf,
     Word("chmod"), Word("644"), Word(dest)]
  }

  /** The shell splits the command into exactly the intended words. */
  lemma CommandSplits(dir: string, dest: string, tmp: string)
    ensures Split(ShellCommand(dir, dest, tmp)) == Some(Intended(dir, dest, tmp))
  {
    var parts := Parts(dir, dest, tmp);
    SpacedReads(parts);
    MeaningsAre(parts);
    assert Meanings(parts) == Intended(dir, dest, tmp);
  }

  /** The round trip: after its opening, the script holds one AppleScript string
      followed by the request for privileges, and the shell reads that string as
      the intended words, so that each path comes back unchanged. */
  lemma AdminScriptReads(dir: string, dest: string, tmp: string)
    ensures Opening <= AdminScript(dir, dest, tmp)
    ensures var read := ReadString(AdminScript(dir, dest, tmp)[|Opening|..]);
      && read.Some?
      && read.value.1 == Privileges
      && Split(read.value.0) == Some(Intended(dir, dest, tmp))
  {
    CommandSplits(dir, dest, tmp);
    ScriptReads(ShellCommand(dir, dest, tmp));
  }

  lemma ScriptReads(command: string)
    ensures Opening <= Script(command)
    ensures ReadString(Script(command)[|Opening|..]) == Some((command, Privileges))
  {
    AppleScriptReads(command, Privileges);
    AfterOpening(Opening, AppleScriptQuote(command) + ("\"" + Privileges));
  }

  lemma AfterOpening(front: string, text: string)
    ensures front <= front + text && (front + text)[|front|..] == text
  {
  }
}
