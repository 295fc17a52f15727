/** The CLI's shell quoting, and a reader for the part of the shell's grammar that
    its output uses: sections 2.2.1 and 2.2.2 of the Shell Command Language, volume
    3 of IEEE Std 1003.1. Strings are sequences of characters. */
module Shell {
  import opened Machine

  const QUOTE: char := '\''
  const BACKSLASH: char := '\\'

  // ----- the printer

  /** strings.ReplaceAll(s, "'", `'\''`). */
  function Escaped(s: string): string {
    if s == "" then ""
    else (if s[0] == QUOTE then [QUOTE, BACKSLASH, QUOTE, QUOTE] else [s[0]]) + Escaped(s[1..])
  }

  function ShellQuote(s: string): string { [QUOTE] + Escaped(s) + [QUOTE] }

  // ----- the reader

  /** Between words, or in one: the characters read so far, and whether a
      single-quoted part is open. */
  datatype Lexer = Between | Word(text: string, quoted: bool)

  datatype Token = WordToken(text: string) | Newline

  /** Characters that mean something unquoted and that this reader does not
      interpret; meeting one is an error, never a guess. */
  predicate Special(c: char) {
    c in {'|', '&', ';', '<', '>', '(', ')', '$', '`', '"', '*', '?', '[', '#', '~', '%', '{', '}', '!'}
  }

  predicate Blank(c: char) { c == ' ' || c == '\t' }

  function Close(lexer: Lexer): seq<Token> {
    if lexer.Word? then [WordToken(lexer.text)] else []
  }

  function TextOf(lexer: Lexer): string { if lexer.Word? then lexer.text else "" }

  /** The tokens of s, read from a lexer state; None for an unterminated quote, a
      trailing backslash or an uninterpreted character. */
  function Tokens(s: string, lexer: Lexer): Option<seq<Token>>
    decreases |s|
  {
    if s == "" then
      if lexer.Word? && lexer.quoted then None else Some(Close(lexer))
    else if lexer.Word? && lexer.quoted then
      // 2.2.2: everything up to the next single-quote is literal
      Tokens(s[1..], if s[0] == QUOTE then Word(lexer.text, false) else Word(lexer.text + [s[0]], true))
    else if s[0] == QUOTE then Tokens(s[1..], Word(TextOf(lexer), true))
    else if s[0] == BACKSLASH then
      // 2.2.1: a backslash keeps the next character, and joins lines before a newline
      if |s| == 1 then None
      else if s[1] == '\n' then Tokens(s[2..], lexer)
      else Tokens(s[2..], Word(TextOf(lexer) + [s[1]], false))
    else if Blank(s[0]) || s[0] == '\n' then
      match Tokens(s[1..], Between)
      case Some(rest) => Some(Close(lexer) + (if s[0] == '\n' then [Newline] else []) + rest)
      case None => None
    else if Special(s[0]) then None
    else Tokens(s[1..], Word(TextOf(lexer) + [s[0]], false))
  }

  /** Nothing but a quote has a meaning between single quotes, and every quote of s
      is closed, escaped and reopened: the escaped text adds exactly s to the word. */
  lemma {:induction false} EscapedReads(s: string, rest: string, text: string)
    ensures Tokens(Escaped(s) + rest, Word(text, true)) == Tokens(rest, Word(text + s, true))
    decreases |s|
  {
    if s == "" {
      assert Escaped(s) + rest == rest && text + s == text;
    } else {
      var tail := Escaped(s[1..]) + rest;
      EscapedReads(s[1..], rest, text + [s[0]]);
      assert text + s == text + [s[0]] + s[1..];
      if s[0] == QUOTE {
        assert Escaped(s) + rest == [QUOTE, BACKSLASH, QUOTE, QUOTE] + tail;
        QuoteReads(tail, text);
      } else {
        assert Escaped(s) + rest == [s[0]] + tail;
      }
    }
  }

  lemma QuoteReads(tail: string, text: string)
    ensures Tokens([QUOTE, BACKSLASH, QUOTE, QUOTE] + tail, Word(text, true))
         == Tokens(tail, Word(text + [QUOTE], true))
  {
    var a := [QUOTE, BACKSLASH, QUOTE, QUOTE] + tail;
    assert a[1..] == [BACKSLASH, QUOTE, QUOTE] + tail;
    assert a[1..][2..] == [QUOTE] + tail;
    assert ([QUOTE] + tail)[1..] == tail;
    assert Tokens(a, Word(text, true)) == Tokens(a[1..], Word(text, false));
    assert Tokens(a[1..], Word(text, false)) == Tokens(a[1..][2..], Word(text + [QUOTE], false));
  }

  /** Wherever it stands, a quoted string adds exactly s to the word being read. */
  lemma QuotedReads(s: string, rest: string, lexer: Lexer)
    requires lexer.Word? ==> !lexer.quoted
    ensures Tokens(ShellQuote(s) + rest, lexer) == Tokens(rest, Word(TextOf(lexer) + s, false))
  {
    var inner := [QUOTE] + rest;
    assert ShellQuote(s) + rest == [QUOTE] + (Escaped(s) + inner);
    assert (ShellQuote(s) + rest)[1..] == Escaped(s) + inner;
    EscapedReads(s, inner, TextOf(lexer));
    assert inner[1..] == rest;
  }

  /** For every string, the shell reads its quoted form as that one word. */
  lemma QuoteRoundTrip(s: string)
    ensures Tokens(ShellQuote(s), Between) == Some([WordToken(s)])
  {
    assert ShellQuote(s) + "" == ShellQuote(s) && "" + s == s;
    QuotedReads(s, "", Between);
  }

  // ----- the env output

  datatype Credentials = Credentials(accessKeyID: string, secretAccessKey: string, sessionToken: string)

  function ExportLine(name: string, value: string): string { "export " + name + "=" + ShellQuote(value) + "\n" }

  function WriteEnv(c: Credentials): string {
    ExportLine("AWS_ACCESS_KEY_ID", c.accessKeyID) +
    ExportLine("AWS_SECRET_ACCESS_KEY", c.secretAccessKey) +
    ExportLine("AWS_SESSION_TOKEN", c.sessionToken)
  }

  /** Split into commands: the words of each line that has any. */
  function Commands(tokens: seq<Token>, words: seq<string>): seq<seq<string>>
    decreases |tokens|
  {
    if tokens == [] then if words == [] then [] else [words]
    else match tokens[0]
      case WordToken(w) => Commands(tokens[1..], words + [w])
      case Newline => (if words == [] then [] else [words]) + Commands(tokens[1..], [])
  }

  predicate Plain(c: char) { c != QUOTE && c != BACKSLASH && !Blank(c) && c != '\n' && !Special(c) }

  lemma {:induction false} PlainReads(s: string, rest: string, lexer: Lexer)
    requires (forall i | 0 <= i < |s| :: Plain(s[i])) && (lexer.Word? ==> !lexer.quoted)
    requires s == "" ==> lexer.Word?
    ensures Tokens(s + rest, lexer) == Tokens(rest, Word(TextOf(lexer) + s, false))
    decreases |s|
  {
    if s == "" {
      assert s + rest == rest && TextOf(lexer) + s == TextOf(lexer);
    } else {
      assert (s + rest)[0] == s[0] && (s + rest)[1..] == s[1..] + rest;
      assert TextOf(lexer) + s == TextOf(lexer) + [s[0]] + s[1..];
      PlainReads(s[1..], rest, Word(TextOf(lexer) + [s[0]], false));
    }
  }

  predicate Name(s: string) { forall i | 0 <= i < |s| :: 'A' <= s[i] <= 'Z' || s[i] == '_' }

  function Prepend(first: seq<Token>, rest: Option<seq<Token>>): Option<seq<Token>> {
    match rest
    case Some(more) => Some(first + more)
    case None => None
  }

  lemma EndOfWord(c: char, rest: string, text: string)
    requires c == ' ' || c == '\n'
    ensures Tokens([c] + rest, Word(text, false))
         == Prepend(if c == '\n' then [WordToken(text), Newline] else [WordToken(text)], Tokens(rest, Between))
  {
    assert ([c] + rest)[1..] == rest;
    match Tokens(rest, Between) {
      case None =>
      case Some(more) =>
        assert [WordToken(text)] + [Newline] == [WordToken(text), Newline];
        assert [WordToken(text)] + [] == [WordToken(text)];
    }
  }

  lemma PrependTwice(a: seq<Token>, b: seq<Token>, rest: Option<seq<Token>>)
    ensures Prepend(a, Prepend(b, rest)) == Prepend(a + b, rest)
  {
    match rest
    case None =>
    case Some(more) => assert a + (b + more) == a + b + more;
  }

  /** The command that a line assigning value to name is. */
  function ExportTokens(name: string, value: string): seq<Token> {
    [WordToken("export"), WordToken(name + "=" + value), Newline]
  }

  /** One line is one command: export, and one assignment of exactly the value. */
  lemma ExportReads(name: string, value: string, rest: string)
    requires Name(name)
    ensures Tokens(ExportLine(name, value) + rest, Between) == Prepend(ExportTokens(name, value), Tokens(rest, Between))
  {
    hide Tokens;
    var after := ['\n'] + rest;
    var assignment := (name + "=") + (ShellQuote(value) + after);
    assert ExportLine(name, value) + rest == "export" + ([' '] + assignment);
    PlainReads("export", [' '] + assignment, Between);
    PlainReads(name + "=", ShellQuote(value) + after, Between);
    assert "" + "export" == "export" && "" + (name + "=") == name + "=";
    EndOfWord(' ', assignment, "export");
    QuotedReads(value, after, Word(name + "=", false));
    assert (name + "=") + value == name + "=" + value;
    EndOfWord('\n', rest, name + "=" + value);
    PrependTwice([WordToken("export")], [WordToken(name + "=" + value), Newline], Tokens(rest, Between));
    assert [WordToken("export")] + [WordToken(name + "=" + value), Newline] == ExportTokens(name, value);
  }

  lemma ExportIsCommand(name: string, value: string, rest: seq<Token>)
    ensures Commands(ExportTokens(name, value) + rest, []) == [["export", name + "=" + value]] + Commands(rest, [])
  {
    var assignment := WordToken(name + "=" + value);
    var line := ExportTokens(name, value) + rest;
    assert line[0] == WordToken("export") && line[1..] == [assignment, Newline] + rest;
    assert line[1..][0] == assignment && line[1..][1..] == [Newline] + rest;
    assert line[1..][1..][0] == Newline && line[1..][1..][1..] == rest;
    assert [] + ["export"] == ["export"] && ["export"] + [name + "=" + value] == ["export", name + "=" + value];
    assert Commands(line, []) == Commands(line[1..], ["export"]);
    assert Commands(line[1..], ["export"]) == Commands(line[1..][1..], ["export", name + "=" + value]);
  }

  lemma LinesRead(n1: string, v1: string, n2: string, v2: string, n3: string, v3: string)
    requires Name(n1) && Name(n2) && Name(n3)
    ensures var out := Tokens(ExportLine(n1, v1) + (ExportLine(n2, v2) + (ExportLine(n3, v3) + "")), Between);
      && out.Some?
      && Commands(out.value, [])
           == [["export", n1 + "=" + v1], ["export", n2 + "=" + v2], ["export", n3 + "=" + v3]]
  {
    assert Tokens("", Between) == Some([]) && Commands([], []) == [];
    hide Tokens, Commands, ExportLine, ExportTokens;
    ExportReads(n3, v3, "");
    ExportReads(n2, v2, ExportLine(n3, v3) + "");
    ExportReads(n1, v1, ExportLine(n2, v2) + (ExportLine(n3, v3) + ""));
    var t3 := ExportTokens(n3, v3) + [];
    var t2 := ExportTokens(n2, v2) + t3;
    ExportIsCommand(n3, v3, []);
    ExportIsCommand(n2, v2, t3);
    ExportIsCommand(n1, v1, t2);
  }

  /** Whatever the credentials hold, the output is exactly three export commands,
      each assigning its own value. */
  lemma EnvRoundTrip(c: Credentials)
    ensures Tokens(WriteEnv(c), Between).Some?
    ensures Commands(Tokens(WriteEnv(c), Between).value, []) ==
      [["export", "AWS_ACCESS_KEY_ID=" + c.accessKeyID],
       ["export", "AWS_SECRET_ACCESS_KEY=" + c.secretAccessKey],
       ["export", "AWS_SESSION_TOKEN=" + c.sessionToken]]
  {
    var l1, l2, l3 := ExportLine("AWS_ACCESS_KEY_ID", c.accessKeyID),
        ExportLine("AWS_SECRET_ACCESS_KEY", c.secretAccessKey),
                      ExportLine("AWS_SESSION_TOKEN", c.sessionToken);
    assert WriteEnv(c) == l1 + (l2 + (l3 + ""));
    assert "AWS_ACCESS_KEY_ID" + "=" == "AWS_ACCESS_KEY_ID=";
    assert "AWS_SECRET_ACCESS_KEY" + "=" == "AWS_SECRET_ACCESS_KEY=";
    assert "AWS_SESSION_TOKEN" + "=" == "AWS_SESSION_TOKEN=";
    LinesRead("AWS_ACCESS_KEY_ID", c.accessKeyID, "AWS_SECRET_ACCESS_KEY", c.secretAccessKey, "AWS_SESSION_TOKEN",
        c.sessionToken);
    hide Tokens, Commands, ExportLine;
  }
}
