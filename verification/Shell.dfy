/** Printing commands for a POSIX shell, and the shell's own reading of them. */
module Shell {
  import opened Common
  import opened Strings

  // ---------------------------------------------------------------- the printer

  // Every single quote closes the quoted text, is written escaped, and opens it again.
  function Escape(value: string): string {
    if value == [] then "" else (if value[0] == '\'' then "'\\''" else [value[0]]) + Escape(value[1..])
  }

  function ShellQuote(value: string): string {
    if value == "" then "''" else "'" + Escape(value) + "'"
  }

  // ---------------------------------------------------------------- the shell

  datatype Mode = Unquoted | Single | Double

  // The characters that are themselves when unquoted.  The others are those section 2.2 of the Shell
  // Command Language (POSIX.1-2017) says must be quoted to stand for themselves, always or under
  // certain circumstances; unquoted, the parser below gives them their quoting or separating meaning
  // or gives up.
  predicate Plain(c: char) {
    c !in {'|', '&', ';', '<', '>', '(', ')', '$', '`', '\\', '"', '\'', ' ', '\t', '\n',
           '*', '?', '[', '#', '~', '=', '%'}
  }

  function Extend(word: Option<string>, more: string): Option<string> {
    Some((if word.Some? then word.value else "") + more)
  }

  function Close(words: seq<string>, word: Option<string>): seq<string> {
    if word.Some? then words + [word.value] else words
  }

  // Token recognition (section 2.3), quoting (2.2.1 backslash, 2.2.2 single quotes, 2.2.3 double
  // quotes) and quote removal (2.6.7).  `word` is the word being read, if one has begun.  None means
  // the text is not a list of words: an operator, an expansion, or an unfinished quotation.
  function Scan(s: string, mode: Mode, word: Option<string>, words: seq<string>): Option<seq<string>>
    decreases |s|
  {
    if s == [] then
      if mode.Unquoted? then Some(Close(words, word)) else None
    else
      var c := s[0];
      match mode
      case Single =>
        if c == '\'' then Scan(s[1..], Unquoted, word, words) else Scan(s[1..], Single, Extend(word, [c]), words)
      case Double =>
        if c == '"' then Scan(s[1..], Unquoted, word, words)
        else if c == '$' || c == '`' then None
        else if c == '\\' && |s| > 1 && s[1] in {'$', '`', '"', '\\'} then
          Scan(s[2..], Double, Extend(word, [s[1]]), words)
        else if c == '\\' && |s| > 1 && s[1] == '\n' then Scan(s[2..], Double, word, words)
        else Scan(s[1..], Double, Extend(word, [c]), words)
      case Unquoted =>
        if c == ' ' || c == '\t' then Scan(s[1..], Unquoted, None, Close(words, word))
        else if c == '\'' then Scan(s[1..], Single, Extend(word, ""), words)
        else if c == '"' then Scan(s[1..], Double, Extend(word, ""), words)
        else if c == '\\' then
          if |s| == 1 then None
          else if s[1] == '\n' then Scan(s[2..], Unquoted, word, words)
          else Scan(s[2..], Unquoted, Extend(word, [s[1]]), words)
        else if Plain(c) then Scan(s[1..], Unquoted, Extend(word, [c]), words)
        else None
  }

  // The words a shell makes of a command line.
  function ShellWords(s: string): Option<seq<string>> {
    Scan(s, Unquoted, None, [])
  }

  // ---------------------------------------------------------------- the round trip

  // Inside single quotes, the printed form of one character reads back as that character.
  lemma ScanEscapedQuote(rest: string, word: string, words: seq<string>)
    ensures Scan("'\\''" + rest, Single, Some(word), words) == Scan(rest, Single, Some(word + "'"), words)
  {
    var t := "'\\''" + rest;
    var word' := word + "'";
    assert t[1..] == "\\''" + rest;
    assert ("\\''" + rest)[2..] == "'" + rest;
    assert ("'" + rest)[1..] == rest;
    assert Scan(t, Single, Some(word), words) == Scan("\\''" + rest, Unquoted, Some(word), words);
    assert Scan("\\''" + rest, Unquoted, Some(word), words) == Scan("'" + rest, Unquoted, Some(word'), words);
    assert word' + "" == word';
    assert Scan("'" + rest, Unquoted, Some(word'), words) == Scan(rest, Single, Some(word'), words);
  }

  lemma ScanSingle(c: char, rest: string, word: string, words: seq<string>)
    ensures c != '\'' ==>
              Scan([c] + rest, Single, Some(word), words) == Scan(rest, Single, Some(word + [c]), words)
    ensures Scan("'" + rest, Single, Some(word), words) == Scan(rest, Unquoted, Some(word), words)
  {
    assert ([c] + rest)[1..] == rest && ("'" + rest)[1..] == rest;
  }

  lemma EscapeCons(value: string, rest: string)
    requires value != []
    ensures Escape(value) + "'" + rest == Escaped(value[0]) + (Escape(value[1..]) + "'" + rest)
  {
  }

  // The printed form of one character.
  function Escaped(c: char): string {
    if c == '\'' then "'\\''" else [c]
  }

  lemma ScanOne(c: char, tail: string, word: string, words: seq<string>)
    ensures Scan(Escaped(c) + tail, Single, Some(word), words) == Scan(tail, Single, Some(word + [c]), words)
  {
    if c == '\'' {
      ScanEscapedQuote(tail, word, words);
    } else {
      ScanSingle(c, tail, word, words);
    }
  }

  lemma ScanStep(value: string, rest: string, word: string, words: seq<string>)
    requires value != []
    ensures Scan(Escape(value) + "'" + rest, Single, Some(word), words)
         == Scan(Escape(value[1..]) + "'" + rest, Single, Some(word + [value[0]]), words)
  {
    EscapeCons(value, rest);
    ScanOne(value[0], Escape(value[1..]) + "'" + rest, word, words);
  }

  lemma WordCons(word: string, value: string)
    requires value != []
    ensures word + [value[0]] + value[1..] == word + value
  {
  }

  lemma ScanEnd(rest: string, word: string, words: seq<string>)
    ensures Scan(Escape([]) + "'" + rest, Single, Some(word), words) == Scan(rest, Unquoted, Some(word + []), words)
  {
    assert Escape([]) + "'" + rest == "'" + rest;
    ScanSingle(' ', rest, word, words);
    assert word + [] == word;
  }

  lemma {:induction false} ScanEscaped(value: string, rest: string, word: string, words: seq<string>)
    ensures Scan(Escape(value) + "'" + rest, Single, Some(word), words) == Scan(rest, Unquoted, Some(word + value), words)
    decreases |value|
  {
    if value == [] {
      ScanEnd(rest, word, words);
    } else {
      ScanStep(value, rest, word, words);
      ScanEscaped(value[1..], rest, word + [value[0]], words);
      WordCons(word, value);
    }
  }

  // A quoted value extends the current word by exactly that value.
  lemma ScanQuoted(value: string, rest: string, words: seq<string>)
    ensures Scan(ShellQuote(value) + rest, Unquoted, None, words) == Scan(rest, Unquoted, Some(value), words)
  {
    var body := Escape(value) + "'" + rest;
    if value == "" {
      assert "'" + Escape(value) + "'" == "''";
    }
    assert ShellQuote(value) + rest == "'" + body;
    assert ("'" + body)[1..] == body;
    assert Extend(None, "").value == "";
    assert Scan("'" + body, Unquoted, None, words) == Scan(body, Single, Some(""), words);
    ScanEscaped(value, rest, "", words);
    assert "" + value == value;
  }

  lemma {:induction false} ScanPlain(w: string, rest: string, word: Option<string>, words: seq<string>)
    requires forall i :: 0 <= i < |w| ==> Plain(w[i])
    requires w != []
    ensures Scan(w + rest, Unquoted, word, words) == Scan(rest, Unquoted, Extend(word, w), words)
    decreases |w|
  {
    assert Plain(w[0]);
    assert (w + rest)[1..] == w[1..] + rest;
    var begun := Extend(word, [w[0]]);
    if |w| == 1 {
      assert w[1..] + rest == rest && w == [w[0]];
    } else {
      ScanPlain(w[1..], rest, begun, words);
      assert Extend(begun, w[1..]).value == Extend(word, w).value by {
        assert [w[0]] + w[1..] == w;
      }
    }
  }

  // For every string, the printed form is one word equal to it.
  lemma QuoteRoundTrip(value: string)
    ensures ShellWords(ShellQuote(value)) == Some([value])
  {
    ScanQuoted(value, "", []);
    assert ShellQuote(value) + "" == ShellQuote(value);
    assert Close([], Some(value)) == [value];
  }

  // An argument of a printed command: a fixed word written as it is, or a value that is quoted.
  datatype Arg = Fixed(text: string) | Quoted(text: string)

  function Print(a: Arg): string {
    if a.Fixed? then a.text else ShellQuote(a.text)
  }

  predicate PlainWord(w: string) {
    w != [] && forall i :: 0 <= i < |w| ==> Plain(w[i])
  }

  predicate Printable(args: seq<Arg>) {
    forall i :: 0 <= i < |args| && args[i].Fixed? ==> PlainWord(args[i].text)
  }

  function Printed(args: seq<Arg>): seq<string> {
    if args == [] then [] else [Print(args[0])] + Printed(args[1..])
  }

  // The words the printed arguments stand for.
  function Texts(args: seq<Arg>): seq<string> {
    if args == [] then [] else [args[0].text] + Texts(args[1..])
  }

  function CommandLine(args: seq<Arg>): string {
    Join(Printed(args), " ")
  }

  lemma ScanArg(a: Arg, rest: string, words: seq<string>)
    requires Printable([a])
    ensures Scan(Print(a) + rest, Unquoted, None, words) == Scan(rest, Unquoted, Some(a.text), words)
  {
    if a.Fixed? {
      assert PlainWord([a][0].text);
      ScanPlain(a.text, rest, None, words);
      assert "" + a.text == a.text;
    } else {
      ScanQuoted(a.text, rest, words);
    }
  }

  lemma CommandLineOne(a: Arg)
    ensures CommandLine([a]) == Print(a) && Texts([a]) == [a.text]
  {
    assert [a][1..] == [];
    assert Printed([a]) == [Print(a)] + Printed([]);
    assert Texts([a]) == [a.text] + Texts([]);
  }

  lemma CommandLineCons(args: seq<Arg>)
    requires |args| > 1
    ensures CommandLine(args) == Print(args[0]) + (" " + CommandLine(args[1..]))
    ensures Texts(args) == [args[0].text] + Texts(args[1..])
  {
    assert Printed(args)[1..] == Printed(args[1..]);
    assert |Printed(args[1..])| > 0;
  }

  lemma ScanBlank(rest: string, word: string, words: seq<string>)
    ensures Scan(" " + rest, Unquoted, Some(word), words) == Scan(rest, Unquoted, None, words + [word])
  {
    assert (" " + rest)[1..] == rest;
  }

  lemma ScanLast(a: Arg, words: seq<string>)
    requires Printable([a])
    ensures Scan(CommandLine([a]), Unquoted, None, words) == Some(words + Texts([a]))
  {
    CommandLineOne(a);
    ScanArg(a, "", words);
    assert Print(a) + "" == Print(a);
  }

  // One argument and the blank after it are one word.
  lemma ScanNext(a: Arg, line: string, words: seq<string>)
    requires Printable([a])
    ensures Scan(Print(a) + (" " + line), Unquoted, None, words) == Scan(line, Unquoted, None, words + [a.text])
  {
    ScanArg(a, " " + line, words);
    ScanBlank(line, a.text, words);
  }

  lemma {:induction false} ScanCommandLine(args: seq<Arg>, words: seq<string>)
    requires Printable(args) && args != []
    ensures Scan(CommandLine(args), Unquoted, None, words) == Some(words + Texts(args))
    decreases |args|
  {
    assert args[0].Fixed? ==> PlainWord(args[0].text);
    if |args| == 1 {
      assert args == [args[0]];
      ScanLast(args[0], words);
    } else {
      CommandLineCons(args);
      ScanNext(args[0], CommandLine(args[1..]), words);
      ScanCommandLine(args[1..], words + [args[0].text]);
      assert words + [args[0].text] + Texts(args[1..]) == words + Texts(args);
    }
  }

  // A printed command reads back as exactly the intended argument vector.
  lemma CommandRoundTrip(args: seq<Arg>)
    requires Printable(args) && args != []
    ensures ShellWords(CommandLine(args)) == Some(Texts(args))
  {
    ScanCommandLine(args, []);
    assert [] + Texts(args) == Texts(args);
  }

  // Different argument vectors are printed differently.
  lemma CommandInjective(a: seq<Arg>, b: seq<Arg>)
    requires Printable(a) && Printable(b) && a != [] && b != []
    requires CommandLine(a) == CommandLine(b)
    ensures Texts(a) == Texts(b)
  {
    CommandRoundTrip(a);
    CommandRoundTrip(b);
  }
}
