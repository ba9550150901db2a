/** The two POSIX quoters: shellQuote and the shell-mode command line of
    internal/cli/executor.go, and joinShellArgs of internal/server/agnt_watch.go. */
module ShellQuoting {
  import opened Options
  import opened ShellReader

  /** A quote inside single quotes is written quote, backslash, quote, quote. */
  function Escape(s: string): string
  {
    if s == "" then "" else (if s[0] == '\'' then "'\\''" else [s[0]]) + Escape(s[1..])
  }

  function Quote(s: string): string
  {
    "'" + Escape(s) + "'"
  }

  /** shellSafeArgRE. */
  predicate SafeChar(c: char)
  {
    'A' <= c <= 'Z' || 'a' <= c <= 'z' || '0' <= c <= '9' || c in "_.,/:=-"
  }

  predicate Safe(s: string)
  {
    s != "" && forall i | 0 <= i < |s| :: SafeChar(s[i])
  }

  function Arg(s: string): string
  {
    if Safe(s) then s else Quote(s)
  }

  // ---------------------------------------------------------------- one argument

  /** A word that nothing may expand. */
  function Plainly(text: string): Option<Part>
  {
    Some(Part(text, false))
  }

  lemma {:induction false} EscapedScans(s: string, word: string, more: string)
    ensures Scan(Escape(s) + ("'" + more), Plainly(word), Single) == Scan(more, Plainly(word + s), Plain)
  {
    hide Scan;
    var end := "'" + more;
    if s == "" {
      assert Escape(s) + end == ['\''] + more;
      ScanStep('\'', more, Plainly(word), Single);
      AfterTwice([], [], Scan(more, Plainly(word), Plain));
      assert word + s == word && word + "" == word;
    } else {
      var tail := Escape(s[1..]) + end;
      EscapedScans(s[1..], word + [s[0]], more);
      assert word + [s[0]] + s[1..] == word + s;
      if s[0] == '\'' {
        assert Escape(s) + end == "'\\''" + tail;
        QuoteInQuotes(word, tail);
        assert [s[0]] == "'";
      } else {
        assert Escape(s) + end == [s[0]] + tail;
        CharInQuotes(s[0], word, tail);
      }
    }
  }

  lemma CharInQuotes(c: char, word: string, tail: string)
    requires c != '\''
    ensures Scan([c] + tail, Plainly(word), Single) == Scan(tail, Plainly(word + [c]), Single)
  {
    hide Scan;
    ScanStep(c, tail, Plainly(word), Single);
    AfterTwice([], [], Scan(tail, Plainly(word + [c]), Single));
  }

  lemma QuoteInQuotes(word: string, tail: string)
    ensures Scan("'\\''" + tail, Plainly(word), Single) == Scan(tail, Plainly(word + "'"), Single)
  {
    hide Scan;
    var t1, t2, t3 := "\\''" + tail, "''" + tail, "'" + tail;
    assert "'\\''" + tail == ['\''] + t1 && t1 == ['\\'] + t2 && t2[1..] == t3 && t3 == ['\''] + tail;
    assert word + "" == word && word + "'" + "" == word + "'" && [t2[0]] == "'";
    ScanStep('\'', t1, Plainly(word), Single);
    ScanStep('\\', t2, Plainly(word), Plain);
    ScanStep('\'', tail, Plainly(word + "'"), Plain);
    AfterTwice([], [], Scan(t1, Plainly(word), Plain));
    AfterTwice([], [], Scan(t3, Plainly(word + "'"), Plain));
    AfterTwice([], [], Scan(tail, Plainly(word + "'"), Single));
  }

  lemma QuotedScans(s: string, more: string)
    ensures Scan(Quote(s) + more, None, Plain) == Scan(more, Plainly(s), Plain)
  {
    hide Scan;
    var body := Escape(s) + ("'" + more);
    assert Quote(s) + more == ['\''] + body;
    ScanStep('\'', body, None, Plain);
    AfterTwice([], [], Scan(body, Plainly(""), Single));
    EscapedScans(s, "", more);
    assert "" + s == s;
  }

  lemma SafeCharScans(c: char, word: Option<Part>, tail: string)
    requires SafeChar(c)
    ensures Scan([c] + tail, word, Plain) == Scan(tail, Grow(word, [c], false), Plain)
  {
    SafeCharIsPlain(c);
    hide Scan, SafeChar, Blank, Operator, Expands;
    ScanStep(c, tail, word, Plain);
    AfterTwice([], [], Scan(tail, Grow(word, [c], false), Plain));
  }

  lemma SafeCharIsPlain(c: char)
    requires SafeChar(c)
    ensures !Blank(c) && !Operator(c) && !Expands(c) && c !in "'\"\\`#<"
  {
  }

  lemma {:induction false} SafeScans(s: string, word: Option<Part>, more: string)
    requires Safe(s)
    ensures Scan(s + more, word, Plain) == Scan(more, Grow(word, s, false), Plain)
  {
    hide Scan, SafeChar;
    var tail := s[1..] + more;
    assert s + more == [s[0]] + tail;
    SafeCharScans(s[0], word, tail);
    if |s| > 1 {
      SafeScans(s[1..], Grow(word, [s[0]], false), more);
      assert [s[0]] + s[1..] == s;
      if word.Some? { assert word.value.text + [s[0]] + s[1..] == word.value.text + s; }
    } else {
      assert tail == more && s == [s[0]];
    }
  }

  lemma ArgScans(s: string, more: string)
    ensures Scan(Arg(s) + more, None, Plain) == Scan(more, Plainly(s), Plain)
  {
    if Safe(s) {
      SafeScans(s, None, more);
    } else {
      QuotedScans(s, more);
    }
  }

  lemma OneWord(s: string)
    ensures Tokens(Quote(s)) == Some([Word(s, false)]) && Tokens(Arg(s)) == Some([Word(s, false)])
  {
    QuotedScans(s, "");
    ArgScans(s, "");
    assert Quote(s) + "" == Quote(s) && Arg(s) + "" == Arg(s);
  }

  /** An argument of letters, digits and _ . , / : = - is left as it is, and any other is quoted. */
  lemma LeftBareOrQuoted(s: string)
    ensures s != "" && (forall i | 0 <= i < |s| ::
              'A' <= s[i] <= 'Z' || 'a' <= s[i] <= 'z' || '0' <= s[i] <= '9'
              || s[i] == '_' || s[i] == '.' || s[i] == ',' || s[i] == '/' || s[i] == ':' || s[i] == '=' || s[i] == '-')
        <==> Arg(s) == s
    ensures Arg(s) != s ==> Arg(s) == Quote(s)
  {
    assert |Quote(s)| > 0 && Quote(s)[0] == '\'' && !SafeChar('\'');
    QuoteIsLonger(s);
  }

  /** Quotes around, and each quote inside as quote, backslash, quote, quote. */
  lemma {:induction false} QuotedLiterally(a: string, b: string)
    requires forall i | 0 <= i < |a| :: a[i] != '\''
    ensures Quote(a) == "'" + a + "'"
    ensures Escape(a + "'" + b) == a + "'\\''" + Escape(b)
  {
    if a == "" {
      assert a + "'" + b == "'" + b && ("'" + b)[1..] == b;
    } else {
      QuotedLiterally(a[1..], b);
      assert (a + "'" + b)[1..] == a[1..] + "'" + b && a == [a[0]] + a[1..];
      assert Escape(a[1..]) == a[1..] by {
        assert Quote(a[1..])[1..|a|] == a[1..] && Quote(a[1..])[1..|a|] == Escape(a[1..])[..|a| - 1];
        assert |Quote(a[1..])| == |a| + 1;
      }
    }
  }

  lemma {:induction false} QuoteIsLonger(s: string)
    ensures |Escape(s)| >= |s| && |Quote(s)| >= |s| + 2
  {
    if s != "" {
      QuoteIsLonger(s[1..]);
    }
  }

  // ---------------------------------------------------------------- joinShellArgs

  function Words(args: seq<string>): (r: seq<Token>)
    ensures |r| == |args| && forall i | 0 <= i < |args| :: r[i] == Word(args[i], false)
  {
    seq(|args|, i requires 0 <= i < |args| => Word(args[i], false))
  }

  function JoinFrom(args: seq<string>): string
  {
    if args == [] then ""
    else if |args| == 1 then Arg(args[0])
    else Arg(args[0]) + (" " + JoinFrom(args[1..]))
  }

  lemma BlankEndsWord(s: string, more: string)
    ensures Scan(" " + more, Plainly(s), Plain) == After([Word(s, false)], Scan(more, None, Plain))
  {
    hide Scan;
    ScanStep(' ', more, Plainly(s), Plain);
    assert " " + more == [' '] + more;
  }

  /** Tokenising the joined arguments gives back exactly the arguments, empty ones and ones
      with quotes or newlines included. */
  lemma {:induction false} JoinReadsBack(args: seq<string>)
    ensures Tokens(JoinFrom(args)) == Some(Words(args))
  {
    if args == [] {
    } else if |args| == 1 {
      OneWord(args[0]);
      assert Words(args) == [Word(args[0], false)];
    } else {
      var more := JoinFrom(args[1..]);
      ArgScans(args[0], " " + more);
      JoinReadsBack(args[1..]);
      BlankEndsWord(args[0], more);
      hide Scan, Arg;
      assert Words(args) == [Word(args[0], false)] + Words(args[1..]);
    }
  }

  method JoinShellArgs(args: seq<string>) returns (r: string)
    ensures r == JoinFrom(args)
  {
    var quoted := new string[|args|](_ => "");
    for i := 0 to |args|
      invariant forall k | 0 <= k < i :: quoted[k] == Arg(args[k])
    {
      if Safe(args[i]) {
        quoted[i] := args[i];
      } else {
        quoted[i] := Quote(args[i]);
      }
    }
    r := JoinStrings(quoted[..]);
    JoinedArgs(args, quoted[..]);
  }

  /** strings.Join(_, " "). */
  function JoinStrings(parts: seq<string>): string
  {
    if parts == [] then "" else if |parts| == 1 then parts[0] else parts[0] + (" " + JoinStrings(parts[1..]))
  }

  lemma {:induction false} JoinedArgs(args: seq<string>, parts: seq<string>)
    requires |parts| == |args| && forall i | 0 <= i < |args| :: parts[i] == Arg(args[i])
    ensures JoinStrings(parts) == JoinFrom(args)
  {
    if |args| > 1 {
      JoinedArgs(args[1..], parts[1..]);
    }
  }

  // ---------------------------------------------------------------- shell mode

  function Suffix(args: seq<string>): string
  {
    if args == [] then "" else Suffix(args[..|args| - 1]) + (" " + Quote(args[|args| - 1]))
  }

  function ShellCommand(command: string, args: seq<string>): string
  {
    command + Suffix(args)
  }

  /** The arguments appended to a command line that ends outside quotes and comments are
      exactly that many more words, which nothing expands, whatever is in them; the command's
      own tokens stay as they were. */
  lemma {:induction false} ShellCommandReadsBack(command: string, args: seq<string>)
    requires Tokens(command).Some?
    ensures Tokens(ShellCommand(command, args)) == Some(Tokens(command).value + Words(args))
  {
    if args == [] {
      assert ShellCommand(command, args) == command;
      assert Tokens(command).value + Words(args) == Tokens(command).value;
    } else {
      hide Tokens, Quote, Words, ShellCommand;
      var front, last := args[..|args| - 1], args[|args| - 1];
      ShellCommandReadsBack(command, front);
      OneMoreArg(command, args);
      OneMoreWord(ShellCommand(command, front), last);
      WordsGrow(args);
      var own := Tokens(command).value;
      assert own + Words(front) + [Word(last, false)] == own + (Words(front) + [Word(last, false)]);
    }
  }

  lemma OneMoreArg(command: string, args: seq<string>)
    requires args != []
    ensures ShellCommand(command, args)
         == ShellCommand(command, args[..|args| - 1]) + ([' '] + Quote(args[|args| - 1]))
  {
    hide Quote;
    assert " " + Quote(args[|args| - 1]) == [' '] + Quote(args[|args| - 1]);
  }

  lemma OneMoreWord(before: string, last: string)
    requires Tokens(before).Some?
    ensures Tokens(before + ([' '] + Quote(last))) == Some(Tokens(before).value + [Word(last, false)])
  {
    ScanOn(before, None, Plain, ' ', Quote(last));
    OneWord(last);
    hide Scan, Quote;
  }

  lemma WordsGrow(args: seq<string>)
    requires args != []
    ensures Words(args) == Words(args[..|args| - 1]) + [Word(args[|args| - 1], false)]
  {
  }

  method BuildShellCommand(command: string, args: seq<string>) returns (shellCmd: string)
    ensures shellCmd == ShellCommand(command, args)
  {
    shellCmd := command;
    for i := 0 to |args|
      invariant shellCmd == command + Suffix(args[..i])
    {
      assert args[..i + 1][..i] == args[..i];
      shellCmd := shellCmd + (" " + Quote(args[i]));
    }
    assert args[..|args|] == args;
  }
}
