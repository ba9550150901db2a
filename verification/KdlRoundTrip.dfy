/** internal/config/kdl.go: a written configuration file reads back as the configuration
    it was written from, so that editing a file changes the named entries only. */
module KdlRoundTrip {
  import opened Ordering
  import opened McpConfig
  import opened KdlReader
  import opened KdlText
  import opened KdlConfig
  import opened KdlLexing

  // ---------------------------------------------------------------- the lines of a block

  lemma ConsTokens(ns: seq<Node>)
    requires ns != []
    ensures NodesTokens(ns) == LineTokens(ns[0]) + NodesTokens(ns[1..])
  {
    hide LineTokens;
  }

  lemma {:induction false} NodesConcat(a: seq<Node>, b: seq<Node>)
    ensures NodesTokens(a + b) == NodesTokens(a) + NodesTokens(b)
  {
    hide NodesTokens, LineTokens;
    if a == [] {
      assert a + b == b;
      NoNodesTokens();
    } else {
      ConsTokens(a);
      ConsTokens(a + b);
      NodesConcat(a[1..], b);
      assert (a + b)[1..] == a[1..] + b;
    }
  }

  lemma LeafTokens(name: Token, args: seq<Token>)
    ensures NodesTokens([Node(name, args, [])]) == [name] + args + [Newline]
  {
    var n := Node(name, args, []);
    assert [n][1..] == [];
    assert LineTokens(n) == [name] + args + BodyTokens(n) + [Newline];
    assert BodyTokens(n) == [];
    NoNodesTokens();
  }

  predicate BareWord(w: string)
  {
    w != "" && forall c <- w :: Bare(c)
  }

  lemma LetterIsBare(c: char)
    requires 'a' <= c <= 'z' || c == '_'
    ensures Bare(c)
  {
  }

  lemma LettersAreBare(w: string)
    requires w != "" && forall i | 0 <= i < |w| :: 'a' <= w[i] <= 'z' || w[i] == '_'
    ensures BareWord(w)
  {
    forall c <- w ensures Bare(c) { LetterIsBare(c); }
  }

  lemma IndentedLexes(w: string)
    requires BareWord(w)
    ensures Lexes("    " + w + " ", [Word(w)])
  {
    hide Lexes;
    LayoutLexes();
    WordLexes(w, " ", []);
    LexesAs("    ", [], w + " ", [Word(w)] + [], "    " + w + " ", [Word(w)]);
  }

  lemma StringLexes(field: string, v: string)
    requires BareWord(field)
    ensures Lexes(StringLine(field, v), NodesTokens(StringNode(field, v)))
  {
    hide Lexes, Quote, BareWord;
    if v == "" {
      NothingLexes();
    } else {
      LayoutLexes();
      IndentedLexes(field);
      QuoteLexes(v);
      LexesThen("    " + field + " ", [Word(field)], Quote(v), [Str(v)]);
      LexesAs("    " + field + " " + Quote(v), [Word(field)] + [Str(v)], "\n", [Newline],
              StringLine(field, v), [Word(field)] + [Str(v)] + [Newline]);
      LeafTokens(Word(field), [Str(v)]);
    }
  }

  lemma {:induction false} ArgsTextLexes(args: seq<string>)
    ensures Lexes(ArgsText(args), Strs(args))
    ensures args != [] ==> ArgsText(args) != "" && ArgsText(args)[0] == ' '
  {
    hide Lexes, Quote;
    if args == [] {
      NothingLexes();
    } else {
      var last := args[|args| - 1];
      ArgsTextLexes(args[..|args| - 1]);
      LayoutLexes();
      QuoteLexes(last);
      LexesAs(" ", [], Quote(last), [Str(last)], " " + Quote(last), [Str(last)]);
      LexesThen(ArgsText(args[..|args| - 1]), Strs(args[..|args| - 1]), " " + Quote(last), [Str(last)]);
    }
  }

  lemma ArgsLexes(args: seq<string>)
    ensures Lexes(ArgsLine(args), NodesTokens(ArgsNode(args)))
  {
    hide Lexes, ArgsText, Strs;
    if args == [] {
      NothingLexes();
    } else {
      ArgsTextLexes(args);
      LayoutLexes();
      WordLexes("args", ArgsText(args), Strs(args));
      LexesAs("    ", [], "args" + ArgsText(args), [Word("args")] + Strs(args),
              "    args" + ArgsText(args), [Word("args")] + Strs(args));
      LexesThen("    args" + ArgsText(args), [Word("args")] + Strs(args), "\n", [Newline]);
      LeafTokens(Word("args"), Strs(args));
    }
  }

  lemma RetriesLexes(n: int)
    ensures Lexes(RetriesLine(n), NodesTokens(RetriesNode(n)))
  {
    hide Lexes, Decimal;
    if n == 0 {
      NothingLexes();
    } else {
      LayoutLexes();
      DecimalReadsBack(n);
      WordLexes(Decimal(n), "\n", [Newline]);
      hide Bare, BareWord;
      LettersAreBare("max_retries");
      IndentedLexes("max_retries");
      assert "    " + "max_retries" + " " == "    max_retries ";
      LexesAs("    max_retries ", [Word("max_retries")], Decimal(n) + "\n", [Word(Decimal(n))] + [Newline],
              RetriesLine(n), [Word("max_retries")] + [Word(Decimal(n))] + [Newline]);
      LeafTokens(Word("max_retries"), [Word(Decimal(n))]);
    }
  }

  lemma DynamicLexes(d: bool)
    ensures Lexes(DynamicLine(d), NodesTokens(DynamicNode(d)))
  {
    hide Lexes;
    if !d {
      NothingLexes();
    } else {
      LayoutLexes();
      LettersAreBare("dynamic");
      IndentedLexes("dynamic");
      assert "    " + "dynamic" + " " == "    dynamic " && "true" + "\n" == "true\n";
      WordLexes("true", "\n", [Newline]);
      LexesAs("    dynamic ", [Word("dynamic")], "true\n", [Word("true")] + [Newline],
              DynamicLine(d), [Word("dynamic")] + [Word("true")] + [Newline]);
      LeafTokens(Word("dynamic"), [Word("true")]);
    }
  }

  lemma PairLexes(k: string, v: string)
    ensures Lexes("        " + Quote(k) + " " + Quote(v) + "\n", NodesTokens([Node(Str(k), [Str(v)], [])]))
  {
    hide Lexes, Quote;
    LayoutLexes();
    QuoteLexes(k);
    QuoteLexes(v);
    LexesAs("        ", [], Quote(k), [Str(k)], "        " + Quote(k), [Str(k)]);
    LexesAs("        " + Quote(k), [Str(k)], " ", [], "        " + Quote(k) + " ", [Str(k)]);
    LexesThen("        " + Quote(k) + " ", [Str(k)], Quote(v), [Str(v)]);
    LexesThen("        " + Quote(k) + " " + Quote(v), [Str(k)] + [Str(v)], "\n", [Newline]);
    LeafTokens(Str(k), [Str(v)]);
  }

  lemma {:induction false} PairsLex(keys: seq<string>, m: map<string, string>)
    requires forall k <- keys :: k in m
    ensures Lexes(PairsText(keys, m), NodesTokens(PairNodes(keys, m)))
  {
    hide Lexes, Quote, NodesTokens;
    if keys == [] {
      NothingLexes();
      NoNodesTokens();
    } else {
      var front, k := keys[..|keys| - 1], keys[|keys| - 1];
      var line := "        " + Quote(k) + " " + Quote(m[k]) + "\n";
      var n := Node(Str(k), [Str(m[k])], []);
      PairsLex(front, m);
      PairLexes(k, m[k]);
      LexesThen(PairsText(front, m), NodesTokens(PairNodes(front, m)), line, NodesTokens([n]));
      NodesConcat(PairNodes(front, m), [n]);
    }
  }

  lemma NoNodesTokens()
    ensures NodesTokens([]) == []
  {
  }

  lemma BraceLexes(field: string)
    requires BareWord(field)
    ensures Lexes("    " + field + " {\n", [Word(field), Open, Newline])
  {
    hide Lexes;
    LayoutLexes();
    WordLexes(field, " {\n", [Open, Newline]);
    LexesAs("    ", [], field + " {\n", [Word(field)] + [Open, Newline],
            "    " + field + " {\n", [Word(field), Open, Newline]);
  }

  lemma MapLexes(field: string, m: map<string, string>)
    requires BareWord(field)
    ensures Lexes(MapBlock(field, m), NodesTokens(MapNode(field, m)))
  {
    hide Lexes, PairsText, PairNodes, SortedKeys;
    if m == map[] {
      NothingLexes();
    } else {
      var keys := SortedKeys(m.Keys);
      var kids, text := PairNodes(keys, m), PairsText(keys, m);
      assert keys != [] by { NonEmptyKeys(m); }
      LayoutLexes();
      PairsLex(keys, m);
      var head, headTokens := "    " + field + " {\n", [Word(field), Open, Newline];
      BraceLexes(field);
      hide BareWord, NodesTokens;
      LexesThen(head, headTokens, text, NodesTokens(kids));
      LexesThen(head + text, headTokens + NodesTokens(kids), "    }\n", [Close, Newline]);
      ParentTokens(Word(field), [], kids);
      assert headTokens + NodesTokens(kids) + [Close, Newline]
          == [Word(field)] + [] + ([Open, Newline] + NodesTokens(kids) + [Close]) + [Newline];
    }
  }

  lemma NonEmptyKeys(m: map<string, string>)
    requires m != map[]
    ensures SortedKeys(m.Keys) != []
  {
    assert m.Keys != {};
  }

  lemma ParentTokens(name: Token, args: seq<Token>, kids: seq<Node>)
    requires kids != []
    ensures NodesTokens([Node(name, args, kids)])
         == [name] + args + ([Open, Newline] + NodesTokens(kids) + [Close]) + [Newline]
  {
    var n := Node(name, args, kids);
    assert [n][1..] == [];
    assert LineTokens(n) == [name] + args + BodyTokens(n) + [Newline];
    assert BodyTokens(n) == [Open, Newline] + NodesTokens(kids) + [Close];
    NoNodesTokens();
  }

  // ---------------------------------------------------------------- a block

  lemma AddLine(text: string, head: seq<Token>, kids: seq<Node>, line: string, more: seq<Node>)
    requires Lexes(text, head + NodesTokens(kids)) && Lexes(line, NodesTokens(more))
    ensures Lexes(text + line, head + NodesTokens(kids + more))
  {
    hide Lexes, NodesTokens;
    NodesConcat(kids, more);
    LexesAs(text, head + NodesTokens(kids), line, NodesTokens(more), text + line, head + NodesTokens(kids + more));
  }

  function HeadTokens(m: MCPConfig): seq<Token>
  {
    [Word("mcp"), Str(m.name), Open, Newline]
  }

  lemma HeadLexes(m: MCPConfig)
    ensures Lexes(Head(m), HeadTokens(m))
  {
    hide Lexes, Quote;
    LayoutLexes();
    assert "mcp" + " " == "mcp ";
    WordLexes("mcp", " ", []);
    QuoteLexes(m.name);
    LexesAs("mcp ", [Word("mcp")] + [], Quote(m.name), [Str(m.name)],
            "mcp " + Quote(m.name), [Word("mcp"), Str(m.name)]);
    LexesAs("mcp " + Quote(m.name), [Word("mcp"), Str(m.name)], " {\n", [Open, Newline], Head(m), HeadTokens(m));
  }

  lemma FieldNamesAreBare()
    ensures BareWord("type") && BareWord("command") && BareWord("url") && BareWord("timeout")
    ensures BareWord("health_check_interval") && BareWord("env") && BareWord("headers")
  {
    hide BareWord;
    LettersAreBare("type");
    LettersAreBare("command");
    LettersAreBare("url");
    LettersAreBare("timeout");
    LettersAreBare("health_check_interval");
    LettersAreBare("env");
    LettersAreBare("headers");
  }

  lemma LinesLex(m: MCPConfig)
    ensures Lexes(BlockLines(m), HeadTokens(m) + NodesTokens(Children(m)))
  {
    FieldNamesAreBare();
    NoNodesTokens();
    hide Lexes, NodesTokens, StringNode, StringLine, ArgsLine, ArgsNode, RetriesLine, RetriesNode;
    hide DynamicLine, DynamicNode, MapBlock, MapNode, Head, BareWord, KindWritten;
    HeadLexes(m);
    var head := HeadTokens(m);
    assert head + [] == head;
    var t0: string, k0: seq<Node> := Head(m), [];
    StringLexes("type", KindWritten(m.kind));
    AddLine(t0, head, k0, StringLine("type", KindWritten(m.kind)), StringNode("type", KindWritten(m.kind)));
    var t1, k1 := t0 + StringLine("type", KindWritten(m.kind)), StringNode("type", KindWritten(m.kind));
    assert k0 + k1 == k1;
    StringLexes("command", m.command);
    AddLine(t1, head, k1, StringLine("command", m.command), StringNode("command", m.command));
    var t2, k2 := t1 + StringLine("command", m.command), k1 + StringNode("command", m.command);
    ArgsLexes(m.args);
    AddLine(t2, head, k2, ArgsLine(m.args), ArgsNode(m.args));
    var t3, k3 := t2 + ArgsLine(m.args), k2 + ArgsNode(m.args);
    StringLexes("url", m.url);
    AddLine(t3, head, k3, StringLine("url", m.url), StringNode("url", m.url));
    var t4, k4 := t3 + StringLine("url", m.url), k3 + StringNode("url", m.url);
    StringLexes("timeout", m.timeout);
    AddLine(t4, head, k4, StringLine("timeout", m.timeout), StringNode("timeout", m.timeout));
    var t5, k5 := t4 + StringLine("timeout", m.timeout), k4 + StringNode("timeout", m.timeout);
    RetriesLexes(m.maxRetries);
    AddLine(t5, head, k5, RetriesLine(m.maxRetries), RetriesNode(m.maxRetries));
    var t6, k6 := t5 + RetriesLine(m.maxRetries), k5 + RetriesNode(m.maxRetries);
    var interval := "health_check_interval";
    StringLexes(interval, m.healthCheckInterval);
    AddLine(t6, head, k6, StringLine(interval, m.healthCheckInterval), StringNode(interval, m.healthCheckInterval));
    var t7 := t6 + StringLine(interval, m.healthCheckInterval);
    var k7 := k6 + StringNode(interval, m.healthCheckInterval);
    DynamicLexes(m.isDynamic);
    AddLine(t7, head, k7, DynamicLine(m.isDynamic), DynamicNode(m.isDynamic));
    var t8, k8 := t7 + DynamicLine(m.isDynamic), k7 + DynamicNode(m.isDynamic);
    MapLexes("env", m.env);
    AddLine(t8, head, k8, MapBlock("env", m.env), MapNode("env", m.env));
    var t9, k9 := t8 + MapBlock("env", m.env), k8 + MapNode("env", m.env);
    MapLexes("headers", m.headers);
    AddLine(t9, head, k9, MapBlock("headers", m.headers), MapNode("headers", m.headers));
  }

  lemma BlockLexes(m: MCPConfig)
    ensures Lexes(Block(m), NodesTokens([McpNode(m)]) + [Newline])
  {
    assert Children(m) != [] by { SomeChild(m); }
    hide Lexes, NodesTokens, Children, BlockLines;
    LinesLex(m);
    LayoutLexes();
    ParentTokens(Word("mcp"), [Str(m.name)], Children(m));
    var inside := HeadTokens(m) + NodesTokens(Children(m));
    BlockShape(Word("mcp"), Str(m.name), NodesTokens(Children(m)));
    LexesAs(BlockLines(m), inside, "}\n\n", [Close, Newline, Newline],
            Block(m), NodesTokens([McpNode(m)]) + [Newline]);
  }

  lemma BlockShape(word: Token, name: Token, kids: seq<Token>)
    ensures [word, name, Open, Newline] + kids + [Close, Newline, Newline]
         == [word] + [name] + ([Open, Newline] + kids + [Close]) + [Newline] + [Newline]
  {
  }

  lemma SomeChild(m: MCPConfig)
    ensures Children(m) != []
  {
    assert |StringNode("type", KindWritten(m.kind))| == 1;
    hide StringNode, ArgsNode, RetriesNode, DynamicNode, MapNode;
  }
}
