/** How the reference reader treats text put together from pieces: each piece yields its
    own tokens, and the tokens of a node list parse to that list. */
module KdlLexing {
  import opened Options
  import opened KdlReader
  import opened KdlText

  // ---------------------------------------------------------------- text to tokens

  /** This text yields exactly these tokens, whatever comes after it. */
  ghost predicate Lexes(text: string, ts: seq<Token>)
  {
    forall rest: string :: Lex(text + rest) == Prepend(ts, Lex(rest))
  }

  lemma LexesThen(a: string, ta: seq<Token>, b: string, tb: seq<Token>)
    requires Lexes(a, ta) && Lexes(b, tb)
    ensures Lexes(a + b, ta + tb)
  {
    hide Lex;
    forall rest: string ensures Lex((a + b) + rest) == Prepend(ta + tb, Lex(rest)) {
      assert (a + b) + rest == a + (b + rest);
      if Lex(rest).Some? {
        assert (ta + tb) + Lex(rest).value == ta + (tb + Lex(rest).value);
      }
    }
  }

  lemma LexesAs(a: string, ta: seq<Token>, b: string, tb: seq<Token>, ab: string, tab: seq<Token>)
    requires Lexes(a, ta) && Lexes(b, tb) && a + b == ab && ta + tb == tab
    ensures Lexes(ab, tab)
  {
    LexesThen(a, ta, b, tb);
  }

  function Layout(c: char): seq<Token>
  {
    match c case '\n' => [Newline] case '{' => [Open] case '}' => [Close] case _ => []
  }

  lemma LayoutChar(c: char, rest: string)
    requires c in " \n{}"
    ensures Lex([c] + rest) == Prepend(Layout(c), Lex(rest))
  {
    assert ([c] + rest)[1..] == rest;
    if Lex(rest).Some? { assert [] + Lex(rest).value == Lex(rest).value; }
  }

  lemma {:induction false} LayoutText(text: string, ts: seq<Token>)
    requires forall c <- text :: c in " \n{}"
    requires ts == LayoutTokens(text)
    ensures Lexes(text, ts)
  {
    if text == "" {
      NothingLexes();
    } else {
      LayoutText(text[1..], LayoutTokens(text[1..]));
      forall rest: string ensures Lex([text[0]] + rest) == Prepend(Layout(text[0]), Lex(rest)) {
        LayoutChar(text[0], rest);
      }
      LexesAs([text[0]], Layout(text[0]), text[1..], LayoutTokens(text[1..]), text, ts);
    }
  }

  function LayoutTokens(text: string): seq<Token>
  {
    if text == "" then [] else Layout(text[0]) + LayoutTokens(text[1..])
  }

  lemma NothingLexes()
    ensures Lexes("", [])
  {
    forall rest: string ensures Lex("" + rest) == Prepend([], Lex(rest)) {
      assert "" + rest == rest;
      if Lex(rest).Some? { assert [] + Lex(rest).value == Lex(rest).value; }
    }
  }

  /** The fixed pieces of layout between names and values. */
  lemma LayoutLexes()
    ensures Lexes(" ", []) && Lexes("\n", [Newline]) && Lexes("    ", []) && Lexes("        ", [])
    ensures Lexes(" {\n", [Open, Newline])
    ensures Lexes("    }\n", [Close, Newline])
    ensures Lexes("}\n\n", [Close, Newline, Newline])
  {
    hide Lexes;
    LayoutText(" ", []);
    LayoutText("\n", [Newline]);
    LayoutText("    ", []);
    LayoutText(" {\n", [Open, Newline]);
    LayoutText("}\n", [Close, Newline]);
    LayoutText("}\n\n", [Close, Newline, Newline]);
    LexesAs("    ", [], "    ", [], "        ", []);
    LexesAs("    ", [], "}\n", [Close, Newline], "    }\n", [Close, Newline]);
  }

  lemma QuoteLexes(s: string)
    ensures Lexes(Quote(s), [Str(s)])
  {
    forall rest: string ensures Lex(Quote(s) + rest) == Prepend([Str(s)], Lex(rest)) {
      QuoteReadsBack(s, rest);
      hide Quote;
    }
  }

  lemma {:induction false} WordEnds(w: string, rest: string)
    requires forall c <- w :: Bare(c)
    requires rest == "" || !Bare(rest[0])
    ensures WordLength(w + rest) == |w|
  {
    if w == "" {
      assert w + rest == rest;
    } else {
      WordEnds(w[1..], rest);
      assert (w + rest)[1..] == w[1..] + rest;
    }
  }

  lemma WordThen(w: string, after: string)
    requires w != "" && forall c <- w :: Bare(c)
    requires after != "" && !Bare(after[0])
    ensures Lex(w + after) == Prepend([Word(w)], Lex(after))
  {
    WordEnds(w, after);
    assert w[0] in w && (w + after)[0] == w[0];
    assert (w + after)[..|w|] == w && (w + after)[|w|..] == after;
  }

  lemma WordLexes(w: string, d: string, ts: seq<Token>)
    requires w != "" && forall c <- w :: Bare(c)
    requires d != "" && !Bare(d[0]) && Lexes(d, ts)
    ensures Lexes(w + d, [Word(w)] + ts)
  {
    hide Lex, Bare;
    forall rest: string ensures Lex((w + d) + rest) == Prepend([Word(w)] + ts, Lex(rest)) {
      assert (w + d) + rest == w + (d + rest);
      WordThen(w, d + rest);
      if Lex(rest).Some? {
        assert ([Word(w)] + ts) + Lex(rest).value == [Word(w)] + (ts + Lex(rest).value);
      }
    }
  }

  // ---------------------------------------------------------------- nodes to tokens and back

  /** The tokens of a list of nodes, one line a node, a child block only where there are
      children. */
  function NodesTokens(ns: seq<Node>): seq<Token>
  {
    if ns == [] then [] else LineTokens(ns[0]) + NodesTokens(ns[1..])
  }

  function LineTokens(n: Node): seq<Token>
    decreases n, 1
  {
    [n.name] + n.args + BodyTokens(n) + [Newline]
  }

  function BodyTokens(n: Node): seq<Token>
    decreases n, 0
  {
    if n.children == [] then [] else [Open, Newline] + NodesTokens(n.children) + [Close]
  }

  ghost predicate WellFormed(ns: seq<Node>)
  {
    forall n <- ns :: Textual(n.name) && (forall t <- n.args :: Textual(t)) && WellFormed(n.children)
  }

  function PrependNodes(ns: seq<Node>, r: Parsed): Parsed
  {
    if r.None? then None else Some((ns + r.value.0, r.value.1))
  }

  lemma {:induction false} ArgsEnd(args: seq<Token>, rest: seq<Token>)
    requires forall t <- args :: Textual(t)
    requires rest == [] || !Textual(rest[0])
    ensures ArgCount(args + rest) == |args|
  {
    if args == [] {
      assert args + rest == rest;
    } else {
      ArgsEnd(args[1..], rest);
      assert (args + rest)[1..] == args[1..] + rest;
    }
  }

  lemma HeadParses(name: Token, args: seq<Token>, after: seq<Token>)
    requires Textual(name) && forall t <- args :: Textual(t)
    requires after != [] && after[0] in {Newline, Open}
    ensures var ts := [name] + args + after;
      ArgCount(ts[1..]) == |args| && ts[0] == name && ts[1..1 + |args|] == args && ts[1 + |args|..] == after
  {
    ArgsEnd(args, after);
    assert ([name] + args + after)[1..] == args + after;
  }

  lemma NewlineParses(rest: seq<Token>)
    ensures ParseNodes([Newline] + rest) == ParseNodes(rest)
  {
    assert ([Newline] + rest)[1..] == rest;
  }

  lemma PlainNodeParses(name: Token, args: seq<Token>, after: seq<Token>)
    requires Textual(name) && forall t <- args :: Textual(t)
    requires after != [] && after[0] == Newline
    ensures ParseNodes([name] + args + after) == PrependNode(Node(name, args, []), ParseNodes(after))
  {
    HeadParses(name, args, after);
    hide ArgCount;
  }

  lemma BlockNodeParses(name: Token, args: seq<Token>, kids: seq<Node>, body: seq<Token>, rest: seq<Token>)
    requires Textual(name) && forall t <- args :: Textual(t)
    requires ParseNodes(body) == Some((kids, [Close] + rest)) && rest != [] && rest[0] == Newline
    ensures ParseNodes([name] + args + ([Open] + body)) == PrependNode(Node(name, args, kids), ParseNodes(rest))
  {
    var ts := [name] + args + ([Open] + body);
    HeadParses(name, args, [Open] + body);
    hide ArgCount;
    assert ([Open] + body)[1..] == body && ([Close] + rest)[1..] == rest;
  }

  /** Reading the tokens of any list of nodes gives that list back, with everything after
      it unread. */
  lemma {:induction false} NodesParse(ns: seq<Node>, more: seq<Token>)
    requires WellFormed(ns)
    ensures ParseNodes(NodesTokens(ns) + more) == PrependNodes(ns, ParseNodes(more))
  {
    hide ParseNodes, BodyTokens;
    if ns == [] {
      assert NodesTokens(ns) + more == more;
      if ParseNodes(more).Some? { assert [] + ParseNodes(more).value.0 == ParseNodes(more).value.0; }
    } else {
      var n, tail := ns[0], NodesTokens(ns[1..]) + more;
      NodesParse(ns[1..], more);
      NewlineParses(tail);
      OneNodeParses(n, [Newline] + tail);
      assert NodesTokens(ns) + more == [n.name] + n.args + (BodyTokens(n) + ([Newline] + tail));
      if ParseNodes(more).Some? {
        assert ns + ParseNodes(more).value.0 == [n] + (ns[1..] + ParseNodes(more).value.0);
      }
    }
  }

  lemma CloseParses(rest: seq<Token>)
    ensures ParseNodes([Close] + rest) == Some(([], [Close] + rest))
  {
  }

  lemma BlockTokens(n: Node, rest: seq<Token>)
    requires n.children != []
    ensures BodyTokens(n) + rest == [Open] + ([Newline] + (NodesTokens(n.children) + ([Close] + rest)))
  {
    hide NodesTokens;
  }

  lemma OneNodeParses(n: Node, rest: seq<Token>)
    requires WellFormed([n]) && rest != [] && rest[0] == Newline
    ensures ParseNodes([n.name] + n.args + (BodyTokens(n) + rest)) == PrependNode(n, ParseNodes(rest))
    decreases n, 0
  {
    hide ParseNodes, NodesTokens;
    assert n in [n];
    if n.children == [] {
      assert BodyTokens(n) + rest == rest;
      PlainNodeParses(n.name, n.args, rest);
    } else {
      var after := [Close] + rest;
      CloseParses(rest);
      NodesParse(n.children, after);
      assert n.children + [] == n.children;
      NewlineParses(NodesTokens(n.children) + after);
      BlockTokens(n, rest);
      BlockNodeParses(n.name, n.args, n.children, [Newline] + (NodesTokens(n.children) + after), rest);
    }
  }
}
