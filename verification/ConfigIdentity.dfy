/** internal/cache/cache.go: when two configurations hash alike. */
module ConfigIdentity {
  import opened Ordering
  import opened McpConfig

  predicate Free(s: string, c: char)
  {
    forall i | 0 <= i < |s| :: s[i] != c
  }

  /** Fields without the characters the hashed text uses as separators. */
  ghost predicate Clean(cfg: MCPConfig)
  {
    && Free(cfg.kind, '\n') && Free(cfg.command, '\n') && Free(cfg.url, '\n')
    && CleanArgs(cfg.args) && CleanMap(cfg.headers) && CleanMap(cfg.env)
  }

  ghost predicate CleanArgs(args: seq<string>)
  {
    forall a <- args :: Free(a, '\0') && Free(a, '\n')
  }

  ghost predicate CleanMap(m: map<string, string>)
  {
    forall k <- m :: CleanKey(k) && Free(m[k], '\0') && Free(m[k], '\n')
  }

  predicate CleanKey(k: string)
  {
    Free(k, '=') && Free(k, '\0') && Free(k, '\n')
  }

  /** Without arguments, or with one that is empty. */
  predicate NoArgs(args: seq<string>)
  {
    args == [] || args == [""]
  }

  predicate SameIdentity(c: MCPConfig, d: MCPConfig)
  {
    && c.kind == d.kind && c.command == d.command && c.url == d.url
    && (c.args == d.args || (NoArgs(c.args) && NoArgs(d.args)))
    && c.headers == d.headers && c.env == d.env
  }

  // ---------------------------------------------------------------- separators

  /** The first separator splits a text in one way only. */
  lemma {:induction false} FirstSplit(a: string, x: string, b: string, y: string, c: char)
    requires Free(a, c) && Free(b, c) && a + ([c] + x) == b + ([c] + y)
    ensures a == b && x == y
  {
    var t, u := a + ([c] + x), b + ([c] + y);
    assert t[|a|] == c && u[|b|] == c;
    assert forall i | 0 <= i < |a| :: t[i] == a[i];
    assert forall i | 0 <= i < |b| :: u[i] == b[i];
    assert t[..|a|] == a && u[..|b|] == b && t[|a| + 1..] == x && u[|b| + 1..] == y;
  }

  lemma LineSplits(l: string, v: string, x: string, w: string, y: string)
    requires Free(v, '\n') && Free(w, '\n') && Line(l, v, x) == Line(l, w, y)
    ensures v == w && x == y
  {
    assert Line(l, v, x)[|l|..] == v + ("\n" + x) && Line(l, w, y)[|l|..] == w + ("\n" + y);
    assert "\n" + x == ['\n'] + x && "\n" + y == ['\n'] + y;
    FirstSplit(v, x, w, y, '\n');
  }

  // ---------------------------------------------------------------- arguments

  lemma {:induction false} JoinIsOneLine(args: seq<string>)
    requires CleanArgs(args)
    ensures Free(JoinNul(args), '\n')
  {
    if |args| > 0 {
      assert args[0] in args;
      JoinIsOneLine(args[1..]);
    }
  }

  lemma {:induction false} ArgsAreDetermined(a: seq<string>, b: seq<string>)
    requires CleanArgs(a) && CleanArgs(b) && JoinNul(a) == JoinNul(b) && a != [] && b != []
    ensures a == b
  {
    assert a[0] in a && b[0] in b;
    if |a| > 1 && |b| > 1 {
      var x, y := JoinNul(a[1..]), JoinNul(b[1..]);
      assert "\0" + x == ['\0'] + x && "\0" + y == ['\0'] + y;
      FirstSplit(a[0], x, b[0], y, '\0');
      ArgsAreDetermined(a[1..], b[1..]);
      assert a == [a[0]] + a[1..] && b == [b[0]] + b[1..];
    } else {
      ManyHaveNul(a);
      ManyHaveNul(b);
      assert |a| == |b| == 1;
      assert a == [a[0]] && b == [b[0]];
    }
  }

  lemma ManyHaveNul(a: seq<string>)
    requires CleanArgs(a) && a != []
    ensures |a| == 1 <==> Free(JoinNul(a), '\0')
  {
    assert a[0] in a;
    if |a| > 1 {
      assert JoinNul(a)[|a[0]|] == '\0';
    }
  }

  lemma JoinIsEmpty(a: seq<string>)
    requires CleanArgs(a)
    ensures JoinNul(a) == "" <==> NoArgs(a)
  {
    if |a| == 1 { assert a == [a[0]]; }
  }

  // ---------------------------------------------------------------- maps

  lemma {:induction false} PairsAreOneLine(keys: seq<string>, m: map<string, string>)
    requires (forall k <- keys :: k in m) && CleanMap(m)
    ensures Free(PairLines(keys, m), '\n')
  {
    if keys != [] {
      assert keys[0] in keys;
      PairsAreOneLine(keys[1..], m);
    }
  }

  lemma {:induction false} PairsAreDetermined(ks: seq<string>, m: map<string, string>,
                                              ls: seq<string>, n: map<string, string>)
    requires (forall k <- ks :: k in m) && (forall l <- ls :: l in n) && CleanMap(m) && CleanMap(n)
    requires PairLines(ks, m) == PairLines(ls, n)
    ensures ks == ls && forall k <- ks :: m[k] == n[k]
    decreases |ks|
  {
    if ks != [] && ls != [] {
      var k, l := ks[0], ls[0];
      var v, w := m[k] + ("\0" + PairLines(ks[1..], m)), n[l] + ("\0" + PairLines(ls[1..], n));
      assert "=" + v == ['='] + v && "=" + w == ['='] + w;
      FirstSplit(k, v, l, w, '=');
      var x, y := PairLines(ks[1..], m), PairLines(ls[1..], n);
      assert "\0" + x == ['\0'] + x && "\0" + y == ['\0'] + y;
      FirstSplit(m[k], x, n[l], y, '\0');
      PairsAreDetermined(ks[1..], m, ls[1..], n);
      assert ks == [k] + ks[1..] && ls == [l] + ls[1..];
    }
  }

  lemma KeysOfMaps(ks: seq<string>, m: map<string, string>, ls: seq<string>, n: map<string, string>)
    requires ks == ls && (forall k :: k in m <==> k in ks) && (forall k :: k in n <==> k in ls)
    requires forall k <- ks :: m[k] == n[k]
    ensures m == n
  {
  }

  lemma MapIsDetermined(m: map<string, string>, n: map<string, string>)
    requires CleanMap(m) && CleanMap(n) && SortedMapString(m) == SortedMapString(n)
    ensures m == n
  {
    var ks, ls := SortedKeys(m.Keys), SortedKeys(n.Keys);
    PairsAreDetermined(ks, m, ls, n);
    KeysOfMaps(ks, m, ls, n);
    hide SortedKeys, PairLines, CleanMap;
  }

  // ---------------------------------------------------------------- the whole text

  /** Clean configurations hash alike exactly when their identity fields agree, no argument
      and one empty argument being the same. */
  lemma HashIsIdentity(c: MCPConfig, d: MCPConfig)
    requires Clean(c) && Clean(d)
    ensures ConfigHash(c) == ConfigHash(d) <==> SameIdentity(c, d)
  {
    JoinIsOneLine(c.args);
    JoinIsOneLine(d.args);
    JoinIsEmpty(c.args);
    JoinIsEmpty(d.args);
    MapsAreOneLine(c);
    MapsAreOneLine(d);
    if ConfigHash(c) == ConfigHash(d) {
      TextIsDetermined(c, d);
      hide Line, ConfigHash, SortedMapString, CleanMap;
      MapIsDetermined(c.headers, d.headers);
      MapIsDetermined(c.env, d.env);
      if c.args != [] && d.args != [] { ArgsAreDetermined(c.args, d.args); }
    }
  }

  lemma MapsAreOneLine(c: MCPConfig)
    requires Clean(c)
    ensures Free(SortedMapString(c.headers), '\n') && Free(SortedMapString(c.env), '\n')
  {
    PairsAreOneLine(SortedKeys(c.headers.Keys), c.headers);
    PairsAreOneLine(SortedKeys(c.env.Keys), c.env);
  }

  /** Line by line. */
  lemma TextIsDetermined(c: MCPConfig, d: MCPConfig)
    requires Clean(c) && Clean(d) && ConfigHash(c) == ConfigHash(d)
    ensures c.kind == d.kind && c.command == d.command && c.url == d.url
    ensures JoinNul(c.args) == JoinNul(d.args)
    ensures SortedMapString(c.headers) == SortedMapString(d.headers)
    ensures SortedMapString(c.env) == SortedMapString(d.env)
  {
    JoinIsOneLine(c.args);
    JoinIsOneLine(d.args);
    MapsAreOneLine(c);
    MapsAreOneLine(d);
    hide Line, JoinNul, SortedMapString, CleanArgs, CleanMap, Free;
    var c5, d5 := Line("env:", SortedMapString(c.env), ""), Line("env:", SortedMapString(d.env), "");
    var c4 := Line("headers:", SortedMapString(c.headers), c5);
    var d4 := Line("headers:", SortedMapString(d.headers), d5);
    var c3, d3 := Line("url:", c.url, c4), Line("url:", d.url, d4);
    var c2, d2 := Line("args:", JoinNul(c.args), c3), Line("args:", JoinNul(d.args), d3);
    var c1, d1 := Line("command:", c.command, c2), Line("command:", d.command, d2);
    LineSplits("type:", c.kind, c1, d.kind, d1);
    LineSplits("command:", c.command, c2, d.command, d2);
    LineSplits("args:", JoinNul(c.args), c3, JoinNul(d.args), d3);
    LineSplits("url:", c.url, c4, d.url, d4);
    LineSplits("headers:", SortedMapString(c.headers), c5, SortedMapString(d.headers), d5);
    LineSplits("env:", SortedMapString(c.env), "", SortedMapString(d.env), "");
  }
}
