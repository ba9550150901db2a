/** internal/registry/index.go: the relevance score of one tool for one query. */
module SearchScore {
  import opened RegistryCore
  import opened Strings

  const EXACT_TOOL_NAME := 1000
  const MCP_NAME_MATCH := 800
  const TOOL_NAME_PREFIX := 300
  const ALL_TERMS_IN_NAME := 200
  const ALL_TERMS_CROSSED := 150
  const ALL_TERMS_IN_DESC := 100
  const PARTIAL_TERM_NAME := 50
  const PARTIAL_TERM_DESC := 25
  const FUZZY_MATCH := 10

  function Separated(s: string): (r: string)
    ensures |r| == |s| && forall i | 0 <= i < |s| :: r[i] == if s[i] in "_-." then ' ' else s[i]
  {
    seq(|s|, i requires 0 <= i < |s| => if s[i] in "_-." then ' ' else s[i])
  }

  function Tokenize(s: string): seq<string>
  {
    Fields(Separated(Lower(s)))
  }

  predicate ContainsAll(text: string, terms: seq<string>)
  {
    forall i | 0 <= i < |terms| :: Contains(Lower(text), terms[i])
  }

  function CountMatching(text: string, terms: seq<string>): (n: nat)
    ensures n <= |terms|
  {
    if terms == [] then 0
    else
      CountMatching(text, terms[..|terms| - 1]) + (if Contains(Lower(text), terms[|terms| - 1]) then 1 else 0)
  }

  /** A query falls into terms at blanks, underscores, hyphens and dots, and nowhere else. */
  lemma TermsSplit(a: string, c: char, b: string)
    requires c in " \t\n\r\U{000B}\U{000C}_-."
    ensures Tokenize(a + [c] + b) == Tokenize(a) + Tokenize(b)
  {
    var s := Separated(Lower(a + [c] + b));
    assert s == Separated(Lower(a)) + (Separated(Lower([c])) + Separated(Lower(b)));
    assert Separated(Lower([c])) == [if c in "_-." then ' ' else c];
    hide Lower, Separated, Fields;
    FieldsSplit(Separated(Lower(a)), if c in "_-." then ' ' else c, Separated(Lower(b)));
  }

  lemma OneTerm(w: string)
    requires w != "" && forall i | 0 <= i < |w| :: w[i] !in " \t\n\r\U{000B}\U{000C}_-."
    ensures Tokenize(w) == [Lower(w)]
  {
    assert Separated(Lower(w)) == Lower(w);
    FieldsOfWord(Lower(w));
  }

  /** How many of the terms occur. */
  lemma {:induction false} CountsTheOccurring(text: string, terms: seq<string>)
    ensures CountMatching(text, terms) == |set i | 0 <= i < |terms| && Contains(Lower(text), terms[i])|
  {
    hide Contains, Lower;
    if terms != [] {
      var front, last := terms[..|terms| - 1], |terms| - 1;
      CountsTheOccurring(text, front);
      var before := set i | 0 <= i < |front| && Contains(Lower(text), front[i]);
      var now := set i | 0 <= i < |terms| && Contains(Lower(text), terms[i]);
      assert now == if Contains(Lower(text), terms[last]) then before + {last} else before;
    }
  }

  // ---------------------------------------------------------------- the parts of a score

  predicate ExactName(name: string, query: string)
  {
    Lower(name) == Lower(query) || Normalize(name) == Normalize(query)
  }

  predicate NamePrefix(name: string, query: string)
  {
    HasPrefix(Lower(name), Lower(query)) || HasPrefix(Normalize(name), Normalize(query))
  }

  function If(p: bool, points: nat): nat
  {
    if p then points else 0
  }

  function TermPoints(t: ToolInfo, mcp: string, terms: seq<string>): nat
  {
    If(ContainsAll(Lower(t.name), terms), ALL_TERMS_IN_NAME) +
    If(ContainsAll(Lower(mcp) + " " + Lower(t.name), terms), ALL_TERMS_CROSSED) +
    If(ContainsAll(Lower(t.description), terms), ALL_TERMS_IN_DESC) +
    CountMatching(Lower(t.name), terms) * PARTIAL_TERM_NAME +
    CountMatching(Lower(t.description), terms) * PARTIAL_TERM_DESC
  }

  function MainPoints(t: ToolInfo, mcp: string, query: string): nat
  {
    If(ExactName(t.name, query), EXACT_TOOL_NAME) +
    If(ExactName(mcp, query), MCP_NAME_MATCH) +
    If(NamePrefix(t.name, query), TOOL_NAME_PREFIX) +
    (if Tokenize(query) == [] then 0 else TermPoints(t, mcp, Tokenize(query)))
  }

  predicate FuzzyMatch(t: ToolInfo, query: string)
  {
    || Contains(Lower(t.name), Lower(query))
    || Contains(Lower(t.description), Lower(query))
    || Contains(Normalize(t.name), Normalize(query))
    || Contains(Normalize(t.description), Normalize(query))
  }

  function Score(t: ToolInfo, mcp: string, query: string): nat
  {
    var main := MainPoints(t, mcp, query);
    if main == 0 then If(FuzzyMatch(t, query), FUZZY_MATCH) else main
  }

  // ---------------------------------------------------------------- terms and text

  lemma LowerTwice(s: string)
    ensures Lower(Lower(s)) == Lower(s)
  {
  }

  /** Each term of a query is a stretch of the query. */
  lemma TermOccurs(query: string, term: string)
    requires term in Tokenize(query)
    ensures term != "" && Contains(Lower(query), term)
  {
    var low, sep := Lower(query), Separated(Lower(query));
    var i := FieldOccurs(sep, term);
    assert IsWord(term);
    forall k | 0 <= k < |term| ensures low[i..i + |term|][k] == term[k] {
      assert sep[i..i + |term|][k] == term[k] && !Space(term[k]);
    }
    assert low[i..i + |term|] == term;
    assert OccursAt(low, term, i);
  }

  lemma ContainsMore(t: string, s: string, before: string, after: string)
    requires Contains(t, s)
    ensures Contains(before + t + after, s)
  {
    var i: nat :| i <= |t| && OccursAt(t, s, i);
    var u := before + t + after;
    assert u[|before| + i..|before| + i + |s|] == t[i..i + |s|];
    assert OccursAt(u, s, |before| + i);
  }

  lemma {:induction false} CountsAll(text: string, terms: seq<string>)
    requires forall i | 0 <= i < |terms| :: Contains(Lower(text), terms[i])
    ensures CountMatching(text, terms) == |terms|
  {
    if terms != [] {
      CountsAll(text, terms[..|terms| - 1]);
    }
  }

  lemma NotInEmpty(s: string)
    requires s != ""
    ensures !Contains(Lower(""), s)
  {
    assert Lower("") == "";
  }

  lemma {:induction false} CountsNone(terms: seq<string>)
    requires forall i | 0 <= i < |terms| :: terms[i] != ""
    ensures CountMatching("", terms) == 0
  {
    if terms != [] {
      CountsNone(terms[..|terms| - 1]);
      NotInEmpty(terms[|terms| - 1]);
    }
  }

  /** A text that holds the whole query holds each of its terms. */
  lemma TermsOccur(before: string, query: string, after: string)
    ensures ContainsAll(before + Lower(query) + after, Tokenize(query))
    ensures CountMatching(before + Lower(query) + after, Tokenize(query)) == |Tokenize(query)|
  {
    var terms, text := Tokenize(query), before + Lower(query) + after;
    forall i | 0 <= i < |terms| ensures Contains(Lower(text), terms[i]) {
      TermOccurs(query, terms[i]);
      ContainsMore(Lower(query), terms[i], Lower(before), Lower(after));
      LowerTwice(query);
      assert Lower(text) == Lower(before) + Lower(query) + Lower(after);
    }
    CountsAll(text, terms);
  }

  // ---------------------------------------------------------------- what is found

  /** Anything a plain substring scan of name or description would find scores. */
  lemma SubstringScores(t: ToolInfo, mcp: string, query: string)
    requires Contains(Lower(t.name), Lower(query)) || Contains(Lower(t.description), Lower(query))
    ensures Score(t, mcp, query) > 0
  {
  }

  /** A tool scores nothing exactly when every strategy misses. */
  lemma ZeroMeansNoMatch(t: ToolInfo, mcp: string, query: string)
    ensures Score(t, mcp, query) == 0 <==>
      && !ExactName(t.name, query) && !ExactName(mcp, query) && !NamePrefix(t.name, query)
      && !FuzzyMatch(t, query)
      && (forall term <- Tokenize(query) ::
            !Contains(Lower(t.name), term) && !Contains(Lower(t.description), term))
      && (Tokenize(query) != [] ==> !ContainsAll(Lower(mcp) + " " + Lower(t.name), Tokenize(query)))
  {
    var terms := Tokenize(query);
    LowerTwice(t.name);
    LowerTwice(t.description);
    CountsSome(Lower(t.name), terms);
    CountsSome(Lower(t.description), terms);
    hide Tokenize, Lower, Contains, CountMatching;
    if terms != [] {
      assert terms[0] in terms;
    }
  }

  lemma {:induction false} CountsSome(text: string, terms: seq<string>)
    ensures CountMatching(text, terms) == 0 <==> forall term <- terms :: !Contains(Lower(text), term)
  {
    if terms != [] {
      var front, last := terms[..|terms| - 1], terms[|terms| - 1];
      CountsSome(text, front);
      assert terms == front + [last];
    }
  }

  // ---------------------------------------------------------------- what each match is worth

  function Worth(p: bool, points: nat): nat
  {
    if p then points else 0
  }

  /** The relevance of a match, strategy by strategy. */
  lemma ScoreIsTheSum(t: ToolInfo, mcp: string, query: string)
    ensures var terms, q := Tokenize(query), Lower(query);
      var name, desc, crossed := Lower(t.name), Lower(t.description), Lower(mcp) + " " + Lower(t.name);
      var main :=
        Worth(name == q || Normalize(t.name) == Normalize(query), 1000) +
        Worth(Lower(mcp) == q || Normalize(mcp) == Normalize(query), 800) +
        Worth(q <= name || Normalize(query) <= Normalize(t.name), 300) +
        Worth(terms != [] && (forall term <- terms :: Contains(name, term)), 200) +
        Worth(terms != [] && (forall term <- terms :: Contains(crossed, term)), 150) +
        Worth(terms != [] && (forall term <- terms :: Contains(desc, term)), 100) +
        CountMatching(t.name, terms) * 50 + CountMatching(t.description, terms) * 25;
      Score(t, mcp, query) ==
        if main > 0 then main
        else Worth(Contains(name, q) || Contains(desc, q)
                   || Contains(Normalize(t.name), Normalize(query))
                   || Contains(Normalize(t.description), Normalize(query)), 10)
  {
    var terms := Tokenize(query);
    SameCounts(t.name, terms);
    SameCounts(t.description, terms);
    assert Lower(Lower(mcp) + " " + Lower(t.name)) == Lower(mcp) + " " + Lower(t.name);
    LowerTwice(t.name);
    LowerTwice(t.description);
    hide Tokenize, Lower, Contains, Normalize;
  }

  lemma {:induction false} SameCounts(text: string, terms: seq<string>)
    ensures CountMatching(Lower(text), terms) == CountMatching(text, terms)
  {
    LowerTwice(text);
    hide Lower, Contains;
    if terms != [] {
      SameCounts(text, terms[..|terms| - 1]);
    }
  }

  // ---------------------------------------------------------------- what ranks first

  /** A tool named exactly as the query: whatever else matches only adds. */
  lemma ExactNameScore(t: ToolInfo, mcp: string, query: string)
    requires Lower(t.name) == Lower(query)
    ensures Score(t, mcp, query) >=
      if Tokenize(query) == [] then 1300 else 1650 + 50 * |Tokenize(query)|
    ensures t.description == "" && !ExactName(mcp, query) && Tokenize(query) != [] ==>
      Score(t, mcp, query) == 1650 + 50 * |Tokenize(query)|
  {
    var terms := Tokenize(query);
    TermsOccur("", query, "");
    TermsOccur(Lower(mcp) + " ", query, "");
    assert "" + Lower(query) + "" == Lower(query);
    assert Lower(mcp) + " " + Lower(query) + "" == Lower(mcp) + " " + Lower(query);
    if t.description == "" && terms != [] {
      forall i | 0 <= i < |terms| ensures terms[i] != "" { TermOccurs(query, terms[i]); }
      CountsNone(terms);
      NotInEmpty(terms[0]);
      assert Lower("") == "";
      assert !ContainsAll("", terms);
    }
    hide Tokenize, Lower, Contains, CountMatching, ContainsAll;
  }

  lemma TermPointsBound(t: ToolInfo, mcp: string, terms: seq<string>)
    ensures TermPoints(t, mcp, terms) <= 450 + 75 * |terms|
  {
    hide Lower, ContainsAll, CountMatching;
  }

  /** The most any other tool can get. */
  lemma OtherNameBound(t: ToolInfo, mcp: string, query: string)
    requires !ExactName(t.name, query)
    ensures Score(t, mcp, query) <= if Tokenize(query) == [] then 1100 else 1550 + 75 * |Tokenize(query)|
  {
    TermPointsBound(t, mcp, Tokenize(query));
    hide Tokenize, TermPoints, ExactName, NamePrefix, FuzzyMatch;
  }

  /** A tool that gets it: the query is its MCP and its description, and starts its name. */
  predicate MatchesElsewhere(t: ToolInfo, mcp: string, query: string)
  {
    && Lower(mcp) == Lower(query) && Lower(t.description) == Lower(query)
    && HasPrefix(Lower(t.name), Lower(query))
  }

  lemma OtherNameReaches(t: ToolInfo, mcp: string, query: string)
    requires !ExactName(t.name, query) && MatchesElsewhere(t, mcp, query) && Tokenize(query) != []
    ensures Score(t, mcp, query) == 1550 + 75 * |Tokenize(query)|
  {
    AllTermPoints(t, mcp, query);
    hide Tokenize, TermPoints, FuzzyMatch;
  }

  lemma AllTermPoints(t: ToolInfo, mcp: string, query: string)
    requires MatchesElsewhere(t, mcp, query)
    ensures TermPoints(t, mcp, Tokenize(query)) == 450 + 75 * |Tokenize(query)|
  {
    hide Tokenize, Lower, CountMatching, ContainsAll;
    assert Lower(query) <= Lower(t.name) && Lower(query) <= Lower(t.description);
    TermsStart(Lower(t.name), query);
    TermsStart(Lower(t.description), query);
    TermsStart(Lower(mcp) + " " + Lower(t.name), query);
  }

  lemma TermsStart(text: string, query: string)
    requires Lower(query) <= text
    ensures ContainsAll(text, Tokenize(query)) && CountMatching(text, Tokenize(query)) == |Tokenize(query)|
  {
    hide Tokenize, Lower, CountMatching, ContainsAll;
    var after := text[|Lower(query)|..];
    TermsOccur("", query, after);
    assert "" + Lower(query) + after == text;
  }

  /** For at most three terms, a tool whose name is the query outranks every tool that
      fails the exact-name test. */
  lemma ExactNameOutranks(a: ToolInfo, mcpA: string, b: ToolInfo, mcpB: string, query: string)
    requires Lower(a.name) == Lower(query) && !ExactName(b.name, query)
    requires |Tokenize(query)| <= 3
    ensures Score(a, mcpA, query) > Score(b, mcpB, query)
  {
    ExactNameScore(a, mcpA, query);
    OtherNameBound(b, mcpB, query);
    hide Tokenize, Score;
  }

  /** The bound of three is exact: a bare tool named as the query against one that matches
      everywhere else wins if and only if there are fewer than four terms. */
  lemma OutrankedFromFourTerms(a: ToolInfo, mcpA: string, b: ToolInfo, mcpB: string, query: string)
    requires Lower(a.name) == Lower(query) && a.description == "" && !ExactName(mcpA, query)
    requires !ExactName(b.name, query) && MatchesElsewhere(b, mcpB, query)
    requires Tokenize(query) != []
    ensures Score(a, mcpA, query) > Score(b, mcpB, query) <==> |Tokenize(query)| < 4
    ensures Score(a, mcpA, query) == Score(b, mcpB, query) <==> |Tokenize(query)| == 4
  {
    ExactNameScore(a, mcpA, query);
    OtherNameReaches(b, mcpB, query);
    hide Tokenize, Score;
  }

  /** A name that extends the query fails the exact-name test for it. */
  lemma LongerIsNotExact(query: string)
    ensures !ExactName(query + "x", query)
    ensures HasPrefix(Lower(query + "x"), Lower(query))
  {
    assert Lower(query + "x") == Lower(query) + "x";
    WithoutConcat(Lower(query), "x", "_- ");
    assert Without("x", "_- ") == "x";
    assert |Normalize(query + "x")| == |Normalize(query)| + 1;
    hide Without;
  }

  /** An exact name outranks every other tool for exactly the queries of at most three
      terms. */
  lemma ExactNamesWinUpToThreeTerms(query: string)
    ensures (forall a: ToolInfo, mcpA, b: ToolInfo, mcpB ::
               Lower(a.name) == Lower(query) && !ExactName(b.name, query) ==>
               Score(a, mcpA, query) > Score(b, mcpB, query))
       <==> |Tokenize(query)| <= 3
  {
    hide Lower, ExactName, Tokenize, Score, HasPrefix;
    if |Tokenize(query)| <= 3 {
      forall a: ToolInfo, mcpA, b: ToolInfo, mcpB | Lower(a.name) == Lower(query) && !ExactName(b.name, query)
        ensures Score(a, mcpA, query) > Score(b, mcpB, query)
      {
        ExactNameOutranks(a, mcpA, b, mcpB, query);
      }
    } else {
      var a := ToolInfo(query, "", "", "", "");
      var b := ToolInfo(query + "x", query, query, "", "");
      LongerIsNotExact(query);
      ExactNameScore(a, query + "x", query);
      OtherNameReaches(b, query, query);
      assert Score(a, query + "x", query) <= Score(b, query, query);
    }
  }
}
