/** internal/registry/index.go: searching the tool index. */
module Search {
  import opened Ordering
  import opened RegistryCore
  import opened Strings
  import opened SearchScore

  datatype Scored = Scored(tool: ToolInfo, score: nat)

  // ---------------------------------------------------------------- result order

  predicate LessTool(a: ToolInfo, b: ToolInfo)
  {
    if a.mcpName != b.mcpName then Less(a.mcpName, b.mcpName) else Less(a.name, b.name)
  }

  /** Score first, then MCP and tool name. */
  predicate Precedes(a: Scored, b: Scored)
  {
    a.score > b.score || (a.score == b.score && LessTool(a.tool, b.tool))
  }

  lemma NotAfterTransitive(a: Scored, b: Scored, c: Scored)
    requires !Precedes(b, a) && !Precedes(c, b)
    ensures !Precedes(c, a)
  {
    var x, y, z := a.tool, b.tool, c.tool;
    LessTotal(x.mcpName, y.mcpName);
    LessTotal(y.mcpName, z.mcpName);
    LessTotal(x.mcpName, z.mcpName);
    LessTotal(x.name, y.name);
    LessTotal(y.name, z.name);
    LessTotal(x.name, z.name);
    hide Less;
    if Less(x.mcpName, y.mcpName) && Less(y.mcpName, z.mcpName) { LessTransitive(x.mcpName, y.mcpName, z.mcpName); }
    if Less(x.name, y.name) && Less(y.name, z.name) { LessTransitive(x.name, y.name, z.name); }
  }

  ghost predicate Ranked(s: seq<Scored>)
  {
    forall i, j | 0 <= i < j < |s| :: !Precedes(s[j], s[i])
  }

  function Insert(x: Scored, s: seq<Scored>): (r: seq<Scored>)
    ensures multiset(r) == multiset(s) + multiset{x}
  {
    if s == [] then [x]
    else
      assert s == [s[0]] + s[1..];
      if Precedes(s[0], x) then [s[0]] + Insert(x, s[1..]) else [x] + s
  }

  lemma {:induction false} InsertRanks(x: Scored, s: seq<Scored>)
    requires Ranked(s)
    ensures Ranked(Insert(x, s))
  {
    if s == [] {
    } else if Precedes(s[0], x) {
      var r := Insert(x, s[1..]);
      InsertRanks(x, s[1..]);
      forall j | 0 <= j < |r| ensures !Precedes(r[j], s[0]) {
        assert r[j] in multiset(r);
        LessTotal(s[0].tool.mcpName, x.tool.mcpName);
        LessTotal(s[0].tool.name, x.tool.name);
        if r[j] != x { assert r[j] in s[1..]; }
      }
    } else {
      forall j | 0 <= j < |s| ensures !Precedes(s[j], x) {
        if j > 0 { NotAfterTransitive(x, s[0], s[j]); }
      }
    }
  }

  /** sort.Slice: some order that ranks them. */
  function Rank(s: seq<Scored>): (r: seq<Scored>)
    ensures multiset(r) == multiset(s)
  {
    if s == [] then []
    else
      assert s == s[..|s| - 1] + [s[|s| - 1]];
      Insert(s[|s| - 1], Rank(s[..|s| - 1]))
  }

  lemma {:induction false} RankRanks(s: seq<Scored>)
    ensures Ranked(Rank(s))
  {
    if s != [] {
      RankRanks(s[..|s| - 1]);
      InsertRanks(s[|s| - 1], Rank(s[..|s| - 1]));
    }
  }

  // ---------------------------------------------------------------- what a search collects

  /** An empty query takes every tool, unscored. */
  function Relevant(t: ToolInfo, mcp: Name, query: string): seq<Scored>
  {
    if query == "" then [Scored(t, 0)]
    else if Score(t, mcp, query) > 0 then [Scored(t, Score(t, mcp, query))]
    else []
  }

  function OfMcp(mcp: Name, tools: seq<ToolInfo>, query: string): seq<Scored>
  {
    if tools == [] then []
    else OfMcp(mcp, tools[..|tools| - 1], query) + Relevant(tools[|tools| - 1], mcp, query)
  }

  /** Each MCP the filter lets through, once. */
  function Collected(index: Tools, mcps: set<Name>, query: string, only: Name): multiset<Scored>
    requires mcps <= index.Keys
    decreases |mcps|
  {
    if mcps == {} then multiset{}
    else
      var mcp := Least(mcps);
      McpPart(index, mcp, query, only) + Collected(index, mcps - {mcp}, query, only)
  }

  function McpPart(index: Tools, mcp: Name, query: string, only: Name): multiset<Scored>
    requires mcp in index
  {
    if only != "" && mcp != only then multiset{} else multiset(OfMcp(mcp, index[mcp], query))
  }

  /** The order in which MCPs are visited does not matter. */
  lemma {:induction false} CollectedSplits(index: Tools, mcps: set<Name>, mcp: Name, query: string, only: Name)
    requires mcps <= index.Keys && mcp in mcps
    ensures Collected(index, mcps, query, only)
         == McpPart(index, mcp, query, only) + Collected(index, mcps - {mcp}, query, only)
    decreases |mcps|
  {
    var least := Least(mcps);
    hide McpPart;
    if mcp != least {
      CollectedSplits(index, mcps - {least}, mcp, query, only);
      var rest := mcps - {mcp};
      assert least in rest && rest - {least} == mcps - {least} - {mcp};
      LeastUnique(Least(rest), least, rest);
    }
  }

  /** This is the tool with its score, if it scores; the empty query takes every tool. */
  predicate Answers(x: Scored, t: ToolInfo, mcp: Name, query: string)
  {
    x.tool == t && if query == "" then x.score == 0 else x.score == Score(t, mcp, query) > 0
  }

  lemma {:induction false} CollectedHolds(index: Tools, mcps: set<Name>, query: string, only: Name, x: Scored)
    requires mcps <= index.Keys
    ensures x in Collected(index, mcps, query, only) <==>
      exists mcp, i :: mcp in mcps && (only == "" || mcp == only) && 0 <= i < |index[mcp]| &&
        Answers(x, index[mcp][i], mcp, query)
    decreases |mcps|
  {
    if mcps != {} {
      var mcp := Least(mcps);
      var rest := mcps - {mcp};
      CollectedHolds(index, rest, query, only, x);
      PartHolds(index, mcp, query, only, x);
      hide Answers, McpPart;
      if n, i :| n in rest && (only == "" || n == only) && 0 <= i < |index[n]| && Answers(x, index[n][i], n, query) {
        assert n in mcps;
      }
    }
  }

  lemma PartHolds(index: Tools, mcp: Name, query: string, only: Name, x: Scored)
    requires mcp in index
    ensures x in McpPart(index, mcp, query, only) <==>
      (only == "" || mcp == only) && exists i :: 0 <= i < |index[mcp]| && Answers(x, index[mcp][i], mcp, query)
  {
    OfMcpHolds(mcp, index[mcp], query, x);
    hide Answers, OfMcp;
  }

  lemma {:induction false} OfMcpHolds(mcp: Name, tools: seq<ToolInfo>, query: string, x: Scored)
    ensures x in OfMcp(mcp, tools, query) <==> exists i :: 0 <= i < |tools| && Answers(x, tools[i], mcp, query)
  {
    if tools != [] {
      var last := |tools| - 1;
      OfMcpHolds(mcp, tools[..last], query, x);
      RelevantAnswers(x, tools[last], mcp, query);
      hide Relevant, Answers;
      if i :| 0 <= i < |tools[..last]| && Answers(x, tools[..last][i], mcp, query) {
        assert Answers(x, tools[i], mcp, query);
      }
      if i :| 0 <= i < |tools| && Answers(x, tools[i], mcp, query) {
        if i < last { assert tools[..last][i] == tools[i]; }
      }
    }
  }

  lemma RelevantAnswers(x: Scored, t: ToolInfo, mcp: Name, query: string)
    ensures x in Relevant(t, mcp, query) <==> Answers(x, t, mcp, query)
  {
  }

  // ---------------------------------------------------------------- the methods

  method ContainsAllTerms(text: string, terms: seq<string>) returns (all: bool)
    ensures all == ContainsAll(text, terms)
  {
    var textLower := Lower(text);
    for i := 0 to |terms|
      invariant forall k | 0 <= k < i :: Contains(textLower, terms[k])
    {
      if !Contains(textLower, terms[i]) {
        return false;
      }
    }
    all := true;
  }

  method CountMatchingTerms(text: string, terms: seq<string>) returns (count: nat)
    ensures count == CountMatching(text, terms)
  {
    var textLower := Lower(text);
    count := 0;
    for i := 0 to |terms|
      invariant count == CountMatching(text, terms[..i])
    {
      assert terms[..i + 1][..i] == terms[..i];
      if Contains(textLower, terms[i]) {
        count := count + 1;
      }
    }
    assert terms[..|terms|] == terms;
  }

  method ScoreTool(t: ToolInfo, mcp: string, query: string) returns (score: nat)
    ensures score == Score(t, mcp, query)
  {
    hide ExactName, NamePrefix, FuzzyMatch, Tokenize, ContainsAll, CountMatching, Lower;
    score := 0;
    if ExactName(t.name, query) {
      score := score + EXACT_TOOL_NAME;
    }
    if ExactName(mcp, query) {
      score := score + MCP_NAME_MATCH;
    }
    if NamePrefix(t.name, query) {
      score := score + TOOL_NAME_PREFIX;
    }
    var terms := Tokenize(query);
    if |terms| > 0 {
      var points := ScoreTerms(t, mcp, terms);
      score := score + points;
    }
    if score == 0 && FuzzyMatch(t, query) {
      score := FUZZY_MATCH;
    }
  }

  method ScoreTerms(t: ToolInfo, mcp: string, terms: seq<string>) returns (score: nat)
    ensures score == TermPoints(t, mcp, terms)
  {
    hide ContainsAll, CountMatching, Lower;
    score := 0;
    var inName := ContainsAllTerms(Lower(t.name), terms);
    if inName {
      score := score + ALL_TERMS_IN_NAME;
    }
    var crossed := ContainsAllTerms(Lower(mcp) + " " + Lower(t.name), terms);
    if crossed {
      score := score + ALL_TERMS_CROSSED;
    }
    var inDesc := ContainsAllTerms(Lower(t.description), terms);
    if inDesc {
      score := score + ALL_TERMS_IN_DESC;
    }
    var nameMatches := CountMatchingTerms(Lower(t.name), terms);
    if nameMatches > 0 {
      score := score + nameMatches * PARTIAL_TERM_NAME;
    }
    var descMatches := CountMatchingTerms(Lower(t.description), terms);
    if descMatches > 0 {
      score := score + descMatches * PARTIAL_TERM_DESC;
    }
  }

  method ScoreIndex(index: Tools, query: string, only: Name) returns (scored: seq<Scored>)
    ensures multiset(scored) == Collected(index, index.Keys, query, only)
  {
    NothingCollected(index, query, only);
    hide Collected, OfMcp;
    scored := [];
    var todo := index.Keys;
    while todo != {}
      invariant todo <= index.Keys
      invariant multiset(scored) + Collected(index, todo, query, only) == Collected(index, index.Keys, query, only)
      decreases todo
    {
      var mcp :| mcp in todo;
      CollectedSplits(index, todo, mcp, query, only);
      todo := todo - {mcp};
      if only == "" || mcp == only {
        var part := ScoreMcp(mcp, index[mcp], query);
        scored := scored + part;
      }
    }
  }

  lemma NothingCollected(index: Tools, query: string, only: Name)
    ensures Collected(index, {}, query, only) == multiset{}
  {
  }

  /** Every tool that scores, each as often as it is indexed, best first. */
  method SearchIndex(index: Tools, query: string, only: Name) returns (results: seq<ToolInfo>, ranked: seq<Scored>)
    ensures |results| == |ranked| && forall i | 0 <= i < |results| :: results[i] == ranked[i].tool
    ensures Ranked(ranked)
    ensures forall i, j | 0 <= i < j < |ranked| :: InOrder(ranked[i], ranked[j])
    ensures multiset(ranked) == Collected(index, index.Keys, query, only)
    ensures query != "" && |Tokenize(query)| <= 3 ==>
      forall i, j | 0 <= i < |ranked| && 0 <= j < |ranked| ::
        Lower(ranked[i].tool.name) == Lower(query) && !ExactName(ranked[j].tool.name, query) ==> i < j
  {
    hide Collected, Ranked, Rank, InOrder, Lower, Tokenize, ExactName;
    var scored := ScoreIndex(index, query, only);
    RankRanks(scored);
    ranked := Rank(scored);
    RankedIsInOrder(ranked);
    if query != "" && |Tokenize(query)| <= 3 {
      ExactNamesComeFirst(ranked, index, query, only);
    }
    var sorted := ranked;
    results := seq(|sorted|, i requires 0 <= i < |sorted| => sorted[i].tool);
  }

  /** The higher score first; on equal scores the MCP's name, then the tool's, must not be the
      greater one at the first byte that differs. */
  ghost predicate InOrder(a: Scored, b: Scored)
  {
    || a.score > b.score
    || (a.score == b.score
        && !(exists k: nat :: SmallerFrom(b.tool.mcpName, a.tool.mcpName, k))
        && (a.tool.mcpName == b.tool.mcpName ==> !(exists k: nat :: SmallerFrom(b.tool.name, a.tool.name, k))))
  }

  lemma NotAfterIsInOrder(a: Scored, b: Scored)
    requires !Precedes(b, a)
    ensures InOrder(a, b)
  {
    LessTotal(a.tool.mcpName, b.tool.mcpName);
    LessByFirstDifference(b.tool.mcpName, a.tool.mcpName);
    LessByFirstDifference(b.tool.name, a.tool.name);
    hide Less, SmallerFrom;
  }

  lemma RankedIsInOrder(s: seq<Scored>)
    requires Ranked(s)
    ensures forall i, j | 0 <= i < j < |s| :: InOrder(s[i], s[j])
  {
    forall i, j | 0 <= i < j < |s| ensures InOrder(s[i], s[j]) { NotAfterIsInOrder(s[i], s[j]); }
  }

  /** For a query of at most three terms, every tool named as the query comes before every one
      that fails the exact-name test. */
  lemma ExactNamesComeFirst(ranked: seq<Scored>, index: Tools, query: string, only: Name)
    requires query != "" && |Tokenize(query)| <= 3
    requires multiset(ranked) == Collected(index, index.Keys, query, only)
    requires forall i, j | 0 <= i < j < |ranked| :: InOrder(ranked[i], ranked[j])
    ensures forall i, j | 0 <= i < |ranked| && 0 <= j < |ranked| ::
      Lower(ranked[i].tool.name) == Lower(query) && !ExactName(ranked[j].tool.name, query) ==> i < j
  {
    hide Collected, Lower, Tokenize, ExactName, SmallerFrom;
    forall i, j | 0 <= i < |ranked| && 0 <= j < |ranked| && Lower(ranked[i].tool.name) == Lower(query)
                  && !ExactName(ranked[j].tool.name, query)
      ensures i < j
    {
      var a, b := ranked[i], ranked[j];
      var mcpA := ScoredUnder(ranked, index, query, only, i);
      var mcpB := ScoredUnder(ranked, index, query, only, j);
      ExactNameOutranks(a.tool, mcpA, b.tool, mcpB, query);
    }
  }

  lemma AnswersWithItsScore(x: Scored, t: ToolInfo, mcp: Name, query: string)
    requires query != "" && Answers(x, t, mcp, query)
    ensures x.tool == t && x.score == Score(t, mcp, query)
  {
  }

  lemma ScoredUnder(ranked: seq<Scored>, index: Tools, query: string, only: Name, i: nat) returns (mcp: Name)
    requires query != "" && i < |ranked| && multiset(ranked) == Collected(index, index.Keys, query, only)
    ensures ranked[i].score == Score(ranked[i].tool, mcp, query)
  {
    hide Collected, Score;
    var x := ranked[i];
    assert x in multiset(ranked);
    CollectedHolds(index, index.Keys, query, only, x);
    var n, k :| n in index && 0 <= k < |index[n]| && Answers(x, index[n][k], n, query);
    AnswersWithItsScore(x, index[n][k], n, query);
    mcp := n;
  }

  method ScoreMcp(mcp: Name, tools: seq<ToolInfo>, query: string) returns (scored: seq<Scored>)
    ensures scored == OfMcp(mcp, tools, query)
  {
    hide Score;
    scored := [];
    for i := 0 to |tools|
      invariant scored == OfMcp(mcp, tools[..i], query)
    {
      assert tools[..i + 1][..i] == tools[..i];
      if query == "" {
        scored := scored + [Scored(tools[i], 0)];
      } else {
        var score := ScoreTool(tools[i], mcp, query);
        if score > 0 {
          scored := scored + [Scored(tools[i], score)];
        }
      }
    }
    assert tools[..|tools|] == tools;
  }

  /** A tool a substring scan would find is among the results. */
  lemma SubstringIsFound(index: Tools, mcp: Name, i: nat, query: string)
    requires mcp in index && i < |index[mcp]|
    requires var t := index[mcp][i];
      Contains(Lower(t.name), Lower(query)) || Contains(Lower(t.description), Lower(query))
    ensures exists score :: Scored(index[mcp][i], score) in Collected(index, index.Keys, query, "")
    ensures exists score :: Scored(index[mcp][i], score) in Collected(index, index.Keys, query, mcp)
  {
    var t := index[mcp][i];
    SubstringScores(t, mcp, query);
    var x := Scored(t, if query == "" then 0 else Score(t, mcp, query));
    assert Answers(x, t, mcp, query);
    hide Answers, Collected;
    CollectedHolds(index, index.Keys, query, "", x);
    CollectedHolds(index, index.Keys, query, mcp, x);
  }
}
