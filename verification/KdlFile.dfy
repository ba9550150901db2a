/** internal/config/kdl.go: whole files, written with sorted names and edited by reading,
    changing the map and writing again. */
module KdlFile {
  import opened Options
  import opened Ordering
  import opened McpConfig
  import opened KdlReader
  import opened KdlText
  import opened KdlConfig
  import opened KdlLexing
  import opened KdlRoundTrip

  // ---------------------------------------------------------------- a file reads back

  function FileNodes(names: seq<string>, cfg: Config): (r: seq<Node>)
    requires forall n <- names :: n in cfg
    ensures |r| == |names|
  {
    if names == [] then [] else FileNodes(names[..|names| - 1], cfg) + [McpNode(cfg[names[|names| - 1]])]
  }

  function FileTokens(ns: seq<Node>): seq<Token>
  {
    if ns == [] then []
    else FileTokens(ns[..|ns| - 1]) + (NodesTokens([ns[|ns| - 1]]) + [Newline])
  }

  lemma {:induction false} BlocksLex(names: seq<string>, cfg: Config)
    requires forall n <- names :: n in cfg
    ensures Lexes(BlocksText(names, cfg), FileTokens(FileNodes(names, cfg)))
  {
    hide Lexes, Block, NodesTokens, McpNode;
    if names == [] {
      NothingLexes();
    } else {
      var front, m := names[..|names| - 1], cfg[names[|names| - 1]];
      BlocksLex(front, cfg);
      BlockLexes(m);
      assert FileNodes(names, cfg)[..|names| - 1] == FileNodes(front, cfg);
      LexesThen(BlocksText(front, cfg), FileTokens(FileNodes(front, cfg)),
                Block(m), NodesTokens([McpNode(m)]) + [Newline]);
    }
  }

  lemma McpWellFormed(m: MCPConfig)
    ensures WellFormed([McpNode(m)])
  {
    ChildrenWellFormed(m);
    hide Children;
  }

  lemma ChildrenWellFormed(m: MCPConfig)
    ensures WellFormed(Children(m))
  {
    hide StringNode, ArgsNode, RetriesNode, DynamicNode, MapNode, KindWritten, WellFormed;
    PartsWellFormed(m);
    MapWellFormed("env", m.env);
    MapWellFormed("headers", m.headers);
    forall a, b | WellFormed(a) && WellFormed(b) ensures WellFormed(a + b) { BothWellFormed(a, b); }
  }

  lemma BothWellFormed(a: seq<Node>, b: seq<Node>)
    requires WellFormed(a) && WellFormed(b)
    ensures WellFormed(a + b)
  {
  }

  lemma PartsWellFormed(m: MCPConfig)
    ensures forall field, v :: WellFormed(StringNode(field, v))
    ensures WellFormed(ArgsNode(m.args)) && WellFormed(RetriesNode(m.maxRetries))
    ensures WellFormed(DynamicNode(m.isDynamic))
  {
    hide Strs, Decimal;
  }

  lemma MapWellFormed(field: string, m: map<string, string>)
    ensures WellFormed(MapNode(field, m))
  {
    hide SortedKeys, PairNodes;
    PairsWellFormed(SortedKeys(m.Keys), m);
  }

  lemma {:induction false} PairsWellFormed(keys: seq<string>, m: map<string, string>)
    requires forall k <- keys :: k in m
    ensures WellFormed(PairNodes(keys, m))
  {
    if keys != [] {
      PairsWellFormed(keys[..|keys| - 1], m);
    }
  }

  lemma {:induction false} FileParses(names: seq<string>, cfg: Config, more: seq<Token>)
    requires forall n <- names :: n in cfg
    ensures ParseNodes(FileTokens(FileNodes(names, cfg)) + more)
         == PrependNodes(FileNodes(names, cfg), ParseNodes(more))
  {
    hide ParseNodes, NodesTokens, McpNode;
    if names == [] {
      assert [] + more == more;
      if ParseNodes(more).Some? { assert [] + ParseNodes(more).value.0 == ParseNodes(more).value.0; }
    } else {
      var front, n := names[..|names| - 1], McpNode(cfg[names[|names| - 1]]);
      var ns, before := FileNodes(names, cfg), FileNodes(front, cfg);
      assert ns[..|names| - 1] == before;
      assert FileTokens(ns) + more == FileTokens(before) + (NodesTokens([n]) + ([Newline] + more));
      FileParses(front, cfg, NodesTokens([n]) + ([Newline] + more));
      McpWellFormed(cfg[names[|names| - 1]]);
      NodesParse([n], [Newline] + more);
      NewlineParses(more);
      if ParseNodes(more).Some? {
        assert ns + ParseNodes(more).value.0 == before + ([n] + ParseNodes(more).value.0);
      }
    }
  }

  /** The written text is syntactically one mcp node per entry, in name order. */
  lemma FileReads(cfg: Config)
    ensures ReadDocument(FileText(cfg)) == Some(FileNodes(SortedKeys(cfg.Keys), cfg))
  {
    var names := SortedKeys(cfg.Keys);
    hide SortedKeys, BlocksText, FileTokens, FileNodes;
    BlocksLex(names, cfg);
    FileParses(names, cfg, []);
    var text, ns := BlocksText(names, cfg), FileNodes(names, cfg);
    assert text + "" == text && ns + [] == ns && FileTokens(ns) + [] == FileTokens(ns);
    assert Lex("") == Some([]) && ParseNodes([]) == Some(([], []));
  }

  // ---------------------------------------------------------------- names

  /** Every written entry has a name, and no two have the same. */
  ghost predicate NamesDiffer(names: seq<string>, cfg: Config)
    requires forall n <- names :: n in cfg
  {
    && (forall n <- names :: cfg[n].name != "")
    && (forall i, j | 0 <= i < j < |names| :: cfg[names[i]].name != cfg[names[j]].name)
  }

  function ByName(names: seq<string>, cfg: Config, source: Source): (r: Config)
    requires forall n <- names :: n in cfg
    ensures forall k :: k in r <==> exists n <- names :: cfg[n].name == k
  {
    if names == [] then map[]
    else
      var m := cfg[names[|names| - 1]];
      var front := ByName(names[..|names| - 1], cfg, source);
      assert forall n <- names :: n in names[..|names| - 1] || n == names[|names| - 1];
      front[m.name := AsRead(m, source)]
  }

  lemma {:induction false} NodesRead(names: seq<string>, cfg: Config, source: Source)
    requires forall n <- names :: n in cfg
    ensures ConfigOf(FileNodes(names, cfg), source).Read? <==> NamesDiffer(names, cfg)
    ensures NamesDiffer(names, cfg) ==> ConfigOf(FileNodes(names, cfg), source) == Read(ByName(names, cfg, source))
  {
    if names != [] {
      var front, m := names[..|names| - 1], cfg[names[|names| - 1]];
      NodesRead(front, cfg, source);
      NamesDifferFromLast(names, cfg, source);
      NodeReads(ConfigOf(FileNodes(front, cfg), source), m, source);
      assert FileNodes(names, cfg)[..|names| - 1] == FileNodes(front, cfg);
      hide NamesDiffer, AddNode;
    }
  }

  lemma NodeReads(front: ReadResult, m: MCPConfig, source: Source)
    ensures var r := AddNode(front, McpNode(m), source);
      if front.Failed? then r == front
      else if m.name == "" || m.name in front.cfg then r.Failed?
      else r == Read(front.cfg[m.name := AsRead(m, source)])
  {
    hide Fields, Children, AsRead;
    ChildrenReadBack(m, source);
    KindIsRead(m, source);
    assert McpOf(McpNode(m), source) == Some(AsRead(m, source));
  }

  lemma NamesDifferFromLast(names: seq<string>, cfg: Config, source: Source)
    requires names != [] && forall n <- names :: n in cfg
    ensures var front, m := names[..|names| - 1], cfg[names[|names| - 1]];
      NamesDiffer(names, cfg) <==> NamesDiffer(front, cfg) && m.name != "" && m.name !in ByName(front, cfg, source)
  {
    var front, last := names[..|names| - 1], names[|names| - 1];
    var m, read := cfg[last], ByName(front, cfg, source).Keys;
    hide ByName;
    if NamesDiffer(front, cfg) && m.name != "" && m.name !in read {
      forall i, j | 0 <= i < j < |names| ensures cfg[names[i]].name != cfg[names[j]].name {
        assert names[i] == front[i] && names[i] in front;
      }
      assert forall n <- names :: n in front || n == last;
    } else if NamesDiffer(names, cfg) {
      FrontDiffers(names, cfg);
    }
  }

  lemma FrontDiffers(names: seq<string>, cfg: Config)
    requires names != [] && (forall n <- names :: n in cfg) && NamesDiffer(names, cfg)
    ensures var front, name := names[..|names| - 1], cfg[names[|names| - 1]].name;
      NamesDiffer(front, cfg) && name != "" && forall n <- front :: cfg[n].name != name
  {
    var front := names[..|names| - 1];
    forall n <- front ensures n in names && cfg[n].name != cfg[names[|names| - 1]].name {
      var i :| 0 <= i < |front| && front[i] == n;
      assert names[i] == n;
    }
  }

  lemma KindIsRead(m: MCPConfig, source: Source)
    ensures var r := AsRead(m, source); r.name == m.name && r.(kind := InferType(r.kind, r.command, r.url)) == r
  {
  }

  /** Whatever is written, the file can be read exactly when no entry is nameless and no
      two entries share a name. */
  lemma WrittenFileIsReadable(cfg: Config, source: Source)
    ensures ParseKDLConfig(FileText(cfg), source).Read? <==> NamesDiffer(SortedKeys(cfg.Keys), cfg)
  {
    FileReads(cfg);
    NodesRead(SortedKeys(cfg.Keys), cfg, source);
  }

  function AllAsRead(cfg: Config, source: Source): Config
  {
    map n | n in cfg :: AsRead(cfg[n], source)
  }

  /** The round trip: a map whose entries are filed under their own names reads back
      unchanged but for its source and an empty type, which is written as "command". */
  lemma WriteThenRead(cfg: Config, source: Source)
    requires forall n <- cfg :: cfg[n].name == n
    ensures ParseKDLConfig(FileText(cfg), source).Read? <==> "" !in cfg
    ensures "" !in cfg ==>
      var r := ParseKDLConfig(FileText(cfg), source).cfg;
      && r.Keys == cfg.Keys
      && forall n <- cfg ::
           r[n] == cfg[n].(source := source, kind := if cfg[n].kind == "" then "command" else cfg[n].kind)
  {
    hide ParseKDLConfig, FileText, KindWritten;
    ReadBack(cfg, source);
    forall n <- cfg { KindIsWritten(cfg[n].kind); }
  }

  lemma KindIsWritten(kind: string)
    ensures KindWritten(kind) == if kind == "" then "command" else kind
  {
  }

  lemma ReadBack(cfg: Config, source: Source)
    requires forall n <- cfg :: cfg[n].name == n
    ensures ParseKDLConfig(FileText(cfg), source).Read? <==> "" !in cfg
    ensures "" !in cfg ==> ParseKDLConfig(FileText(cfg), source) == Read(AllAsRead(cfg, source))
  {
    hide SortedKeys, FileText, ReadDocument, ConfigOf, FileNodes, NamesDiffer, AllAsRead, ByName;
    FileReads(cfg);
    NodesRead(SortedKeys(cfg.Keys), cfg, source);
    FileByName(cfg, source);
    OwnNamesDiffer(cfg);
  }

  lemma FileByName(cfg: Config, source: Source)
    requires forall n <- cfg :: cfg[n].name == n
    ensures ByName(SortedKeys(cfg.Keys), cfg, source) == AllAsRead(cfg, source)
  {
    hide AsRead;
    ByOwnName(SortedKeys(cfg.Keys), cfg, source);
  }

  lemma OwnNamesDiffer(cfg: Config)
    requires forall n <- cfg :: cfg[n].name == n
    ensures NamesDiffer(SortedKeys(cfg.Keys), cfg) <==> "" !in cfg
  {
    var names := SortedKeys(cfg.Keys);
    forall i, j | 0 <= i < j < |names| ensures names[i] != names[j] { LessTotal(names[i], names[j]); }
    hide SortedKeys, Less;
    assert forall i | 0 <= i < |names| :: names[i] in names;
    assert "" in cfg <==> "" in names;
  }

  lemma {:induction false} ByOwnName(names: seq<string>, cfg: Config, source: Source)
    requires forall n <- names :: n in cfg && cfg[n].name == n
    ensures ByName(names, cfg, source) == map n | n in names :: AsRead(cfg[n], source)
  {
    hide AsRead;
    if names != [] {
      var front, last := names[..|names| - 1], names[|names| - 1];
      ByOwnName(front, cfg, source);
      assert names == front + [last];
    }
  }

  // ---------------------------------------------------------------- the writer's loops

  method FormatArgs(args: seq<string>) returns (result: string)
    ensures result == ArgsLine(args)
  {
    hide Quote;
    result := "";
    if |args| > 0 {
      result := "    args";
      for i := 0 to |args|
        invariant result == "    args" + ArgsText(args[..i])
      {
        assert args[..i + 1][..i] == args[..i];
        result := result + (" " + Quote(args[i]));
      }
      assert args[..|args|] == args;
      result := result + "\n";
    }
  }

  method FormatMap(field: string, m: map<string, string>) returns (result: string)
    ensures result == MapBlock(field, m)
  {
    hide Quote, SortedKeys;
    result := "";
    if m != map[] {
      result := "    " + field + " {\n";
      var keys := SortedKeys(m.Keys);
      for i := 0 to |keys|
        invariant result == "    " + field + " {\n" + PairsText(keys[..i], m)
      {
        assert keys[..i + 1][..i] == keys[..i];
        result := result + ("        " + Quote(keys[i]) + " " + Quote(m[keys[i]]) + "\n");
      }
      assert keys[..|keys|] == keys;
      result := result + "    }\n";
    }
  }

  method FormatMCPBlock(m: MCPConfig) returns (result: string)
    ensures result == Block(m)
  {
    AbsentLines();
    hide Quote, Decimal, ArgsLine, MapBlock, StringLine, RetriesLine, DynamicLine, KindWritten;
    result := "mcp " + Quote(m.name) + " {\n";
    if m.kind != "" {
      result := result + StringLine("type", m.kind);
    } else {
      result := result + "    type \"command\"\n";
    }
    assert result == Head(m) + StringLine("type", KindWritten(m.kind)) by { KindLine(m.kind); }
    if m.command != "" {
      result := result + StringLine("command", m.command);
    }
    ghost var t2 := Head(m) + StringLine("type", KindWritten(m.kind)) + StringLine("command", m.command);
    assert result == t2;
    var args := FormatArgs(m.args);
    result := result + args;
    if m.url != "" {
      result := result + StringLine("url", m.url);
    }
    ghost var t4 := t2 + ArgsLine(m.args) + StringLine("url", m.url);
    assert result == t4;
    if m.timeout != "" {
      result := result + StringLine("timeout", m.timeout);
    }
    assert result == t4 + StringLine("timeout", m.timeout);
    if m.maxRetries != 0 {
      result := result + RetriesLine(m.maxRetries);
    }
    ghost var t6 := t4 + StringLine("timeout", m.timeout) + RetriesLine(m.maxRetries);
    assert result == t6;
    if m.healthCheckInterval != "" {
      result := result + StringLine("health_check_interval", m.healthCheckInterval);
    }
    assert result == t6 + StringLine("health_check_interval", m.healthCheckInterval);
    if m.isDynamic {
      result := result + "    dynamic true\n";
    }
    assert result == t6 + StringLine("health_check_interval", m.healthCheckInterval) + DynamicLine(m.isDynamic);
    var env := FormatMap("env", m.env);
    result := result + env;
    var headers := FormatMap("headers", m.headers);
    result := result + headers + "}\n\n";
  }

  lemma KindLine(kind: string)
    ensures StringLine("type", KindWritten(kind)) ==
      if kind == "" then "    type \"command\"\n" else StringLine("type", kind)
  {
    CommandQuoted();
    hide StringLine;
  }

  lemma CommandQuoted()
    ensures StringLine("type", "command") == "    type \"command\"\n"
  {
    QuotedWord();
    hide Quote, Escape;
    assert "    " + "type" + " " == "    type ";
    assert "    type " + "\"command\"" + "\n" == "    type \"command\"\n";
  }

  lemma QuotedWord()
    ensures Quote("command") == "\"command\""
  {
    PlainQuote("command");
    hide Quote, Escape;
    assert "\"" + "command" + "\"" == "\"command\"";
  }

  lemma {:induction false} PlainQuote(s: string)
    requires forall i | 0 <= i < |s| :: 'a' <= s[i] <= 'z'
    ensures Escape(s) == s && Quote(s) == "\"" + s + "\""
  {
    if s != "" {
      PlainQuote(s[1..]);
    }
  }

  lemma AbsentLines()
    ensures forall field :: StringLine(field, "") == ""
    ensures RetriesLine(0) == "" && DynamicLine(false) == "" && DynamicLine(true) == "    dynamic true\n"
    ensures forall t: string :: t + "" == t
  {
  }

  method FormatFile(cfg: Config) returns (content: string)
    ensures content == FileText(cfg)
  {
    hide Block, SortedKeys;
    content := "";
    var names := SortedKeys(cfg.Keys);
    for i := 0 to |names|
      invariant content == BlocksText(names[..i], cfg)
    {
      assert names[..i + 1][..i] == names[..i];
      var block := FormatMCPBlock(cfg[names[i]]);
      content := content + block;
    }
    assert names[..|names|] == names;
  }

  // ---------------------------------------------------------------- editing a file

  /** Every entry under its own, non-empty name, with a type. */
  ghost predicate Filed(cfg: Config)
  {
    forall n <- cfg :: n != "" && cfg[n].name == n && cfg[n].kind != ""
  }

  /** loadConfigFile: a missing file is an empty configuration. */
  function Loaded(content: Option<string>, source: Source): ReadResult
  {
    if content.None? then Read(map[]) else ParseKDLConfig(content.value, source)
  }

  lemma {:induction false} ConfigIsFiled(ns: seq<Node>, source: Source)
    ensures ConfigOf(ns, source).Read? ==> Filed(ConfigOf(ns, source).cfg)
  {
    hide McpOf;
    if ns != [] {
      ConfigIsFiled(ns[..|ns| - 1], source);
    }
  }

  lemma LoadedIsFiled(content: Option<string>, source: Source)
    ensures Loaded(content, source).Read? ==> Filed(Loaded(content, source).cfg)
  {
    hide ReadDocument, ConfigOf;
    if content.Some? && ReadDocument(content.value).Some? {
      ConfigIsFiled(ReadDocument(content.value).value, source);
    }
  }

  function Entry(name: string, m: MCPConfig): MCPConfig
  {
    m.(name := name, kind := InferType(m.kind, m.command, m.url))
  }

  function Edited(cfg: Config, mcps: Config): Config
  {
    cfg + map n | n in mcps :: Entry(n, mcps[n])
  }

  lemma NothingEdited(cfg: Config, mcps: Config)
    ensures Edited(cfg, mcps - mcps.Keys) == cfg
  {
  }

  lemma OneMoreEdited(cfg: Config, mcps: Config, todo: set<string>, n: string)
    requires n in todo && todo <= mcps.Keys
    ensures Edited(cfg, mcps - (todo - {n})) == Edited(cfg, mcps - todo)[n := Entry(n, mcps[n])]
  {
    hide Entry;
  }

  /** Adding entries to a file changes the named entries and nothing else; a file given a
      nameless entry can no longer be read at all. */
  lemma AddChangesOnlyTheNamed(content: Option<string>, mcps: Config, source: Source)
    requires Loaded(content, SourceProject).Read?
    ensures var before := Loaded(content, SourceProject).cfg;
      var after := ParseKDLConfig(FileText(Edited(before, mcps)), source);
      && (after.Read? <==> "" !in mcps)
      && (after.Read? ==> after.cfg.Keys == before.Keys + mcps.Keys)
      && (after.Read? ==> forall n <- after.cfg ::
            if n !in mcps then after.cfg[n] == before[n].(source := source)
            else
              var m := mcps[n];
              var kind := if m.kind != "" then m.kind
                          else if m.command == "" && m.url != "" then "http" else "stdio";
              after.cfg[n] == m.(name := n, kind := kind, source := source))
  {
    hide ParseKDLConfig, FileText;
    var before := Loaded(content, SourceProject).cfg;
    LoadedIsFiled(content, SourceProject);
    hide Loaded;
    ReadBack(Edited(before, mcps), source);
  }

  /** Removing an entry leaves every other entry as it was. */
  lemma RemoveChangesOnlyTheNamed(content: Option<string>, name: string, source: Source)
    requires Loaded(content, SourceProject).Read?
    ensures var before := Loaded(content, SourceProject).cfg;
      ParseKDLConfig(FileText(before - {name}), source)
      == Read(map n | n in before && n != name :: before[n].(source := source))
  {
    hide ParseKDLConfig, FileText;
    var before := Loaded(content, SourceProject).cfg;
    LoadedIsFiled(content, SourceProject);
    hide Loaded;
    ReadBack(before - {name}, source);
    assert AllAsRead(before - {name}, source) == map n | n in before && n != name :: before[n].(source := source);
  }

  datatype EditError = ReadFailed | WriteFailed | Unreadable(error: ReadError) | NotFound(name: string)

  /** Whether the disk lets the file be read, and its replacement be written. */
  datatype Disk = Disk(readable: bool, writable: bool)

  /** What an edit finds, before it changes anything. */
  function EditBase(content: Option<string>, disk: Disk): Result
  {
    if !disk.readable then Refused(ReadFailed)
    else if Loaded(content, SourceProject).Failed? then Refused(Unreadable(Loaded(content, SourceProject).error))
    else Base(Loaded(content, SourceProject).cfg)
  }

  datatype Result = Base(cfg: Config) | Refused(error: EditError)

  class ConfigFile {
    var content: Option<string>

    constructor (content: Option<string>)
      ensures this.content == content
    {
      this.content := content;
    }

    /** The file is replaced as a whole, or not at all. */
    method WriteConfigFile(cfg: Config, disk: Disk) returns (err: Option<EditError>)
      modifies this
      ensures err == if disk.writable then None else Some(WriteFailed)
      ensures content == if disk.writable then Some(FileText(cfg)) else old(content)
    {
      var text := FormatFile(cfg);
      if !disk.writable {
        return Some(WriteFailed);
      }
      content := Some(text);
      err := None;
    }

    method AddMCPConfigsToFile(mcps: Config, disk: Disk) returns (err: Option<EditError>)
      modifies this
      ensures var before :=
          if old(content).None? then Read(map[]) else ParseKDLConfig(old(content).value, SourceProject);
        if !disk.readable || before.Failed? || !disk.writable then
          && content == old(content)
          && err == Some(if !disk.readable then ReadFailed
                         else if before.Failed? then Unreadable(before.error) else WriteFailed)
        else err.None? && content == Some(FileText(Edited(before.cfg, mcps)))
    {
      hide FileText, Edited, Entry, ParseKDLConfig;
      var base := EditBase(content, disk);
      if base.Refused? {
        return Some(base.error);
      }
      var cfg := base.cfg;
      NothingEdited(cfg, mcps);
      var todo := mcps.Keys;
      while todo != {}
        invariant todo <= mcps.Keys && content == old(content)
        invariant cfg == Edited(base.cfg, mcps - todo)
        decreases todo
      {
        var n :| n in todo;
        OneMoreEdited(base.cfg, mcps, todo, n);
        todo := todo - {n};
        cfg := cfg[n := Entry(n, mcps[n])];
      }
      assert mcps - todo == mcps;
      err := WriteConfigFile(cfg, disk);
    }

    method RemoveMCPFromFile(name: string, disk: Disk) returns (err: Option<EditError>)
      modifies this
      ensures var before :=
          if old(content).None? then Read(map[]) else ParseKDLConfig(old(content).value, SourceProject);
        if !disk.readable || before.Failed? || name !in before.cfg || !disk.writable then
          && content == old(content)
          && err == Some(if !disk.readable then ReadFailed
                         else if before.Failed? then Unreadable(before.error)
                         else if name !in before.cfg then NotFound(name) else WriteFailed)
        else err.None? && content == Some(FileText(before.cfg - {name}))
    {
      hide FileText, ParseKDLConfig;
      var base := EditBase(content, disk);
      if base.Refused? {
        return Some(base.error);
      }
      if name !in base.cfg {
        return Some(NotFound(name));
      }
      err := WriteConfigFile(base.cfg - {name}, disk);
    }
  }
}
