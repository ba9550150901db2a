/** internal/config/kdl.go: what ParseKDLConfig makes of a document, and
    how the fields of a written block come back. */
module KdlConfig {
  import opened Options
  import opened Ordering
  import opened McpConfig
  import opened KdlReader
  import opened KdlText

  // ---------------------------------------------------------------- unmarshalling

  function StringArg(n: Node): Option<string>
  {
    if |n.args| == 1 && n.args[0].Str? then Some(n.args[0].text) else None
  }

  function StringArgs(args: seq<Token>): Option<seq<string>>
  {
    if args == [] then Some([])
    else
      var front, last := StringArgs(args[..|args| - 1]), args[|args| - 1];
      if front.None? || !last.Str? then None else Some(front.value + [last.text])
  }

  function Pairs(ns: seq<Node>): Option<map<string, string>>
  {
    if ns == [] then Some(map[])
    else
      var front, last := Pairs(ns[..|ns| - 1]), ns[|ns| - 1];
      if front.None? || StringArg(last).None? then None
      else Some(front.value[TextOf(last.name) := StringArg(last).value])
  }

  function BoolArg(n: Node): Option<bool>
  {
    if n.args == [Word("true")] then Some(true) else if n.args == [Word("false")] then Some(false) else None
  }

  function IntArg(n: Node): Option<int>
  {
    if |n.args| == 1 && n.args[0].Word? then ReadInt(n.args[0].text) else None
  }

  /** One child of an mcp node sets the field its name stands for; others are ignored. */
  function Field(c: Option<MCPConfig>, n: Node): Option<MCPConfig>
  {
    if c.None? then None
    else
      var m := c.value;
      match TextOf(n.name)
      case "type" => if StringArg(n).None? then None else Some(m.(kind := StringArg(n).value))
      case "command" => if StringArg(n).None? then None else Some(m.(command := StringArg(n).value))
      case "args" => if StringArgs(n.args).None? then None else Some(m.(args := StringArgs(n.args).value))
      case "env" => if Pairs(n.children).None? then None else Some(m.(env := Pairs(n.children).value))
      case "url" => if StringArg(n).None? then None else Some(m.(url := StringArg(n).value))
      case "headers" => if Pairs(n.children).None? then None else Some(m.(headers := Pairs(n.children).value))
      case "timeout" => if StringArg(n).None? then None else Some(m.(timeout := StringArg(n).value))
      case "max_retries" => if IntArg(n).None? then None else Some(m.(maxRetries := IntArg(n).value))
      case "health_check_interval" =>
        if StringArg(n).None? then None else Some(m.(healthCheckInterval := StringArg(n).value))
      case "dynamic" => if BoolArg(n).None? then None else Some(m.(isDynamic := BoolArg(n).value))
      case _ => c
  }

  function Fields(c: Option<MCPConfig>, ns: seq<Node>): Option<MCPConfig>
  {
    if ns == [] then c else Field(Fields(c, ns[..|ns| - 1]), ns[|ns| - 1])
  }

  function Blank(name: string, source: Source): MCPConfig
  {
    MCPConfig(name, "", "", [], map[], "", map[], "", 0, "", false, source)
  }

  /** One mcp node: its first argument is the name, its children are the fields. */
  function McpOf(n: Node, source: Source): Option<MCPConfig>
  {
    var name := if n.args == [] then Some("") else if n.args[0].Str? then Some(n.args[0].text) else None;
    if name.None? then None else Fields(Some(Blank(name.value, source)), n.children)
  }

  datatype ReadError = BadSyntax | BadField | MissingName | DuplicateName(name: string)
  datatype ReadResult = Read(cfg: Config) | Failed(error: ReadError)

  /** One round of ParseKDLConfig's loop; nodes other than mcp are ignored. */
  function AddNode(front: ReadResult, n: Node, source: Source): ReadResult
  {
    if front.Failed? || TextOf(n.name) != "mcp" then front
    else
      var m := McpOf(n, source);
      if m.None? then Failed(BadField)
      else if m.value.name == "" then Failed(MissingName)
      else if m.value.name in front.cfg then Failed(DuplicateName(m.value.name))
      else
        var kind := InferType(m.value.kind, m.value.command, m.value.url);
        Read(front.cfg[m.value.name := m.value.(kind := kind)])
  }

  function ConfigOf(ns: seq<Node>, source: Source): ReadResult
  {
    if ns == [] then Read(map[]) else AddNode(ConfigOf(ns[..|ns| - 1], source), ns[|ns| - 1], source)
  }

  function ParseKDLConfig(data: string, source: Source): ReadResult
  {
    var doc := ReadDocument(data);
    if doc.None? then Failed(BadSyntax) else ConfigOf(doc.value, source)
  }

  // ---------------------------------------------------------------- the nodes a block stands for

  function StringNode(field: string, v: string): seq<Node>
  {
    if v == "" then [] else [Node(Word(field), [Str(v)], [])]
  }

  function Strs(args: seq<string>): (r: seq<Token>)
    ensures forall t <- r :: t.Str?
    ensures |r| == |args|
  {
    if args == [] then [] else Strs(args[..|args| - 1]) + [Str(args[|args| - 1])]
  }

  function ArgsNode(args: seq<string>): seq<Node>
  {
    if args == [] then [] else [Node(Word("args"), Strs(args), [])]
  }

  function RetriesNode(n: int): seq<Node>
  {
    if n == 0 then [] else [Node(Word("max_retries"), [Word(Decimal(n))], [])]
  }

  function DynamicNode(d: bool): seq<Node>
  {
    if d then [Node(Word("dynamic"), [Word("true")], [])] else []
  }

  function PairNodes(keys: seq<string>, m: map<string, string>): (r: seq<Node>)
    requires forall k <- keys :: k in m
    ensures |r| == |keys|
  {
    if keys == [] then []
    else
      var k := keys[|keys| - 1];
      PairNodes(keys[..|keys| - 1], m) + [Node(Str(k), [Str(m[k])], [])]
  }

  function MapNode(field: string, m: map<string, string>): seq<Node>
  {
    if m == map[] then [] else [Node(Word(field), [], PairNodes(SortedKeys(m.Keys), m))]
  }

  function Children(m: MCPConfig): seq<Node>
  {
    StringNode("type", KindWritten(m.kind)) + StringNode("command", m.command) + ArgsNode(m.args) +
    StringNode("url", m.url) + StringNode("timeout", m.timeout) + RetriesNode(m.maxRetries) +
    StringNode("health_check_interval", m.healthCheckInterval) + DynamicNode(m.isDynamic) +
    MapNode("env", m.env) + MapNode("headers", m.headers)
  }

  function McpNode(m: MCPConfig): Node
  {
    Node(Word("mcp"), [Str(m.name)], Children(m))
  }

  // ---------------------------------------------------------------- fields come back

  /** What the written file says about an entry. */
  function AsRead(m: MCPConfig, source: Source): MCPConfig
  {
    m.(kind := KindWritten(m.kind), source := source)
  }

  lemma {:induction false} StrsReadBack(args: seq<string>)
    ensures StringArgs(Strs(args)) == Some(args)
  {
    if args != [] {
      var front, last := args[..|args| - 1], args[|args| - 1];
      StrsReadBack(front);
      AppendStr(Strs(front), front, last);
      hide StringArgs;
      assert args == front + [last];
    }
  }

  lemma AppendStr(ts: seq<Token>, args: seq<string>, last: string)
    requires StringArgs(ts) == Some(args)
    ensures StringArgs(ts + [Str(last)]) == Some(args + [last])
  {
    assert (ts + [Str(last)])[..|ts|] == ts;
  }

  /** The part of a map with these keys. */
  function Part(keys: seq<string>, m: map<string, string>): map<string, string>
    requires forall k <- keys :: k in m
  {
    map k | k in keys :: m[k]
  }

  lemma {:induction false} PairsReadBack(keys: seq<string>, m: map<string, string>)
    requires forall k <- keys :: k in m
    ensures Pairs(PairNodes(keys, m)) == Some(Part(keys, m))
  {
    if keys == [] {
      assert Part(keys, m) == map[];
    } else {
      var front, last := keys[..|keys| - 1], keys[|keys| - 1];
      PairsReadBack(front, m);
      OnePairMore(PairNodes(front, m), last, m[last]);
      hide Pairs;
      assert keys == front + [last];
      assert Part(keys, m) == Part(front, m)[last := m[last]];
    }
  }

  lemma OnePairMore(ns: seq<Node>, k: string, v: string)
    requires Pairs(ns).Some?
    ensures Pairs(ns + [Node(Str(k), [Str(v)], [])]) == Some(Pairs(ns).value[k := v])
  {
    assert (ns + [Node(Str(k), [Str(v)], [])])[..|ns|] == ns;
  }

  lemma MapReadsBack(m: map<string, string>)
    ensures Pairs(PairNodes(SortedKeys(m.Keys), m)) == Some(m)
  {
    hide SortedKeys, PairNodes, Pairs;
    PairsReadBack(SortedKeys(m.Keys), m);
    assert Part(SortedKeys(m.Keys), m) == m;
  }

  lemma {:induction false} FieldsConcat(c: Option<MCPConfig>, a: seq<Node>, b: seq<Node>)
    ensures Fields(c, a + b) == Fields(Fields(c, a), b)
  {
    if b == [] {
      assert a + b == a;
    } else {
      FieldsConcat(c, a, b[..|b| - 1]);
      assert (a + b)[..|a + b| - 1] == a + b[..|b| - 1];
    }
  }

  lemma OneField(c: Option<MCPConfig>, n: Node)
    ensures Fields(c, [n]) == Field(c, n)
  {
    assert [n][..0] == [];
  }

  /** The parts of a block that hold one string each. */
  lemma StringsReadBack(c: MCPConfig, v: string)
    ensures c.kind == "" ==> Fields(Some(c), StringNode("type", v)) == Some(c.(kind := v))
    ensures c.command == "" ==> Fields(Some(c), StringNode("command", v)) == Some(c.(command := v))
    ensures c.url == "" ==> Fields(Some(c), StringNode("url", v)) == Some(c.(url := v))
  {
    hide Fields;
    OneString(c, "type", v);
    OneString(c, "command", v);
    OneString(c, "url", v);
  }

  lemma TimesReadBack(c: MCPConfig, v: string)
    ensures c.timeout == "" ==> Fields(Some(c), StringNode("timeout", v)) == Some(c.(timeout := v))
    ensures c.healthCheckInterval == "" ==>
      Fields(Some(c), StringNode("health_check_interval", v)) == Some(c.(healthCheckInterval := v))
  {
    hide Fields;
    OneString(c, "timeout", v);
    OneString(c, "health_check_interval", v);
  }

  lemma OneString(c: MCPConfig, field: string, v: string)
    ensures var n := Node(Word(field), [Str(v)], []); Fields(Some(c), [n]) == Field(Some(c), n)
    ensures Fields(Some(c), []) == Some(c)
  {
    OneField(Some(c), Node(Word(field), [Str(v)], []));
  }

  lemma ArgsReadBack(c: MCPConfig, args: seq<string>)
    ensures c.args == [] ==> Fields(Some(c), ArgsNode(args)) == Some(c.(args := args))
  {
    hide Strs, StringArgs;
    StrsReadBack(args);
    OneField(Some(c), Node(Word("args"), Strs(args), []));
  }

  lemma ScalarsReadBack(c: MCPConfig, n: int, d: bool)
    ensures c.maxRetries == 0 ==> Fields(Some(c), RetriesNode(n)) == Some(c.(maxRetries := n))
    ensures !c.isDynamic ==> Fields(Some(c), DynamicNode(d)) == Some(c.(isDynamic := d))
  {
    hide Decimal, ReadInt;
    DecimalReadsBack(n);
    NoField(Some(c));
    hide Fields;
    OneField(Some(c), Node(Word("max_retries"), [Word(Decimal(n))], []));
    OneField(Some(c), Node(Word("dynamic"), [Word("true")], []));
  }

  lemma MapsReadBack(c: MCPConfig, m: map<string, string>)
    ensures c.env == map[] ==> Fields(Some(c), MapNode("env", m)) == Some(c.(env := m))
    ensures c.headers == map[] ==> Fields(Some(c), MapNode("headers", m)) == Some(c.(headers := m))
  {
    hide PairNodes, Pairs, SortedKeys, Fields;
    MapReadsBack(m);
    NoField(Some(c));
    OneField(Some(c), Node(Word("env"), [], PairNodes(SortedKeys(m.Keys), m)));
    OneField(Some(c), Node(Word("headers"), [], PairNodes(SortedKeys(m.Keys), m)));
  }

  lemma NoField(c: Option<MCPConfig>)
    ensures Fields(c, []) == c
  {
  }

  lemma NextField(start: Option<MCPConfig>, before: seq<Node>, mid: MCPConfig, part: seq<Node>, end: MCPConfig)
    requires Fields(start, before) == Some(mid) && Fields(Some(mid), part) == Some(end)
    ensures Fields(start, before + part) == Some(end)
  {
    FieldsConcat(start, before, part);
  }

  /** Each field written is the field read. */
  lemma ChildrenReadBack(m: MCPConfig, source: Source)
    ensures Fields(Some(Blank(m.name, source)), Children(m)) == Some(AsRead(m, source))
  {
    hide Fields, StringNode, ArgsNode, RetriesNode, DynamicNode, MapNode;
    var start := Some(Blank(m.name, source));
    var c0 := start.value;
    StringsReadBack(c0, KindWritten(m.kind));
    var c1 := c0.(kind := KindWritten(m.kind));
    var n1 := StringNode("type", KindWritten(m.kind));
    StringsReadBack(c1, m.command);
    var c2 := c1.(command := m.command);
    var n2 := n1 + StringNode("command", m.command);
    NextField(start, n1, c1, StringNode("command", m.command), c2);
    ArgsReadBack(c2, m.args);
    var c3 := c2.(args := m.args);
    var n3 := n2 + ArgsNode(m.args);
    NextField(start, n2, c2, ArgsNode(m.args), c3);
    StringsReadBack(c3, m.url);
    var c4 := c3.(url := m.url);
    var n4 := n3 + StringNode("url", m.url);
    NextField(start, n3, c3, StringNode("url", m.url), c4);
    TimesReadBack(c4, m.timeout);
    var c5 := c4.(timeout := m.timeout);
    var n5 := n4 + StringNode("timeout", m.timeout);
    NextField(start, n4, c4, StringNode("timeout", m.timeout), c5);
    ScalarsReadBack(c5, m.maxRetries, false);
    var c6 := c5.(maxRetries := m.maxRetries);
    var n6 := n5 + RetriesNode(m.maxRetries);
    NextField(start, n5, c5, RetriesNode(m.maxRetries), c6);
    TimesReadBack(c6, m.healthCheckInterval);
    var c7 := c6.(healthCheckInterval := m.healthCheckInterval);
    var n7 := n6 + StringNode("health_check_interval", m.healthCheckInterval);
    NextField(start, n6, c6, StringNode("health_check_interval", m.healthCheckInterval), c7);
    ScalarsReadBack(c7, 0, m.isDynamic);
    var c8 := c7.(isDynamic := m.isDynamic);
    var n8 := n7 + DynamicNode(m.isDynamic);
    NextField(start, n7, c7, DynamicNode(m.isDynamic), c8);
    MapsReadBack(c8, m.env);
    var c9 := c8.(env := m.env);
    var n9 := n8 + MapNode("env", m.env);
    NextField(start, n8, c8, MapNode("env", m.env), c9);
    MapsReadBack(c9, m.headers);
    var c10 := c9.(headers := m.headers);
    var n10 := n9 + MapNode("headers", m.headers);
    NextField(start, n9, c9, MapNode("headers", m.headers), c10);
  }

  /** The names under which the fields are written and read. */
  lemma FieldsHaveTheirNames(c: MCPConfig, v: string, n: nat)
    ensures Field(Some(c), Node(Word("args"), [Str(v)], [])) == Some(c.(args := [v]))
    ensures Field(Some(c), Node(Word("max_retries"), [Word(Decimal(n))], [])) == Some(c.(maxRetries := n))
    ensures Field(Some(c), Node(Word("dynamic"), [Word("true")], [])) == Some(c.(isDynamic := true))
    ensures Field(Some(c), Node(Word("dynamic"), [Word("false")], [])) == Some(c.(isDynamic := false))
    ensures Field(Some(c), Node(Word("env"), [], [Node(Str(v), [Str(v)], [])])) == Some(c.(env := map[v := v]))
    ensures Field(Some(c), Node(Word("headers"), [], [Node(Str(v), [Str(v)], [])])) == Some(c.(headers := map[v := v]))
  {
    hide Decimal, ReadInt;
    DecimalReadsBack(n);
    assert [Str(v)][..0] == [] && StringArgs([]) == Some([]);
    assert [v] == [] + [v];
    OnePairMore([], v, v);
    assert [] + [Node(Str(v), [Str(v)], [])] == [Node(Str(v), [Str(v)], [])];
  }
}
