/** internal/config/kdl.go: the text that WriteConfigFile produces, and what a quoted
    literal is. */
module KdlText {
  import opened Options
  import opened Ordering
  import opened McpConfig
  import opened KdlReader

  /** kdlEscaper, which replaces characters one by one in a single pass. */
  function EscapeChar(c: char): string
  {
    match c
    case '\\' => "\\\\"
    case '\"' => "\\\""
    case '\n' => "\\n"
    case '\t' => "\\t"
    case '\r' => "\\r"
    case _ => [c]
  }

  function Escape(s: string): string
  {
    if s == "" then "" else EscapeChar(s[0]) + Escape(s[1..])
  }

  function Quote(s: string): string
  {
    "\"" + Escape(s) + "\""
  }

  /** A quoted literal denotes the string it was made from, and ends at its closing quote
      whatever follows. */
  lemma {:induction false} QuoteReadsBack(s: string, rest: string)
    ensures (Quote(s) + rest)[0] == '\"'
    ensures ReadString((Quote(s) + rest)[1..]) == Some((s, rest))
  {
    EscapeReadsBack(s, rest);
    assert (Quote(s) + rest)[1..] == Escape(s) + ("\"" + rest);
  }

  lemma {:induction false} EscapeReadsBack(s: string, rest: string)
    ensures ReadString(Escape(s) + ("\"" + rest)) == Some((s, rest))
  {
    var after := "\"" + rest;
    hide ReadString, EscapeChar;
    if s == "" {
      assert Escape(s) + after == after;
      QuoteEnds(rest);
    } else {
      EscapeReadsBack(s[1..], rest);
      EscapedCharReadsBack(s[0], Escape(s[1..]) + after);
      assert Escape(s) + after == EscapeChar(s[0]) + (Escape(s[1..]) + after);
      assert s == [s[0]] + s[1..];
    }
  }

  /** Control characters never stand in a literal as they are: one character becomes two for
      backslash, quote, newline, tab and return, and every other stays itself. */
  lemma {:induction false} LiteralIsOneLine(s: string)
    ensures forall i | 0 <= i < |Escape(s)| :: Escape(s)[i] != '\n' && Escape(s)[i] != '\t' && Escape(s)[i] != '\r'
    ensures (forall i | 0 <= i < |s| ::
               s[i] != '\\' && s[i] != '\"' && s[i] != '\n' && s[i] != '\t' && s[i] != '\r') <==> Escape(s) == s
  {
    LongerByEscapes(s);
    if s != "" {
      LiteralIsOneLine(s[1..]);
      LongerByEscapes(s[1..]);
      assert s == [s[0]] + s[1..];
    }
  }

  lemma {:induction false} LongerByEscapes(s: string)
    ensures |Escape(s)| >= |s|
  {
    if s != "" {
      LongerByEscapes(s[1..]);
    }
  }

  lemma QuoteEnds(rest: string)
    ensures ReadString("\"" + rest) == Some(("", rest))
  {
    assert ("\"" + rest)[1..] == rest;
  }

  lemma EscapedCharReadsBack(c: char, more: string)
    ensures ReadString(EscapeChar(c) + more) == Extend(c, ReadString(more))
  {
    hide ReadCode;
    var t := EscapeChar(c) + more;
    assert t[|EscapeChar(c)|..] == more;
  }

  /** %d */
  function Digits(n: nat): (r: string)
    ensures r != "" && forall c <- r :: '0' <= c <= '9'
  {
    if n < 10 then [DigitChar(n)] else Digits(n / 10) + [DigitChar(n % 10)]
  }

  function Decimal(n: int): string
  {
    if n < 0 then "-" + Digits(-n) else Digits(n)
  }

  lemma {:induction false} DigitsReadBack(n: nat)
    ensures ReadNat(Digits(n)) == Some(n)
  {
    if n >= 10 {
      DigitsReadBack(n / 10);
      assert Digits(n)[..|Digits(n)| - 1] == Digits(n / 10);
    }
  }

  lemma DecimalReadsBack(n: int)
    ensures ReadInt(Decimal(n)) == Some(n)
    ensures Decimal(n) != "" && forall c <- Decimal(n) :: Bare(c)
  {
    var abs := if n < 0 then -n else n;
    DigitsReadBack(abs);
    assert forall c | '0' <= c <= '9' :: Bare(c);
    assert Digits(abs)[0] in Digits(abs);
    hide Digits, ReadNat, Bare;
    if n < 0 {
      assert Decimal(n)[1..] == Digits(abs);
      assert Bare('-') by { MinusIsBare(); }
    }
  }

  lemma MinusIsBare()
    ensures Bare('-')
  {
  }

  // ---------------------------------------------------------------- one mcp block

  function StringLine(field: string, v: string): string
  {
    if v == "" then "" else "    " + field + " " + Quote(v) + "\n"
  }

  function ArgsText(args: seq<string>): string
  {
    if args == [] then "" else ArgsText(args[..|args| - 1]) + (" " + Quote(args[|args| - 1]))
  }

  function ArgsLine(args: seq<string>): string
  {
    if args == [] then "" else "    args" + ArgsText(args) + "\n"
  }

  function RetriesLine(n: int): string
  {
    if n == 0 then "" else "    max_retries " + Decimal(n) + "\n"
  }

  function DynamicLine(d: bool): string
  {
    if d then "    dynamic true\n" else ""
  }

  function PairsText(keys: seq<string>, m: map<string, string>): string
    requires forall k <- keys :: k in m
  {
    if keys == [] then ""
    else
      var k := keys[|keys| - 1];
      PairsText(keys[..|keys| - 1], m) + ("        " + Quote(k) + " " + Quote(m[k]) + "\n")
  }

  function MapBlock(field: string, m: map<string, string>): string
  {
    if m == map[] then ""
    else "    " + field + " {\n" + PairsText(SortedKeys(m.Keys), m) + "    }\n"
  }

  /** An empty type is written as "command". */
  function KindWritten(kind: string): string
  {
    if kind == "" then "command" else kind
  }

  function Head(m: MCPConfig): string
  {
    "mcp " + Quote(m.name) + " {\n"
  }

  function BlockLines(m: MCPConfig): string
  {
    Head(m) + StringLine("type", KindWritten(m.kind)) + StringLine("command", m.command) + ArgsLine(m.args) +
    StringLine("url", m.url) + StringLine("timeout", m.timeout) + RetriesLine(m.maxRetries) +
    StringLine("health_check_interval", m.healthCheckInterval) + DynamicLine(m.isDynamic) +
    MapBlock("env", m.env) + MapBlock("headers", m.headers)
  }

  function Block(m: MCPConfig): string
  {
    BlockLines(m) + "}\n\n"
  }

  type Config = map<string, MCPConfig>

  function BlocksText(names: seq<string>, cfg: Config): string
    requires forall n <- names :: n in cfg
  {
    if names == [] then "" else BlocksText(names[..|names| - 1], cfg) + Block(cfg[names[|names| - 1]])
  }

  function FileText(cfg: Config): string
  {
    BlocksText(SortedKeys(cfg.Keys), cfg)
  }
}
