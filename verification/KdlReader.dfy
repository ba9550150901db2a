/** A reference reader for the part of KDL 1.0 that configuration files use: nodes with
    bare or quoted names, string and bare-word arguments, child blocks and line comments. */
module KdlReader {
  import opened Options
  import opened Strings

  datatype Token = Str(text: string) | Word(text: string) | Open | Close | Newline

  predicate Textual(t: Token)
  {
    t.Str? || t.Word?
  }

  function TextOf(t: Token): string
  {
    if Textual(t) then t.text else ""
  }

  /** Characters of a bare identifier, number or keyword. */
  predicate Bare(c: char)
  {
    c !in "\\/(){}<>;[]=,\" \t\r\n"
  }

  // ---------------------------------------------------------------- characters to tokens

  /** The one-character escapes of the "Quoted String" section of the KDL 1.0 specification. */
  function Unescape(c: char): Option<char>
  {
    match c
    case 'n' => Some('\n')
    case 'r' => Some('\r')
    case 't' => Some('\t')
    case '\\' => Some('\\')
    case '/' => Some('/')
    case '\"' => Some('\"')
    case 'b' => Some('\U{0008}')
    case 'f' => Some('\U{000C}')
    case _ => None
  }

  /** The character of a \u{...} escape of one to six digits, and what follows it. */
  function ReadCode(t: string): (r: Option<(char, string)>)
    ensures r.Some? ==> |r.value.1| < |t|
  {
    if t == "" || t[0] != '{' then None
    else
      var n := HexCount(t[1..]);
      if n == 0 || n > 6 || |t| <= n + 1 || t[n + 1] != '}' then None
      else
        var c := CodePoint(HexNumber(t[1..n + 1]));
        if c.None? then None else Some((c.value, t[n + 2..]))
  }

  /** The string up to the closing quote, and what follows that quote. */
  function ReadString(t: string): (r: Option<(string, string)>)
    ensures r.Some? ==> |r.value.1| < |t|
  {
    if t == "" then None
    else if t[0] == '\"' then Some(("", t[1..]))
    else if t[0] == '\\' then
      if |t| == 1 then None
      else if t[1] == 'u' then
        var code := ReadCode(t[2..]);
        if code.None? then None else Extend(code.value.0, ReadString(code.value.1))
      else if Unescape(t[1]).None? then None
      else Extend(Unescape(t[1]).value, ReadString(t[2..]))
    else Extend(t[0], ReadString(t[1..]))
  }

  function Extend(c: char, r: Option<(string, string)>): Option<(string, string)>
  {
    if r.None? then None else Some(([c] + r.value.0, r.value.1))
  }

  function WordLength(t: string): (n: nat)
    ensures n <= |t| && forall i | 0 <= i < n :: Bare(t[i])
    ensures n < |t| ==> !Bare(t[n])
  {
    if t == "" || !Bare(t[0]) then 0 else 1 + WordLength(t[1..])
  }

  function SkipLine(t: string): (r: string)
    ensures |r| <= |t|
  {
    if t == "" || t[0] == '\n' then t else SkipLine(t[1..])
  }

  function Prepend(front: seq<Token>, r: Option<seq<Token>>): Option<seq<Token>>
  {
    if r.None? then None else Some(front + r.value)
  }

  function Lex(t: string): Option<seq<Token>>
    decreases |t|
  {
    if t == "" then Some([])
    else if t[0] in " \t\r" then Lex(t[1..])
    else if t[0] in "\n;" then Prepend([Newline], Lex(t[1..]))
    else if t[0] == '{' then Prepend([Open], Lex(t[1..]))
    else if t[0] == '}' then Prepend([Close], Lex(t[1..]))
    else if t[0] == '\"' then
      var s := ReadString(t[1..]);
      if s.None? then None else Prepend([Str(s.value.0)], Lex(s.value.1))
    else if |t| > 1 && t[0] == '/' && t[1] == '/' then Lex(SkipLine(t[1..]))
    else if Bare(t[0]) then
      var n := WordLength(t);
      Prepend([Word(t[..n])], Lex(t[n..]))
    else None
  }

  // ---------------------------------------------------------------- tokens to nodes

  datatype Node = Node(name: Token, args: seq<Token>, children: seq<Node>)

  function ArgCount(ts: seq<Token>): (n: nat)
    ensures n <= |ts| && forall i | 0 <= i < n :: Textual(ts[i])
    ensures n < |ts| ==> !Textual(ts[n])
  {
    if ts == [] || !Textual(ts[0]) then 0 else 1 + ArgCount(ts[1..])
  }

  type Parsed = Option<(seq<Node>, seq<Token>)>

  function PrependNode(n: Node, r: Parsed): Parsed
  {
    if r.None? then None else Some(([n] + r.value.0, r.value.1))
  }

  /** Nodes up to the end or an unmatched closing brace, and what is left. */
  function ParseNodes(ts: seq<Token>): (r: Parsed)
    ensures r.Some? ==> |r.value.1| <= |ts| && (r.value.1 == [] || r.value.1[0].Close?)
    decreases |ts|
  {
    if ts == [] || ts[0].Close? then Some(([], ts))
    else if ts[0].Newline? then ParseNodes(ts[1..])
    else if ts[0].Open? then None
    else
      var n := 1 + ArgCount(ts[1..]);
      var name, args, after := ts[0], ts[1..n], ts[n..];
      if after == [] || !after[0].Open? then PrependNode(Node(name, args, []), ParseNodes(after))
      else
        var body := ParseNodes(after[1..]);
        if body.None? || body.value.1 == [] then None
        else
          var rest := body.value.1[1..];
          if rest != [] && !rest[0].Newline? && !rest[0].Close? then None
          else PrependNode(Node(name, args, body.value.0), ParseNodes(rest))
  }

  function ReadDocument(t: string): Option<seq<Node>>
  {
    var ts := Lex(t);
    if ts.None? then None
    else
      var r := ParseNodes(ts.value);
      if r.None? || r.value.1 != [] then None else Some(r.value.0)
  }

  // ---------------------------------------------------------------- integers

  function DigitChar(d: nat): (c: char)
    requires d < 10
    ensures '0' <= c <= '9'
  {
    '0' + d as char
  }

  function ReadNat(s: string): Option<nat>
  {
    if s == "" then None
    else
      var c, front := s[|s| - 1], s[..|s| - 1];
      if !('0' <= c <= '9') then None
      else if front == "" then Some((c - '0') as nat)
      else if ReadNat(front).None? then None
      else Some(10 * ReadNat(front).value + (c - '0') as nat)
  }

  function ReadInt(s: string): Option<int>
  {
    if s != "" && s[0] == '-' then
      if ReadNat(s[1..]).None? then None else Some(0 - ReadNat(s[1..]).value)
    else if ReadNat(s).None? then None
    else Some(ReadNat(s).value)
  }
}
