/** A reference reader for the JSON of RFC 8259 that has no fractions, exponents, surrogate
    escapes or white space, which is all that canonical encoding produces. */
module JsonReader {
  import opened Options
  import opened Strings

  /** The Go values the encoder distinguishes. StrMap is map[string]string, Map is
      map[string]any. */
  datatype Json =
    | Null
    | Bool(b: bool)
    | Int(n: int)
    | Str(s: string)
    | Arr(items: seq<Json>)
    | Map(m: map<string, Json>)
    | StrMap(sm: map<string, string>)

  // ---------------------------------------------------------------- strings

  /** The character of a \uXXXX escape, given the four digits. */
  function Unicode(h: string): Option<char>
    requires |h| == 4
  {
    if exists i | 0 <= i < 4 :: HexValue(h[i]).None? then None
    else
      var high := 16 * HexValue(h[0]).value + HexValue(h[1]).value;
      var low := 16 * HexValue(h[2]).value + HexValue(h[3]).value;
      CodePoint(256 * high + low)
  }

  /** Section 7 of RFC 8259. */
  function Unescape(c: char): Option<char>
  {
    match c
    case '\"' => Some('\"')
    case '\\' => Some('\\')
    case '/' => Some('/')
    case 'b' => Some('\U{0008}')
    case 'f' => Some('\U{000C}')
    case 'n' => Some('\n')
    case 'r' => Some('\r')
    case 't' => Some('\t')
    case _ => None
  }

  function Extend(c: char, r: Option<(string, string)>): Option<(string, string)>
  {
    if r.None? then None else Some(([c] + r.value.0, r.value.1))
  }

  /** The rest of a string literal and what follows its closing quote. */
  function ReadString(t: string): (r: Option<(string, string)>)
    ensures r.Some? ==> |r.value.1| < |t|
  {
    if t == "" || t[0] < ' ' then None
    else if t[0] == '\"' then Some(("", t[1..]))
    else if t[0] != '\\' then Extend(t[0], ReadString(t[1..]))
    else if |t| == 1 then None
    else if t[1] == 'u' then
      if |t| < 6 || Unicode(t[2..6]).None? then None else Extend(Unicode(t[2..6]).value, ReadString(t[6..]))
    else if Unescape(t[1]).None? then None
    else Extend(Unescape(t[1]).value, ReadString(t[2..]))
  }

  // ---------------------------------------------------------------- numbers

  function DigitCount(t: string): (n: nat)
    ensures n <= |t| && forall i | 0 <= i < n :: '0' <= t[i] <= '9'
    ensures n < |t| ==> !('0' <= t[n] <= '9')
  {
    if t == "" || !('0' <= t[0] <= '9') then 0 else 1 + DigitCount(t[1..])
  }

  function Natural(s: string): nat
    requires forall i | 0 <= i < |s| :: '0' <= s[i] <= '9'
  {
    if s == "" then 0 else 10 * Natural(s[..|s| - 1]) + (s[|s| - 1] - '0') as nat
  }

  function ReadInt(t: string): (r: Option<(int, string)>)
    ensures r.Some? ==> |r.value.1| < |t|
  {
    var negative := t != "" && t[0] == '-';
    var body := if negative then t[1..] else t;
    var n := DigitCount(body);
    if n == 0 then None
    else Some((if negative then 0 - Natural(body[..n]) else Natural(body[..n]), body[n..]))
  }

  // ---------------------------------------------------------------- values

  function Literal(t: string): Option<(Json, string)>
  {
    if "null" <= t then Some((Null, t[4..]))
    else if "true" <= t then Some((Bool(true), t[4..]))
    else if "false" <= t then Some((Bool(false), t[5..]))
    else None
  }

  function ReadValue(t: string): (r: Option<(Json, string)>)
    ensures r.Some? ==> |r.value.1| < |t|
    decreases |t|, 0
  {
    if t == "" then None
    else if t[0] == '\"' then
      var s := ReadString(t[1..]);
      if s.None? then None else Some((Str(s.value.0), s.value.1))
    else if t[0] == '[' then
      if |t| > 1 && t[1] == ']' then Some((Arr([]), t[2..]))
      else
        var items := ReadItems(t[1..]);
        if items.None? then None else Some((Arr(items.value.0), items.value.1))
    else if t[0] == '{' then
      if |t| > 1 && t[1] == '}' then Some((Map(map[]), t[2..]))
      else
        var pairs := ReadPairs(t[1..]);
        if pairs.None? then None else Some((Map(pairs.value.0), pairs.value.1))
    else if t[0] in "ntf" then Literal(t)
    else
      var n := ReadInt(t);
      if n.None? then None else Some((Int(n.value.0), n.value.1))
  }

  /** value , value , ... ] */
  function ReadItems(t: string): (r: Option<(seq<Json>, string)>)
    ensures r.Some? ==> |r.value.1| < |t|
    decreases |t|, 1
  {
    var v := ReadValue(t);
    if v.None? || v.value.1 == "" then None
    else
      var after := v.value.1;
      if after[0] == ']' then Some(([v.value.0], after[1..]))
      else if after[0] != ',' then None
      else
        var more := ReadItems(after[1..]);
        if more.None? then None else Some(([v.value.0] + more.value.0, more.value.1))
  }

  /** "key" : value , ... } */
  function ReadPairs(t: string): (r: Option<(map<string, Json>, string)>)
    ensures r.Some? ==> |r.value.1| < |t|
    decreases |t|, 1
  {
    if t == "" || t[0] != '\"' then None
    else
      var k := ReadString(t[1..]);
      if k.None? || k.value.1 == "" || k.value.1[0] != ':' then None
      else
        var v := ReadValue(k.value.1[1..]);
        if v.None? || v.value.1 == "" then None
        else
          var after := v.value.1;
          if after[0] == '}' then Some((map[k.value.0 := v.value.0], after[1..]))
          else if after[0] != ',' then None
          else
            var more := ReadPairs(after[1..]);
            if more.None? then None else Some((map[k.value.0 := v.value.0] + more.value.0, more.value.1))
  }

  // ---------------------------------------------------------------- one step of the reader

  lemma EmptyArray(rest: string)
    ensures ReadValue("[" + ("]" + rest)) == Some((Arr([]), rest))
  {
    assert ("[" + ("]" + rest))[2..] == rest;
  }

  lemma ArrayBody(body: string, items: seq<Json>, rest: string)
    requires body != "" && body[0] != ']' && ReadItems(body) == Some((items, rest))
    ensures ReadValue("[" + body) == Some((Arr(items), rest))
  {
    assert ("[" + body)[1..] == body;
    hide ReadItems;
  }

  lemma LastItem(t: string, v: Json, rest: string)
    requires ReadValue(t) == Some((v, "]" + rest))
    ensures ReadItems(t) == Some(([v], rest))
  {
    assert ("]" + rest)[1..] == rest;
    hide ReadValue;
  }

  lemma MoreItems(t: string, v: Json, more: string, items: seq<Json>, rest: string)
    requires ReadValue(t) == Some((v, "," + more)) && ReadItems(more) == Some((items, rest))
    ensures ReadItems(t) == Some(([v] + items, rest))
  {
    assert ("," + more)[1..] == more;
    hide ReadValue;
  }

  lemma EmptyObject(rest: string)
    ensures ReadValue("{" + ("}" + rest)) == Some((Map(map[]), rest))
  {
    assert ("{" + ("}" + rest))[2..] == rest;
  }

  lemma ObjectBody(body: string, m: map<string, Json>, rest: string)
    requires body != "" && body[0] != '}' && ReadPairs(body) == Some((m, rest))
    ensures ReadValue("{" + body) == Some((Map(m), rest))
  {
    assert ("{" + body)[1..] == body;
    hide ReadPairs;
  }

  lemma LastPair(t: string, k: string, value: string, v: Json, rest: string)
    requires t != "" && t[0] == '\"' && ReadString(t[1..]) == Some((k, ":" + value))
    requires ReadValue(value) == Some((v, "}" + rest))
    ensures ReadPairs(t) == Some((map[k := v], rest))
  {
    assert (":" + value)[1..] == value && ("}" + rest)[1..] == rest;
    hide ReadValue, ReadString;
  }

  lemma MorePairs(t: string, k: string, value: string, v: Json, more: string, m: map<string, Json>, rest: string)
    requires t != "" && t[0] == '\"' && ReadString(t[1..]) == Some((k, ":" + value))
    requires ReadValue(value) == Some((v, "," + more)) && ReadPairs(more) == Some((m, rest))
    ensures ReadPairs(t) == Some((map[k := v] + m, rest))
  {
    assert (":" + value)[1..] == value && ("," + more)[1..] == more;
    hide ReadValue, ReadString;
  }

  lemma DigitsAreRead(ds: string, rest: string)
    requires ds != "" && forall i | 0 <= i < |ds| :: '0' <= ds[i] <= '9'
    requires DigitCount(ds + rest) == |ds|
    ensures ReadInt(ds + rest) == Some((Natural(ds), rest))
    ensures ReadInt("-" + (ds + rest)) == Some((0 - Natural(ds), rest))
  {
    hide Natural, DigitCount;
    var t := ds + rest;
    assert t[..|ds|] == ds && t[|ds|..] == rest && t[0] == ds[0];
    MinusIsRead(t, ds, rest);
  }

  lemma MinusIsRead(t: string, ds: string, rest: string)
    requires DigitCount(t) == |ds| > 0 && t[..|ds|] == ds && t[|ds|..] == rest
    ensures ReadInt("-" + t) == Some((0 - Natural(ds), rest))
  {
    hide Natural, DigitCount;
    assert ("-" + t)[1..] == t;
  }

  lemma IntBody(t: string, n: int, rest: string)
    requires t != "" && (t[0] == '-' || '0' <= t[0] <= '9') && ReadInt(t) == Some((n, rest))
    ensures ReadValue(t) == Some((Int(n), rest))
  {
    hide ReadInt, Literal, ReadString, ReadItems, ReadPairs;
  }
}
