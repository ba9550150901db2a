/** internal/overrides/hash.go: the canonical encoding and the text ComputeHash digests. */
module CanonicalJson {
  import opened Options
  import opened Ordering
  import opened JsonReader
  import opened Strings

  // ---------------------------------------------------------------- the encoding

  const HEX := "0123456789abcdef"

  /** encoding/json's string escapes, HTML-safe as Marshal makes them. */
  function EscapeChar(c: char): string
  {
    if c == '\"' then "\\\""
    else if c == '\\' then "\\\\"
    else if c == '\U{0008}' then "\\b"
    else if c == '\U{000C}' then "\\f"
    else if c == '\n' then "\\n"
    else if c == '\r' then "\\r"
    else if c == '\t' then "\\t"
    else if c < ' ' || c in "<>&" then "\\u00" + [HEX[c as int / 16], HEX[c as int % 16]]
    else if c == '\U{2028}' then "\\u2028"
    else if c == '\U{2029}' then "\\u2029"
    else [c]
  }

  function Escape(s: string): string
  {
    if s == "" then "" else EscapeChar(s[0]) + Escape(s[1..])
  }

  function Quote(s: string): string
  {
    "\"" + Escape(s) + "\""
  }

  function Digits(n: nat): (r: string)
    ensures r != "" && forall i | 0 <= i < |r| :: '0' <= r[i] <= '9'
  {
    if n < 10 then ['0' + n as char] else Digits(n / 10) + ['0' + (n % 10) as char]
  }

  function Decimal(n: int): string
  {
    if n < 0 then "-" + Digits(-n) else Digits(n)
  }

  function Encode(v: Json): string
    decreases v, 1, 0
  {
    match v
    case Null => "null"
    case Bool(b) => if b then "true" else "false"
    case Int(n) => Decimal(n)
    case Str(s) => Quote(s)
    case Arr(items) => "[" + Items(items, true) + "]"
    case Map(m) => "{" + Pairs(v, SortedKeys(m.Keys), true) + "}"
    case StrMap(sm) => "{" + StrPairs(SortedKeys(sm.Keys), sm, true) + "}"
  }

  function Items(items: seq<Json>, first: bool): string
    decreases items, 0, 0
  {
    if items == [] then ""
    else (if first then "" else ",") + Encode(items[0]) + Items(items[1..], false)
  }

  function Pairs(v: Json, keys: seq<string>, first: bool): string
    requires v.Map? && forall k <- keys :: k in v.m
    decreases v, 0, |keys|
  {
    if keys == [] then ""
    else (if first then "" else ",") + Pair(keys[0], Encode(v.m[keys[0]])) + Pairs(v, keys[1..], false)
  }

  function Pair(k: string, value: string): string
  {
    Quote(k) + ":" + value
  }

  function StrPairs(keys: seq<string>, sm: map<string, string>, first: bool): string
    requires forall k <- keys :: k in sm
  {
    if keys == [] then ""
    else (if first then "" else ",") + Pair(keys[0], Quote(sm[keys[0]])) + StrPairs(keys[1..], sm, false)
  }

  // ---------------------------------------------------------------- scalars read back

  lemma HexReadsBack(n: nat)
    requires n < 16
    ensures HexValue(HEX[n]) == Some(n)
  {
  }

  lemma ByteReadsBack(n: nat)
    requires n < 128
    ensures Unicode("00" + [HEX[n / 16], HEX[n % 16]]) == Some(n as char)
  {
    HexReadsBack(n / 16);
    HexReadsBack(n % 16);
    hide HexValue;
    var h := "00" + [HEX[n / 16], HEX[n % 16]];
    assert HexValue('0') == Some(0) by { HexReadsBack(0); }
    assert h[0] == '0' && h[1] == '0' && h[2] == HEX[n / 16] && h[3] == HEX[n % 16];
  }

  lemma SeparatorsReadBack()
    ensures Unicode("2028") == Some('\U{2028}') && Unicode("2029") == Some('\U{2029}')
  {
  }

  lemma EscapedReadsBack(c: char, more: string)
    ensures ReadString(EscapeChar(c) + more) == Extend(c, ReadString(more))
  {
    if |EscapeChar(c)| == 6 { CodeReadsBack(c, more); } else { ShortReadsBack(c, more); }
    hide ReadString, EscapeChar;
  }

  lemma CodeReadsBack(c: char, more: string)
    requires |EscapeChar(c)| == 6
    ensures ReadString(EscapeChar(c) + more) == Extend(c, ReadString(more))
  {
    hide Unicode, HexValue;
    var t := EscapeChar(c) + more;
    UnicodeReadsBack(c);
    assert t[2..6] == EscapeChar(c)[2..6] && t[6..] == more;
  }

  lemma ShortReadsBack(c: char, more: string)
    requires |EscapeChar(c)| != 6
    ensures ReadString(EscapeChar(c) + more) == Extend(c, ReadString(more))
  {
    hide Unicode, HexValue;
    var t := EscapeChar(c) + more;
    assert t[|EscapeChar(c)|..] == more;
  }

  lemma UnicodeReadsBack(c: char)
    requires |EscapeChar(c)| == 6
    ensures Unicode(EscapeChar(c)[2..6]) == Some(c)
  {
    hide HexValue, Unicode;
    var e := EscapeChar(c);
    if c == '\U{2028}' || c == '\U{2029}' {
      SeparatorsReadBack();
      assert e[2..6] == if c == '\U{2028}' then "2028" else "2029";
    } else {
      ByteReadsBack(c as nat);
      assert e[2..6] == "00" + [HEX[c as int / 16], HEX[c as int % 16]];
    }
  }

  /** A JSON reader gets a quoted string back and stops at its closing quote. */
  lemma {:induction false} StringReadsBack(s: string, rest: string)
    ensures ReadString(Escape(s) + ("\"" + rest)) == Some((s, rest))
  {
    hide ReadString, EscapeChar;
    var after := "\"" + rest;
    if s == "" {
      assert Escape(s) + after == after;
      QuoteEnds(rest);
    } else {
      StringReadsBack(s[1..], rest);
      EscapedReadsBack(s[0], Escape(s[1..]) + after);
      assert Escape(s) + after == EscapeChar(s[0]) + (Escape(s[1..]) + after);
      assert s == [s[0]] + s[1..];
    }
  }

  lemma QuoteEnds(rest: string)
    ensures ReadString("\"" + rest) == Some(("", rest))
  {
    assert ("\"" + rest)[1..] == rest;
  }

  predicate Stops(rest: string)
  {
    rest == "" || !('0' <= rest[0] <= '9')
  }

  lemma {:induction false} DigitsEnd(ds: string, rest: string)
    requires forall i | 0 <= i < |ds| :: '0' <= ds[i] <= '9'
    requires Stops(rest)
    ensures DigitCount(ds + rest) == |ds|
  {
    if ds == "" {
      assert ds + rest == rest;
    } else {
      DigitsEnd(ds[1..], rest);
      assert (ds + rest)[1..] == ds[1..] + rest;
    }
  }

  lemma {:induction false} DigitsReadBack(n: nat)
    ensures Natural(Digits(n)) == n
  {
    if n < 10 {
      assert Digits(n)[..0] == "";
    } else {
      DigitsReadBack(n / 10);
      assert Digits(n)[..|Digits(n)| - 1] == Digits(n / 10);
    }
  }

  lemma NaturalReadsBack(n: nat, rest: string)
    requires Stops(rest)
    ensures ReadInt(Digits(n) + rest) == Some((n, rest))
    ensures ReadInt("-" + (Digits(n) + rest)) == Some((0 - n, rest))
  {
    hide ReadInt, Digits, DigitCount, Natural;
    DigitsReadBack(n);
    DigitsEnd(Digits(n), rest);
    DigitsAreRead(Digits(n), rest);
  }

  lemma IntReadsBack(n: int, rest: string)
    requires Stops(rest)
    ensures ReadInt(Decimal(n) + rest) == Some((n, rest))
    ensures (Decimal(n) + rest)[0] == '-' || '0' <= (Decimal(n) + rest)[0] <= '9'
  {
    hide ReadInt, Digits, DigitCount, Natural, Stops;
    if n < 0 {
      NaturalReadsBack(-n, rest);
      assert Decimal(n) + rest == "-" + (Digits(-n) + rest);
    } else {
      NaturalReadsBack(n, rest);
      assert (Decimal(n) + rest)[0] == Digits(n)[0];
    }
  }

  // ---------------------------------------------------------------- values read back

  /** The value a reader can see: a string map is a map of strings. */
  function Plain(v: Json): Json
    decreases v, 0
  {
    match v
    case Arr(items) => Arr(PlainItems(items))
    case Map(m) => Map(map k | k in m :: Plain(m[k]))
    case StrMap(sm) => Map(map k | k in sm :: Str(sm[k]))
    case _ => v
  }

  function PlainItems(items: seq<Json>): (r: seq<Json>)
    ensures |r| == |items|
    decreases items, 0
  {
    if items == [] then [] else [Plain(items[0])] + PlainItems(items[1..])
  }

  lemma QuotedIsRead(s: string, rest: string)
    ensures ReadValue(Quote(s) + rest) == Some((Str(s), rest))
    ensures (Quote(s) + rest)[0] == '\"' && ReadString((Quote(s) + rest)[1..]) == Some((s, rest))
  {
    hide ReadValue, ReadString, Escape;
    StringReadsBack(s, rest);
    assert (Quote(s) + rest)[1..] == Escape(s) + ("\"" + rest);
    StringIsRead(Quote(s) + rest);
  }

  lemma StringIsRead(t: string)
    requires t != "" && t[0] == '\"' && ReadString(t[1..]).Some?
    ensures ReadValue(t) == Some((Str(ReadString(t[1..]).value.0), ReadString(t[1..]).value.1))
  {
    hide ReadString;
  }

  lemma LiteralsAreRead(rest: string)
    ensures ReadValue("null" + rest) == Some((Null, rest))
    ensures ReadValue("true" + rest) == Some((Bool(true), rest))
    ensures ReadValue("false" + rest) == Some((Bool(false), rest))
  {
    assert ("null" + rest)[4..] == rest && ("true" + rest)[4..] == rest && ("false" + rest)[5..] == rest;
  }

  lemma ValueStarts(v: Json)
    ensures Encode(v) != "" && Encode(v)[0] !in "]},:"
  {
    if v.Int? { IntReadsBack(v.n, ""); assert Decimal(v.n) + "" == Decimal(v.n); }
  }

  /** Whatever follows, if no digit, the reader gets this value back and stops there. */
  ghost predicate ReadsBack(v: Json)
  {
    forall rest: string | Stops(rest) :: ReadValue(Encode(v) + rest) == Some((Plain(v), rest))
  }

  /** A JSON reader gets every encoded value back, and reads no further. */
  lemma {:induction false} ValueReadsBack(v: Json)
    ensures ReadsBack(v)
  {
    hide ReadValue, Encode, Plain;
    forall rest: string | Stops(rest) ensures ReadValue(Encode(v) + rest) == Some((Plain(v), rest)) {
      match v {
        case Arr(items) =>
          forall i | 0 <= i < |items| ensures ReadsBack(items[i]) { ValueReadsBack(items[i]); }
          ArrayReadsBack(v, rest);
        case Map(m) =>
          forall k <- m ensures ReadsBack(m[k]) { ValueReadsBack(m[k]); }
          MapReadsBack(v, rest);
        case StrMap(sm) => StrMapReadsBack(sm, rest);
        case _ => ScalarReadsBack(v, rest);
      }
    }
  }

  lemma ScalarReadsBack(v: Json, rest: string)
    requires Stops(rest) && !v.Arr? && !v.Map? && !v.StrMap?
    ensures ReadValue(Encode(v) + rest) == Some((Plain(v), rest))
  {
    match v {
      case Int(n) => IntIsRead(n, rest);
      case Str(s) => QuotedIsRead(s, rest);
      case _ => LiteralsAreRead(rest);
    }
    hide ReadValue;
  }

  lemma IntIsRead(n: int, rest: string)
    requires Stops(rest)
    ensures ReadValue(Decimal(n) + rest) == Some((Int(n), rest))
  {
    hide ReadInt, ReadValue, Decimal;
    IntReadsBack(n, rest);
    IntBody(Decimal(n) + rest, n, rest);
  }

  // ---------------------------------------------------------------- arrays

  lemma FirstItem(items: seq<Json>)
    requires items != []
    ensures Items(items, true) == Encode(items[0]) + Items(items[1..], false)
    ensures Items(items, false) == "," + Items(items, true)
    ensures Items([], false) == ""
  {
    hide Encode;
    CommaFirst(Encode(items[0]), Items(items[1..], false));
  }

  lemma ArrayReadsBack(v: Json, rest: string)
    requires v.Arr? && forall i | 0 <= i < |v.items| :: ReadsBack(v.items[i])
    ensures ReadValue(Encode(v) + rest) == Some((Plain(v), rest))
  {
    var body := Items(v.items, true) + ("]" + rest);
    assert Encode(v) + rest == "[" + body;
    hide ReadItems, ReadValue, Encode, ReadsBack;
    if v.items == [] {
      EmptyArray(rest);
      assert body == "]" + rest;
    } else {
      ValueStarts(v.items[0]);
      ItemsReadBack(v.items, rest);
      FirstItem(v.items);
      hide Items;
      ArrayBody(body, PlainItems(v.items), rest);
    }
  }

  lemma {:induction false} ItemsReadBack(items: seq<Json>, rest: string)
    requires items != [] && forall i | 0 <= i < |items| :: ReadsBack(items[i])
    ensures ReadItems(Items(items, true) + ("]" + rest)) == Some((PlainItems(items), rest))
    decreases |items|
  {
    assert |items| == 1 ==> PlainItems(items) == [Plain(items[0])];
    hide ReadValue, ReadItems, Encode, Items, Plain;
    var end := "]" + rest;
    var after := Items(items[1..], false) + end;
    var t := Items(items, true) + end;
    FirstItem(items);
    ItemSplits(Encode(items[0]), Items(items[1..], false), end);
    assert ReadsBack(items[0]);
    if |items| == 1 {
      assert after == end;
      LastItem(t, Plain(items[0]), rest);
    } else {
      FirstItem(items[1..]);
      ItemSplits(",", Items(items[1..], true), end);
      ItemsReadBack(items[1..], rest);
      MoreItems(t, Plain(items[0]), Items(items[1..], true) + end, PlainItems(items[1..]), rest);
    }
  }

  lemma ItemSplits(value: string, more: string, end: string)
    ensures value + more + end == value + (more + end)
  {
  }

  // ---------------------------------------------------------------- maps

  function PlainOf(m: map<string, Json>, keys: seq<string>): map<string, Json>
    requires forall k <- keys :: k in m
  {
    map k | k in keys :: Plain(m[k])
  }

  lemma AllOfMap(m: map<string, Json>)
    ensures Plain(Map(m)) == Map(PlainOf(m, SortedKeys(m.Keys)))
    ensures SortedKeys(m.Keys) == [] <==> m == map[]
  {
    var keys := SortedKeys(m.Keys);
    hide SortedKeys;
    assert PlainOf(m, keys) == map k | k in m :: Plain(m[k]);
    if keys == [] { assert forall k <- m :: k in keys; }
  }

  lemma FirstPair(v: Json, keys: seq<string>)
    requires v.Map? && (forall k <- keys :: k in v.m) && keys != []
    ensures Pairs(v, keys, true) == Pair(keys[0], Encode(v.m[keys[0]])) + Pairs(v, keys[1..], false)
    ensures Pairs(v, keys, false) == "," + Pairs(v, keys, true)
    ensures Pairs(v, [], false) == ""
  {
    hide Encode, Pair;
    CommaFirst(Pair(keys[0], Encode(v.m[keys[0]])), Pairs(v, keys[1..], false));
  }

  lemma CommaFirst(part: string, rest: string)
    ensures "" + part + rest == part + rest && "," + part + rest == "," + (part + rest)
  {
  }

  lemma MapReadsBack(v: Json, rest: string)
    requires v.Map? && forall k <- v.m :: ReadsBack(v.m[k])
    ensures ReadValue(Encode(v) + rest) == Some((Plain(v), rest))
  {
    var keys := SortedKeys(v.m.Keys);
    var body := Pairs(v, keys, true) + ("}" + rest);
    assert Encode(v) + rest == "{" + body;
    hide ReadPairs, ReadValue, Encode, SortedKeys, ReadsBack, Plain;
    AllOfMap(v.m);
    if keys == [] {
      EmptyObject(rest);
      assert body == "}" + rest;
      assert PlainOf(v.m, keys) == map[];
    } else {
      PairsReadBack(v, keys, rest);
      FirstPair(v, keys);
      assert Quote(keys[0])[0] == '\"';
      hide Pairs, Quote, PlainOf;
      ObjectBody(body, PlainOf(v.m, keys), rest);
    }
  }

  lemma PairSplits(k: string, value: string, more: string, end: string)
    ensures Pair(k, value) + more + end == Quote(k) + (":" + (value + (more + end)))
  {
    hide Quote;
  }

  lemma {:induction false} PairsReadBack(v: Json, keys: seq<string>, rest: string)
    requires v.Map? && (forall k <- keys :: k in v.m && ReadsBack(v.m[k])) && keys != []
    ensures ReadPairs(Pairs(v, keys, true) + ("}" + rest)) == Some((PlainOf(v.m, keys), rest))
    decreases |keys|
  {
    hide ReadValue, ReadString, ReadPairs, Encode, Pairs, Plain, Quote, Pair;
    var k, end := keys[0], "}" + rest;
    var after := Pairs(v, keys[1..], false) + end;
    var value := Encode(v.m[k]) + after;
    var t := Pairs(v, keys, true) + end;
    assert ReadsBack(v.m[k]);
    FirstPair(v, keys);
    PairSplits(k, Encode(v.m[k]), Pairs(v, keys[1..], false), end);
    QuotedIsRead(k, ":" + value);
    if |keys| == 1 {
      assert after == end;
      assert keys == [k] && PlainOf(v.m, keys) == map[k := Plain(v.m[k])];
      LastPair(t, k, value, Plain(v.m[k]), rest);
    } else {
      FirstPair(v, keys[1..]);
      var more := Pairs(v, keys[1..], true) + end;
      assert after == "," + more;
      PairsReadBack(v, keys[1..], rest);
      assert keys == [k] + keys[1..];
      assert PlainOf(v.m, keys) == map[k := Plain(v.m[k])] + PlainOf(v.m, keys[1..]);
      MorePairs(t, k, value, Plain(v.m[k]), more, PlainOf(v.m, keys[1..]), rest);
    }
  }

  // ---------------------------------------------------------------- string maps

  /** A map[string]string goes through the same code as a map of strings. */
  lemma {:induction false} StrPairsArePairs(keys: seq<string>, sm: map<string, string>, v: Json, first: bool)
    requires (forall k <- keys :: k in sm) && v == Plain(StrMap(sm))
    ensures StrPairs(keys, sm, first) == Pairs(v, keys, first)
  {
    hide Quote, Pair;
    if keys != [] {
      StrPairsArePairs(keys[1..], sm, v, false);
      assert Encode(v.m[keys[0]]) == Quote(sm[keys[0]]);
      hide Encode;
    }
  }

  lemma StrMapIsMap(sm: map<string, string>)
    ensures Encode(StrMap(sm)) == Encode(Plain(StrMap(sm)))
  {
    var v := Plain(StrMap(sm));
    assert v.m.Keys == sm.Keys;
    hide SortedKeys, StrPairs, Pairs;
    StrPairsArePairs(SortedKeys(sm.Keys), sm, v, true);
  }

  lemma PlainStrMap(sm: map<string, string>)
    ensures Plain(StrMap(sm)).Map? && forall k <- Plain(StrMap(sm)).m :: Plain(StrMap(sm)).m[k].Str?
    ensures Plain(Plain(StrMap(sm))) == Plain(StrMap(sm))
  {
  }

  lemma StrMapReadsBack(sm: map<string, string>, rest: string)
    ensures ReadValue(Encode(StrMap(sm)) + rest) == Some((Plain(StrMap(sm)), rest))
  {
    hide ReadValue, Encode, Plain;
    StrMapIsMap(sm);
    PlainStrMap(sm);
    var v := Plain(StrMap(sm));
    forall k <- v.m ensures ReadsBack(v.m[k]) {
      forall x: string | Stops(x) ensures ReadValue(Encode(v.m[k]) + x) == Some((Plain(v.m[k]), x)) {
        ScalarReadsBack(v.m[k], x);
      }
    }
    MapReadsBack(v, rest);
  }

  /** Two values with the same encoding are the same to a reader, whatever order their maps
      were built or iterated in. */
  lemma EncodingIsInjective(v: Json, w: Json)
    ensures Encode(v) == Encode(w) <==> Plain(v) == Plain(w)
  {
    ValueReadsBack(v);
    ValueReadsBack(w);
    assert Encode(v) + "" == Encode(v) && Encode(w) + "" == Encode(w);
    hide Encode, ReadValue, Plain;
    if Plain(v) == Plain(w) {
      EncodeIsPlain(v);
      EncodeIsPlain(w);
    }
  }

  lemma {:induction false} EncodeIsPlain(v: Json)
    ensures Encode(v) == Encode(Plain(v))
  {
    match v {
      case Arr(items) =>
        forall i | 0 <= i < |items| ensures Encode(items[i]) == Encode(Plain(items[i])) { EncodeIsPlain(items[i]); }
        ItemsArePlain(items, true);
      case Map(m) =>
        forall k <- m ensures Encode(m[k]) == Encode(Plain(m[k])) { EncodeIsPlain(m[k]); }
        assert Plain(v).m.Keys == m.Keys;
        PairsArePlain(v, SortedKeys(m.Keys), true);
      case StrMap(sm) => StrMapIsMap(sm);
      case _ =>
    }
  }

  lemma {:induction false} ItemsArePlain(items: seq<Json>, first: bool)
    requires forall i | 0 <= i < |items| :: Encode(items[i]) == Encode(Plain(items[i]))
    ensures Items(items, first) == Items(PlainItems(items), first)
    decreases |items|
  {
    if items != [] {
      ItemsArePlain(items[1..], false);
      assert PlainItems(items)[1..] == PlainItems(items[1..]);
      hide Encode, Plain;
    }
  }

  lemma {:induction false} PairsArePlain(v: Json, keys: seq<string>, first: bool)
    requires v.Map? && forall k <- keys :: k in v.m && Encode(v.m[k]) == Encode(Plain(v.m[k]))
    ensures Pairs(v, keys, first) == Pairs(Plain(v), keys, first)
    decreases |keys|
  {
    if keys != [] {
      PairsArePlain(v, keys[1..], false);
      assert Plain(v).m[keys[0]] == Plain(v.m[keys[0]]);
      hide Encode, Plain, Pair;
    }
  }

  // ---------------------------------------------------------------- the hashed text

  /** No control character, line separator or markup character. */
  ghost predicate Harmless(s: string)
  {
    forall i | 0 <= i < |s| ::
      s[i] >= ' ' && s[i] != '<' && s[i] != '>' && s[i] != '&' && s[i] != '\U{2028}' && s[i] != '\U{2029}'
  }

  lemma {:induction false} EscapeIsHarmless(s: string)
    ensures Harmless(Escape(s)) && Harmless(Quote(s))
  {
    if s != "" {
      EscapeIsHarmless(s[1..]);
      CharIsHarmless(s[0]);
      hide EscapeChar;
    }
  }

  lemma CharIsHarmless(c: char)
    ensures Harmless(EscapeChar(c))
  {
    if |EscapeChar(c)| == 6 && c < '\U{0080}' { ByteIsHarmless(c as nat); }
  }

  lemma ByteIsHarmless(n: nat)
    requires n < 128
    ensures Harmless("\\u00" + [HEX[n / 16], HEX[n % 16]])
  {
    HexIsHarmless(n / 16);
    HexIsHarmless(n % 16);
    var e := "\\u00" + [HEX[n / 16], HEX[n % 16]];
    assert e[4] == [HEX[n / 16]][0] && e[5] == [HEX[n % 16]][0];
    assert e[0] == '\\' && e[1] == 'u' && e[2] == '0' && e[3] == '0';
  }

  lemma HexIsHarmless(n: nat)
    requires n < 16
    ensures Harmless([HEX[n]])
  {
  }

  lemma {:induction false} StrPairsAreHarmless(keys: seq<string>, sm: map<string, string>, first: bool)
    requires forall k <- keys :: k in sm
    ensures Harmless(StrPairs(keys, sm, first))
  {
    hide Quote;
    if keys != [] {
      StrPairsAreHarmless(keys[1..], sm, false);
      EscapeIsHarmless(keys[0]);
      EscapeIsHarmless(sm[keys[0]]);
    }
  }

  /** What ComputeHash writes into the digest. */
  function HashInput(description: string, params: map<string, string>): string
  {
    description + "\n" + Encode(StrMap(params))
  }

  lemma LastNewlineSplits(a: string, x: string, b: string, y: string)
    requires OneLine(x) && OneLine(y)
    requires a + "\n" + x == b + "\n" + y
    ensures a == b && x == y
  {
    var t, u := a + "\n" + x, b + "\n" + y;
    assert t[|a|] == '\n' && u[|b|] == '\n';
    forall i | |a| < i < |t| ensures t[i] != '\n' { assert t[i] == x[i - |a| - 1]; }
    forall i | |b| < i < |u| ensures u[i] != '\n' { assert u[i] == y[i - |b| - 1]; }
    assert t[..|a|] == a && u[..|b|] == b && t[|a| + 1..] == x && u[|b| + 1..] == y;
  }

  /** Two overrides give the same hashed text only if description and parameters agree. */
  lemma HashInputIsInjective(d: string, p: map<string, string>, e: string, q: map<string, string>)
    ensures HashInput(d, p) == HashInput(e, q) <==> d == e && p == q
  {
    hide EscapeChar;
    if HashInput(d, p) == HashInput(e, q) {
      EncodedMapIsHarmless(p);
      EncodedMapIsHarmless(q);
      LastNewlineSplits(d, Encode(StrMap(p)), e, Encode(StrMap(q)));
      EncodingIsInjective(StrMap(p), StrMap(q));
      SameStringMaps(p, q);
    }
  }

  /** The escapes encoding/json gives the characters it does not leave alone. */
  lemma EscapesOfMarshal(c: char)
    ensures EscapeChar('\"') == "\\\"" && EscapeChar('\\') == "\\\\" && EscapeChar('\n') == "\\n"
    ensures EscapeChar('\r') == "\\r" && EscapeChar('\t') == "\\t"
    ensures EscapeChar('\U{0008}') == "\\b" && EscapeChar('\U{000C}') == "\\f"
    ensures EscapeChar('<') == "\\u003c" && EscapeChar('>') == "\\u003e" && EscapeChar('&') == "\\u0026"
    ensures c >= ' ' && c !in "\"\\<>&\U{2028}\U{2029}" ==> EscapeChar(c) == [c]
  {
  }

  /** So the encoding of a map of strings is one line, wherever it is shown. */
  lemma EncodedMapIsHarmless(sm: map<string, string>)
    ensures Harmless(Encode(StrMap(sm)))
  {
    StrPairsAreHarmless(SortedKeys(sm.Keys), sm, true);
    hide SortedKeys, StrPairs;
  }

  lemma SameStringMaps(p: map<string, string>, q: map<string, string>)
    requires Plain(StrMap(p)) == Plain(StrMap(q))
    ensures p == q
  {
    var m, n := Plain(StrMap(p)).m, Plain(StrMap(q)).m;
    assert m.Keys == p.Keys && n.Keys == q.Keys;
    forall k <- p ensures p[k] == q[k] {
      assert m[k] == Str(p[k]) && n[k] == Str(q[k]);
    }
  }

  // ---------------------------------------------------------------- the encoder

  lemma ItemStep(items: seq<Json>, i: nat)
    requires i < |items|
    ensures Items(items[i..], i == 0) == (if i > 0 then "," else "") + Encode(items[i]) + Items(items[i + 1..], false)
  {
    assert items[i..][0] == items[i] && items[i..][1..] == items[i + 1..];
    hide Encode;
  }

  lemma PairStep(v: Json, keys: seq<string>, i: nat)
    requires v.Map? && (forall k <- keys :: k in v.m) && i < |keys|
    ensures Pairs(v, keys[i..], i == 0) ==
      (if i > 0 then "," else "") + Pair(keys[i], Encode(v.m[keys[i]])) + Pairs(v, keys[i + 1..], false)
  {
    assert keys[i..][0] == keys[i] && keys[i..][1..] == keys[i + 1..];
    hide Encode, Pair;
  }

  lemma {:induction false} PlainItem(items: seq<Json>, i: nat)
    requires i < |items|
    ensures PlainItems(items)[i] == Plain(items[i])
  {
    if i > 0 {
      PlainItem(items[1..], i - 1);
    }
  }

  lemma PartsAreSmaller(v: Json)
    ensures v.Arr? ==> forall i | 0 <= i < |v.items| :: Plain(v.items[i]) < Plain(v)
    ensures v.Map? ==> forall k <- v.m :: Plain(v.m[k]) < Plain(v)
  {
    if v.Arr? {
      forall i | 0 <= i < |v.items| ensures Plain(v.items[i]) < Plain(v) {
        PlainItem(v.items, i);
        assert Plain(v).items[i] < Plain(v);
      }
    }
    if v.Map? {
      forall k <- v.m ensures Plain(v.m[k]) < Plain(v) {
        assert Plain(v).m[k] == Plain(v.m[k]);
        assert Plain(v).m[k] < Plain(v);
      }
    }
  }

  lemma Bracketed(data: string, open: string, body: string, close: string)
    ensures data + (open + body + close) == data + open + body + close
    ensures forall t: string :: t + "" == t
  {
  }

  lemma Regroup(data: string, comma: string, part: string, rest: string)
    ensures data + (comma + part + rest) == (data + comma + part) + rest
  {
  }

  /** bytes.Buffer. */
  class Buffer {
    var data: string

    constructor ()
      ensures data == ""
    {
      data := "";
    }

    method Write(s: string)
      modifies this
      ensures data == old(data) + s
    {
      data := data + s;
    }

    method WriteComma(i: nat)
      modifies this
      ensures data == old(data) + (if i > 0 then "," else "")
    {
      if i > 0 {
        Write(",");
      } else {
        assert data + "" == data;
      }
    }

    method EncodeCanonical(v: Json)
      modifies this
      ensures data == old(data) + Encode(v)
      decreases Plain(v), 2
    {
      match v {
        case Null => Write("null");
        case Map(m) => EncodeMap(v);
        case StrMap(sm) =>
          var m := CopyStrings(sm);
          assert Map(m) == Plain(v) && Plain(Map(m)) == Plain(v) by { PlainStrMap(sm); }
          StrMapIsMap(sm);
          EncodeMap(Map(m));
        case Arr(items) => EncodeArray(v);
        case Bool(b) => Write(if b then "true" else "false");
        case Int(n) => Write(Decimal(n));
        case Str(s) => Write(Quote(s));
      }
    }

    method EncodeArray(v: Json)
      requires v.Arr?
      modifies this
      ensures data == old(data) + Encode(v)
      decreases Plain(v), 1
    {
      var items := v.items;
      assert Encode(v) == "[" + Items(items, true) + "]";
      Write("[");
      ghost var start := data;
      PartsAreSmaller(v);
      hide Encode, Items, Plain;
      for i := 0 to |items|
        invariant data + Items(items[i..], i == 0) == start + Items(items, true)
      {
        ItemStep(items, i);
        Regroup(data, if i > 0 then "," else "", Encode(items[i]), Items(items[i + 1..], false));
        WriteComma(i);
        EncodeCanonical(items[i]);
      }
      NoItems(items);
      Bracketed(old(data), "[", Items(items, true), "]");
      Write("]");
    }

    method EncodeEntry(v: Json, key: string)
      requires v.Map? && key in v.m
      modifies this
      ensures data == old(data) + Pair(key, Encode(v.m[key]))
      decreases Plain(v), 0
    {
      PartsAreSmaller(v);
      hide Encode, Quote, Plain;
      Write(Quote(key));
      Write(":");
      EncodeCanonical(v.m[key]);
      Bracketed(old(data), Quote(key), ":", Encode(v.m[key]));
    }

    method EncodeMap(v: Json)
      requires v.Map?
      modifies this
      ensures data == old(data) + Encode(v)
      decreases Plain(v), 1
    {
      var keys := SortedKeys(v.m.Keys);
      assert Encode(v) == "{" + Pairs(v, keys, true) + "}";
      Write("{");
      ghost var start := data;
      hide Encode, Pairs, Pair, SortedKeys, Plain;
      for i := 0 to |keys|
        invariant data + Pairs(v, keys[i..], i == 0) == start + Pairs(v, keys, true)
      {
        var key := keys[i];
        PairStep(v, keys, i);
        Regroup(data, if i > 0 then "," else "", Pair(key, Encode(v.m[key])), Pairs(v, keys[i + 1..], false));
        WriteComma(i);
        EncodeEntry(v, key);
      }
      NoPairs(v, keys);
      Bracketed(old(data), "{", Pairs(v, keys, true), "}");
      Write("}");
    }
  }

  lemma NoItems(items: seq<Json>)
    ensures forall first :: Items(items[|items|..], first) == ""
    ensures items[0..] == items
  {
  }

  lemma NoPairs(v: Json, keys: seq<string>)
    requires v.Map? && forall k <- keys :: k in v.m
    ensures forall first :: Pairs(v, keys[|keys|..], first) == ""
  {
  }

  /** A map[string]string is first copied into a map[string]any. */
  method CopyStrings(sm: map<string, string>) returns (m: map<string, Json>)
    ensures m == map k | k in sm :: Str(sm[k])
  {
    m := map[];
    var todo := sm.Keys;
    while todo != {}
      invariant todo <= sm.Keys
      invariant m == map k | k in sm && k !in todo :: Str(sm[k])
      decreases todo
    {
      var k :| k in todo;
      todo := todo - {k};
      m := m[k := Str(sm[k])];
    }
  }

  method ComputeHashInput(description: string, params: map<string, string>) returns (text: string)
    ensures text == HashInput(description, params)
  {
    var buf := new Buffer();
    buf.EncodeCanonical(StrMap(params));
    text := description + "\n" + buf.data;
  }
}
