/** The parts of Go's strings package that several components use, over single-byte
    characters. */
module Strings {
  import opened Options

  // ---------------------------------------------------------------- substrings

  predicate OccursAt(t: string, s: string, i: nat)
  {
    i + |s| <= |t| && t[i..i + |s|] == s
  }

  /** strings.Contains. */
  predicate Contains(t: string, s: string)
  {
    exists i | 0 <= i <= |t| :: OccursAt(t, s, i)
  }

  lemma ContainsSomewhere(t: string, s: string)
    ensures Contains(t, s) <==> exists before, after :: t == before + s + after
  {
    if i :| 0 <= i <= |t| && OccursAt(t, s, i) {
      assert t == t[..i] + s + t[i + |s|..];
    }
    if before, after :| t == before + s + after {
      assert t[|before|..|before| + |s|] == s;
      assert OccursAt(t, s, |before|);
    }
  }

  predicate HasPrefix(t: string, p: string)
  {
    p <= t
  }

  function LowerChar(c: char): char
  {
    if 'A' <= c <= 'Z' then c - 'A' + 'a' else c
  }

  function Lower(s: string): (r: string)
    ensures |r| == |s| && forall i | 0 <= i < |s| :: r[i] == LowerChar(s[i])
    ensures forall i | 0 <= i < |s| :: 'A' <= s[i] <= 'Z' ==> r[i] as int == s[i] as int + 32
    ensures forall i | 0 <= i < |s| :: !('A' <= s[i] <= 'Z') ==> r[i] == s[i]
  {
    seq(|s|, i requires 0 <= i < |s| => LowerChar(s[i]))
  }

  function Without(s: string, gone: string): string
  {
    if s == "" then ""
    else if s[0] in gone then Without(s[1..], gone)
    else [s[0]] + Without(s[1..], gone)
  }

  /** Lower case, with underscores, hyphens and spaces taken out. */
  function Normalize(s: string): string
  {
    Without(Lower(s), "_- ")
  }

  lemma WithoutFirst(c: char, s: string, gone: string)
    ensures Without([c] + s, gone) == (if c in gone then "" else [c]) + Without(s, gone)
  {
    assert ([c] + s)[1..] == s;
    assert "" + Without(s, gone) == Without(s, gone);
  }

  /** Character by character: underscores, hyphens and spaces go, letters lose their case. */
  lemma NormalizeFirst(c: char, s: string)
    ensures c == '_' || c == '-' || c == ' ' ==> Normalize([c] + s) == Normalize(s)
    ensures c != '_' && c != '-' && c != ' ' ==> Normalize([c] + s) == Lower([c]) + Normalize(s)
  {
    assert Lower([c] + s) == Lower([c]) + Lower(s) && Lower([c]) == [Lower([c])[0]];
    WithoutFirst(Lower([c])[0], Lower(s), "_- ");
    hide Without;
    assert "" + Without(Lower(s), "_- ") == Without(Lower(s), "_- ");
  }

  lemma {:induction false} WithoutConcat(a: string, b: string, gone: string)
    ensures Without(a + b, gone) == Without(a, gone) + Without(b, gone)
  {
    if a == "" {
      assert a + b == b && "" + Without(b, gone) == Without(b, gone);
    } else {
      WithoutConcat(a[1..], b, gone);
      WithoutFirst(a[0], a[1..], gone);
      WithoutFirst(a[0], a[1..] + b, gone);
      hide Without;
      assert a == [a[0]] + a[1..] && a + b == [a[0]] + (a[1..] + b);
    }
  }

  // ---------------------------------------------------------------- hexadecimal digits

  function HexValue(c: char): Option<nat>
  {
    if '0' <= c <= '9' then Some((c - '0') as nat)
    else if 'a' <= c <= 'f' then Some((c - 'a') as nat + 10)
    else if 'A' <= c <= 'F' then Some((c - 'A') as nat + 10)
    else None
  }

  function HexCount(t: string): (n: nat)
    ensures n <= |t| && forall i | 0 <= i < n :: HexValue(t[i]).Some?
  {
    if t == "" || HexValue(t[0]).None? then 0 else 1 + HexCount(t[1..])
  }

  function HexNumber(h: string): nat
    requires forall i | 0 <= i < |h| :: HexValue(h[i]).Some?
  {
    if h == "" then 0 else 16 * HexNumber(h[..|h| - 1]) + HexValue(h[|h| - 1]).value
  }

  /** The Unicode character of a code point, if it is one. */
  function CodePoint(code: nat): Option<char>
  {
    if code < 0xD800 || 0xE000 <= code < 0x11_0000 then Some(code as char) else None
  }

  // ---------------------------------------------------------------- words

  predicate Space(c: char)
  {
    c in " \t\n\r" || c == '\U{000B}' || c == '\U{000C}'
  }

  function WordLength(t: string): (n: nat)
    ensures n <= |t| && forall i | 0 <= i < n :: !Space(t[i])
    ensures n < |t| ==> Space(t[n])
  {
    if t == "" || Space(t[0]) then 0 else 1 + WordLength(t[1..])
  }

  ghost predicate IsWord(w: string)
  {
    w != "" && forall i | 0 <= i < |w| :: !Space(w[i])
  }

  /** strings.Fields. */
  function Fields(t: string): (r: seq<string>)
    ensures forall w <- r :: IsWord(w)
    decreases |t|
  {
    if t == "" then []
    else if Space(t[0]) then Fields(t[1..])
    else
      var n := WordLength(t);
      [t[..n]] + Fields(t[n..])
  }

  lemma {:induction false} WordLengthStops(a: string, c: char, b: string)
    requires Space(c)
    ensures WordLength(a + ([c] + b)) == WordLength(a)
  {
    if a == "" {
      assert a + ([c] + b) == [c] + b;
    } else {
      assert (a + ([c] + b))[1..] == a[1..] + ([c] + b);
      WordLengthStops(a[1..], c, b);
    }
  }

  lemma {:induction false} FieldsSplit(a: string, c: char, b: string)
    requires c in " \t\n\r\U{000B}\U{000C}"
    ensures Fields(a + ([c] + b)) == Fields(a) + Fields(b)
    decreases |a|
  {
    var t := a + ([c] + b);
    if a == "" {
      assert t == [c] + b && t[1..] == b;
    } else if Space(a[0]) {
      assert t[1..] == a[1..] + ([c] + b);
      FieldsSplit(a[1..], c, b);
    } else {
      var n := WordLength(a);
      WordLengthStops(a, c, b);
      assert t[..n] == a[..n] && t[n..] == a[n..] + ([c] + b);
      FieldsSplit(a[n..], c, b);
      assert [a[..n]] + (Fields(a[n..]) + Fields(b)) == ([a[..n]] + Fields(a[n..])) + Fields(b);
    }
  }

  lemma {:induction false} WordLengthOfWord(w: string)
    requires forall i | 0 <= i < |w| :: !Space(w[i])
    ensures WordLength(w) == |w|
  {
    if w != "" {
      WordLengthOfWord(w[1..]);
    }
  }

  lemma FieldsOfWord(w: string)
    requires w != "" && forall i | 0 <= i < |w| :: w[i] !in " \t\n\r\U{000B}\U{000C}"
    ensures Fields(w) == [w]
  {
    WordLengthOfWord(w);
    assert w[..|w|] == w && w[|w|..] == "";
  }

  lemma WordIsItsField(w: string)
    requires IsWord(w)
    ensures Fields(w) == [w]
  {
    FieldsOfWord(w);
  }

  /** Every field is a stretch of the text. */
  lemma {:induction false} FieldOccurs(t: string, w: string) returns (i: nat)
    requires w in Fields(t)
    ensures OccursAt(t, w, i)
    decreases |t|
  {
    if Space(t[0]) {
      var j := FieldOccurs(t[1..], w);
      i := j + 1;
      assert t[i..i + |w|] == t[1..][j..j + |w|];
    } else {
      var n := WordLength(t);
      if w == t[..n] {
        i := 0;
        assert t[0..|w|] == t[..n];
      } else {
        var j := FieldOccurs(t[n..], w);
        i := n + j;
        assert t[i..i + |w|] == t[n..][j..j + |w|];
      }
    }
  }

  // ---------------------------------------------------------------- lines

  /** strings.Join(lines, "\n"). */
  function JoinLines(lines: seq<string>): string
  {
    if lines == [] then ""
    else if |lines| == 1 then lines[0]
    else JoinLines(lines[..|lines| - 1]) + ("\n" + lines[|lines| - 1])
  }

  /** strings.Split(t, "\n"): the text before each newline, and what is after the last. */
  function SplitLines(t: string): (r: seq<string>)
    ensures |r| > 0
  {
    if t == "" then [""]
    else
      var front := SplitLines(t[..|t| - 1]);
      if t[|t| - 1] == '\n' then front + [""]
      else front[..|front| - 1] + [front[|front| - 1] + [t[|t| - 1]]]
  }

  ghost predicate OneLine(s: string)
  {
    forall i | 0 <= i < |s| :: s[i] != '\n'
  }

  lemma {:induction false} SplitsToLines(t: string)
    ensures forall l <- SplitLines(t) :: OneLine(l)
  {
    if t != "" {
      var front := SplitLines(t[..|t| - 1]);
      SplitsToLines(t[..|t| - 1]);
      assert forall l <- front[..|front| - 1] :: l in front;
      assert front[|front| - 1] in front;
    }
  }

  lemma {:induction false} SplitAfter(t: string, l: string)
    requires OneLine(l)
    ensures SplitLines(t + ("\n" + l)) == SplitLines(t) + [l]
    decreases |l|
  {
    hide SplitLines;
    if l == "" {
      SplitOneMore(t, '\n');
      assert t + ("\n" + l) == t + ['\n'];
    } else {
      var front, c := l[..|l| - 1], l[|l| - 1];
      SplitAfter(t, front);
      SplitOneMore(t + ("\n" + front), c);
      assert l == front + [c] && t + ("\n" + l) == t + ("\n" + front) + [c];
      assert (SplitLines(t) + [front])[..|SplitLines(t)|] == SplitLines(t);
    }
  }

  lemma {:induction false} JoinMore(lines: seq<string>, l: string)
    ensures JoinLines(lines + [l]) == if lines == [] then l else JoinLines(lines) + ("\n" + l)
  {
    assert (lines + [l])[..|lines|] == lines;
  }

  lemma {:induction false} JoinSplit(t: string)
    ensures JoinLines(SplitLines(t)) == t
  {
    if t != "" {
      var front, c := t[..|t| - 1], t[|t| - 1];
      var lines := SplitLines(front);
      JoinSplit(front);
      SplitOneMore(front, c);
      JoinOneMore(lines, c);
      hide JoinLines, SplitLines;
      assert t == front + [c];
    }
  }

  /** One more character goes to the last line, or starts another. */
  function Appended(lines: seq<string>, c: char): seq<string>
    requires lines != []
  {
    if c == '\n' then lines + [""] else lines[..|lines| - 1] + [lines[|lines| - 1] + [c]]
  }

  lemma SplitOneMore(t: string, c: char)
    ensures SplitLines(t + [c]) == Appended(SplitLines(t), c)
  {
    assert (t + [c])[..|t|] == t;
  }

  lemma JoinOneMore(lines: seq<string>, c: char)
    requires lines != []
    ensures JoinLines(Appended(lines, c)) == JoinLines(lines) + [c]
  {
    hide JoinLines;
    var before, last := lines[..|lines| - 1], lines[|lines| - 1];
    assert lines == before + [last];
    JoinMore(before, last);
    JoinMore(before, last + [c]);
    JoinMore(lines, "");
    assert JoinLines(lines) + ("\n" + "") == JoinLines(lines) + ['\n'];
    assert JoinLines(before) + ("\n" + (last + [c])) == JoinLines(before) + ("\n" + last) + [c];
  }

  lemma {:induction false} SplitOneLine(l: string)
    requires OneLine(l)
    ensures SplitLines(l) == [l]
  {
    if l != "" {
      SplitOneLine(l[..|l| - 1]);
      assert l == l[..|l| - 1] + [l[|l| - 1]];
    }
  }

  lemma {:induction false} SplitJoined(lines: seq<string>)
    requires lines != [] && forall l <- lines :: OneLine(l)
    ensures SplitLines(JoinLines(lines)) == lines
  {
    hide SplitLines, OneLine;
    var front, last := lines[..|lines| - 1], lines[|lines| - 1];
    assert lines == front + [last];
    if |lines| == 1 {
      SplitOneLine(last);
    } else {
      assert forall l <- front :: l in lines;
      SplitJoined(front);
      SplitAfter(JoinLines(front), last);
    }
  }
}
