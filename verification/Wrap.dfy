/** internal/builtins/template.go: the wrap builtin, which breaks text greedily into lines.
    Text is a string of single-byte characters. */
module Wrap {
  import opened Strings

  // ---------------------------------------------------------------- lines

  type Line = seq<string>

  /** The line's text: its words, one space apart. */
  function Text(line: Line): string
  {
    if line == [] then ""
    else if |line| == 1 then line[0]
    else Text(line[..|line| - 1]) + (" " + line[|line| - 1])
  }

  function Flat(lines: seq<Line>): seq<string>
  {
    if lines == [] then [] else Flat(lines[..|lines| - 1]) + lines[|lines| - 1]
  }

  function Joined(lines: seq<Line>): string
  {
    if lines == [] then ""
    else if |lines| == 1 then Text(lines[0])
    else Joined(lines[..|lines| - 1]) + ("\n" + Text(lines[|lines| - 1]))
  }

  ghost predicate AllWords(line: Line)
  {
    forall w <- line :: IsWord(w)
  }

  predicate Fits(line: Line, width: nat)
  {
    |line| > 0 && (|Text(line)| <= width || |line| == 1)
  }

  /** These lines hold exactly these words in order, and only a single word sticks out. */
  ghost predicate Breaks(lines: seq<Line>, words: seq<string>, width: nat)
  {
    Flat(lines) == words && forall l <- lines :: Fits(l, width)
  }

  lemma {:induction false} FieldsOfText(line: Line)
    requires AllWords(line)
    ensures Fields(Text(line)) == line
  {
    if line != [] {
      WordIsItsField(line[|line| - 1]);
      hide Fields, Space, WordLength;
      if |line| > 1 {
        var front := line[..|line| - 1];
        FieldsOfText(front);
        FieldsSplit(Text(front), ' ', line[|line| - 1]);
        assert " " + line[|line| - 1] == [' '] + line[|line| - 1];
        assert front + [line[|line| - 1]] == line;
      } else {
        assert line == [line[0]];
      }
    }
  }

  lemma {:induction false} FieldsOfJoined(lines: seq<Line>)
    requires forall l <- lines :: AllWords(l)
    ensures Fields(Joined(lines)) == Flat(lines)
  {
    if lines != [] {
      var front, last := lines[..|lines| - 1], lines[|lines| - 1];
      assert forall l <- front :: l in lines;
      FieldsOfText(last);
      FieldsOfJoined(front);
      if |lines| > 1 {
        FieldsSplit(Joined(front), '\n', Text(last));
        assert "\n" + Text(last) == ['\n'] + Text(last);
      } else {
        assert front == [] && Flat(front) == [];
      }
    }
  }

  // ---------------------------------------------------------------- greedy breaking

  /** What the loop does with the rest of the words once `line` is open. */
  function Greedy(line: Line, rest: seq<string>, width: nat): seq<Line>
    decreases |rest|
  {
    if rest == [] then [line]
    else if |Text(line)| + 1 + |rest[0]| <= width then Greedy(line + [rest[0]], rest[1..], width)
    else [line] + Greedy([rest[0]], rest[1..], width)
  }

  lemma {:induction false} FlatFront(line: Line, lines: seq<Line>)
    ensures Flat([line] + lines) == line + Flat(lines)
  {
    if lines == [] {
      assert [line] + lines == [line] && [line][..0] == [];
    } else {
      var last := |lines| - 1;
      FlatFront(line, lines[..last]);
      assert ([line] + lines)[..|lines|] == [line] + lines[..last];
    }
  }

  lemma TextGrows(line: Line, w: string)
    requires line != []
    ensures Text(line + [w]) == Text(line) + (" " + w)
    ensures |Text(line + [w])| == |Text(line)| + 1 + |w|
  {
    assert (line + [w])[..|line|] == line;
  }

  lemma {:induction false} GreedyBreaks(line: Line, rest: seq<string>, width: nat)
    requires Fits(line, width)
    ensures Breaks(Greedy(line, rest, width), line + rest, width)
    decreases |rest|
  {
    if rest == [] {
      assert Flat([line]) == Flat([]) + line by { assert [line][..0] == []; }
      assert line + rest == line;
    } else {
      TextGrows(line, rest[0]);
      assert line + rest == (line + [rest[0]]) + rest[1..];
      if |Text(line)| + 1 + |rest[0]| <= width {
        GreedyBreaks(line + [rest[0]], rest[1..], width);
      } else {
        GreedyBreaks([rest[0]], rest[1..], width);
        FlatFront(line, Greedy([rest[0]], rest[1..], width));
        assert [rest[0]] + rest[1..] == rest;
      }
    }
  }

  // ---------------------------------------------------------------- nothing does better

  lemma {:induction false} PrefixIsShorter(line: Line, n: nat)
    requires 0 < n <= |line|
    ensures |Text(line[..n])| <= |Text(line)|
  {
    if n == |line| {
      assert line[..n] == line;
    } else {
      var front := line[..|line| - 1];
      PrefixIsShorter(front, n);
      assert front[..n] == line[..n];
    }
  }

  lemma {:induction false} TailIsShorter(line: Line)
    requires |line| > 1
    ensures |Text(line[1..])| <= |Text(line)|
  {
    var last := |line| - 1;
    if last > 1 {
      TailIsShorter(line[..last]);
      assert line[1..][..last - 1] == line[..last][1..];
    }
  }

  /** Leaving out the first word never needs another line. */
  lemma DropWord(lines: seq<Line>, words: seq<string>, width: nat) returns (shorter: seq<Line>)
    requires words != [] && Breaks(lines, words, width)
    ensures Breaks(shorter, words[1..], width) && |shorter| <= |lines|
  {
    assert lines != [];
    var first, others := lines[0], lines[1..];
    assert lines == [first] + others;
    FlatFront(first, others);
    assert Fits(first, width) && forall l <- others :: l in lines;
    if |first| == 1 {
      shorter := others;
      assert words[1..] == Flat(others);
    } else {
      shorter := [first[1..]] + others;
      TailIsShorter(first);
      FlatFront(first[1..], others);
      assert words[1..] == first[1..] + Flat(others);
    }
  }

  lemma {:induction false} DropWords(lines: seq<Line>, words: seq<string>, n: nat, width: nat)
    returns (shorter: seq<Line>)
    requires n <= |words| && Breaks(lines, words, width)
    ensures Breaks(shorter, words[n..], width) && |shorter| <= |lines|
    decreases n
  {
    if n == 0 {
      shorter := lines;
      assert words[0..] == words;
    } else {
      var rest := DropWord(lines, words, width);
      shorter := DropWords(rest, words[1..], n - 1, width);
      assert words[1..][n - 1..] == words[n..];
    }
  }

  /** A full line is at least as long as anybody else's first line. */
  lemma FullLineIsLongest(line: Line, rest: seq<string>, other: Line, others: seq<Line>, width: nat)
    requires line != [] && rest != [] && |Text(line)| + 1 + |rest[0]| > width
    requires Fits(other, width) && other + Flat(others) == line + rest
    ensures |other| <= |line|
  {
    if |other| > |line| {
      assert other[..|line| + 1] == (line + rest)[..|line| + 1] == line + [rest[0]];
      TextGrows(line, rest[0]);
      PrefixIsShorter(other, |line| + 1);
    }
  }

  lemma {:induction false} GreedyIsShortest(line: Line, rest: seq<string>, width: nat, lines: seq<Line>)
    requires line != [] && Breaks(lines, line + rest, width)
    ensures |Greedy(line, rest, width)| <= |lines|
    decreases |rest|
  {
    assert lines != [];
    if rest == [] {
    } else if |Text(line)| + 1 + |rest[0]| <= width {
      assert line + rest == (line + [rest[0]]) + rest[1..];
      GreedyIsShortest(line + [rest[0]], rest[1..], width, lines);
    } else {
      var first, others := lines[0], lines[1..];
      assert lines == [first] + others;
      FlatFront(first, others);
      FullLineIsLongest(line, rest, first, others, width);
      assert (line + rest)[|first|..] == Flat(others);
      var n := |line| - |first|;
      var tail := DropWords(others, Flat(others), n, width);
      assert Flat(others)[n..] == (line + rest)[|line|..] == rest == [rest[0]] + rest[1..];
      GreedyIsShortest([rest[0]], rest[1..], width, tail);
    }
  }

  // ---------------------------------------------------------------- the builtin

  function WrapLines(text: string, width: nat): seq<Line>
  {
    var words := Fields(text);
    if words == [] then [] else Greedy([words[0]], words[1..], width)
  }

  /** The lines hold the words of the text, none is too long but for a single word, and no
      such breaking has fewer lines. */
  lemma WrapIsOptimal(text: string, width: nat)
    ensures Breaks(WrapLines(text, width), Fields(text), width)
    ensures forall lines :: Breaks(lines, Fields(text), width) ==> |WrapLines(text, width)| <= |lines|
  {
    var words := Fields(text);
    if words != [] {
      assert words == [words[0]] + words[1..];
      GreedyBreaks([words[0]], words[1..], width);
      forall lines | Breaks(lines, words, width) ensures |WrapLines(text, width)| <= |lines| {
        GreedyIsShortest([words[0]], words[1..], width, lines);
      }
    }
  }

  lemma {:induction false} WordsOfLines(lines: seq<Line>)
    requires forall w <- Flat(lines) :: IsWord(w)
    ensures forall l <- lines :: AllWords(l)
  {
    if lines != [] {
      var front, last := lines[..|lines| - 1], lines[|lines| - 1];
      assert forall w <- Flat(front) :: w in Flat(lines);
      assert forall w <- last :: w in Flat(lines);
      WordsOfLines(front);
      assert lines == front + [last];
    }
  }

  /** The wrapped text has the same words, so wrapping it again changes nothing. */
  lemma WrapKeepsWords(text: string, width: nat)
    ensures Fields(Joined(WrapLines(text, width))) == Fields(text)
    ensures WrapLines(Joined(WrapLines(text, width)), width) == WrapLines(text, width)
  {
    WrapIsOptimal(text, width);
    WordsOfLines(WrapLines(text, width));
    FieldsOfJoined(WrapLines(text, width));
  }

  // ---------------------------------------------------------------- as texts

  /** No line of the text is longer than the width, but for a single word. */
  ghost predicate IsWrapped(text: string, width: nat)
  {
    forall l <- SplitLines(text) :: |l| <= width || |Fields(l)| == 1
  }

  function Texts(lines: seq<Line>): (r: seq<string>)
    ensures |r| == |lines| && forall i | 0 <= i < |lines| :: r[i] == Text(lines[i])
  {
    seq(|lines|, i requires 0 <= i < |lines| => Text(lines[i]))
  }

  lemma {:induction false} TextIsOneLine(line: Line)
    requires AllWords(line)
    ensures OneLine(Text(line))
  {
    if line != [] {
      assert Space('\n') && IsWord(line[|line| - 1]);
      if |line| > 1 {
        TextIsOneLine(line[..|line| - 1]);
      }
    }
  }

  /** The lines of the joined text are the lines. */
  lemma JoinedSplits(lines: seq<Line>)
    requires lines != [] && forall l <- lines :: AllWords(l)
    ensures SplitLines(Joined(lines)) == Texts(lines)
  {
    forall t <- Texts(lines) ensures OneLine(t) {
      var i :| 0 <= i < |lines| && Texts(lines)[i] == t;
      TextIsOneLine(lines[i]);
    }
    LinesJoin(Texts(lines), lines);
    SplitJoined(Texts(lines));
  }

  lemma {:induction false} TextFromFront(w: string, rest: Line)
    ensures |Text([w] + rest)| == |w| + (if rest == [] then 0 else 1 + |Text(rest)|)
  {
    if rest != [] {
      TextFromFront(w, rest[..|rest| - 1]);
      assert ([w] + rest)[..|rest|] == [w] + rest[..|rest| - 1];
    }
  }

  /** One space between words is the shortest way to write them. */
  lemma {:induction false} TextIsShort(l: string)
    ensures |Text(Fields(l))| <= |l|
    decreases |l|
  {
    if l == "" {
    } else if Space(l[0]) {
      TextIsShort(l[1..]);
    } else {
      var n := WordLength(l);
      TextFromFront(l[..n], Fields(l[n..]));
      if n < |l| {
        TextIsShort(l[n + 1..]);
        assert Fields(l[n..]) == Fields(l[n + 1..]) by { assert l[n..][1..] == l[n + 1..]; }
      }
    }
  }

  /** The words of each line, leaving out lines without any. */
  function Filled(texts: seq<string>): (r: seq<Line>)
    ensures |r| <= |texts|
  {
    if texts == [] then []
    else
      var front, words := Filled(texts[..|texts| - 1]), Fields(texts[|texts| - 1]);
      if words == [] then front else front + [words]
  }

  lemma {:induction false} FilledFits(texts: seq<string>, width: nat)
    requires forall l <- texts :: |l| <= width || |Fields(l)| == 1
    ensures forall l <- Filled(texts) :: Fits(l, width)
  {
    if texts != [] {
      assert texts[|texts| - 1] in texts && forall l <- texts[..|texts| - 1] :: l in texts;
      FilledFits(texts[..|texts| - 1], width);
      TextIsShort(texts[|texts| - 1]);
    }
  }

  lemma FlatMore(lines: seq<Line>, l: Line)
    ensures Flat(lines + [l]) == Flat(lines) + l
  {
    assert (lines + [l])[..|lines|] == lines;
  }

  lemma {:induction false} FilledIsFields(texts: seq<string>)
    ensures Flat(Filled(texts)) == Fields(JoinLines(texts))
  {
    hide Fields, Space, JoinLines, Flat;
    if texts == [] {
      NothingFilled();
    } else {
      var front, last := texts[..|texts| - 1], texts[|texts| - 1];
      FilledIsFields(front);
      assert texts == front + [last];
      JoinMore(front, last);
      FlatMore(Filled(front), Fields(last));
      if front == [] {
        NothingFilled();
      } else {
        FieldsSplit(JoinLines(front), '\n', last);
        assert "\n" + last == ['\n'] + last;
      }
    }
  }

  lemma NothingFilled()
    ensures Flat([]) == [] && Fields(JoinLines([])) == []
  {
  }

  /** Of all texts with these words whose lines are no longer than the width, but for single
      words, the wrapped one has the fewest lines. */
  lemma WrappedTextIsShortest(text: string, width: nat)
    ensures var r := Joined(WrapLines(text, width));
      && Fields(r) == Fields(text) && IsWrapped(r, width)
      && forall u | Fields(u) == Fields(text) && IsWrapped(u, width) :: |SplitLines(r)| <= |SplitLines(u)|
  {
    var lines := WrapLines(text, width);
    WrapIsOptimal(text, width);
    WrapKeepsWords(text, width);
    if lines == [] {
      assert SplitLines("") == [""];
    } else {
      WordsOfLines(lines);
      JoinedSplits(lines);
      forall l <- Texts(lines) ensures |l| <= width || |Fields(l)| == 1 {
        var i :| 0 <= i < |lines| && Texts(lines)[i] == l;
        FieldsOfText(lines[i]);
        assert lines[i] in lines;
      }
      forall u | Fields(u) == Fields(text) && IsWrapped(u, width) ensures |Texts(lines)| <= |SplitLines(u)| {
        JoinSplit(u);
        FilledIsFields(SplitLines(u));
        FilledFits(SplitLines(u), width);
      }
    }
    hide Fields, SplitLines, Text, WrapLines, Joined, Flat, Fits;
  }

  /** wrap, with the current line and the lines before it kept as text. */
  method BuiltinWrap(text: string, width: int) returns (r: string)
    ensures width <= 0 ==> r == text
    ensures width > 0 ==> r == Joined(WrapLines(text, width))
  {
    if width <= 0 {
      return text;
    }
    var words := Fields(text);
    if |words| == 0 {
      return "";
    }
    var lines: seq<string> := [];
    var currentLine := words[0];
    ghost var done: seq<Line>, line: Line := [], [words[0]];
    for i := 1 to |words|
      invariant |lines| == |done| && forall k | 0 <= k < |lines| :: lines[k] == Text(done[k])
      invariant line != [] && currentLine == Text(line)
      invariant WrapLines(text, width) == done + Greedy(line, words[i..], width)
    {
      var word := words[i];
      assert words[i..][0] == word && words[i..][1..] == words[i + 1..];
      if |currentLine| + 1 + |word| <= width {
        TextGrows(line, word);
        currentLine := currentLine + (" " + word);
        line := line + [word];
      } else {
        lines := lines + [currentLine];
        currentLine := word;
        done, line := done + [line], [word];
      }
    }
    lines := lines + [currentLine];
    done := done + [line];
    assert words[|words|..] == [];
    r := JoinLines(lines);
    LinesJoin(lines, done);
  }

  lemma {:induction false} LinesJoin(texts: seq<string>, lines: seq<Line>)
    requires |texts| == |lines| && forall k | 0 <= k < |lines| :: texts[k] == Text(lines[k])
    ensures JoinLines(texts) == Joined(lines)
  {
    if |lines| > 1 {
      LinesJoin(texts[..|lines| - 1], lines[..|lines| - 1]);
    }
  }
}
