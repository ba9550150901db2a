/** internal/builtins/template.go: dedent, which removes the indentation all lines share. */
module Dedent {
  import opened Options
  import opened Strings

  /** strings.TrimSpace(line) is empty. */
  predicate BlankLine(line: string)
  {
    forall i | 0 <= i < |line| :: Space(line[i])
  }

  /** The leading run of spaces and tabs. */
  function Lead(line: string): (r: string)
    ensures r <= line
  {
    if line == "" || line[0] !in " \t" then "" else [line[0]] + Lead(line[1..])
  }

  function Common(a: string, b: string): string
  {
    if a == "" || b == "" || a[0] != b[0] then "" else [a[0]] + Common(a[1..], b[1..])
  }

  /** The indentation shared by the lines that are not blank, if there are any. */
  function Shared(lines: seq<string>): Option<string>
  {
    if lines == [] then None
    else
      var front, last := Shared(lines[..|lines| - 1]), lines[|lines| - 1];
      if BlankLine(last) then front
      else if front.None? then Some(Lead(last))
      else Some(Common(front.value, Lead(last)))
  }

  function Indent(lines: seq<string>): string
  {
    if Shared(lines).None? then "" else Shared(lines).value
  }

  function DedentLine(line: string, prefix: string): string
  {
    if BlankLine(line) then "" else if prefix <= line then line[|prefix|..] else line
  }

  function DedentLines(lines: seq<string>): (r: seq<string>)
    ensures |r| == |lines|
  {
    seq(|lines|, i requires 0 <= i < |lines| => DedentLine(lines[i], Indent(lines)))
  }

  // ---------------------------------------------------------------- the longest there is

  lemma {:induction false} CommonIsLongest(a: string, b: string, q: string)
    ensures q <= Common(a, b) <==> q <= a && q <= b
  {
    if q != "" && a != "" && b != "" && a[0] == b[0] && q[0] == a[0] {
      CommonIsLongest(a[1..], b[1..], q[1..]);
      PrefixTail(q, a);
      PrefixTail(q, b);
      PrefixTail(q, Common(a, b));
      assert Common(a, b)[1..] == Common(a[1..], b[1..]);
    }
  }

  lemma PrefixTail(q: string, a: string)
    requires q != "" && a != "" && q[0] == a[0]
    ensures q <= a <==> q[1..] <= a[1..]
  {
    if q[1..] <= a[1..] {
      assert q == [q[0]] + q[1..] && a == [a[0]] + a[1..];
    }
  }

  /** q is made of blanks and tabs, and every line that is not blank starts with it. */
  ghost predicate Indents(q: string, lines: seq<string>)
  {
    forall l <- lines :: IsBlank(l) || (q <= l && IsIndent(q))
  }

  predicate IsIndent(q: string)
  {
    forall i | 0 <= i < |q| :: q[i] == ' ' || q[i] == '\t'
  }

  ghost predicate IsBlank(line: string)
  {
    forall i | 0 <= i < |line| :: line[i] in " \t\n\r\U{000B}\U{000C}"
  }

  lemma BlankIsBlank(line: string)
    ensures BlankLine(line) <==> IsBlank(line)
  {
  }

  /** The leading run holds exactly the prefixes of blanks and tabs. */
  lemma {:induction false} LeadIsLongest(line: string, q: string)
    ensures q <= Lead(line) <==> q <= line && IsIndent(q)
  {
    if q != "" {
      assert IsIndent(q) <==> (q[0] == ' ' || q[0] == '\t') && IsIndent(q[1..]) by {
        assert q == [q[0]] + q[1..];
      }
      if line != "" && q[0] == line[0] {
        LeadIsLongest(line[1..], q[1..]);
        PrefixTail(q, line);
        if line[0] == ' ' || line[0] == '\t' {
          PrefixTail(q, [line[0]] + Lead(line[1..]));
          assert ([line[0]] + Lead(line[1..]))[1..] == Lead(line[1..]);
        }
      }
    }
  }

  /** What is shared is exactly what indents every line: the longest such indentation. */
  lemma {:induction false} SharedIsLongest(lines: seq<string>, q: string)
    ensures Shared(lines).None? <==> forall l <- lines :: IsBlank(l)
    ensures Shared(lines).Some? ==> (Indents(q, lines) <==> q <= Shared(lines).value)
  {
    hide BlankLine, IsBlank, Lead;
    if lines != [] {
      var front, last := lines[..|lines| - 1], lines[|lines| - 1];
      BlankIsBlank(last);
      LeadIsLongest(last, q);
      SharedIsLongest(front, q);
      assert lines == front + [last];
      if Shared(front).Some? { CommonIsLongest(Shared(front).value, Lead(last), q); }
      hide Common, Shared;
    }
  }

  /** Blank lines become empty, and every other line is the shared indentation followed by
      its result, so lines keep their indentation relative to each other. */
  lemma DedentKeepsLines(lines: seq<string>, i: nat)
    requires i < |lines|
    ensures IsBlank(lines[i]) ==> DedentLines(lines)[i] == ""
    ensures !IsBlank(lines[i]) ==> lines[i] == Indent(lines) + DedentLines(lines)[i]
    ensures IsBlank(DedentLines(lines)[i]) <==> IsBlank(lines[i])
  {
    BlankIsBlank(lines[i]);
    BlankIsBlank(DedentLines(lines)[i]);
    LeadIsLongest(lines[i], Indent(lines));
    hide IsBlank;
    if !BlankLine(lines[i]) {
      SharedIsLongest(lines, Indent(lines));
      assert lines[i] in lines && Indent(lines) <= Lead(lines[i]) <= lines[i];
      LeadIsSpace(lines[i]);
      var k :| 0 <= k < |lines[i]| && !Space(lines[i][k]);
      assert DedentLines(lines)[i] == lines[i][|Indent(lines)|..];
      assert k >= |Indent(lines)| by {
        assert forall j | 0 <= j < |Indent(lines)| :: Indent(lines)[j] == lines[i][j];
      }
      assert DedentLines(lines)[i][k - |Indent(lines)|] == lines[i][k];
    }
  }

  lemma {:induction false} LeadIsSpace(line: string)
    ensures forall j | 0 <= j < |Lead(line)| :: Space(line[j])
  {
    if line != "" && line[0] in " \t" {
      LeadIsSpace(line[1..]);
    }
  }

  /** Nothing is left to share, so dedenting again changes nothing. */
  lemma DedentIsIdempotent(lines: seq<string>)
    ensures Indent(DedentLines(lines)) == ""
    ensures DedentLines(DedentLines(lines)) == DedentLines(lines)
  {
    var out := DedentLines(lines);
    var p, q := Indent(lines), Indent(out);
    SharedIsLongest(out, q);
    SharedIsLongest(lines, p);
    SharedIsLongest(lines, p + q);
    SomeLineLeft(lines);
    if Shared(out).Some? {
      TogetherTheyIndent(lines, q);
    }
    hide BlankLine, IsBlank, Indents, Lead, DedentLines, Shared;
    forall i | 0 <= i < |lines| ensures DedentLines(out)[i] == out[i] {
      DedentKeepsLines(lines, i);
      DedentKeepsLines(out, i);
      assert q == "" ==> q + DedentLines(out)[i] == DedentLines(out)[i];
      if IsBlank(out[i]) { BlankIsGone(lines, i); }
    }
  }

  lemma BlankIsGone(lines: seq<string>, i: nat)
    requires i < |lines| && IsBlank(DedentLines(lines)[i])
    ensures DedentLines(lines)[i] == ""
  {
    DedentKeepsLines(lines, i);
  }

  /** The shared indentation followed by one that the dedented lines share. */
  lemma TogetherTheyIndent(lines: seq<string>, q: string)
    requires Indents(Indent(lines), lines) && Indents(q, DedentLines(lines))
    ensures Indents(Indent(lines) + q, lines)
  {
    var p, out := Indent(lines), DedentLines(lines);
    hide IsBlank, DedentLines, Shared;
    forall l <- lines ensures IsBlank(l) || (p + q <= l && IsIndent(p + q)) {
      var i :| 0 <= i < |lines| && lines[i] == l;
      DedentKeepsLines(lines, i);
      assert out[i] in out;
    }
  }

  function DedentText(text: string): string
  {
    JoinLines(DedentLines(SplitLines(text)))
  }

  lemma DedentTwice(text: string)
    ensures DedentText(DedentText(text)) == DedentText(text)
  {
    var lines := SplitLines(text);
    SplitsToLines(text);
    forall l <- DedentLines(lines) ensures OneLine(l) {
      var i :| 0 <= i < |lines| && DedentLine(lines[i], Indent(lines)) == l;
      assert OneLine(lines[i]);
    }
    SplitJoined(DedentLines(lines));
    DedentIsIdempotent(lines);
  }

  lemma SomeLineLeft(lines: seq<string>)
    ensures Shared(lines).None? <==> Shared(DedentLines(lines)).None?
  {
    var out := DedentLines(lines);
    forall i | 0 <= i < |lines| ensures BlankLine(out[i]) <==> BlankLine(lines[i]) { DedentKeepsLines(lines, i); }
    SharedIsLongest(lines, "");
    SharedIsLongest(out, "");
    hide BlankLine, DedentLines, Shared;
    assert (forall l <- lines :: BlankLine(l)) <==> forall i | 0 <= i < |lines| :: BlankLine(lines[i]);
    assert (forall l <- out :: BlankLine(l)) <==> forall i | 0 <= i < |out| :: BlankLine(out[i]);
  }

  // ---------------------------------------------------------------- the methods

  method CommonPrefix(a: string, b: string) returns (p: string)
    ensures p == Common(a, b)
  {
    var n := |a|;
    if |b| < n {
      n := |b|;
    }
    var i := 0;
    while i < n && a[i] == b[i]
      invariant 0 <= i <= n
      invariant Common(a, b) == a[..i] + Common(a[i..], b[i..])
    {
      assert a[i..][1..] == a[i + 1..] && b[i..][1..] == b[i + 1..];
      assert a[..i] + [a[i]] == a[..i + 1];
      i := i + 1;
    }
    p := a[..i];
  }

  lemma {:induction false} NothingMoreShared(lines: seq<string>, i: nat)
    requires i <= |lines| && Shared(lines[..i]) == Some("")
    ensures Shared(lines) == Some("")
  {
    if i == |lines| {
      assert lines[..i] == lines;
    } else {
      assert lines[..|lines| - 1][..i] == lines[..i];
      NothingMoreShared(lines[..|lines| - 1], i);
    }
  }

  /** The scan for the shared indentation, which stops once there is none. */
  method FindIndent(lines: seq<string>) returns (prefix: string)
    ensures prefix == Indent(lines)
  {
    prefix := "";
    var havePrefix := false;
    for i := 0 to |lines|
      invariant havePrefix == Shared(lines[..i]).Some?
      invariant prefix == Indent(lines[..i])
    {
      assert lines[..i + 1][..i] == lines[..i];
      if BlankLine(lines[i]) {
        continue;
      }
      var lead := Lead(lines[i]);
      if !havePrefix {
        prefix := lead;
        havePrefix := true;
      } else {
        prefix := CommonPrefix(prefix, lead);
      }
      if prefix == "" {
        NothingMoreShared(lines, i + 1);
        return;
      }
    }
    assert lines[..|lines|] == lines;
  }

  method BuiltinDedent(text: string) returns (r: string)
    ensures r == DedentText(text)
  {
    var lines := SplitLines(text);
    var prefix := FindIndent(lines);
    var out := lines;
    for i := 0 to |lines|
      invariant |out| == |lines|
      invariant forall k | 0 <= k < i :: out[k] == DedentLine(lines[k], prefix)
      invariant forall k | i <= k < |lines| :: out[k] == lines[k]
    {
      if BlankLine(lines[i]) {
        out := out[i := ""];
      } else if prefix <= lines[i] {
        out := out[i := lines[i][|prefix|..]];
      }
    }
    assert out == DedentLines(lines);
    r := JoinLines(out);
  }
}
