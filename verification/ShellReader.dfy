/** A reference tokenizer for command lines, after sections 2.2 and 2.3 of the POSIX.1-2017
    Shell Command Language: quoting, comments and operators, one operator character a token,
    before any expansion. Back-quotes, here-documents, and $( and ${ inside double quotes
    nest lines of their own, and give None. */
module ShellReader {
  import opened Options

  /** A word after quote removal; a live one has unquoted characters that expansion or
      pattern matching may still turn into something else. */
  datatype Token = Word(text: string, live: bool) | Op(c: char)

  datatype Part = Part(text: string, live: bool)

  /** Unquoted, inside '...' (section 2.2.2), inside "..." (section 2.2.3), or in a comment. */
  datatype Mode = Plain | Single | Double | Comment

  predicate Blank(c: char)
  {
    c == ' ' || c == '\t'
  }

  predicate Operator(c: char)
  {
    c in "|&;<>()\n"
  }

  /** Characters that unquoted may mean more than themselves. */
  predicate Expands(c: char)
  {
    c in "$*?[]~!{}%"
  }

  /** The word so far with more characters; there may have been no word yet. */
  function Grow(word: Option<Part>, s: string, live: bool): Option<Part>
  {
    if word.None? then Some(Part(s, live)) else Some(Part(word.value.text + s, word.value.live || live))
  }

  function Close(word: Option<Part>): seq<Token>
  {
    if word.None? then [] else [Word(word.value.text, word.value.live)]
  }

  function After(front: seq<Token>, r: Option<seq<Token>>): Option<seq<Token>>
  {
    if r.None? then None else Some(front + r.value)
  }

  predicate StartsWith(t: string, c: char)
  {
    t != "" && t[0] == c
  }

  /** One step: the tokens it completes, what is left, the word and the mode it is in then.
      Stop is where this tokenizer gives up. */
  datatype Step = Stop | Next(out: seq<Token>, rest: string, word: Option<Part>, mode: Mode)

  function StepPlain(c: char, rest: string, word: Option<Part>): Step
  {
    if c == '\'' then Next([], rest, Grow(word, "", false), Single)
    else if c == '\"' then Next([], rest, Grow(word, "", false), Double)
    else if c == '\\' then
      if rest == "" then Stop
      else if rest[0] == '\n' then Next([], rest[1..], word, Plain)
      else Next([], rest[1..], Grow(word, [rest[0]], false), Plain)
    else if c == '`' || (c == '<' && StartsWith(rest, '<')) then Stop
    else if Blank(c) then Next(Close(word), rest, None, Plain)
    else if Operator(c) then Next(Close(word) + [Op(c)], rest, None, Plain)
    else if c == '#' && word.None? then Next([], rest, None, Comment)
    else Next([], rest, Grow(word, [c], Expands(c)), Plain)
  }

  function StepDouble(c: char, rest: string, word: Option<Part>): Step
  {
    if c == '\"' then Next([], rest, Grow(word, "", false), Plain)
    else if c == '`' || (c == '$' && (StartsWith(rest, '(') || StartsWith(rest, '{'))) then Stop
    else if c == '\\' && StartsWith(rest, '\n') then Next([], rest[1..], word, Double)
    else if c == '\\' && rest != "" && rest[0] in "$`\"\\" then
      Next([], rest[1..], Grow(word, [rest[0]], false), Double)
    else Next([], rest, Grow(word, [c], c == '$'), Double)
  }

  function StepOf(c: char, rest: string, word: Option<Part>, mode: Mode): (r: Step)
    ensures r.Next? ==> |r.rest| <= |rest|
  {
    match mode
    case Plain => StepPlain(c, rest, word)
    case Double => StepDouble(c, rest, word)
    case Single =>
      if c == '\'' then Next([], rest, Grow(word, "", false), Plain)
      else Next([], rest, Grow(word, [c], false), Single)
    case Comment =>
      if c == '\n' then Next([Op(c)], rest, None, Plain) else Next([], rest, None, Comment)
  }

  function Scan(t: string, word: Option<Part>, mode: Mode): Option<seq<Token>>
    decreases |t|
  {
    if t == "" then if mode.Plain? then Some(Close(word)) else None
    else
      var step := StepOf(t[0], t[1..], word, mode);
      if step.Stop? then None else After(step.out, Scan(step.rest, step.word, step.mode))
  }

  function Tokens(t: string): Option<seq<Token>>
  {
    Scan(t, None, Plain)
  }

  /** A step does not depend on what comes after a blank that follows. */
  lemma StepOn(c: char, rest: string, word: Option<Part>, mode: Mode, more: string)
    requires StepOf(c, rest, word, mode).Next? && more != "" && Blank(more[0])
    ensures var step := StepOf(c, rest, word, mode);
      StepOf(c, rest + more, word, mode) == step.(rest := step.rest + more)
  {
    if rest == "" {
      assert rest + more == more;
    } else {
      assert (rest + more)[0] == rest[0] && (rest + more)[1..] == rest[1..] + more;
    }
  }

  lemma AfterTwice(a: seq<Token>, b: seq<Token>, r: Option<seq<Token>>)
    ensures After(a, After(b, r)) == After(a + b, r)
    ensures After([], r) == r
  {
    if r.Some? {
      assert a + (b + r.value) == (a + b) + r.value;
      assert [] + r.value == r.value;
    }
  }

  /** Reading on after a text that ends outside quotes and comments is reading from the
      start, if a blank comes next. */
  lemma {:induction false} ScanOn(t: string, word: Option<Part>, mode: Mode, blank: char, more: string)
    requires Scan(t, word, mode).Some? && Blank(blank)
    ensures Scan(t + ([blank] + more), word, mode) == After(Scan(t, word, mode).value, Scan(more, None, Plain))
    decreases |t|
  {
    var u := [blank] + more;
    if t == "" {
      assert t + u == u && u[1..] == more;
    } else {
      var step := StepOf(t[0], t[1..], word, mode);
      assert (t + u)[0] == t[0] && (t + u)[1..] == t[1..] + u;
      StepOn(t[0], t[1..], word, mode, u);
      ScanOn(step.rest, step.word, step.mode, blank, more);
      AfterTwice(step.out, Scan(step.rest, step.word, step.mode).value, Scan(more, None, Plain));
      hide StepOf, After;
    }
  }

  /** One step of a scan, for a text given by its first character. */
  lemma ScanStep(c: char, rest: string, word: Option<Part>, mode: Mode)
    ensures var step := StepOf(c, rest, word, mode);
      Scan([c] + rest, word, mode) ==
        if step.Stop? then None else After(step.out, Scan(step.rest, step.word, step.mode))
  {
    assert ([c] + rest)[1..] == rest;
    hide StepOf;
  }
}
