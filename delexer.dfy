/**
 * The greedy line wrapper (`Delexer`): token texts are laid out on one line
 * until a token that permits a break after it is followed by one that would
 * reach the line limit; then the depth grows by two and a new line starts. A
 * closing parenthesis whose opening one caused a break closes that indentation
 * on a line of its own.
 */
module Delexing {
  import opened Results
  import opened Text
  import opened Tokens

  /** `INDENT_WIDTH`. */
  const IndentWidth: nat := 2
  /** `MAX_LINE_LEN`. */
  const MaxLineLen: nat := 80

  /** A line of the output: its leading spaces and the token texts after them. */
  datatype Line = Line(indent: nat, text: string)

  function Show(l: Line): (r: string)
    ensures |r| == l.indent + |l.text|
  {
    Spaces(l.indent) + l.text
  }

  function Shown(ls: seq<Line>): (r: seq<string>)
    ensures |r| == |ls| && forall j :: 0 <= j < |ls| ==> r[j] == Show(ls[j])
  {
    seq(|ls|, j requires 0 <= j < |ls| => Show(ls[j]))
  }

  /**
   * The state of `build_lines`: the lines so far (the last one is `@lines[@n]`),
   * the depth `@d`, and the height of `indent_stack`, which only ever holds `:tLPAREN`.
   */
  datatype Layout = Layout(lines: seq<Line>, depth: nat, stacked: nat)

  /** Every line exists, each is indented at least `d0`, and each open parenthesis accounts for two of the depth. */
  predicate Sound(st: Layout, d0: nat) {
    st.lines != [] && st.depth >= d0 + IndentWidth * st.stacked &&
    forall j :: 0 <= j < |st.lines| ==> st.lines[j].indent >= d0
  }

  /** `new_line`: a line holding only the current depth. */
  function NewLineStep(st: Layout, depth: nat, stacked: nat): Layout {
    Layout(st.lines + [Line(depth, "")], depth, stacked)
  }

  /** The dedent of `build_lines`: before a `tRPAREN` when the stack's top is `tLPAREN`. */
  function DedentStep(st: Layout, t: Token): (r: Layout)
    requires Sound(st, 0)
    ensures Sound(r, 0)
  {
    if t.kind == "tRPAREN" && st.stacked > 0 then NewLineStep(st, st.depth - IndentWidth, st.stacked - 1) else st
  }

  /** `break?`: not for the first token; otherwise after a breakable token when the line would reach the limit. */
  predicate Breaks(st: Layout, prev: Option<Token>, t: Token)
    requires st.lines != []
  {
    prev.Some? && CanBreakAfter(prev.value) && |Show(st.lines[|st.lines| - 1])| + |t.text| >= MaxLineLen
  }

  /** The break of `build_lines`: indent, remember a `tLPAREN` that caused it, start a new line. */
  function BreakStep(st: Layout, prev: Option<Token>, t: Token): (r: Layout)
    requires Sound(st, 0)
    ensures Sound(r, 0)
  {
    if Breaks(st, prev, t) then
      NewLineStep(st, st.depth + IndentWidth, st.stacked + if prev.value.kind == "tLPAREN" then 1 else 0)
    else st
  }

  /** `append`: the token's text goes at the end of the current line. */
  function AppendStep(st: Layout, t: Token): (r: Layout)
    requires st.lines != []
  {
    var last := st.lines[|st.lines| - 1];
    Layout(st.lines[|st.lines| - 1 := Line(last.indent, last.text + t.text)], st.depth, st.stacked)
  }

  /** One iteration of `build_lines` for token `t`, `prev` being the token before it. */
  function Step(st: Layout, prev: Option<Token>, t: Token): (r: Layout)
    requires Sound(st, 0)
    ensures Sound(r, 0)
  {
    AppendStep(BreakStep(DedentStep(st, t), prev, t), t)
  }

  /** The token before the last one of `toks`, if any. */
  function Prev(toks: seq<Token>): Option<Token>
    requires toks != []
  {
    if |toks| >= 2 then Some(toks[|toks| - 2]) else None
  }

  /** `build_lines` over `toks` from depth `d0`. */
  function Build(toks: seq<Token>, d0: nat): (r: Layout)
    ensures Sound(r, 0)
    decreases |toks|
  {
    if toks == [] then Layout([Line(d0, "")], d0, 0)
    else Step(Build(toks[..|toks| - 1], d0), Prev(toks), toks[|toks| - 1])
  }

  /** `to_s(d)`: the lines joined by newlines; a negative depth cannot be multiplied into spaces. */
  function Delex(toks: seq<Token>, d: int): Result<string> {
    if d < 0 then Err(InvalidArgument) else Ok(Join(Shown(Build(toks, d).lines), LF))
  }

  /** The texts of all tokens, in order. */
  function TokenTexts(toks: seq<Token>): string
    decreases |toks|
  {
    if toks == [] then "" else TokenTexts(toks[..|toks| - 1]) + toks[|toks| - 1].text
  }

  /** The texts of all lines without their indentation, in order. */
  function LineTexts(ls: seq<Line>): string
    decreases |ls|
  {
    if ls == [] then "" else LineTexts(ls[..|ls| - 1]) + ls[|ls| - 1].text
  }

  // ---------------------------------------------------------------------------
  // Properties.

  /** The depth never falls below the starting depth, and neither does any line's indentation. */
  lemma {:induction false} DepthFloor(toks: seq<Token>, d0: nat)
    ensures Sound(Build(toks, d0), d0)
    decreases |toks|
  {
    if toks != [] {
      var st := Build(toks[..|toks| - 1], d0);
      DepthFloor(toks[..|toks| - 1], d0);
      var t := toks[|toks| - 1];
      var s1 := DedentStep(st, t);
      assert Sound(s1, d0);
      var s2 := BreakStep(s1, Prev(toks), t);
      assert Sound(s2, d0);
      assert Sound(AppendStep(s2, t), d0);
    }
  }

  lemma LineTextsAppend(ls: seq<Line>, l: Line)
    ensures LineTexts(ls + [l]) == LineTexts(ls) + l.text
  {
    assert (ls + [l])[..|ls|] == ls;
  }

  lemma NewLineTexts(st: Layout, depth: nat, stacked: nat)
    ensures LineTexts(NewLineStep(st, depth, stacked).lines) == LineTexts(st.lines)
  {
    LineTextsAppend(st.lines, Line(depth, ""));
    assert LineTexts(st.lines) + "" == LineTexts(st.lines);
  }

  lemma AppendTexts(st: Layout, t: Token)
    requires st.lines != []
    ensures LineTexts(AppendStep(st, t).lines) == LineTexts(st.lines) + t.text
  {
    var k := |st.lines| - 1;
    var last := st.lines[k];
    var updated := Line(last.indent, last.text + t.text);
    assert st.lines == st.lines[..k] + [last];
    assert AppendStep(st, t).lines == st.lines[..k] + [updated];
    LineTextsAppend(st.lines[..k], last);
    LineTextsAppend(st.lines[..k], updated);
  }

  /** One step adds exactly the token's text, wherever the line breaks fall. */
  lemma StepTexts(st: Layout, prev: Option<Token>, t: Token)
    requires Sound(st, 0)
    ensures LineTexts(Step(st, prev, t).lines) == LineTexts(st.lines) + t.text
  {
    var s1 := DedentStep(st, t);
    if t.kind == "tRPAREN" && st.stacked > 0 { NewLineTexts(st, st.depth - IndentWidth, st.stacked - 1); }
    var s2 := BreakStep(s1, prev, t);
    if Breaks(s1, prev, t) {
      NewLineTexts(s1, s1.depth + IndentWidth, s1.stacked + if prev.value.kind == "tLPAREN" then 1 else 0);
    }
    AppendTexts(s2, t);
  }

  /** Every token's text appears exactly once and in order; only indentation and newlines are added. */
  lemma {:induction false} TextsPreserved(toks: seq<Token>, d0: nat)
    ensures LineTexts(Build(toks, d0).lines) == TokenTexts(toks)
    decreases |toks|
  {
    if toks != [] {
      TextsPreserved(toks[..|toks| - 1], d0);
      StepTexts(Build(toks[..|toks| - 1], d0), Prev(toks), toks[|toks| - 1]);
    }
  }

  /** Without a token that permits a break after it, everything stays on the first line. */
  lemma {:induction false} NoBreakableOneLine(toks: seq<Token>, d0: nat)
    requires forall j :: 0 <= j < |toks| ==> !CanBreakAfter(toks[j])
    ensures Build(toks, d0) == Layout([Line(d0, TokenTexts(toks))], d0, 0)
    decreases |toks|
  {
    if toks != [] {
      NoBreakableOneLine(toks[..|toks| - 1], d0);
    }
  }

  /** A line with no text is its indentation. */
  lemma ShowBlank(n: nat)
    ensures Show(Line(n, "")) == Spaces(n)
  {
    assert Spaces(n) + "" == Spaces(n);
  }

  lemma ShownAppend(ls: seq<Line>, l: Line)
    ensures Shown(ls + [l]) == Shown(ls) + [Show(l)]
  {
  }

  lemma ShownUpdate(ls: seq<Line>, j: nat, l: Line)
    requires j < |ls|
    ensures Shown(ls[j := l]) == Shown(ls)[j := Show(l)]
  {
  }

  /** What a new line adds to the shown lines. */
  lemma NewLineShown(st: Layout, depth: nat, stacked: nat)
    ensures Shown(NewLineStep(st, depth, stacked).lines) == Shown(st.lines) + [Spaces(depth)]
  {
    ShownAppend(st.lines, Line(depth, ""));
    ShowBlank(depth);
  }

  /** What appending a token does to the shown lines: it extends the last one. */
  lemma AppendShown(st: Layout, t: Token)
    requires st.lines != []
    ensures Shown(AppendStep(st, t).lines) ==
            Shown(st.lines)[|st.lines| - 1 := Shown(st.lines)[|st.lines| - 1] + t.text]
  {
    var last := st.lines[|st.lines| - 1];
    ShownUpdate(st.lines, |st.lines| - 1, Line(last.indent, last.text + t.text));
    assert Spaces(last.indent) + (last.text + t.text) == (Spaces(last.indent) + last.text) + t.text;
  }

  /** With no tokens the output is the starting indentation alone, "" for depth 0. */
  lemma NoTokens(d: nat)
    ensures Delex([], d) == Ok(Spaces(d))
    ensures Delex([], 0) == Ok("")
  {
    ShowBlank(d);
    assert Shown([Line(d, "")]) == [Spaces(d)];
    ShowBlank(0);
    assert Shown([Line(0, "")]) == [""];
  }

  /** The first token is never preceded by a break. */
  lemma FirstNeverBreaks(t: Token, d0: nat)
    ensures Build([t], d0) == Layout([Line(d0, t.text)], d0, 0)
  {
    assert [t][..0] == [];
    assert "" + t.text == t.text;
  }

  /** `banana("kiwi")` fits on one line. */
  lemma OneLineCall()
    ensures Delex([Token("tIDENTIFIER", "banana"), Token("tLPAREN", "("),
                   Token("tSTRING", "\"kiwi\""), Token("tRPAREN", ")")], 0) ==
            Ok("banana(\"kiwi\")")
  {
    var toks := [Token("tIDENTIFIER", "banana"), Token("tLPAREN", "("),
                 Token("tSTRING", "\"kiwi\""), Token("tRPAREN", ")")];
    FirstNeverBreaks(toks[0], 0);
    assert toks[..1] == [toks[0]];
    var s1 := Layout([Line(0, "banana")], 0, 0);
    assert toks[..2][..1] == toks[..1];
    var s2 := Layout([Line(0, "banana(")], 0, 0);
    assert "banana" + "(" == "banana(";
    assert Step(s1, Some(toks[0]), toks[1]) == s2;
    assert Build(toks[..2], 0) == s2;
    assert toks[..3][..2] == toks[..2];
    assert |Show(s2.lines[0])| + |toks[2].text| < MaxLineLen;
    var s3 := Layout([Line(0, "banana(\"kiwi\"")], 0, 0);
    assert "banana(" + "\"kiwi\"" == "banana(\"kiwi\"";
    assert Step(s2, Some(toks[1]), toks[2]) == s3;
    assert Build(toks[..3], 0) == s3;
    assert toks[..3] == toks[..|toks| - 1];
    var s4 := Layout([Line(0, "banana(\"kiwi\")")], 0, 0);
    assert "banana(\"kiwi\"" + ")" == "banana(\"kiwi\")";
    assert Step(s3, Some(toks[2]), toks[3]) == s4;
    assert Build(toks, 0) == s4;
    assert Show(Line(0, "banana(\"kiwi\")")) == "banana(\"kiwi\")";
    assert Shown(s4.lines) == ["banana(\"kiwi\")"];
  }

  /** A call whose 79-character name leaves no room for the argument is wrapped inside its parentheses. */
  lemma LongCallWraps(name: string)
    requires |name| == 79
    ensures Delex([Token("tIDENTIFIER", name), Token("tLPAREN", "("),
                   Token("tSTRING", "\"kiwi\""), Token("tRPAREN", ")")], 0) ==
            Ok(name + "(\n  \"kiwi\"\n)")
  {
    var toks := [Token("tIDENTIFIER", name), Token("tLPAREN", "("),
                 Token("tSTRING", "\"kiwi\""), Token("tRPAREN", ")")];
    FirstNeverBreaks(toks[0], 0);
    assert toks[..1] == [toks[0]];
    var s1 := Layout([Line(0, name)], 0, 0);
    assert toks[..2][..1] == toks[..1];
    var s2 := Layout([Line(0, name + "(")], 0, 0);
    assert Step(s1, Some(toks[0]), toks[1]) == s2;
    assert Build(toks[..2], 0) == s2;
    assert toks[..3][..2] == toks[..2];
    assert Breaks(s2, Some(toks[1]), toks[2]);
    var s3 := Layout([Line(0, name + "("), Line(2, "\"kiwi\"")], 2, 1);
    assert "" + "\"kiwi\"" == "\"kiwi\"";
    assert Step(s2, Some(toks[1]), toks[2]) == s3;
    assert Build(toks[..3], 0) == s3;
    assert toks[..3] == toks[..|toks| - 1];
    var d3 := DedentStep(s3, toks[3]);
    assert d3 == Layout([Line(0, name + "("), Line(2, "\"kiwi\""), Line(0, "")], 0, 0);
    assert !Breaks(d3, Some(toks[2]), toks[3]);
    var s4 := Layout([Line(0, name + "("), Line(2, "\"kiwi\""), Line(0, ")")], 0, 0);
    assert "" + ")" == ")";
    assert Step(s3, Some(toks[2]), toks[3]) == s4;
    assert Build(toks, 0) == s4;
    assert Show(s4.lines[1]) == "  \"kiwi\"";
    assert Show(s4.lines[0]) == name + "(";
    assert Show(s4.lines[2]) == ")";
    assert Shown(s4.lines) == [name + "(", "  \"kiwi\"", ")"];
    var parts := [name + "(", "  \"kiwi\"", ")"];
    assert parts[1..][1..] == [")"];
    assert Join(parts[1..], LF) == "  \"kiwi\"" + LF + ")";
    assert Join(parts, LF) == name + "(" + LF + ("  \"kiwi\"" + LF + ")");
    assert name + "(" + LF + ("  \"kiwi\"" + LF + ")") == name + "(\n  \"kiwi\"\n)";
  }

  /** Unfolding `Build` by one token at the end. */
  lemma BuildStep(toks: seq<Token>, i: nat, d0: nat)
    requires i < |toks|
    ensures Build(toks[..i + 1], d0) == Step(Build(toks[..i], d0), Prev(toks[..i + 1]), toks[i])
  {
    assert toks[..i + 1][..i] == toks[..i];
  }

  /**
   * A delexer: the tokens pushed so far, and the state `to_s` leaves behind
   * (`@lines`, `@n`, `@d`).
   */
  class Delexer {
    var tokens: seq<Token>
    var lines: seq<string>
    var n: nat
    var d: int

    constructor ()
      ensures tokens == [] && lines == [] && n == 0 && d == 0
    {
      tokens := [];
      lines := [];
      n := 0;
      d := 0;
    }

    /** `push`: the token goes at the end. */
    method Push(t: Token)
      modifies this
      ensures tokens == old(tokens) + [t]
      ensures lines == old(lines) && n == old(n) && d == old(d)
    {
      tokens := tokens + [t];
    }

    /**
     * `to_s(d)`: the layout of `Build`. `@n` is never reset, so once a call has
     * broken a line, a later call with tokens finds no current line and fails.
     */
    method ToS(depth: int) returns (r: Result<string>)
      modifies this
      ensures tokens == old(tokens)
      ensures r == if depth < 0 then Err(InvalidArgument)
                   else if old(n) != 0 && tokens != [] then Err(Malformed)
                   else Delex(tokens, depth)
      ensures r.Ok? ==> lines == Shown(Build(tokens, depth).lines) && d == Build(tokens, depth).depth &&
                        n == old(n) + |lines| - 1
    {
      d := depth;
      if d < 0 { return Err(InvalidArgument); }
      var built := BuildLines();
      if built.Err? { return Err(built.error); }
      r := Ok(Join(lines, LF));
    }

    /** `build_lines`, from a non-negative `@d`. */
    method BuildLines() returns (r: Result<()>)
      requires d >= 0
      modifies this
      ensures tokens == old(tokens)
      ensures r.Err? <==> old(n) != 0 && tokens != []
      ensures r.Err? ==> r.error == Malformed
      ensures r.Ok? ==> lines == Shown(Build(tokens, old(d)).lines) && d == Build(tokens, old(d)).depth &&
                        n == old(n) + |lines| - 1
    {
      ghost var d0: nat := d;
      ghost var n0 := n;
      lines := [Spaces(d)];
      ShowBlank(d0);
      assert lines == Shown([Line(d0, "")]);
      var indentStack: seq<string> := [];
      ghost var st := Build(tokens[..0], d0);
      var i := 0;
      while i < |tokens|
        invariant 0 <= i <= |tokens| && tokens == old(tokens)
        invariant st == Build(tokens[..i], d0)
        invariant lines == Shown(st.lines) && d == st.depth && |indentStack| == st.stacked
        invariant forall j :: 0 <= j < |indentStack| ==> indentStack[j] == "tLPAREN"
        invariant n0 == 0 ==> n == |lines| - 1
        invariant n0 != 0 ==> i == 0 && n == n0
      {
        var t := tokens[i];
        ghost var s1 := DedentStep(st, t);
        indentStack := CloseParen(t, indentStack, st);
        ghost var s2 := BreakStep(s1, Prev(tokens[..i + 1]), t);
        indentStack := BreakLine(i, indentStack, s1);
        if n >= |lines| { return Err(Malformed); }
        AppendShown(s2, t);
        Append(t.text);
        BuildStep(tokens, i, d0);
        st := AppendStep(s2, t);
        i := i + 1;
      }
      assert tokens[..i] == tokens;
      return Ok(());
    }

    /** The dedent of `build_lines`: a `tRPAREN` closes the indentation its `tLPAREN` opened. */
    method CloseParen(t: Token, stack: seq<string>, ghost st: Layout) returns (stack': seq<string>)
      requires Sound(st, 0)
      requires lines == Shown(st.lines) && d == st.depth && |stack| == st.stacked
      requires forall j :: 0 <= j < |stack| ==> stack[j] == "tLPAREN"
      requires stack != [] ==> n == |lines| - 1
      modifies this
      ensures tokens == old(tokens) && n + |old(lines)| == old(n) + |lines|
      ensures lines == Shown(DedentStep(st, t).lines) && d == DedentStep(st, t).depth
      ensures |stack'| == DedentStep(st, t).stacked
      ensures forall j :: 0 <= j < |stack'| ==> stack'[j] == "tLPAREN"
    {
      stack' := stack;
      if t.kind == "tRPAREN" && stack != [] && stack[|stack| - 1] == "tLPAREN" {
        Dedent();
        stack' := stack[..|stack| - 1];
        NewLineShown(st, st.depth - IndentWidth, st.stacked - 1);
        NewLine();
      }
    }

    /** The break of `build_lines` before token `i`; a `tLPAREN` that causes one is remembered. */
    method BreakLine(i: nat, stack: seq<string>, ghost st: Layout) returns (stack': seq<string>)
      requires i < |tokens| && Sound(st, 0)
      requires lines == Shown(st.lines) && d == st.depth && |stack| == st.stacked
      requires forall j :: 0 <= j < |stack| ==> stack[j] == "tLPAREN"
      requires i != 0 ==> n == |lines| - 1
      modifies this
      ensures tokens == old(tokens) && n + |old(lines)| == old(n) + |lines|
      ensures lines == Shown(BreakStep(st, Prev(tokens[..i + 1]), tokens[i]).lines)
      ensures d == BreakStep(st, Prev(tokens[..i + 1]), tokens[i]).depth
      ensures |stack'| == BreakStep(st, Prev(tokens[..i + 1]), tokens[i]).stacked
      ensures forall j :: 0 <= j < |stack'| ==> stack'[j] == "tLPAREN"
    {
      ghost var prev := Prev(tokens[..i + 1]);
      assert i != 0 ==> prev == Some(tokens[i - 1]);
      stack' := stack;
      if i != 0 && CanBreakAfter(tokens[i - 1]) && |lines[n]| + |tokens[i].text| >= MaxLineLen {
        assert Breaks(st, prev, tokens[i]);
        Indent();
        if tokens[i - 1].kind == "tLPAREN" {
          stack' := stack + ["tLPAREN"];
        }
        NewLineShown(st, st.depth + IndentWidth, |stack'|);
        NewLine();
      } else {
        assert !Breaks(st, prev, tokens[i]);
      }
    }

    /** `dedent`. */
    method Dedent()
      modifies this
      ensures d == old(d) - IndentWidth
      ensures tokens == old(tokens) && lines == old(lines) && n == old(n)
    {
      d := d - IndentWidth;
    }

    /** `indent`. */
    method Indent()
      modifies this
      ensures d == old(d) + IndentWidth
      ensures tokens == old(tokens) && lines == old(lines) && n == old(n)
    {
      d := d + IndentWidth;
    }

    /** `new_line`: the next line starts with the current depth in spaces. */
    method NewLine()
      requires d >= 0 && n == |lines| - 1
      modifies this
      ensures tokens == old(tokens) && d == old(d)
      ensures n == old(n) + 1 && lines == old(lines) + [Spaces(old(d))]
    {
      n := n + 1;
      lines := lines + [Spaces(d)];
    }

    /** `append`: the text goes at the end of the current line. */
    method Append(s: string)
      requires n < |lines|
      modifies this
      ensures lines == old(lines)[old(n) := old(lines)[old(n)] + s]
      ensures tokens == old(tokens) && n == old(n) && d == old(d)
    {
      lines := lines[n := lines[n] + s];
    }
  }
}
