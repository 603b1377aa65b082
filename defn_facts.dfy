/**
 * What the method-definition rule (`Defn#to_s`) promises: accessor bodies
 * collapse to `attr_reader`/`attr_writer`, anything else is a full `def`
 * whose runs of blank lines are collapsed.
 */
module DefnFacts {
  import opened Results
  import opened Text
  import opened Sexp
  import opened Options
  import opened Render

  /** `def x; @x; end` is `attr_reader :x`. */
  lemma AttrReader(c: Config, ctx: seq<string>, comments: string, x: string)
    ensures Defn(c, ctx, comments, [Sym(x), S("args", []), S("ivar", [Sym("@" + x)])]) ==
            Ok(Out("attr_reader :" + x, []))
  {
    assert "attr_reader " + (":" + x) == "attr_reader :" + x;
    var exp := [Sym(x), S("args", []), S("ivar", [Sym("@" + x)])];
    FindNodesThree(exp, "ivar");
    assert ("@" + x)[1..] == x;
  }

  /** `def x=(a); @x = a; end` is `attr_writer :x`. */
  lemma AttrWriter(c: Config, ctx: seq<string>, comments: string, x: string, a: string)
    ensures Defn(c, ctx, comments, [Sym(x + "="), S("args", [Sym(a)]),
                                    S("iasgn", [Sym("@" + x), S("lvar", [Sym(a)])])]) ==
            Ok(Out("attr_writer :" + x, []))
  {
    var exp := [Sym(x + "="), S("args", [Sym(a)]), S("iasgn", [Sym("@" + x), S("lvar", [Sym(a)])])];
    FindNodesThree(exp, "iasgn");
    FindNodesThree(exp, "args");
    assert ("@" + x)[1..] == x;
    assert DropLast(x + "=") == x;
  }

  /** An `:attrset` body is always `attr_writer` of the name without its last character. */
  lemma AttrSet(c: Config, ctx: seq<string>, comments: string, name: string, args: seq<Child>, body: seq<Child>)
    ensures Defn(c, ctx, comments, [Sym(name), S("args", args), S("attrset", body)]) ==
            Ok(Out("attr_writer :" + DropLast(name), []))
  {
  }

  /** `find_nodes` over three children, one child at a time. */
  lemma FindNodesThree(exp: seq<Child>, kind: string)
    requires |exp| == 3
    ensures FindNodes(exp, kind) ==
            (if IsNodeOf(exp[0], kind) then [exp[0].node] else []) +
            (if IsNodeOf(exp[1], kind) then [exp[1].node] else []) +
            (if IsNodeOf(exp[2], kind) then [exp[2].node] else [])
  {
    assert exp[1..][1..] == [exp[2]] && exp[1..][1..][1..] == [];
    assert FindNodes(exp[2..], kind) == (if IsNodeOf(exp[2], kind) then [exp[2].node] else []) + [];
  }

  /** A reader whose name does not match its instance variable falls through to a full `def`. */
  lemma MismatchedReader(c: Config, ctx: seq<string>, comments: string, y: string, x: string)
    requires y != x
    ensures var exp := [Sym(y), S("args", []), S("ivar", [Sym("@" + x)])];
            Defn(c, ctx, comments, exp) == FullDef(c, ctx, comments, exp)
  {
    var exp := [Sym(y), S("args", []), S("ivar", [Sym("@" + x)])];
    FindNodesThree(exp, "ivar");
    assert ("@" + x)[1..] == x;
  }

  /** A reader that takes arguments also falls through to a full `def`. */
  lemma ReaderWithArguments(c: Config, ctx: seq<string>, comments: string, x: string, a: Child, more: seq<Child>)
    ensures var exp := [Sym(x), S("args", [a] + more), S("ivar", [Sym("@" + x)])];
            Defn(c, ctx, comments, exp) == FullDef(c, ctx, comments, exp)
  {
    var exp := [Sym(x), S("args", [a] + more), S("ivar", [Sym("@" + x)])];
    FindNodesThree(exp, "ivar");
    assert !IsBare(exp[1], "args");
  }

  /** A full `def`: argument text "()" is omitted. */
  lemma FullDefParts(c: Config, ctx: seq<string>, comments: string, name: string, a: Child, args: string,
                     stmts: seq<Child>, body: seq<string>)
    requires Process(c, ctx, a) == Ok(Some(args))
    requires ProcessEach(c, ctx, stmts) == Ok(body)
    requires !(|stmts| == 1 && IsBare(stmts[0], "nil"))
    ensures FullDef(c, ctx, comments, [Sym(name), a] + stmts) ==
            Ok(Out(DefText(comments, name, if args == "()" then "" else args, body), []))
  {
    var exp := [Sym(name), a] + stmts;
    assert exp[1..] == [a] + stmts && ([a] + stmts)[1..] == stmts;
  }

  /** A lone `s(:nil)` body counts as no statements. */
  lemma FullDefNilBody(c: Config, ctx: seq<string>, comments: string, name: string, a: Child, args: string)
    requires Process(c, ctx, a) == Ok(Some(args))
    ensures FullDef(c, ctx, comments, [Sym(name), a, S("nil", [])]) ==
            Ok(Out(DefText(comments, name, if args == "()" then "" else args, []), []))
  {
    var exp2 := [Sym(name), a, S("nil", [])];
    assert exp2[1..][1..] == [S("nil", [])];
  }

  /** An empty body is written as the do-nothing comment. */
  lemma EmptyBody(comments: string, name: string, args: string)
    ensures DefText(comments, name, args, []) ==
            CollapseBlankLines(comments + "def " + name + args + "\n" + (IndentUnit + "# do nothing") + "\nend")
  {
    assert Join(["# do nothing"], LF) == "# do nothing";
    DoNothingIsPlain();
  }

  lemma DoNothingIsPlain()
    ensures !WrappedInBeginEnd("# do nothing") && !LineStartsWith("# do nothing", "rescue")
    ensures Indent("# do nothing") == IndentUnit + "# do nothing"
  {
    NotBeginOrRescue("# do nothing");
    IndentOneLine("# do nothing");
  }

  /** A single line starting with `#` is neither wrapped in `begin`/`end` nor has a `rescue` line. */
  lemma NotBeginOrRescue(body: string)
    requires |body| >= 6 && body[0] == '#' && '\n' !in body
    ensures !WrappedInBeginEnd(body) && !LineStartsWith(body, "rescue")
  {
    assert body[..5][0] == '#' && body[..6][0] == '#';
    NoNewlineNoLineStart(body, "rescue");
  }

  /** Every run of blank lines is collapsed: a full `def` never has two newlines in a row. */
  lemma NoBlankLineRuns(comments: string, name: string, args: string, stmts: seq<string>)
    ensures NoDoubleNewline(DefText(comments, name, args, stmts))
  {
    var body := Join(if stmts == [] then ["# do nothing"] else stmts, LF);
    var unwrapped := if WrappedInBeginEnd(body) then Join(Inner(RubyLines(body)), LF) else body;
    var indented := if LineStartsWith(unwrapped, "rescue") then unwrapped else Indent(unwrapped);
    CollapsedHasNoDoubleNewline(comments + "def " + name + args + "\n" + indented + "\nend");
  }

  predicate NoDoubleNewline(r: string) {
    forall i :: 0 <= i < |r| - 1 ==> !(r[i] == '\n' && r[i + 1] == '\n')
  }

  /** After the skipped whitespace, the next character is not a newline. */
  lemma {:induction false} NewlineSpanMaximal(t: string)
    ensures NewlineSpan(t) < |t| ==> t[NewlineSpan(t)] != '\n'
    decreases |t|
  {
    if |t| > 0 && IsSpace(t[0]) {
      NewlineSpanMaximal(t[1..]);
    }
  }

  /** A collapsed text starts with the first character of the original. */
  lemma CollapsedHead(s: string)
    requires |s| > 0
    ensures |CollapseBlankLines(s)| > 0 && CollapseBlankLines(s)[0] == s[0]
  {
  }

  lemma {:induction false} CollapsedHasNoDoubleNewline(s: string)
    ensures NoDoubleNewline(CollapseBlankLines(s))
    decreases |s|
  {
    if |s| > 0 {
      if s[0] == '\n' {
        var k := NewlineSpan(s[1..]);
        var t := s[1 + k..];
        NewlineSpanMaximal(s[1..]);
        assert t == s[1..][k..];
        CollapsedHasNoDoubleNewline(t);
        var r := CollapseBlankLines(t);
        if |t| > 0 {
          CollapsedHead(t);
          assert r[0] != '\n';
        }
        assert CollapseBlankLines(s) == "\n" + r;
        PrependKeepsNoDoubleNewline('\n', r);
      } else {
        CollapsedHasNoDoubleNewline(s[1..]);
        PrependKeepsNoDoubleNewline(s[0], CollapseBlankLines(s[1..]));
      }
    }
  }

  lemma PrependKeepsNoDoubleNewline(ch: char, r: string)
    requires NoDoubleNewline(r)
    requires ch == '\n' ==> |r| == 0 || r[0] != '\n'
    ensures NoDoubleNewline([ch] + r)
  {
    var s := [ch] + r;
    forall i | 0 <= i < |s| - 1
      ensures !(s[i] == '\n' && s[i + 1] == '\n')
    {
      if i > 0 { assert s[i] == r[i - 1] && s[i + 1] == r[i]; }
    }
  }
}
