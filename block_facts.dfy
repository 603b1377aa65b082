/**
 * What the statement-list rules promise: `Block#to_s` (the do-nothing
 * statement, parenthesize, the final newline), `Sclass#to_s`, `For#to_s`,
 * `Case#to_s` and `When#to_s`.
 */
module BlockFacts {
  import opened Results
  import opened Text
  import opened Sexp
  import opened Options
  import opened Render
  import ProcessorFacts

  // ---------------------------------------------------------------------------
  // Block.

  /** The `parenthesize` test of a rule whose context is `ctx`. */
  predicate Bare(ctx: seq<string>) {
    |ctx| < 2 || ctx[1] in NoParenParents
  }

  /** An empty block is one nil statement: `# do nothing` plus the newlines, or in parentheses. */
  lemma BlockEmpty(c: Config, ctx: seq<string>)
    ensures Block(c, ctx, []) == Ok(Out(if Bare(ctx) then "# do nothing\n" + LF else "(" + "# do nothing\n" + ")", []))
  {
    var d := "# do nothing\n";
    assert BlockParts(c, ctx, [Nil]) == Ok([d]) by {
      assert [Nil][1..] == [] && [d] + [] == [d];
    }
    assert Join([d], LF) == d;
    assert !StartsWith(d, "(") by { assert d[..1][0] == '#'; }
    assert StartsWith("(" + d + ")", "(");
  }

  /** A nil or `s(:nil)` statement is written as `# do nothing` with its own newline. */
  lemma NilStatement(c: Config, ctx: seq<string>, x: Child, rest: seq<Child>)
    requires x == Nil || IsNodeOf(x, "nil")
    ensures BlockParts(c, ctx, [x] + rest) == Prepend(["# do nothing\n"], BlockParts(c, ctx, rest))
  {
    assert ([x] + rest)[0] == x && ([x] + rest)[1..] == rest;
  }

  /** Any other statement is rendered by its own rule, in order. */
  lemma OtherStatement(c: Config, ctx: seq<string>, n: Node, t: Option<string>, rest: seq<Child>)
    requires n.kind != "nil" && Process(c, ctx, N(n)) == Ok(t)
    ensures BlockParts(c, ctx, [N(n)] + rest) == Prepend([Interp(t)], BlockParts(c, ctx, rest))
  {
    assert ([N(n)] + rest)[0] == N(n) && ([N(n)] + rest)[1..] == rest;
  }

  /**
   * The statements are joined by newlines; under a statement-like parent a newline is
   * added unless the text starts with "(", elsewhere the whole is parenthesized.
   */
  lemma BlockShape(c: Config, ctx: seq<string>, exp: seq<Child>, parts: seq<string>)
    requires BlockParts(c, ctx, if exp == [] then [Nil] else exp) == Ok(parts)
    ensures var j := Join(parts, LF);
            Block(c, ctx, exp) ==
            Ok(Out(if !Bare(ctx) then "(" + j + ")" else if StartsWith(j, "(") then j else j + LF, []))
  {
    var j := Join(parts, LF);
    assert StartsWith("(" + j + ")", "(");
  }

  /** A block's text always starts with "(" or ends with a newline. */
  lemma BlockTerminated(c: Config, ctx: seq<string>, exp: seq<Child>)
    requires Block(c, ctx, exp).Ok?
    ensures var t := Block(c, ctx, exp).value.text;
            StartsWith(t, "(") || EndsWith(t, LF)
  {
    var stmts := if exp == [] then [Nil] else exp;
    var j := Join(BlockParts(c, ctx, stmts).value, LF);
    var r := Parenthesize(ctx, j);
    if !StartsWith(r, "(") {
      assert (r + LF)[|r + LF| - 1..] == LF;
    }
  }

  // ---------------------------------------------------------------------------
  // Sclass.

  /** `class << recv`, the block rendering of the rest indented, then `end`. */
  lemma SclassForm(c: Config, ctx: seq<string>, r: Child, rt: string, body: seq<Child>, b: Out)
    requires Process(c, ctx, r) == Ok(Some(rt)) && Block(c, ctx, body) == Ok(b)
    ensures Sclass(c, ctx, [r] + body) == Ok(Out("class << " + rt + "\n" + Indent(b.text) + "\nend", b.rest))
  {
    assert ([r] + body)[0] == r && ([r] + body)[1..] == body;
  }

  /** An empty singleton class at the top level holds `# do nothing`. */
  lemma SclassEmpty(c: Config, r: Child, rt: string)
    requires Process(c, ["sclass"], r) == Ok(Some(rt))
    ensures Sclass(c, ["sclass"], [r]) == Ok(Out("class << " + rt + "\n" + (IndentUnit + "# do nothing") + "\nend", []))
  {
    BlockEmpty(c, ["sclass"]);
    assert [r] + [] == [r];
    SclassForm(c, ["sclass"], r, rt, [], Out("# do nothing\n" + LF, []));
    DoNothingTwoNewlines();
  }

  lemma DoNothingTwoNewlines()
    ensures Indent("# do nothing\n" + LF) == IndentUnit + "# do nothing"
  {
    IndentIgnoresFinalNewline("# do nothing\n");
    DoNothingNewline();
  }

  lemma DoNothingNewline()
    ensures Indent("# do nothing\n") == IndentUnit + "# do nothing"
  {
    DoNothingParts();
    OneLineNewline("# do nothing");
  }

  lemma DoNothingParts()
    ensures "# do nothing\n" == "# do nothing" + "\n"
    ensures "# do nothing" != "" && '\n' !in "# do nothing" && '\r' !in "# do nothing"
  {
  }

  /** One line and its newline indent like the line alone. */
  lemma OneLineNewline(s: string)
    requires s != "" && '\n' !in s
    ensures Indent(s + "\n") == IndentUnit + s
  {
    IndentIgnoresFinalNewline(s);
    IndentOneLine(s);
  }

  // ---------------------------------------------------------------------------
  // For.

  /** `for var in recv do`, the indented body, `end`; the receiver comes first. */
  lemma ForForm(c: Config, ctx: seq<string>, r: Child, v: Child, rt: Option<string>, vt: Option<string>,
                body: Child, bt: string)
    requires Process(c, ctx, r) == Ok(rt) && Process(c, ctx, v) == Ok(vt) && Process(c, ctx, body) == Ok(Some(bt))
    ensures For(c, ctx, [r, v, body]) ==
            Ok(Out("for " + Interp(vt) + " in " + Interp(rt) + " do" + LF + Indent(bt) + LF + "end", []))
  {
    assert Shift([r, v, body]) == (r, [v, body]);
    assert Shift([v, body]) == (v, [body]) && [body][1..] == [];
    JoinThree("for " + Interp(vt) + " in " + Interp(rt) + " do", Indent(bt), "end");
  }

  lemma JoinThree(a: string, b: string, e: string)
    ensures Join([a, b, e], LF) == a + LF + b + LF + e
  {
    assert [a, b, e] == [a] + [b] + [e];
    ProcessorFacts.ThreeLines(a, b, e);
  }

  /** A missing (or nil) body becomes `# do nothing`. */
  lemma ForNoBody(c: Config, ctx: seq<string>, r: Child, v: Child, rt: Option<string>, vt: Option<string>)
    requires Process(c, ctx, r) == Ok(rt) && Process(c, ctx, v) == Ok(vt)
    ensures For(c, ctx, [r, v]) ==
            Ok(Out("for " + Interp(vt) + " in " + Interp(rt) + " do" + LF + Indent("# do nothing") + LF + "end", []))
    ensures For(c, ctx, [r, v, Nil]) == For(c, ctx, [r, v])
  {
    assert Shift([r, v]) == (r, [v]) && Shift([v]) == (v, []);
    assert Shift([r, v, Nil]) == (r, [v, Nil]);
    assert Shift([v, Nil]) == (v, [Nil]) && [Nil][1..] == [];
    JoinThree("for " + Interp(vt) + " in " + Interp(rt) + " do", Indent("# do nothing"), "end");
  }

  // ---------------------------------------------------------------------------
  // Case and when.

  /** `case expr`, or a bare `case` for a nil subject, then the clauses and `end`, one per line. */
  lemma CaseForm(c: Config, ctx: seq<string>, e0: Child, t: Option<string>, rest: seq<Child>, cl: seq<string>)
    requires Process(c, ctx, e0) == Ok(t) && CaseClauses(c, ctx, rest) == Ok(cl)
    ensures Case(c, ctx, [e0] + rest) ==
            Ok(Out(Join([if t.Some? then "case " + t.value else "case"] + cl + ["end"], LF), []))
  {
    assert ([e0] + rest)[0] == e0 && ([e0] + rest)[1..] == rest;
  }

  /** A case with no subject and no clauses. */
  lemma CaseEmpty(c: Config, ctx: seq<string>)
    ensures Case(c, ctx, []) == Ok(Out("case\nend", []))
  {
    assert ["case"] + [] + ["end"] == ["case", "end"];
    assert Join(["end"], LF) == "end";
    assert "case" + LF + "end" == "case\nend";
  }

  /** A `:when` child is rendered by the when rule, in order. */
  lemma WhenClause(c: Config, ctx: seq<string>, w: Node, t: Option<string>, rest: seq<Child>)
    requires w.kind == "when" && Process(c, ctx, N(w)) == Ok(t)
    ensures CaseClauses(c, ctx, [N(w)] + rest) == Prepend([Interp(t)], CaseClauses(c, ctx, rest))
  {
    assert ([N(w)] + rest)[0] == N(w) && ([N(w)] + rest)[1..] == rest;
  }

  /** Any other child, nil included, is the else clause. */
  lemma ElseClauseStep(c: Config, ctx: seq<string>, x: Child, t: Option<string>, rest: seq<Child>)
    requires !IsNodeOf(x, "when") && (x == Nil || x.N?) && Process(c, ctx, x) == Ok(t)
    ensures CaseClauses(c, ctx, [x] + rest) == Prepend([ElseClause(t)], CaseClauses(c, ctx, rest))
  {
    assert ([x] + rest)[0] == x && ([x] + rest)[1..] == rest;
  }

  /** A nil else part is `else` with `# do nothing`. */
  lemma ElseNone()
    ensures ElseClause(None) == "else\n" + (IndentUnit + "# do nothing")
  {
    IndentEmpty();
    assert RegexLines("") == [""];
    assert AllSpace(RegexLines("")[0]);
    IndentOneLine("# do nothing");
  }

  /** A one-line else part is indented. */
  lemma ElseOneLine(s: string)
    requires s != "" && '\n' !in s && !AllSpace(s)
    ensures ElseClause(Some(s)) == "else\n" + (IndentUnit + s)
  {
    IndentOneLine(s);
    IndentedNotSpace(s);
    OneLineNotBlank(IndentUnit + s);
  }

  lemma IndentedNotSpace(s: string)
    requires !AllSpace(s)
    ensures !AllSpace(IndentUnit + s) && '\n' !in IndentUnit
  {
    var i :| 0 <= i < |s| && !IsSpace(s[i]);
    assert (IndentUnit + s)[|IndentUnit| + i] == s[i];
  }

  /** A single line with a non-space character has no blank line. */
  lemma OneLineNotBlank(s: string)
    requires s != "" && '\n' !in s && !AllSpace(s)
    ensures !HasBlankLine(s)
  {
    FieldsOneLine(s);
    assert s[|s| - 1] != '\n';
    assert RegexLines(s) == [s];
  }

  /** Under an `:array` parent a when is a splat of its value, consuming the value and the body. */
  lemma WhenInArray(c: Config, ctx: seq<string>, v: Child, vt: Option<string>, body: Child)
    requires |ctx| >= 2 && ctx[1] == "array" && Process(c, ctx, v) == Ok(vt)
    ensures When(c, ctx, [v, body]) == Ok(Out("*" + Interp(vt), []))
  {
    assert Shift([v, body]) == (v, [body]) && Shift([body]) == (body, []);
  }

  /** Elsewhere: `when conds then`, the conditions' array without brackets, then the statements. */
  lemma WhenForm(c: Config, ctx: seq<string>, cond: Child, ct: string, stmts: seq<Child>, ss: seq<string>)
    requires !(|ctx| >= 2 && ctx[1] == "array")
    requires Process(c, ctx, cond) == Ok(Some("[" + ct + "]")) && Finish(c, ctx, stmts) == Ok(ss)
    ensures When(c, ctx, [cond] + stmts) == Ok(Out(WhenText(ct, ss), []))
  {
    assert ([cond] + stmts)[0] == cond && ([cond] + stmts)[1..] == stmts;
    var s := "[" + ct + "]";
    assert s[1..|s| - 1] == ct;
  }

  /** No statements give `# do nothing`. */
  lemma WhenNoStatements(cond: string)
    ensures WhenText(cond, []) == "when " + cond + " then\n" + (IndentUnit + "# do nothing")
  {
    IndentEmpty();
    DoNothingNoChomp();
  }

  lemma DoNothingNoChomp()
    ensures Chomp(Indent("# do nothing")) == IndentUnit + "# do nothing"
  {
    DoNothingParts();
    OneLineIndentChomp("# do nothing");
  }

  lemma OneLineIndentChomp(s: string)
    requires s != "" && '\n' !in s && '\r' !in s
    ensures Chomp(Indent(s)) == IndentUnit + s
  {
    IndentOneLine(s);
    ProcessorFacts.ChompOneLine(IndentUnit + s);
  }

  /** A single one-line statement is indented. */
  lemma WhenOneStatement(cond: string, s: string)
    requires s != "" && '\n' !in s && '\r' !in s && !AllSpace(s)
    ensures WhenText(cond, [s]) == "when " + cond + " then\n" + (IndentUnit + s)
  {
    assert Join([s], LF) == s;
    IndentOneLine(s);
    IndentedNotSpace(s);
    ProcessorFacts.ChompOneLine(IndentUnit + s);
  }
}
