/**
 * What the exception-handling rules promise: `Rescue#to_s` (a missing body,
 * the else part, the compact one-line form), `Resbody#to_s` (exception list
 * and binding), `Ensure#to_s` and `Begin#to_s`.
 */
module RescueFacts {
  import opened Results
  import opened Text
  import opened Sexp
  import opened Options
  import opened Render

  // ---------------------------------------------------------------------------
  // Rescue.

  /** When the first child is already a resbody there is no body, and `# do nothing` stands in. */
  lemma MissingBody(c: Config, ctx: seq<string>, exp: seq<Child>, rbs: seq<string>, simple: bool)
    requires exp != [] && IsNodeOf(exp[0], "resbody") && IsNodeOf(exp[|exp| - 1], "resbody")
    requires RescueClauses(c, ctx, exp) == Ok((rbs, simple))
    ensures Rescue(c, ctx, exp) == Ok(Out(RescueText("# do nothing", rbs, None, simple), []))
  {
    assert Rescue(c, ctx, exp) == RescueFrom(c, ctx, "# do nothing", exp);
  }

  /** A leading non-resbody child is the body and a trailing one the else part; the resbodies sit between. */
  lemma BodyAndElse(c: Config, ctx: seq<string>, b: Node, rbs: seq<Child>, e: Node,
                    bt: string, et: string, texts: seq<string>, simple: bool)
    requires b.kind != "resbody" && e.kind != "resbody"
    requires Process(c, ctx, N(b)) == Ok(Some(bt)) && Process(c, ctx, N(e)) == Ok(Some(et))
    requires RescueClauses(c, ctx, rbs) == Ok((texts, simple))
    ensures Rescue(c, ctx, [N(b)] + rbs + [N(e)]) == Ok(Out(RescueText(bt, texts, Some(et), simple), []))
  {
    var exp := [N(b)] + rbs + [N(e)];
    var e1 := exp[1..];
    assert exp[0] == N(b);
    assert e1 == rbs + [N(e)];
    assert Rescue(c, ctx, exp) == RescueFrom(c, ctx, bt, e1);
    assert Last(e1) == N(e);
    assert e1[..|e1| - 1] == rbs;
  }

  /** With an else part the text is the plain form followed by `else` and the indented else part. */
  lemma ElsePart(body: string, rbs: seq<string>, els: string, simple: bool)
    ensures RescueText(body, rbs, Some(els), simple) ==
            RescueText(body, rbs, None, false) + "\nelse\n" + Indent(els)
  {
  }

  /** The compact form: `body rescue handler` on one line. */
  lemma CompactForm(body: string, h: string, more: seq<string>)
    requires h == "" || !IsSpace(h[0])
    ensures RescueText(body, ["rescue\n" + IndentUnit + h] + more, None, true) == body + " " + ("rescue " + h)
  {
    JoinFirstBreakIndented("rescue", 2, h);
    assert Spaces(2) == IndentUnit;
    assert "rescue\n" + IndentUnit + h == "rescue" + "\n" + Spaces(2) + h;
    assert "rescue" + " " + h == "rescue " + h;
  }

  /** One handler with no exception list and a plain body is simple; a block or return body is not. */
  lemma SimpleHandler(h: Node)
    ensures RescueSimple([S("resbody", [S("array", []), N(h)])]) == Ok(h.kind != "block" && h.kind != "return")
  {
    var rb := Node("resbody", [S("array", []), N(h)], "");
    FindInPair(S("array", []), N(h), "block");
    FindInPair(S("array", []), N(h), "return");
    assert Elem(rb, 1) == S("array", []) && Elem(rb, 2) == N(h);
  }

  /** Naming exception classes, or a second handler, rules the compact form out. */
  lemma NotSimple(x: Child, h: Node, other: Child)
    requires h.kind != "block" && h.kind != "return"
    ensures RescueSimple([S("resbody", [S("array", [x]), N(h)])]) == Ok(false)
    ensures RescueSimple([S("resbody", [S("array", []), N(h)]), other]) == Ok(false)
  {
    var rb := Node("resbody", [S("array", [x]), N(h)], "");
    FindInPair(S("array", [x]), N(h), "block");
    FindInPair(S("array", [x]), N(h), "return");
    assert Elem(rb, 1) == S("array", [x]);
  }

  /** `find_node` over two children, the first of which is an array. */
  lemma FindInPair(a: Child, x: Child, kind: string)
    requires IsNodeOf(a, "array") && kind != "array"
    ensures FindNode([a, x], kind) == Ok(if IsNodeOf(x, kind) then Some(x.node) else None)
  {
    assert [a, x][1..] == [x] && [x][1..] == [];
    assert FindNodes([x], kind) == (if IsNodeOf(x, kind) then [x.node] else []) + FindNodes([], kind);
    assert FindNodes([a, x], kind) == [] + FindNodes([x], kind);
  }

  // ---------------------------------------------------------------------------
  // Resbody.

  /** `rescue` with no classes and no binding, then the indented handler. */
  lemma ResbodyBare(c: Config, ctx: seq<string>, h: Node, ht: string)
    requires Process(c, ctx, N(h)) == Ok(Some(ht)) && ht != "" && '\n' !in ht
    ensures Resbody(c, ctx, [S("array", []), N(h)]) == Ok(Out("rescue\n" + (IndentUnit + ht), []))
  {
    var exp := [S("array", []), N(h)];
    assert Shift(exp) == (S("array", []), [N(h)]);
    assert Finish(c, ctx, [N(h)]) == Ok([ht]) by { assert [N(h)][1..] == [] && [ht] + [] == [ht]; }
    EmptyArray(c, ctx);
    assert Join([ht], LF) == ht;
    IndentOneLine(ht);
    assert "rescue" + "" + "" + "\n" == "rescue\n";
  }

  /** An empty `s(:array)` renders `[]`. */
  lemma EmptyArray(c: Config, ctx: seq<string>)
    ensures Process(c, ctx, S("array", [])) == Ok(Some("[]"))
    ensures Trim("[]", 1) == Some("")
  {
    assert Join([], ", ") == "";
    assert Arglist(c, ["array"] + ctx, []) == Ok(Out("", []));
    assert "[" + "" + "]" == "[]";
    assert Array(c, ["array"] + ctx, []) == Ok(Out("[]", []));
  }

  /** With no statements the handler body is `# do nothing`. */
  lemma ResbodyEmpty(c: Config, ctx: seq<string>)
    ensures Resbody(c, ctx, [S("array", [])]) == Ok(Out("rescue\n" + (IndentUnit + "# do nothing"), []))
  {
    assert [S("array", [])] + [] == [S("array", [])];
    ResbodyNoClasses(c, ctx, [], []);
    DoNothingLine();
  }

  lemma DoNothingLine()
    ensures Indent(Join(["# do nothing"], LF)) == IndentUnit + "# do nothing"
  {
    assert Join(["# do nothing"], LF) == "# do nothing";
    IndentOneLine("# do nothing");
  }

  /** An empty exception list and no binding: `rescue`, a newline, and the indented statements. */
  lemma ResbodyNoClasses(c: Config, ctx: seq<string>, stmts: seq<Child>, body: seq<string>)
    requires Finish(c, ctx, stmts) == Ok(body)
    ensures Resbody(c, ctx, [S("array", [])] + stmts) ==
            Ok(Out("rescue\n" + Indent(Join(if body == [] then ["# do nothing"] else body, LF)), []))
  {
    var exp := [S("array", [])] + stmts;
    assert Shift(exp) == (S("array", []), stmts);
    EmptyArray(c, ctx);
    assert FindNode([], "lasgn") == Ok(None) && FindNode([], "iasgn") == Ok(None);
    assert "rescue" + "" + "" + "\n" == "rescue\n";
  }

  /**
   * A `:lasgn` in the exception list is taken out of it and written as ` => name`;
   * the remaining classes follow `rescue` without their brackets.
   */
  lemma ResbodyBinding(c: Config, ctx: seq<string>, cls: Node, e: string, v: Child, h: Node, ct: string, ht: string)
    requires cls.kind != "lasgn"
    requires Process(c, ctx, S("array", [N(cls)])) == Ok(Some("[" + ct + "]")) && ct != ""
    requires Process(c, ctx, N(h)) == Ok(Some(ht)) && ht != "" && '\n' !in ht
    ensures Resbody(c, ctx, [S("array", [N(cls), S("lasgn", [Sym(e), v])]), N(h)]) ==
            Ok(Out("rescue" + (" " + ct) + (" => " + e) + "\n" + (IndentUnit + ht), []))
  {
    assert Finish(c, ctx, [N(h)]) == Ok([ht]) by { assert [N(h)][1..] == [] && [ht] + [] == [ht]; }
    ResbodyNamed(c, ctx, cls, e, v, [N(h)], [ht], ct);
    assert [S("array", [N(cls), S("lasgn", [Sym(e), v])])] + [N(h)] ==
           [S("array", [N(cls), S("lasgn", [Sym(e), v])]), N(h)];
    assert Join([ht], LF) == ht;
    IndentOneLine(ht);
  }

  lemma ResbodyNamed(c: Config, ctx: seq<string>, cls: Node, e: string, v: Child, stmts: seq<Child>,
                     body: seq<string>, ct: string)
    requires cls.kind != "lasgn"
    requires Process(c, ctx, S("array", [N(cls)])) == Ok(Some("[" + ct + "]")) && ct != ""
    requires Finish(c, ctx, stmts) == Ok(body)
    ensures Resbody(c, ctx, [S("array", [N(cls), S("lasgn", [Sym(e), v])])] + stmts) ==
            Ok(Out("rescue" + (" " + ct) + (" => " + e) + "\n" +
                   Indent(Join(if body == [] then ["# do nothing"] else body, LF)), []))
  {
    var lasgn := Node("lasgn", [Sym(e), v], "");
    var list := [N(cls), N(lasgn)];
    FindSecond(N(cls), lasgn, "lasgn");
    BracketsTrimmed(ct);
    assert Elem(lasgn, 1) == Sym(e) && ToS(Sym(e)) == Ok(e);
    assert N(Node("array", [N(cls)], "")) == S("array", [N(cls)]);
    var exp := [S("array", list)] + stmts;
    assert Shift(exp) == (S("array", list), stmts);
  }

  /** The second of two children is the one node of its kind: it is found, and removing its kind leaves the first. */
  lemma FindSecond(x: Child, n: Node, kind: string)
    requires !IsNodeOf(x, kind) && n.kind == kind
    ensures FindNode([x, N(n)], kind) == Ok(Some(n))
    ensures RemoveKind([x, N(n)], kind) == [x]
  {
    var list := [x, N(n)];
    assert list[1..] == [N(n)] && list[1..][1..] == [];
    assert FindNodes([N(n)], kind) == [n] + FindNodes([], kind);
    assert RemoveKind([N(n)], kind) == [] + RemoveKind([], kind);
  }

  lemma BracketsTrimmed(s: string)
    ensures Trim("[" + s + "]", 1) == Some(s)
  {
    var t := "[" + s + "]";
    assert t[1..|t| - 1] == s;
  }

  // ---------------------------------------------------------------------------
  // Ensure.

  /** An ensure part that is `s(:nil)` becomes `# do nothing`; a body that renders nil raises. */
  lemma EnsureNilPart(c: Config, ctx: seq<string>, b: Child, bt: Option<string>, xs: seq<Child>)
    requires Process(c, ctx, b) == Ok(bt)
    ensures Ensure(c, ctx, [b, S("nil", [])]) ==
            if bt.None? then Err(Malformed) else Ok(Out(EnsureText(bt.value, None), []))
    ensures EnsureText(Interp(bt), None) == EnsureText(Interp(bt), Some("# do nothing"))
  {
    assert Shift([b, S("nil", [])]) == (b, [S("nil", [])]);
    assert Shift([S("nil", [])]) == (S("nil", []), []);
  }

  /** A single-line body and ensure part are both indented around the `ensure` keyword. */
  lemma EnsurePlain(b: string, e: string)
    requires b != "" && '\n' !in b && !StartsWith(b, "rescue")
    requires e != "" && '\n' !in e && !StartsWith(e, "rescue")
    ensures EnsureText(b, Some(e)) == (IndentUnit + b) + "\nensure\n" + (IndentUnit + e)
  {
    NoTrailingEnd(b);
    OneLineNoRescue(b);
    OneLineNoRescue(e);
    IndentOneLine(b);
    IndentOneLine(e);
  }

  lemma OneLineNoRescue(s: string)
    requires '\n' !in s && !StartsWith(s, "rescue")
    ensures !LineStartsWith(s, "rescue")
  {
    NoNewlineNoLineStart(s, "rescue");
    assert "\n" + "rescue" == "\nrescue";
  }

  /** A single line has no trailing `\n end` to remove. */
  lemma {:induction false} NoTrailingEnd(s: string)
    requires '\n' !in s
    ensures DropTrailingEnd(s) == s
    decreases |s|
  {
    if |s| > 0 {
      NoTrailingEnd(s[1..]);
      assert [s[0]] + s[1..] == s;
    }
  }

  /** The body's final `\n<spaces>end` is removed. */
  lemma {:induction false} TrailingEndDropped(a: string, k: nat)
    requires '\n' !in a
    ensures DropTrailingEnd(a + "\n" + Spaces(k) + "end") == a
    decreases |a|
  {
    var s := a + "\n" + Spaces(k) + "end";
    if |a| == 0 {
      assert s == "\n" + (Spaces(k) + "end");
      SpacesThenEnd(k);
    } else {
      assert s[1..] == a[1..] + "\n" + Spaces(k) + "end";
      TrailingEndDropped(a[1..], k);
      assert [a[0]] + a[1..] == a;
    }
  }

  lemma {:induction false} SpacesThenEnd(k: nat)
    ensures SpaceThenEnd(Spaces(k) + "end")
    decreases k
  {
    if k > 0 {
      assert Spaces(k) + "end" == " " + (Spaces(k - 1) + "end") by {
        SpacesFront(k);
      }
      SpacesThenEnd(k - 1);
    } else {
      assert Spaces(0) + "end" == "end";
    }
  }

  lemma SpacesFront(k: nat)
    requires k > 0
    ensures Spaces(k) == " " + Spaces(k - 1)
  {
    assert |Spaces(k)| == |" " + Spaces(k - 1)|;
    assert forall i :: 0 <= i < k ==> Spaces(k)[i] == (" " + Spaces(k - 1))[i];
  }

  /** A rendered body is never missing: an ensure whose body renders nil raises. */
  lemma EnsureNeedsBody(c: Config, ctx: seq<string>, ens: Child)
    ensures Ensure(c, ctx, [Nil, ens]).Err?
  {
    assert Shift([Nil, ens]) == (Nil, [ens]);
  }

  // ---------------------------------------------------------------------------
  // Begin.

  /** `begin` with no children renders `begin`, a newline, then `end`. */
  lemma BeginEmpty(c: Config, ctx: seq<string>)
    ensures Begin(c, ctx, []) == Ok(Out("begin\nend", []))
  {
    assert ["begin"] + [] + ["end"] == ["begin", "end"];
    assert Join(["end"], LF) == "end";
    assert "begin" + LF + "end" == "begin\nend";
  }

  /** Children are rendered in order, one line group each. */
  lemma BeginStep(c: Config, ctx: seq<string>, x: Child, t: Option<string>, rest: seq<Child>)
    requires Process(c, ctx, x) == Ok(t)
    ensures BeginCode(c, ctx, [x] + rest) == Prepend([BeginPart(t)], BeginCode(c, ctx, rest))
  {
    assert ([x] + rest)[0] == x && ([x] + rest)[1..] == rest;
  }

  /** A child is indented, unless a line of it starts with `rescue` or `ensure`. */
  lemma BeginPartCases(s: string)
    ensures '\n' !in s && s != "" && !StartsWith(s, "rescue") && !StartsWith(s, "ensure") ==>
              BeginPart(Some(s)) == IndentUnit + s
    ensures StartsWith(s, "rescue") || StartsWith(s, "ensure") ==> BeginPart(Some(s)) == s
    ensures BeginPart(None) == ""
  {
    if '\n' !in s && s != "" && !StartsWith(s, "rescue") && !StartsWith(s, "ensure") {
      OneLineNoRescue(s);
      NoNewlineNoLineStart(s, "ensure");
      IndentOneLine(s);
    }
    IndentEmpty();
  }
}
