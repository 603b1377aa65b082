/**
 * What the processor promises: the dispatcher's strictness, the rewrite
 * rules, and the utilities `parenthesize`, `ruby19_hash_key?`,
 * `dthing_escape`, `finish`, `cond_loop`, `util_dthing`,
 * `util_module_or_class` and `re_opt`.
 */
module ProcessorFacts {
  import opened Results
  import opened Text
  import opened Sexp
  import opened Options
  import opened Render

  // ---------------------------------------------------------------------------
  // Dispatch.

  /** nil renders as nil; a scalar where a node is expected raises. */
  lemma ProcessScalars(c: Config, ctx: seq<string>, x: Child)
    requires !x.N?
    ensures Process(c, ctx, x) == if x == Nil then Ok(None) else Err(Malformed)
  {
  }

  /** Strict mode: a node renders exactly when its rule succeeds and consumes every child. */
  lemma StrictConsumption(c: Config, ctx: seq<string>, n: Node)
    ensures Process(c, ctx, N(n)).Ok? <==>
            Dispatch(c, [n.kind] + ctx, n).Ok? && Dispatch(c, [n.kind] + ctx, n).value.rest == []
    ensures Dispatch(c, [n.kind] + ctx, n).Ok? && Dispatch(c, [n.kind] + ctx, n).value.rest != [] ==>
            Process(c, ctx, N(n)) == Err(NotConsumed)
    ensures Process(c, ctx, N(n)).Ok? ==> Process(c, ctx, N(n)).value == Some(Dispatch(c, [n.kind] + ctx, n).value.text)
  {
  }

  /** A kind without a `process_` method raises. */
  lemma UnknownKindRaises(c: Config, ctx: seq<string>, n: Node)
    requires n.kind !in Nodes
    ensures Process(c, ctx, N(n)) == Err(UnknownKind)
  {
    ModelledRulesKnown();
    DispatchUnknown(c, [n.kind] + ctx, n);
  }

  lemma ModelledRulesKnown()
    ensures ModelledRules <= Nodes
  {
  }

  lemma DispatchUnknown(c: Config, ctx: seq<string>, n: Node)
    requires n.kind !in ModelledRules && n.kind !in Nodes
    ensures Dispatch(c, ctx, n) == Err(UnknownKind)
  {
  }

  /** A kind whose rule is not spelled out renders as the configured rule says, and always consumes. */
  lemma UnshownKind(c: Config, ctx: seq<string>, n: Node)
    requires n.kind in Nodes && n.kind !in ModelledRules
    ensures Process(c, ctx, N(n)) == Ok(Some(c.unshown(n.kind, n.children)))
  {
  }

  // ---------------------------------------------------------------------------
  // Rewrites.

  /** Scalars pass through the rewrite untouched. */
  lemma RewriteScalar(ctx: seq<string>, x: Child)
    requires !x.N?
    ensures Rewrite(ctx, x) == Ok(x)
  {
  }

  /** An ensure is wrapped in a begin exactly when its parent is not a begin. */
  lemma RewriteEnsureWraps(ctx: seq<string>, n: Node)
    ensures RewriteEnsure(ctx, n) == N(n) <==> |ctx| > 0 && ctx[0] == "begin"
    ensures !(|ctx| > 0 && ctx[0] == "begin") ==> RewriteEnsure(ctx, n) == N(Node("begin", [N(n)], n.comments))
  {
    assert Weights([N(n)]) == Weight(N(n));
    assert Weight(N(Node("begin", [N(n)], n.comments))) > Weight(N(n));
  }

  /** Dropping the "=" that ends a name with no other "=". */
  lemma {:induction false} DropEqAtEolSetter(s: string)
    requires '=' !in s
    ensures DropEqAtEol(s + "=") == s && DropEqAtEol(s) == s
    decreases |s|
  {
    if |s| > 0 {
      assert (s + "=")[1..] == s[1..] + "=";
      DropEqAtEolSetter(s[1..]);
      assert [s[0]] + s[1..] == s;
    } else {
      assert s + "=" == "=";
    }
  }

  /** Under `[:array, :masgn]` a setter becomes a call of the plain name; elsewhere nothing changes. */
  lemma RewriteAttrasgnInMasgn(ctx: seq<string>, recv: Child, name: string, rest: seq<Child>, comments: string)
    requires '=' !in name
    ensures |ctx| >= 2 && ctx[0] == "array" && ctx[1] == "masgn" ==>
            RewriteAttrasgn(ctx, Node("attrasgn", [recv, Sym(name + "=")] + rest, comments)) ==
            Ok(N(Node("call", [recv, Sym(name)] + rest, comments)))
    ensures !(|ctx| >= 2 && ctx[0] == "array" && ctx[1] == "masgn") ==>
            RewriteAttrasgn(ctx, Node("attrasgn", [recv, Sym(name + "=")] + rest, comments)) ==
            Ok(N(Node("attrasgn", [recv, Sym(name + "=")] + rest, comments)))
  {
    DropEqAtEolSetter(name);
    var ch := [recv, Sym(name + "=")] + rest;
    assert ch[1 := Sym(name)] == [recv, Sym(name)] + rest;
  }

  /** A resbody must carry an exception list that is an `:array`. */
  lemma RewriteResbodyNeedsArray(n: Node)
    ensures RewriteResbody(n).Ok? <==> |n.children| >= 2 && IsNodeOf(n.children[0], "array")
    ensures RewriteResbody(n).Ok? ==> RewriteResbody(n) == Ok(N(n))
    ensures RewriteResbody(n).Err? ==> RewriteResbody(n).error == Malformed
  {
  }

  /** An svalue over an array takes the array's elements; over a splat it is kept; otherwise it raises. */
  lemma RewriteSvalueSources(src: Child, comments: string)
    ensures IsNodeOf(src, "array") ==>
            RewriteSvalue(Node("svalue", [src], comments)) == Ok(N(Node("svalue", src.node.children, comments)))
    ensures IsNodeOf(src, "splat") ==>
            RewriteSvalue(Node("svalue", [src], comments)) == Ok(N(Node("svalue", [src], comments)))
    ensures !IsNodeOf(src, "array") && !IsNodeOf(src, "splat") ==>
            RewriteSvalue(Node("svalue", [src], comments)) == Err(Malformed)
  {
  }

  /** A complex rescue is wrapped in a begin, unless its parent is an ensure. */
  lemma RewriteRescueWraps(ctx: seq<string>, n: Node, complex: bool)
    requires RescueIsComplex(n) == Ok(complex)
    ensures RewriteRescue(ctx, n) ==
            if complex && !(|ctx| > 0 && ctx[0] == "ensure") then Ok(N(Node("begin", [N(n)], n.comments)))
            else Ok(N(n))
  {
  }

  /** More than two children is always complex. */
  lemma RescueManyChildrenComplex(n: Node)
    requires |n.children| > 2
    ensures RescueIsComplex(n) == Ok(true)
  {
  }

  /** `x rescue y` with an empty exception list and a plain handler is not complex. */
  lemma SimpleRescueNotComplex(body: Child, handler: Child)
    requires body.N? && body.node.kind != "resbody"
    requires handler.N? && handler.node.kind != "block" && handler.node.kind != "resbody"
    ensures RescueIsComplex(Node("rescue", [body, S("resbody", [S("array", []), handler])], "")) == Ok(false)
  {
    var rb := Node("resbody", [S("array", []), handler], "");
    var ch := [body, N(rb)];
    assert FindNodes(ch[1..], "resbody") == [rb] by {
      assert FindNodes(ch[1..][1..], "resbody") == [];
    }
    assert FindNodes(ch, "resbody") == [rb];
    assert FindNode(ch, "resbody") == Ok(Some(rb));
    assert FindNodes(rb.children[1..], "block") == [] by {
      assert FindNodes(rb.children[1..][1..], "block") == [];
    }
    assert FindNode(rb.children, "block") == Ok(None);
    RescueSimpleResbodies(handler);
  }

  lemma RescueSimpleResbodies(handler: Child)
    requires handler.N? && handler.node.kind != "block"
    ensures forall rb :: rb in [Node("resbody", [S("array", []), handler], "")] ==>
              IsBare(Elem(rb, 1), "array") && LastElem(rb) != Nil
    ensures AnyBlockBody([Node("resbody", [S("array", []), handler], "")]) == Ok(false)
  {
    var rb := Node("resbody", [S("array", []), handler], "");
    assert [rb][1..] == [];
  }

  /** Such a rescue is left as it is by the rewrite in every context. */
  lemma SimpleRescueUnwrapped(ctx: seq<string>, body: Child, handler: Child)
    requires body.N? && body.node.kind != "resbody"
    requires handler.N? && handler.node.kind != "block" && handler.node.kind != "resbody"
    ensures RewriteRescue(ctx, Node("rescue", [body, S("resbody", [S("array", []), handler])], "")) ==
            Ok(S("rescue", [body, S("resbody", [S("array", []), handler])]))
  {
    SimpleRescueNotComplex(body, handler);
  }

  // ---------------------------------------------------------------------------
  // Utilities.

  /** `parenthesize` wraps its text exactly when there is a parent and it is not statement-like. */
  lemma ParenthesizeExactly(ctx: seq<string>, s: string)
    ensures Parenthesize(ctx, s) == s <==> |ctx| < 2 || ctx[1] in NoParenParents
    ensures Parenthesize(ctx, s) == s || Parenthesize(ctx, s) == "(" + s + ")"
  {
    if !(|ctx| < 2 || ctx[1] in NoParenParents) {
      assert |Parenthesize(ctx, s)| == |s| + 2;
    }
  }

  /** The decimal form of a natural number starts with a digit. */
  lemma {:induction false} NatToStringStartsWithDigit(n: nat)
    ensures '0' <= NatToString(n)[0] <= '9'
    decreases n
  {
    if n >= 10 {
      NatToStringStartsWithDigit(n / 10);
      assert NatToString(n)[0] == NatToString(n / 10)[0];
    }
  }

  /** A symbol key is eligible exactly when its name matches the pattern; `:a` is too short. */
  lemma Ruby19HashKeySymbol(k: string)
    ensures Ruby19HashKey(S("lit", [Sym(k)])) <==> MatchesHashKey(k)
    ensures !Ruby19HashKey(S("lit", [Sym("a")]))
    ensures Ruby19HashKey(S("lit", [Sym("ab")])) && Ruby19HashKey(S("lit", [Sym("a_1")]))
    ensures !Ruby19HashKey(S("lit", [Sym("Ab")]))
  {
    assert "a"[..0] == "";
  }

  /** Numeric keys and string keys are never eligible. */
  lemma Ruby19HashKeyNotNumericOrString(i: int, s: string)
    ensures !Ruby19HashKey(S("lit", [Int(i)]))
    ensures !Ruby19HashKey(S("str", [Str(s)]))
  {
    if i < 0 {
      assert IntToString(i)[0] == '-';
    } else {
      NatToStringStartsWithDigit(i);
    }
  }

  /** The newline escape removes every newline. */
  lemma {:induction false} EscapeCharKeepsNoNewline(s: string, c: char)
    requires '\n' !in s && c != '\n'
    ensures '\n' !in EscapeChar(s, c)
    decreases |s|
  {
    if |s| > 0 { EscapeCharKeepsNoNewline(s[1..], c); }
  }

  lemma {:induction false} EscapeSlashesKeepsNoNewline(s: string)
    requires '\n' !in s
    ensures '\n' !in EscapeSlashesRest(s) && '\n' !in EscapeSlashes(s)
    decreases |s|
  {
    if |s| >= 2 && s[0] != '\\' && s[1] == '/' {
      EscapeSlashesKeepsNoNewline(s[2..]);
    } else if |s| > 0 {
      EscapeSlashesKeepsNoNewline(s[1..]);
    }
  }

  /**
   * The `:dxstr` replacement as written drops the backtick: "a`b" comes out as
   * "aab" and "a`b`c" as "aaba`bc", so unescaping no longer gives the text back.
   * The intended escape gives "a\\`b", which unescapes to "a`b".
   */
  lemma DxstrEscapeAsWritten()
    ensures DthingEscapeAsWritten("dxstr", "a`b") == Ok("aab")
    ensures DthingEscapeAsWritten("dxstr", "a`b`c") == Ok("aaba`bc")
    ensures UnescapeChar("aab", '`') != "a`b"
    ensures DthingEscape("dxstr", "a`b") == Ok("a\\`b") && UnescapeChar("a\\`b", '`') == "a`b"
  {
    EscapeNewlinesAbsent("a`b");
    EscapeNewlinesAbsent("a`b`c");
    DxstrEscapes("a`b");
    DxstrEscapes("a`b`c");
    PrematchOneBacktick();
    PrematchTwoBackticks();
    BacktickEscapeExample();
    assert "aab"[1] != "a`b"[1];
  }

  /** For `:dxstr`, both readings first escape the newlines and then treat the backticks. */
  lemma DxstrEscapes(lit: string)
    ensures DthingEscapeAsWritten("dxstr", lit) == Ok(ReplaceByPrematch("", EscapeNewlines(lit), '`'))
    ensures DthingEscape("dxstr", lit) == Ok(EscapeChar(EscapeNewlines(lit), '`'))
  {
    assert "dxstr" != "dregx" && "dxstr" != "dstr" && "dxstr" != "dsym";
  }

  /** "a`b": the backtick becomes the "a" in front of it. */
  lemma PrematchOneBacktick()
    ensures ReplaceByPrematch("", "a`b", '`') == "aab"
  {
    PrematchStep("a`", "b");
    assert "b"[1..] == "" && "a`" + "b"[..1] == "a`b";
    assert ReplaceByPrematch("a`", "b", '`') == "b";
    PrematchStep("a", "`b");
    assert "`b"[1..] == "b" && "a" + "`b"[..1] == "a`";
    assert ReplaceByPrematch("a", "`b", '`') == "ab";
    PrematchStep("", "a`b");
    assert "a`b"[1..] == "`b" && "" + "a`b"[..1] == "a";
    assert "a" + "ab" == "aab";
  }

  /** "a`b`c": the second backtick becomes "a`b", the whole text in front of it. */
  lemma PrematchTwoBackticks()
    ensures ReplaceByPrematch("", "a`b`c", '`') == "aaba`bc"
  {
    PrematchFirstBacktick();
    PrematchStep("", "a`b`c");
    assert "a`b`c"[1..] == "`b`c" && "" + "a`b`c"[..1] == "a";
    assert "a" + "aba`bc" == "aaba`bc";
  }

  lemma PrematchFirstBacktick()
    ensures ReplaceByPrematch("a", "`b`c", '`') == "aba`bc"
  {
    PrematchAfterFirstBacktick();
    PrematchStep("a", "`b`c");
    assert "`b`c"[1..] == "b`c" && "a" + "`b`c"[..1] == "a`";
  }

  lemma PrematchAfterFirstBacktick()
    ensures ReplaceByPrematch("a`", "b`c", '`') == "ba`bc"
  {
    PrematchSecondBacktick();
    PrematchStep("a`", "b`c");
    assert "b`c"[1..] == "`c" && "a`" + "b`c"[..1] == "a`b";
  }

  lemma PrematchSecondBacktick()
    ensures ReplaceByPrematch("a`b", "`c", '`') == "a`bc"
  {
    PrematchStep("a`b`", "c");
    assert "c"[1..] == "" && "a`b`" + "c"[..1] == "a`b`c";
    assert ReplaceByPrematch("a`b`", "c", '`') == "c";
    PrematchStep("a`b", "`c");
    assert "`c"[1..] == "c" && "a`b" + "`c"[..1] == "a`b`";
  }

  /** One character of the prematch replacement. */
  lemma PrematchStep(pre: string, s: string)
    requires s != []
    ensures ReplaceByPrematch(pre, s, '`') ==
            (if s[0] == '`' then pre else [s[0]]) + ReplaceByPrematch(pre + s[..1], s[1..], '`')
  {
    assert s[..1] == [s[0]];
  }

  /** The intended escape of "a`b" and what unescaping makes of both results. */
  lemma BacktickEscapeExample()
    ensures EscapeChar("a`b", '`') == "a\\`b"
    ensures UnescapeChar("aab", '`') == "aab"
    ensures UnescapeChar("a\\`b", '`') == "a`b"
  {
    assert EscapeChar("b", '`') == "b";
    assert "`b"[1..] == "b";
    assert EscapeChar("`b", '`') == "\\`b";
    assert "a`b"[1..] == "`b";
    assert UnescapeChar("b", '`') == "b";
    assert "ab"[1..] == "b" && "aab"[1..] == "ab";
    assert UnescapeChar("ab", '`') == "ab";
    assert "\\`b"[2..] == "b";
    assert UnescapeChar("\\`b", '`') == "`b";
    assert "a\\`b"[1..] == "\\`b";
  }

  /**
   * `dthing_escape` knows four kinds; the result never holds a raw newline, and
   * for strings and symbols unescaping the quotes gives the newline-escaped text back.
   */
  lemma DthingEscapeKinds(kind: string, lit: string)
    ensures DthingEscape(kind, lit).Ok? <==> kind in {"dregx", "dstr", "dsym", "dxstr"}
    ensures DthingEscape(kind, lit).Err? ==> DthingEscape(kind, lit).error == Unsupported
    ensures DthingEscape(kind, lit).Ok? ==> '\n' !in DthingEscape(kind, lit).value
    ensures kind == "dstr" || kind == "dsym" ==> UnescapeChar(DthingEscape(kind, lit).value, '"') == EscapeNewlines(lit)
    ensures kind == "dxstr" ==> UnescapeChar(DthingEscape(kind, lit).value, '`') == EscapeNewlines(lit)
    ensures '/' !in lit && kind == "dregx" ==> DthingEscape(kind, lit) == Ok(EscapeNewlines(lit))
  {
    var l := EscapeNewlines(lit);
    EscapeCharKeepsNoNewline(l, '"');
    EscapeCharKeepsNoNewline(l, '`');
    EscapeSlashesKeepsNoNewline(l);
    EscapeCharRoundTrip(l, '"');
    EscapeCharRoundTrip(l, '`');
    if '/' !in lit {
      EscapeNewlinesNoSlash(lit);
      EscapeSlashesAbsent(l);
    }
  }

  lemma {:induction false} EscapeNewlinesNoSlash(s: string)
    requires '/' !in s
    ensures '/' !in EscapeNewlines(s)
    decreases |s|
  {
    if |s| > 0 { EscapeNewlinesNoSlash(s[1..]); }
  }

  /** `finish` drops the children that render nil and keeps the order of the rest. */
  lemma FinishStep(c: Config, ctx: seq<string>, x: Child, rest: seq<Child>)
    requires Process(c, ctx, x).Ok?
    ensures Process(c, ctx, x) == Ok(None) ==> Finish(c, ctx, [x] + rest) == Finish(c, ctx, rest)
    ensures Process(c, ctx, x).value.Some? ==>
            Finish(c, ctx, [x] + rest) == Prepend([Process(c, ctx, x).value.value], Finish(c, ctx, rest))
  {
    assert ([x] + rest)[1..] == rest;
    var more := Finish(c, ctx, rest);
    if more.Ok? { assert [] + more.value == more.value; }
  }

  /** With every child failing to render nothing, `finish` of nils is empty. */
  lemma {:induction false} FinishNils(c: Config, ctx: seq<string>, n: nat)
    ensures Finish(c, ctx, seq(n, _ => Nil)) == Ok([])
    decreases n
  {
    if n > 0 {
      var s := seq(n, _ => Nil);
      assert s == [Nil] + seq(n - 1, _ => Nil);
      FinishNils(c, ctx, n - 1);
      FinishStep(c, ctx, Nil, seq(n - 1, _ => Nil));
    }
  }

  /** `cond_loop` of a head-controlled loop: `while c do`, the indented body, `end`. */
  lemma CondLoopHead(c: Config, ctx: seq<string>, cond: Child, body: Child,
                     condText: string, bodyText: string)
    requires Process(c, ctx, cond) == Ok(Some(condText))
    requires Process(c, ctx, body) == Ok(Some(bodyText))
    requires bodyText != "" && '\n' !in bodyText && '\r' !in bodyText
    ensures CondLoop(c, ctx, [cond, body, Bool(true)], "while") ==
            Ok(Out("while " + condText + " do" + LF + (IndentUnit + bodyText) + LF + "end", []))
  {
    var exp := [cond, body, Bool(true)];
    CondLoopShifts(exp);
    ChompIndentOneLine(bodyText);
    var code := ["while" + " " + Interp(Some(condText)) + " do"] + [Chomp(Indent(bodyText))] + ["end"];
    assert "while" + " " + Interp(Some(condText)) + " do" == "while " + condText + " do";
    ThreeLines("while " + condText + " do", IndentUnit + bodyText, "end");
    assert CondLoop(c, ctx, exp, "while") == Ok(Out(Join(code, LF), []));
  }

  /** `cond_loop` of a tail-controlled loop: `begin`, the indented body, `end while c`. */
  lemma CondLoopTail(c: Config, ctx: seq<string>, cond: Child, body: Child,
                     condText: string, bodyText: string)
    requires Process(c, ctx, cond) == Ok(Some(condText))
    requires Process(c, ctx, body) == Ok(Some(bodyText))
    requires bodyText != "" && '\n' !in bodyText && '\r' !in bodyText
    ensures CondLoop(c, ctx, [cond, body, Bool(false)], "while") ==
            Ok(Out("begin" + LF + (IndentUnit + bodyText) + LF + ("end while " + condText), []))
  {
    var exp := [cond, body, Bool(false)];
    CondLoopShifts(exp);
    ChompIndentOneLine(bodyText);
    var code := ["begin"] + [Chomp(Indent(bodyText))] + ["end " + "while" + " " + Interp(Some(condText))];
    assert "end " + "while" + " " + Interp(Some(condText)) == "end while " + condText;
    assert code == ["begin"] + [IndentUnit + bodyText] + ["end while " + condText];
    ThreeLines("begin", IndentUnit + bodyText, "end while " + condText);
    assert CondLoop(c, ctx, exp, "while") == Ok(Out(Join(code, LF), []));
  }

  lemma CondLoopShifts(exp: seq<Child>)
    requires |exp| == 3
    ensures Shift(exp) == (exp[0], exp[1..]) && Shift(exp[1..]) == (exp[1], exp[2..])
    ensures Shift(exp[2..]) == (exp[2], []) && exp[1..][1..] == exp[2..]
  {
  }

  /** A one-line body indents to one line, which chomp leaves alone. */
  lemma ChompIndentOneLine(s: string)
    requires s != "" && '\n' !in s && '\r' !in s
    ensures Chomp(Indent(s)) == IndentUnit + s
  {
    IndentOneLine(s);
    ChompOneLine(IndentUnit + s);
  }

  /** `util_module_or_class`: a class without superclass and body is `class Name\nend`, after its comments. */
  lemma ClassEmpty(c: Config, ctx: seq<string>, comments: string, name: string)
    ensures Class(c, ctx, comments, [Sym(name), Nil]) == Ok(Out(comments + "class " + name + "\nend", []))
    ensures Class(c, ctx, comments, [Sym(name)]) == Ok(Out(comments + "class " + name + "\nend", []))
  {
    assert Shift([Nil]) == (Nil, []) && Shift([]) == (Nil, []);
    assert ModuleBody(c, ctx, []) == Ok([]);
    assert name + "" + LF + "" + "end" == name + "\nend";
    assert ModuleOrClass(c, ctx, [Sym(name), Nil], true) == Ok(Out(name + "\nend", []));
    assert ModuleOrClass(c, ctx, [Sym(name)], true) == Ok(Out(name + "\nend", []));
    assert comments + "class " + (name + "\nend") == comments + "class " + name + "\nend";
  }

  /** ` < Super` appears exactly when the superclass renders non-nil. */
  lemma ClassSuperclass(c: Config, ctx: seq<string>, name: string, super: Child, superText: string)
    requires Process(c, ctx, super) == Ok(Some(superText))
    ensures Class(c, ctx, "", [Sym(name), super]) == Ok(Out("class " + name + " < " + superText + "\nend", []))
  {
    assert super != Nil;
    assert Shift([super]) == (super, []);
    assert ModuleBody(c, ctx, []) == Ok([]);
    assert name + (" < " + superText) + LF + "" + "end" == name + " < " + superText + "\nend";
    assert "" + "class " + (name + " < " + superText + "\nend") == "class " + name + " < " + superText + "\nend";
  }

  /** The class body: chomped statements, blank ones dropped, separated by a blank line and indented. */
  lemma ClassBody(c: Config, ctx: seq<string>, name: string, s1: Child, s2: Child, t1: string, t2: string)
    requires Process(c, ctx, s1) == Ok(Some(t1)) && Process(c, ctx, s2) == Ok(Some(t2))
    requires t1 != "" && '\n' !in t1 && '\r' !in t1 && t2 != "" && '\n' !in t2 && '\r' !in t2
    ensures Class(c, ctx, "", [Sym(name), Nil, s1, s2]) ==
            Ok(Out("class " + name + LF + (IndentUnit + t1 + LF + IndentUnit + LF + (IndentUnit + t2)) + LF + "end", []))
  {
    var exp := [Sym(name), Nil, s1, s2];
    assert Shift(exp) == (Sym(name), [Nil, s1, s2]);
    assert Shift([Nil, s1, s2]) == (Nil, [s1, s2]);
    assert Process(c, ctx, Nil) == Ok(None);
    ModuleBodyTwo(c, ctx, s1, s2, t1, t2);
    IndentTwoParagraphs(t1, t2);
    var m := name + "" + LF + (Indent(Join([t1, t2], "\n\n")) + LF) + "end";
    assert ModuleOrClass(c, ctx, exp, true) == Ok(Out(m, []));
    ClassLayout(name, Indent(Join([t1, t2], "\n\n")));
    assert "" + "class " == "class ";
  }

  lemma ModuleBodyTwo(c: Config, ctx: seq<string>, s1: Child, s2: Child, t1: string, t2: string)
    requires Process(c, ctx, s1) == Ok(Some(t1)) && Process(c, ctx, s2) == Ok(Some(t2))
    requires t1 != "" && '\n' !in t1 && '\r' !in t1 && t2 != "" && '\n' !in t2 && '\r' !in t2
    ensures ModuleBody(c, ctx, [s1, s2]) == Ok([t1, t2])
  {
    ChompOneLine(t1);
    ChompOneLine(t2);
    var e := [s1, s2];
    assert e[1..] == [s2] && e[1..][1..] == [];
    ModuleBodyStep(c, ctx, e[1..], t2);
    assert ModuleBody(c, ctx, e[1..]) == Ok([t2]);
    ModuleBodyStep(c, ctx, e, t1);
    assert [t1] + [t2] == [t1, t2];
  }

  /** One statement of the class body loop that renders to a non-blank single line. */
  lemma ModuleBodyStep(c: Config, ctx: seq<string>, exp: seq<Child>, t: string)
    requires exp != [] && Process(c, ctx, exp[0]) == Ok(Some(t))
    requires t != "" && Chomp(t) == t
    ensures ModuleBody(c, ctx, exp) == Prepend([t], ModuleBody(c, ctx, exp[1..]))
  {
  }

  /** Two lines separated by a blank line: the blank line gets the indent unit too. */
  lemma IndentTwoParagraphs(t1: string, t2: string)
    requires t1 != "" && '\n' !in t1 && t2 != "" && '\n' !in t2
    ensures Indent(Join([t1, t2], "\n\n")) == IndentUnit + t1 + LF + IndentUnit + LF + (IndentUnit + t2)
  {
    SplitTwoParagraphs(t1, t2);
    var ls := PrefixEach([t1, "", t2], IndentUnit);
    assert "  " + "" == "  ";
    assert ls == [IndentUnit + t1] + [IndentUnit] + [IndentUnit + t2];
    ThreeLines(IndentUnit + t1, IndentUnit, IndentUnit + t2);
  }

  lemma SplitTwoParagraphs(t1: string, t2: string)
    requires t1 != "" && '\n' !in t1 && t2 != "" && '\n' !in t2
    ensures SplitLines(Join([t1, t2], "\n\n")) == [t1, "", t2]
  {
    assert Join([t1, t2], "\n\n") == t1 + "\n" + ("\n" + t2);
    FieldsOneLine(t2);
    FieldsFirstLine("", t2);
    assert "" + "\n" + t2 == "\n" + t2;
    FieldsFirstLine(t1, "\n" + t2);
    assert Fields(t1 + "\n" + ("\n" + t2)) == [t1, "", t2];
  }

  /** Three lines joined by newlines. */
  lemma ThreeLines(a: string, b: string, c: string)
    ensures Join([a] + [b] + [c], LF) == a + LF + b + LF + c
  {
    var ls := [a] + [b] + [c];
    assert ls[1..] == [b, c] && ls[1..][1..] == [c];
    assert Join(ls[1..], LF) == b + LF + c;
  }

  /** The text `util_module_or_class` builds around a non-empty body, behind `class `. */
  lemma ClassLayout(name: string, body: string)
    ensures "class " + (name + "" + LF + (body + LF) + "end") == "class " + name + LF + body + LF + "end"
  {
    assert name + "" == name;
  }

  /** A single line without line-ending characters is its own chomp. */
  lemma ChompOneLine(s: string)
    requires '\n' !in s && '\r' !in s
    ensures Chomp(s) == s
  {
    if |s| > 0 {
      assert s[|s| - 1] in s;
      LastDiffers(s, "\r\n");
      LastDiffers(s, "\n");
      LastDiffers(s, "\r");
    }
  }

  lemma LastDiffers(s: string, p: string)
    requires |s| > 0 && |p| > 0 && s[|s| - 1] != p[|p| - 1]
    ensures !EndsWith(s, p)
  {
    if |p| <= |s| {
      assert s[|s| - |p|..][|p| - 1] == s[|s| - 1];
    }
  }

  // ---------------------------------------------------------------------------
  // Regular expression options.

  /**
   * `re_opt` for any integer: bits 0, 1 and 2 give `i`, `x` and `m`, in
   * that order, and the bits 3..8 come after them.
   */
  lemma ReOptBits(c: Config, options: int)
    ensures ReOpt(c, options) ==
            (if Bit(options, 0) then "i" else "") +
            (if Bit(options, 1) then "x" else "") +
            (if Bit(options, 2) then "m" else "") +
            ReOptFrom(c, options, 3)
  {
    var i := if Bit(options, 0) then "i" else "";
    var x := if Bit(options, 1) then "x" else "";
    var m := if Bit(options, 2) then "m" else "";
    var high := ReOptFrom(c, options, 3);
    ReOptLowStep(c, options, 2, 4, "m");
    ReOptLowStep(c, options, 1, 2, "x");
    ReOptLowStep(c, options, 0, 1, "i");
    Append4(i, x, m, high);
  }

  lemma Append4(a: string, b: string, c: string, d: string)
    ensures a + (b + (c + d)) == a + b + c + d
  {
    assert a + (b + (c + d)) == (a + b) + (c + d);
  }

  lemma ReOptLowStep(c: Config, options: int, n: nat, b: int, letter: string)
    requires n <= 2 && b == Pow2(n) && letter == RegexCode(c, b)
    ensures ReOptFrom(c, options, n) == (if Bit(options, n) then letter else "") + ReOptFrom(c, options, n + 1)
  {
  }

  lemma {:induction false} Pow2AtLeast8(n: nat)
    requires n >= 3
    ensures Pow2(n) >= 8
    decreases n
  {
    if n > 3 {
      Pow2AtLeast8(n - 1);
    }
  }

  /**
   * Each bit 3..8 adds its entry of the configured encoding codes when that
   * bit is set and has an entry, and nothing otherwise.
   */
  lemma ReOptHighBit(c: Config, options: int, n: nat)
    requires 3 <= n <= 8
    ensures ReOptFrom(c, options, n) ==
            (if Bit(options, n) && Pow2(n) in c.encodingCodes then c.encodingCodes[Pow2(n)] else "") +
            ReOptFrom(c, options, n + 1)
  {
    Pow2AtLeast8(n);
  }

  /** When no set bit from n to 8 has a configured code, those bits add nothing. */
  lemma {:induction false} ReOptHighUnconfigured(c: Config, options: int, n: nat)
    requires 3 <= n <= 9
    requires forall k: nat :: n <= k <= 8 && Bit(options, k) ==> Pow2(k) !in c.encodingCodes
    ensures ReOptFrom(c, options, n) == ""
    decreases 9 - n
  {
    if n < 9 {
      ReOptHighBit(c, options, n);
      ReOptHighUnconfigured(c, options, n + 1);
    }
  }

  lemma {:induction false} MulAtLeast(p: int, k: int)
    requires p >= 1 && k >= 1
    ensures p * k >= p
    decreases k
  {
    if k > 1 {
      MulAtLeast(p, k - 1);
      assert p * k == p * (k - 1) + p;
    }
  }

  lemma DivUnique(x: int, p: int, d: int, b: int)
    requires p >= 1 && 0 <= b < p && x == p * d + b
    ensures x / p == d
  {
    var d', b' := x / p, x % p;
    assert x == p * d' + b' && 0 <= b' < p;
    assert p * (d - d') == b' - b;
    if d > d' {
      MulAtLeast(p, d - d');
    } else if d < d' {
      MulAtLeast(p, d' - d);
    }
  }

  lemma DivParity(o: int, p: int, h: int)
    requires p >= 1 && h >= 1 && p * (2 * h) == 512
    ensures (o / p) % 2 == ((o % 512) / p) % 2
  {
    var q, r := o / 512, o % 512;
    var a, b := r / p, r % p;
    var m := h * q;
    assert o == p * (2 * m + a) + b by {
      assert 512 * q == p * (2 * m);
    }
    DivUnique(o, p, 2 * m + a, b);
    EvenShift(m, a);
  }

  lemma EvenShift(m: int, a: int)
    ensures (2 * m + a) % 2 == a % 2
  {
  }

  /** Bits 0..8 of an integer are those of its remainder modulo 512 (two's complement for negatives). */
  lemma BitMod512(options: int, n: nat)
    requires n <= 8
    ensures Bit(options, n) == Bit(options % 512, n)
  {
    assert Pow2(0) == 1 && Pow2(1) == 2 && Pow2(2) == 4 && Pow2(3) == 8;
    assert Pow2(4) == 16 && Pow2(5) == 32 && Pow2(6) == 64 && Pow2(7) == 128 && Pow2(8) == 256;
    DivParity(options, Pow2(n), 256 / Pow2(n));
  }

  lemma {:induction false} ReOptFromMod512(c: Config, options: int, n: nat)
    requires n <= 9
    ensures ReOptFrom(c, options, n) == ReOptFrom(c, options % 512, n)
    decreases 9 - n
  {
    if n < 9 {
      BitMod512(options, n);
      ReOptFromMod512(c, options, n + 1);
    }
  }

  /** Only bits 0..8 are read: an option and its remainder modulo 512 give the same flags. */
  lemma ReOptMod512(c: Config, options: int)
    ensures ReOpt(c, options) == ReOpt(c, options % 512)
  {
    ReOptFromMod512(c, options, 0);
  }

  /** The flags of options below 8: i, x, m in ascending bit order. */
  lemma ReOptLowBits(c: Config, options: int)
    requires 0 <= options < 8
    ensures ReOpt(c, options) ==
            (if options % 2 == 1 then "i" else "") +
            (if (options / 2) % 2 == 1 then "x" else "") +
            (if (options / 4) % 2 == 1 then "m" else "")
  {
    ReOptBits(c, options);
    assert Pow2(0) == 1 && Pow2(1) == 2 && Pow2(2) == 4;
    forall k: nat | 3 <= k <= 8
      ensures !Bit(options, k)
    {
      Pow2AtLeast8(k);
      DivUnique(options, Pow2(k), 0, options);
    }
    ReOptHighUnconfigured(c, options, 3);
    assert Bit(options, 0) == (options % 2 == 1);
    assert Bit(options, 1) == ((options / 2) % 2 == 1);
    assert Bit(options, 2) == ((options / 4) % 2 == 1);
  }

  /** Some concrete flag strings: none, one, all three, and two apart. */
  lemma ReOptExamples(c: Config)
    ensures ReOpt(c, 0) == "" && ReOpt(c, 1) == "i" && ReOpt(c, 7) == "ixm" && ReOpt(c, 5) == "im"
  {
    ReOptLowBits(c, 0);
    ReOptLowBits(c, 1);
    ReOptLowBits(c, 7);
    ReOptLowBits(c, 5);
    assert "i" + "x" + "m" == "ixm" && "i" + "" + "m" == "im" && "i" + "" + "" == "i";
  }
}
