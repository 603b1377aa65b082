/**
 * What the small expression rules promise: argument lists and array
 * literals, `=~` matches, `yield`, `break`/`next`/`return`, splats,
 * `super`, `undef`, block arguments and interpolated regexes.
 */
module ExprFacts {
  import opened Results
  import opened Text
  import opened Sexp
  import opened Options
  import opened Render
  import ProcessorFacts

  // ---------------------------------------------------------------------------
  // Argument lists and array literals.

  /** Every child yields one item, and the array literal brackets the items joined by ", ". */
  lemma ArrayForm(c: Config, ctx: seq<string>, exp: seq<Child>, code: seq<string>)
    requires ArglistCode(c, ctx, exp) == Ok(code)
    ensures |code| == |exp|
    ensures Arglist(c, ctx, exp) == Ok(Out(Join(code, ", "), []))
    ensures Array(c, ctx, exp) == Ok(Out("[" + Join(code, ", ") + "]", []))
  {
    ArglistCodeLength(c, ctx, exp);
  }

  lemma {:induction false} ArglistCodeLength(c: Config, ctx: seq<string>, exp: seq<Child>)
    requires ArglistCode(c, ctx, exp).Ok?
    ensures |ArglistCode(c, ctx, exp).value| == |exp|
    decreases |exp|
  {
    if exp != [] {
      ArglistCodeLength(c, ctx, exp[1..]);
    }
  }

  /** A `:rescue` argument is parenthesized; any other is used as rendered. */
  lemma ArglistStep(c: Config, ctx: seq<string>, x: Node, t: Option<string>, rest: seq<Child>)
    requires Process(c, ctx, N(x)) == Ok(t)
    ensures ArglistCode(c, ctx, [N(x)] + rest) ==
            Prepend([if x.kind == "rescue" then "(" + Interp(t) + ")" else Interp(t)], ArglistCode(c, ctx, rest))
  {
    assert ([N(x)] + rest)[0] == N(x) && ([N(x)] + rest)[1..] == rest;
  }

  /** An argument that is not a sub-node has no kind to test, and raises. */
  lemma ArglistNonNode(c: Config, ctx: seq<string>, x: Child, rest: seq<Child>)
    requires !x.N?
    ensures ArglistCode(c, ctx, [x] + rest) == Err(Malformed)
  {
    assert ([x] + rest)[0] == x;
  }

  // ---------------------------------------------------------------------------
  // Matches.

  /** `lhs =~ rhs`, in the order of the children. */
  lemma Match2Form(c: Config, ctx: seq<string>, a: Child, b: Child, at: Option<string>, bt: Option<string>)
    requires Process(c, ctx, a) == Ok(at) && Process(c, ctx, b) == Ok(bt)
    ensures Match2(c, ctx, [a, b]) == Ok(Out(Interp(at) + " =~ " + Interp(bt), []))
  {
    assert Shift([a, b]) == (a, [b]) && Shift([b]) == (b, []);
  }

  /** The regex comes first but is written last; an assignment value is parenthesized. */
  lemma Match3Form(c: Config, ctx: seq<string>, a: Child, b: Node, at: Option<string>, bt: Option<string>)
    requires Process(c, ctx, a) == Ok(at) && Process(c, ctx, N(b)) == Ok(bt)
    ensures Match3(c, ctx, [a, N(b)]) ==
            Ok(Out((if b.kind in AssignNodes then "(" + Interp(bt) + ")" else Interp(bt)) + " =~ " + Interp(at), []))
  {
    assert Shift([a, N(b)]) == (a, [N(b)]) && Shift([N(b)]) == (N(b), []);
  }

  /** A value that is not a sub-node has no kind, and raises. */
  lemma Match3NonNode(c: Config, ctx: seq<string>, a: Child, x: Child)
    requires !x.N? && Process(c, ctx, a).Ok?
    ensures Match3(c, ctx, [a, x]) == Err(Malformed)
  {
    assert Shift([a, x]) == (a, [x]);
  }

  // ---------------------------------------------------------------------------
  // `yield`, `super`, `svalue`.

  /** Every child yields one string, nil rendering as "". */
  lemma {:induction false} ProcessEachLength(c: Config, ctx: seq<string>, exp: seq<Child>)
    requires ProcessEach(c, ctx, exp).Ok?
    ensures |ProcessEach(c, ctx, exp).value| == |exp|
    decreases |exp|
  {
    if exp != [] {
      ProcessEachLength(c, ctx, exp[1..]);
    }
  }

  /** Bare `yield` without arguments, otherwise `yield(…)` with every argument, nils as "". */
  lemma YieldForm(c: Config, ctx: seq<string>, exp: seq<Child>, args: seq<string>)
    requires ProcessEach(c, ctx, exp) == Ok(args)
    ensures |args| == |exp|
    ensures Yield(c, ctx, exp) == Ok(Out(if exp == [] then "yield" else "yield(" + Join(args, ", ") + ")", []))
  {
    ProcessEachLength(c, ctx, exp);
  }

  /** A splatted value is the rendered children joined by ", ". */
  lemma SvalueForm(c: Config, ctx: seq<string>, exp: seq<Child>, code: seq<string>)
    requires ProcessEach(c, ctx, exp) == Ok(code)
    ensures |code| == |exp|
    ensures Svalue(c, ctx, exp) == Ok(Out(Join(code, ", "), []))
  {
    ProcessEachLength(c, ctx, exp);
  }

  /** `super(…)` always has parentheses, and nil arguments are dropped. */
  lemma SuperForm(c: Config, ctx: seq<string>, exp: seq<Child>, args: seq<string>)
    requires Finish(c, ctx, exp) == Ok(args)
    ensures Super(c, ctx, exp) == Ok(Out("super(" + Join(args, ", ") + ")", []))
    ensures Super(c, ctx, []) == Ok(Out("super()", []))
    ensures Super(c, ctx, [Nil] + exp) == Super(c, ctx, exp)
  {
    assert "super(" + Join([], ", ") + ")" == "super()";
    assert Process(c, ctx, Nil) == Ok(None);
    ProcessorFacts.FinishStep(c, ctx, Nil, exp);
  }

  // ---------------------------------------------------------------------------
  // Jumps and splats.

  /** The keyword alone without a value or with a nil one, otherwise `keyword value`. */
  lemma JumpForms(c: Config, ctx: seq<string>, v: Child, vt: Option<string>)
    requires Process(c, ctx, v) == Ok(vt)
    ensures Break(c, ctx, []) == Ok(Out("break", [])) && Next(c, ctx, []) == Ok(Out("next", []))
    ensures Break(c, ctx, [v]) == Ok(Out(if vt.Some? then "break " + vt.value else "break", []))
    ensures Next(c, ctx, [v]) == Ok(Out(if vt.Some? then "next " + vt.value else "next", []))
  {
    assert [v][1..] == [];
    assert "break" + " " == "break " && "next" + " " == "next ";
  }

  /** `return` alone without a value; with one, `return ` and the value, even when it renders nil. */
  lemma ReturnForms(c: Config, ctx: seq<string>, v: Child, vt: Option<string>)
    requires Process(c, ctx, v) == Ok(vt)
    ensures Return(c, ctx, []) == Ok(Out("return", []))
    ensures Return(c, ctx, [v]) == Ok(Out("return " + Interp(vt), []))
    ensures Return(c, ctx, [Nil]) == Ok(Out("return ", []))
  {
    assert [v][1..] == [] && [Nil][1..] == [];
    assert "return " + "" == "return ";
  }

  /** `*` alone, or `*` before the value. */
  lemma SplatForms(c: Config, ctx: seq<string>, v: Child, vt: Option<string>)
    requires Process(c, ctx, v) == Ok(vt)
    ensures Splat(c, ctx, []) == Ok(Out("*", []))
    ensures Splat(c, ctx, [v]) == Ok(Out("*" + Interp(vt), []))
  {
    assert [v][1..] == [];
  }

  /** `&value`; more than one child raises. */
  lemma BlockPassForms(c: Config, ctx: seq<string>, v: Child, vt: Option<string>, exp: seq<Child>)
    requires Process(c, ctx, v) == Ok(vt) && |exp| > 1
    ensures BlockPass(c, ctx, [v]) == Ok(Out("&" + Interp(vt), []))
    ensures BlockPass(c, ctx, []) == Ok(Out("&", []))
    ensures BlockPass(c, ctx, exp) == Err(Malformed)
  {
    assert Shift([v]) == (v, []);
    assert "&" + "" == "&";
  }

  /** `undef name`. */
  lemma UndefForm(c: Config, ctx: seq<string>, v: Child, vt: Option<string>)
    requires Process(c, ctx, v) == Ok(vt)
    ensures Undef(c, ctx, [v]) == Ok(Out("undef " + Interp(vt), []))
  {
    assert Shift([v]) == (v, []);
  }

  // ---------------------------------------------------------------------------
  // Interpolated regexes.

  /** Without an integer last child, the fragments go between slashes with no flags. */
  lemma DregxPlain(c: Config, ctx: seq<string>, exp: seq<Child>, d: Out)
    requires !Last(exp).Int? && UtilDthing(c, ctx, "dregx", exp) == Ok(d)
    ensures Dregx(c, ctx, exp) == Ok(Out("/" + d.text + "/", d.rest))
    ensures DregxOnce(c, ctx, exp) == Ok(Out("/" + d.text + "/" + "o", d.rest))
  {
  }

  /** An integer last child is taken off and becomes the flag letters after the closing slash. */
  lemma DregxFlags(c: Config, ctx: seq<string>, exp: seq<Child>, i: int, d: Out)
    requires UtilDthing(c, ctx, "dregx", exp) == Ok(d)
    ensures Dregx(c, ctx, exp + [Int(i)]) == Ok(Out("/" + d.text + "/" + ReOpt(c, i), d.rest))
    ensures DregxOnce(c, ctx, exp + [Int(i)]) == Ok(Out("/" + d.text + "/" + ReOpt(c, i) + "o", d.rest))
  {
    var e := exp + [Int(i)];
    assert Last(e) == Int(i) && e[..|e| - 1] == exp;
  }
}
