/**
 * What the block rule (`Iter#to_s`) promises: the block parameters, the
 * removal of a trailing "()", and the choice between the brace one-liner and
 * the multi-line `do … end` (or `{ … }` for `END`).
 */
module IterFacts {
  import opened Results
  import opened Text
  import opened Sexp
  import opened Options
  import opened Render

  /** A parameter list of 0 gives no pipes; otherwise the args rendering loses its parentheses. */
  lemma BlockParams(c: Config, ctx: seq<string>, a: Node, p: string)
    requires Process(c, ctx, N(a)) == Ok(Some("(" + p + ")"))
    ensures IterArgs(c, ctx, Int(0)) == Ok("")
    ensures IterArgs(c, ctx, N(a)) == Ok(" |" + p + "|")
  {
    var s := "(" + p + ")";
    assert |s| == |p| + 2 && s[1..|s| - 1] == p;
  }

  /** On a single line, a final "()" is the one `sub(/\(\)$/, '')` removes. */
  lemma {:induction false} DropFinalEmptyParens(s: string)
    requires '\n' !in s
    ensures DropEmptyParens(s + "()") == s
    decreases |s|
  {
    if |s| > 0 {
      var t := s + "()";
      assert t[2] != '\n' by { if |s| >= 3 { assert t[2] == s[2]; } }
      assert t[1..] == s[1..] + "()";
      DropFinalEmptyParens(s[1..]);
      assert [s[0]] + s[1..] == s;
    }
  }

  /** A single line that does not end in "()" is left alone. */
  lemma {:induction false} KeepWithoutEmptyParens(s: string)
    requires '\n' !in s && !EndsWith(s, "()")
    ensures DropEmptyParens(s) == s
    decreases |s|
  {
    if |s| >= 2 && s[0] == '(' && s[1] == ')' {
      if |s| == 2 { assert false; }
      assert s[2] != '\n';
    }
    if |s| > 0 {
      assert s[1..] == "" || !EndsWith(s[1..], "()") by {
        if |s[1..]| >= 2 { assert s[1..][|s[1..]| - 2..] == s[|s| - 2..]; }
      }
      KeepWithoutEmptyParens(s[1..]);
      assert [s[0]] + s[1..] == s;
    }
  }

  /** The block is written on one line exactly when the brace form fits. */
  lemma OneLineIff(iter: string, callHasArgs: bool, args: string, body: Option<string>)
    ensures var call := DropEmptyParens(iter);
            '\n' !in IterText(iter, callHasArgs, args, body) <==>
            SameLineBracketBlock(BraceBlock(call, args, body), call, callHasArgs)
  {
    var call := DropEmptyParens(iter);
    if !SameLineBracketBlock(BraceBlock(call, args, body), call, callHasArgs) {
      MultiLineHasNewline(iter, callHasArgs, args, body);
    }
  }

  lemma MultiLineHasNewline(iter: string, callHasArgs: bool, args: string, body: Option<string>)
    requires !SameLineBracketBlock(BraceBlock(DropEmptyParens(iter), args, body), DropEmptyParens(iter), callHasArgs)
    ensures '\n' in IterText(iter, callHasArgs, args, body)
  {
    var call := DropEmptyParens(iter);
    var b := if iter == "END" then "{" else "do";
    var e := if iter == "END" then "}" else "end";
    var p := call + " " + b + args + "\n";
    var x := if body.Some? then Indent(Strip(body.value)) + "\n" else "";
    assert IterText(iter, callHasArgs, args, body) == p + x + e;
    assert (p + x + e)[|p| - 1] == '\n';
  }

  /** The multi-line form: `call do |a|`, the stripped and indented body, `end`; none for a missing body. */
  lemma MultiLineForm(iter: string, callHasArgs: bool, args: string, body: Option<string>)
    requires iter != "END"
    requires !SameLineBracketBlock(BraceBlock(DropEmptyParens(iter), args, body), DropEmptyParens(iter), callHasArgs)
    ensures body.Some? ==> (IterText(iter, callHasArgs, args, body) ==
                            DropEmptyParens(iter) + " do" + args + "\n" + (Indent(Strip(body.value)) + "\n") + "end")
    ensures body.None? ==> (IterText(iter, callHasArgs, args, body) ==
                            DropEmptyParens(iter) + " do" + args + "\n" + "end")
  {
    var call := DropEmptyParens(iter);
    assert call + " " + "do" == call + " do";
    assert call + " do" + args + "\n" + "" + "end" == call + " do" + args + "\n" + "end";
  }

  /** A call rendered as `END` takes braces instead of `do`/`end` in the multi-line form. */
  lemma EndUsesBraces(callHasArgs: bool, args: string, body: string)
    requires !SameLineBracketBlock(BraceBlock("END", args, Some(body)), "END", callHasArgs)
    ensures IterText("END", callHasArgs, args, Some(body)) ==
            "END" + " {" + args + "\n" + (Indent(Strip(body)) + "\n") + "}"
  {
    KeepWithoutEmptyParens("END");
    assert "END" + " " + "{" == "END" + " {";
  }

  /** A short block with parameters and a one-line body goes on one line in braces. */
  lemma BraceExample()
    ensures IterText("a.each", false, " |x|", Some("p x")) == "a.each { |x| p x }"
  {
    KeepWithoutEmptyParens("a.each");
    BraceText();
  }

  lemma BraceText()
    ensures BraceBlock("a.each", " |x|", Some("p x")) == "a.each { |x| p x }"
    ensures SameLineBracketBlock("a.each { |x| p x }", "a.each", false)
  {
    StripPX();
    var r := "a.each" + " {" + " |x|" + (" " + "p x" + " ") + "}";
    assert r == "a.each { |x| p x }";
  }

  lemma StripPX()
    ensures Strip("p x") == "p x"
  {
    assert LStrip("p x") == "p x";
    assert RStrip("p x") == "p x";
  }

  /**
   * The block rule renders the call from the node it was given, so the one-line test
   * still sees whether that call had arguments (more than a receiver and a name).
   */
  lemma IterComposes(c: Config, ctx: seq<string>, call: Node, a: Child, b: Child,
                     callText: string, argsText: string, body: Option<string>)
    requires Process(c, ctx, N(call)) == Ok(Some(callText))
    requires IterArgs(c, ctx, a) == Ok(argsText) && Process(c, ctx, b) == Ok(body)
    ensures Iter(c, ctx, [N(call), a, b]) ==
            Ok(Out(IterText(callText, |call.children| > 2, argsText, body), []))
  {
    var exp := [N(call), a, b];
    assert Shift(exp) == (N(call), [a, b]);
    assert Shift([a, b]) == (a, [b]);
    assert [b][1..] == [];
  }
}
