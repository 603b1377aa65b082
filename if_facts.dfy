/**
 * What the conditional rule (`If#to_s`) promises: which one-line candidate it
 * builds, when that candidate is used, and the block forms it falls back to.
 */
module IfFacts {
  import opened Results
  import opened Text
  import opened Sexp
  import opened Options
  import opened Render

  /** The result is a single line exactly when the candidate exists, fits, and no expansion is forced. */
  lemma OneLineIff(cond: string, t: Option<string>, f: Option<string>, expand: bool)
    ensures '\n' !in IfText(cond, t, f, expand) <==>
            (!expand && IfCandidate(cond, t, f).Some? && FitsOnLine(IfCandidate(cond, t, f).value))
  {
    var candidate := IfCandidate(cond, t, f);
    if !(!expand && candidate.Some? && FitsOnLine(candidate.value)) {
      BlockFormHasNewline(cond, t, f, expand);
    }
  }

  lemma BlockFormHasNewline(cond: string, t: Option<string>, f: Option<string>, expand: bool)
    requires !(!expand && IfCandidate(cond, t, f).Some? && FitsOnLine(IfCandidate(cond, t, f).value))
    ensures '\n' in IfText(cond, t, f, expand)
  {
    if t.Some? {
      var h := "if " + cond + " then\n";
      var rest := Indent(t.value) + "\n" + (if f.Some? then "else\n" + Indent(f.value) + "\n" else "") + "end";
      assert IfText(cond, t, f, expand) == h + rest;
      NewlineEnds(h, rest);
    } else if f.Some? {
      NewlineEnds("unless " + cond + " then\n", Indent(f.value) + "\nend");
    } else {
      NewlineEnds("if " + cond + " then\n", Indent("# do nothing") + "\nend");
    }
  }

  /** A text whose first part ends in a newline contains one. */
  lemma NewlineEnds(h: string, rest: string)
    requires |h| > 0 && h[|h| - 1] == '\n'
    ensures '\n' in h + rest
  {
    assert (h + rest)[|h| - 1] == '\n';
  }

  /** With both branches the ternary is discarded when its text mentions `return`. */
  lemma TernaryCandidate(cond: string, t: string, f: string)
    ensures var r := cond + " ? (" + t + ") : (" + f + ")";
            IfCandidate(cond, Some(t), Some(f)) == (if Contains(r, "return") then None else Some(r))
    ensures Contains(t, "return") ==> IfCandidate(cond, Some(t), Some(f)) == None
    ensures Contains(f, "return") ==> IfCandidate(cond, Some(t), Some(f)) == None
  {
    if Contains(t, "return") {
      ContainsInRight(cond + " ? (", t, "return");
      ContainsInLeft(cond + " ? (" + t, ") : (" + f + ")", "return");
      assert cond + " ? (" + t + (") : (" + f + ")") == cond + " ? (" + t + ") : (" + f + ")";
    }
    if Contains(f, "return") {
      ContainsInRight(cond + " ? (" + t + ") : (", f, "return");
      ContainsInLeft(cond + " ? (" + t + ") : (" + f, ")", "return");
    }
  }

  /** With one branch the candidate is the modifier form: `t if c` or `f unless c`; with none there is no candidate. */
  lemma ModifierCandidates(cond: string, t: string, f: string)
    ensures IfCandidate(cond, Some(t), None) == Some(t + " if " + cond)
    ensures IfCandidate(cond, None, Some(f)) == Some(f + " unless " + cond)
    ensures IfCandidate(cond, None, None) == None
  {
  }

  /** The block forms: `if c then … [else …] end`, or `unless c then … end` with only an else branch. */
  lemma BlockForms(cond: string, t: string, f: string)
    ensures IfText(cond, Some(t), None, true) == "if " + cond + " then\n" + Indent(t) + "\n" + "end"
    ensures IfText(cond, Some(t), Some(f), true) ==
            "if " + cond + " then\n" + Indent(t) + "\n" + ("else\n" + Indent(f) + "\n") + "end"
    ensures IfText(cond, None, Some(f), true) == "unless " + cond + " then\n" + Indent(f) + "\nend"
  {
    assert "if " + cond + " then\n" + Indent(t) + "\n" + "" + "end" == "if " + cond + " then\n" + Indent(t) + "\n" + "end";
  }

  /** Without branches the output is an `if` whose body is the do-nothing comment. */
  lemma NoBranches(cond: string, expand: bool)
    ensures IfText(cond, None, None, expand) == "if " + cond + " then\n" + (IndentUnit + "# do nothing") + "\nend"
  {
    IndentOneLine("# do nothing");
  }

  /** A short modifier form is used when nothing forces the expansion. */
  lemma ShortModifierUsed(cond: string, t: string)
    requires '\n' !in cond && '\n' !in t && |t| + |cond| + 6 < LineLength
    ensures IfText(cond, Some(t), None, false) == t + " if " + cond
  {
    var r := t + " if " + cond;
    assert |IndentUnit + r| == |t| + |cond| + 6;
  }

  /**
   * The rule renders the condition and both branches; a condition spanning lines
   * is wrapped in parentheses, and an assignment-kind condition forces the block form.
   */
  lemma IfComposes(c: Config, ctx: seq<string>, cn: Node, tb: Child, fb: Child,
                   ct: string, t: Option<string>, f: Option<string>)
    requires Process(c, ctx, N(cn)) == Ok(Some(ct)) && Process(c, ctx, tb) == Ok(t) && Process(c, ctx, fb) == Ok(f)
    ensures If(c, ctx, [N(cn), tb, fb]) ==
            Ok(Out(IfText(if '\n' in ct then "(" + Chomp(ct) + ")" else ct, t, f, cn.kind in AssignNodes), []))
  {
    var exp := [N(cn), tb, fb];
    assert Shift(exp) == (N(cn), [tb, fb]);
    assert Shift([tb, fb]) == (tb, [fb]);
    assert Shift([fb]) == (fb, []);
  }

  /** An assignment-kind condition never yields a one-line form. */
  lemma AssignConditionExpands(c: Config, ctx: seq<string>, cn: Node, tb: Child, fb: Child)
    requires cn.kind in AssignNodes
    requires Process(c, ctx, N(cn)).Ok? && Process(c, ctx, N(cn)).value.Some?
    requires Process(c, ctx, tb).Ok? && Process(c, ctx, fb).Ok?
    ensures If(c, ctx, [N(cn), tb, fb]).Ok? && '\n' in If(c, ctx, [N(cn), tb, fb]).value.text
  {
    var ct := Process(c, ctx, N(cn)).value.value;
    IfComposes(c, ctx, cn, tb, fb, ct, Process(c, ctx, tb).value, Process(c, ctx, fb).value);
    var cond := if '\n' in ct then "(" + Chomp(ct) + ")" else ct;
    OneLineIff(cond, Process(c, ctx, tb).value, Process(c, ctx, fb).value, true);
  }
}
