/**
 * What the assignment-like rules promise: `Masgn#to_s`, `Args#to_s`,
 * `Attrasgn#to_s`, `Defs#to_s`, `Cdecl#to_s`, `Iasgn#to_s`, `OpAsgn1#to_s`,
 * `OpAsgn2#to_s`, `OpAsgnAnd#to_s` and `OpAsgnOr#to_s`.
 */
module AssignFacts {
  import opened Results
  import opened Text
  import opened Sexp
  import opened Options
  import opened Render
  import ProcessorFacts

  // ---------------------------------------------------------------------------
  // Multiple assignment.

  /** Without a right-hand side the output is the targets joined by ", ". */
  lemma MasgnNoValue(c: Config, ctx: seq<string>, targets: seq<Child>, tt: seq<string>)
    requires MasgnTargets(c, ctx, targets) == Ok(tt)
    ensures Masgn(c, ctx, [S("array", targets)]) == Ok(Out(Join(tt, ", "), []))
  {
    assert Shift([S("array", targets)]) == (S("array", targets), []);
  }

  /** An `:array` right-hand side loses its brackets: `a, b = 1, 2`. */
  lemma MasgnArrayValue(c: Config, ctx: seq<string>, targets: seq<Child>, tt: seq<string>, vs: seq<Child>, vt: string)
    requires MasgnTargets(c, ctx, targets) == Ok(tt)
    requires Process(c, ctx, S("array", vs)) == Ok(Some("[" + vt + "]"))
    ensures Masgn(c, ctx, [S("array", targets), S("array", vs)]) == Ok(Out(Join(tt, ", ") + " = " + vt, []))
  {
    assert Shift([S("array", targets), S("array", vs)]) == (S("array", targets), [S("array", vs)]);
    assert Shift([S("array", vs)]) == (S("array", vs), []);
    var s := "[" + vt + "]";
    assert s[1..|s| - 1] == vt;
  }

  /** Any other right-hand side, a splat say, is used as rendered. */
  lemma MasgnOtherValue(c: Config, ctx: seq<string>, targets: seq<Child>, tt: seq<string>, v: Node, vt: string)
    requires v.kind != "array"
    requires MasgnTargets(c, ctx, targets) == Ok(tt) && Process(c, ctx, N(v)) == Ok(Some(vt))
    ensures Masgn(c, ctx, [S("array", targets), N(v)]) == Ok(Out(Join(tt, ", ") + " = " + vt, []))
  {
    assert Shift([S("array", targets), N(v)]) == (S("array", targets), [N(v)]);
    assert Shift([N(v)]) == (N(v), []);
  }

  /** A nested `:masgn` target is parenthesized; any other target is used as rendered. */
  lemma MasgnTargetStep(c: Config, ctx: seq<string>, x: Node, t: Option<string>, rest: seq<Child>)
    requires Process(c, ctx, N(x)) == Ok(t)
    ensures MasgnTargets(c, ctx, [N(x)] + rest) ==
            Prepend([if x.kind == "masgn" then "(" + Interp(t) + ")" else Interp(t)], MasgnTargets(c, ctx, rest))
  {
    assert ([N(x)] + rest)[0] == N(x) && ([N(x)] + rest)[1..] == rest;
  }

  /** The children `s(..., :a, :b, ...)` for the names `a, b, ...`. */
  function Syms(names: seq<string>): seq<Child>
    decreases |names|
  {
    if names == [] then [] else [Sym(names[0])] + Syms(names[1..])
  }

  /** `to_s` of a symbol is its name, so joining the symbols' texts joins the names. */
  lemma {:induction false} ToSEachSyms(names: seq<string>)
    ensures ToSEach(Syms(names)) == Ok(names)
    decreases |names|
  {
    if names != [] {
      var e := Syms(names);
      assert e[0] == Sym(names[0]) && e[1..] == Syms(names[1..]);
      ToSEachSyms(names[1..]);
      assert [names[0]] + names[1..] == names;
    }
  }

  /** A block parameter list of symbols is `(a, b, ...)`, the names in order. */
  lemma MasgnSymbols(c: Config, ctx: seq<string>, names: seq<string>)
    requires names != []
    ensures Masgn(c, ctx, Syms(names)) == Ok(Out("(" + Join(names, ", ") + ")", []))
  {
    assert First(Syms(names)) == Sym(names[0]);
    ToSEachSyms(names);
  }

  /** A sub-node first child must be an `:array`; a first child that is neither a node nor a symbol raises. */
  lemma MasgnErrors(c: Config, ctx: seq<string>, n: Node, x: Child, rest: seq<Child>)
    requires n.kind != "array" && !x.N? && !x.Sym?
    ensures Masgn(c, ctx, [N(n)] + rest) == Err(Malformed)
    ensures Masgn(c, ctx, [x] + rest) == Err(Malformed)
    ensures Masgn(c, ctx, []) == Err(Malformed)
  {
    assert ([N(n)] + rest)[0] == N(n);
    assert ([x] + rest)[0] == x;
  }

  // ---------------------------------------------------------------------------
  // Method parameters.

  /** A symbol parameter is written as it is, so a list of them gives back the names. */
  lemma {:induction false} ArgsItemsSyms(c: Config, ctx: seq<string>, names: seq<string>)
    ensures ArgsItems(c, ctx, Syms(names)) == Ok(names)
    decreases |names|
  {
    if names != [] {
      var e := Syms(names);
      assert e[0] == Sym(names[0]) && e[1..] == Syms(names[1..]);
      ArgsItemsSyms(c, ctx, names[1..]);
      assert [names[0]] + names[1..] == names;
    }
  }

  /** Symbol parameters are `(a, b, ...)`, the names in order; the list is parenthesized even when empty. */
  lemma ArgsSymbols(c: Config, ctx: seq<string>, names: seq<string>)
    ensures Args(c, ctx, Syms(names)) == Ok(Out("(" + Join(names, ", ") + ")", []))
    ensures Args(c, ctx, []) == Ok(Out("()", []))
  {
    ArgsItemsSyms(c, ctx, names);
    assert "(" + Join([], ", ") + ")" == "()";
  }

  /** `:lasgn`/`:masgn` parameters go to their own rules, `:kwarg` is `k: v`, anything else raises. */
  lemma ArgItemKinds(c: Config, ctx: seq<string>, n: Node, t: Option<string>, k: string, v: Node, vt: string, x: Child)
    requires Process(c, ctx, N(n)) == Ok(t) && Process(c, ctx, N(v)) == Ok(Some(vt))
    requires !x.Sym? && !IsNodeOf(x, "lasgn") && !IsNodeOf(x, "masgn") && !IsNodeOf(x, "kwarg")
    ensures n.kind == "lasgn" || n.kind == "masgn" ==> ArgItem(c, ctx, N(n)) == Ok(Interp(t))
    ensures ArgItem(c, ctx, Sym(k)) == Ok(k)
    ensures ArgItem(c, ctx, S("kwarg", [Sym(k), N(v)])) == Ok(k + ": " + vt)
    ensures ArgItem(c, ctx, x) == Err(Malformed)
  {
  }

  // ---------------------------------------------------------------------------
  // Attribute assignment.

  /** `[]=` is `recv[i, ...] = v`, for any list of indices, rendered as an array literal. */
  lemma AttrasgnIndex(c: Config, ctx: seq<string>, r: Child, idx: seq<Child>, v: Child,
                      rt: Option<string>, at: Option<string>, vt: Option<string>)
    requires Process(c, ctx, r) == Ok(rt) && Process(c, ctx, S("array", idx)) == Ok(at) && Process(c, ctx, v) == Ok(vt)
    ensures Attrasgn(c, ctx, [r, Sym("[]=")] + idx + [v]) == Ok(Out(Interp(rt) + Interp(at) + " = " + Interp(vt), []))
  {
    AttrasgnSplits(r, idx, v);
  }

  /** How `shift`, `shift` and `pop` take `[r, name] + idx + [v]` apart. */
  lemma AttrasgnSplits(r: Child, idx: seq<Child>, v: Child)
    ensures Shift([r, Sym("[]=")] + idx + [v]) == (r, [Sym("[]=")] + (idx + [v]))
    ensures Shift([Sym("[]=")] + (idx + [v])) == (Sym("[]="), idx + [v])
    ensures Pop(idx + [v]) == (v, idx)
  {
    var e2 := idx + [v];
    assert ([r, Sym("[]=")] + idx + [v])[1..] == [Sym("[]=")] + e2;
    assert ([Sym("[]=")] + e2)[1..] == e2;
    assert e2[..|e2| - 1] == idx;
  }

  /** Any other name loses its final "=": `recv.name = v`. */
  lemma AttrasgnSetter(c: Config, ctx: seq<string>, r: Child, name: string, v: Node,
                       rt: Option<string>, vt: Option<string>)
    requires '=' !in name && name != "[]" && v.kind != "arglist"
    requires Process(c, ctx, r) == Ok(rt) && Process(c, ctx, N(v)) == Ok(vt)
    ensures Attrasgn(c, ctx, [r, Sym(name + "="), N(v)]) == Ok(Out(Interp(rt) + "." + name + " = " + Interp(vt), []))
  {
    var exp := [r, Sym(name + "="), N(v)];
    assert Shift(exp) == (r, [Sym(name + "="), N(v)]);
    assert Shift([Sym(name + "="), N(v)]) == (Sym(name + "="), [N(v)]);
    assert Pop([N(v)]) == (N(v), []);
    SetterNotIndex(name);
    ProcessorFacts.DropEqAtEolSetter(name);
  }

  lemma SetterNotIndex(name: string)
    requires name != "[]"
    ensures name + "=" != "[]="
  {
    if |name| == 2 {
      assert (name + "=")[..2] == name;
      assert "[]="[..2] == "[]";
    }
  }

  /** Index arguments on another name, a missing value and an `s(:arglist)` value all raise. */
  lemma AttrasgnErrors(c: Config, ctx: seq<string>, r: Child, name: string, i: Child, v: Child)
    requires name != "[]=" && Process(c, ctx, r).Ok?
    ensures Attrasgn(c, ctx, [r, Sym(name), i, v]) == Err(Malformed)
    ensures Attrasgn(c, ctx, [r, Sym(name)]) == Err(Malformed)
    ensures Attrasgn(c, ctx, [r, Sym(name), S("arglist", [])]) == Err(Malformed)
  {
    assert Shift([r, Sym(name), i, v]) == (r, [Sym(name), i, v]);
    assert Shift([Sym(name), i, v]) == (Sym(name), [i, v]);
    assert [i, v][..1] == [i];
    assert Pop([i, v]) == (v, [i]);
    assert Shift([r, Sym(name)]) == (r, [Sym(name)]) && Shift([Sym(name)]) == (Sym(name), []);
    assert Shift([r, Sym(name), S("arglist", [])]) == (r, [Sym(name), S("arglist", [])]);
    assert Shift([Sym(name), S("arglist", [])]) == (Sym(name), [S("arglist", [])]);
    assert Pop([S("arglist", [])]) == (S("arglist", []), []);
  }

  // ---------------------------------------------------------------------------
  // Singleton method definitions.

  /** The receiver is bare for self and variables, parenthesized otherwise, and qualifies the name for the def rule. */
  lemma DefsQualified(c: Config, ctx: seq<string>, comments: string, l: Node, name: string, rest: seq<Child>, lt: string)
    requires Process(c, ctx, N(l)) == Ok(Some(lt))
    ensures Defs(c, ctx, comments, [N(l), Sym(name)] + rest) ==
            Defn(c, ctx, comments, [Str((if l.kind in BareReceivers then lt else "(" + lt + ")") + "." + name)] + rest)
  {
    var exp := [N(l), Sym(name)] + rest;
    assert exp[0] == N(l) && exp[1..] == [Sym(name)] + rest;
    assert ([Sym(name)] + rest)[0] == Sym(name) && ([Sym(name)] + rest)[1..] == rest;
  }

  // ---------------------------------------------------------------------------
  // Constant and instance-variable assignment.

  /** A symbol target is used as is: alone without a value, `X = v` with one. */
  lemma CdeclForms(c: Config, ctx: seq<string>, x: string, v: Child, vt: Option<string>, t: Node, tt: string)
    requires Process(c, ctx, v) == Ok(vt) && Process(c, ctx, N(t)) == Ok(Some(tt))
    ensures Cdecl(c, ctx, [Sym(x)]) == Ok(Out(x, []))
    ensures Cdecl(c, ctx, [Sym(x), v]) == Ok(Out(x + " = " + Interp(vt), []))
    ensures Cdecl(c, ctx, [N(t), v]) == Ok(Out(tt + " = " + Interp(vt), []))
  {
    assert Shift([Sym(x)]) == (Sym(x), []);
    assert Shift([Sym(x), v]) == (Sym(x), [v]) && [v][1..] == [];
    assert Shift([N(t), v]) == (N(t), [v]);
  }

  /** The name alone (a multiple-assignment target), or `@x = v`; `:iasgn` is no assignment kind. */
  lemma IasgnForms(c: Config, ctx: seq<string>, x: string, v: Child, vt: Option<string>)
    requires Process(c, ctx, v) == Ok(vt)
    ensures Iasgn(c, ctx, [Sym(x)]) == Ok(Out(x, []))
    ensures Iasgn(c, ctx, [Sym(x), v]) == Ok(Out(x + " = " + Interp(vt), []))
    ensures "iasgn" !in AssignNodes
  {
    assert Shift([Sym(x)]) == (Sym(x), []);
    assert Shift([Sym(x), v]) == (Sym(x), [v]) && [v][1..] == [];
  }

  // ---------------------------------------------------------------------------
  // Operator assignment.

  /** `lhs[index] op= rhs`, the four children taken in that order. */
  lemma OpAsgn1Form(c: Config, ctx: seq<string>, a: Child, b: Child, op: string, d: Child,
                    lt: Option<string>, it: Option<string>, dt: Option<string>)
    requires Process(c, ctx, a) == Ok(lt) && Process(c, ctx, b) == Ok(it) && Process(c, ctx, d) == Ok(dt)
    ensures OpAsgn1(c, ctx, [a, b, Sym(op), d]) ==
            Ok(Out(Interp(lt) + "[" + Interp(it) + "] " + op + "= " + Interp(dt), []))
  {
    OpAsgnShifts(a, b, Sym(op), d);
  }

  /** `lhs.attr op= rhs`, the attribute name without its last character. */
  lemma OpAsgn2Form(c: Config, ctx: seq<string>, a: Child, attr: string, op: string, d: Child,
                    lt: Option<string>, dt: Option<string>)
    requires Process(c, ctx, a) == Ok(lt) && Process(c, ctx, d) == Ok(dt)
    ensures OpAsgn2(c, ctx, [a, Sym(attr + "="), Sym(op), d]) ==
            Ok(Out(Interp(lt) + "." + attr + " " + op + "= " + Interp(dt), []))
  {
    OpAsgnShifts(a, Sym(attr + "="), Sym(op), d);
    assert DropLast(attr + "=") == attr;
  }

  lemma OpAsgnShifts(a: Child, b: Child, m: Child, d: Child)
    ensures Shift([a, b, m, d]) == (a, [b, m, d])
    ensures Shift([b, m, d]) == (b, [m, d])
    ensures Shift([m, d]) == (m, [d])
    ensures Shift([d]) == (d, [])
  {
  }

  /** Replacing the first "=" of an assignment whose left side has none. */
  lemma {:induction false} ReplaceFirstEqAt(pre: string, post: string, rep: string)
    requires '=' !in pre
    ensures ReplaceFirstEq(pre + "=" + post, rep) == pre + rep + post
    decreases |pre|
  {
    var s := pre + "=" + post;
    if |pre| == 0 {
      assert s == "=" + post && s[1..] == post;
    } else {
      assert s[0] == pre[0] && s[1..] == pre[1..] + "=" + post;
      ReplaceFirstEqAt(pre[1..], post, rep);
      assert [pre[0]] + (pre[1..] + rep + post) == pre + rep + post;
    }
  }

  /** The target reference is dropped unrendered, and the assignment's first "=" becomes "&&=" or "||=". */
  lemma OpAsgnLogicalForm(c: Config, ctx: seq<string>, x: Child, y: Child, asg: Child, pre: string, post: string)
    requires '=' !in pre && Process(c, ctx, asg) == Ok(Some(pre + "=" + post))
    ensures OpAsgnAnd(c, ctx, [x, asg]) == Ok(Out(pre + "&&=" + post, []))
    ensures OpAsgnOr(c, ctx, [x, asg]) == Ok(Out(pre + "||=" + post, []))
    ensures OpAsgnAnd(c, ctx, [x, asg]) == OpAsgnAnd(c, ctx, [y, asg])
    ensures "op_asgn_and" in AssignNodes && "op_asgn_or" in AssignNodes
  {
    assert Shift([x, asg]) == (x, [asg]) && Shift([asg]) == (asg, []);
    assert Shift([y, asg]) == (y, [asg]);
    ReplaceFirstEqAt(pre, post, "&&=");
    ReplaceFirstEqAt(pre, post, "||=");
  }

  /** `a = 1` as the assignment gives `a &&= 1` and `a ||= 1`. */
  lemma OpAsgnLogicalExample(c: Config, ctx: seq<string>, x: Child, asg: Child)
    requires Process(c, ctx, asg) == Ok(Some("a = 1"))
    ensures OpAsgnAnd(c, ctx, [x, asg]) == Ok(Out("a &&= 1", []))
    ensures OpAsgnOr(c, ctx, [x, asg]) == Ok(Out("a ||= 1", []))
  {
    assert "a = 1" == "a " + "=" + " 1";
    OpAsgnLogicalForm(c, ctx, x, x, asg, "a ", " 1");
    assert "a " + "&&=" + " 1" == "a &&= 1";
    assert "a " + "||=" + " 1" == "a ||= 1";
  }
}
