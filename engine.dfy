/**
 * The renderer as the source runs it: a processor object holding the options,
 * the call-name stack (`@calls`) and the context stack, whose rule methods shift
 * children off a local list and build their text step by step. Every method is
 * proved to compute exactly what the matching function of `Render` specifies,
 * and to leave both stacks as it found them when it succeeds.
 */
module Engine {
  import opened Results
  import opened Text
  import opened Sexp
  import opened Options
  import Spec = Render

  class Processor {
    /** `hash_syntax`, `no_paren_methods` and the abstract parts, fixed at construction. */
    const cfg: Config
    /** `@calls`: the names of the calls being rendered. */
    var calls: seq<Child>
    /** `context`: the kinds of the nodes being processed, innermost first. */
    var context: seq<string>

    constructor (cfg: Config)
      ensures this.cfg == cfg && calls == [] && context == []
    {
      this.cfg := cfg;
      calls := [];
      context := [];
    }

    /** `Processor.new(option)`: validates the options, or fails with InvalidOption. */
    static method New(option: map<string, OptionValue>, unshown: (string, seq<Child>) -> string,
                      encodingCodes: map<int, string>) returns (r: Result<Processor>)
      ensures r.Ok? <==> NewConfig(option, unshown, encodingCodes).Ok?
      ensures r.Err? ==> r.error == InvalidOption
      ensures r.Ok? ==> fresh(r.value) && r.value.cfg == NewConfig(option, unshown, encodingCodes).value &&
                        r.value.calls == [] && r.value.context == []
    {
      var c := NewConfig(option, unshown, encodingCodes);
      if c.Err? { return Err(c.error); }
      var p := new Processor(c.value);
      return Ok(p);
    }

    /** `call_push`. */
    method CallPush(name: Child)
      modifies this
      ensures calls == old(calls) + [name] && context == old(context)
    {
      calls := calls + [name];
    }

    /** `call_pop`: the last pushed name, nil when there is none. */
    method CallPop() returns (name: Option<Child>)
      modifies this
      ensures old(calls) == [] ==> name == None && calls == []
      ensures old(calls) != [] ==> name == Some(old(calls)[|old(calls)| - 1]) && calls == old(calls)[..|old(calls)| - 1]
      ensures context == old(context)
    {
      if calls == [] { return None; }
      name := Some(calls[|calls| - 1]);
      calls := calls[..|calls| - 1];
    }

    /** Rewrite the whole tree, then process it from the top. */
    method Render(root: Child) returns (r: Result<Option<string>>)
      requires context == []
      modifies this
      ensures r == Spec.Render(cfg, root)
      ensures r.Ok? ==> context == [] && calls == old(calls)
    {
      var tree := Spec.Rewrite([], root);
      if tree.Err? { return Err(tree.error); }
      r := Process(tree.value);
    }

    /** `process`: push the kind, run its rule, insist the node is used up, pop. */
    method Process(x: Child) returns (r: Result<Option<string>>)
      modifies this
      decreases Weight(x), 9, 0
      ensures r == Spec.Process(cfg, old(context), x)
      ensures r.Ok? ==> context == old(context) && calls == old(calls)
    {
      match x
      case Nil => return Ok(None);
      case N(n) =>
        context := [n.kind] + context;
        var out := Dispatch(n);
        if out.Err? { return Err(out.error); }
        context := context[1..];
        if out.value.rest != [] { return Err(NotConsumed); }
        return Ok(Some(out.value.text));
      case _ => return Err(Malformed);
    }

    /** The `process_<kind>` method for `n.kind`. */
    method Dispatch(n: Node) returns (r: Result<Spec.Out>)
      modifies this
      decreases Weights(n.children) + 1, 8, 0
      ensures r == Spec.Dispatch(cfg, old(context), n)
      ensures r.Ok? ==> context == old(context) && calls == old(calls)
    {
      var k := n.kind;
      var e := n.children;
      if k == "arglist" { r := Arglist(e); }
      else if k == "args" { r := Args(e); }
      else if k == "array" { r := Array(e); }
      else if k == "attrasgn" { r := Attrasgn(e); }
      else if k == "begin" { r := Begin(e); }
      else if k == "block" { r := Block(e); }
      else if k == "block_pass" { r := BlockPass(e); }
      else if k == "break" { r := Break(e); }
      else if k == "call" { r := Call(e); }
      else if k == "case" { r := Case(e); }
      else if k == "cdecl" { r := Cdecl(e); }
      else if k == "class" { r := Class(n.comments, e); }
      else if k == "defn" { r := Defn(n.comments, e); }
      else if k == "defs" { r := Defs(n.comments, e); }
      else if k == "dregx" { r := Dregx(e); }
      else if k == "dregx_once" { r := DregxOnce(e); }
      else if k == "ensure" { r := Ensure(e); }
      else if k == "for" { r := For(e); }
      else if k == "hash" { r := Hash(e); }
      else if k == "iasgn" { r := Iasgn(e); }
      else if k == "if" { r := If(e); }
      else if k == "iter" { r := Iter(e); }
      else if k == "masgn" { r := Masgn(e); }
      else if k == "match2" { r := Match2(e); }
      else if k == "match3" { r := Match3(e); }
      else if k == "next" { r := Next(e); }
      else if k == "op_asgn1" { r := OpAsgn1(e); }
      else if k == "op_asgn2" { r := OpAsgn2(e); }
      else if k == "op_asgn_and" { r := OpAsgnAnd(e); }
      else if k == "op_asgn_or" { r := OpAsgnOr(e); }
      else if k == "resbody" { r := Resbody(e); }
      else if k == "rescue" { r := Rescue(e); }
      else if k == "return" { r := Return(e); }
      else if k == "sclass" { r := Sclass(e); }
      else if k == "splat" { r := Splat(e); }
      else if k == "super" { r := Super(e); }
      else if k == "svalue" { r := Svalue(e); }
      else if k == "undef" { r := Undef(e); }
      else if k == "when" { r := When(e); }
      else if k == "yield" { r := Yield(e); }
      else if k in Nodes { r := Ok(Spec.Out(cfg.unshown(k, e), [])); }
      else { r := Err(UnknownKind); }
    }

    // -------------------------------------------------------------------------
    // Processor utilities.

    /** `finish`: process every remaining child, dropping the nils. */
    method Finish(exp0: seq<Child>) returns (r: Result<seq<string>>)
      modifies this
      decreases Weights(exp0) + 1, 2, 0
      ensures r == Spec.Finish(cfg, old(context), exp0)
      ensures r.Ok? ==> context == old(context) && calls == old(calls)
    {
      var exp := exp0;
      var body: seq<string> := [];
      while exp != []
        invariant context == old(context) && calls == old(calls)
        invariant Weights(exp) <= Weights(exp0)
        invariant Spec.Finish(cfg, context, exp0) == Spec.Prepend(body, Spec.Finish(cfg, context, exp))
        decreases |exp|
      {
        var t := Process(exp[0]);
        if t.Err? { return Err(t.error); }
        var item := if t.value.Some? then [t.value.value] else [];
        assert Spec.Finish(cfg, context, exp) == Spec.Prepend(item, Spec.Finish(cfg, context, exp[1..]));
        Spec.PrependAssoc(body, item, Spec.Finish(cfg, context, exp[1..]));
        body := body + item;
        exp := exp[1..];
      }
      return Ok(body);
    }

    /** The body of a rule that processes every remaining child in turn. */
    method ProcessEach(exp0: seq<Child>) returns (r: Result<seq<string>>)
      modifies this
      decreases Weights(exp0) + 1, 2, 0
      ensures r == Spec.ProcessEach(cfg, old(context), exp0)
      ensures r.Ok? ==> context == old(context) && calls == old(calls)
    {
      var exp := exp0;
      var code: seq<string> := [];
      while exp != []
        invariant context == old(context) && calls == old(calls)
        invariant Weights(exp) <= Weights(exp0)
        invariant Spec.ProcessEach(cfg, context, exp0) == Spec.Prepend(code, Spec.ProcessEach(cfg, context, exp))
        decreases |exp|
      {
        var t := Process(exp[0]);
        if t.Err? { return Err(t.error); }
        var item := [Interp(t.value)];
        assert Spec.ProcessEach(cfg, context, exp) == Spec.Prepend(item, Spec.ProcessEach(cfg, context, exp[1..]));
        Spec.PrependAssoc(code, item, Spec.ProcessEach(cfg, context, exp[1..]));
        code := code + item;
        exp := exp[1..];
      }
      return Ok(code);
    }

    /** `cond_loop`. */
    method CondLoop(exp0: seq<Child>, name: string) returns (r: Result<Spec.Out>)
      modifies this
      decreases Weights(exp0) + 1, 7, 0
      ensures r == Spec.CondLoop(cfg, old(context), exp0, name)
      ensures r.Ok? ==> context == old(context) && calls == old(calls)
    {
      var exp := exp0;
      var cond := Process(First(exp));
      exp := Tail(exp);
      if cond.Err? { return Err(cond.error); }
      var body0 := Process(First(exp));
      exp := Tail(exp);
      if body0.Err? { return Err(body0.error); }
      var headControlled := First(exp);
      exp := Tail(exp);
      var body := if body0.value.Some? then [Chomp(Indent(body0.value.value))] else [];
      var code :=
        if Truthy(headControlled) then [name + " " + Interp(cond.value) + " do"] + body + ["end"]
        else ["begin"] + body + ["end " + name + " " + Interp(cond.value)];
      return Ok(Spec.Out(Join(code, LF), exp));
    }

    /** `util_dthing`. */
    method UtilDthing(kind: string, exp0: seq<Child>) returns (r: Result<Spec.Out>)
      modifies this
      decreases Weights(exp0) + 1, 5, 0
      ensures r == Spec.UtilDthing(cfg, old(context), kind, exp0)
      ensures r.Ok? ==> context == old(context) && calls == old(calls)
    {
      var exp := exp0;
      var first := First(exp);
      exp := Tail(exp);
      if !first.Str? { return Err(Malformed); }
      var head := Spec.DthingEscape(kind, first.text);
      if head.Err? { return Err(head.error); }
      ghost var parts0 := exp;
      var s: seq<string> := [];
      while exp != []
        invariant context == old(context) && calls == old(calls)
        invariant Weights(exp) <= Weights(parts0) <= Weights(exp0)
        invariant Spec.DthingParts(cfg, context, kind, parts0) ==
                  Spec.Prepend(s, Spec.DthingParts(cfg, context, kind, exp))
        decreases |exp|
      {
        var pt := exp[0];
        var part: string;
        if IsNodeOf(pt, "str") {
          var last := LastElem(pt.node);
          if !last.Str? { return Err(Malformed); }
          var lit := Spec.DthingEscape(kind, last.text);
          if lit.Err? { return Err(lit.error); }
          part := lit.value;
        } else if IsNodeOf(pt, "evstr") {
          var t := Process(pt);
          if t.Err? { return Err(t.error); }
          part := "#{" + Interp(t.value) + "}";
        } else {
          return Err(Malformed);
        }
        assert Spec.DthingParts(cfg, context, kind, exp) ==
               Spec.Prepend([part], Spec.DthingParts(cfg, context, kind, exp[1..]));
        Spec.PrependAssoc(s, [part], Spec.DthingParts(cfg, context, kind, exp[1..]));
        s := s + [part];
        exp := exp[1..];
      }
      return Ok(Spec.Out(head.value + Join(s, ""), exp));
    }

    /** `util_module_or_class`. */
    method UtilModuleOrClass(exp0: seq<Child>, isClass: bool) returns (r: Result<Spec.Out>)
      modifies this
      decreases Weights(exp0) + 1, 6, 0
      ensures r == Spec.ModuleOrClass(cfg, old(context), exp0, isClass)
      ensures r.Ok? ==> context == old(context) && calls == old(calls)
    {
      var exp := exp0;
      var nameChild := First(exp);
      exp := Tail(exp);
      var name: string;
      if nameChild.N? {
        var t := Process(nameChild);
        if t.Err? { return Err(t.error); }
        name := Interp(t.value);
      } else {
        name := ToS(nameChild).value;
      }
      var superText := "";
      if isClass {
        var superk := Process(First(exp));
        exp := Tail(exp);
        if superk.Err? { return Err(superk.error); }
        if superk.value.Some? { superText := " < " + superk.value.value; }
      }
      ghost var body0 := exp;
      var body: seq<string> := [];
      while exp != []
        invariant context == old(context) && calls == old(calls)
        invariant Weights(exp) <= Weights(body0) <= Weights(exp0)
        invariant Spec.ModuleBody(cfg, context, body0) == Spec.Prepend(body, Spec.ModuleBody(cfg, context, exp))
        decreases |exp|
      {
        var code := Process(exp[0]);
        if code.Err? { return Err(code.error); }
        var item := if code.value.Some? && Chomp(code.value.value) != "" then [Chomp(code.value.value)] else [];
        assert Spec.ModuleBody(cfg, context, exp) == Spec.Prepend(item, Spec.ModuleBody(cfg, context, exp[1..]));
        Spec.PrependAssoc(body, item, Spec.ModuleBody(cfg, context, exp[1..]));
        body := body + item;
        exp := exp[1..];
      }
      var bodyText := if body == [] then "" else Indent(Join(body, "\n\n")) + LF;
      return Ok(Spec.Out(name + superText + LF + bodyText + "end", exp));
    }

    // -------------------------------------------------------------------------
    // Rules.

    /** `Arglist#to_s`. */
    method Arglist(exp0: seq<Child>) returns (r: Result<Spec.Out>)
      modifies this
      decreases Weights(exp0) + 1, 6, 0
      ensures r == Spec.Arglist(cfg, old(context), exp0)
      ensures r.Ok? ==> context == old(context) && calls == old(calls)
    {
      var exp := exp0;
      var code: seq<string> := [];
      while exp != []
        invariant context == old(context) && calls == old(calls)
        invariant Weights(exp) <= Weights(exp0)
        invariant Spec.ArglistCode(cfg, context, exp0) == Spec.Prepend(code, Spec.ArglistCode(cfg, context, exp))
        decreases |exp|
      {
        var arg := exp[0];
        var kind := KindOf(arg);
        if kind.Err? { return Err(kind.error); }
        var argCode := Process(arg);
        if argCode.Err? { return Err(argCode.error); }
        var item := if kind.value == "rescue" then "(" + Interp(argCode.value) + ")" else Interp(argCode.value);
        assert Spec.ArglistCode(cfg, context, exp) == Spec.Prepend([item], Spec.ArglistCode(cfg, context, exp[1..]));
        Spec.PrependAssoc(code, [item], Spec.ArglistCode(cfg, context, exp[1..]));
        code := code + [item];
        exp := exp[1..];
      }
      return Ok(Spec.Out(Join(code, ", "), exp));
    }

    /** `Args#to_s`. */
    method Args(exp0: seq<Child>) returns (r: Result<Spec.Out>)
      modifies this
      decreases Weights(exp0) + 1, 7, 0
      ensures r == Spec.Args(cfg, old(context), exp0)
      ensures r.Ok? ==> context == old(context) && calls == old(calls)
    {
      var exp := exp0;
      var args: seq<string> := [];
      while exp != []
        invariant context == old(context) && calls == old(calls)
        invariant Weights(exp) <= Weights(exp0)
        invariant Spec.ArgsItems(cfg, context, exp0) == Spec.Prepend(args, Spec.ArgsItems(cfg, context, exp))
        decreases |exp|
      {
        WeightOfElement(exp, 0);
        var item := ArgItem(exp[0]);
        if item.Err? { return Err(item.error); }
        assert Spec.ArgsItems(cfg, context, exp) == Spec.Prepend([item.value], Spec.ArgsItems(cfg, context, exp[1..]));
        Spec.PrependAssoc(args, [item.value], Spec.ArgsItems(cfg, context, exp[1..]));
        args := args + [item.value];
        exp := exp[1..];
      }
      return Ok(Spec.Out("(" + Join(args, ", ") + ")", exp));
    }

    /** One parameter of `Args#to_s`: a name, a default, a destructuring or a keyword. */
    method ArgItem(arg: Child) returns (r: Result<string>)
      modifies this
      decreases Weight(arg) + 1, 2, 0
      ensures r == Spec.ArgItem(cfg, old(context), arg)
      ensures r.Ok? ==> context == old(context) && calls == old(calls)
    {
      if arg.Sym? { return Ok(arg.name); }
      if IsNodeOf(arg, "lasgn") || IsNodeOf(arg, "masgn") {
        var t := Process(arg);
        if t.Err? { return Err(t.error); }
        return Ok(Interp(t.value));
      }
      if !IsNodeOf(arg, "kwarg") { return Err(Malformed); }
      Spec.ElemWeight(arg.node, 2);
      var k := ToS(Elem(arg.node, 1));
      if k.Err? { return Err(k.error); }
      var v := Process(Elem(arg.node, 2));
      if v.Err? { return Err(v.error); }
      return Ok(k.value + ": " + Interp(v.value));
    }

    /** `Array#to_s`. */
    method Array(exp0: seq<Child>) returns (r: Result<Spec.Out>)
      modifies this
      decreases Weights(exp0) + 1, 7, 0
      ensures r == Spec.Array(cfg, old(context), exp0)
      ensures r.Ok? ==> context == old(context) && calls == old(calls)
    {
      var a := Arglist(exp0);
      if a.Err? { return Err(a.error); }
      return Ok(Spec.Out("[" + a.value.text + "]", a.value.rest));
    }

    /** `Attrasgn#to_s`. */
    method Attrasgn(exp0: seq<Child>) returns (r: Result<Spec.Out>)
      modifies this
      decreases Weights(exp0) + 1, 7, 0
      ensures r == Spec.Attrasgn(cfg, old(context), exp0)
      ensures r.Ok? ==> context == old(context) && calls == old(calls)
    {
      var exp := exp0;
      var receiver := Process(First(exp));
      exp := Tail(exp);
      if receiver.Err? { return Err(receiver.error); }
      var name := First(exp);
      exp := Tail(exp);
      var rhs := Last(exp);
      exp := Init(exp);
      if name == Sym("[]=") {
        Spec.AttrasgnWeight(exp0);
        var args := Process(S("array", exp));
        if args.Err? { return Err(args.error); }
        var value := Process(rhs);
        if value.Err? { return Err(value.error); }
        return Ok(Spec.Out(Interp(receiver.value) + Interp(args.value) + " = " + Interp(value.value), []));
      }
      if exp != [] { return Err(Malformed); }
      var nameText := ToS(name);
      if nameText.Err? { return Err(nameText.error); }
      if !(Truthy(rhs) && !IsBare(rhs, "arglist")) { return Err(Malformed); }
      var value := Process(rhs);
      if value.Err? { return Err(value.error); }
      return Ok(Spec.Out(Interp(receiver.value) + "." + DropEqAtEol(nameText.value) + " = " + Interp(value.value), []));
    }

    /** `Begin#to_s`. */
    method Begin(exp0: seq<Child>) returns (r: Result<Spec.Out>)
      modifies this
      decreases Weights(exp0) + 1, 7, 0
      ensures r == Spec.Begin(cfg, old(context), exp0)
      ensures r.Ok? ==> context == old(context) && calls == old(calls)
    {
      var exp := exp0;
      var code: seq<string> := [];
      while exp != []
        invariant context == old(context) && calls == old(calls)
        invariant Weights(exp) <= Weights(exp0)
        invariant Spec.BeginCode(cfg, context, exp0) == Spec.Prepend(code, Spec.BeginCode(cfg, context, exp))
        decreases |exp|
      {
        var src := Process(exp[0]);
        if src.Err? { return Err(src.error); }
        var item := Spec.BeginPart(src.value);
        assert Spec.BeginCode(cfg, context, exp) == Spec.Prepend([item], Spec.BeginCode(cfg, context, exp[1..]));
        Spec.PrependAssoc(code, [item], Spec.BeginCode(cfg, context, exp[1..]));
        code := code + [item];
        exp := exp[1..];
      }
      return Ok(Spec.Out(Join(["begin"] + code + ["end"], LF), exp));
    }

    /** `Block#to_s`. */
    method Block(exp0: seq<Child>) returns (r: Result<Spec.Out>)
      modifies this
      decreases Weights(exp0) + 1, 6, 0
      ensures r == Spec.Block(cfg, old(context), exp0)
      ensures r.Ok? ==> context == old(context) && calls == old(calls)
    {
      var exp := if exp0 == [] then [Nil] else exp0;
      ghost var stmts := exp;
      var result: seq<string> := [];
      while exp != []
        invariant context == old(context) && calls == old(calls)
        invariant Weights(exp) <= Weights(stmts) <= Weights(exp0)
        invariant Spec.BlockParts(cfg, context, stmts) == Spec.Prepend(result, Spec.BlockParts(cfg, context, exp))
        decreases |exp|
      {
        var code := exp[0];
        var isNil := true;
        if code != Nil {
          var k := KindOf(code);
          if k.Err? { return Err(k.error); }
          isNil := k.value == "nil";
        }
        var part: string;
        if isNil {
          part := "# do nothing\n";
        } else {
          var t := Process(code);
          if t.Err? { return Err(t.error); }
          part := Interp(t.value);
        }
        assert Spec.BlockParts(cfg, context, exp) == Spec.Prepend([part], Spec.BlockParts(cfg, context, exp[1..]));
        Spec.PrependAssoc(result, [part], Spec.BlockParts(cfg, context, exp[1..]));
        result := result + [part];
        exp := exp[1..];
      }
      var text := Spec.Parenthesize(context, Join(result, LF));
      return Ok(Spec.Out(if StartsWith(text, "(") then text else text + LF, exp));
    }

    /** `BlockPass#to_s`. */
    method BlockPass(exp0: seq<Child>) returns (r: Result<Spec.Out>)
      modifies this
      decreases Weights(exp0) + 1, 7, 0
      ensures r == Spec.BlockPass(cfg, old(context), exp0)
      ensures r.Ok? ==> context == old(context) && calls == old(calls)
    {
      if |exp0| > 1 { return Err(Malformed); }
      var t := Process(First(exp0));
      if t.Err? { return Err(t.error); }
      return Ok(Spec.Out("&" + Interp(t.value), Tail(exp0)));
    }

    /** The body shared by `Break#to_s` and `Next#to_s`. */
    method Jump(keyword: string, exp0: seq<Child>) returns (r: Result<Spec.Out>)
      modifies this
      decreases Weights(exp0) + 1, 6, 0
      ensures r == Spec.Jump(cfg, old(context), keyword, exp0)
      ensures r.Ok? ==> context == old(context) && calls == old(calls)
    {
      if exp0 == [] { return Ok(Spec.Out(keyword, [])); }
      var v := Process(exp0[0]);
      if v.Err? { return Err(v.error); }
      return Ok(Spec.Out(if v.value.Some? then keyword + " " + v.value.value else keyword, exp0[1..]));
    }

    /** `Break#to_s`. */
    method Break(exp0: seq<Child>) returns (r: Result<Spec.Out>)
      modifies this
      decreases Weights(exp0) + 1, 7, 0
      ensures r == Spec.Break(cfg, old(context), exp0)
      ensures r.Ok? ==> context == old(context) && calls == old(calls)
    {
      r := Jump("break", exp0);
    }

    /** `Call#to_s`: the body, then `call_pop` in its `ensure`. */
    method Call(exp0: seq<Child>) returns (r: Result<Spec.Out>)
      modifies this
      decreases Weights(exp0) + 1, 7, 1
      ensures r == Spec.Call(cfg, old(context), exp0)
      ensures r.Ok? ==> context == old(context) && calls == old(calls)
    {
      r := CallBody(exp0);
      var _ := CallPop();
    }

    /** `Call#to_s` up to its `ensure`; on success exactly one name has been pushed. */
    method CallBody(exp0: seq<Child>) returns (r: Result<Spec.Out>)
      modifies this
      decreases Weights(exp0) + 1, 7, 0
      ensures r == Spec.Call(cfg, old(context), exp0)
      ensures r.Ok? ==> context == old(context) && |calls| == |old(calls)| + 1 && calls[..|old(calls)|] == old(calls)
    {
      var exp := exp0;
      var recvChild := First(exp);
      var recvKind := if recvChild == Nil then Ok("") else KindOf(recvChild);
      if recvKind.Err? { return Err(recvKind.error); }
      var recv0 := Process(First(exp));
      exp := Tail(exp);
      if recv0.Err? { return Err(recv0.error); }
      var receiver := if recvKind.value in AssignNodes then Some("(" + Interp(recv0.value) + ")") else recv0.value;
      var name := First(exp);
      exp := Tail(exp);
      var args0 := Spec.FlattenArglist(exp);
      if args0.Err? { return Err(args0.error); }
      CallPush(name);
      context := ["arglist"] + context;
      var args := CallArgs(name, args0.value);
      if args.Err? { return Err(args.error); }
      context := context[1..];
      var text := Spec.CallText(cfg, receiver, name, args.value);
      if text.Err? { return Err(text.error); }
      return Ok(Spec.Out(text.value, []));
    }

    /** The argument loop of `Call#to_s`; the caller has entered the `:arglist` context. */
    method CallArgs(name: Child, exp0: seq<Child>) returns (r: Result<seq<string>>)
      modifies this
      decreases Weights(exp0) + 1, 3, 0
      ensures r == Spec.CallArgs(cfg, old(context), name, exp0)
      ensures r.Ok? ==> context == old(context) && calls == old(calls)
    {
      var exp := exp0;
      var args: seq<string> := [];
      while exp != []
        invariant context == old(context) && calls == old(calls)
        invariant Weights(exp) <= Weights(exp0)
        invariant Spec.CallArgs(cfg, context, name, exp0) == Spec.Prepend(args, Spec.CallArgs(cfg, context, name, exp))
        decreases |exp|
      {
        var argType := KindOf(exp[0]);
        if argType.Err? { return Err(argType.error); }
        var isEmptyHash := IsBare(exp[0], "hash");
        var t := Process(exp[0]);
        if t.Err? { return Err(t.error); }
        var arg := Interp(t.value);
        var rest := exp[1..];
        if arg == "" {
          exp := rest;
          continue;
        }
        var candidate := argType.value == "hash" && !(name.Sym? && name.name in Binary) && !isEmptyHash;
        var follows := if candidate then Spec.EndOrSplat(rest) else Ok(false);
        if follows.Err? { return Err(follows.error); }
        var stripped := if candidate && follows.value then Interp(Trim(arg, 2)) else arg;
        var item := if argType.value in AssignNodes then "(" + stripped + ")" else stripped;
        assert Spec.CallArgs(cfg, context, name, exp) == Spec.Prepend([item], Spec.CallArgs(cfg, context, name, rest));
        Spec.PrependAssoc(args, [item], Spec.CallArgs(cfg, context, name, rest));
        args := args + [item];
        exp := rest;
      }
      return Ok(args);
    }

    /** `Case#to_s`. */
    method Case(exp0: seq<Child>) returns (r: Result<Spec.Out>)
      modifies this
      decreases Weights(exp0) + 1, 7, 0
      ensures r == Spec.Case(cfg, old(context), exp0)
      ensures r.Ok? ==> context == old(context) && calls == old(calls)
    {
      var exp := exp0;
      var expr := Process(First(exp));
      exp := Tail(exp);
      if expr.Err? { return Err(expr.error); }
      var head := if expr.value.Some? then "case " + expr.value.value else "case";
      ghost var clauses0 := exp;
      var clauses: seq<string> := [];
      while exp != []
        invariant context == old(context) && calls == old(calls)
        invariant Weights(exp) <= Weights(clauses0) <= Weights(exp0)
        invariant Spec.CaseClauses(cfg, context, clauses0) == Spec.Prepend(clauses, Spec.CaseClauses(cfg, context, exp))
        decreases |exp|
      {
        var pt := exp[0];
        var isWhen := false;
        if Truthy(pt) {
          var k := KindOf(pt);
          if k.Err? { return Err(k.error); }
          isWhen := k.value == "when";
        }
        var t := Process(pt);
        if t.Err? { return Err(t.error); }
        var clause := if isWhen then Interp(t.value) else Spec.ElseClause(t.value);
        assert Spec.CaseClauses(cfg, context, exp) == Spec.Prepend([clause], Spec.CaseClauses(cfg, context, exp[1..]));
        Spec.PrependAssoc(clauses, [clause], Spec.CaseClauses(cfg, context, exp[1..]));
        clauses := clauses + [clause];
        exp := exp[1..];
      }
      return Ok(Spec.Out(Join([head] + clauses + ["end"], LF), exp));
    }

    /** `Cdecl#to_s`. */
    method Cdecl(exp0: seq<Child>) returns (r: Result<Spec.Out>)
      modifies this
      decreases Weights(exp0) + 1, 7, 0
      ensures r == Spec.Cdecl(cfg, old(context), exp0)
      ensures r.Ok? ==> context == old(context) && calls == old(calls)
    {
      var exp := exp0;
      var lhs := First(exp);
      exp := Tail(exp);
      var lhsText: string;
      if lhs.N? {
        var t := Process(lhs);
        if t.Err? { return Err(t.error); }
        lhsText := Interp(t.value);
      } else {
        lhsText := ToS(lhs).value;
      }
      if exp == [] { return Ok(Spec.Out(lhsText, [])); }
      var rhs := Process(exp[0]);
      if rhs.Err? { return Err(rhs.error); }
      return Ok(Spec.Out(lhsText + " = " + Interp(rhs.value), exp[1..]));
    }

    /** `Class#to_s`. */
    method Class(comments: string, exp0: seq<Child>) returns (r: Result<Spec.Out>)
      modifies this
      decreases Weights(exp0) + 1, 7, 0
      ensures r == Spec.Class(cfg, old(context), comments, exp0)
      ensures r.Ok? ==> context == old(context) && calls == old(calls)
    {
      var m := UtilModuleOrClass(exp0, true);
      if m.Err? { return Err(m.error); }
      return Ok(Spec.Out(comments + "class " + m.value.text, m.value.rest));
    }

    /** `Defn#to_s`: the accessor shorthand, or a full `def`. */
    method Defn(comments: string, exp0: seq<Child>) returns (r: Result<Spec.Out>)
      modifies this
      decreases Weights(exp0) + 1, 6, 0
      ensures r == Spec.Defn(cfg, old(context), comments, exp0)
      ensures r.Ok? ==> context == old(context) && calls == old(calls)
    {
      var type1 := KindOf(if |exp0| > 1 then exp0[1] else Nil);
      if type1.Err? { return Err(type1.error); }
      var type2 := if |exp0| > 2 && exp0[2].N? then exp0[2].node.kind else "";
      if |exp0| == 3 && type1.value == "args" && type2 in {"ivar", "iasgn", "attrset"} {
        var accessor := Spec.Accessor(exp0);
        if accessor.Err? { return Err(accessor.error); }
        if accessor.value.Some? { return Ok(Spec.Out(accessor.value.value, [])); }
      }
      r := FullDef(comments, exp0);
    }

    /** The full `def` of `Defn#to_s`. */
    method FullDef(comments: string, exp0: seq<Child>) returns (r: Result<Spec.Out>)
      modifies this
      decreases Weights(exp0) + 1, 5, 0
      ensures r == Spec.FullDef(cfg, old(context), comments, exp0)
      ensures r.Ok? ==> context == old(context) && calls == old(calls)
    {
      var exp := exp0;
      var name := First(exp);
      exp := Tail(exp);
      var args0 := Process(First(exp));
      exp := Tail(exp);
      if args0.Err? { return Err(args0.error); }
      var args := if args0.value == Some("()") then "" else Interp(args0.value);
      if |exp| == 1 && IsBare(exp[0], "nil") { exp := []; }
      var body := ProcessEach(exp);
      if body.Err? { return Err(body.error); }
      var nameText := ToS(name);
      if nameText.Err? { return Err(nameText.error); }
      return Ok(Spec.Out(Spec.DefText(comments, nameText.value, args, body.value), []));
    }

    /** `Defs#to_s`. */
    method Defs(comments: string, exp0: seq<Child>) returns (r: Result<Spec.Out>)
      modifies this
      decreases Weights(exp0) + 1, 7, 0
      ensures r == Spec.Defs(cfg, old(context), comments, exp0)
      ensures r.Ok? ==> context == old(context) && calls == old(calls)
    {
      var exp := exp0;
      var lhs := First(exp);
      exp := Tail(exp);
      var kind := KindOf(lhs);
      if kind.Err? { return Err(kind.error); }
      var name := First(exp);
      exp := Tail(exp);
      var l0 := Process(lhs);
      if l0.Err? { return Err(l0.error); }
      var l := if kind.value in BareReceivers then Interp(l0.value) else "(" + Interp(l0.value) + ")";
      var nameText := ToS(name);
      if nameText.Err? { return Err(nameText.error); }
      Spec.DefsWeight(exp0, l + "." + nameText.value);
      r := Defn(comments, [Str(l + "." + nameText.value)] + exp);
    }

    /** `Dregx#to_s`. */
    method Dregx(exp0: seq<Child>) returns (r: Result<Spec.Out>)
      modifies this
      decreases Weights(exp0) + 1, 6, 0
      ensures r == Spec.Dregx(cfg, old(context), exp0)
      ensures r.Ok? ==> context == old(context) && calls == old(calls)
    {
      if Last(exp0).Int? {
        var options := Spec.ReOpt(cfg, Last(exp0).i);
        WeightsPop(exp0);
        var d := UtilDthing("dregx", exp0[..|exp0| - 1]);
        if d.Err? { return Err(d.error); }
        return Ok(Spec.Out("/" + d.value.text + "/" + options, d.value.rest));
      }
      var d := UtilDthing("dregx", exp0);
      if d.Err? { return Err(d.error); }
      return Ok(Spec.Out("/" + d.value.text + "/", d.value.rest));
    }

    /** `DregxOnce#to_s`. */
    method DregxOnce(exp0: seq<Child>) returns (r: Result<Spec.Out>)
      modifies this
      decreases Weights(exp0) + 1, 7, 0
      ensures r == Spec.DregxOnce(cfg, old(context), exp0)
      ensures r.Ok? ==> context == old(context) && calls == old(calls)
    {
      var d := Dregx(exp0);
      if d.Err? { return Err(d.error); }
      return Ok(Spec.Out(d.value.text + "o", d.value.rest));
    }

    /** `Ensure#to_s`. */
    method Ensure(exp0: seq<Child>) returns (r: Result<Spec.Out>)
      modifies this
      decreases Weights(exp0) + 1, 7, 0
      ensures r == Spec.Ensure(cfg, old(context), exp0)
      ensures r.Ok? ==> context == old(context) && calls == old(calls)
    {
      var exp := exp0;
      var body := Process(First(exp));
      exp := Tail(exp);
      if body.Err? { return Err(body.error); }
      var ensChild := First(exp);
      exp := Tail(exp);
      var ens: Option<string> := None;
      if !IsBare(ensChild, "nil") {
        var t := Process(ensChild);
        if t.Err? { return Err(t.error); }
        ens := t.value;
      }
      if body.value.None? { return Err(Malformed); }
      return Ok(Spec.Out(Spec.EnsureText(body.value.value, ens), exp));
    }

    /** `For#to_s`. */
    method For(exp0: seq<Child>) returns (r: Result<Spec.Out>)
      modifies this
      decreases Weights(exp0) + 1, 7, 0
      ensures r == Spec.For(cfg, old(context), exp0)
      ensures r.Ok? ==> context == old(context) && calls == old(calls)
    {
      var exp := exp0;
      var recv := Process(First(exp));
      exp := Tail(exp);
      if recv.Err? { return Err(recv.error); }
      var iter := Process(First(exp));
      exp := Tail(exp);
      if iter.Err? { return Err(iter.error); }
      var body: Option<string> := None;
      if exp != [] {
        var b := Process(exp[0]);
        if b.Err? { return Err(b.error); }
        body := b.value;
        exp := exp[1..];
      }
      var lines := ["for " + Interp(iter.value) + " in " + Interp(recv.value) + " do",
                    Indent(if body.Some? then body.value else "# do nothing"),
                    "end"];
      return Ok(Spec.Out(Join(lines, LF), exp));
    }

    /** `Hash#to_s`. */
    method Hash(exp0: seq<Child>) returns (r: Result<Spec.Out>)
      modifies this
      decreases Weights(exp0) + 1, 7, 0
      ensures r == Spec.Hash(cfg, old(context), exp0)
      ensures r.Ok? ==> context == old(context) && calls == old(calls)
    {
      var exp := exp0;
      var result: seq<string> := [];
      while exp != []
        invariant context == old(context) && calls == old(calls)
        invariant Weights(exp) <= Weights(exp0)
        invariant Spec.HashEntries(cfg, context, exp0) == Spec.Prepend(result, Spec.HashEntries(cfg, context, exp))
        decreases |exp|
      {
        var key := exp[0];
        var t := KindOf(key);
        if t.Err? { return Err(t.error); }
        var lhs := Process(key);
        if lhs.Err? { return Err(lhs.error); }
        var entry: string;
        var rest: seq<Child>;
        if t.value == "kwsplat" {
          entry := Interp(lhs.value);
          rest := exp[1..];
        } else {
          var value := First(exp[1..]);
          rest := Tail(exp[1..]);
          var vt := KindOf(value);
          if vt.Err? { return Err(vt.error); }
          var v := Process(value);
          if v.Err? { return Err(v.error); }
          entry := Spec.HashEntry(cfg, Spec.Ruby19HashKey(key), Interp(lhs.value), vt.value, Interp(v.value));
        }
        assert Spec.HashEntries(cfg, context, exp) == Spec.Prepend([entry], Spec.HashEntries(cfg, context, rest));
        Spec.PrependAssoc(result, [entry], Spec.HashEntries(cfg, context, rest));
        result := result + [entry];
        exp := rest;
      }
      return Ok(Spec.Out(if result == [] then "{}" else "{ " + Join(result, ", ") + " }", exp));
    }

    /** `Iasgn#to_s`. */
    method Iasgn(exp0: seq<Child>) returns (r: Result<Spec.Out>)
      modifies this
      decreases Weights(exp0) + 1, 7, 0
      ensures r == Spec.Iasgn(cfg, old(context), exp0)
      ensures r.Ok? ==> context == old(context) && calls == old(calls)
    {
      var exp := exp0;
      var lhs := ToS(First(exp));
      exp := Tail(exp);
      if lhs.Err? { return Err(lhs.error); }
      if exp == [] { return Ok(Spec.Out(lhs.value, [])); }
      var v := Process(exp[0]);
      if v.Err? { return Err(v.error); }
      return Ok(Spec.Out(lhs.value + " = " + Interp(v.value), exp[1..]));
    }

    /** `If#to_s`. */
    method If(exp0: seq<Child>) returns (r: Result<Spec.Out>)
      modifies this
      decreases Weights(exp0) + 1, 7, 0
      ensures r == Spec.If(cfg, old(context), exp0)
      ensures r.Ok? ==> context == old(context) && calls == old(calls)
    {
      var exp := exp0;
      var firstKind := KindOf(First(exp));
      if firstKind.Err? { return Err(firstKind.error); }
      var c := Process(First(exp));
      exp := Tail(exp);
      if c.Err? { return Err(c.error); }
      var t := Process(First(exp));
      exp := Tail(exp);
      if t.Err? { return Err(t.error); }
      var f := Process(First(exp));
      exp := Tail(exp);
      if f.Err? { return Err(f.error); }
      var cond := Interp(c.value);
      if '\n' in cond { cond := "(" + Chomp(cond) + ")"; }
      return Ok(Spec.Out(Spec.IfText(cond, t.value, f.value, firstKind.value in AssignNodes), exp));
    }

    /** The block parameters of `Iter#to_s`. */
    method IterArgs(args: Child) returns (r: Result<string>)
      modifies this
      decreases Weight(args) + 1, 2, 0
      ensures r == Spec.IterArgs(cfg, old(context), args)
      ensures r.Ok? ==> context == old(context) && calls == old(calls)
    {
      if args == Int(0) { return Ok(""); }
      var t := Process(args);
      if t.Err? { return Err(t.error); }
      if t.value.None? { return Err(Malformed); }
      return Ok(" |" + Interp(Trim(t.value.value, 1)) + "|");
    }

    /** `Iter#to_s`. */
    method Iter(exp0: seq<Child>) returns (r: Result<Spec.Out>)
      modifies this
      decreases Weights(exp0) + 1, 7, 0
      ensures r == Spec.Iter(cfg, old(context), exp0)
      ensures r.Ok? ==> context == old(context) && calls == old(calls)
    {
      var exp := exp0;
      var callChild := First(exp);
      exp := Tail(exp);
      if !callChild.N? { return Err(Malformed); }
      var iter := Process(callChild);
      if iter.Err? { return Err(iter.error); }
      var argsChild := First(exp);
      exp := Tail(exp);
      var body: Option<string> := None;
      if exp != [] {
        var b := Process(exp[0]);
        if b.Err? { return Err(b.error); }
        body := b.value;
        exp := exp[1..];
      }
      var args := IterArgs(argsChild);
      if args.Err? { return Err(args.error); }
      return Ok(Spec.Out(Spec.IterText(Interp(iter.value), |callChild.node.children| > 2, args.value, body), exp));
    }

    /** `Masgn#to_s`. */
    method Masgn(exp0: seq<Child>) returns (r: Result<Spec.Out>)
      modifies this
      decreases Weights(exp0) + 1, 7, 0
      ensures r == Spec.Masgn(cfg, old(context), exp0)
      ensures r.Ok? ==> context == old(context) && calls == old(calls)
    {
      var exp := exp0;
      var f := First(exp);
      if f.Sym? {
        var parts := Spec.ToSEach(exp);
        if parts.Err? { return Err(parts.error); }
        return Ok(Spec.Out("(" + Join(parts.value, ", ") + ")", []));
      }
      if !f.N? { return Err(Malformed); }
      var lhs := First(exp);
      exp := Tail(exp);
      var rhs := First(exp);
      exp := Tail(exp);
      if lhs.node.kind != "array" { return Err(Malformed); }
      var targets := lhs.node.children;
      var lhsCode: seq<string> := [];
      while targets != []
        invariant context == old(context) && calls == old(calls)
        invariant Weights(targets) <= Weights(lhs.node.children)
        invariant Spec.MasgnTargets(cfg, context, lhs.node.children) ==
                  Spec.Prepend(lhsCode, Spec.MasgnTargets(cfg, context, targets))
        decreases |targets|
      {
        var l := targets[0];
        var k := KindOf(l);
        if k.Err? { return Err(k.error); }
        var t := Process(l);
        if t.Err? { return Err(t.error); }
        var item := if k.value == "masgn" then "(" + Interp(t.value) + ")" else Interp(t.value);
        assert Spec.MasgnTargets(cfg, context, targets) ==
               Spec.Prepend([item], Spec.MasgnTargets(cfg, context, targets[1..]));
        Spec.PrependAssoc(lhsCode, [item], Spec.MasgnTargets(cfg, context, targets[1..]));
        lhsCode := lhsCode + [item];
        targets := targets[1..];
      }
      if rhs == Nil { return Ok(Spec.Out(Join(lhsCode, ", "), exp)); }
      var t := KindOf(rhs);
      if t.Err? { return Err(t.error); }
      var rhsCode := Process(rhs);
      if rhsCode.Err? { return Err(rhsCode.error); }
      var rhsText := if t.value == "array" then Interp(Trim(Interp(rhsCode.value), 1)) else Interp(rhsCode.value);
      return Ok(Spec.Out(Join(lhsCode, ", ") + " = " + rhsText, exp));
    }

    /** `Match2#to_s`. */
    method Match2(exp0: seq<Child>) returns (r: Result<Spec.Out>)
      modifies this
      decreases Weights(exp0) + 1, 7, 0
      ensures r == Spec.Match2(cfg, old(context), exp0)
      ensures r.Ok? ==> context == old(context) && calls == old(calls)
    {
      var exp := exp0;
      var lhs := Process(First(exp));
      exp := Tail(exp);
      if lhs.Err? { return Err(lhs.error); }
      var rhs := Process(First(exp));
      exp := Tail(exp);
      if rhs.Err? { return Err(rhs.error); }
      return Ok(Spec.Out(Interp(lhs.value) + " =~ " + Interp(rhs.value), exp));
    }

    /** `Match3#to_s`. */
    method Match3(exp0: seq<Child>) returns (r: Result<Spec.Out>)
      modifies this
      decreases Weights(exp0) + 1, 7, 0
      ensures r == Spec.Match3(cfg, old(context), exp0)
      ensures r.Ok? ==> context == old(context) && calls == old(calls)
    {
      var exp := exp0;
      var rhs := Process(First(exp));
      exp := Tail(exp);
      if rhs.Err? { return Err(rhs.error); }
      var leftType := KindOf(First(exp));
      if leftType.Err? { return Err(leftType.error); }
      var lhs := Process(First(exp));
      exp := Tail(exp);
      if lhs.Err? { return Err(lhs.error); }
      var l := if leftType.value in AssignNodes then "(" + Interp(lhs.value) + ")" else Interp(lhs.value);
      return Ok(Spec.Out(l + " =~ " + Interp(rhs.value), exp));
    }

    /** `Next#to_s`. */
    method Next(exp0: seq<Child>) returns (r: Result<Spec.Out>)
      modifies this
      decreases Weights(exp0) + 1, 7, 0
      ensures r == Spec.Next(cfg, old(context), exp0)
      ensures r.Ok? ==> context == old(context) && calls == old(calls)
    {
      r := Jump("next", exp0);
    }

    /** `OpAsgn1#to_s`. */
    method OpAsgn1(exp0: seq<Child>) returns (r: Result<Spec.Out>)
      modifies this
      decreases Weights(exp0) + 1, 7, 0
      ensures r == Spec.OpAsgn1(cfg, old(context), exp0)
      ensures r.Ok? ==> context == old(context) && calls == old(calls)
    {
      var exp := exp0;
      var lhs := Process(First(exp));
      exp := Tail(exp);
      if lhs.Err? { return Err(lhs.error); }
      var index := Process(First(exp));
      exp := Tail(exp);
      if index.Err? { return Err(index.error); }
      var msg := First(exp);
      exp := Tail(exp);
      WeightsSuffix(exp0, |exp0| - |exp|);
      var rhs := Process(First(exp));
      exp := Tail(exp);
      if rhs.Err? { return Err(rhs.error); }
      var msgText := ToS(msg);
      if msgText.Err? { return Err(msgText.error); }
      return Ok(Spec.Out(Interp(lhs.value) + "[" + Interp(index.value) + "] " + msgText.value + "= " + Interp(rhs.value), exp));
    }

    /** `OpAsgn2#to_s`. */
    method OpAsgn2(exp0: seq<Child>) returns (r: Result<Spec.Out>)
      modifies this
      decreases Weights(exp0) + 1, 7, 0
      ensures r == Spec.OpAsgn2(cfg, old(context), exp0)
      ensures r.Ok? ==> context == old(context) && calls == old(calls)
    {
      var exp := exp0;
      var lhs := Process(First(exp));
      exp := Tail(exp);
      if lhs.Err? { return Err(lhs.error); }
      var attr := ToS(First(exp));
      exp := Tail(exp);
      if attr.Err? { return Err(attr.error); }
      var msg := First(exp);
      exp := Tail(exp);
      WeightsSuffix(exp0, |exp0| - |exp|);
      var rhs := Process(First(exp));
      exp := Tail(exp);
      if rhs.Err? { return Err(rhs.error); }
      var msgText := ToS(msg);
      if msgText.Err? { return Err(msgText.error); }
      return Ok(Spec.Out(Interp(lhs.value) + "." + DropLast(attr.value) + " " + msgText.value + "= " + Interp(rhs.value), exp));
    }

    /** The body shared by `OpAsgnAnd#to_s` and `OpAsgnOr#to_s`. */
    method OpAsgnLogical(op: string, exp0: seq<Child>) returns (r: Result<Spec.Out>)
      modifies this
      decreases Weights(exp0) + 1, 6, 0
      ensures r == Spec.OpAsgnLogical(cfg, old(context), op, exp0)
      ensures r.Ok? ==> context == old(context) && calls == old(calls)
    {
      var exp := Tail(exp0);
      var t := Process(First(exp));
      exp := Tail(exp);
      if t.Err? { return Err(t.error); }
      if t.value.None? { return Err(Malformed); }
      return Ok(Spec.Out(ReplaceFirstEq(t.value.value, op), exp));
    }

    /** `OpAsgnAnd#to_s`. */
    method OpAsgnAnd(exp0: seq<Child>) returns (r: Result<Spec.Out>)
      modifies this
      decreases Weights(exp0) + 1, 7, 0
      ensures r == Spec.OpAsgnAnd(cfg, old(context), exp0)
      ensures r.Ok? ==> context == old(context) && calls == old(calls)
    {
      r := OpAsgnLogical("&&=", exp0);
    }

    /** `OpAsgnOr#to_s`. */
    method OpAsgnOr(exp0: seq<Child>) returns (r: Result<Spec.Out>)
      modifies this
      decreases Weights(exp0) + 1, 7, 0
      ensures r == Spec.OpAsgnOr(cfg, old(context), exp0)
      ensures r.Ok? ==> context == old(context) && calls == old(calls)
    {
      r := OpAsgnLogical("||=", exp0);
    }

    /** `Resbody#to_s`. */
    method Resbody(exp0: seq<Child>) returns (r: Result<Spec.Out>)
      modifies this
      decreases Weights(exp0) + 1, 7, 0
      ensures r == Spec.Resbody(cfg, old(context), exp0)
      ensures r.Ok? ==> context == old(context) && calls == old(calls)
    {
      var exp := exp0;
      var args := First(exp);
      exp := Tail(exp);
      var body0 := Finish(exp);
      if body0.Err? { return Err(body0.error); }
      var body := if body0.value == [] then ["# do nothing"] else body0.value;
      if !args.N? { return Err(Malformed); }
      var kept := args.node.children;
      var name := FindNode(kept, "lasgn");
      if name.Err? { return Err(name.error); }
      if name.value.Some? {
        kept := RemoveKind(kept, "lasgn");
      } else {
        name := FindNode(kept, "iasgn");
        if name.Err? { return Err(name.error); }
        if name.value.Some? { kept := RemoveKind(kept, "iasgn"); }
      }
      var p := Process(N(Node(args.node.kind, kept, args.node.comments)));
      if p.Err? { return Err(p.error); }
      var classes := Trim(Interp(p.value), 1);
      if classes.None? { return Err(Malformed); }
      var binding := "";
      if name.value.Some? {
        var v := ToS(Elem(name.value.value, 1));
        if v.Err? { return Err(v.error); }
        binding := " => " + v.value;
      }
      return Ok(Spec.Out("rescue" + (if classes.value == "" then "" else " " + classes.value) + binding + "\n" +
                         Indent(Join(body, LF)), []));
    }

    /** `Rescue#to_s`. */
    method Rescue(exp0: seq<Child>) returns (r: Result<Spec.Out>)
      modifies this
      decreases Weights(exp0) + 1, 7, 0
      ensures r == Spec.Rescue(cfg, old(context), exp0)
      ensures r.Ok? ==> context == old(context) && calls == old(calls)
    {
      var f := KindOf(First(exp0));
      if f.Err? { return Err(f.error); }
      var body := "# do nothing";
      var exp := exp0;
      if f.value != "resbody" {
        var b := Process(exp0[0]);
        if b.Err? { return Err(b.error); }
        if b.value.Some? { body := b.value.value; }
        exp := exp0[1..];
      }
      r := RescueFrom(body, exp);
    }

    /** The else part and the clauses of `Rescue#to_s`. */
    method RescueFrom(body: string, exp0: seq<Child>) returns (r: Result<Spec.Out>)
      modifies this
      decreases Weights(exp0) + 1, 6, 0
      ensures r == Spec.RescueFrom(cfg, old(context), body, exp0)
      ensures r.Ok? ==> context == old(context) && calls == old(calls)
    {
      var exp := exp0;
      var l := KindOf(Last(exp));
      if l.Err? { return Err(l.error); }
      WeightsPop(exp);
      var els: Option<string> := None;
      if l.value != "resbody" {
        var e := Process(Last(exp));
        if e.Err? { return Err(e.error); }
        els := e.value;
        exp := exp[..|exp| - 1];
      }
      var clauses := RescueClauses(exp);
      if clauses.Err? { return Err(clauses.error); }
      return Ok(Spec.Out(Spec.RescueText(body, clauses.value.0, els, clauses.value.1), []));
    }

    /** The resbody loop of `Rescue#to_s`, `simple` updated before each clause is processed. */
    method RescueClauses(exp0: seq<Child>) returns (r: Result<(seq<string>, bool)>)
      modifies this
      decreases Weights(exp0) + 1, 3, 0
      ensures r == Spec.RescueClauses(cfg, old(context), exp0)
      ensures r.Ok? ==> context == old(context) && calls == old(calls)
    {
      var exp := exp0;
      var head := Spec.RescueSimpleHead(exp);
      if head.Err? { return Err(head.error); }
      var simple := head.value;
      var resbodies: seq<string> := [];
      while exp != []
        invariant context == old(context) && calls == old(calls)
        invariant Weights(exp) <= Weights(exp0)
        invariant exp != exp0 ==> |exp| < |exp0|
        invariant simple ==> |exp0| == 1 && IsNodeOf(exp0[0], "resbody")
        invariant exp == exp0 ==> simple == head.value
        invariant exp != exp0 ==> Spec.RescueSimple(exp0) == Ok(simple)
        invariant Spec.ProcessEach(cfg, context, exp0) == Spec.Prepend(resbodies, Spec.ProcessEach(cfg, context, exp))
        decreases |exp|
      {
        if simple {
          var s := Spec.ResbodySimple(exp[0].node);
          if s.Err? { return Err(s.error); }
          simple := s.value;
        }
        var p := Process(exp[0]);
        if p.Err? { return Err(p.error); }
        var item := [Interp(p.value)];
        assert Spec.ProcessEach(cfg, context, exp) == Spec.Prepend(item, Spec.ProcessEach(cfg, context, exp[1..]));
        Spec.PrependAssoc(resbodies, item, Spec.ProcessEach(cfg, context, exp[1..]));
        resbodies := resbodies + item;
        exp := exp[1..];
      }
      return Ok((resbodies, simple));
    }

    /** `Return#to_s`. */
    method Return(exp0: seq<Child>) returns (r: Result<Spec.Out>)
      modifies this
      decreases Weights(exp0) + 1, 7, 0
      ensures r == Spec.Return(cfg, old(context), exp0)
      ensures r.Ok? ==> context == old(context) && calls == old(calls)
    {
      if exp0 == [] { return Ok(Spec.Out("return", [])); }
      var v := Process(exp0[0]);
      if v.Err? { return Err(v.error); }
      return Ok(Spec.Out("return " + Interp(v.value), exp0[1..]));
    }

    /** `Sclass#to_s`. */
    method Sclass(exp0: seq<Child>) returns (r: Result<Spec.Out>)
      modifies this
      decreases Weights(exp0) + 1, 7, 0
      ensures r == Spec.Sclass(cfg, old(context), exp0)
      ensures r.Ok? ==> context == old(context) && calls == old(calls)
    {
      var exp := exp0;
      var recv := Process(First(exp));
      exp := Tail(exp);
      if recv.Err? { return Err(recv.error); }
      var b := Block(exp);
      if b.Err? { return Err(b.error); }
      return Ok(Spec.Out("class << " + Interp(recv.value) + "\n" + Indent(b.value.text) + "\nend", b.value.rest));
    }

    /** `Splat#to_s`. */
    method Splat(exp0: seq<Child>) returns (r: Result<Spec.Out>)
      modifies this
      decreases Weights(exp0) + 1, 7, 0
      ensures r == Spec.Splat(cfg, old(context), exp0)
      ensures r.Ok? ==> context == old(context) && calls == old(calls)
    {
      if exp0 == [] { return Ok(Spec.Out("*", [])); }
      var v := Process(exp0[0]);
      if v.Err? { return Err(v.error); }
      return Ok(Spec.Out("*" + Interp(v.value), exp0[1..]));
    }

    /** `Super#to_s`. */
    method Super(exp0: seq<Child>) returns (r: Result<Spec.Out>)
      modifies this
      decreases Weights(exp0) + 1, 7, 0
      ensures r == Spec.Super(cfg, old(context), exp0)
      ensures r.Ok? ==> context == old(context) && calls == old(calls)
    {
      var args := Finish(exp0);
      if args.Err? { return Err(args.error); }
      return Ok(Spec.Out("super(" + Join(args.value, ", ") + ")", []));
    }

    /** `Svalue#to_s`. */
    method Svalue(exp0: seq<Child>) returns (r: Result<Spec.Out>)
      modifies this
      decreases Weights(exp0) + 1, 7, 0
      ensures r == Spec.Svalue(cfg, old(context), exp0)
      ensures r.Ok? ==> context == old(context) && calls == old(calls)
    {
      var code := ProcessEach(exp0);
      if code.Err? { return Err(code.error); }
      return Ok(Spec.Out(Join(code.value, ", "), []));
    }

    /** `Undef#to_s`. */
    method Undef(exp0: seq<Child>) returns (r: Result<Spec.Out>)
      modifies this
      decreases Weights(exp0) + 1, 7, 0
      ensures r == Spec.Undef(cfg, old(context), exp0)
      ensures r.Ok? ==> context == old(context) && calls == old(calls)
    {
      var t := Process(First(exp0));
      if t.Err? { return Err(t.error); }
      return Ok(Spec.Out("undef " + Interp(t.value), Tail(exp0)));
    }

    /** `When#to_s`; `finish` drains the rest, so its loop body runs at most once. */
    method When(exp0: seq<Child>) returns (r: Result<Spec.Out>)
      modifies this
      decreases Weights(exp0) + 1, 7, 0
      ensures r == Spec.When(cfg, old(context), exp0)
      ensures r.Ok? ==> context == old(context) && calls == old(calls)
    {
      var exp := exp0;
      if |context| >= 2 && context[1] == "array" {
        var val := Process(First(exp));
        exp := Tail(exp);
        if val.Err? { return Err(val.error); }
        exp := Tail(exp);
        return Ok(Spec.Out("*" + Interp(val.value), exp));
      }
      if exp == [] { return Ok(Spec.Out("", [])); }
      var c := Process(exp[0]);
      if c.Err? { return Err(c.error); }
      var stmts := Finish(exp[1..]);
      if stmts.Err? { return Err(stmts.error); }
      return Ok(Spec.Out(Spec.WhenText(Interp(Trim(Interp(c.value), 1)), stmts.value), []));
    }

    /** `Yield#to_s`. */
    method Yield(exp0: seq<Child>) returns (r: Result<Spec.Out>)
      modifies this
      decreases Weights(exp0) + 1, 7, 0
      ensures r == Spec.Yield(cfg, old(context), exp0)
      ensures r.Ok? ==> context == old(context) && calls == old(calls)
    {
      var args := ProcessEach(exp0);
      if args.Err? { return Err(args.error); }
      return Ok(Spec.Out(if args.value == [] then "yield" else "yield(" + Join(args.value, ", ") + ")", []));
    }
  }
}
