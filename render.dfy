/**
 * The renderer as pure functions: the rewrite pre-pass, the dispatcher
 * (`process`) and one function per rendering rule. A rule receives the
 * children of its node (the kind tag is already shifted off) and the context
 * stack with its own kind on top, and returns its text together with the
 * children it left unconsumed. These functions are the specification that
 * the methods of `Engine.Processor` are proved to follow.
 */
module Render {
  import opened Results
  import opened Text
  import opened Sexp
  import opened Options

  /** A rule's text and the children it did not consume. */
  datatype Out = Out(text: string, rest: seq<Child>)

  /** `Base::LINE_LENGTH`, the cutoff for one-liners. */
  const LineLength: nat := 78

  // ===========================================================================
  // Rewrite pass (`rewrite_*`): applied once to the whole tree, bottom-up,
  // before the top-level node is processed; a rewriter sees its parent's kind
  // at the top of the context.

  function Rewrite(ctx: seq<string>, x: Child): Result<Child>
    decreases Weight(x), 0, 0
  {
    match x
    case N(n) =>
      var kids :- RewriteAll([n.kind] + ctx, n.children);
      RewriteNode(ctx, Node(n.kind, kids, n.comments))
    case _ => Ok(x)
  }

  function RewriteAll(ctx: seq<string>, cs: seq<Child>): Result<seq<Child>>
    decreases Weights(cs), 1, |cs|
  {
    if cs == [] then Ok([])
    else
      var head :- Rewrite(ctx, cs[0]);
      var tail :- RewriteAll(ctx, cs[1..]);
      Ok([head] + tail)
  }

  /** The rewriter registered for the node's kind, if any. */
  function RewriteNode(ctx: seq<string>, n: Node): Result<Child> {
    if n.kind == "attrasgn" then RewriteAttrasgn(ctx, n)
    else if n.kind == "ensure" then Ok(RewriteEnsure(ctx, n))
    else if n.kind == "resbody" then RewriteResbody(n)
    else if n.kind == "rescue" then RewriteRescue(ctx, n)
    else if n.kind == "svalue" then RewriteSvalue(n)
    else Ok(N(n))
  }

  /** `rewrite_attrasgn`: inside `[:array, :masgn]` the node becomes a call without the "=". */
  function RewriteAttrasgn(ctx: seq<string>, n: Node): Result<Child> {
    if |ctx| >= 2 && ctx[0] == "array" && ctx[1] == "masgn" then
      var ch := n.children;
      var nameText :- ToS(if |ch| >= 2 then ch[1] else Nil);
      var name := Sym(DropEqAtEol(nameText));
      var kids := if |ch| >= 2 then ch[1 := name] else if |ch| == 1 then [ch[0], name] else [Nil, name];
      Ok(N(Node("call", kids, n.comments)))
    else Ok(N(n))
  }

  /** `rewrite_ensure`: wrapped in a begin unless the parent already is one. */
  function RewriteEnsure(ctx: seq<string>, n: Node): Child {
    if |ctx| > 0 && ctx[0] == "begin" then N(n) else N(Node("begin", [N(n)], n.comments))
  }

  /** `rewrite_resbody`: the exception list must be present and an `:array`. */
  function RewriteResbody(n: Node): Result<Child> {
    if |n.children| >= 2 && Truthy(n.children[0]) && IsNodeOf(n.children[0], "array") then Ok(N(n))
    else Err(Malformed)
  }

  /** Any resbody whose second child is a `:block` (`n[2] and n[2].node_type == :block`). */
  function AnyBlockBody(rbs: seq<Node>): Result<bool>
    decreases |rbs|
  {
    if rbs == [] then Ok(false)
    else
      var c := Elem(rbs[0], 2);
      if !Truthy(c) then AnyBlockBody(rbs[1..])
      else if !c.N? then Err(Malformed)
      else if c.node.kind == "block" then Ok(true)
      else AnyBlockBody(rbs[1..])
  }

  /** The `complex` flag of `rewrite_rescue`, with the short-circuits of its `||=` chain. */
  function RescueIsComplex(n: Node): Result<bool> {
    var ch := n.children;
    if |ch| > 2 then Ok(true)
    else
      var rb :- FindNode(ch, "resbody");
      if rb.None? then Err(Malformed)
      else
        var blk :- FindNode(rb.value.children, "block");
        if blk.Some? || |rb.value.children| > 2 then Ok(true)
        else
          var rbs := FindNodes(ch, "resbody");
          if exists i :: 0 <= i < |rbs| && !IsBare(Elem(rbs[i], 1), "array") then Ok(true)
          else if exists i :: 0 <= i < |rbs| && LastElem(rbs[i]) == Nil then Ok(true)
          else AnyBlockBody(rbs)
  }

  /** `rewrite_rescue`: a complex rescue is wrapped in a begin unless its parent is an ensure. */
  function RewriteRescue(ctx: seq<string>, n: Node): Result<Child> {
    var complex :- RescueIsComplex(n);
    var handled := |ctx| > 0 && ctx[0] == "ensure";
    if complex && !handled then Ok(N(Node("begin", [N(n)], n.comments))) else Ok(N(n))
  }

  /** `rewrite_svalue`: an array source is unwrapped, a splat source kept, anything else raises. */
  function RewriteSvalue(n: Node): Result<Child> {
    var last := Last(n.children);
    if !last.N? then Err(Malformed)
    else if last.node.kind == "array" then
      if n.children[0].N? then Ok(N(Node("svalue", n.children[0].node.children, n.comments)))
      else Err(Malformed)
    else if last.node.kind == "splat" then Ok(N(n))
    else Err(Malformed)
  }

  // ===========================================================================
  // Dispatcher.

  /** Rewrite the tree, then process it with an empty context. */
  function Render(c: Config, root: Child): Result<Option<string>> {
    var tree :- Rewrite([], root);
    Process(c, [], tree)
  }

  /**
   * `process`: nil gives nil; a sub-node is rendered by its kind's rule with
   * its kind pushed on the context, and must be left empty; anything else raises.
   */
  function Process(c: Config, ctx: seq<string>, x: Child): Result<Option<string>>
    decreases Weight(x), 9, 0
  {
    match x
    case Nil => Ok(None)
    case N(n) =>
      var out :- Dispatch(c, [n.kind] + ctx, n);
      if out.rest != [] then Err(NotConsumed) else Ok(Some(out.text))
    case _ => Err(Malformed)
  }

  /** The rule for `n.kind`, run with `ctx` (whose top is `n.kind`). */
  function Dispatch(c: Config, ctx: seq<string>, n: Node): Result<Out>
    decreases Weights(n.children) + 1, 8, 0
  {
    var k := n.kind;
    var e := n.children;
    if k == "arglist" then Arglist(c, ctx, e)
    else if k == "args" then Args(c, ctx, e)
    else if k == "array" then Array(c, ctx, e)
    else if k == "attrasgn" then Attrasgn(c, ctx, e)
    else if k == "begin" then Begin(c, ctx, e)
    else if k == "block" then Block(c, ctx, e)
    else if k == "block_pass" then BlockPass(c, ctx, e)
    else if k == "break" then Break(c, ctx, e)
    else if k == "call" then Call(c, ctx, e)
    else if k == "case" then Case(c, ctx, e)
    else if k == "cdecl" then Cdecl(c, ctx, e)
    else if k == "class" then Class(c, ctx, n.comments, e)
    else if k == "defn" then Defn(c, ctx, n.comments, e)
    else if k == "defs" then Defs(c, ctx, n.comments, e)
    else if k == "dregx" then Dregx(c, ctx, e)
    else if k == "dregx_once" then DregxOnce(c, ctx, e)
    else if k == "ensure" then Ensure(c, ctx, e)
    else if k == "for" then For(c, ctx, e)
    else if k == "hash" then Hash(c, ctx, e)
    else if k == "iasgn" then Iasgn(c, ctx, e)
    else if k == "if" then If(c, ctx, e)
    else if k == "iter" then Iter(c, ctx, e)
    else if k == "masgn" then Masgn(c, ctx, e)
    else if k == "match2" then Match2(c, ctx, e)
    else if k == "match3" then Match3(c, ctx, e)
    else if k == "next" then Next(c, ctx, e)
    else if k == "op_asgn1" then OpAsgn1(c, ctx, e)
    else if k == "op_asgn2" then OpAsgn2(c, ctx, e)
    else if k == "op_asgn_and" then OpAsgnAnd(c, ctx, e)
    else if k == "op_asgn_or" then OpAsgnOr(c, ctx, e)
    else if k == "resbody" then Resbody(c, ctx, e)
    else if k == "rescue" then Rescue(c, ctx, e)
    else if k == "return" then Return(c, ctx, e)
    else if k == "sclass" then Sclass(c, ctx, e)
    else if k == "splat" then Splat(c, ctx, e)
    else if k == "super" then Super(c, ctx, e)
    else if k == "svalue" then Svalue(c, ctx, e)
    else if k == "undef" then Undef(c, ctx, e)
    else if k == "when" then When(c, ctx, e)
    else if k == "yield" then Yield(c, ctx, e)
    else if k in Nodes then Ok(Out(c.unshown(k, e), []))
    else Err(UnknownKind)
  }

  /** `acc` in front of a successful list; errors pass through (the invariant of every accumulating loop). */
  function Prepend<T>(acc: seq<T>, r: Result<seq<T>>): (p: Result<seq<T>>)
    ensures acc == [] ==> p == r
    ensures r == Ok([]) ==> p == Ok(acc)
    ensures p.Ok? <==> r.Ok?
  {
    if r.Ok? then
      assert [] + r.value == r.value;
      assert acc + [] == acc;
      Ok(acc + r.value)
    else r
  }

  /** Prepending in two steps is prepending the concatenation. */
  lemma PrependAssoc<T>(acc: seq<T>, xs: seq<T>, r: Result<seq<T>>)
    ensures Prepend(acc, Prepend(xs, r)) == Prepend(acc + xs, r)
  {
    if r.Ok? {
      assert acc + (xs + r.value) == (acc + xs) + r.value;
    }
  }

  // ===========================================================================
  // Processor utilities.

  /** `finish`: process every remaining child and drop the nils. */
  function Finish(c: Config, ctx: seq<string>, exp: seq<Child>): Result<seq<string>>
    decreases Weights(exp) + 1, 2, |exp|
  {
    if exp == [] then Ok([])
    else
      var t :- Process(c, ctx, exp[0]);
      var more :- Finish(c, ctx, exp[1..]);
      Ok((if t.Some? then [t.value] else []) + more)
  }

  /** Process every child; a nil result reads as "" when joined. */
  function ProcessEach(c: Config, ctx: seq<string>, exp: seq<Child>): Result<seq<string>>
    decreases Weights(exp) + 1, 2, |exp|
  {
    if exp == [] then Ok([])
    else
      var t :- Process(c, ctx, exp[0]);
      var more :- ProcessEach(c, ctx, exp[1..]);
      Ok([Interp(t)] + more)
  }

  /** `parenthesize`: untouched under no parent or a statement-like parent, otherwise wrapped. */
  function Parenthesize(ctx: seq<string>, s: string): string {
    if |ctx| < 2 || ctx[1] in NoParenParents then s else "(" + s + ")"
  }

  /** `ruby19_hash_key?`: a `:lit` with one child whose text matches `RUBY_19_HASH_KEY`. */
  predicate Ruby19HashKey(x: Child) {
    IsNodeOf(x, "lit") && |x.node.children| == 1 &&
    var t := ToS(x.node.children[0]);
    t.Ok? && MatchesHashKey(t.value)
  }

  /** `dthing_escape`. */
  function DthingEscape(kind: string, lit: string): Result<string> {
    var l := EscapeNewlines(lit);
    if kind == "dregx" then Ok(EscapeSlashes(l))
    else if kind == "dstr" || kind == "dsym" then Ok(EscapeChar(l, '"'))
    else if kind == "dxstr" then Ok(EscapeChar(l, '`'))
    else Err(Unsupported)
  }

  /**
   * `dthing_escape` as processor.rb:261 writes it: the `:dxstr` replacement
   * `'\`'` inserts the text before each backtick instead of escaping it. The
   * renderer uses `DthingEscape`, the intended backslash escape.
   */
  function DthingEscapeAsWritten(kind: string, lit: string): Result<string> {
    if kind == "dxstr" then Ok(ReplaceByPrematch("", EscapeNewlines(lit), '`'))
    else DthingEscape(kind, lit)
  }

  /** `util_dthing`: a literal first fragment, then `:str` and `:evstr` fragments. */
  function UtilDthing(c: Config, ctx: seq<string>, kind: string, exp: seq<Child>): Result<Out>
    decreases Weights(exp) + 1, 5, 0
  {
    var (first, rest) := Shift(exp);
    if !first.Str? then Err(Malformed)
    else
      var head :- DthingEscape(kind, first.text);
      var parts :- DthingParts(c, ctx, kind, rest);
      Ok(Out(head + Join(parts, ""), []))
  }

  function DthingParts(c: Config, ctx: seq<string>, kind: string, exp: seq<Child>): Result<seq<string>>
    decreases Weights(exp) + 1, 3, |exp|
  {
    if exp == [] then Ok([])
    else
      var pt := exp[0];
      var part :-
        if IsNodeOf(pt, "str") then
          var last := LastElem(pt.node);
          if last.Str? then DthingEscape(kind, last.text) else Err(Malformed)
        else if IsNodeOf(pt, "evstr") then
          var t :- Process(c, ctx, pt);
          Ok("#{" + Interp(t) + "}")
        else Err(Malformed);
      var more :- DthingParts(c, ctx, kind, exp[1..]);
      Ok([part] + more)
  }

  /** `cond_loop`: a `while`/`until` loop, head- or tail-controlled. */
  function CondLoop(c: Config, ctx: seq<string>, exp: seq<Child>, name: string): Result<Out>
    decreases Weights(exp) + 1, 7, 0
  {
    var (c0, e1) := Shift(exp);
    var cond :- Process(c, ctx, c0);
    var (b0, e2) := Shift(e1);
    var body0 :- Process(c, ctx, b0);
    var (headControlled, e3) := Shift(e2);
    var body := if body0.Some? then [Chomp(Indent(body0.value))] else [];
    var code :=
      if Truthy(headControlled) then [name + " " + Interp(cond) + " do"] + body + ["end"]
      else ["begin"] + body + ["end " + name + " " + Interp(cond)];
    Ok(Out(Join(code, LF), e3))
  }

  /** `util_module_or_class`. */
  function ModuleOrClass(c: Config, ctx: seq<string>, exp: seq<Child>, isClass: bool): Result<Out>
    decreases Weights(exp) + 1, 6, 0
  {
    var (nameChild, e1) := Shift(exp);
    var name :- if nameChild.N? then (var t :- Process(c, ctx, nameChild); Ok(Interp(t))) else ToS(nameChild);
    var (superChild, e2) := if isClass then Shift(e1) else (Nil, e1);
    var superk :- if isClass then Process(c, ctx, superChild) else Ok(None);
    var superText := if superk.Some? then " < " + superk.value else "";
    var body :- ModuleBody(c, ctx, e2);
    var bodyText := if body == [] then "" else Indent(Join(body, "\n\n")) + LF;
    Ok(Out(name + superText + LF + bodyText + "end", []))
  }

  /** The body loop of `util_module_or_class`: chomped texts, blank ones dropped. */
  function ModuleBody(c: Config, ctx: seq<string>, exp: seq<Child>): Result<seq<string>>
    decreases Weights(exp) + 1, 3, |exp|
  {
    if exp == [] then Ok([])
    else
      var t :- Process(c, ctx, exp[0]);
      var more :- ModuleBody(c, ctx, exp[1..]);
      Ok((if t.Some? && Chomp(t.value) != "" then [Chomp(t.value)] else []) + more)
  }

  // ===========================================================================
  // Rules, in the order of the node files.

  /** `Arglist#to_s`. */
  function Arglist(c: Config, ctx: seq<string>, exp: seq<Child>): Result<Out>
    decreases Weights(exp) + 1, 6, 0
  {
    var code :- ArglistCode(c, ctx, exp);
    Ok(Out(Join(code, ", "), []))
  }

  function ArglistCode(c: Config, ctx: seq<string>, exp: seq<Child>): Result<seq<string>>
    decreases Weights(exp) + 1, 3, |exp|
  {
    if exp == [] then Ok([])
    else
      var kind :- KindOf(exp[0]);
      var t :- Process(c, ctx, exp[0]);
      var item := if kind == "rescue" then "(" + Interp(t) + ")" else Interp(t);
      var more :- ArglistCode(c, ctx, exp[1..]);
      Ok([item] + more)
  }

  /** `Args#to_s`. */
  function Args(c: Config, ctx: seq<string>, exp: seq<Child>): Result<Out>
    decreases Weights(exp) + 1, 7, 0
  {
    var items :- ArgsItems(c, ctx, exp);
    Ok(Out("(" + Join(items, ", ") + ")", []))
  }

  function ArgsItems(c: Config, ctx: seq<string>, exp: seq<Child>): Result<seq<string>>
    decreases Weights(exp) + 1, 3, |exp|
  {
    if exp == [] then Ok([])
    else
      var item :- ArgItem(c, ctx, exp[0]);
      var more :- ArgsItems(c, ctx, exp[1..]);
      Ok([item] + more)
  }

  function ArgItem(c: Config, ctx: seq<string>, arg: Child): Result<string>
    decreases Weight(arg) + 1, 2, 0
  {
    if arg.Sym? then Ok(arg.name)
    else if IsNodeOf(arg, "lasgn") || IsNodeOf(arg, "masgn") then
      var t :- Process(c, ctx, arg);
      Ok(Interp(t))
    else if IsNodeOf(arg, "kwarg") then
      ElemWeight(arg.node, 2);
      var k :- ToS(Elem(arg.node, 1));
      var v :- Process(c, ctx, Elem(arg.node, 2));
      Ok(k + ": " + Interp(v))
    else Err(Malformed)
  }

  /** `Array#to_s`. */
  function Array(c: Config, ctx: seq<string>, exp: seq<Child>): Result<Out>
    decreases Weights(exp) + 1, 7, 0
  {
    var a :- Arglist(c, ctx, exp);
    Ok(Out("[" + a.text + "]", a.rest))
  }

  /** `Attrasgn#to_s`. */
  function Attrasgn(c: Config, ctx: seq<string>, exp: seq<Child>): Result<Out>
    decreases Weights(exp) + 1, 7, 0
  {
    var (r0, e1) := Shift(exp);
    var receiver :- Process(c, ctx, r0);
    var (name, e2) := Shift(e1);
    var (rhs, indices) := Pop(e2);
    if name == Sym("[]=") then
      AttrasgnWeight(exp);
      var args :- Process(c, ctx, S("array", indices));
      var value :- Process(c, ctx, rhs);
      Ok(Out(Interp(receiver) + Interp(args) + " = " + Interp(value), []))
    else if indices != [] then Err(Malformed)
    else
      var nameText :- ToS(name);
      if Truthy(rhs) && !IsBare(rhs, "arglist") then
        var value :- Process(c, ctx, rhs);
        Ok(Out(Interp(receiver) + "." + DropEqAtEol(nameText) + " = " + Interp(value), []))
      else Err(Malformed)
  }

  /** `Begin#to_s`. */
  function Begin(c: Config, ctx: seq<string>, exp: seq<Child>): Result<Out>
    decreases Weights(exp) + 1, 7, 0
  {
    var code :- BeginCode(c, ctx, exp);
    Ok(Out(Join(["begin"] + code + ["end"], LF), []))
  }

  /** A begin child's text, indented unless a line of it starts with rescue or ensure. */
  function BeginPart(src: Option<string>): string {
    if src.Some? && (LineStartsWith(src.value, "rescue") || LineStartsWith(src.value, "ensure")) then src.value
    else Indent(Interp(src))
  }

  function BeginCode(c: Config, ctx: seq<string>, exp: seq<Child>): Result<seq<string>>
    decreases Weights(exp) + 1, 3, |exp|
  {
    if exp == [] then Ok([])
    else
      var src :- Process(c, ctx, exp[0]);
      var more :- BeginCode(c, ctx, exp[1..]);
      Ok([BeginPart(src)] + more)
  }

  /** `Block#to_s`. */
  function Block(c: Config, ctx: seq<string>, exp: seq<Child>): Result<Out>
    decreases Weights(exp) + 1, 6, 0
  {
    var stmts := if exp == [] then [Nil] else exp;
    var parts :- BlockParts(c, ctx, stmts);
    var r := Parenthesize(ctx, Join(parts, LF));
    Ok(Out(if StartsWith(r, "(") then r else r + LF, []))
  }

  function BlockParts(c: Config, ctx: seq<string>, exp: seq<Child>): Result<seq<string>>
    decreases Weights(exp) + 1, 3, |exp|
  {
    if exp == [] then Ok([])
    else
      var code := exp[0];
      var isNil :- if code == Nil then Ok(true) else (var k :- KindOf(code); Ok(k == "nil"));
      var part :- if isNil then Ok("# do nothing\n") else (var t :- Process(c, ctx, code); Ok(Interp(t)));
      var more :- BlockParts(c, ctx, exp[1..]);
      Ok([part] + more)
  }

  /** `BlockPass#to_s`. */
  function BlockPass(c: Config, ctx: seq<string>, exp: seq<Child>): Result<Out>
    decreases Weights(exp) + 1, 7, 0
  {
    if |exp| > 1 then Err(Malformed)
    else
      var (a, rest) := Shift(exp);
      var t :- Process(c, ctx, a);
      Ok(Out("&" + Interp(t), rest))
  }

  /** `break`, `next`: the keyword, followed by the value when it renders non-nil. */
  function Jump(c: Config, ctx: seq<string>, keyword: string, exp: seq<Child>): Result<Out>
    decreases Weights(exp) + 1, 6, 0
  {
    if exp == [] then Ok(Out(keyword, []))
    else
      var v :- Process(c, ctx, exp[0]);
      Ok(Out(if v.Some? then keyword + " " + v.value else keyword, exp[1..]))
  }

  /** `Break#to_s`. */
  function Break(c: Config, ctx: seq<string>, exp: seq<Child>): Result<Out>
    decreases Weights(exp) + 1, 7, 0
  {
    Jump(c, ctx, "break", exp)
  }

  /** `Call#to_s`. */
  function Call(c: Config, ctx: seq<string>, exp: seq<Child>): Result<Out>
    decreases Weights(exp) + 1, 7, 0
  {
    var recvChild := First(exp);
    var recvKind :- if recvChild == Nil then Ok("") else KindOf(recvChild);
    var (r0, e1) := Shift(exp);
    var recv0 :- Process(c, ctx, r0);
    var receiver := if recvKind in AssignNodes then Some("(" + Interp(recv0) + ")") else recv0;
    var (name, e2) := Shift(e1);
    var args0 :- FlattenArglist(e2);
    var args :- CallArgs(c, ["arglist"] + ctx, name, args0);
    var text :- CallText(c, receiver, name, args);
    Ok(Out(text, []))
  }

  /** The old encoding: a lone `:arglist` argument is replaced by its children. */
  function FlattenArglist(exp: seq<Child>): (r: Result<seq<Child>>)
    ensures r.Ok? ==> Weights(r.value) <= Weights(exp)
  {
    if |exp| == 1 then
      var k :- KindOf(exp[0]);
      if k == "arglist" then Ok(exp[0].node.children) else Ok(exp)
    else Ok(exp)
  }

  /** Is the next argument absent or a splat (`exp.empty? or exp.first.sexp_type == :splat`)? */
  function EndOrSplat(rest: seq<Child>): Result<bool> {
    if rest == [] then Ok(true)
    else
      var k :- KindOf(rest[0]);
      Ok(k == "splat")
  }

  /** The argument loop of `Call#to_s`, run in the `:arglist` context. */
  function CallArgs(c: Config, ctx: seq<string>, name: Child, exp: seq<Child>): Result<seq<string>>
    decreases Weights(exp) + 1, 3, |exp|
  {
    if exp == [] then Ok([])
    else
      var argType :- KindOf(exp[0]);
      var isEmptyHash := IsBare(exp[0], "hash");
      var t :- Process(c, ctx, exp[0]);
      var arg := Interp(t);
      var rest := exp[1..];
      if arg == "" then CallArgs(c, ctx, name, rest)
      else
        var candidate := argType == "hash" && !(name.Sym? && name.name in Binary) && !isEmptyHash;
        var follows :- if candidate then EndOrSplat(rest) else Ok(false);
        var stripped := if candidate && follows then Interp(Trim(arg, 2)) else arg;
        var item := if argType in AssignNodes then "(" + stripped + ")" else stripped;
        var more :- CallArgs(c, ctx, name, rest);
        Ok([item] + more)
  }

  /** `name.to_sym`. */
  function ToSym(name: Child): Result<string> {
    if name.Sym? then Ok(name.name) else if name.Str? then Ok(name.text) else Err(Malformed)
  }

  /** `Call#arguments`: "" for none, `(a, b)`, or ` a, b` for a parenthesis-free name. */
  function Arguments(c: Config, args: seq<string>, name: Child): Result<string> {
    if args == [] then Ok("")
    else
      var sym :- ToSym(name);
      if sym in c.noParenMethods then Ok(" " + Join(args, ", ")) else Ok("(" + Join(args, ", ") + ")")
  }

  /** The `case name` of `Call#to_s`. */
  function CallText(c: Config, receiver: Option<string>, name: Child, args: seq<string>): Result<string> {
    if name.Sym? && name.name in Binary then
      Ok("(" + Interp(receiver) + " " + name.name + " " + Join(args, ", ") + ")")
    else if name == Sym("[]") then
      Ok((if receiver.Some? then receiver.value else "self") + "[" + Join(args, ", ") + "]")
    else if name == Sym("[]=") then
      var rhs := if args == [] then "" else args[|args| - 1];
      var index := if args == [] then [] else args[..|args| - 1];
      Ok((if receiver.Some? then receiver.value else "self") + "[" + Join(index, ", ") + "] = " + rhs)
    else if name == Sym("!") then Ok("(not " + Interp(receiver) + ")")
    else if name == Sym("-@") then Ok("-" + Interp(receiver))
    else if name == Sym("+@") then Ok("+" + Interp(receiver))
    else
      var argText :- Arguments(c, args, name);
      var nameText :- ToS(name);
      Ok((if receiver.Some? then receiver.value + "." else "") + nameText + argText)
  }

  /** `Case#to_s`. */
  function Case(c: Config, ctx: seq<string>, exp: seq<Child>): Result<Out>
    decreases Weights(exp) + 1, 7, 0
  {
    var (e0, e1) := Shift(exp);
    var expr :- Process(c, ctx, e0);
    var head := if expr.Some? then "case " + expr.value else "case";
    var clauses :- CaseClauses(c, ctx, e1);
    Ok(Out(Join([head] + clauses + ["end"], LF), []))
  }

  /** The text of an else clause of a case. */
  function ElseClause(t: Option<string>): string {
    var code := Indent(Interp(t));
    "else\n" + (if HasBlankLine(code) then Indent("# do nothing") else code)
  }

  function CaseClauses(c: Config, ctx: seq<string>, exp: seq<Child>): Result<seq<string>>
    decreases Weights(exp) + 1, 3, |exp|
  {
    if exp == [] then Ok([])
    else
      var pt := exp[0];
      var isWhen :- if !Truthy(pt) then Ok(false) else (var k :- KindOf(pt); Ok(k == "when"));
      var t :- Process(c, ctx, pt);
      var clause := if isWhen then Interp(t) else ElseClause(t);
      var more :- CaseClauses(c, ctx, exp[1..]);
      Ok([clause] + more)
  }

  /** `Cdecl#to_s`. */
  function Cdecl(c: Config, ctx: seq<string>, exp: seq<Child>): Result<Out>
    decreases Weights(exp) + 1, 7, 0
  {
    var (lhs, e1) := Shift(exp);
    var lhsText :- if lhs.N? then (var t :- Process(c, ctx, lhs); Ok(Interp(t))) else ToS(lhs);
    if e1 == [] then Ok(Out(lhsText, []))
    else
      var rhs :- Process(c, ctx, e1[0]);
      Ok(Out(lhsText + " = " + Interp(rhs), e1[1..]))
  }

  /** `Class#to_s`. */
  function Class(c: Config, ctx: seq<string>, comments: string, exp: seq<Child>): Result<Out>
    decreases Weights(exp) + 1, 7, 0
  {
    var m :- ModuleOrClass(c, ctx, exp, true);
    Ok(Out(comments + "class " + m.text, m.rest))
  }

  /** `Symbol#inspect` of a plain identifier. */
  function SymbolInspect(name: string): string {
    ":" + name
  }

  /** `Defn#to_s`: an accessor pattern collapses, anything else is a full `def`. */
  function Defn(c: Config, ctx: seq<string>, comments: string, exp: seq<Child>): Result<Out>
    decreases Weights(exp) + 1, 6, 0
  {
    var type1 :- KindOf(if |exp| > 1 then exp[1] else Nil);
    var type2 := if |exp| > 2 && exp[2].N? then exp[2].node.kind else "";
    if |exp| == 3 && type1 == "args" && type2 in {"ivar", "iasgn", "attrset"} then
      var accessor :- Accessor(exp);
      if accessor.Some? then Ok(Out(accessor.value, [])) else FullDef(c, ctx, comments, exp)
    else FullDef(c, ctx, comments, exp)
  }

  /** The `attr_reader`/`attr_writer` shorthand of `Defn#to_s`, or None to fall through. */
  function Accessor(exp: seq<Child>): Result<Option<string>>
    requires |exp| == 3 && exp[1].N? && exp[2].N?
  {
    var name := exp[0];
    if exp[2].node.kind == "ivar" then
      var found :- FindNode(exp, "ivar");
      var body := if found.Some? then found.value else exp[2].node;
      var ivarText :- ToS(LastElem(body));
      var methName :- if |ivarText| == 0 then Err(Malformed) else Ok(ivarText[1..]);
      if name == Sym(methName) && IsBare(exp[1], "args") && body.children == [LastElem(body)] then
        Ok(Some("attr_reader " + SymbolInspect(methName)))
      else Ok(None)
    else if exp[2].node.kind == "attrset" then
      var nameText :- ToS(name);
      Ok(Some("attr_writer :" + DropLast(nameText)))
    else
      var found :- FindNode(exp, "iasgn");
      var body := if found.Some? then found.value else exp[2].node;
      var ivarName := Elem(body, 1);
      var ivarText :- ToS(ivarName);
      var methName := Interp(DropFirst(ivarText)) + "=";
      var argsFound :- FindNode(exp, "args");
      var argName := LastElem(if argsFound.Some? then argsFound.value else exp[1].node);
      if name == Sym(methName) && exp[1].node.children == [argName] &&
         exp[2] == N(body) &&
         |body.children| == 2 && IsNodeOf(body.children[1], "lvar") &&
         body.children[1].node.children == [argName] then
        var nameText :- ToS(name);
        Ok(Some("attr_writer :" + DropLast(nameText)))
      else Ok(None)
  }

  /** The full `def` of `Defn#to_s`. */
  function FullDef(c: Config, ctx: seq<string>, comments: string, exp: seq<Child>): Result<Out>
    decreases Weights(exp) + 1, 5, 0
  {
    var (name, e1) := Shift(exp);
    var (argsChild, e2) := Shift(e1);
    var args0 :- Process(c, ctx, argsChild);
    var args := if args0 == Some("()") then "" else Interp(args0);
    var stmts := if |e2| == 1 && IsBare(e2[0], "nil") then [] else e2;
    var body0 :- ProcessEach(c, ctx, stmts);
    var nameText :- ToS(name);
    Ok(Out(DefText(comments, nameText, args, body0), []))
  }

  /** The text of a full `def` from its rendered parts. */
  function DefText(comments: string, name: string, args: string, stmts: seq<string>): string {
    var body := Join(if stmts == [] then ["# do nothing"] else stmts, LF);
    var unwrapped := if WrappedInBeginEnd(body) then Join(Inner(RubyLines(body)), LF) else body;
    var indented := if LineStartsWith(unwrapped, "rescue") then unwrapped else Indent(unwrapped);
    CollapseBlankLines(comments + "def " + name + args + "\n" + indented + "\nend")
  }

  /** `Defs#to_s`: the receiver-qualified name is put back in front and the def rule runs. */
  function Defs(c: Config, ctx: seq<string>, comments: string, exp: seq<Child>): Result<Out>
    decreases Weights(exp) + 1, 7, 0
  {
    var (lhs, e1) := Shift(exp);
    var kind :- KindOf(lhs);
    var (name, e2) := Shift(e1);
    var l0 :- Process(c, ctx, lhs);
    var l := if kind in BareReceivers then Interp(l0) else "(" + Interp(l0) + ")";
    var nameText :- ToS(name);
    DefsWeight(exp, l + "." + nameText);
    Defn(c, ctx, comments, [Str(l + "." + nameText)] + e2)
  }

  /** `re_opt`: one letter per set bit 0..8 that has a code, in ascending bit order. */
  function ReOpt(c: Config, options: int): string {
    ReOptFrom(c, options, 0)
  }

  function ReOptFrom(c: Config, options: int, n: nat): string
    requires n <= 9
    decreases 9 - n
  {
    if n == 9 then ""
    else (if Bit(options, n) then RegexCode(c, Pow2(n)) else "") + ReOptFrom(c, options, n + 1)
  }

  function Pow2(n: nat): (r: nat)
    ensures r >= 1
  {
    if n == 0 then 1 else 2 * Pow2(n - 1)
  }

  /** `options[n]`: bit n in two's complement. */
  predicate Bit(options: int, n: nat) {
    (options / Pow2(n)) % 2 == 1
  }

  /** `Regexp::CODES[b]`: i, x, m fixed; the encoding codes as configured; nil (read as "") otherwise. */
  function RegexCode(c: Config, b: int): string {
    if b == 1 then "i" else if b == 2 then "x" else if b == 4 then "m"
    else if b in c.encodingCodes then c.encodingCodes[b] else ""
  }

  /** `Dregx#to_s`. */
  function Dregx(c: Config, ctx: seq<string>, exp: seq<Child>): Result<Out>
    decreases Weights(exp) + 1, 6, 0
  {
    if Last(exp).Int? then
      WeightsPop(exp);
      var d :- UtilDthing(c, ctx, "dregx", exp[..|exp| - 1]);
      Ok(Out("/" + d.text + "/" + ReOpt(c, Last(exp).i), d.rest))
    else
      var d :- UtilDthing(c, ctx, "dregx", exp);
      Ok(Out("/" + d.text + "/", d.rest))
  }

  /** `DregxOnce#to_s`. */
  function DregxOnce(c: Config, ctx: seq<string>, exp: seq<Child>): Result<Out>
    decreases Weights(exp) + 1, 7, 0
  {
    var d :- Dregx(c, ctx, exp);
    Ok(Out(d.text + "o", d.rest))
  }

  /** `Ensure#to_s`. */
  function Ensure(c: Config, ctx: seq<string>, exp: seq<Child>): Result<Out>
    decreases Weights(exp) + 1, 7, 0
  {
    var (b0, e1) := Shift(exp);
    var body0 :- Process(c, ctx, b0);
    var (ensChild, e2) := Shift(e1);
    var ens0 :- if IsBare(ensChild, "nil") then Ok(None) else Process(c, ctx, ensChild);
    if body0.None? then Err(Malformed)
    else Ok(Out(EnsureText(body0.value, ens0), e2))
  }

  /** The text of an ensure from its rendered body and ensure part. */
  function EnsureText(body: string, ens0: Option<string>): string {
    var ens1 := if ens0.Some? then ens0.value else "# do nothing";
    var ens := if LineStartsWith(ens1, "rescue") then "begin\n" + ens1 + "\nend\n" else ens1;
    var b1 := DropTrailingEnd(body);
    var b := if LineStartsWith(b1, "rescue") then b1 else Indent(b1);
    b + "\nensure\n" + Indent(ens)
  }

  /** `For#to_s`. */
  function For(c: Config, ctx: seq<string>, exp: seq<Child>): Result<Out>
    decreases Weights(exp) + 1, 7, 0
  {
    var (r0, e1) := Shift(exp);
    var recv :- Process(c, ctx, r0);
    var (v0, e2) := Shift(e1);
    var iter :- Process(c, ctx, v0);
    var body :- if e2 == [] then Ok(None) else Process(c, ctx, e2[0]);
    var rest := if e2 == [] then [] else e2[1..];
    var lines := ["for " + Interp(iter) + " in " + Interp(recv) + " do",
                  Indent(if body.Some? then body.value else "# do nothing"),
                  "end"];
    Ok(Out(Join(lines, LF), rest))
  }

  /** `Hash#to_s`. */
  function Hash(c: Config, ctx: seq<string>, exp: seq<Child>): Result<Out>
    decreases Weights(exp) + 1, 7, 0
  {
    var entries :- HashEntries(c, ctx, exp);
    Ok(Out(if entries == [] then "{}" else "{ " + Join(entries, ", ") + " }", []))
  }

  /** One `key => value` or `key: value` entry. */
  function HashEntry(c: Config, key19: bool, lhs: string, valueKind: string, value: string): string {
    var rhs := if valueKind in HashValNoParen then value else "(" + value + ")";
    if c.hashSyntax == "ruby19" && key19 then DropLeadingColon(lhs) + ": " + rhs
    else lhs + " => " + rhs
  }

  function HashEntries(c: Config, ctx: seq<string>, exp: seq<Child>): Result<seq<string>>
    decreases Weights(exp) + 1, 3, |exp|
  {
    if exp == [] then Ok([])
    else
      var key := exp[0];
      var t :- KindOf(key);
      var lhs :- Process(c, ctx, key);
      if t == "kwsplat" then
        var more :- HashEntries(c, ctx, exp[1..]);
        Ok([Interp(lhs)] + more)
      else
        var (value, rest) := Shift(exp[1..]);
        var vt :- KindOf(value);
        var v :- Process(c, ctx, value);
        var more :- HashEntries(c, ctx, rest);
        Ok([HashEntry(c, Ruby19HashKey(key), Interp(lhs), vt, Interp(v))] + more)
  }

  /** Does a one-line form fit: `(indent_lvl + r).size < LINE_LENGTH and r !~ /\n/`. */
  predicate FitsOnLine(r: string) {
    |IndentUnit + r| < LineLength && '\n' !in r
  }

  /** `If#to_s`. */
  function If(c: Config, ctx: seq<string>, exp: seq<Child>): Result<Out>
    decreases Weights(exp) + 1, 7, 0
  {
    var firstKind :- KindOf(First(exp));
    var (e0, e1) := Shift(exp);
    var c0 :- Process(c, ctx, e0);
    var (e1a, e2) := Shift(e1);
    var t :- Process(c, ctx, e1a);
    var (e2a, e3) := Shift(e2);
    var f :- Process(c, ctx, e2a);
    var cond := if '\n' in Interp(c0) then "(" + Chomp(Interp(c0)) + ")" else Interp(c0);
    Ok(Out(IfText(cond, t, f, firstKind in AssignNodes), e3))
  }

  /** The one-line candidate of `If#to_s`, before the length check. */
  function IfCandidate(cond: string, t: Option<string>, f: Option<string>): Option<string> {
    if t.Some? then
      if f.Some? then
        var r := cond + " ? (" + t.value + ") : (" + f.value + ")";
        if Contains(r, "return") then None else Some(r)
      else Some(t.value + " if " + cond)
    else if f.Some? then Some(f.value + " unless " + cond)
    else None
  }

  /** The form `If#to_s` chooses, from the condition text and the rendered branches. */
  function IfText(cond: string, t: Option<string>, f: Option<string>, expand: bool): string {
    var candidate := IfCandidate(cond, t, f);
    if !expand && candidate.Some? && FitsOnLine(candidate.value) then candidate.value
    else if t.Some? then
      "if " + cond + " then\n" + Indent(t.value) + "\n" +
      (if f.Some? then "else\n" + Indent(f.value) + "\n" else "") + "end"
    else if f.Some? then "unless " + cond + " then\n" + Indent(f.value) + "\nend"
    else "if " + cond + " then\n" + Indent("# do nothing") + "\nend"
  }

  /** `Iasgn#to_s`. */
  function Iasgn(c: Config, ctx: seq<string>, exp: seq<Child>): Result<Out>
    decreases Weights(exp) + 1, 7, 0
  {
    var (lhs, e1) := Shift(exp);
    var lhsText :- ToS(lhs);
    if e1 == [] then Ok(Out(lhsText, []))
    else
      var v :- Process(c, ctx, e1[0]);
      Ok(Out(lhsText + " = " + Interp(v), e1[1..]))
  }

  /** The block parameters of `Iter#to_s`: none for 0, otherwise ` |…|` from the args rendering. */
  function IterArgs(c: Config, ctx: seq<string>, args: Child): Result<string>
    decreases Weight(args) + 1, 2, 0
  {
    if args == Int(0) then Ok("")
    else
      var t :- Process(c, ctx, args);
      if t.None? then Err(Malformed) else Ok(" |" + Interp(Trim(t.value, 1)) + "|")
  }

  /** `Iter#to_s`. */
  function Iter(c: Config, ctx: seq<string>, exp: seq<Child>): Result<Out>
    decreases Weights(exp) + 1, 7, 0
  {
    var (callChild, e1) := Shift(exp);
    if !callChild.N? then Err(Malformed)
    else
      var iter :- Process(c, ctx, callChild);
      var (argsChild, e2) := Shift(e1);
      var body :- if e2 == [] then Ok(None) else Process(c, ctx, e2[0]);
      var rest := if e2 == [] then [] else e2[1..];
      var args :- IterArgs(c, ctx, argsChild);
      Ok(Out(IterText(Interp(iter), |callChild.node.children| > 2, args, body), rest))
  }

  /** The brace one-liner of `Iter#to_s`. */
  function BraceBlock(call: string, args: string, body: Option<string>): string {
    call + " {" + args + (if body.Some? then " " + Strip(body.value) + " " else "") + "}"
  }

  /** `same_line_bracket_block?`. */
  predicate SameLineBracketBlock(result: string, call: string, callHasArgs: bool) {
    (!callHasArgs || EndsWith(call, ")")) && '\n' !in result && |result| < LineLength
  }

  /** The form `Iter#to_s` chooses, from the rendered call, block parameters and body. */
  function IterText(iter: string, callHasArgs: bool, args: string, body: Option<string>): string {
    var call := DropEmptyParens(iter);
    var oneLine := BraceBlock(call, args, body);
    if SameLineBracketBlock(oneLine, call, callHasArgs) then oneLine
    else
      var b := if iter == "END" then "{" else "do";
      var e := if iter == "END" then "}" else "end";
      call + " " + b + args + "\n" + (if body.Some? then Indent(Strip(body.value)) + "\n" else "") + e
  }

  /** `Masgn#to_s`. */
  function Masgn(c: Config, ctx: seq<string>, exp: seq<Child>): Result<Out>
    decreases Weights(exp) + 1, 7, 0
  {
    var f := First(exp);
    if f.N? then
      var (lhs, e1) := Shift(exp);
      var (rhs, e2) := Shift(e1);
      if lhs.node.kind != "array" then Err(Malformed)
      else
        var targets :- MasgnTargets(c, ctx, lhs.node.children);
        if rhs == Nil then Ok(Out(Join(targets, ", "), e2))
        else
          var t :- KindOf(rhs);
          var r0 :- Process(c, ctx, rhs);
          var r := if t == "array" then Interp(Trim(Interp(r0), 1)) else Interp(r0);
          Ok(Out(Join(targets, ", ") + " = " + r, e2))
    else if f.Sym? then
      var parts :- ToSEach(exp);
      Ok(Out("(" + Join(parts, ", ") + ")", []))
    else Err(Malformed)
  }

  function MasgnTargets(c: Config, ctx: seq<string>, exp: seq<Child>): Result<seq<string>>
    decreases Weights(exp) + 1, 3, |exp|
  {
    if exp == [] then Ok([])
    else
      var k :- KindOf(exp[0]);
      var t :- Process(c, ctx, exp[0]);
      var more :- MasgnTargets(c, ctx, exp[1..]);
      Ok([if k == "masgn" then "(" + Interp(t) + ")" else Interp(t)] + more)
  }

  /** `to_s` of each child, as `Array#join` does. */
  function ToSEach(exp: seq<Child>): Result<seq<string>>
    decreases |exp|
  {
    if exp == [] then Ok([])
    else
      var t :- ToS(exp[0]);
      var more :- ToSEach(exp[1..]);
      Ok([t] + more)
  }

  /** `Match2#to_s`. */
  function Match2(c: Config, ctx: seq<string>, exp: seq<Child>): Result<Out>
    decreases Weights(exp) + 1, 7, 0
  {
    var (a, e1) := Shift(exp);
    var lhs :- Process(c, ctx, a);
    var (b, e2) := Shift(e1);
    var rhs :- Process(c, ctx, b);
    Ok(Out(Interp(lhs) + " =~ " + Interp(rhs), e2))
  }

  /** `Match3#to_s`: the regex comes first, the value second. */
  function Match3(c: Config, ctx: seq<string>, exp: seq<Child>): Result<Out>
    decreases Weights(exp) + 1, 7, 0
  {
    var (a, e1) := Shift(exp);
    var rhs :- Process(c, ctx, a);
    var leftType :- KindOf(First(e1));
    var (b, e2) := Shift(e1);
    var lhs :- Process(c, ctx, b);
    var l := if leftType in AssignNodes then "(" + Interp(lhs) + ")" else Interp(lhs);
    Ok(Out(l + " =~ " + Interp(rhs), e2))
  }

  /** `Next#to_s`. */
  function Next(c: Config, ctx: seq<string>, exp: seq<Child>): Result<Out>
    decreases Weights(exp) + 1, 7, 0
  {
    Jump(c, ctx, "next", exp)
  }

  /** `OpAsgn1#to_s`. */
  function OpAsgn1(c: Config, ctx: seq<string>, exp: seq<Child>): Result<Out>
    decreases Weights(exp) + 1, 7, 0
  {
    var (a, e1) := Shift(exp);
    var lhs :- Process(c, ctx, a);
    var (b, e2) := Shift(e1);
    var index :- Process(c, ctx, b);
    var (msg, e3) := Shift(e2);
    WeightsSuffix(exp, |exp| - |e3|);
    var (d, e4) := Shift(e3);
    var rhs :- Process(c, ctx, d);
    var msgText :- ToS(msg);
    Ok(Out(Interp(lhs) + "[" + Interp(index) + "] " + msgText + "= " + Interp(rhs), e4))
  }

  /** `OpAsgn2#to_s`. */
  function OpAsgn2(c: Config, ctx: seq<string>, exp: seq<Child>): Result<Out>
    decreases Weights(exp) + 1, 7, 0
  {
    var (a, e1) := Shift(exp);
    var lhs :- Process(c, ctx, a);
    var (attr, e2) := Shift(e1);
    var attrText :- ToS(attr);
    var (msg, e3) := Shift(e2);
    WeightsSuffix(exp, |exp| - |e3|);
    var (d, e4) := Shift(e3);
    var rhs :- Process(c, ctx, d);
    var msgText :- ToS(msg);
    Ok(Out(Interp(lhs) + "." + DropLast(attrText) + " " + msgText + "= " + Interp(rhs), e4))
  }

  /** `op_asgn_and`, `op_asgn_or`: the target is dropped and the assignment's first "=" rewritten. */
  function OpAsgnLogical(c: Config, ctx: seq<string>, op: string, exp: seq<Child>): Result<Out>
    decreases Weights(exp) + 1, 6, 0
  {
    var (_, e1) := Shift(exp);
    var (a, e2) := Shift(e1);
    var t :- Process(c, ctx, a);
    if t.None? then Err(Malformed) else Ok(Out(ReplaceFirstEq(t.value, op), e2))
  }

  /** `OpAsgnAnd#to_s`. */
  function OpAsgnAnd(c: Config, ctx: seq<string>, exp: seq<Child>): Result<Out>
    decreases Weights(exp) + 1, 7, 0
  {
    OpAsgnLogical(c, ctx, "&&=", exp)
  }

  /** `OpAsgnOr#to_s`. */
  function OpAsgnOr(c: Config, ctx: seq<string>, exp: seq<Child>): Result<Out>
    decreases Weights(exp) + 1, 7, 0
  {
    OpAsgnLogical(c, ctx, "||=", exp)
  }

  /** `Resbody#to_s`. */
  function Resbody(c: Config, ctx: seq<string>, exp: seq<Child>): Result<Out>
    decreases Weights(exp) + 1, 7, 0
  {
    var (args, e1) := Shift(exp);
    var body0 :- Finish(c, ctx, e1);
    var body := if body0 == [] then ["# do nothing"] else body0;
    if !args.N? then Err(Malformed)
    else
      var lasgn :- FindNode(args.node.children, "lasgn");
      var iasgn :- if lasgn.Some? then Ok(None) else FindNode(args.node.children, "iasgn");
      var name := if lasgn.Some? then lasgn else iasgn;
      var kept := if lasgn.Some? then RemoveKind(args.node.children, "lasgn")
                  else if iasgn.Some? then RemoveKind(args.node.children, "iasgn")
                  else args.node.children;
      var p :- Process(c, ctx, N(Node(args.node.kind, kept, args.node.comments)));
      var classes :- if Trim(Interp(p), 1).None? then Err(Malformed) else Ok(Trim(Interp(p), 1).value);
      var binding :- if name.Some? then (var v :- ToS(Elem(name.value, 1)); Ok(" => " + v)) else Ok("");
      Ok(Out("rescue" + (if classes == "" then "" else " " + classes) + binding + "\n" +
             Indent(Join(body, LF)), []))
  }

  /** The initial `simple` of `Rescue#to_s`: one resbody, at most two children, no block or return. */
  function RescueSimpleHead(exp: seq<Child>): (r: Result<bool>)
    ensures r == Ok(true) ==> |exp| == 1 && IsNodeOf(exp[0], "resbody")
  {
    if |exp| != 1 then Ok(false)
    else if !IsNodeOf(exp[0], "resbody") then Err(Malformed)
    else
      var rb := exp[0].node;
      if |rb.children| > 2 then Ok(false)
      else
        var blk :- FindNode(rb.children, "block");
        var ret :- if blk.Some? then Ok(None) else FindNode(rb.children, "return");
        Ok(blk.None? && ret.None?)
  }

  /** The `simple &&=` updates of the resbody loop: no exception classes and a non-block body. */
  function ResbodySimple(rb: Node): Result<bool> {
    if !IsBare(Elem(rb, 1), "array") then Ok(false)
    else
      var second := Elem(rb, 2);
      if second == Nil then Ok(false)
      else
        var k :- KindOf(second);
        Ok(k != "block")
  }

  /** The final `simple` flag of `Rescue#to_s` for its remaining children. */
  function RescueSimple(exp: seq<Child>): Result<bool> {
    var head :- RescueSimpleHead(exp);
    if head then ResbodySimple(exp[0].node) else Ok(false)
  }

  /** `Rescue#to_s`. */
  function Rescue(c: Config, ctx: seq<string>, exp: seq<Child>): Result<Out>
    decreases Weights(exp) + 1, 7, 0
  {
    var f :- KindOf(First(exp));
    var body0 :- if f == "resbody" then Ok(None) else Process(c, ctx, exp[0]);
    var e1 := if f == "resbody" then exp else exp[1..];
    RescueFrom(c, ctx, if body0.Some? then body0.value else "# do nothing", e1)
  }

  /** The rest of `Rescue#to_s` once the body is taken: the else part, then the clauses. */
  function RescueFrom(c: Config, ctx: seq<string>, body: string, exp: seq<Child>): Result<Out>
    decreases Weights(exp) + 1, 6, 0
  {
    var l :- KindOf(Last(exp));
    WeightsPop(exp);
    var els :- if l == "resbody" then Ok(None) else Process(c, ctx, Last(exp));
    var e2 := if l == "resbody" then exp else exp[..|exp| - 1];
    var clauses :- RescueClauses(c, ctx, e2);
    Ok(Out(RescueText(body, clauses.0, els, clauses.1), []))
  }

  /** The resbody loop of `Rescue#to_s`: the rendered clauses and the final `simple` flag. */
  function RescueClauses(c: Config, ctx: seq<string>, exp: seq<Child>): Result<(seq<string>, bool)>
    decreases Weights(exp) + 1, 3, 0
  {
    var simple :- RescueSimple(exp);
    var resbodies :- ProcessEach(c, ctx, exp);
    Ok((resbodies, simple))
  }

  /** The form `Rescue#to_s` chooses from its rendered parts. */
  function RescueText(body: string, resbodies: seq<string>, els: Option<string>, simple: bool): string {
    if els.Some? then Indent(body) + "\n" + Join(resbodies, LF) + "\nelse\n" + Indent(els.value)
    else if simple && resbodies != [] then body + " " + JoinFirstBreak(resbodies[0])
    else Indent(body) + "\n" + Join(resbodies, LF)
  }

  /** `Return#to_s`. */
  function Return(c: Config, ctx: seq<string>, exp: seq<Child>): Result<Out>
    decreases Weights(exp) + 1, 7, 0
  {
    if exp == [] then Ok(Out("return", []))
    else
      var v :- Process(c, ctx, exp[0]);
      Ok(Out("return " + Interp(v), exp[1..]))
  }

  /** `Sclass#to_s`: the body goes through the block rule without a context push. */
  function Sclass(c: Config, ctx: seq<string>, exp: seq<Child>): Result<Out>
    decreases Weights(exp) + 1, 7, 0
  {
    var (r0, e1) := Shift(exp);
    var recv :- Process(c, ctx, r0);
    var b :- Block(c, ctx, e1);
    Ok(Out("class << " + Interp(recv) + "\n" + Indent(b.text) + "\nend", b.rest))
  }

  /** `Splat#to_s`. */
  function Splat(c: Config, ctx: seq<string>, exp: seq<Child>): Result<Out>
    decreases Weights(exp) + 1, 7, 0
  {
    if exp == [] then Ok(Out("*", []))
    else
      var v :- Process(c, ctx, exp[0]);
      Ok(Out("*" + Interp(v), exp[1..]))
  }

  /** `Super#to_s`. */
  function Super(c: Config, ctx: seq<string>, exp: seq<Child>): Result<Out>
    decreases Weights(exp) + 1, 7, 0
  {
    var args :- Finish(c, ctx, exp);
    Ok(Out("super(" + Join(args, ", ") + ")", []))
  }

  /** `Svalue#to_s`. */
  function Svalue(c: Config, ctx: seq<string>, exp: seq<Child>): Result<Out>
    decreases Weights(exp) + 1, 7, 0
  {
    var code :- ProcessEach(c, ctx, exp);
    Ok(Out(Join(code, ", "), []))
  }

  /** `Undef#to_s`. */
  function Undef(c: Config, ctx: seq<string>, exp: seq<Child>): Result<Out>
    decreases Weights(exp) + 1, 7, 0
  {
    var (a, e1) := Shift(exp);
    var t :- Process(c, ctx, a);
    Ok(Out("undef " + Interp(t), e1))
  }

  /** `When#to_s`. */
  function When(c: Config, ctx: seq<string>, exp: seq<Child>): Result<Out>
    decreases Weights(exp) + 1, 7, 0
  {
    if |ctx| >= 2 && ctx[1] == "array" then
      var (v, e1) := Shift(exp);
      var val :- Process(c, ctx, v);
      var (_, e2) := Shift(e1);
      Ok(Out("*" + Interp(val), e2))
    else if exp == [] then Ok(Out("", []))
    else
      var c0 :- Process(c, ctx, exp[0]);
      var stmts :- Finish(c, ctx, exp[1..]);
      Ok(Out(WhenText(Interp(Trim(Interp(c0), 1)), stmts), []))
  }

  /** A when clause from its condition text and rendered statements. */
  function WhenText(cond: string, stmts: seq<string>): string {
    var code0 := Indent(Join(stmts, LF));
    var code := if AllSpace(code0) then Indent("# do nothing") else code0;
    "when " + cond + " then\n" + Chomp(code)
  }

  /** `Yield#to_s`. */
  function Yield(c: Config, ctx: seq<string>, exp: seq<Child>): Result<Out>
    decreases Weights(exp) + 1, 7, 0
  {
    var args :- ProcessEach(c, ctx, exp);
    Ok(Out(if args == [] then "yield" else "yield(" + Join(args, ", ") + ")", []))
  }

  // ===========================================================================
  // Termination helpers.

  lemma ElemWeight(n: Node, i: nat)
    requires i >= 1
    ensures Weight(Elem(n, i)) < Weight(N(n))
  {
    if i - 1 < |n.children| { WeightOfElement(n.children, i - 1); }
  }

  lemma AttrasgnWeight(exp: seq<Child>)
    requires |exp| >= 2 && exp[1] != Nil
    ensures Weight(S("array", Pop(exp[2..]).1)) <= Weights(exp)
  {
    var e2 := exp[2..];
    assert Weights(exp) == Weight(exp[0]) + Weight(exp[1]) + Weights(e2);
    if e2 != [] { WeightsPop(e2); }
  }

  lemma DefsWeight(exp: seq<Child>, t: string)
    requires |exp| >= 1 && exp[0].N?
    ensures Weights([Str(t)] + Shift(exp[1..]).1) <= Weights(exp)
  {
    var e2 := Shift(exp[1..]).1;
    assert ([Str(t)] + e2)[1..] == e2;
    if |exp| > 1 { assert Weights(exp[1..]) == Weight(exp[1]) + Weights(exp[2..]); }
  }
}
