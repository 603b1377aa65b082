/**
 * What the call rule (`Call#to_s`) promises: receivers and arguments of an
 * assignment kind are parenthesized, the old and new argument encodings
 * render alike, a trailing hash argument loses its braces, and each operator
 * name has its own form.
 */
module CallFacts {
  import opened Results
  import opened Text
  import opened Sexp
  import opened Options
  import opened Render

  /** A message that the `case name` of `Call#to_s` renders as `recv.name(args)`. */
  predicate PlainName(name: string) {
    name !in Binary && name != "[]" && name != "[]=" && name != "!" && name != "-@" && name != "+@"
  }

  /** A receiver of an assignment kind is wrapped in parentheses; any other is used as rendered. */
  lemma ReceiverParenthesized(c: Config, ctx: seq<string>, r: Node, rt: string, name: string)
    requires Process(c, ctx, N(r)) == Ok(Some(rt)) && PlainName(name)
    ensures Call(c, ctx, [N(r), Sym(name)]) ==
            Ok(Out((if r.kind in AssignNodes then "(" + rt + ")" else rt) + "." + name, []))
  {
    var exp := [N(r), Sym(name)];
    assert Shift(exp) == (N(r), [Sym(name)]);
    assert Shift([Sym(name)]) == (Sym(name), []);
    assert FlattenArglist([]) == Ok([]);
    assert CallArgs(c, ["arglist"] + ctx, Sym(name), []) == Ok([]);
    var recv := if r.kind in AssignNodes then "(" + rt + ")" else rt;
    assert recv + "." + name + "" == recv + "." + name;
    assert CallText(c, Some(recv), Sym(name), []) == Ok(recv + "." + name);
  }

  /** A lone `:arglist` argument is flattened: the old encoding renders as the new one. */
  lemma ArglistFlattened(c: Config, ctx: seq<string>, recv: Child, name: Child, args: seq<Child>)
    requires FlattenArglist(args) == Ok(args)
    ensures Call(c, ctx, [recv, name, S("arglist", args)]) == Call(c, ctx, [recv, name] + args)
  {
    var old_ := [recv, name, S("arglist", args)];
    var new_ := [recv, name] + args;
    assert Shift(old_) == (recv, [name, S("arglist", args)]);
    assert new_[0] == recv && new_[1..] == [name] + args;
    assert ([name] + args)[0] == name && ([name] + args)[1..] == args;
    assert Shift([name, S("arglist", args)]) == (name, [S("arglist", args)]);
    assert FlattenArglist([S("arglist", args)]) == Ok(args);
  }

  /** An argument that renders nil or "" is dropped. */
  lemma EmptyArgumentDropped(c: Config, ctx: seq<string>, name: Child, x: Node, rest: seq<Child>)
    requires Process(c, ctx, N(x)).Ok? && Interp(Process(c, ctx, N(x)).value) == ""
    ensures CallArgs(c, ctx, name, [N(x)] + rest) == CallArgs(c, ctx, name, rest)
  {
    assert ([N(x)] + rest)[0] == N(x) && ([N(x)] + rest)[1..] == rest;
  }

  /** A non-hash argument is kept, in parentheses exactly when its kind is an assignment kind. */
  lemma ArgumentKept(c: Config, ctx: seq<string>, name: Child, x: Node, t: string, rest: seq<Child>)
    requires Process(c, ctx, N(x)) == Ok(Some(t)) && t != "" && x.kind != "hash"
    ensures CallArgs(c, ctx, name, [N(x)] + rest) ==
            Prepend([if x.kind in AssignNodes then "(" + t + ")" else t], CallArgs(c, ctx, name, rest))
  {
    assert ([N(x)] + rest)[0] == N(x) && ([N(x)] + rest)[1..] == rest;
  }

  /**
   * A hash argument loses its braces exactly when the message is not a binary
   * operator, the hash is non-empty, and it is the last argument or a splat follows.
   */
  lemma HashArgumentStripped(c: Config, ctx: seq<string>, name: Child, h: seq<Child>, inner: string,
                             rest: seq<Child>)
    requires Process(c, ctx, S("hash", h)) == Ok(Some("{ " + inner + " }"))
    requires EndOrSplat(rest).Ok?
    ensures var strip := !(name.Sym? && name.name in Binary) && h != [] && EndOrSplat(rest).value;
            CallArgs(c, ctx, name, [S("hash", h)] + rest) ==
            Prepend([if strip then inner else "{ " + inner + " }"], CallArgs(c, ctx, name, rest))
  {
    var e := [S("hash", h)] + rest;
    assert e[0] == S("hash", h) && e[1..] == rest;
    assert "{ " + inner + " }" != "" by { assert |"{ " + inner + " }"| >= 4; }
    TrimBraces(inner);
  }

  /** Cutting two characters off each end of a braced hash gives its entries back. */
  lemma TrimBraces(inner: string)
    ensures Trim("{ " + inner + " }", 2) == Some(inner)
  {
    var s := "{ " + inner + " }";
    assert |s| == |inner| + 4;
    assert s[2..|s| - 2] == inner;
  }

  /** A splat right after the hash also lets the braces go; any other node keeps them. */
  lemma EndOrSplatCases(x: Node, rest: seq<Child>)
    ensures EndOrSplat([]) == Ok(true)
    ensures EndOrSplat([N(x)] + rest) == Ok(x.kind == "splat")
  {
    assert ([N(x)] + rest)[0] == N(x);
  }

  /** `[]=` puts its last argument after ` = ` and the others in the brackets; `self` stands in for no receiver. */
  lemma IndexAssignment(c: Config, recv: Option<string>, index: seq<string>, v: string)
    ensures CallText(c, recv, Sym("[]="), index + [v]) ==
            Ok((if recv.Some? then recv.value else "self") + "[" + Join(index, ", ") + "] = " + v)
  {
    var args := index + [v];
    assert args[|args| - 1] == v && args[..|args| - 1] == index;
    assert "[]=" !in Binary;
  }

  /** A binary operator is written infix in parentheses, `(recv op a, b)`, whatever the receiver and arguments. */
  lemma BinaryForm(c: Config, recv: Option<string>, op: string, args: seq<string>)
    requires op in Binary
    ensures CallText(c, recv, Sym(op), args) == Ok("(" + Interp(recv) + " " + op + " " + Join(args, ", ") + ")")
  {
  }

  /** `!` is `(not recv)`, unary minus and plus are prefixes; the arguments are not written. */
  lemma UnaryForms(c: Config, recv: Option<string>, args: seq<string>)
    ensures CallText(c, recv, Sym("!"), args) == Ok("(not " + Interp(recv) + ")")
    ensures CallText(c, recv, Sym("-@"), args) == Ok("-" + Interp(recv))
    ensures CallText(c, recv, Sym("+@"), args) == Ok("+" + Interp(recv))
  {
    assert "!" !in Binary && "-@" !in Binary && "+@" !in Binary;
  }

  /** Element reference is `recv[a, b]`, with `self` standing in for a missing receiver. */
  lemma IndexForm(c: Config, recv: Option<string>, args: seq<string>)
    ensures CallText(c, recv, Sym("[]"), args) ==
            Ok((if recv.Some? then recv.value else "self") + "[" + Join(args, ", ") + "]")
  {
    assert "[]" !in Binary;
  }

  /**
   * Any other message is `recv.name`, or the bare name without a receiver,
   * followed by nothing for no arguments, ` a, b` for a `no_paren_methods`
   * name, and `(a, b)` otherwise.
   */
  lemma PlainForm(c: Config, recv: Option<string>, name: string, args: seq<string>)
    requires PlainName(name)
    ensures CallText(c, recv, Sym(name), args) ==
            Ok((if recv.Some? then recv.value + "." else "") + name +
               (if args == [] then ""
                else if name in c.noParenMethods then " " + Join(args, ", ")
                else "(" + Join(args, ", ") + ")"))
  {
  }

  /** The receiver text the `case name` sees: an assignment receiver is wrapped in parentheses. */
  function ReceiverText(r: Child, rt: Option<string>): Option<string> {
    if r.N? && r.node.kind in AssignNodes then Some("(" + Interp(rt) + ")") else rt
  }

  /**
   * The whole rule for any receiver, name and arguments: the receiver is
   * parenthesized when it is an assignment, the arguments go through the
   * `:arglist` loop, and the `case name` writes the text; nothing is left over.
   */
  lemma CallComposes(c: Config, ctx: seq<string>, r: Child, name: Child, args: seq<Child>,
                     rt: Option<string>, items: seq<string>, text: string)
    requires r == Nil || r.N?
    requires Process(c, ctx, r) == Ok(rt)
    requires FlattenArglist(args).Ok? && CallArgs(c, ["arglist"] + ctx, name, FlattenArglist(args).value) == Ok(items)
    requires CallText(c, ReceiverText(r, rt), name, items) == Ok(text)
    ensures Call(c, ctx, [r, name] + args) == Ok(Out(text, []))
  {
    CallShifts(r, name, args);
  }

  /** When the `case name` cannot write the name, the rule raises the same error. */
  lemma CallTextError(c: Config, ctx: seq<string>, r: Child, name: Child, args: seq<Child>,
                      rt: Option<string>, items: seq<string>, e: Error)
    requires r == Nil || r.N?
    requires Process(c, ctx, r) == Ok(rt)
    requires FlattenArglist(args).Ok? && CallArgs(c, ["arglist"] + ctx, name, FlattenArglist(args).value) == Ok(items)
    requires CallText(c, ReceiverText(r, rt), name, items) == Err(e)
    ensures Call(c, ctx, [r, name] + args) == Err(e)
  {
    CallShifts(r, name, args);
  }

  /** The two shifts of the rule take the receiver and the name, and leave the arguments. */
  lemma CallShifts(r: Child, name: Child, args: seq<Child>)
    ensures First([r, name] + args) == r
    ensures Shift([r, name] + args) == (r, [name] + args)
    ensures Shift([name] + args) == (name, args)
  {
    var exp := [r, name] + args;
    assert exp[0] == r && exp[1..] == [name] + args;
    assert ([name] + args)[0] == name && ([name] + args)[1..] == args;
  }
}
