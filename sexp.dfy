/**
 * The syntax tree handed to the renderer ("sexp"): a node is a kind tag and
 * an ordered list of children; a child is a sub-node or a Ruby scalar.
 */
module Sexp {
  import opened Results
  import opened Text

  datatype Child =
    | Nil
    | Bool(b: bool)
    | Int(i: int)
    | Sym(name: string)    // a Ruby Symbol, by its name
    | Str(text: string)    // a Ruby String
    | Obj(repr: string)    // any other Ruby value (Float, Range, Regexp, ...), by its `to_s`
    | N(node: Node)

  /** `s(:kind, *children)`, with the leading comment the parser attached (or ""). */
  datatype Node = Node(kind: string, children: seq<Child>, comments: string)

  /** `s(:kind, *children)` without comments. */
  function S(kind: string, children: seq<Child>): Child {
    N(Node(kind, children, ""))
  }

  // ---------------------------------------------------------------------------
  // Termination measure: every rule consumes children of the node it was given.

  function Weight(c: Child): (w: nat)
    ensures c.N? ==> w >= 1
    ensures c != Nil ==> w >= 1
  {
    match c
    case Nil => 0
    case N(n) => 1 + Weights(n.children)
    case _ => 1
  }

  function Weights(cs: seq<Child>): nat {
    if |cs| == 0 then 0 else Weight(cs[0]) + Weights(cs[1..])
  }

  lemma {:induction false} WeightsAppend(a: seq<Child>, b: seq<Child>)
    ensures Weights(a + b) == Weights(a) + Weights(b)
    decreases |a|
  {
    if |a| == 0 {
      assert a + b == b;
    } else {
      assert (a + b)[1..] == a[1..] + b;
      WeightsAppend(a[1..], b);
    }
  }

  lemma WeightsPop(cs: seq<Child>)
    requires |cs| > 0
    ensures Weights(cs) == Weights(cs[..|cs| - 1]) + Weight(cs[|cs| - 1])
  {
    assert cs == cs[..|cs| - 1] + [cs[|cs| - 1]];
    WeightsAppend(cs[..|cs| - 1], [cs[|cs| - 1]]);
  }

  lemma {:induction false} WeightOfElement(cs: seq<Child>, i: nat)
    requires i < |cs|
    ensures Weight(cs[i]) <= Weights(cs)
    decreases i
  {
    if i > 0 { WeightOfElement(cs[1..], i - 1); }
  }

  lemma {:induction false} WeightsSuffix(cs: seq<Child>, k: nat)
    requires k <= |cs|
    ensures Weights(cs[k..]) <= Weights(cs)
    decreases k
  {
    if k > 0 {
      WeightsSuffix(cs[1..], k - 1);
      assert cs[1..][k - 1..] == cs[k..];
    }
  }

  // ---------------------------------------------------------------------------
  // Ruby's reading of children.

  /** `exp.shift`: the first child and the rest; nil when there is none. */
  function Shift(exp: seq<Child>): (r: (Child, seq<Child>))
    ensures exp == [] ==> r == (Nil, [])
    ensures exp != [] ==> r == (exp[0], exp[1..])
    ensures Weight(r.0) + Weights(r.1) == Weights(exp)
  {
    if exp == [] then (Nil, []) else (exp[0], exp[1..])
  }

  /** `exp.first`, nil for an empty list. */
  function First(exp: seq<Child>): (r: Child)
    ensures Weight(r) <= Weights(exp)
    ensures r == Shift(exp).0
  {
    if exp == [] then Nil else exp[0]
  }

  /** `exp.last`, nil for an empty list. */
  function Last(exp: seq<Child>): (r: Child)
    ensures Weight(r) <= Weights(exp)
    ensures r == Pop(exp).0
  {
    if exp == [] then Nil
    else
      WeightsPop(exp);
      exp[|exp| - 1]
  }

  /** What `exp.shift` leaves behind. */
  function Tail(exp: seq<Child>): (r: seq<Child>)
    ensures r == Shift(exp).1
    ensures Weights(r) <= Weights(exp)
  {
    if exp == [] then [] else exp[1..]
  }

  /** What `exp.pop` leaves behind. */
  function Init(exp: seq<Child>): (r: seq<Child>)
    ensures r == Pop(exp).1
    ensures Weights(r) <= Weights(exp)
  {
    if exp == [] then [] else exp[..|exp| - 1]
  }

  /** `exp.pop`: the last child and the rest; nil when there is none. */
  function Pop(exp: seq<Child>): (r: (Child, seq<Child>))
    ensures exp == [] ==> r == (Nil, [])
    ensures exp != [] ==> r == (exp[|exp| - 1], exp[..|exp| - 1])
    ensures Weight(r.0) + Weights(r.1) == Weights(exp)
  {
    if exp == [] then (Nil, [])
    else
      WeightsPop(exp);
      (exp[|exp| - 1], exp[..|exp| - 1])
  }

  /** `c.first` / `c.sexp_type`: the kind of a sub-node; any other value raises. */
  function KindOf(c: Child): (r: Result<string>)
    ensures r.Ok? <==> c.N?
    ensures c.N? ==> r.value == c.node.kind
  {
    if c.N? then Ok(c.node.kind) else Err(Malformed)
  }

  predicate IsNodeOf(c: Child, kind: string) {
    c.N? && c.node.kind == kind
  }

  /** `c == s(:kind)`. */
  predicate IsBare(c: Child, kind: string) {
    IsNodeOf(c, kind) && c.node.children == []
  }

  /** Ruby truthiness: everything but nil and false. */
  predicate Truthy(c: Child) {
    c != Nil && c != Bool(false)
  }

  /** `node[i]` counting the kind tag as element 0. */
  function Elem(n: Node, i: nat): Child {
    if i == 0 then Sym(n.kind) else if i - 1 < |n.children| then n.children[i - 1] else Nil
  }

  /** `node.last`: the last child, or the kind tag itself when there are no children. */
  function LastElem(n: Node): (c: Child)
    ensures n.children != [] ==> c == n.children[|n.children| - 1]
  {
    if n.children == [] then Sym(n.kind) else n.children[|n.children| - 1]
  }

  /** `to_s` of a child that is interpolated into text. */
  function ToS(c: Child): (r: Result<string>)
    ensures r.Err? <==> c.N?
  {
    match c
    case Nil => Ok("")
    case Bool(b) => Ok(if b then "true" else "false")
    case Int(i) => Ok(IntToString(i))
    case Sym(s) => Ok(s)
    case Str(s) => Ok(s)
    case Obj(s) => Ok(s)
    case N(_) => Err(Foreign)
  }

  /** `find_nodes(kind)`: the direct children that are sub-nodes of that kind. */
  function FindNodes(cs: seq<Child>, kind: string): (r: seq<Node>)
    ensures forall i :: 0 <= i < |r| ==> r[i].kind == kind
    ensures |r| <= |cs|
    decreases |cs|
  {
    if |cs| == 0 then []
    else (if IsNodeOf(cs[0], kind) then [cs[0].node] else []) + FindNodes(cs[1..], kind)
  }

  /** `find_node(kind)` (also `exp.kind` through method_missing): nil, the one match, or a raise. */
  function FindNode(cs: seq<Child>, kind: string): (r: Result<Option<Node>>)
    ensures r.Err? <==> |FindNodes(cs, kind)| > 1
    ensures r == Ok(None) <==> FindNodes(cs, kind) == []
  {
    var m := FindNodes(cs, kind);
    if |m| == 0 then Ok(None) else if |m| == 1 then Ok(Some(m[0])) else Err(Malformed)
  }

  /** The children without those that are sub-nodes of `kind`. */
  function RemoveKind(cs: seq<Child>, kind: string): (r: seq<Child>)
    ensures |r| <= |cs|
    ensures FindNodes(r, kind) == []
    ensures Weights(r) <= Weights(cs)
    decreases |cs|
  {
    if |cs| == 0 then []
    else
      var head := if IsNodeOf(cs[0], kind) then [] else [cs[0]];
      var rest := RemoveKind(cs[1..], kind);
      WeightsAppend(head, rest);
      FindNodesAppend(head, rest, kind);
      head + rest
  }

  lemma {:induction false} FindNodesAppend(a: seq<Child>, b: seq<Child>, kind: string)
    ensures FindNodes(a + b, kind) == FindNodes(a, kind) + FindNodes(b, kind)
    decreases |a|
  {
    if |a| == 0 {
      assert a + b == b;
    } else {
      assert (a + b)[1..] == a[1..] + b;
      FindNodesAppend(a[1..], b, kind);
    }
  }

  // ---------------------------------------------------------------------------
  // Kind vocabularies of the processor and its rules.

  /** `Processor::ASSIGN_NODES`. */
  const AssignNodes: set<string> := {
    "dasgn", "flip2", "flip3", "lasgn", "masgn", "attrasgn", "op_asgn1", "op_asgn2",
    "op_asgn_and", "op_asgn_or", "return", "if", "rescue" }

  /** `Processor::NODES`: the kinds that have a `process_` method. */
  const Nodes: set<string> := {
    "alias", "and", "arglist", "args", "array", "attrasgn", "back_ref", "begin", "block",
    "block_pass", "break", "call", "case", "cdecl", "class", "colon2", "colon3", "const",
    "cvar", "cvasgn", "cvdecl", "defined", "defn", "defs", "dot2", "dot3", "dregx",
    "dregx_once", "dstr", "dsym", "dxstr", "ensure", "evstr", "false", "flip2", "flip3",
    "for", "gasgn", "gvar", "hash", "iasgn", "if", "iter", "ivar", "kwsplat", "lasgn",
    "lit", "lvar", "masgn", "match", "match2", "match3", "module", "next", "nil", "not",
    "nth_ref", "op_asgn1", "op_asgn2", "op_asgn_and", "op_asgn_or", "or", "postexe", "redo",
    "resbody", "rescue", "retry", "return", "sclass", "self", "splat", "str", "super",
    "svalue", "to_ary", "true", "undef", "until", "valias", "when", "while", "xstr",
    "yield", "zsuper" }

  /** The kinds whose rules this model spells out; the other kinds of `Nodes` stay abstract. */
  const ModelledRules: set<string> := {
    "arglist", "args", "array", "attrasgn", "begin", "block", "block_pass", "break", "call",
    "case", "cdecl", "class", "defn", "defs", "dregx", "dregx_once", "ensure", "for", "hash",
    "iasgn", "if", "iter", "masgn", "match2", "match3", "next", "op_asgn1", "op_asgn2",
    "op_asgn_and", "op_asgn_or", "resbody", "rescue", "return", "sclass", "splat", "super",
    "svalue", "undef", "when", "yield" }

  /** `Call::BINARY`: operator messages rendered infix. */
  const Binary: set<string> := {
    "<=>", "==", "<", ">", "<=", ">=", "-", "+", "*", "/", "%", "<<", ">>", "**", "!=" }

  /** `Hash::HASH_VAL_NO_PAREN`: value kinds that need no parentheses. */
  const HashValNoParen: set<string> := {
    "call", "false", "hash", "lit", "lvar", "nil", "str", "true" }

  /** Parent kinds under which `parenthesize` leaves its text alone (nil is the empty context). */
  const NoParenParents: set<string> := {
    "defn", "defs", "class", "sclass", "if", "iter", "resbody", "when", "while" }

  /** Receiver kinds that `Defs` leaves bare. */
  const BareReceivers: set<string> := { "self", "cvar", "dvar", "ivar", "gvar", "lvar" }
}
