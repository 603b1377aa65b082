# sexp2ruby in Dafny

sexp2ruby turns a Ruby S-expression, as produced by `ruby_parser`, back into
Ruby source text. This project models its core in Dafny and proves what the
renderer, the token type and the line-wrapping delexer promise.

The model has these modules:

- **`Sexp`** (`sexp.dfy`): the tree. It holds nodes with a kind, children and
  comments, plus the leaves the parser produces: symbols, integers, strings,
  booleans and nil. It also has the list helpers the rules use (`shift`,
  `pop`, `first`, `last`, `find_nodes`). A `Weight` measure proves that every
  rule terminates; it and its laws (`Weight`, `WeightsAppend`, `WeightsPop`,
  `WeightOfElement`, `WeightsSuffix`) are proof scaffolding with no counterpart
  in the Ruby code, so they have no row below.
- **`Text`** (`text.dfy`): the string operations the rules use. These are
  `indent`, `chomp`, `strip`, `lines`, `split(/\n/)`, the escapes of
  `dthing_escape`, and the regex rewrites (`gsub(/\n\s*\n+/)`,
  `sub(/\(\)$/)`, `sub(/\n\s*/)`), each written out by hand.
- **`Options`** (`options.dfy`): `Processor.new(option)`. It validates the
  keys, defaults `hash_syntax` to `:ruby19`, and collects
  `no_paren_methods`.
- **`Render`** (`render.dfy`): the renderer as pure functions, one per
  `Node::X#to_s`. It also covers the rewrite pass (`rewrite_attrasgn`,
  `rewrite_ensure`, `rewrite_resbody`, `rewrite_rescue`, `rewrite_svalue`),
  the dispatcher with its strict "every child consumed" check, and the
  `Processor` utilities (`finish`, `cond_loop`, `util_dthing`,
  `util_module_or_class`, `parenthesize`, `ruby19_hash_key?`).
- **`Engine`** (`engine.dfy`): class `Processor` with the mutable state
  `context` and `@calls`. One method per rule does what the Ruby does (apart
  from four calls the Ruby makes to helpers `Node::Base` does not delegate; see
  "## Left out"): it
  pushes the node kind on `context`, shifts children off in loops,
  accumulates into arrays and pops `context` again. Each method is proved to
  return exactly the corresponding `Render` function of the context on
  entry, and to restore `context` and `@calls` when it succeeds.
- **`Tokens`** and **`Delexing`** (`tokens.dfy`, `delexer.dfy`): `Token` and
  the `Delexer` class with its `@tokens`, `@lines`, `@n` and `@d`.
  - The `to_s` / `build_lines` loop is proved against a pure layout function
    `Build`.
  - `Build` is proved to keep every token's text, in order.
  - It never breaks before the first token and never breaks when no token
    allows it.
  - The examples in spec/lib/delexer_spec.rb are proved as lemmas.
- **The fact modules** (`processor_facts.dfy`, `call_facts.dfy`,
  `iter_facts.dfy`, `if_facts.dfy`, `defn_facts.dfy`, `hash_facts.dfy`,
  `block_facts.dfy`, `rescue_facts.dfy`, `assign_facts.dfy`,
  `expr_facts.dfy`): for every rule, the shape of Ruby it writes for each
  shape of input, the error cases, and the cross-rule facts. Examples:
  - an `if` fits on one line exactly when its modifier or ternary form is
    short enough;
  - a `def` body never has two consecutive newlines;
  - a hash key uses the `key: value` form exactly when it matches
    `RUBY_19_HASH_KEY`;
  - `process` succeeds exactly when the rule consumed the whole node.

Errors are values: `Result`'s error cases name each exception the Ruby code
raises:

| error | Ruby exception |
|---|---|
| `InvalidOption` | `InvalidOption` |
| `InvalidArgument` | `ArgumentError` |
| `UnknownKind` | an unknown node type |
| `NotConsumed` | the strict processor's "exp not empty" |
| `Malformed` | a `raise` in a rule or a `NoMethodError` on an unexpected shape |
| `Unsupported` | the `dthing_escape` fall-through |
| `Foreign` | `inspect` of a sub-tree |

Rules return the text and the children they left unconsumed.

Two places where this model commits to one reading of the code:

- The rewrite pass runs once over the whole tree, bottom-up, before the
  top-level `process`, as `SexpProcessor` does for an empty context. Each
  rewriter sees the parent kind as the head of the context.
- `RUBY_19_HASH_KEY` (`/\A[a-z][_a-zA-Z0-9]+\Z/`) needs at least two
  characters. So `{ :a => 1 }` keeps the rocket form, while `{ ab: 1 }` uses
  the new one (`HashFacts.SingleLetterKeyRocket`).

## Model

| member | source | states |
|---|---|---|
| Tokens.NewToken | lib/sexp2ruby/token.rb:34-40 | a token is created exactly when its type is in `TYPES`; otherwise the result is `ArgumentError`; the created token keeps the type and the value |
| Tokens.CanBreakAfterExactly | lib/sexp2ruby/token.rb:27-44 | a valid token allows a break after it exactly when it is `tDOT` or `tLPAREN` |
| Tokens.CanBreakBeforeExactly | lib/sexp2ruby/token.rb:30-48 | a valid token allows a break before it exactly when it is `tRPAREN` |
| Options.CheckOptionKeys | lib/sexp2ruby/processor.rb:224-229 | succeeds exactly when every key is in `CONSTRUCTOR_OPTIONS`, otherwise `InvalidOption` |
| Options.ExtractOption | lib/sexp2ruby/processor.rb:269-277 | nil gives the default; an allowed value gives itself; any other value is `InvalidOption` |
| Options.NewConfig | lib/sexp2ruby/processor.rb:132-141 | a configuration exists exactly when the keys are allowed and `hash_syntax` is nil, `:ruby18` or `:ruby19`; `hash_syntax` defaults to `:ruby19`; `no_paren_methods` is the option, or empty |
| Engine.Processor.constructor | lib/sexp2ruby/processor.rb:132-141 | a new processor has the given configuration, empty `@calls` and an empty context |
| Engine.Processor.New | lib/sexp2ruby/processor.rb:132-141 | `Processor.new` succeeds exactly when the options are valid; the fresh processor starts with no calls and no context; a bad option is `InvalidOption` |
| Engine.Processor.CallPush | lib/sexp2ruby/processor.rb:166-168 | appends the name to `@calls` and leaves the context alone |
| Engine.Processor.CallPop | lib/sexp2ruby/processor.rb:162-164 | removes and returns the last pushed name, or nil when `@calls` is empty |
| Engine.Processor.Render | lib/sexp2ruby/processor.rb:173-219 | rewriting and then processing the tree from the top gives `Render.Render`; the context is empty again afterwards |
| Engine.Processor.Process | lib/sexp2ruby/processor.rb:150-157 | push the kind, run the rule, insist that the node is used up, pop: equals `Render.Process`; context and calls are restored on success |
| Engine.Processor.Dispatch | lib/sexp2ruby/processor.rb:37-122 | picks the rule for each of the `NODES` kinds; equals `Render.Dispatch` |
| Engine.Processor.Finish | lib/sexp2ruby/processor.rb:281-287 | the loop that processes every child and drops the nils equals `Render.Finish` |
| Engine.Processor.ProcessEach | lib/sexp2ruby/node/defn.rb:51-54 | the loop that processes every child, keeping nils as empty strings, equals `Render.ProcessEach` |
| Engine.Processor.CondLoop | lib/sexp2ruby/processor.rb:232-250 | `while`/`until` as a block loop or as a `begin … end while` post-condition loop; equals `Render.CondLoop` |
| Engine.Processor.UtilDthing | lib/sexp2ruby/processor.rb:319-343 | the loop over interpolation fragments equals `Render.UtilDthing`, which escapes backticks with a backslash where processor.rb:261 inserts the prematch (see "## Findings") |
| Engine.Processor.UtilModuleOrClass | lib/sexp2ruby/processor.rb:346-372 | the header, the optional superclass and the body paragraphs separated by blank lines equal `Render.ModuleOrClass` |
| Engine.Processor.Arglist | lib/sexp2ruby/node/arglist.rb:4-13 | the loop over arguments equals `Render.Arglist` |
| Engine.Processor.Args | lib/sexp2ruby/node/args.rb:4-30 | the loop over parameters equals `Render.Args` |
| Engine.Processor.ArgItem | lib/sexp2ruby/node/args.rb:9-26 | one parameter (symbol, `lasgn`/`masgn` default, `kwarg`, or raise) equals `Render.ArgItem` |
| Engine.Processor.Array | lib/sexp2ruby/node/array.rb:4-6 | `[a, b]`, one item per child (`ExprFacts.ArrayForm`); equals `Render.Array` |
| Engine.Processor.Attrasgn | lib/sexp2ruby/node/attrasgn.rb:4-25 | index assignment, setter call or raise; equals `Render.Attrasgn` |
| Engine.Processor.Begin | lib/sexp2ruby/node/begin.rb:6-16 | the loop over the statements equals `Render.Begin` |
| Engine.Processor.Block | lib/sexp2ruby/node/block.rb:4-21 | the loop over the statements with the "# do nothing" and parenthesize cases equals `Render.Block` |
| Engine.Processor.BlockPass | lib/sexp2ruby/node/block_pass.rb:4-7 | `&value`, or a raise for more than one child (`ExprFacts.BlockPassForms`); equals `Render.BlockPass` |
| Engine.Processor.Jump | lib/sexp2ruby/node/break.rb:4-11 | the shared body of `break` and `next` equals `Render.Jump` |
| Engine.Processor.Break | lib/sexp2ruby/node/break.rb:4-11 | `break` or `break value` (`ExprFacts.JumpForms`); equals `Render.Break` |
| Engine.Processor.Next | lib/sexp2ruby/node/next.rb:4-11 | `next` or `next value` (`ExprFacts.JumpForms`); equals `Render.Next` |
| Engine.Processor.Call | lib/sexp2ruby/node/call.rb:42-99 | the receiver (parenthesized after an assignment), then the rest; equals `Render.Call`; `@calls` is back to its old value |
| Engine.Processor.CallBody | lib/sexp2ruby/node/call.rb:47-99 | the old-style `arglist` flattening, `call_push`, the arguments, the case over the name, `call_pop`; equals the tail of `Render.Call` |
| Engine.Processor.CallArgs | lib/sexp2ruby/node/call.rb:55-74 | the argument loop: empty results skipped, a trailing hash stripped of braces, assignments parenthesized; equals `Render.CallArgs` |
| Engine.Processor.Case | lib/sexp2ruby/node/case.rb:4-24 | the loop over `when` and `else` clauses equals `Render.Case` |
| Engine.Processor.Cdecl | lib/sexp2ruby/node/cdecl.rb:4-14 | `X`, `X = v` or `A::X = v` (`AssignFacts.CdeclForms`); equals `Render.Cdecl` |
| Engine.Processor.Class | lib/sexp2ruby/node/class.rb:4-6 | `class Name < Super`, the indented body, `end` (`ProcessorFacts.ClassEmpty`, `ClassSuperclass`, `ClassBody`); equals `Render.Class` |
| Engine.Processor.Defn | lib/sexp2ruby/node/defn.rb:4-41 | the `attr_reader` / `attr_writer` shortcuts, or the full definition; equals `Render.Defn` |
| Engine.Processor.FullDef | lib/sexp2ruby/node/defn.rb:43-62 | name, arguments, body loop, begin/end unwrapping, indentation and blank-line collapsing; equals `Render.FullDef` |
| Engine.Processor.Defs | lib/sexp2ruby/node/defs.rb:4-14 | the `def` of `recv.name`, the receiver parenthesized unless it is self or a variable (`AssignFacts.DefsQualified`); equals `Render.Defs` |
| Engine.Processor.Dregx | lib/sexp2ruby/node/dregx.rb:4-16 | `/…/` and the flag letters of an integer last child (`ExprFacts.DregxFlags`); equals `Render.Dregx` |
| Engine.Processor.DregxOnce | lib/sexp2ruby/node/dregx_once.rb:4-6 | the same regex followed by `o` (`ExprFacts.DregxPlain`); equals `Render.DregxOnce` |
| Engine.Processor.Ensure | lib/sexp2ruby/node/ensure.rb:4-15 | the body, `ensure` and the indented ensure part, `# do nothing` for nil (`RescueFacts.EnsureNilPart`, `EnsurePlain`); equals `Render.Ensure` |
| Engine.Processor.For | lib/sexp2ruby/node/for.rb:4-14 | `for v in r do`, the body, `end` (`BlockFacts.ForForm`); equals `Render.For` |
| Engine.Processor.Hash | lib/sexp2ruby/node/hash.rb:23-51 | the loop over `kwsplat`s and key/value pairs equals `Render.Hash` |
| Engine.Processor.Iasgn | lib/sexp2ruby/node/iasgn.rb:4-11 | `@x` or `@x = v` (`AssignFacts.IasgnForms`); equals `Render.Iasgn` |
| Engine.Processor.If | lib/sexp2ruby/node/if.rb:4-37 | the one-line modifier or ternary form exactly when it fits, otherwise the block form (`IfFacts.OneLineIff`, `IfComposes`); equals `Render.If` |
| Engine.Processor.IterArgs | lib/sexp2ruby/node/iter.rb:35-40 | block parameters `\|…\|`, or none for `0`; equals `Render.IterArgs` |
| Engine.Processor.Iter | lib/sexp2ruby/node/iter.rb:21-74 | the brace form on one line exactly when `same_line_bracket_block?` accepts it, otherwise `do … end` (`IterFacts.OneLineIff`, `IterComposes`); equals `Render.Iter` |
| Engine.Processor.Masgn | lib/sexp2ruby/node/masgn.rb:7-43 | the target loop and the right-hand side equal `Render.Masgn` |
| Engine.Processor.Match2 | lib/sexp2ruby/node/match2.rb:4-8 | `lhs =~ rhs` in the children's order (`ExprFacts.Match2Form`); equals `Render.Match2` |
| Engine.Processor.Match3 | lib/sexp2ruby/node/match3.rb:4-14 | `value =~ /re/` with an assignment value parenthesized (`ExprFacts.Match3Form`); equals `Render.Match3` |
| Engine.Processor.OpAsgn1 | lib/sexp2ruby/node/op_asgn1.rb:6-13 | `recv[i] op= v` (`AssignFacts.OpAsgn1Form`); equals `Render.OpAsgn1` |
| Engine.Processor.OpAsgn2 | lib/sexp2ruby/node/op_asgn2.rb:6-14 | `recv.attr op= v` (`AssignFacts.OpAsgn2Form`); equals `Render.OpAsgn2` |
| Engine.Processor.OpAsgnLogical | lib/sexp2ruby/node/op_asgn_and.rb:7-10 | the shared body of `&&=` and `\|\|=` equals `Render.OpAsgnLogical` |
| Engine.Processor.OpAsgnAnd | lib/sexp2ruby/node/op_asgn_and.rb:7-10 | `a &&= v` (`AssignFacts.OpAsgnLogicalForm`); equals `Render.OpAsgnAnd` |
| Engine.Processor.OpAsgnOr | lib/sexp2ruby/node/op_asgn_or.rb:7-10 | `a \|\|= v` (`AssignFacts.OpAsgnLogicalForm`); equals `Render.OpAsgnOr` |
| Engine.Processor.Resbody | lib/sexp2ruby/node/resbody.rb:4-16 | `rescue Cls => e` and the indented handler, `# do nothing` when empty (`RescueFacts.ResbodyNamed`, `ResbodyEmpty`); equals `Render.Resbody` |
| Engine.Processor.Rescue | lib/sexp2ruby/node/rescue.rb:4-8 | the body taken off the front, defaulting to "# do nothing"; equals `Render.Rescue` |
| Engine.Processor.RescueFrom | lib/sexp2ruby/node/rescue.rb:6-28 | the `else` part, the resbody loop and the three layouts; equals `Render.RescueFrom` |
| Engine.Processor.RescueClauses | lib/sexp2ruby/node/rescue.rb:9-19 | the `simple` flag and the resbody loop equal `Render.RescueClauses` |
| Engine.Processor.Return | lib/sexp2ruby/node/return.rb:4-10 | `return` or `return value` (`ExprFacts.ReturnForms`); equals `Render.Return` |
| Engine.Processor.Sclass | lib/sexp2ruby/node/sclass.rb:4-6 | `class << recv`, the block of the rest indented, `end` (`BlockFacts.SclassForm`); equals `Render.Sclass` |
| Engine.Processor.Splat | lib/sexp2ruby/node/splat.rb:4-10 | `*` or `*value` (`ExprFacts.SplatForms`); equals `Render.Splat` |
| Engine.Processor.Super | lib/sexp2ruby/node/super.rb:4-7 | `super(…)`, always with parentheses and nils dropped (`ExprFacts.SuperForm`); equals `Render.Super` |
| Engine.Processor.Svalue | lib/sexp2ruby/node/svalue.rb:4-10 | the values joined by ", " (`ExprFacts.SvalueForm`); equals `Render.Svalue` |
| Engine.Processor.Undef | lib/sexp2ruby/node/undef.rb:4-6 | `undef name` (`ExprFacts.UndefForm`); equals `Render.Undef` |
| Engine.Processor.When | lib/sexp2ruby/node/when.rb:4-21 | `*value` when the parent is an `:array`, otherwise `when conds then` and the statements (`BlockFacts.WhenInArray`, `WhenForm`); equals `Render.When` |
| Engine.Processor.Yield | lib/sexp2ruby/node/yield.rb:4-15 | `yield` or `yield(a, b)`, one argument per child (`ExprFacts.YieldForm`); equals `Render.Yield` |
| Render.Prepend | lib/sexp2ruby/processor.rb:281-287 | the accumulator of every loop: an empty prefix changes nothing, a prefix before an empty list is the prefix, and errors pass through |
| Render.PrependAssoc | lib/sexp2ruby/processor.rb:281-287 | accumulating in two steps equals accumulating the concatenation |
| Render.FlattenArglist | lib/sexp2ruby/node/call.rb:51 | flattening a lone `arglist` never makes the tree heavier |
| Render.RescueSimpleHead | lib/sexp2ruby/node/rescue.rb:9-11 | the initial `simple` flag holds only for exactly one resbody |
| Sexp.Shift | lib/sexp2ruby/node/if.rb:6-8 | `exp.shift`: the first child and the rest, or nil on an empty list; weight is conserved |
| Sexp.First | lib/sexp2ruby/node/call.rb:43 | `exp.first` is the child `shift` would take |
| Sexp.Last | lib/sexp2ruby/node/rescue.rb:6 | `exp.last` is the child `pop` would take |
| Sexp.Tail | lib/sexp2ruby/node/if.rb:6-8 | what remains after `shift` |
| Sexp.Init | lib/sexp2ruby/node/attrasgn.rb:7 | what remains after `pop` |
| Sexp.Pop | lib/sexp2ruby/node/attrasgn.rb:7 | `exp.pop`: the last child and the prefix, or nil on an empty list; weight is conserved |
| Sexp.KindOf | lib/sexp2ruby/node/call.rb:57 | `sexp_type` exists exactly for sub-nodes and is their kind |
| Sexp.LastElem | lib/sexp2ruby/node/defn.rb:14 | `node.last` is the node's final child |
| Sexp.ToS | lib/sexp2ruby/processor.rb:294-296 | `to_s` of a leaf is defined; of a sub-node it is foreign |
| Sexp.FindNodes | lib/sexp2ruby/node/defn.rb:14-30 | `find_nodes` returns only children of the asked kind, no more of them than there are children |
| Sexp.FindNode | lib/sexp2ruby/node/resbody.rb:9-10 | `exp.kind` (the `method_missing` lookup) raises exactly when several children match and is nil exactly when none does |
| Sexp.RemoveKind | lib/sexp2ruby/node/resbody.rb:9-10 | `find_node(kind, true)` leaves no child of that kind |
| Sexp.FindNodesAppend | lib/sexp2ruby/node/defn.rb:14-30 | `find_nodes` distributes over concatenation |
| Text.Interp | lib/sexp2ruby/processor.rb:281-287 | `"#{x}"` of nil is "" and of a string is the string |
| Text.Spaces | lib/sexp2ruby/delexer.rb:38 | `SPACE * n` is n spaces |
| Text.Fields | lib/sexp2ruby/processor.rb:299-301 | splitting at newlines gives at least one field |
| Text.DropTrailingEmpty | lib/sexp2ruby/processor.rb:299-301 | `split` drops trailing empty fields and keeps the rest in order |
| Text.PrefixEach | lib/sexp2ruby/processor.rb:299-301 | `map { @indent_lvl + line }` prefixes every line, line for line |
| Text.Chomp | lib/sexp2ruby/node/when.rb:17 | `chomp` returns a prefix of its input |
| Text.LStrip | lib/sexp2ruby/node/iter.rb:54 | `lstrip` keeps a suffix that does not start with white space |
| Text.RStrip | lib/sexp2ruby/node/iter.rb:54 | `rstrip` keeps a prefix that does not end with white space or NUL |
| Text.SpaceRun | lib/sexp2ruby/node/rescue.rb:24 | the `\s*` run is white space and stops at the first other character |
| Text.NewlineSpan | lib/sexp2ruby/node/defn.rb:62 | the `\n\s*\n+` span is white space ending in a newline |
| Text.RubyLines | lib/sexp2ruby/node/defn.rb:58 | `lines` is empty exactly for the empty string |
| Text.Inner | lib/sexp2ruby/node/defn.rb:58 | `[1..-2]` drops the first and the last element |
| Text.Trim | lib/sexp2ruby/node/call.rb:69 | `s[k..-k-1]` is nil exactly for strings shorter than k, and otherwise drops k characters at each end |
| Text.DropLast | lib/sexp2ruby/node/defn.rb:26 | `to_s[0..-2]` drops the last character |
| Text.DropFirst | lib/sexp2ruby/node/defn.rb:16 | `[1..-1]` drops the first character, and is nil on an empty string |
| Text.NatToString | lib/sexp2ruby/processor.rb:294-296 | a decimal numeral is never empty |
| Text.EscapeNewlines | lib/sexp2ruby/processor.rb:253-265 | `gsub(/\n/, '\n')` leaves no newline |
| Text.ReplaceByPrematch | lib/sexp2ruby/processor.rb:261 | a replacement of `c` by the prematch leaves a text without `c` unchanged |
| Text.EscapeNewlinesAbsent | lib/sexp2ruby/processor.rb:254 | a text without newlines is left unchanged by the newline escape |
| Text.FieldsNewlineAtEnd | lib/sexp2ruby/processor.rb:299-301 | a final newline adds one empty field |
| Text.FieldsOneLine | lib/sexp2ruby/processor.rb:299-301 | a text without a newline is one field |
| Text.FieldsFirstLine | lib/sexp2ruby/processor.rb:299-301 | the first line is the first field |
| Text.DropTrailingEmptyAppend | lib/sexp2ruby/processor.rb:299-301 | a trailing empty field is dropped |
| Text.DropTrailingEmptyFront | lib/sexp2ruby/processor.rb:299-301 | a leading field survives |
| Text.IndentEmpty | lib/sexp2ruby/processor.rb:299-301 | `indent("")` is "" |
| Text.IndentIgnoresFinalNewline | lib/sexp2ruby/processor.rb:299-301 | `indent` drops one final newline |
| Text.IndentOneLine | lib/sexp2ruby/processor.rb:299-301 | one line is indented by two spaces |
| Text.IndentFirstLine | lib/sexp2ruby/processor.rb:299-301 | `indent` works line by line |
| Text.NoNewlineNoLineStart | lib/sexp2ruby/node/defn.rb:60 | a one-line text has no line starting with a given word, so the rescue-at-line-start tests fail on it |
| Text.ContainsInRight | lib/sexp2ruby/node/if.rb:16 | a substring of the right part is a substring of the whole |
| Text.ContainsInLeft | lib/sexp2ruby/node/if.rb:16 | a substring of the left part is a substring of the whole |
| Text.EscapeCharRoundTrip | lib/sexp2ruby/processor.rb:253-265 | escaping the closing quote can be undone |
| Text.EscapeCharHead | lib/sexp2ruby/processor.rb:253-265 | escaping keeps emptiness and backslashes a quote at the head |
| Text.EscapeCharAbsent | lib/sexp2ruby/processor.rb:253-265 | escaping a quote that never occurs changes nothing |
| Text.EscapeSlashesAbsent | lib/sexp2ruby/processor.rb:253-265 | escaping slashes in a text without one changes nothing |
| Text.EscapeSlashesDoubled | lib/sexp2ruby/processor.rb:253-265 | the slash escape backslashes a bare slash and leaves an escaped one |
| Text.SpaceRunOfSpaces | lib/sexp2ruby/node/rescue.rb:24 | the `\s*` run after spaces is exactly those spaces |
| Text.JoinFirstBreakIndented | lib/sexp2ruby/node/rescue.rb:24 | `sub(/\n\s*/, ' ')` joins the first two lines with one space |
| ProcessorFacts.ProcessScalars | lib/sexp2ruby/processor.rb:150-157 | processing nil gives nil; processing any other leaf raises |
| ProcessorFacts.StrictConsumption | lib/sexp2ruby/processor.rb:139-140 | `process` succeeds exactly when the rule succeeds and consumes every child; the text is the rule's text; leftovers are `NotConsumed` |
| ProcessorFacts.UnknownKindRaises | lib/sexp2ruby/processor.rb:37-122 | a kind outside `NODES` raises |
| ProcessorFacts.ModelledRulesKnown | lib/sexp2ruby/processor.rb:37-122 | every kind with a rule of its own is in `NODES` |
| ProcessorFacts.DispatchUnknown | lib/sexp2ruby/processor.rb:37-122 | the dispatcher rejects a kind that has no rule and is not in `NODES` |
| ProcessorFacts.UnshownKind | lib/sexp2ruby/processor.rb:150-157 | a `NODES` kind whose rule is kept abstract renders as the configured rendering |
| ProcessorFacts.RewriteScalar | lib/sexp2ruby/processor.rb:173-219 | rewriting leaves leaves alone |
| ProcessorFacts.RewriteEnsureWraps | lib/sexp2ruby/processor.rb:182-185 | an `ensure` is wrapped in `begin` exactly when its parent is not a `begin` |
| ProcessorFacts.DropEqAtEolSetter | lib/sexp2ruby/processor.rb:173-180 | `sub(/=$/, '')` turns a setter name into its attribute |
| ProcessorFacts.RewriteAttrasgnInMasgn | lib/sexp2ruby/processor.rb:173-180 | an `attrasgn` target of a `masgn` becomes a `call` of the attribute, and stays as it is elsewhere |
| ProcessorFacts.RewriteResbodyNeedsArray | lib/sexp2ruby/processor.rb:187-192 | a resbody passes exactly when it has an array of classes, and otherwise raises |
| ProcessorFacts.RewriteSvalueSources | lib/sexp2ruby/processor.rb:210-219 | an array value is unwrapped, a splat is kept, anything else raises |
| ProcessorFacts.RewriteRescueWraps | lib/sexp2ruby/processor.rb:194-208 | a complex rescue outside an `ensure` is wrapped in `begin`; any other is kept |
| ProcessorFacts.RescueManyChildrenComplex | lib/sexp2ruby/processor.rb:194-208 | a rescue with more than two children is complex |
| ProcessorFacts.SimpleRescueNotComplex | lib/sexp2ruby/processor.rb:194-208 | a body plus one bare resbody with a plain handler is not complex |
| ProcessorFacts.RescueSimpleResbodies | lib/sexp2ruby/processor.rb:194-208 | such a resbody has no classes, has a handler, and has no block |
| ProcessorFacts.SimpleRescueUnwrapped | lib/sexp2ruby/processor.rb:194-208 | so such a rescue survives the rewrite unwrapped |
| ProcessorFacts.ParenthesizeExactly | lib/sexp2ruby/processor.rb:304-311 | the text is kept exactly under no parent or under a statement-like parent; otherwise it is wrapped in one pair of parentheses |
| ProcessorFacts.NatToStringStartsWithDigit | lib/sexp2ruby/processor.rb:289-296 | a numeral starts with a digit |
| ProcessorFacts.Ruby19HashKeySymbol | lib/sexp2ruby/processor.rb:29-30 | a symbol key qualifies exactly when it matches `RUBY_19_HASH_KEY`; `:a` and `:Ab` do not, `:ab` and `:a_1` do |
| ProcessorFacts.Ruby19HashKeyNotNumericOrString | lib/sexp2ruby/processor.rb:289-296 | integer and string keys never qualify |
| ProcessorFacts.EscapeCharKeepsNoNewline | lib/sexp2ruby/processor.rb:253-265 | escaping a quote adds no newline |
| ProcessorFacts.EscapeSlashesKeepsNoNewline | lib/sexp2ruby/processor.rb:253-265 | escaping slashes adds no newline |
| ProcessorFacts.DthingEscapeKinds | lib/sexp2ruby/processor.rb:253-265 | escaping is defined exactly for `dregx`, `dstr`, `dsym` and `dxstr`; it leaves no newline; the quote escape, and the intended backtick escape, undo to the newline-escaped text; a slash-free regex fragment only has its newlines escaped |
| ProcessorFacts.DxstrEscapeAsWritten | lib/sexp2ruby/processor.rb:260-261 | as written, the `:dxstr` escape turns `` a`b `` into `aab` and `` a`b`c `` into `` aaba`bc ``, which unescaping cannot undo; the intended escape gives `` a\`b ``, which unescapes to `` a`b `` |
| ProcessorFacts.PrematchOneBacktick | lib/sexp2ruby/processor.rb:261 | `` gsub(/`/, '\`') `` replaces the backtick of `` a`b `` by the `a` in front of it |
| ProcessorFacts.PrematchTwoBackticks | lib/sexp2ruby/processor.rb:261 | each backtick is replaced by the whole text in front of it, earlier backticks included |
| ProcessorFacts.BacktickEscapeExample | lib/sexp2ruby/processor.rb:261 | example: the intended escape of `` a`b `` and what unescaping makes of both results |
| ProcessorFacts.EscapeNewlinesNoSlash | lib/sexp2ruby/processor.rb:253-265 | escaping newlines adds no slash |
| ProcessorFacts.FinishStep | lib/sexp2ruby/processor.rb:281-287 | `finish` drops a nil result and keeps any other, in order |
| ProcessorFacts.FinishNils | lib/sexp2ruby/processor.rb:281-287 | `finish` of nils only is empty |
| ProcessorFacts.CondLoopHead | lib/sexp2ruby/processor.rb:232-250 | a head-tested loop is `while cond do`, the indented body, `end` |
| ProcessorFacts.CondLoopTail | lib/sexp2ruby/processor.rb:232-250 | a tail-tested loop is `begin`, the indented body, `end while cond` |
| ProcessorFacts.CondLoopShifts | lib/sexp2ruby/processor.rb:232-250 | the three shifts of `cond_loop` take the three children in order |
| ProcessorFacts.ChompIndentOneLine | lib/sexp2ruby/processor.rb:232-250 | a one-line body is indented and not chomped further |
| ProcessorFacts.ClassEmpty | lib/sexp2ruby/processor.rb:346-372 | an empty class is `class Name` and `end`, after its comments |
| ProcessorFacts.ClassSuperclass | lib/sexp2ruby/processor.rb:346-372 | a superclass is written `< Super` |
| ProcessorFacts.ClassBody | lib/sexp2ruby/processor.rb:346-372 | body statements are indented and separated by a blank line |
| ProcessorFacts.ModuleBodyTwo | lib/sexp2ruby/processor.rb:358-366 | two one-line statements give their two texts |
| ProcessorFacts.ModuleBodyStep | lib/sexp2ruby/processor.rb:358-366 | the body loop keeps each statement's chomped text in order |
| ProcessorFacts.IndentTwoParagraphs | lib/sexp2ruby/processor.rb:299-301 | indenting two paragraphs keeps the blank line between them as bare indentation |
| ProcessorFacts.SplitTwoParagraphs | lib/sexp2ruby/processor.rb:299-301 | two paragraphs split into the first line, an empty line and the second line |
| ProcessorFacts.ThreeLines | lib/sexp2ruby/processor.rb:346-372 | joining three lines puts newlines between them |
| ProcessorFacts.ClassLayout | lib/sexp2ruby/processor.rb:346-372 | the header, the body and `end` in one text |
| ProcessorFacts.ChompOneLine | lib/sexp2ruby/processor.rb:358-366 | `chomp` leaves a text without line endings alone |
| ProcessorFacts.LastDiffers | lib/sexp2ruby/processor.rb:358-366 | a text does not end with a suffix whose last character differs from its own |
| ProcessorFacts.ReOptBits | lib/sexp2ruby/node/dregx.rb:12-16 | for any integer, bits 0, 1 and 2 give `i`, `x` and `m` in that order, followed by what bits 3..8 give |
| ProcessorFacts.ReOptHighBit | lib/sexp2ruby/node/dregx.rb:12-16 | each bit 3..8 adds its configured encoding code when it is set and has one, and nothing otherwise |
| ProcessorFacts.ReOptHighUnconfigured | lib/sexp2ruby/node/dregx.rb:12-16 | bits 3..8 add nothing when no set bit among them has a configured code |
| ProcessorFacts.BitMod512 | lib/sexp2ruby/node/dregx.rb:13 | `options[n]` for n <= 8 is the same bit of the option modulo 512, negatives read in two's complement |
| ProcessorFacts.ReOptMod512 | lib/sexp2ruby/node/dregx.rb:13 | only bits 0..8 are read: an option and its remainder modulo 512 give the same flags |
| ProcessorFacts.ReOptLowBits | lib/sexp2ruby/node/dregx.rb:12-16 | corollary of `ReOptBits`: below 8 the flags 1, 2 and 4 give the letters `i`, `x` and `m`, in that order |
| ProcessorFacts.ReOptExamples | lib/sexp2ruby/node/dregx.rb:12-16 | example: 0 gives no letters, 1 gives `i`, 5 gives `im`, 7 gives `ixm` |
| CallFacts.ReceiverParenthesized | lib/sexp2ruby/node/call.rb:42-96 | a call without arguments is `receiver.name`, with the receiver parenthesized after an assignment |
| CallFacts.ArglistFlattened | lib/sexp2ruby/node/call.rb:51 | a call with an old-style `arglist` renders like the call with its children |
| CallFacts.EmptyArgumentDropped | lib/sexp2ruby/node/call.rb:59-61 | an argument that renders empty is skipped |
| CallFacts.ArgumentKept | lib/sexp2ruby/node/call.rb:59-72 | any other non-hash argument is kept, parenthesized when it is an assignment |
| CallFacts.HashArgumentStripped | lib/sexp2ruby/node/call.rb:63-69 | a hash argument loses its braces exactly when the call is not binary, the hash is not empty, and it is last or before a splat |
| CallFacts.TrimBraces | lib/sexp2ruby/node/call.rb:69 | `arg[2..-3]` of `{ inner }` is `inner` |
| CallFacts.EndOrSplatCases | lib/sexp2ruby/node/call.rb:66 | the "last or before a splat" test |
| CallFacts.IndexAssignment | lib/sexp2ruby/node/call.rb:82-85 | `recv[i, …] = v`, with `self` when there is no receiver |
| CallFacts.BinaryForm | lib/sexp2ruby/node/call.rb:77-78 | for any receiver, binary operator and arguments: `(recv op a, b)` |
| CallFacts.UnaryForms | lib/sexp2ruby/node/call.rb:86-91 | for any receiver: `!` is `(not recv)`, `-@` is `-recv`, `+@` is `+recv`, whatever the arguments |
| CallFacts.IndexForm | lib/sexp2ruby/node/call.rb:79-81 | for any receiver and arguments: `recv[a, b]`, with `self` for a missing receiver |
| CallFacts.PlainForm | lib/sexp2ruby/node/call.rb:92-111 | for any other name: `recv.name` or the bare name, then nothing without arguments, ` a, b` for a `no_paren_methods` name, `(a, b)` otherwise |
| CallFacts.CallComposes | lib/sexp2ruby/node/call.rb:42-96 | for any receiver, name and arguments the rule writes the `case name` text of the receiver (parenthesized when it is an assignment) and the argument loop's items, and consumes everything |
| CallFacts.CallTextError | lib/sexp2ruby/node/call.rb:42-96 | when the `case name` cannot write the name, the rule raises that same error |
| IterFacts.BlockParams | lib/sexp2ruby/node/iter.rb:35-40 | no parameters for `0`, otherwise ` \|…\|` around the parameter list without its parentheses |
| IterFacts.DropFinalEmptyParens | lib/sexp2ruby/node/iter.rb:48 | `sub(/\(\)$/, '')` removes a final `()` |
| IterFacts.KeepWithoutEmptyParens | lib/sexp2ruby/node/iter.rb:48 | and leaves a call without one alone |
| IterFacts.OneLineIff | lib/sexp2ruby/node/iter.rb:51-90 | a block is on one line exactly when `same_line_bracket_block?` accepts the brace form |
| IterFacts.MultiLineHasNewline | lib/sexp2ruby/node/iter.rb:63-73 | otherwise the block spans several lines |
| IterFacts.MultiLineForm | lib/sexp2ruby/node/iter.rb:42-73 | the multi-line form is `call do \|args\|`, the indented body, `end` |
| IterFacts.EndUsesBraces | lib/sexp2ruby/node/iter.rb:42-46 | an `END` block uses braces even on several lines |
| IterFacts.BraceExample | lib/sexp2ruby/node/iter.rb:51-61 | `a.each { \|x\| p x }` |
| IterFacts.BraceText | lib/sexp2ruby/node/iter.rb:51-56 | the brace form of that example, which `same_line_bracket_block?` accepts |
| IterFacts.StripPX | lib/sexp2ruby/node/iter.rb:54 | `strip` leaves `p x` alone |
| IterFacts.IterComposes | lib/sexp2ruby/node/iter.rb:21-74 | the rule is the layout of the rendered call, the parameters and the body |
| IfFacts.OneLineIff | lib/sexp2ruby/node/if.rb:12-36 | an `if` is on one line exactly when it is not expanded and its modifier or ternary form exists and fits |
| IfFacts.BlockFormHasNewline | lib/sexp2ruby/node/if.rb:23-36 | otherwise it spans several lines |
| IfFacts.NewlineEnds | lib/sexp2ruby/node/if.rb:23-27 | a text that ends with a newline has one |
| IfFacts.TernaryCandidate | lib/sexp2ruby/node/if.rb:14-16 | `c ? (t) : (f)` unless it mentions `return` |
| IfFacts.ModifierCandidates | lib/sexp2ruby/node/if.rb:12-33 | `t if c`, `f unless c`, nothing without branches |
| IfFacts.BlockForms | lib/sexp2ruby/node/if.rb:23-33 | `if c then … else … end` and `unless c then … end` |
| IfFacts.NoBranches | lib/sexp2ruby/node/if.rb:34-36 | an `if` without branches keeps `# do nothing` |
| IfFacts.ShortModifierUsed | lib/sexp2ruby/node/if.rb:17-20 | a short one-branch `if` becomes `t if c` |
| IfFacts.IfComposes | lib/sexp2ruby/node/if.rb:4-10 | a multi-line condition is parenthesized and chomped; an assignment condition forces the block form |
| IfFacts.AssignConditionExpands | lib/sexp2ruby/node/if.rb:5-27 | an `if` on an assignment always spans several lines |
| DefnFacts.AttrReader | lib/sexp2ruby/node/defn.rb:13-22 | `def x; @x; end` is `attr_reader :x` |
| DefnFacts.AttrWriter | lib/sexp2ruby/node/defn.rb:27-37 | `def x=(a); @x = a; end` is `attr_writer :x` |
| DefnFacts.AttrSet | lib/sexp2ruby/node/defn.rb:23-26 | an `attrset` body is `attr_writer` of the name without its last character |
| DefnFacts.FindNodesThree | lib/sexp2ruby/node/defn.rb:14-30 | `find_nodes` on three children, child by child |
| DefnFacts.MismatchedReader | lib/sexp2ruby/node/defn.rb:13-22 | a reader of another variable is a full definition |
| DefnFacts.ReaderWithArguments | lib/sexp2ruby/node/defn.rb:10-22 | a reader with parameters is a full definition |
| DefnFacts.FullDefParts | lib/sexp2ruby/node/defn.rb:43-62 | a full definition is the comments, `def`, the name, the parameters (none for `()`) and the body |
| DefnFacts.FullDefNilBody | lib/sexp2ruby/node/defn.rb:44-48 | a lone `nil` body is dropped |
| DefnFacts.EmptyBody | lib/sexp2ruby/node/defn.rb:56-62 | an empty body is `# do nothing`, indented |
| DefnFacts.DoNothingIsPlain | lib/sexp2ruby/node/defn.rb:56-60 | `# do nothing` is neither `begin … end` nor a rescue, and is indented |
| DefnFacts.NotBeginOrRescue | lib/sexp2ruby/node/defn.rb:58-60 | a one-line comment is neither `begin … end` nor a rescue |
| DefnFacts.NoBlankLineRuns | lib/sexp2ruby/node/defn.rb:62 | a rendered `def` never has two newlines in a row |
| DefnFacts.NewlineSpanMaximal | lib/sexp2ruby/node/defn.rb:62 | the `\n\s*\n+` span is maximal |
| DefnFacts.CollapsedHead | lib/sexp2ruby/node/defn.rb:62 | blank-line collapsing keeps the first character |
| DefnFacts.CollapsedHasNoDoubleNewline | lib/sexp2ruby/node/defn.rb:62 | collapsing leaves no two newlines in a row |
| DefnFacts.PrependKeepsNoDoubleNewline | lib/sexp2ruby/node/defn.rb:62 | one character in front of a collapsed text keeps the property |
| HashFacts.HashBraces | lib/sexp2ruby/node/hash.rb:23-51 | `{}` without entries, otherwise `{ e1, e2 }`; entries exist exactly when children do |
| HashFacts.NonEmptyEntries | lib/sexp2ruby/node/hash.rb:24-48 | a non-empty hash has entries |
| HashFacts.Ruby19Entry | lib/sexp2ruby/node/hash.rb:41-43 | under `:ruby19` a qualifying key is `key: value` |
| HashFacts.RocketEntry | lib/sexp2ruby/node/hash.rb:44-46 | otherwise it is `key => value` |
| HashFacts.ValueParenthesized | lib/sexp2ruby/node/hash.rb:12-46 | a value outside `HASH_VAL_NO_PAREN` is parenthesized in both forms |
| HashFacts.KwsplatStep | lib/sexp2ruby/node/hash.rb:32-34 | a `**splat` is kept as it is |
| HashFacts.PairStep | lib/sexp2ruby/node/hash.rb:35-46 | a pair becomes one entry |
| HashFacts.MissingValue | lib/sexp2ruby/node/hash.rb:36-38 | a key without a value raises |
| HashFacts.Ruby19Example | lib/sexp2ruby/node/hash.rb:23-51 | `{ :foo => 1 }` is `{ foo: 1 }` under `:ruby19` |
| HashFacts.FooIsKey | lib/sexp2ruby/processor.rb:294-296 | `:foo` qualifies |
| HashFacts.SingleLetterKeyRocket | lib/sexp2ruby/processor.rb:29-30 | `:a` does not qualify and keeps the rocket form |
| BlockFacts.BlockEmpty | lib/sexp2ruby/node/block.rb:4-21 | an empty block is `# do nothing`, parenthesized under an expression |
| BlockFacts.NilStatement | lib/sexp2ruby/node/block.rb:9-11 | a nil statement is `# do nothing` |
| BlockFacts.OtherStatement | lib/sexp2ruby/node/block.rb:12-14 | any other statement keeps its text |
| BlockFacts.BlockShape | lib/sexp2ruby/node/block.rb:17-18 | statements joined by newlines, then parenthesized or terminated |
| BlockFacts.BlockTerminated | lib/sexp2ruby/node/block.rb:17-18 | a block's text starts with a parenthesis or ends with a newline |
| BlockFacts.SclassForm | lib/sexp2ruby/node/sclass.rb:4-6 | `class << recv`, the indented body, `end` |
| BlockFacts.SclassEmpty | lib/sexp2ruby/node/sclass.rb:4-6 | example: an empty singleton class holds `# do nothing` |
| BlockFacts.DoNothingTwoNewlines | lib/sexp2ruby/node/block.rb:11 | example: indenting `# do nothing` drops its newlines |
| BlockFacts.DoNothingNewline | lib/sexp2ruby/node/block.rb:11 | and its single newline |
| BlockFacts.DoNothingParts | lib/sexp2ruby/node/block.rb:11 | `# do nothing` is one line |
| BlockFacts.OneLineNewline | lib/sexp2ruby/processor.rb:299-301 | a line and a newline indent as the line |
| BlockFacts.ForForm | lib/sexp2ruby/node/for.rb:4-14 | `for v in r do`, the indented body, `end` |
| BlockFacts.JoinThree | lib/sexp2ruby/node/for.rb:4-14 | three lines joined by newlines |
| BlockFacts.ForNoBody | lib/sexp2ruby/node/for.rb:4-14 | a missing or nil body is `# do nothing` |
| BlockFacts.CaseForm | lib/sexp2ruby/node/case.rb:4-24 | `case expr`, the clauses, `end` |
| BlockFacts.CaseEmpty | lib/sexp2ruby/node/case.rb:4-24 | `case` without subject or clauses |
| BlockFacts.WhenClause | lib/sexp2ruby/node/case.rb:13-15 | a `when` clause keeps its text |
| BlockFacts.ElseClauseStep | lib/sexp2ruby/node/case.rb:16-19 | any other clause becomes the `else` part |
| BlockFacts.ElseNone | lib/sexp2ruby/node/case.rb:16-19 | an empty `else` holds `# do nothing` |
| BlockFacts.ElseOneLine | lib/sexp2ruby/node/case.rb:16-19 | a one-line `else` is indented |
| BlockFacts.IndentedNotSpace | lib/sexp2ruby/node/case.rb:17-18 | indentation keeps a text non-blank |
| BlockFacts.OneLineNotBlank | lib/sexp2ruby/node/when.rb:16 | a non-blank line is not blank |
| BlockFacts.WhenInArray | lib/sexp2ruby/node/when.rb:7-11 | inside an array a `when` is `*value` |
| BlockFacts.WhenForm | lib/sexp2ruby/node/when.rb:13-20 | `when cond then` and the body |
| BlockFacts.WhenNoStatements | lib/sexp2ruby/node/when.rb:15-17 | an empty body is `# do nothing` |
| BlockFacts.DoNothingNoChomp | lib/sexp2ruby/node/when.rb:16-17 | `chomp` leaves indented `# do nothing` alone |
| BlockFacts.OneLineIndentChomp | lib/sexp2ruby/node/when.rb:15-17 | a one-line body is indented and not chomped further |
| BlockFacts.WhenOneStatement | lib/sexp2ruby/node/when.rb:13-17 | `when cond then`, then the indented statement |
| RescueFacts.MissingBody | lib/sexp2ruby/node/rescue.rb:5-8 | a rescue without a body renders `# do nothing` as the body |
| RescueFacts.BodyAndElse | lib/sexp2ruby/node/rescue.rb:5-22 | with a body and an `else` part both are taken off and both appear |
| RescueFacts.ElsePart | lib/sexp2ruby/node/rescue.rb:21-22 | the `else` part follows the clauses, indented |
| RescueFacts.CompactForm | lib/sexp2ruby/node/rescue.rb:23-25 | a simple rescue is the body, a space, `rescue` and the handler on one line |
| RescueFacts.SimpleHandler | lib/sexp2ruby/node/rescue.rb:9-17 | a bare resbody is simple exactly when its handler is neither a block nor a return |
| RescueFacts.NotSimple | lib/sexp2ruby/node/rescue.rb:9-17 | classes, or a second resbody, make it not simple |
| RescueFacts.FindInPair | lib/sexp2ruby/node/rescue.rb:10-11 | the lookup of `block` or `return` in a resbody of two children |
| RescueFacts.ResbodyBare | lib/sexp2ruby/node/resbody.rb:4-16 | `rescue`, then the indented handler |
| RescueFacts.EmptyArray | lib/sexp2ruby/node/resbody.rb:11 | no classes give no class text |
| RescueFacts.ResbodyEmpty | lib/sexp2ruby/node/resbody.rb:6-15 | an empty handler is `# do nothing` |
| RescueFacts.DoNothingLine | lib/sexp2ruby/node/resbody.rb:7-15 | `# do nothing`, indented |
| RescueFacts.ResbodyNoClasses | lib/sexp2ruby/node/resbody.rb:4-16 | without classes: `rescue` and the indented statements |
| RescueFacts.ResbodyBinding | lib/sexp2ruby/node/resbody.rb:9-15 | `rescue Cls => e`, then the handler |
| RescueFacts.ResbodyNamed | lib/sexp2ruby/node/resbody.rb:4-16 | `rescue Cls => e`, then the statements |
| RescueFacts.FindSecond | lib/sexp2ruby/node/resbody.rb:9-10 | the `lasgn` binding is found and removed |
| RescueFacts.BracketsTrimmed | lib/sexp2ruby/node/resbody.rb:11 | `[1..-2]` of `[s]` is `s` |
| RescueFacts.EnsureNilPart | lib/sexp2ruby/node/ensure.rb:6-8 | a nil `ensure` part is `# do nothing`; a nil body raises |
| RescueFacts.EnsurePlain | lib/sexp2ruby/node/ensure.rb:11-14 | plain body and ensure part are both indented around `ensure` |
| RescueFacts.OneLineNoRescue | lib/sexp2ruby/node/ensure.rb:9-12 | a one-line text that does not start with `rescue` has no rescue line |
| RescueFacts.NoTrailingEnd | lib/sexp2ruby/node/ensure.rb:11 | a one-line text has no `end` to drop |
| RescueFacts.TrailingEndDropped | lib/sexp2ruby/node/ensure.rb:11 | a final `end` line is dropped |
| RescueFacts.SpacesThenEnd | lib/sexp2ruby/node/ensure.rb:11 | spaces and `end` form a closing line |
| RescueFacts.SpacesFront | lib/sexp2ruby/node/ensure.rb:11 | n spaces are one space and n-1 spaces |
| RescueFacts.EnsureNeedsBody | lib/sexp2ruby/node/ensure.rb:5-11 | an ensure with a nil body raises |
| RescueFacts.BeginEmpty | lib/sexp2ruby/node/begin.rb:6-16 | an empty begin is `begin` and `end` |
| RescueFacts.BeginStep | lib/sexp2ruby/node/begin.rb:9-13 | each statement becomes one part |
| RescueFacts.BeginPartCases | lib/sexp2ruby/node/begin.rb:10-12 | a `rescue` or `ensure` part is kept; another one-line part is indented; nil is empty |
| AssignFacts.MasgnNoValue | lib/sexp2ruby/node/masgn.rb:10-29 | targets without a value are the targets joined by ", " |
| AssignFacts.MasgnArrayValue | lib/sexp2ruby/node/masgn.rb:28-34 | an array value loses its brackets |
| AssignFacts.MasgnOtherValue | lib/sexp2ruby/node/masgn.rb:28-34 | any other value is kept as it is |
| AssignFacts.MasgnTargetStep | lib/sexp2ruby/node/masgn.rb:16-23 | a nested `masgn` target is parenthesized |
| AssignFacts.MasgnSymbols | lib/sexp2ruby/node/masgn.rb:36-39 | for any non-empty list of symbols, the block-parameter form `(a, b, …)` with the names in order |
| AssignFacts.ToSEachSyms | lib/sexp2ruby/node/masgn.rb:37 | `to_s` of each symbol is its name, for any list of symbols |
| AssignFacts.MasgnErrors | lib/sexp2ruby/node/masgn.rb:8-41 | any other first child raises |
| AssignFacts.ArgsSymbols | lib/sexp2ruby/node/args.rb:7-29 | for any list of symbol parameters, `(a, b, …)` with the names in order; no parameters give `()` |
| AssignFacts.ArgsItemsSyms | lib/sexp2ruby/node/args.rb:10-11 | each symbol parameter is kept as it is, for any list of them |
| AssignFacts.ArgItemKinds | lib/sexp2ruby/node/args.rb:9-26 | a symbol, a default value and a keyword parameter; anything else raises |
| AssignFacts.AttrasgnIndex | lib/sexp2ruby/node/attrasgn.rb:5-14 | for any list of indices, `[]=` gives the receiver, the indices as an array literal, ` = ` and the value: `recv[i, j] = v` |
| AssignFacts.AttrasgnSetter | lib/sexp2ruby/node/attrasgn.rb:15-19 | `recv.name = v` |
| AssignFacts.SetterNotIndex | lib/sexp2ruby/node/attrasgn.rb:11-17 | example: a setter of any other name is not `[]=` |
| AssignFacts.AttrasgnErrors | lib/sexp2ruby/node/attrasgn.rb:16-22 | extra arguments, a missing value and an `arglist` value raise |
| AssignFacts.DefsQualified | lib/sexp2ruby/node/defs.rb:4-14 | `def recv.name`, the receiver parenthesized unless bare |
| AssignFacts.CdeclForms | lib/sexp2ruby/node/cdecl.rb:4-14 | `X`, `X = v`, `A::X = v` |
| AssignFacts.IasgnForms | lib/sexp2ruby/node/iasgn.rb:4-11 | `@x` and `@x = v`; `iasgn` is not in `ASSIGN_NODES` |
| AssignFacts.OpAsgn1Form | lib/sexp2ruby/node/op_asgn1.rb:6-13 | `recv[i] op= v` |
| AssignFacts.OpAsgn2Form | lib/sexp2ruby/node/op_asgn2.rb:6-14 | `recv.attr op= v` |
| AssignFacts.OpAsgnShifts | lib/sexp2ruby/node/op_asgn1.rb:7-10 | the four shifts take the four children in order |
| AssignFacts.ReplaceFirstEqAt | lib/sexp2ruby/node/op_asgn_and.rb:7-10 | `sub(/=/, rep)` replaces the first `=` only |
| AssignFacts.OpAsgnLogicalForm | lib/sexp2ruby/node/op_asgn_and.rb:7-10 | `a &&= v` and `a \|\|= v` from the assignment, whatever the first child is |
| AssignFacts.OpAsgnLogicalExample | lib/sexp2ruby/node/op_asgn_or.rb:7-10 | example: `a = 1` gives `a &&= 1` and `a \|\|= 1` |
| ExprFacts.ArrayForm | lib/sexp2ruby/node/array.rb:4-6 | an array is `[` the items joined by ", " `]`, one item per child |
| ExprFacts.ArglistCodeLength | lib/sexp2ruby/node/arglist.rb:4-13 | one item per argument |
| ExprFacts.ArglistStep | lib/sexp2ruby/node/arglist.rb:8-10 | a `rescue` argument is parenthesized |
| ExprFacts.ArglistNonNode | lib/sexp2ruby/node/arglist.rb:7-8 | a leaf argument raises |
| ExprFacts.Match2Form | lib/sexp2ruby/node/match2.rb:4-8 | `lhs =~ rhs` |
| ExprFacts.Match3Form | lib/sexp2ruby/node/match3.rb:4-14 | `value =~ /re/`, an assignment value parenthesized |
| ExprFacts.Match3NonNode | lib/sexp2ruby/node/match3.rb:5-7 | a leaf value raises |
| ExprFacts.ProcessEachLength | lib/sexp2ruby/node/yield.rb:4-15 | one text per child |
| ExprFacts.YieldForm | lib/sexp2ruby/node/yield.rb:4-15 | `yield`, or `yield(a, b)` |
| ExprFacts.SvalueForm | lib/sexp2ruby/node/svalue.rb:4-10 | the values joined by ", " |
| ExprFacts.SuperForm | lib/sexp2ruby/node/super.rb:4-7 | `super(a, b)` always with parentheses, nils dropped |
| ExprFacts.JumpForms | lib/sexp2ruby/node/break.rb:4-11 | `break`/`next`, or with a value |
| ExprFacts.ReturnForms | lib/sexp2ruby/node/return.rb:4-10 | `return` or `return value`; a nil value leaves `return ` |
| ExprFacts.SplatForms | lib/sexp2ruby/node/splat.rb:4-10 | `*` or `*value` |
| ExprFacts.BlockPassForms | lib/sexp2ruby/node/block_pass.rb:4-7 | `&value`; more than one child raises |
| ExprFacts.UndefForm | lib/sexp2ruby/node/undef.rb:4-6 | `undef name` |
| ExprFacts.DregxPlain | lib/sexp2ruby/node/dregx.rb:4-7 | `/…/` without flags; `dregx_once` appends `o` |
| ExprFacts.DregxFlags | lib/sexp2ruby/node/dregx.rb:4-16 | an integer last child becomes the flag letters after the slash |
| Delexing.Show | lib/sexp2ruby/delexer.rb:79-82 | a line is its indentation and its text |
| Delexing.Shown | lib/sexp2ruby/delexer.rb:79-82 | all lines, line for line |
| Delexing.DedentStep | lib/sexp2ruby/delexer.rb:44-49 | the dedent step keeps the layout sound |
| Delexing.BreakStep | lib/sexp2ruby/delexer.rb:51-58 | the break step keeps the layout sound |
| Delexing.Step | lib/sexp2ruby/delexer.rb:40-61 | one token keeps the layout sound |
| Delexing.Build | lib/sexp2ruby/delexer.rb:37-62 | the layout of all tokens is sound |
| Delexing.DepthFloor | lib/sexp2ruby/delexer.rb:37-62 | the depth never falls below the starting depth |
| Delexing.LineTextsAppend | lib/sexp2ruby/delexer.rb:33-35 | the texts of the lines add up |
| Delexing.NewLineTexts | lib/sexp2ruby/delexer.rb:79-82 | a new line adds no text |
| Delexing.AppendTexts | lib/sexp2ruby/delexer.rb:33-35 | `append` adds the token's text |
| Delexing.StepTexts | lib/sexp2ruby/delexer.rb:40-61 | each step adds exactly its token's text |
| Delexing.TextsPreserved | lib/sexp2ruby/delexer.rb:37-62 | the layout keeps every token's text, in order |
| Delexing.NoBreakableOneLine | lib/sexp2ruby/delexer.rb:65-69 | without a token that allows a break, all tokens are on one line |
| Delexing.ShowBlank | lib/sexp2ruby/delexer.rb:79-82 | a fresh line is its indentation |
| Delexing.ShownAppend | lib/sexp2ruby/delexer.rb:79-82 | adding a line adds its text |
| Delexing.ShownUpdate | lib/sexp2ruby/delexer.rb:33-35 | changing a line changes its text |
| Delexing.NewLineShown | lib/sexp2ruby/delexer.rb:79-82 | `new_line` adds `SPACE * @d` |
| Delexing.AppendShown | lib/sexp2ruby/delexer.rb:33-35 | `append` extends the current line |
| Delexing.NoTokens | spec/lib/delexer_spec.rb:5-9 | no tokens give only the indentation, and "" at depth 0 |
| Delexing.FirstNeverBreaks | lib/sexp2ruby/delexer.rb:66 | the first token is never put on a new line |
| Delexing.OneLineCall | spec/lib/delexer_spec.rb:18-28 | `banana("kiwi")` stays on one line |
| Delexing.LongCallWraps | spec/lib/delexer_spec.rb:30-44 | a 79-character name breaks after `(`, indents the argument, and puts `)` on its own line |
| Delexing.BuildStep | lib/sexp2ruby/delexer.rb:40-61 | the layout of one more token is one more step |
| Delexing.Delexer.constructor | lib/sexp2ruby/delexer.rb:13-17 | starts with no tokens, no lines, `@n` = 0 |
| Delexing.Delexer.Push | lib/sexp2ruby/delexer.rb:19-22 | appends the token and changes nothing else |
| Delexing.Delexer.ToS | lib/sexp2ruby/delexer.rb:25-29 | the result is `Delex` of the tokens at depth d (an error for negative d, or for a reused delexer); the lines are the layout's |
| Delexing.Delexer.BuildLines | lib/sexp2ruby/delexer.rb:37-62 | the loop leaves the lines and depth of `Build` |
| Delexing.Delexer.CloseParen | lib/sexp2ruby/delexer.rb:44-49 | the dedent block performs `DedentStep` |
| Delexing.Delexer.BreakLine | lib/sexp2ruby/delexer.rb:51-58 | the break block performs `BreakStep` |
| Delexing.Delexer.Dedent | lib/sexp2ruby/delexer.rb:71-73 | `@d` decreases by `INDENT_WIDTH` |
| Delexing.Delexer.Indent | lib/sexp2ruby/delexer.rb:75-77 | `@d` increases by `INDENT_WIDTH` |
| Delexing.Delexer.NewLine | lib/sexp2ruby/delexer.rb:79-82 | `@n` moves on and the new line is `SPACE * @d` |
| Delexing.Delexer.Append | lib/sexp2ruby/delexer.rb:33-35 | the current line grows by the text |

## Left out

- Rule dispatch: the `Node::Base` delegation (lib/sexp2ruby/node/base.rb:11-29) and
  the `camelize`/`constantize` lookup of the rule class are replaced by one direct
  case per kind. Four rules call a processor helper that this delegation list
  does not name, so the Ruby code as written raises `NoMethodError` there. The
  model reads the processor directly, as the delegated helpers do. The next five
  lines name the members this affects.
- Engine.Processor.CallBody: `argument_parentheses?` (call.rb:114) reads
  `no_paren_methods`, which is not delegated. As written, every plain-name call
  with arguments raises; the model takes the list from the configuration.
- Engine.Processor.Call: renders through `CallBody`, and so does not raise at
  call.rb:114 either.
- Engine.Processor.When: `self.context` (when.rb:7) is not delegated. As
  written, every `when` raises; the model reads the processor's context.
- Engine.Processor.Defs: `process_defn` (defs.rb:13) is not delegated. As
  written, every `defs` raises; the model calls the `defn` rule.
- Engine.Processor.Sclass: `process_block` (sclass.rb:5) is not delegated. As
  written, every `sclass` raises; the model calls the `block` rule.
- Sexp equality is structural here. `Sexp#==` also ignores comments; the model
  compares them too.
- Abstract rules: the rules this core does not define become one configurable
  rendering `Config.unshown(kind, children)`. They come from the `SexpProcessor`
  base class, or they are files outside this model (`lit` with `inspect`, `str`,
  `lvar`, `lasgn`, `and`, `or`, `not`, `const`, `colon2`, …).
- `xstr.rb` is not part of this model.
- The table of Regexp encoding codes (core_extensions/regexp.rb) is a
  configuration parameter.
- Parsing is out of scope, and so is any I/O. The round trip source → sexp →
  source is not stated.
- `no_paren_methods` is modelled as a list of names. Another value passed in
  the option is outside the model.
- Rewrite pass: `SexpProcessor` mutates the tree in place as it rewrites; the
  model computes a new tree.
- Engine.Processor.Process: on an error the context is not popped; the model says
  nothing about the state after an error.
- Render.Masgn: for symbol children, `exp.join ", "` (masgn.rb:37) would flatten
  a nested array child; the model's `to_s` of a sub-node is `Foreign`.
- Render.RewriteSvalue: when the last child is an array but the first child is a
  leaf, processor.rb:213 slices that leaf (`exp[1][1..-1]`). That raises for nil
  and integers and is a substring for a symbol. The model raises `Malformed` in
  every such case and does not build the odd `svalue` a symbol would give.
- `@calls` is pushed and popped but never read by the core, so no rule depends
  on it.
- `inspect` of a sub-tree (`to_s` of a node inside a string) is `Foreign`.
- Render.SymbolInspect: covers plain identifiers only (`:name`). Quoted symbol
  forms are not modelled.
- Tokens.NewToken: the token value is kept as a string (`@value.to_s` is
  applied when the token is made).
- Delexing.Delexer.Push: `raise TypeError unless t.is_a?(Token)` cannot happen
  under Dafny's types.
- Delexing.Build: the indent stack is a count in the specification, because
  only `tLPAREN` is ever pushed. The class keeps the stack itself.
- Delexing.Delexer.constructor: the unset `@d` is 0; `to_s` sets it before use.
- Render.Dregx: `Fixnum === exp.last` is modelled as an `Int` last child.
- DefnFacts.FullDefParts: the unwrapping of a `begin … end` body is proved
  only as part of the general statement, not for a concrete body.
- BlockFacts.WhenOneStatement, BlockFacts.OneLineIndentChomp, RescueFacts.EnsurePlain,
  RescueFacts.ResbodyBare, ProcessorFacts.CondLoopHead,
  ProcessorFacts.CondLoopTail, ProcessorFacts.ClassBody: stated for one-line
  texts, where indentation is a simple prefix. The general case is the
  corresponding `Engine` method's equality with `Render`.
- Integers are unbounded; Ruby's are too, so no width is modelled.

## Findings

| source | as written | input that shows it | evidently intended | confidence | as-written member | corrected member |
|---|---|---|---|---|---|---|
| lib/sexp2ruby/processor.rb:261 | `` lit.gsub(/`/, '\`') ``: in a replacement string a backslash and a backtick stand for the prematch, so each backtick is replaced by the text in front of it | `` a`b `` gives `aab`; `` a`b`c `` gives `` aaba`bc `` | a backslash before each backtick, `` a\`b ``, as the quote escape two lines above does for `"`; the renderer uses that (`Render.DthingEscape`) | not executed | ProcessorFacts.DxstrEscapeAsWritten | ProcessorFacts.DthingEscapeKinds |
