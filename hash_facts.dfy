/**
 * What the hash rule (`Hash#to_s`) promises: `{}` or `{ … }` around the
 * entries, `key: value` only for eligible keys under ruby19, parenthesized
 * values outside the no-paren kinds, and key/value consumption in pairs with
 * `:kwsplat` entries taking no value.
 */
module HashFacts {
  import opened Results
  import opened Text
  import opened Sexp
  import opened Options
  import opened Render

  /** An empty hash is `{}`; otherwise the entries go between `{ ` and ` }`, joined by ", ". */
  lemma HashBraces(c: Config, ctx: seq<string>, exp: seq<Child>, entries: seq<string>)
    requires HashEntries(c, ctx, exp) == Ok(entries)
    ensures Hash(c, ctx, []) == Ok(Out("{}", []))
    ensures entries != [] ==> Hash(c, ctx, exp) == Ok(Out("{ " + Join(entries, ", ") + " }", []))
    ensures entries == [] <==> exp == []
  {
    if exp != [] {
      NonEmptyEntries(c, ctx, exp);
    }
  }

  /** Every successful key step emits an entry, so a non-empty child list never yields no entries. */
  lemma NonEmptyEntries(c: Config, ctx: seq<string>, exp: seq<Child>)
    requires exp != [] && HashEntries(c, ctx, exp).Ok?
    ensures HashEntries(c, ctx, exp).value != []
  {
  }

  /** Under ruby19 an eligible key loses its leading ":" and takes the `key: value` form. */
  lemma Ruby19Entry(c: Config, k: string, kind: string, v: string)
    requires c.hashSyntax == "ruby19" && kind in HashValNoParen
    ensures HashEntry(c, true, ":" + k, kind, v) == k + ": " + v
  {
    assert (":" + k)[1..] == k;
  }

  /** Every other case, ruby18 mode or an ineligible key, is `key => value`. */
  lemma RocketEntry(c: Config, key19: bool, lhs: string, kind: string, v: string)
    requires c.hashSyntax != "ruby19" || !key19
    requires kind in HashValNoParen
    ensures HashEntry(c, key19, lhs, kind, v) == lhs + " => " + v
  {
  }

  /** A value outside the no-paren kinds is wrapped in parentheses, in either syntax. */
  lemma ValueParenthesized(c: Config, key19: bool, lhs: string, kind: string, v: string)
    requires kind !in HashValNoParen
    ensures c.hashSyntax == "ruby19" && key19 ==>
              HashEntry(c, key19, lhs, kind, v) == DropLeadingColon(lhs) + ": " + ("(" + v + ")")
    ensures !(c.hashSyntax == "ruby19" && key19) ==>
              HashEntry(c, key19, lhs, kind, v) == lhs + " => " + ("(" + v + ")")
  {
  }

  /** A `:kwsplat` entry is emitted as rendered and takes no value child. */
  lemma KwsplatStep(c: Config, ctx: seq<string>, k: Node, t: Option<string>, rest: seq<Child>)
    requires k.kind == "kwsplat" && Process(c, ctx, N(k)) == Ok(t)
    ensures HashEntries(c, ctx, [N(k)] + rest) == Prepend([Interp(t)], HashEntries(c, ctx, rest))
  {
    assert ([N(k)] + rest)[0] == N(k) && ([N(k)] + rest)[1..] == rest;
  }

  /** Any other key takes the next child as its value; the rest is consumed after the pair. */
  lemma PairStep(c: Config, ctx: seq<string>, k: Node, v: Node, kt: Option<string>, vt: Option<string>,
                 rest: seq<Child>)
    requires k.kind != "kwsplat"
    requires Process(c, ctx, N(k)) == Ok(kt) && Process(c, ctx, N(v)) == Ok(vt)
    ensures HashEntries(c, ctx, [N(k), N(v)] + rest) ==
            Prepend([HashEntry(c, Ruby19HashKey(N(k)), Interp(kt), v.kind, Interp(vt))], HashEntries(c, ctx, rest))
  {
    var exp := [N(k), N(v)] + rest;
    assert exp[0] == N(k) && exp[1..] == [N(v)] + rest;
    assert ([N(v)] + rest)[0] == N(v) && ([N(v)] + rest)[1..] == rest;
  }

  /** A key left without a value is malformed: the value slot is nil, which has no kind. */
  lemma MissingValue(c: Config, ctx: seq<string>, k: Node)
    requires k.kind != "kwsplat" && Process(c, ctx, N(k)).Ok?
    ensures HashEntries(c, ctx, [N(k)]) == Err(Malformed)
  {
    assert [N(k)][1..] == [];
  }

  /** `{ foo: 1 }` under ruby19, given how the two literals render. */
  lemma Ruby19Example(c: Config, ctx: seq<string>)
    requires c.hashSyntax == "ruby19"
    requires c.unshown("lit", [Sym("foo")]) == ":foo" && c.unshown("lit", [Int(1)]) == "1"
    ensures Hash(c, ctx, [S("lit", [Sym("foo")]), S("lit", [Int(1)])]) == Ok(Out("{ foo: 1 }", []))
  {
    var k := Node("lit", [Sym("foo")], "");
    var v := Node("lit", [Int(1)], "");
    assert "lit" in Nodes;
    assert Process(c, ctx, N(k)) == Ok(Some(":foo"));
    assert Process(c, ctx, N(v)) == Ok(Some("1"));
    FooIsKey();
    PairStep(c, ctx, k, v, Some(":foo"), Some("1"), []);
    assert [N(k), N(v)] + [] == [S("lit", [Sym("foo")]), S("lit", [Int(1)])];
    Ruby19Entry(c, "foo", "lit", "1");
    assert ":" + "foo" == ":foo" && "foo" + ": " + "1" == "foo: 1";
    assert HashEntry(c, true, ":foo", "lit", "1") == "foo: 1";
    assert HashEntries(c, ctx, []) == Ok([]);
    assert HashEntries(c, ctx, [S("lit", [Sym("foo")]), S("lit", [Int(1)])]) == Ok(["foo: 1"]);
    assert Join(["foo: 1"], ", ") == "foo: 1";
    assert "{ " + "foo: 1" + " }" == "{ foo: 1 }";
  }

  lemma FooIsKey()
    ensures Ruby19HashKey(S("lit", [Sym("foo")]))
  {
    assert IsKeyWord("foo");
  }

  /** `:a` needs two characters to match the key pattern, so it keeps the `=>` form even under ruby19. */
  lemma SingleLetterKeyRocket(c: Config, v: string)
    requires c.hashSyntax == "ruby19"
    ensures !Ruby19HashKey(S("lit", [Sym("a")]))
    ensures HashEntry(c, Ruby19HashKey(S("lit", [Sym("a")])), ":a", "lit", v) == ":a => " + v
  {
    assert !IsKeyWord("a");
    assert !IsKeyWord("");
  }
}
