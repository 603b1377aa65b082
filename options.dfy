/**
 * The processor's constructor options (`Processor#initialize`,
 * `check_option_keys`, `extract_option`).
 */
module Options {
  import opened Results
  import opened Sexp

  /** A value of the option hash: a Ruby scalar, or a list of method names. */
  datatype OptionValue = Value(v: Child) | Names(names: seq<string>)

  /** `CONSTRUCTOR_OPTIONS`. */
  const ConstructorOptions: set<string> := {"hash_syntax", "no_paren_methods"}

  /** `HASH_SYNTAXES`. */
  const HashSyntaxes: seq<Child> := [Sym("ruby18"), Sym("ruby19")]

  /**
   * What a processor renders with. `unshown` stands for the rules of the kinds
   * whose source is not part of this model (str, lvar, lit, lasgn, ...), and
   * `encodingCodes` for the encoding entries of `Regexp::CODES`, which Ruby
   * computes when it loads.
   */
  datatype Config = Config(
    hashSyntax: string,
    noParenMethods: seq<string>,
    unshown: (string, seq<Child>) -> string,
    encodingCodes: map<int, string>)

  /** `check_option_keys`: every key must be one of `CONSTRUCTOR_OPTIONS`. */
  function CheckOptionKeys(option: map<string, OptionValue>): (r: Result<()>)
    ensures r.Ok? <==> option.Keys <= ConstructorOptions
    ensures r.Err? ==> r.error == InvalidOption
  {
    if option.Keys - ConstructorOptions == {} then Ok(()) else Err(InvalidOption)
  }

  /** `extract_option`: the default for nil, the value when it is allowed, InvalidOption otherwise. */
  function ExtractOption(allowed: seq<Child>, value: Child, default: Child): (r: Result<Child>)
    ensures value == Nil ==> r == Ok(default)
    ensures value != Nil && value in allowed ==> r == Ok(value)
    ensures value != Nil && value !in allowed ==> r == Err(InvalidOption)
  {
    if value == Nil then Ok(default)
    else if value in allowed then Ok(value)
    else Err(InvalidOption)
  }

  /** `option[key]`, nil when absent; a list stands for itself (`Obj("Array")`). */
  function Lookup(option: map<string, OptionValue>, key: string): Child {
    if key !in option then Nil
    else if option[key].Value? then option[key].v
    else Obj("Array")
  }

  /** `option[:no_paren_methods] || []`. */
  function NoParenMethodsOf(option: map<string, OptionValue>): seq<string> {
    if "no_paren_methods" in option && option["no_paren_methods"].Names? then
      option["no_paren_methods"].names
    else []
  }

  /** The option handling of `Processor#initialize`. */
  function NewConfig(option: map<string, OptionValue>,
                     unshown: (string, seq<Child>) -> string,
                     encodingCodes: map<int, string>): (r: Result<Config>)
    ensures r.Ok? <==>
      option.Keys <= ConstructorOptions &&
      Lookup(option, "hash_syntax") in [Nil, Sym("ruby18"), Sym("ruby19")]
    ensures r.Err? ==> r.error == InvalidOption
    ensures r.Ok? ==> r.value.hashSyntax in {"ruby18", "ruby19"}
    ensures r.Ok? && Lookup(option, "hash_syntax") == Nil ==> r.value.hashSyntax == "ruby19"
    ensures r.Ok? && Lookup(option, "hash_syntax").Sym? ==>
      r.value.hashSyntax == Lookup(option, "hash_syntax").name
    ensures r.Ok? ==> r.value.noParenMethods == NoParenMethodsOf(option)
  {
    var _ :- CheckOptionKeys(option);
    var syntax :- ExtractOption(HashSyntaxes, Lookup(option, "hash_syntax"), Sym("ruby19"));
    Ok(Config(syntax.name, NoParenMethodsOf(option), unshown, encodingCodes))
  }
}
