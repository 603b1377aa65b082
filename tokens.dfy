/**
 * A lexical token as the line wrapper consumes it: a type checked against the
 * parser's token names, and the text it stands for.
 */
module Tokens {
  import opened Results

  /** `Token::TYPES`: the token names of the Ruby parser. */
  const Types: set<string> := {
    "k__ENCODING__", "k__FILE__", "k__LINE__", "kALIAS", "kAND", "kBEGIN", "kBREAK", "kCASE",
    "kCLASS", "kDEF", "kDEFINED", "kDO", "kDO_BLOCK", "kDO_COND", "kDO_LAMBDA", "kELSE", "kELSIF",
    "kEND", "kENSURE", "kFALSE", "kFOR", "kIF", "kIF_MOD", "kIN", "klBEGIN", "klEND", "kMODULE",
    "kNEXT", "kNIL", "kNOT", "kOR", "kREDO", "kRESCUE", "kRESCUE_MOD", "kRETRY", "kRETURN",
    "kSELF", "kSUPER", "kTHEN", "kTRUE", "kUNDEF", "kUNLESS", "kUNLESS_MOD", "kUNTIL",
    "kUNTIL_MOD", "kWHEN", "kWHILE", "kWHILE_MOD", "kYIELD", "tAMPER", "tAMPER2", "tANDOP",
    "tAREF", "tASET", "tASSOC", "tBACK_REF", "tBACK_REF2", "tBANG", "tCARET", "tCHAR", "tCMP",
    "tCOLON", "tCOLON2", "tCOLON3", "tCOMMA", "tCONSTANT", "tCVAR", "tDIVIDE", "tDOT", "tDOT2",
    "tDOT3", "tDSTAR", "tEH", "tEQ", "tEQQ", "tFID", "tFLOAT", "tGEQ", "tGT", "tGVAR",
    "tIDENTIFIER", "tIMAGINARY", "tINTEGER", "tIVAR", "tLABEL", "tLABEL_END", "tLAMBDA", "tLAMBEG",
    "tLBRACE", "tLBRACE_ARG", "tLBRACK", "tLBRACK2", "tLCURLY", "tLEQ", "tLPAREN", "tLPAREN2",
    "tLPAREN_ARG", "tLSHFT", "tLT", "tMATCH", "tMINUS", "tNEQ", "tNL", "tNMATCH", "tNTH_REF",
    "tOP_ASGN", "tOROP", "tPERCENT", "tPIPE", "tPLUS", "tPOW", "tQSYMBOLS_BEG", "tQWORDS_BEG",
    "tRATIONAL", "tRBRACK", "tRCURLY", "tREGEXP_BEG", "tREGEXP_END", "tRPAREN", "tRSHFT", "tSEMI",
    "tSPACE", "tSTAR", "tSTAR2", "tSTRING", "tSTRING_BEG", "tSTRING_CONTENT", "tSTRING_DBEG",
    "tSTRING_DEND", "tSTRING_DVAR", "tSTRING_END", "tSYMBEG", "tSYMBOL", "tSYMBOLS_BEG", "tTILDE",
    "tUBANG", "tUMINUS", "tUMINUS_NUM", "tUPLUS", "tWORDS_BEG", "tXSTRING_BEG"
  }

  /** `CAN_BREAK_AFTER`: a line break after these does not end the statement. */
  const BreakAfterTypes: set<string> := {"tDOT", "tLPAREN"}

  /** `CAN_BREAK_BEFORE`: a line break before these does not end the statement. */
  const BreakBeforeTypes: set<string> := {"tRPAREN"}

  /** A token: its type (`type`) and its value's text (`to_s`). */
  datatype Token = Token(kind: string, text: string)

  /** `Token.new(type, value)`: ArgumentError for a type outside `TYPES`. */
  function NewToken(kind: string, value: string): (r: Result<Token>)
    ensures r.Ok? <==> kind in Types
    ensures r.Err? ==> r.error == InvalidArgument
    ensures r.Ok? ==> r.value.kind == kind && r.value.text == value
  {
    if kind in Types then Ok(Token(kind, value)) else Err(InvalidArgument)
  }

  /** `can_break_after?`. */
  predicate CanBreakAfter(t: Token) {
    t.kind in BreakAfterTypes
  }

  /** `can_break_before?`. */
  predicate CanBreakBefore(t: Token) {
    t.kind in BreakBeforeTypes
  }

  /** Exactly `tDOT` and `tLPAREN` permit a break after them, and both are valid token types. */
  lemma CanBreakAfterExactly(kind: string, value: string)
    ensures NewToken(kind, value).Ok? && CanBreakAfter(NewToken(kind, value).value) <==>
            kind == "tDOT" || kind == "tLPAREN"
  {
    if kind == "tDOT" || kind == "tLPAREN" { assert kind in Types; }
  }

  /** Exactly `tRPAREN` permits a break before it, and it is a valid token type. */
  lemma CanBreakBeforeExactly(kind: string, value: string)
    ensures NewToken(kind, value).Ok? && CanBreakBefore(NewToken(kind, value).value) <==> kind == "tRPAREN"
  {
    if kind == "tRPAREN" { assert kind in Types; }
  }
}
