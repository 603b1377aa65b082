/** Failure-compatible wrappers shared by every module of the model. */
module Results {

  /** The ways a render can fail. Ruby raises an exception in each case. */
  datatype Error =
    | InvalidOption  // Sexp2Ruby::InvalidOption from the processor's constructor
    | InvalidArgument  // ArgumentError: an unknown token type, or a negative indentation depth
    | Malformed      // a `raise` in a rule or rewriter, or a NoMethodError on an unexpected shape
    | Unsupported    // dthing_escape on a kind it does not know
    | NotConsumed    // strict mode: a node still has children after its rule returned
    | UnknownKind    // no rule is registered for the node's kind
    | Foreign        // the text would be Ruby's `inspect` of a sub-tree, which is not modelled

  datatype Option<+T> = None | Some(value: T)

  datatype Result<+T> = Ok(value: T) | Err(error: Error) {
    predicate IsFailure() { Err? }

    function PropagateFailure<U>(): Result<U>
      requires Err?
    {
      Err(error)
    }

    function Extract(): T
      requires Ok?
    {
      value
    }
  }
}
