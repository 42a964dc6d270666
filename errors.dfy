/** The exceptions the interpreter raises, one variant per raise site, and
    the Option/Result wrappers the decoders and the evaluator return. */
module Errors {

  /** The Python exception class a fault surfaces as. */
  datatype Exception = IndexError | ValueError | TypeError | NotImplementedError

  /** Every way the interpreter can stop early. */
  datatype Fault =
    | EofExpectingValue          // eval_value: no token at the requested index
    | NumbersWithoutData         // eval_value: Numbers header is the last token
    | AsciiWithoutData           // eval_value: ASCII header is the last token
    | UninterpretableValue       // eval_value: neither a value header nor raw f/a/r/d
    | BadDigit                   // a data line holding a character other than f/a/r/d (int(..., 4) raises ValueError)
    | PrintWithoutContent        // run: Print header is the last token
    | LoopsWithoutSubtype        // run: Loops header is the last token
    | InvalidLoopSubtype         // run: subtype token length not a multiple of 4
    | WhileMissingComparison     // run: nothing after a While subtype
    | WhileExpectsComparison     // run: the token after a While subtype is not a Comparison header
    | WhileMissingEnd            // run: no Loops/End pair after the operands
    | UnorderableOperands        // cond_true: < or > between a number and a text
    | LoopSubtypeNotImplemented  // run: subtype other than 1 (while) or 3 (end)
  {
    function Kind(): (e: Exception) {
      match this
      case EofExpectingValue | NumbersWithoutData | AsciiWithoutData
        | PrintWithoutContent | LoopsWithoutSubtype | WhileMissingComparison
        | WhileMissingEnd => IndexError
      case UninterpretableValue | BadDigit | InvalidLoopSubtype
        | WhileExpectsComparison => ValueError
      case UnorderableOperands => TypeError
      case LoopSubtypeNotImplemented => NotImplementedError
    }
  }

  datatype Option<T> = None | Some(value: T)

  datatype Result<T> = Ok(value: T) | Err(error: Fault)
}
