/** Results of operations that can raise in the source program.  A raised
    Python exception becomes a `Fault` carrying the exception's kind, so no
    operation of the model ever invents a reply where the source crashes. */
module Outcomes {

  datatype Option<T> = None | Some(value: T)

  /** The kinds of exception the modelled code can raise. */
  datatype PyError =
    | IndexError            // list or string index out of range
    | ValueError            // int() / float() of a malformed text, unpacking
    | ValueErrorWith(message: string)  // a ValueError raised with a message of the program's own
    | KeyError              // missing dictionary key
    | TypeError             // wrong argument type, tuple item assignment
    | InvalidArgument(message: string)  // the IOError raised by argument validation
    | ZeroDivisionError
    | AttributeError        // a method called on None
    | UnboundLocalError     // a local read before any branch assigned it
    | EOFError              // input() at the end of the input

  datatype Result<T> = Ok(value: T) | Fault(error: PyError) {
    predicate IsFailure() { Fault? }
    function PropagateFailure<U>(): Result<U>
      requires Fault?
    {
      Fault(error)
    }
    function Extract(): T
      requires Ok?
    {
      value
    }
  }
}
