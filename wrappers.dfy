/** Option and the Python-level failures the bot's code can raise. */
module Wrappers {

  datatype Option<+T> = None | Some(value: T)

  /** The exceptions that the modelled code raises and does not catch. */
  datatype PyError =
    | KeyError            // dict.pop of a missing key
    | TypeError           // a call with a missing argument, or of a non-callable
    | ValueError          // CallbackData.pack refusing a value, prepare_chart_data
    | ValidationError     // pydantic refusing a field value
    | UnboundLocalError   // a local read before any assignment
    | CommitRaised        // an exception raised by a database oracle

  datatype Result<+T> = Ok(value: T) | Raise(error: PyError)
}
