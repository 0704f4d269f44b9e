/** Failure-compatible values shared by every module: the Python code signals
    absence with `None` and failure with exceptions; the model returns these. */
module Wrappers {

  datatype Option<T> = None | Some(value: T) {
    function GetOr(default: T): T {
      match this
      case Some(v) => v
      case None => default
    }
  }

  /** The exceptions the modelled code raises or catches.  Message texts are
      not modelled except where the caller copies `str(e)` somewhere. */
  datatype Error =
    | PermissionError
    | FileNotFoundError
    | OSError
    | AttributeError
    | ValueError
    | Raised(message: string)

  datatype Result<T> = Ok(value: T) | Err(error: Error)

  /** The result of an operation that returns nothing on success. */
  datatype Outcome = Pass | Fail(error: Error)
}

/** What an LLM call (`llm.invoke`) gives back: its text, or the exception it raised. */
module Llm {
  datatype Reply = Answer(text: string) | Failure(message: string)
}
