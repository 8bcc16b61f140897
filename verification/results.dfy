/** Option and Result types used by every part of the model, and the kinds
    of failure the prompt adapter can raise. */
module Results {

  /** Absence (`None` in the adapter) or a present value. */
  datatype Option<+T> = None | Some(value: T)

  /** The error kinds of the adapter. Messages are not modelled, only which
      kind of exception is raised:
      - ProviderError: an unsupported provider name (PromptProviderError);
      - ValidationError: malformed caller input (ValueError);
      - AvailabilityError: a backend capability is missing (ImportError);
      - CreationError, FetchError, CompilationError: a backend call failed
        and was wrapped (PromptCreationError, PromptFetchError,
        PromptCompilationError). */
  datatype ErrorKind =
    | ProviderError
    | ValidationError
    | AvailabilityError
    | CreationError
    | FetchError
    | CompilationError

  /** The outcome of an operation that may raise one of the error kinds. */
  datatype Result<+T> = Success(value: T) | Failure(error: ErrorKind)

  /** The outcome of a check that returns nothing on success. */
  datatype Outcome = Pass | Fail(error: ErrorKind)
}
