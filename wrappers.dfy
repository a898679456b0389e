/** Failure-carrying values shared by every part of the export pipeline. */
module Wrappers {

  datatype Option<T> = None | Some(value: T)

  /** A Go `error`, kept only as structured as the pipeline's messages need. */
  datatype Error =
    | Cause(reason: string)                              // an error made by the code or by a collaborator
    | Wrapped(context: string, inner: Error)             // fmt.Errorf("<context>: %w", inner)
    | WrappedFor(context: string, subject: string, inner: Error)  // fmt.Errorf("<context> %q: %w", subject, inner)

  datatype Result<T> = Ok(value: T) | Err(error: Error)
}
