/** The values that flow between the steps of the extraction script:
    an outcome of a call that can throw, and an optional value. */
module Outcomes {

  /** What a step of the script can throw. */
  datatype Error =
    | HttpError(detail: string)   // an axios request that failed (network or non-success status)
    | WriteError(detail: string)  // csv-writer could not write the file
    | NotAnArray                  // the TypeError of calling `.map` on a response whose `data` is not an array

  /** The outcome of one call: it returns a value or throws an error. */
  datatype Outcome<T> = Ok(value: T) | Err(error: Error)

  datatype Option<T> = None | Some(value: T)
}
