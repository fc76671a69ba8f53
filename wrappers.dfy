/** Option and Result values shared by the other modules: Go's nil results and
    its panics are modelled as explicit outcomes. */
module Wrappers {

  datatype Option<+T> = None | Some(value: T)

  /** The outcome of an operation that the Go code can abort with a panic. */
  datatype Result<+T> = Ok(value: T) | Panic(reason: string)
}
