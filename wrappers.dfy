/** Failure-compatible wrappers used throughout the model: `Option` stands for
    a Java reference that may be `null`, `Result` for a call that either
    returns a value or throws. */
module Wrappers {

  datatype Option<+T> = None | Some(value: T)

  datatype Result<+R, +E> = Success(value: R) | Failure(error: E)
}

/** The Java exceptions the request layer throws, with the messages it uses. */
module Exceptions {

  datatype JavaException =
    | IllegalArgumentException(message: string)
    | ArrayIndexOutOfBoundsException(index: int)
    | IllegalAccessError(message: string)
    | NoSuchElementException(message: string)
    | InternalError(message: string)
}
