/** The two failure-carrying datatypes the cart model uses: an optional value
    (the `undefined` a JavaScript `Array.prototype.find` returns when nothing
    matches) and a result that is either a value or a thrown error. */
module Wrappers {

  datatype Option<+T> = None | Some(value: T)

  datatype Result<+R, +E> = Success(value: R) | Failure(error: E)
}
