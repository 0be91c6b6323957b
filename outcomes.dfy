/** What a Ruby call can end in: a value, or one of the exceptions the library lets escape. */
module Outcomes {

  /** A Ruby value that may be nil. */
  datatype Option<T> = None | Some(value: T)

  /** The class of the receiver a failing call was made on. */
  datatype RubyClass = NilClass | IntegerClass | StringClass | ArrayClass | HashClass

  const NoImplicitConversion: string := "no implicit conversion of String into Integer"

  datatype Error =
    /** `raise ArgumentError, message` */
    | ArgumentError(message: string)
    /** `undefined method 'name' for` a receiver of class `receiver` */
    | NoMethodError(name: string, receiver: RubyClass)
    /** An Array or an Integer indexed with a String */
    | TypeError(message: string)

  datatype Result<T> = Success(value: T) | Failure(error: Error) {

    predicate IsFailure() {
      Failure?
    }

    function PropagateFailure<U>(): Result<U>
      requires Failure?
    {
      Failure(error)
    }

    function Extract(): T
      requires Success?
    {
      value
    }
  }
}
