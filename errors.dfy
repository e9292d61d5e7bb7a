/** What the library's operations throw. */
module Throwables {

  /**
   * A PHP `Exception` carries a message and an integer code (0 when none is
   * given). A `TypeError` is what PHP raises when `null` reaches a parameter
   * declared with a non-nullable type; it names that parameter.
   * `ReturnTypeError` is the TypeError PHP raises when a function returns a
   * value its declared return type excludes; it names the function.
   * `NoErrorElement` stands for an error response whose `errors` list is
   * empty, which the PHP code does not guard against.
   */
  datatype Failure =
    | Exception(message: string, code: int)
    | TypeError(argument: string)
    | ReturnTypeError(member: string)
    | NoErrorElement
}
