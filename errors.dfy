/**
 * The errors the library returns. Each constructor stands for one fixed message template of the
 * source and carries the value that the template formats into the message.
 */
module Errors {

  datatype Error =
    /** A coercion failed: "value is not of type <typeName>". */
    | NotOfType(typeName: string)
    /** The value's kind differs from the descriptor's: "invalid type, expected value of type <expected>". */
    | InvalidType(expected: string)
    /** The string is longer than `maxLength`. */
    | TooLong(maxLength: int)
    /** The string is shorter than `minLength`. */
    | TooShort(minLength: int)
    /** The number is greater than `maximum`. */
    | AboveMaximum(maximum: real)
    /** The number is smaller than `minimum`. */
    | BelowMinimum(minimum: real)
    /** The number is not smaller than `exclusiveMaximum`. */
    | NotBelow(exclusiveMaximum: real)
    /** The number is not greater than `exclusiveMinimum`. */
    | NotAbove(exclusiveMinimum: real)
    /** The integer is not a multiple of `multipleOf`. */
    | NotDivisible(multipleOf: int)
    /** The collection has more than `limit` items or properties. */
    | TooMany(limit: int)
    /** The collection has fewer than `limit` items or properties. */
    | TooFew(limit: int)
}
