/** The exceptions the modelled code raises, by Python class, with the message it builds. */
module Errors {

  datatype Error =
    | FileNotFoundError(message: string)
    | IsADirectoryError(message: string)
    | ValueError(message: string)
    | ValidationError(message: string)
    | TypeError(message: string)
    | KeyError(key: string)
    | IndexError(message: string)
    | AttributeError(name: string)
    | JSONDecodeError(message: string)
}
