/** The exceptions and PHP errors the core can end in. */
module Failures {

  datatype Error =
    /** An `InvalidConfigurationException` with its code. */
    | InvalidConfiguration(code: int)
    /** A PHP `TypeError`: a value of the wrong type reached a typed parameter. */
    | TypeError
    /** A PHP `Error` for a call to a method the class does not declare. */
    | UndefinedMethod(name: string)
    /** An operation that throws because it is not implemented. */
    | NotImplemented(name: string)
}
