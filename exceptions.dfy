/** The Java exceptions the cache producer can raise, as data. */
module Exceptions {

  datatype Exception =
    /** Long.valueOf(String) was given a string that is not a long literal. */
    | NumberFormatException(path: string, text: string)
    /** A configuration value of a type the reader does not accept. */
    | ClassCastException(path: string)
    /** TimeUnit.valueOf was given a name that is no TimeUnit constant. */
    | IllegalArgumentException(path: string, text: string)
    /** An injection point without @Named. */
    | UnsupportedOperationException
}
