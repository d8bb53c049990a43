/**
 * The .NET exceptions the modelled code raises or lets through, as values.
 * A member that would throw returns `Failure(e)` instead.
 */
module Exceptions {

  datatype Exception =
    /** A dictionary or JSON object indexer was given a key it does not hold. */
    | KeyNotFound(key: string)
    /** `GetString`, `GetObject` or `GetArray` on a JSON value of another kind; `what` names the value. */
    | WrongValueType(what: string)
    /** An HTTP method other than GET or POST was given to a request template. */
    | ArgumentOutOfRange(parameter: string)
    /** A request body that is neither a JSON object nor a JSON string. */
    | NotSupported
    /** `ToString()` (or a member access) on something that is null; `what` names it. */
    | NullReference(what: string)
    /** `JsonObject.Parse` was given text that is not a JSON object. */
    | ParseFailure
    /** Any exception raised by the identity provider library. */
    | ProviderFailure
}
