/** The crate's closed error enumeration (src/error.rs). */
module Errors {

  datatype Error =
    | KrakenError(messages: seq<string>)  // the exchange's own `error` list, unchanged
    | APIError(reason: string)             // a transport failure
    | JSONError(reason: string)            // a body that does not decode
    | StreamError
}
