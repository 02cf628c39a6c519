/** The Python exceptions that can travel along the modelled code paths. */
module Exceptions {

  datatype Exc =
    | ValueError            // int() rejected the day count, or no valid currency was given
    | KeyError              // a missing key in the provider's payload or in a day's rates
    | TypeError             // iterating over an exception object that gather() returned
    | RequestError          // any failure of the HTTP request other than a refused connection
    | ConnectionClosedOK    // a send to a connection that was closed cleanly
    | ConnectionClosedError // a send to, or a read from, a connection that broke
}
