/** The Python exceptions that the modelled code raises, with the
    information each one carries. */
module Errors {

  datatype Error =
    | KeyError(key: string)          // a dictionary lookup of an absent key
    | MissingElement                 // the KeyError set.remove raises for an element that is not there
    | IndexError                     // a list index or list.pop out of range
    | ValueError(message: string)
    | HttpError(status: int)         // raise_for_status on a 4xx or 5xx reply
    | Failed(message: string)        // any other exception: a bare Exception(message), or a
                                     // RequestException re-raised, described by its message
}
