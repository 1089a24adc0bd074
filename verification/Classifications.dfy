// How an attempt ended, in the words every part of the second shift and the broker shares.
module Classifications {

  datatype Classification =
    | Success
    | NoCode | PartialCode | IncorrectCode | TestsFailed | Timeout | EndpointUnavailable | Authentication
    | CreditExhausted | RateLimited | PolicyRefusal | ContextLimit | UnknownFailure
    | ReviewUnavailable | Other(text: string)

  /** The three failures that say something about the model; all others are operational. */
  predicate Substantive(c: Classification) {
    c in {PartialCode, IncorrectCode, TestsFailed}
  }
}
