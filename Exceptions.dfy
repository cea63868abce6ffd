/** The exceptions a service method can end in, one constructor per exception class. */
module Exceptions {
  import opened Outcomes

  datatype ServiceError =
    | BadRequest(message: string)           // BadRequestException
    | AuthError(message: string)            // AuthException
    | NotFound(message: string)             // NotFoundException
    | ServerError(message: string)          // ServerException
    | SomethingWentWrong(message: string)   // a plain checked Exception, rethrown wrapped by block()
    | InformationNotFound(message: string)  // InformationNotFoundException
    | ClientResponse(status: int)           // the HTTP client's own WebClientResponseException
    | NumberFormat(input: Option<string>)   // NumberFormatException from Integer.parseInt
    | NullData                              // NullPointerException: the envelope's data list was null
    | JsonSyntax                            // Gson could not parse the reply text
    | NotAJsonObject                        // IllegalStateException: the reply parsed, but not to an object
}
