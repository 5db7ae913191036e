/** The HTTP response a handler returns: a status code and either a JSON body or
    a JSON error object `{ error: message }`. */
module Http {

  datatype HttpResponse<T> =
    | Ok(status: int, body: T)
    | Fail(status: int, message: string)
}
