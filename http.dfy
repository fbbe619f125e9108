/** What a `fetch` from the client yields: a parsed body on `response.ok`, a
    non-OK status, or a rejected promise (the network failed). */
module Http {
  datatype Reply<+T> = Success(body: T) | HttpError(status: int) | NetworkFailure
}
