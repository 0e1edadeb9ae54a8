/** What a request handler hands back to the web framework: a JSON body, or an
    exception that escapes the handler. */
module Web {

  /** Exceptions that reach the framework. `Foreign` stands for any exception a
      foreign call raises (the inference service, the filesystem), carried with
      its `str()` text. */
  datatype Exception =
    | HttpException(status: nat, detail: string)
    | RuntimeError(message: string)
    | AttributeError(message: string)
    | Foreign(message: string)

  /** A returned JSON object, as an ordered list of (key, value) pairs, or a raised exception. */
  datatype Reply = Json(fields: seq<(string, string)>) | Raised(exception: Exception)
}
