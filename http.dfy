/** What the API clients see of an HTTP exchange. */
module Http {
  import opened Wrappers

  /**
   * A completed request: the status code when the response was HTTP, and the
   * body when it decodes as UTF-8 text.
   */
  datatype Response = Response(status: Option<int>, text: Option<string>)

  /** The single error shape the API clients throw, with an optional message. */
  datatype ApiError = ResponseError(message: Option<string>)

  /** A request as the clients build it: the method, the path below the base URL, and the header fields in order. */
  datatype Request = Request(httpMethod: string, path: string, headers: seq<(string, string)>)

  /** Drops one leading "/", so that the path appends below the base URL. */
  function CleanPath(path: string): (r: string)
    ensures |path| > 0 && path[0] == '/' ==> r == path[1..]
    ensures !(|path| > 0 && path[0] == '/') ==> r == path
    ensures ("/" + r == path) || r == path
  {
    if |path| > 0 && path[0] == '/' then path[1..] else path
  }

  /** Only the first slash goes: a path with two leading slashes keeps one. */
  lemma CleanPathStripsOne(path: string)
    requires |path| >= 2 && path[0] == '/' && path[1] == '/'
    ensures CleanPath(path) == path[1..] && CleanPath(path)[0] == '/'
  {
  }

  /** True when the exchange succeeded as the clients judge it: an HTTP status below 400. */
  predicate IsSuccess(response: Response) {
    response.status.Some? && response.status.value < 400
  }
}
