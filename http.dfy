/** Values the request wrapper exchanges with the rest of the HTTP client:
    headers, protocol versions, request lines, URIs and the two errors it raises. */
module Http {

  /** A Java reference that may be null: `None` stands for null. */
  datatype Option<T> = None | Some(value: T)

  /** An operation that returns a value or throws one of the wrapper's exceptions. */
  datatype Result<T> = Success(value: T) | Failure(error: Error)

  /** A void operation that returns normally or throws. */
  datatype Outcome = Pass | Fail(error: Error)

  /** The exceptions the wrapper raises. */
  datatype Error =
    | InvalidArgument(message: string)   // IllegalArgumentException
    | UriSyntax(input: string)           // URISyntaxException for the text that did not parse

  const NullRequestMessage: string := "HTTP request may not be null"
  const NullMethodMessage: string := "Method name may not be null"

  /** A protocol version such as HTTP/1.1. */
  datatype HttpVersion = HttpVersion(major: nat, minor: nat)

  /** One header; a message holds them as an ordered sequence, duplicate names allowed. */
  datatype Header = Header(name: string, value: string)

  /** The Request-Line of an HTTP request: method, target and version (section 5.1 of RFC 2616). */
  datatype RequestLine = RequestLine(methodName: string, uri: string, version: HttpVersion)

  /** A parsed URI reference. Its syntax, parsing and ASCII rendering belong to the URI
      library; the model reaches them only through function parameters. */
  type Uri(==)
}
