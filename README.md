# RequestWrapper — a verified model

HttpClient's `RequestWrapper` is a mutable view over a caller's HTTP request. The client
pipeline uses it, for instance across redirect hops, to change the method, target URI,
protocol version and headers of the outgoing request without changing the caller's request
object. It can also reset its headers to those the caller's request holds at that moment.

The model has three modules:

- `Http` (`http.dfy`): the values the wrapper deals in. These are headers (an ordered
  sequence of name/value pairs, duplicates allowed), protocol versions, the request line
  (method, target, version, as in section 5.1 of RFC 2616) and the two exceptions
  (`IllegalArgumentException` as `InvalidArgument`, `URISyntaxException` as `UriSyntax`).
  A Java `null` is `None` of `Option`. A URI is an abstract type.
- `WrapperSpec` (`wrapper_spec.dfy`): the wrapper's state as a value, `WrapperState`.
  Each call is a function on it, and construction is `Wrap`. A pipeline run is a sequence
  of calls (`Op`), interleaved with the caller editing its own request's headers, and
  `Run` executes it. The `Latest*` functions independently give, for each field, the value
  set by the last call that decides it. The lemmas relate the two.
- `Client` (`request_wrapper.dfy`): the imperative model. `OriginalRequest` is the caller's
  request object. `RequestWrapper` is a class with the Java fields. `original` and the
  parameters' default version are `const`, so they are never reassigned. The setters are
  methods that `modify this` only, so the original is provably never written. Each method's
  `ensures` ties the new `State()` to the `WrapperState` function for that call.

URI parsing (`new URI(text)`) and `URI.toASCIIString()` are function parameters (`parse`,
`toAscii`). The default version that `HttpProtocolParams.getVersion(getParams())` supplies
is a field of the original request. The wrapper copies it at construction.

The request-line target follows the code: it is `toAscii` of the whole current URI,
or `"/"` when there is none. The code does not cut an absolute URI down to its path.

## Model

| member | source | states |
|---|---|---|
| `WrapperSpec.Wrap` | src/java/org/apache/http/impl/client/RequestWrapper.java:67-87 | a null request fails with InvalidArgument and yields no wrapper; a request-line request whose target does not parse fails with UriSyntax on that text; otherwise it succeeds with headers equal (order, duplicates) to the original's and the original's default version; a URI-addressed request gives its URI and method with no explicit version, so the effective version is the default; a request-line request gives the parsed target, the line's method and the request's own version |
| `WrapperSpec.WrapperState.SetMethod` | src/java/org/apache/http/impl/client/RequestWrapper.java:93-98 | fails with InvalidArgument exactly when the method is null; otherwise stores it, the empty string included; URI, version and headers are unchanged |
| `WrapperSpec.WrapperState.SetVersion` | src/java/org/apache/http/impl/client/RequestWrapper.java:100-110 | after setting a version the effective version is that version whatever the default; after setting null it is the default; nothing else changes |
| `WrapperSpec.WrapperState.SetUri` | src/java/org/apache/http/impl/client/RequestWrapper.java:116-118 | stores any URI, null included; nothing else changes |
| `WrapperSpec.WrapperState.ResetHeaders` | src/java/org/apache/http/impl/client/RequestWrapper.java:133-135 | the headers become the given current headers of the original; method, URI and version are unchanged |
| `WrapperSpec.RunMatchesLatest` | src/java/org/apache/http/impl/client/RequestWrapper.java:89-135 | after any sequence of calls, each field equals what the last call deciding it set; the headers are those of the last edit or the original's as they were at the last reset; the default version never changes; the original's headers change only through the caller |
| `WrapperSpec.WrapperNeverWritesOriginal` | src/java/org/apache/http/impl/client/RequestWrapper.java:61-135 | a sequence of wrapper calls alone leaves the original's headers as they were |
| `WrapperSpec.ResetRestoresOriginal` | src/java/org/apache/http/impl/client/RequestWrapper.java:133-135 | whatever came before, a reset makes the headers the original's current ones and leaves method, URI, version and the original as they were |
| `WrapperSpec.ResetIdempotent` | src/java/org/apache/http/impl/client/RequestWrapper.java:133-135 | two resets in a row, with the original unchanged between them, leave the same state as one |
| `WrapperSpec.RequestLineAfterRun` | src/java/org/apache/http/impl/client/RequestWrapper.java:120-131 | after any sequence of calls the request line is built from the latest method, the latest URI's ASCII form (or "/"), and the latest explicit version or else the default; nothing is cached |
| `WrapperSpec.NoUriRendersRoot` | src/java/org/apache/http/impl/client/RequestWrapper.java:120-131 | once the URI is set to null the target is "/", with method and effective version unchanged |
| `Client.RequestWrapper.Wrap` | src/java/org/apache/http/impl/client/RequestWrapper.java:67-87 | a null request gives InvalidArgument; otherwise it fails exactly when `WrapperSpec.Wrap` does, with the same error, or yields a fresh wrapper whose `original` is the request and whose state is the one `WrapperSpec.Wrap` gives |
| `Client.RequestWrapper.GetMethod` | src/java/org/apache/http/impl/client/RequestWrapper.java:89-91 | returns the current method |
| `Client.RequestWrapper.SetMethod` | src/java/org/apache/http/impl/client/RequestWrapper.java:93-98 | null gives InvalidArgument and leaves the whole state unchanged; any other method returns normally and is stored, the rest unchanged |
| `Client.RequestWrapper.GetHttpVersion` | src/java/org/apache/http/impl/client/RequestWrapper.java:100-106 | returns the explicit version when one is set and the parameters' default otherwise |
| `Client.RequestWrapper.SetVersion` | src/java/org/apache/http/impl/client/RequestWrapper.java:108-110 | the new state is the old with the explicit version replaced, null included |
| `Client.RequestWrapper.GetURI` | src/java/org/apache/http/impl/client/RequestWrapper.java:112-114 | returns the current URI, possibly null |
| `Client.RequestWrapper.SetURI` | src/java/org/apache/http/impl/client/RequestWrapper.java:116-118 | the new state is the old with the URI replaced, null included |
| `Client.RequestWrapper.GetRequestLine` | src/java/org/apache/http/impl/client/RequestWrapper.java:120-131 | returns the current method, the ASCII form of the current URI or "/" when it is null, and the effective version; changes nothing |
| `Client.RequestWrapper.SetHeaders` | src/java/org/apache/http/impl/client/RequestWrapper.java:74 | the header store is replaced wholesale by the given sequence, order and duplicates kept; nothing else changes |
| `Client.RequestWrapper.ResetHeaders` | src/java/org/apache/http/impl/client/RequestWrapper.java:133-135 | the headers become those the original holds at the time of the call; method, URI and version are unchanged; the original is not modified |
| `Client.RedirectHop` | src/java/org/apache/http/impl/client/RequestWrapper.java:93-135 | on a URI-addressed GET with header X: 1, after setting POST, a new URI and adding Y: 2, the request line is (POST, the new URI's ASCII form, the default version) and the headers are X: 1, Y: 2; after a reset the headers are X: 1 again and the request line is unchanged |

## Left out

- The inherited header container (`AbstractHttpMessage`): adding, removing and replacing
  headers by name are not modelled. Headers are a sequence replaced wholesale by
  `SetHeaders`, and a run models any such edit as one `HeadersEdited` call.
- URI syntax (RFC 2396) and `toASCIIString()` percent-encoding belong to `java.net.URI`.
  They are the function parameters `parse` and `toAscii`, with no properties assumed.
- Parameters: `setParams(request.getParams())` shares the original's parameter object.
  The model keeps only the default version it supplies, copied at construction. A later
  change to the shared parameters is not seen by the model.
- The original's accessors are modelled as the fields of `OriginalRequest`. A URI-addressed
  request's method is assumed non-null, as the request types in the library guarantee.
- Wrapping a wrapper (a `RequestWrapper` is itself an `HttpUriRequest`) goes through the
  URI-addressed branch. The model's `OriginalRequest` is a separate class, so that case is
  covered only through its URI-addressed shape.
- `setMethod` accepts the empty string, as the code does. An empty method is not rejected.
- Thread safety: the class is unsynchronised and has a single owner, so concurrency is not
  modelled.
