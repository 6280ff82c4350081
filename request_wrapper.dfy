/** RequestWrapper: a mutable view over a caller's HTTP request that lets the client
    change method, URI, version and headers without touching the request itself, and
    reset the headers to those the request holds at the time. */
module Client {
  import opened Http
  import opened WrapperSpec

  /** The caller's request, owned by the caller, who may change it at any time. The wrapper
      only reads it: at construction, and for its headers on every reset. */
  class OriginalRequest {
    var headers: seq<Header>
    var shape: Shape
    var defaultVersion: HttpVersion

    function Snapshot(): Original
      reads this
    {
      Original(headers, shape, defaultVersion)
    }

    constructor (headers: seq<Header>, shape: Shape, defaultVersion: HttpVersion)
      ensures Snapshot() == Original(headers, shape, defaultVersion)
    {
      this.headers := headers;
      this.shape := shape;
      this.defaultVersion := defaultVersion;
    }
  }

  class RequestWrapper {
    const original: OriginalRequest
    const defaultVersion: HttpVersion
    var uri: Option<Uri>
    var methodName: string
    var version: Option<HttpVersion>
    var headers: seq<Header>

    function State(): WrapperState
      reads this
    {
      WrapperState(uri, methodName, version, headers, defaultVersion)
    }

    /** Stores the fields `Wrap` has worked out. */
    constructor Init(original: OriginalRequest, s: WrapperState)
      ensures this.original == original && State() == s
    {
      this.original := original;
      this.defaultVersion := s.defaultVersion;
      this.uri := s.uri;
      this.methodName := s.methodName;
      this.version := s.version;
      this.headers := s.headers;
    }

    /** The Java constructor, which may throw: a fresh wrapper over `request`, or the error. */
    static method Wrap(request: OriginalRequest?, parse: string -> Option<Uri>)
      returns (r: Result<RequestWrapper>)
      ensures request == null ==> r == Failure(InvalidArgument(NullRequestMessage))
      ensures request != null ==>
                var spec := WrapperSpec.Wrap(Some(request.Snapshot()), parse);
                (r.Failure? <==> spec.Failure?)
                && (r.Failure? ==> r.error == spec.error)
                && (r.Success? ==> fresh(r.value) && r.value.original == request
                                   && r.value.State() == spec.value)
    {
      if request == null {
        return Failure(InvalidArgument(NullRequestMessage));
      }
      var headers := request.headers;
      var uri, name, version;
      match request.shape {
        case UriAddressed(u, m) =>
          uri, name, version := u, m, None;
        case LineAddressed(line, v) =>
          var parsed := parse(line.uri);
          if parsed.None? {
            return Failure(UriSyntax(line.uri));
          }
          uri, name, version := parsed, line.methodName, Some(v);
      }
      var w := new RequestWrapper.Init(request,
        WrapperState(uri, name, version, headers, request.defaultVersion));
      r := Success(w);
    }

    method GetMethod() returns (m: string)
      ensures m == State().methodName
    {
      m := methodName;
    }

    method SetMethod(m: Option<string>) returns (outcome: Outcome)
      modifies this
      ensures m.None? ==> outcome == Fail(InvalidArgument(NullMethodMessage)) && State() == old(State())
      ensures m.Some? ==> outcome == Pass && State() == old(State()).SetMethod(m).value
    {
      if m.None? {
        return Fail(InvalidArgument(NullMethodMessage));
      }
      methodName := m.value;
      outcome := Pass;
    }

    method GetHttpVersion() returns (v: HttpVersion)
      ensures v == State().EffectiveVersion()
      ensures version.None? ==> v == defaultVersion
    {
      if version.Some? {
        v := version.value;
      } else {
        v := defaultVersion;
      }
    }

    method SetVersion(v: Option<HttpVersion>)
      modifies this
      ensures State() == old(State()).SetVersion(v)
    {
      version := v;
    }

    method GetURI() returns (u: Option<Uri>)
      ensures u == State().uri
    {
      u := uri;
    }

    method SetURI(u: Option<Uri>)
      modifies this
      ensures State() == old(State()).SetUri(u)
    {
      uri := u;
    }

    /** Method, target and version, recomputed from the current fields on every call. */
    method GetRequestLine(toAscii: Uri -> string) returns (line: RequestLine)
      ensures line == State().Line(toAscii)
      ensures line.methodName == methodName
      ensures uri.None? ==> line.uri == "/"
    {
      var m := GetMethod();
      var ver := GetHttpVersion();
      var u := GetURI();
      var uritext;
      if u.Some? {
        uritext := toAscii(u.value);
      } else {
        uritext := "/";
      }
      line := RequestLine(m, uritext, ver);
    }

    /** The inherited header store's wholesale replacement, order and duplicates kept. */
    method SetHeaders(hs: seq<Header>)
      modifies this
      ensures State() == old(State()).(headers := hs)
    {
      headers := hs;
    }

    /** Makes the headers those the original holds now; the original is only read. */
    method ResetHeaders()
      modifies this
      ensures State() == old(State()).ResetHeaders(original.headers)
      ensures unchanged(original)
    {
      SetHeaders(original.headers);
    }
  }

  /** One redirect hop over a URI-addressed GET request with header X: 1. The policy switches
      to POST, points at another URI and adds header Y: 2; the request line then carries
      the new method and URI with the parameters' default version. After a reset the headers
      are the original's again while the request line stays. */
  method RedirectHop(parse: string -> Option<Uri>, toAscii: Uri -> string,
                     first: Uri, second: Uri, defaultVersion: HttpVersion)
    returns (line: RequestLine, edited: seq<Header>, reset: seq<Header>, lineAfterReset: RequestLine)
    ensures line == RequestLine("POST", toAscii(second), defaultVersion)
    ensures edited == [Header("X", "1"), Header("Y", "2")]
    ensures reset == [Header("X", "1")]
    ensures lineAfterReset == line
  {
    var request := new OriginalRequest([Header("X", "1")], UriAddressed(Some(first), "GET"), defaultVersion);
    var r := RequestWrapper.Wrap(request, parse);
    var w := r.value;
    var _ := w.SetMethod(Some("POST"));
    w.SetURI(Some(second));
    w.SetHeaders(w.headers + [Header("Y", "2")]);
    line := w.GetRequestLine(toAscii);
    edited := w.headers;
    w.ResetHeaders();
    reset := w.headers;
    lineAfterReset := w.GetRequestLine(toAscii);
  }
}
