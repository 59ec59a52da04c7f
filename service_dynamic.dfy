/**
 * The dynamic service: every request carries a full URL, whose path-less part selects the
 * backend and whose path is the object path the shared service function works on.
 */
module ServiceDynamic {
  import opened Wrappers
  import opened Errors
  import opened Factory
  import opened Urls

  /** A request of the dynamic service: its location and the rest of its body. */
  datatype Request<Body> = Request(location: Url, body: Body)

  /** `parse_uri`: the URL without its path (the backend root) and the path itself. */
  function ParseUri(u: Url): (split: (string, string))
    ensures split.1 == u.path
    ensures split.0 == Serialize(ClearPath(u))
  {
    (Serialize(ClearPath(u)), u.path)
  }

  /** The root keeps every component but the path: only the path differs from the full URL's text. */
  lemma ParseUriKeepsAllButPath(u: Url)
    ensures Serialize(u) == Head(u) + u.path + Tail(u)
    ensures ParseUri(u).0 == Head(u) + (if IsSpecial(u.scheme) then "/" else "") + Tail(u)
  {
  }

  /** URLs that differ only in their path share a root. */
  lemma ParseUriRootIgnoresPath(u: Url, path: string)
    ensures ParseUri(u.(path := path)).0 == ParseUri(u).0
    ensures ParseUri(u.(path := path)).1 == path
  {
  }

  /** The scheme at the front of a URL's text: everything before the first colon. */
  function SchemeOf(s: string): string {
    if s == [] || s[0] == ':' then [] else [s[0]] + SchemeOf(s[1..])
  }

  lemma {:induction false} SchemeOfPrefix(scheme: string, rest: string)
    requires ':' !in scheme
    ensures SchemeOf(scheme + ":" + rest) == scheme
    decreases |scheme|
  {
    if scheme != [] {
      assert (scheme + ":" + rest)[1..] == scheme[1..] + ":" + rest;
      SchemeOfPrefix(scheme[1..], rest);
    }
  }

  /** Puts a root and a path back together, dropping the "/" a special root always ends in. */
  function Rejoin(root: string, path: string): string {
    if IsSpecial(SchemeOf(root)) && root != [] then root[..|root| - 1] + path else root + path
  }

  /** For a well-formed URL without query or fragment, the split loses nothing: root and path rejoin to the URL. */
  lemma RejoinParseUri(u: Url)
    requires WellFormed(u) && u.query.None? && u.fragment.None?
    ensures Rejoin(ParseUri(u).0, ParseUri(u).1) == Serialize(u)
  {
    var root := ParseUri(u).0;
    var rest := (match u.authority case Some(a) => "//" + a case None => "")
                + (if IsSpecial(u.scheme) then "/" else "");
    assert root == u.scheme + ":" + rest;
    SchemeOfPrefix(u.scheme, rest);
    if IsSpecial(u.scheme) {
      assert root[..|root| - 1] == Head(u);
    }
  }

  /**
   * The body `handler_impl!` gives each handler: split the location, resolve the root,
   * and hand the operator, the path and the whole request to the shared service function.
   */
  function Handle<Body, Response>(factory: OperatorFactory, global: OperatorRegistry, request: Request<Body>,
                                  service: (Operator, string, Request<Body>) -> Result<Response, Error>)
    : (r: Result<Response, Error>)
    ensures var resolved := FromUri(factory, global, Serialize(ClearPath(request.location)));
      && (resolved.Failure? ==> r == Failure(Classify(resolved.error)))
      && (resolved.Success? ==> r == service(resolved.value, request.location.path, request))
  {
    var (uri, path) := ParseUri(request.location);
    var operator :- FromUri(factory, global, uri).MapError(Classify);
    service(operator, path, request)
  }

  /** A resolution failure never reaches the service function: any two service functions give the same answer. */
  lemma HandleFailureSkipsService<Body, Response>(factory: OperatorFactory, global: OperatorRegistry,
                                                  request: Request<Body>,
                                                  s1: (Operator, string, Request<Body>) -> Result<Response, Error>,
                                                  s2: (Operator, string, Request<Body>) -> Result<Response, Error>)
    requires FromUri(factory, global, ParseUri(request.location).0).Failure?
    ensures Handle(factory, global, request, s1) == Handle(factory, global, request, s2)
  {
  }

  /** Only the root reaches the factory: two locations that differ only in their path resolve the same operator. */
  lemma HandleResolvesRootOnly<Body, Response>(factory: OperatorFactory, global: OperatorRegistry,
                                               request: Request<Body>, path: string,
                                               service: (Operator, string, Request<Body>) -> Result<Response, Error>)
    requires FromUri(factory, global, ParseUri(request.location).0).Success?
    ensures var moved := request.(location := request.location.(path := path));
      var op := FromUri(factory, global, ParseUri(request.location).0).value;
      Handle(factory, global, moved, service) == service(op, path, moved)
  {
  }
}
