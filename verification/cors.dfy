/** The CORS middleware of internal/api/middlewares/cors.go: an exact
    allow-list test on the request's Origin header, then a reject, a preflight
    answer, or the headers followed by the next stage. */
module Cors {
  import opened Http

  /** The fixed allow-list; the middleware only ever reads it. */
  const AllowedOrigins: seq<string> := ["https://my-origin-url.com", "https://localhost:8000"]

  const AllowOrigin := "Access-Control-Allow-Origin"
  const AllowHeaders := "Allow-Control-Allow-Headers"
  const AllowMethods := "Allow-Control-Allow-Methods"
  const AllowCredentials := "Allow-Control-Allow-Credentials"
  const ExposeHeaders := "Allow-Control-Expose-Headers"
  const MaxAge := "Allow-Control-Max-Age"

  /** The six header keys the middleware writes, spelt as the code spells them. */
  predicate IsCorsHeader(key: string) {
    key == AllowOrigin || key == AllowHeaders || key == AllowMethods
    || key == AllowCredentials || key == ExposeHeaders || key == MaxAge
  }

  /** A request as the middleware sees it: its method (r.Method) and its header, each
      key (in canonical form) mapped to the values sent for it. */
  datatype Request = Request(verb: string, header: map<string, seq<string>>)

  /** r.Header.Get(key): the first value sent for the key, "" when it is absent. */
  function HeaderGet(header: map<string, seq<string>>, key: string): string {
    if key in header && |header[key]| > 0 then header[key][0] else ""
  }

  function Origin(r: Request): string {
    HeaderGet(r.header, "Origin")
  }

  /** isOriginAllowed: scans the allow-list and stops at the first entry equal
      to the origin. */
  method IsOriginAllowed(origin: string) returns (allowed: bool)
    ensures allowed <==> origin in AllowedOrigins
    ensures allowed <==> origin == "https://my-origin-url.com" || origin == "https://localhost:8000"
  {
    for i := 0 to |AllowedOrigins|
      invariant origin !in AllowedOrigins[..i]
    {
      if origin == AllowedOrigins[i] {
        return true;
      }
    }
    return false;
  }

  /** Everything the middleware does for a request with this origin and method. */
  function CorsEffects<P, C>(origin: string, verb: string): seq<Event<P, C>> {
    if origin !in AllowedOrigins then
      ErrorEffects("Not Allowed by CORS", StatusForbidden)
    else
      [ HeaderSet(AllowOrigin, origin),
        HeaderSet(AllowHeaders, "Content-Type, Authorization"),
        HeaderSet(AllowMethods, "GET, POST, PUT, PATCH, DELETE"),
        HeaderSet(AllowCredentials, "true"),
        HeaderSet(ExposeHeaders, "Authorization"),
        HeaderSet(MaxAge, "3600") ]
      + (if verb == MethodOptions then [] else [NextCalled])
  }

  /** The handler that Cors(next) returns; next.ServeHTTP is w.Next(). */
  method Cors<P, C>(w: ResponseWriter<P, C>, r: Request)
    modifies w
    ensures w.trace == old(w.trace) + CorsEffects(Origin(r), r.verb)
  {
    var origin := HeaderGet(r.header, "Origin");
    var allowed := IsOriginAllowed(origin);
    if allowed {
      w.Set(AllowOrigin, origin);
    } else {
      w.Error("Not Allowed by CORS", StatusForbidden);
      return;
    }

    w.Set(AllowHeaders, "Content-Type, Authorization");
    w.Set(AllowMethods, "GET, POST, PUT, PATCH, DELETE");
    w.Set(AllowCredentials, "true");
    w.Set(ExposeHeaders, "Authorization");
    w.Set(MaxAge, "3600");

    if r.verb == MethodOptions {
      return;
    }

    w.Next();
  }

  /** The headers an accepted request carries after the middleware, whatever
      its method: the origin echoed verbatim and the five fixed values. */
  function AcceptedHeader(header: map<string, string>, origin: string): map<string, string> {
    header[AllowOrigin := origin]
          [AllowHeaders := "Content-Type, Authorization"]
          [AllowMethods := "GET, POST, PUT, PATCH, DELETE"]
          [AllowCredentials := "true"]
          [ExposeHeaders := "Authorization"]
          [MaxAge := "3600"]
  }

  /** Replaying the six header writes of an accepted request. */
  lemma AcceptedHeadersObserved<P, C>(x: Exchange<P, C>, origin: string, verb: string)
    requires origin in AllowedOrigins
    ensures var t := CorsEffects<P, C>(origin, verb);
      Run(x, t[..6]) == x.(header := AcceptedHeader(x.header, origin))
  {
    var t := CorsEffects<P, C>(origin, verb);
    var h := t[..6];
    assert h == [h[0]] + [h[1]] + [h[2]] + [h[3]] + [h[4]] + [h[5]];
    RunAppend(x, [h[0]] + [h[1]] + [h[2]] + [h[3]] + [h[4]], [h[5]]);
    RunAppend(x, [h[0]] + [h[1]] + [h[2]] + [h[3]], [h[4]]);
    RunAppend(x, [h[0]] + [h[1]] + [h[2]], [h[3]]);
    RunAppend(x, [h[0]] + [h[1]], [h[2]]);
    RunAppend(x, [h[0]], [h[1]]);
  }

  /** A request whose origin is not listed (an absent or empty one included)
      gets a 403 "Not Allowed by CORS", the next stage never runs, and none of
      the six CORS headers is touched. */
  lemma Rejected<P, C>(x: Exchange<P, C>, r: Request)
    requires Origin(r) !in AllowedOrigins
    ensures var y := Run(x, CorsEffects<P, C>(Origin(r), r.verb));
      && y.status == (if x.status == 0 then StatusForbidden else x.status)
      && y.body == x.body + [Text("Not Allowed by CORS\n")]
      && y.nextCalls == x.nextCalls
      && y.calls == x.calls
      && forall k :: IsCorsHeader(k) ==>
           (k in y.header <==> k in x.header) && (k in x.header ==> y.header[k] == x.header[k])
  {
    ErrorObserved<P, C>(x, "Not Allowed by CORS", StatusForbidden);
    assert "Not Allowed by CORS" + "\n" == "Not Allowed by CORS\n";
  }

  /** A request without an Origin header is always rejected. */
  lemma AbsentOriginRejected<P, C>(x: Exchange<P, C>, r: Request)
    requires "Origin" !in r.header
    ensures var y := Run(x, CorsEffects<P, C>(Origin(r), r.verb));
      && FinalStatus(y) == (if x.status == 0 then StatusForbidden else x.status)
      && y.nextCalls == x.nextCalls
  {
    Rejected<P, C>(x, r);
  }

  /** An accepted request carries Access-Control-Allow-Origin equal to its
      origin and the five fixed headers, whatever its method; the middleware
      writes no status and no body of its own. */
  lemma Accepted<P, C>(x: Exchange<P, C>, r: Request)
    requires Origin(r) in AllowedOrigins
    ensures var y := Run(x, CorsEffects<P, C>(Origin(r), r.verb));
      && y.header == AcceptedHeader(x.header, Origin(r))
      && y.header[AllowOrigin] == Origin(r)
      && y.status == x.status && y.body == x.body && y.calls == x.calls
  {
    var t := CorsEffects<P, C>(Origin(r), r.verb);
    AcceptedHeadersObserved<P, C>(x, Origin(r), r.verb);
    assert t == t[..6] + t[6..];
    RunAppend(x, t[..6], t[6..]);
  }

  /** An accepted OPTIONS request is answered after the headers are set, and
      the next stage does not run. */
  lemma PreflightStops<P, C>(x: Exchange<P, C>, r: Request)
    requires Origin(r) in AllowedOrigins && r.verb == MethodOptions
    ensures Run(x, CorsEffects<P, C>(Origin(r), r.verb)).nextCalls == x.nextCalls
  {
    var t := CorsEffects<P, C>(Origin(r), r.verb);
    AcceptedHeadersObserved<P, C>(x, Origin(r), r.verb);
    assert t == t[..6];
  }

  /** An accepted request with any other method runs the next stage exactly
      once, and only after every header write. */
  lemma ForwardsOnce<P, C>(x: Exchange<P, C>, r: Request)
    requires Origin(r) in AllowedOrigins && r.verb != MethodOptions
    ensures var t := CorsEffects<P, C>(Origin(r), r.verb);
      && Run(x, t).nextCalls == x.nextCalls + 1
      && t[|t| - 1] == NextCalled
      && forall i :: 0 <= i < |t| - 1 ==> t[i].HeaderSet?
  {
    var t := CorsEffects<P, C>(Origin(r), r.verb);
    AcceptedHeadersObserved<P, C>(x, Origin(r), r.verb);
    assert t == t[..6] + [NextCalled];
    RunAppend(x, t[..6], [NextCalled]);
  }

  /** An illustration of what IsOriginAllowed's contract already says for every
      input: the match is exact, with no case folding, no prefix, no trailing
      slash and no change of scheme. */
  lemma ExactMatchOnly()
    ensures "https://my-origin-url.com" in AllowedOrigins && "https://localhost:8000" in AllowedOrigins
    ensures "" !in AllowedOrigins
    ensures "https://MY-ORIGIN-URL.com" !in AllowedOrigins
    ensures "https://my-origin-url.com/" !in AllowedOrigins
    ensures "https://my-origin-url.com.evil.example" !in AllowedOrigins
    ensures "http://localhost:8000" !in AllowedOrigins
    ensures "https://localhost" !in AllowedOrigins
  {
  }
}
