/** The CORS middleware (backend/internal/interfaces/http/middleware/cors.go): the
    set of allowed origins built once from the configuration, and the headers
    and the continue-or-stop decision for each request. Response headers are a
    map from name to value; `Set` replaces a value. */
module Cors {
  import opened Text

  const AllowOriginHeader := "Access-Control-Allow-Origin"
  const AllowCredentialsHeader := "Access-Control-Allow-Credentials"
  const AllowHeadersHeader := "Access-Control-Allow-Headers"
  const AllowMethodsHeader := "Access-Control-Allow-Methods"
  const VaryHeader := "Vary"

  const AllowedHeaders := "Content-Type, Content-Length, Accept-Encoding, X-CSRF-Token, Authorization, accept, origin, Cache-Control, X-Requested-With"
  const AllowedMethods := "POST, OPTIONS, GET, PUT, DELETE, PATCH"

  const NoContent := 204

  /** The configured origins with every trailing "/" removed. */
  function AllowedOrigins(configured: seq<string>): set<string> {
    set o | o in configured :: TrimRight(o, '/')
  }

  /** The loop that fills `allowedSet`. */
  method BuildAllowedSet(configured: seq<string>) returns (allowed: set<string>)
    ensures allowed == AllowedOrigins(configured)
  {
    allowed := {};
    for i := 0 to |configured|
      invariant allowed == AllowedOrigins(configured[..i])
    {
      assert configured[..i + 1] == configured[..i] + [configured[i]];
      allowed := allowed + {TrimRight(configured[i], '/')};
    }
    assert configured[..|configured|] == configured;
  }

  /** An origin is allowed exactly when some configured origin trims to it; no
      allowed origin ends in "/", so a request origin with a trailing slash is
      never allowed (the request's origin is not trimmed). */
  lemma AllowedOriginsMeaning(configured: seq<string>, origin: string)
    ensures origin in AllowedOrigins(configured) <==> exists o :: o in configured && TrimRight(o, '/') == origin
    ensures origin != [] && origin[|origin| - 1] == '/' ==> origin !in AllowedOrigins(configured)
    ensures forall o :: o in configured ==> TrimRight(o, '/') in AllowedOrigins(configured)
  {
    if origin in AllowedOrigins(configured) {
      var o :| o in configured && TrimRight(o, '/') == origin;
    }
  }

  /** The response headers after the middleware: the request's origin echoed
      with credentials allowed when that origin is allowed; the allowed headers,
      the allowed methods and "Vary: Origin" always. */
  function CorsHeaders(allowed: set<string>, origin: string, headers: map<string, string>): map<string, string> {
    var echoed := if origin in allowed then headers[AllowOriginHeader := origin][AllowCredentialsHeader := "true"] else headers;
    echoed[AllowHeadersHeader := AllowedHeaders][AllowMethodsHeader := AllowedMethods][VaryHeader := "Origin"]
  }

  datatype Outcome = Continue | AbortWithStatus(status: int)

  /** The per-request handler. `origin` is the request's Origin header, "" when absent. */
  method Handle(allowed: set<string>, requestMethod: string, origin: string, headers0: map<string, string>)
    returns (headers: map<string, string>, outcome: Outcome)
    ensures headers == CorsHeaders(allowed, origin, headers0)
    ensures outcome == if requestMethod == "OPTIONS" then AbortWithStatus(NoContent) else Continue
  {
    headers := headers0;
    if origin in allowed {
      headers := headers[AllowOriginHeader := origin];
      headers := headers[AllowCredentialsHeader := "true"];
    }
    headers := headers[AllowHeadersHeader := AllowedHeaders];
    headers := headers[AllowMethodsHeader := AllowedMethods];
    headers := headers[VaryHeader := "Origin"];
    if requestMethod == "OPTIONS" {
      return headers, AbortWithStatus(NoContent);
    }
    return headers, Continue;
  }

  /** The five header names are distinct. */
  lemma HeaderNamesDistinct()
    ensures AllowOriginHeader != AllowCredentialsHeader && AllowOriginHeader != AllowHeadersHeader
    ensures AllowOriginHeader != AllowMethodsHeader && AllowOriginHeader != VaryHeader
    ensures AllowCredentialsHeader != AllowHeadersHeader && AllowCredentialsHeader != AllowMethodsHeader
    ensures AllowCredentialsHeader != VaryHeader && AllowHeadersHeader != AllowMethodsHeader
    ensures AllowHeadersHeader != VaryHeader && AllowMethodsHeader != VaryHeader
  {
    assert AllowOriginHeader[21] == 'O' && AllowCredentialsHeader[21] == 'C';
    assert AllowHeadersHeader[21] == 'H' && AllowMethodsHeader[21] == 'M';
    assert |VaryHeader| == 4;
  }

  /** For a response that did not carry them already, Allow-Origin (set to the
      request's origin) and Allow-Credentials ("true") are present exactly when
      the origin is allowed; the three other headers are always set; every
      other header is left as it was. */
  lemma CorsHeadersMeaning(allowed: set<string>, origin: string, headers: map<string, string>)
    requires AllowOriginHeader !in headers && AllowCredentialsHeader !in headers
    ensures var h := CorsHeaders(allowed, origin, headers);
      (AllowOriginHeader in h <==> origin in allowed)
      && (AllowCredentialsHeader in h <==> origin in allowed)
      && (origin in allowed ==> h[AllowOriginHeader] == origin && h[AllowCredentialsHeader] == "true")
      && h[AllowHeadersHeader] == AllowedHeaders && h[AllowMethodsHeader] == AllowedMethods && h[VaryHeader] == "Origin"
      && forall name :: name !in {AllowOriginHeader, AllowCredentialsHeader, AllowHeadersHeader, AllowMethodsHeader, VaryHeader} ==>
           (name in h <==> name in headers) && (name in headers ==> h[name] == headers[name])
  {
    HeaderNamesDistinct();
  }

  /** A trailing slash in the configuration does not matter, one in the request does. */
  lemma TrailingSlashExample()
    ensures "https://app.example" in AllowedOrigins(["https://app.example/"])
    ensures "https://app.example/" !in AllowedOrigins(["https://app.example/"])
  {
    var o := "https://app.example/";
    assert TrimRight(o, '/') == TrimRight(o[..|o| - 1], '/');
    assert o[..|o| - 1] == "https://app.example";
    AllowedOriginsMeaning(["https://app.example/"], "https://app.example/");
  }
}
