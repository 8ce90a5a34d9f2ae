/** Tenant extraction of `app-pushapp/middlewares/ContextParser.js`: the
    request's tenant comes from the first source that has one, in the order
    query `tnt`, header `tnt`, first subdomain (with the configured ngrok host
    mapped to "demo"), hostname `localhost` (also "demo"). */
module ContextParser {
  import opened Js
  import opened Base

  /** The parts of an HTTP request the extraction reads. */
  datatype Request = Request(queryTnt: Value, headerTnt: Value, subdomains: seq<string>, hostname: string)

  /** The tenant every local or tunnelled request falls back to. */
  const Demo := Str("demo")

  /** The value compared with the first subdomain: the first dot-separated label
      of the configured `ngrok.domain`, undefined when it is not configured. */
  function NgrokLabel(ngrokDomain: Option<string>): (r: Value)
    ensures ngrokDomain.None? ==> r == Undefined
    ensures ngrokDomain.Some? ==> r.Str? && '.' !in r.s && r.s <= ngrokDomain.value
    ensures ngrokDomain.Some? && |r.s| < |ngrokDomain.value| ==> ngrokDomain.value[|r.s|] == '.'
  {
    match ngrokDomain
    case None => Undefined
    case Some(d) => if d != "" then Str(FirstSegment(d, '.')) else Str(d)
  }

  /** `extractTenantFromReq(req)`. */
  function ExtractTenant(req: Request, ngrokDomain: Option<string>): (t: Value)
    ensures t in {req.queryTnt, req.headerTnt, Demo, Undefined}
         || (|req.subdomains| > 0 && t == Str(req.subdomains[0]))
  {
    if Truthy(req.queryTnt) then req.queryTnt
    else if Truthy(req.headerTnt) then req.headerTnt
    else if |req.subdomains| > 0 then
      if Str(req.subdomains[0]) == NgrokLabel(ngrokDomain) then Demo else Str(req.subdomains[0])
    else if req.hostname == "localhost" then Demo
    else Undefined
  }

  /** A query `tnt` wins over every other source. */
  lemma QueryTenantWins(req: Request, ngrokDomain: Option<string>, other: Request)
    requires Truthy(req.queryTnt) && other.queryTnt == req.queryTnt
    ensures ExtractTenant(req, ngrokDomain) == req.queryTnt
    ensures ExtractTenant(other, None) == ExtractTenant(req, ngrokDomain)
  {
  }

  /** The header `tnt` is the answer exactly when the query has none and the
      header has one (or both name the same tenant). */
  lemma HeaderTenantOnlyWithoutQuery(req: Request, ngrokDomain: Option<string>)
    ensures !Truthy(req.queryTnt) && Truthy(req.headerTnt) ==> ExtractTenant(req, ngrokDomain) == req.headerTnt
    ensures Truthy(req.queryTnt) && req.queryTnt != req.headerTnt ==> ExtractTenant(req, ngrokDomain) != req.headerTnt
  {
  }

  /** With no query or header tenant, a request whose first subdomain is the
      ngrok host's first label belongs to "demo"; any other first subdomain is
      the tenant itself. */
  lemma SubdomainTenant(req: Request, ngrokDomain: string)
    requires !Truthy(req.queryTnt) && !Truthy(req.headerTnt) && |req.subdomains| > 0
    ensures req.subdomains[0] == FirstSegment(ngrokDomain, '.') ==> ExtractTenant(req, Some(ngrokDomain)) == Demo
    ensures req.subdomains[0] != FirstSegment(ngrokDomain, '.') ==>
      ExtractTenant(req, Some(ngrokDomain)) == Str(req.subdomains[0])
    ensures ExtractTenant(req, None) == Str(req.subdomains[0])
  {
    assert FirstSegment("", '.') == "";
  }

  /** Without any of the four sources the tenant is undefined, and only then
      (or when the first subdomain is empty and is not the ngrok label). */
  lemma NoTenantWithoutSource(req: Request, ngrokDomain: Option<string>)
    ensures !Truthy(ExtractTenant(req, ngrokDomain)) <==>
      && !Truthy(req.queryTnt) && !Truthy(req.headerTnt)
      && (if |req.subdomains| > 0
          then req.subdomains[0] == "" && Str("") != NgrokLabel(ngrokDomain)
          else req.hostname != "localhost")
  {
  }

  /** The outcome of the middleware: whether the request goes on, and the
      `request.context` it set. */
  datatype Parsed = Parsed(proceed: bool, context: Value)

  /** `middleware({request})`: always lets the request through, with the
      extracted tenant as its context. */
  function Middleware(req: Request, ngrokDomain: Option<string>): (r: Parsed)
    ensures r.proceed
    ensures !Truthy(req.queryTnt) && !Truthy(req.headerTnt) && |req.subdomains| == 0 && req.hostname == "localhost"
      ==> r.context == Demo
    ensures r.context == ExtractTenant(req, ngrokDomain)
    ensures Truthy(req.queryTnt) ==> r.context == req.queryTnt
    ensures !Truthy(req.queryTnt) && Truthy(req.headerTnt) ==> r.context == req.headerTnt
    ensures !Truthy(req.queryTnt) && !Truthy(req.headerTnt) && |req.subdomains| > 0 ==>
      r.context == (if Str(req.subdomains[0]) == NgrokLabel(ngrokDomain) then Demo else Str(req.subdomains[0]))
    ensures !Truthy(req.queryTnt) && !Truthy(req.headerTnt) && |req.subdomains| == 0 && req.hostname != "localhost"
      ==> r.context == Undefined
  {
    Parsed(true, ExtractTenant(req, ngrokDomain))
  }
}
