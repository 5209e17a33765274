/** The HTTPS fetch of `src/fetch.ts`: the redirect status set, the ordered
    accept / redirect / reject decision taken on each response, and redirect
    following, with the server abstracted as a function from requests to
    responses. */
module Fetch {
  import opened Wrappers
  import opened Strings
  import Host

  /** The fields of an incoming response that the decision reads. A status
      of 0 stands for a missing status code and "" for a missing header or
      response URL: each is falsy in the source, as an absent one is. */
  datatype RawResponse = RawResponse(statusCode: int, location: string, contentType: string, url: string)

  datatype Request = Request(verb: string, url: string)

  /** The server: the response, if any, given to each request. */
  type Respond = Request -> Option<RawResponse>

  /** The request options: `verb` is `init.method`; "" stands for an absent
      `method` or `redirect`. */
  datatype RequestInit = RequestInit(verb: string, redirect: string, redirected: bool)

  /** Why a response is refused with ERR_NETWORK_IMPORT_DISALLOWED; the
      middle two attach `statusCode` or `contentType` to the error. */
  datatype RejectKind = NoResponse | OutOfRange(statusCode: int) | NoContentType | WrongContentType(contentType: string)

  datatype FetchError =
    | Disallowed(url: string, kind: RejectKind)
      /** `new URL(location, url)` threw while following a redirect. */
    | BadLocation(url: string, cause: Host.UrlError)
      /** The modelled number of requests ran out (the source has no bound). */
    | HopLimit(url: string)

  /** The accepted response's fields other than headers and body readers. */
  datatype Response = Response(url: string, ok: bool, redirected: bool, status: int)

  datatype Decision = Follow(location: string) | Reject(kind: RejectKind) | Accept

  /** Redirect status codes as section 6.4 of RFC 7231 and RFC 7238 list
      them: 304, 305 and 306 are not redirects. */
  function IsRedirect(statusCode: int): (r: bool)
    ensures r <==> statusCode in {300, 301, 302, 303, 307, 308}
  {
    match statusCode
    case 300 => true
    case 301 => true
    case 302 => true
    case 303 => true
    case 307 => true
    case 308 => true
    case _ => false
  }

  /** `init?.method || 'get'`. */
  function MethodOf(init: RequestInit): (m: string)
    ensures m == (if init.verb == "" then "get" else init.verb)
  {
    OrElse(Some(init.verb), "get")
  }

  /** `!init?.redirect || init?.redirect === 'follow'`. */
  predicate FollowsRedirects(init: RequestInit) {
    init.redirect == "" || init.redirect == "follow"
  }

  const AllowedMimeTypes: seq<string> := ["application/javascript", "text/javascript", "text/plain"]

  /** Some allowed MIME type occurs inside the `content-type` header. */
  predicate AllowedContentType(contentType: string) {
    exists m | m in AllowedMimeTypes :: Contains(contentType, m)
  }

  /** The chain of early returns taken on one response, in source order:
      missing response or status, redirect, status range, content type. */
  function Decide(res: Option<RawResponse>, init: RequestInit): (d: Decision)
    ensures (res.None? || res.value.statusCode == 0) <==> d == Reject(NoResponse)
    ensures d.Follow? <==>
              res.Some? && res.value.statusCode != 0 && IsRedirect(res.value.statusCode) &&
              res.value.location != "" && FollowsRedirects(init)
    ensures d.Follow? ==> d.location == res.value.location
    ensures d.Accept? <==>
              res.Some? && 200 <= res.value.statusCode < 300 &&
              res.value.contentType != "" && AllowedContentType(res.value.contentType)
    ensures (res.Some? && res.value.statusCode != 0 && !d.Follow? &&
             !(200 <= res.value.statusCode < 300)) ==> d == Reject(OutOfRange(res.value.statusCode))
    ensures res.Some? && 200 <= res.value.statusCode < 300 && res.value.contentType == "" ==>
              d == Reject(NoContentType)
    ensures (res.Some? && 200 <= res.value.statusCode < 300 && res.value.contentType != "" &&
             !AllowedContentType(res.value.contentType)) ==> d == Reject(WrongContentType(res.value.contentType))
  {
    if res.None? || res.value.statusCode == 0 then Reject(NoResponse)
    else
      var r := res.value;
      if IsRedirect(r.statusCode) && r.location != "" && FollowsRedirects(init) then Follow(r.location)
      else if r.statusCode < 200 || r.statusCode >= 300 then Reject(OutOfRange(r.statusCode))
      else if r.contentType == "" then Reject(NoContentType)
      else if !AllowedContentType(r.contentType) then Reject(WrongContentType(r.contentType))
      else Accept
  }

  /** The accepted response as the source builds it: `redirected` is read
      from `init.redirect` (the redirect mode) rather than `init.redirected`. */
  function AcceptedAsWritten(res: RawResponse, url: string, init: RequestInit): (r: Response)
    ensures r.redirected <==> init.redirect != ""
  {
    Response(OrElse(Some(res.url), url), res.statusCode == 200, init.redirect != "", res.statusCode)
  }

  /** The accepted response with `redirected` taken from the flag that the
      redirect branch sets. */
  function Accepted(res: RawResponse, url: string, init: RequestInit): (r: Response)
    ensures r.status == res.statusCode && (r.ok <==> res.statusCode == 200)
    ensures r.url == (if res.url != "" then res.url else url)
    ensures r.redirected == init.redirected
  {
    Response(OrElse(Some(res.url), url), res.statusCode == 200, init.redirected, res.statusCode)
  }

  /** `fetch(url, init)`: follows redirects through `respond`, allowing at
      most `fuel` requests, and either accepts the final response or rejects. */
  function Fetch(url: string, init: RequestInit, host: Host.Host, respond: Respond, fuel: nat)
    : (r: Result<Response, FetchError>)
    ensures r.Success? ==> 200 <= r.value.status < 300 && (r.value.ok <==> r.value.status == 200)
    ensures r.Success? && init.redirected ==> r.value.redirected
    ensures fuel == 0 ==> r == Failure(HopLimit(url))
    ensures var res := respond(Request(MethodOf(init), url));
            && (fuel > 0 && Decide(res, init) == Accept ==> r == Success(Accepted(res.value, url, init)))
            && (fuel > 0 && Decide(res, init).Reject? ==> r == Failure(Disallowed(url, Decide(res, init).kind)))
            && (fuel > 0 && Decide(res, init).Follow? && host.parseUrl(Decide(res, init).location, Some(url)).Failure? ==>
                  r == Failure(BadLocation(url, host.parseUrl(Decide(res, init).location, Some(url)).error)))
    decreases fuel
  {
    if fuel == 0 then Failure(HopLimit(url))
    else
      var res := respond(Request(MethodOf(init), url));
      match Decide(res, init)
      case Follow(location) =>
        (match host.parseUrl(location, Some(url))
         case Failure(e) => Failure(BadLocation(url, e))
         case Success(target) => Fetch(target, init.(redirected := true), host, respond, fuel - 1))
      case Reject(kind) => Failure(Disallowed(url, kind))
      case Accept => Success(Accepted(res.value, url, init))
  }

  /** More fuel changes nothing unless the smaller bound was what stopped it. */
  lemma {:induction false} FetchFuelMonotone(url: string, init: RequestInit, host: Host.Host, respond: Respond,
                                            fuel: nat, more: nat)
    requires !Fetch(url, init, host, respond, fuel).Failure? || !Fetch(url, init, host, respond, fuel).error.HopLimit?
    ensures Fetch(url, init, host, respond, fuel + more) == Fetch(url, init, host, respond, fuel)
    decreases fuel
  {
    var res := respond(Request(MethodOf(init), url));
    if fuel > 0 && Decide(res, init).Follow? {
      var location := Decide(res, init).location;
      if host.parseUrl(location, Some(url)).Success? {
        FetchFuelMonotone(host.parseUrl(location, Some(url)).value, init.(redirected := true),
                          host, respond, fuel - 1, more);
      }
    }
  }

  /** A followed redirect re-issues the same request, with the same method and
      `redirected: true`, at the location resolved against the current URL. */
  lemma FetchFollowsRedirect(url: string, init: RequestInit, host: Host.Host, respond: Respond, fuel: nat,
                             res: RawResponse, target: string)
    requires respond(Request(MethodOf(init), url)) == Some(res)
    requires IsRedirect(res.statusCode) && res.location != "" && FollowsRedirects(init)
    requires host.parseUrl(res.location, Some(url)) == Success(target)
    ensures Fetch(url, init, host, respond, fuel + 1) == Fetch(target, init.(redirected := true), host, respond, fuel)
    ensures MethodOf(init.(redirected := true)) == MethodOf(init)
  {
  }

  /** Corrected `redirected` flag: for a request not itself the result of a
      redirect, the accepted response is marked redirected exactly when the
      first response was followed. */
  lemma RedirectedIffFollowed(url: string, init: RequestInit, host: Host.Host, respond: Respond, fuel: nat)
    requires !init.redirected && Fetch(url, init, host, respond, fuel).Success?
    ensures Fetch(url, init, host, respond, fuel).value.redirected <==>
            Decide(respond(Request(MethodOf(init), url)), init).Follow?
  {
  }

  /** As written, the flag is wrong both ways: a followed redirect with the
      default options reports `redirected: false`, and a direct answer to a
      request with `redirect: "manual"` reports `redirected: true`. */
  lemma RedirectedFlagAsWritten(res: RawResponse, url: string)
    ensures !AcceptedAsWritten(res, url, RequestInit("", "", true)).redirected
    ensures AcceptedAsWritten(res, url, RequestInit("", "manual", false)).redirected
  {
  }

  /** An HTML content type is refused: every allowed type is longer. */
  lemma HtmlIsRefused()
    ensures !AllowedContentType("text/html")
  {
    LongerNotContained("text/html", AllowedMimeTypes[0]);
    LongerNotContained("text/html", AllowedMimeTypes[1]);
    LongerNotContained("text/html", AllowedMimeTypes[2]);
  }

  /** JavaScript content types are accepted, parameters and all. */
  lemma JavaScriptIsAccepted()
    ensures AllowedContentType("text/javascript")
    ensures AllowedContentType("application/javascript; charset=utf-8")
  {
    var js := "text/javascript";
    assert js[..|AllowedMimeTypes[1]|] == AllowedMimeTypes[1];
    assert Contains(js, AllowedMimeTypes[1]);
    var app := "application/javascript; charset=utf-8";
    assert app[..|AllowedMimeTypes[0]|] == AllowedMimeTypes[0];
    assert Contains(app, AllowedMimeTypes[0]);
  }

  /** A HEAD request passes the same gate as a GET: a 200 answer with a
      content type outside the allow-list is refused. */
  lemma HeadIsContentTypeGated(url: string, init: RequestInit, host: Host.Host, respond: Respond, fuel: nat,
                               res: RawResponse)
    requires init.verb == "head"
    requires respond(Request("head", url)) == Some(res)
    requires res.statusCode == 200 && res.contentType == "text/html"
    ensures Fetch(url, init, host, respond, fuel + 1) == Failure(Disallowed(url, WrongContentType("text/html")))
  {
    HtmlIsRefused();
  }
}
