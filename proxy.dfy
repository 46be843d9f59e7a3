/**
 * The local CORS relay (server.js:25-132): every request is routed by its method and
 * path; a proxied GET or HEAD is sent upstream with an allow-listed subset of its
 * headers, and the upstream status and headers are copied back, without
 * `content-security-policy` and with the CORS headers forced on top. The upstream
 * `fetch` is an oracle from the call it is given to its settled result.
 */
module Proxy {
  import opened Wrappers
  import opened Text

  /** An incoming request. Node hands over header names lower-cased. */
  datatype Request = Request(verb: string, url: string, headers: map<string, string>)

  /** What is asked of the upstream `fetch` (redirects followed, cache bypassed). */
  datatype UpstreamCall = UpstreamCall(url: string, verb: string, headers: map<string, string>)

  /** The settled upstream `fetch`: a response (status, headers in iteration order,
      whether it has a body stream), or the message of the error it rejected with. */
  datatype Upstream =
    | Reply(status: int, headers: seq<(string, string)>, hasBody: bool)
    | Unreachable(message: string)

  /** How the response ends: still open, ended with a text, or piped from upstream. */
  datatype BodyState = Open | Ended(text: string) | Piped

  /** What the client receives. Header names are stored lower-cased, the way Node's
      `setHeader` keys them. */
  datatype Snapshot = Snapshot(status: int, headers: map<string, string>, body: BodyState)

  /** A response as Node creates it. */
  const Fresh := Snapshot(200, map[], Open)

  const AllowOrigin := "access-control-allow-origin"
  const AllowMethods := "access-control-allow-methods"
  const AllowHeaders := "access-control-allow-headers"
  const ContentType := "content-type"
  const Csp := "content-security-policy"

  const ProxyPrefix := "/proxy/"
  const MethodNotAllowed := "Method Not Allowed"
  const UsageText := "Use path: /proxy/https://huggingface.co/..."
  const SchemeText := "Proxy target must start with http(s)://"
  const PlainText := "text/plain; charset=utf-8"
  const ProxyErrorPrefix := "Proxy error: "

  /** The request headers passed upstream, in the order the handler visits them. */
  const ForwardList := ["range", "if-range", "if-none-match", "if-modified-since", "accept",
                        "accept-encoding", "accept-language", "user-agent", "referer", "origin",
                        "content-type"]

  /** `setCors`: the three CORS headers, set over whatever was there. */
  function WithCors(h: map<string, string>): (r: map<string, string>)
    ensures r.Keys == h.Keys + {AllowOrigin, AllowMethods, AllowHeaders}
    ensures r[AllowOrigin] == "*" && r[AllowMethods] == "GET,HEAD,OPTIONS" && r[AllowHeaders] == "*"
    ensures forall k :: k in h && k !in {AllowOrigin, AllowMethods, AllowHeaders} ==> r[k] == h[k]
  {
    h[AllowOrigin := "*"][AllowMethods := "GET,HEAD,OPTIONS"][AllowHeaders := "*"]
  }

  /** `sendError`: CORS, the status, a plain-text content type and the message on a line. */
  function ErrorReply(s: Snapshot, code: int, message: string): Snapshot {
    Snapshot(code, WithCors(s.headers)[ContentType := PlainText], Ended(message + "\n"))
  }

  /** What the handler decides before anything goes upstream. */
  datatype Route = Preflight | Refuse(code: int, message: string) | Forward(target: string)

  function RouteOf(req: Request): Route {
    if req.verb == "OPTIONS" then Preflight
    else if req.verb != "GET" && req.verb != "HEAD" then Refuse(405, MethodNotAllowed)
    else if !StartsWith(req.url, ProxyPrefix) then Refuse(404, UsageText)
    else if !HasHttpScheme(req.url[|ProxyPrefix|..]) then Refuse(400, SchemeText)
    else Forward(req.url[|ProxyPrefix|..])
  }

  /** The allow-listed headers present in the request, with their values. */
  function Forwarded(h: map<string, string>, names: seq<string>): map<string, string> {
    map n | n in h.Keys && n in names :: h[n]
  }

  /** The headers after copying the upstream ones in order: each name is keyed
      lower-cased, a later value replaces an earlier one, and the content security
      policy is skipped. */
  function Copied(h: map<string, string>, upstream: seq<(string, string)>): map<string, string>
    decreases |upstream|
  {
    if upstream == [] then h
    else
      var before := Copied(h, upstream[..|upstream| - 1]);
      var (k, v) := upstream[|upstream| - 1];
      if Lower(k) == Csp then before else before[Lower(k) := v]
  }

  /** The client's response and the upstream call made, if any. */
  datatype Handled = Handled(reply: Snapshot, call: Option<UpstreamCall>)

  /** The whole handler, from the response state it starts with. */
  function Respond(req: Request, upstream: UpstreamCall -> Upstream, s: Snapshot): Handled {
    match RouteOf(req)
    case Preflight => Handled(Snapshot(204, WithCors(s.headers), Ended("")), None)
    case Refuse(code, message) => Handled(ErrorReply(s, code, message), None)
    case Forward(target) =>
      var call := UpstreamCall(target, req.verb, Forwarded(req.headers, ForwardList));
      match upstream(call)
      case Unreachable(message) => Handled(ErrorReply(s, 502, ProxyErrorPrefix + message), Some(call))
      case Reply(status, headers, hasBody) =>
        var body := if req.verb == "HEAD" || !hasBody then Ended("") else Piped;
        Handled(Snapshot(status, WithCors(Copied(s.headers, headers)), body), Some(call))
  }

  // ---------------------------------------------------------------------------
  // Properties of the handler
  // ---------------------------------------------------------------------------

  /** A preflight gets 204, the CORS headers and an empty body, whatever its path; nothing
      goes upstream. */
  lemma PreflightAnyPath(req: Request, upstream: UpstreamCall -> Upstream, s: Snapshot)
    requires req.verb == "OPTIONS"
    ensures Respond(req, upstream, s) == Handled(Snapshot(204, WithCors(s.headers), Ended("")), None)
  {
  }

  /** Methods other than GET, HEAD and OPTIONS are refused with 405. */
  lemma OtherMethodsRefused(req: Request, upstream: UpstreamCall -> Upstream, s: Snapshot)
    requires req.verb !in {"GET", "HEAD", "OPTIONS"}
    ensures Respond(req, upstream, s) == Handled(ErrorReply(s, 405, MethodNotAllowed), None)
  {
  }

  /** A path outside `/proxy/` gets 404 with the usage text (not 400), and a target
      without an `http(s)://` scheme, in any case, gets 400. */
  lemma PathChecks(req: Request, upstream: UpstreamCall -> Upstream, s: Snapshot)
    requires req.verb == "GET" || req.verb == "HEAD"
    ensures !StartsWith(req.url, ProxyPrefix) ==>
      Respond(req, upstream, s) == Handled(ErrorReply(s, 404, UsageText), None)
    ensures StartsWith(req.url, ProxyPrefix) && !HasHttpScheme(req.url[|ProxyPrefix|..]) ==>
      Respond(req, upstream, s) == Handled(ErrorReply(s, 400, SchemeText), None)
  {
  }

  /** The upstream is consulted exactly for a GET or HEAD under `/proxy/` whose target has
      a scheme; it is asked with the same method for the rest of the URL, verbatim. */
  lemma UpstreamCalledIff(req: Request, upstream: UpstreamCall -> Upstream, s: Snapshot)
    ensures var h := Respond(req, upstream, s);
      h.call.Some? <==>
        (req.verb == "GET" || req.verb == "HEAD") && StartsWith(req.url, ProxyPrefix) &&
        HasHttpScheme(req.url[|ProxyPrefix|..])
    ensures var h := Respond(req, upstream, s);
      h.call.Some? ==>
        && h.call.value.url == req.url[|ProxyPrefix|..]
        && h.call.value.verb == req.verb
        && ProxyPrefix + h.call.value.url == req.url
  {
    if StartsWith(req.url, ProxyPrefix) {
      assert req.url == req.url[..|ProxyPrefix|] + req.url[|ProxyPrefix|..];
    }
  }

  /** Exactly the allow-listed headers present in the request go upstream, with their
      values unchanged. */
  lemma ForwardedExactly(req: Request, upstream: UpstreamCall -> Upstream, s: Snapshot)
    requires Respond(req, upstream, s).call.Some?
    ensures var sent := Respond(req, upstream, s).call.value.headers;
      && (forall n :: n in sent <==> n in req.headers && n in ForwardList)
      && (forall n :: n in sent ==> sent[n] == req.headers[n])
  {
  }

  /** Copying never introduces the content security policy. */
  lemma {:induction false} CspNeverCopied(h: map<string, string>, upstream: seq<(string, string)>)
    requires Csp !in h
    ensures Csp !in Copied(h, upstream)
    decreases |upstream|
  {
    if upstream != [] {
      CspNeverCopied(h, upstream[..|upstream| - 1]);
    }
  }

  /** For any other name, the value copied is the one of the last upstream header with
      that name in any case. */
  lemma {:induction false} LastValueWins(h: map<string, string>, upstream: seq<(string, string)>, k: string, i: nat)
    requires i < |upstream| && Lower(upstream[i].0) == k && k != Csp
    requires forall j :: i < j < |upstream| ==> Lower(upstream[j].0) != k
    ensures k in Copied(h, upstream) && Copied(h, upstream)[k] == upstream[i].1
    decreases |upstream|
  {
    if i < |upstream| - 1 {
      LastValueWins(h, upstream[..|upstream| - 1], k, i);
    }
  }

  /** A name no upstream header carries keeps its earlier state. */
  lemma {:induction false} UnnamedHeadersKept(h: map<string, string>, upstream: seq<(string, string)>, k: string)
    requires forall j :: 0 <= j < |upstream| ==> Lower(upstream[j].0) != k
    ensures k in Copied(h, upstream) <==> k in h
    ensures k in h ==> Copied(h, upstream)[k] == h[k]
    decreases |upstream|
  {
    if upstream != [] {
      UnnamedHeadersKept(h, upstream[..|upstream| - 1], k);
    }
  }

  /** A forwarded request that reaches upstream gets the upstream status, no content
      security policy, the CORS headers whatever upstream sent, and no body for HEAD or
      a missing upstream body. */
  lemma RelayedResponse(req: Request, upstream: UpstreamCall -> Upstream)
    requires Respond(req, upstream, Fresh).call.Some?
    requires upstream(Respond(req, upstream, Fresh).call.value).Reply?
    ensures var up := upstream(Respond(req, upstream, Fresh).call.value);
      var r := Respond(req, upstream, Fresh).reply;
      && r.status == up.status
      && Csp !in r.headers
      && r.headers[AllowOrigin] == "*" && r.headers[AllowMethods] == "GET,HEAD,OPTIONS" && r.headers[AllowHeaders] == "*"
      && (r.body == Piped <==> req.verb == "GET" && up.hasBody)
      && (r.body != Piped ==> r.body == Ended(""))
  {
    var up := upstream(Respond(req, upstream, Fresh).call.value);
    CspNeverCopied(map[], up.headers);
  }

  /** An upstream that cannot be reached gives 502 with the error's message. */
  lemma UnreachableGives502(req: Request, upstream: UpstreamCall -> Upstream, s: Snapshot)
    requires Respond(req, upstream, s).call.Some?
    requires upstream(Respond(req, upstream, s).call.value).Unreachable?
    ensures var r := Respond(req, upstream, s).reply;
      && r.status == 502
      && r.body == Ended(ProxyErrorPrefix + upstream(Respond(req, upstream, s).call.value).message + "\n")
      && r.headers[ContentType] == PlainText && r.headers[AllowOrigin] == "*"
  {
  }

  // ---------------------------------------------------------------------------
  // The handler, step by step
  // ---------------------------------------------------------------------------

  /** Node's `ServerResponse`, as far as the handler uses it. */
  class ServerResponse {
    var statusCode: int
    var headers: map<string, string>
    var body: BodyState

    function State(): Snapshot
      reads this
    {
      Snapshot(statusCode, headers, body)
    }

    constructor()
      ensures State() == Fresh
    {
      statusCode := 200;
      headers := map[];
      body := Open;
    }

    /** `res.setHeader`: names are case-insensitive, the last value set wins. */
    method SetHeader(name: string, value: string)
      modifies this
      ensures headers == old(headers)[Lower(name) := value]
      ensures statusCode == old(statusCode) && body == old(body)
    {
      headers := headers[Lower(name) := value];
    }

    method SetCors()
      modifies this
      ensures State() == old(State()).(headers := WithCors(old(headers)))
    {
      headers := WithCors(headers);
    }

    method End(text: string)
      modifies this
      ensures State() == old(State()).(body := Ended(text))
    {
      body := Ended(text);
    }

    method SendError(code: int, message: string)
      modifies this
      ensures State() == ErrorReply(old(State()), code, message)
    {
      SetCors();
      statusCode := code;
      headers := headers[ContentType := PlainText];
      End(message + "\n");
    }

    /** The loop over the upstream headers. */
    method CopyHeaders(upstream: seq<(string, string)>)
      modifies this
      ensures State() == old(State()).(headers := Copied(old(headers), upstream))
    {
      ghost var h0 := headers;
      var i := 0;
      while i < |upstream|
        invariant 0 <= i <= |upstream|
        invariant statusCode == old(statusCode) && body == old(body)
        invariant headers == Copied(h0, upstream[..i])
      {
        var (k, v) := upstream[i];
        assert upstream[..i + 1][..i] == upstream[..i];
        if Lower(k) != Csp {
          SetHeader(k, v);
        }
        i := i + 1;
      }
      assert upstream[..i] == upstream;
    }
  }

  /** The loop filling `fwdHeaders`. */
  method CollectForwarded(h: map<string, string>, names: seq<string>) returns (fwd: map<string, string>)
    ensures fwd == Forwarded(h, names)
  {
    fwd := map[];
    var i := 0;
    while i < |names|
      invariant 0 <= i <= |names|
      invariant fwd == Forwarded(h, names[..i])
    {
      var n := names[i];
      assert names[..i + 1] == names[..i] + [n];
      if n in h {
        fwd := fwd[n := h[n]];
      }
      i := i + 1;
    }
    assert names[..i] == names;
  }

  /** The request handler: it reports the upstream call it made, and leaves the response
      in the state `Respond` gives. */
  method Handle(req: Request, upstream: UpstreamCall -> Upstream, res: ServerResponse)
    returns (call: Option<UpstreamCall>)
    modifies res
    ensures Handled(res.State(), call) == Respond(req, upstream, old(res.State()))
  {
    if req.verb == "OPTIONS" {
      res.SetCors();
      res.statusCode := 204;
      res.End("");
      return None;
    }
    if req.verb != "GET" && req.verb != "HEAD" {
      res.SendError(405, MethodNotAllowed);
      return None;
    }
    if !StartsWith(req.url, ProxyPrefix) {
      res.SendError(404, UsageText);
      return None;
    }
    var target := req.url[|ProxyPrefix|..];
    if !HasHttpScheme(target) {
      res.SendError(400, SchemeText);
      return None;
    }
    var fwd := CollectForwarded(req.headers, ForwardList);
    call := Some(UpstreamCall(target, req.verb, fwd));
    match upstream(call.value)
    case Unreachable(message) =>
      res.SendError(502, ProxyErrorPrefix + message);
    case Reply(status, headers, hasBody) =>
      res.statusCode := status;
      res.CopyHeaders(headers);
      res.SetCors();
      if req.verb == "HEAD" || !hasBody {
        res.End("");
      } else {
        res.body := Piped;
      }
  }
}
