/**
 * The HTTP interceptor that attaches the bearer token to outgoing requests.
 * The token stream is given as its values, each an optional string; a
 * request is a value, so "cloning" it is building a new one and the
 * incoming request cannot be changed.
 */
module TokenInterceptor {
  import opened Wrappers

  const AuthorizationHeader: string := "Authorization"
  const BearerPrefix: string := "Bearer "

  /** An outgoing HTTP request: verb, URL, headers by name, and body. */
  datatype Request = Request(verb: string, url: string, headers: map<string, string>, body: string)

  /** The header value: the prefix, then exactly the token. */
  function BearerValue(token: string): (v: string)
    ensures |v| == |BearerPrefix| + |token|
    ensures v[..|BearerPrefix|] == BearerPrefix && v[|BearerPrefix|..] == token
  {
    BearerPrefix + token
  }

  /** `req.clone({ setHeaders: { name: value } })`. */
  function WithHeader(req: Request, name: string, value: string): (r: Request)
    ensures r.verb == req.verb && r.url == req.url && r.body == req.body
    ensures r.headers.Keys == req.headers.Keys + {name}
    ensures name in r.headers && r.headers[name] == value
    ensures forall h :: h in req.headers && h != name ==> r.headers[h] == req.headers[h]
  {
    req.(headers := req.headers[name := value])
  }

  /** The decorated request for a present token. */
  function Decorated(req: Request, token: string): (r: Request) {
    WithHeader(req, AuthorizationHeader, BearerValue(token))
  }

  /**
   * The `mergeMap` callback for one token value: with a token, the request
   * forwarded to the next handler; without one, nothing (the callback
   * returns `undefined`).
   */
  function Intercept(req: Request, token: Option<string>): (forwarded: Option<Request>)
    ensures forwarded.Some? <==> Truthy(token)
    ensures forwarded.Some? ==>
      && forwarded.value.verb == req.verb && forwarded.value.url == req.url
      && forwarded.value.body == req.body
      && forwarded.value.headers.Keys == req.headers.Keys + {AuthorizationHeader}
      && forwarded.value.headers[AuthorizationHeader] == BearerPrefix + token.value
      && (forall h :: h in req.headers && h != AuthorizationHeader ==>
            forwarded.value.headers[h] == req.headers[h])
  {
    if Truthy(token) then
      Some(Decorated(req, token.value))
    else
      None
  }

  /**
   * The values of the tokens the stream emits before its first falsy one:
   * the only ones that get a request, since a falsy token fails the stream.
   */
  function LeadingTokens(tokens: seq<Option<string>>): (lead: seq<string>)
    decreases |tokens|
  {
    if tokens == [] || !Truthy(tokens[0]) then []
    else [tokens[0].value] + LeadingTokens(tokens[1..])
  }

  /** What the intercepted stream does: the requests it hands on, and whether it fails. */
  datatype StreamOutcome = StreamOutcome(forwarded: seq<Request>, failed: bool)

  /**
   * The outcome while the token stream emits `tokens`. A truthy token hands
   * one decorated request to the next handler. A falsy token makes the
   * callback return `undefined`, which `mergeMap` in current rxjs rejects:
   * the stream fails there and later tokens are never seen.
   */
  function InterceptStream(req: Request, tokens: seq<Option<string>>): (out: StreamOutcome)
    ensures |out.forwarded| == |LeadingTokens(tokens)|
    ensures forall k :: 0 <= k < |out.forwarded| ==> out.forwarded[k] == Decorated(req, LeadingTokens(tokens)[k])
    ensures out.failed <==> exists k :: 0 <= k < |tokens| && !Truthy(tokens[k])
    decreases |tokens|
  {
    if tokens == [] then StreamOutcome([], false)
    else
      match Intercept(req, tokens[0])
      case None => StreamOutcome([], true)
      case Some(r) =>
        var rest := InterceptStream(req, tokens[1..]);
        assert forall k :: 0 <= k < |tokens| - 1 ==> tokens[1..][k] == tokens[k + 1];
        StreamOutcome([r] + rest.forwarded, rest.failed)
  }

  /**
   * The leading tokens are exactly the values of the stream's first truthy
   * tokens, and the stream either ends or turns falsy right after them.
   */
  lemma {:induction false} LeadingTokensAt(tokens: seq<Option<string>>)
    ensures |LeadingTokens(tokens)| <= |tokens|
    ensures forall i :: 0 <= i < |LeadingTokens(tokens)| ==>
      Truthy(tokens[i]) && LeadingTokens(tokens)[i] == tokens[i].value
    ensures |LeadingTokens(tokens)| < |tokens| ==> !Truthy(tokens[|LeadingTokens(tokens)|])
    decreases |tokens|
  {
    if tokens != [] && Truthy(tokens[0]) {
      LeadingTokensAt(tokens[1..]);
    }
  }

  /**
   * The k-th forwarded request carries `Authorization: Bearer <t>` for the
   * k-th token of the stream, and otherwise equals the incoming request.
   */
  lemma {:induction false} ForwardedCarryStreamTokens(req: Request, tokens: seq<Option<string>>)
    ensures forall k :: 0 <= k < |InterceptStream(req, tokens).forwarded| ==>
      var r := InterceptStream(req, tokens).forwarded[k];
      var v := r.headers[AuthorizationHeader];
      && k < |tokens| && Truthy(tokens[k])
      && v == BearerPrefix + tokens[k].value
      && v[..|BearerPrefix|] == BearerPrefix && v[|BearerPrefix|..] == tokens[k].value
      && r.(headers := req.headers) == req
  {
    LeadingTokensAt(tokens);
  }

  /** A stream of truthy tokens only: exactly one request per token, in order, and no failure. */
  lemma {:induction false} AllTokensPresent(req: Request, tokens: seq<Option<string>>)
    requires forall k :: 0 <= k < |tokens| ==> Truthy(tokens[k])
    ensures !InterceptStream(req, tokens).failed
    ensures |InterceptStream(req, tokens).forwarded| == |tokens|
    ensures forall k :: 0 <= k < |tokens| ==>
      InterceptStream(req, tokens).forwarded[k].headers[AuthorizationHeader] == BearerPrefix + tokens[k].value
  {
    LeadingTokensAt(tokens);
    ForwardedCarryStreamTokens(req, tokens);
  }

  /** A falsy token at position k fails the stream, and no request is forwarded from k on. */
  lemma {:induction false} FalsyTokenEndsStream(req: Request, tokens: seq<Option<string>>, k: nat)
    requires k < |tokens| && !Truthy(tokens[k])
    ensures InterceptStream(req, tokens).failed
    ensures |InterceptStream(req, tokens).forwarded| <= k
  {
    LeadingTokensAt(tokens);
  }
}
