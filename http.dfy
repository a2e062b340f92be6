/** What the four handlers share around their own logic: the request features
    they read, the responses they produce, the upstream result they react to,
    the client id they rate-limit by, the method and key gates that run before
    the limiter, and `(value || "").trim()` followed by the empty check. */
module Http {
  import opened Wrappers
  import opened Json
  import opened JsText
  import RateLimit

  /** The parts of an incoming request that decide the outcome before the
      body is read: `req.method` (here `verb`), `req.headers["x-forwarded-for"]` and
      `req.socket.remoteAddress` (`None` when absent). */
  datatype Request = Request(verb: string, forwardedFor: Option<string>, remoteAddress: Option<string>)

  /** What a handler does with its response object.
      - `Reply`: `res.status(status).json(body)`;
      - `Empty`: `res.status(status).end()`;
      - `EventStream`: the upstream stream was relayed to its end;
      - `Abandoned`: the relay failed after the headers were sent, so the
        handler returns without writing an error body;
      - `Crashed`: an exception escaped the handler. */
  datatype Response =
    | Reply(status: nat, body: Json)
    | Empty(status: nat)
    | EventStream
    | Abandoned
    | Crashed

  /** `{ error: message }` */
  function Error(message: string): (j: Json)
    ensures j.JObj? && j.fields.Keys == {"error"} && j.fields["error"] == JStr(message)
  {
    Single("error", JStr(message))
  }

  const TooManyRequests: Response := Reply(429, Error("Too many requests"))

  /** The result of the upstream `fetch` in the buffered handlers: it threw
      (network failure, abort on timeout), or it answered with its `ok` flag
      and the body as `JSON.parse` reads it (`None` when the text is not
      JSON). */
  datatype Upstream = Unreachable | Answered(ok: bool, parsed: Option<Json>)

  /** A handler's response together with its `RATE_LIMIT` dictionary after
      the request. */
  datatype Outcome = Outcome(response: Response, buckets: map<string, seq<int>>)

  /** The forwarded-for header is used when its first comma-separated piece
      is not empty, that is, when it does not start with a comma. */
  predicate UsableForwardedFor(forwardedFor: Option<string>) {
    forwardedFor.Some? && forwardedFor.value != [] && forwardedFor.value[0] != ','
  }

  /** `x-forwarded-for?.split(",")[0] || remoteAddress || "unknown"`: the
      first piece of the forwarded-for header, untrimmed; else the socket
      address; else the shared "unknown" bucket. */
  function ClientId(forwardedFor: Option<string>, remoteAddress: Option<string>): (id: string)
    ensures id != []
    ensures UsableForwardedFor(forwardedFor) ==>
      var h := forwardedFor.value;
      id <= h && ',' !in id && (|id| < |h| ==> h[|id|] == ',')
    ensures !UsableForwardedFor(forwardedFor) && remoteAddress.Some? && remoteAddress.value != [] ==>
      id == remoteAddress.value
    ensures !UsableForwardedFor(forwardedFor) && (remoteAddress.None? || remoteAddress.value == []) ==>
      id == "unknown"
  {
    var first := if forwardedFor.Some? then Until(forwardedFor.value, ',') else [];
    if first != [] then first
    else if remoteAddress.Some? && remoteAddress.value != [] then remoteAddress.value
    else "unknown"
  }

  /** Where the method and key gates send a request: to an immediate answer,
      or on to the rate limiter. */
  datatype Gate = Respond(response: Response) | ToLimiter

  /** The gates in front of the limiter: OPTIONS is answered with
      `preflightStatus` and no body, any other non-POST method with 405, and,
      in the handlers that check it (`keyGate`), a POST without an API key
      with 500. */
  function Screen(preflightStatus: nat, keyGate: bool, verb: string, hasKey: bool): (g: Gate)
    ensures g.ToLimiter? <==> verb == "POST" && (keyGate ==> hasKey)
    ensures verb == "OPTIONS" ==> g == Respond(Empty(preflightStatus))
    ensures verb != "OPTIONS" && verb != "POST" ==>
      g == Respond(Reply(405, Error("Method not allowed")))
    ensures verb == "POST" && keyGate && !hasKey ==>
      g == Respond(Reply(500, Error("OPENAI_API_KEY not set")))
  {
    if verb == "OPTIONS" then Respond(Empty(preflightStatus))
    else if verb != "POST" then Respond(Reply(405, Error("Method not allowed")))
    else if keyGate && !hasKey then Respond(Reply(500, Error("OPENAI_API_KEY not set")))
    else ToLimiter
  }

  /** A handler's control flow up to its own logic: the gates, then one check
      of the caller's bucket against `limit` requests per `windowMs`, and
      only for an admitted request the response `admitted` that the rest of
      the handler computes. */
  function Gated(buckets: map<string, seq<int>>, req: Request, now: int, hasKey: bool,
                 preflightStatus: nat, keyGate: bool, limit: nat, windowMs: int,
                 admitted: Response): (o: Outcome)
    ensures Screen(preflightStatus, keyGate, req.verb, hasKey).Respond? ==> o.buckets == buckets
    ensures Screen(preflightStatus, keyGate, req.verb, hasKey).ToLimiter? ==>
      ClientId(req.forwardedFor, req.remoteAddress) in o.buckets
      && (o.response == admitted || o.response == TooManyRequests)
    ensures forall other :: other in buckets && other != ClientId(req.forwardedFor, req.remoteAddress) ==>
      other in o.buckets && o.buckets[other] == buckets[other]
  {
    match Screen(preflightStatus, keyGate, req.verb, hasKey)
    case Respond(r) => Outcome(r, buckets)
    case ToLimiter =>
      var v := RateLimit.Decide(buckets, ClientId(req.forwardedFor, req.remoteAddress), now, limit, windowMs);
      Outcome(if v.admitted then admitted else TooManyRequests, v.buckets)
  }

  /** A request answered by a gate leaves the limiter as it was, whichever
      client sent it and whatever its history. */
  lemma GatesSkipLimiter(buckets: map<string, seq<int>>, req: Request, now: int, hasKey: bool,
                         preflightStatus: nat, keyGate: bool, limit: nat, windowMs: int, admitted: Response)
    requires req.verb != "POST" || (keyGate && !hasKey)
    ensures var o := Gated(buckets, req, now, hasKey, preflightStatus, keyGate, limit, windowMs, admitted);
      o.buckets == buckets
      && (req.verb == "OPTIONS" ==> o.response == Empty(preflightStatus))
      && (req.verb != "OPTIONS" && req.verb != "POST" ==> o.response == Reply(405, Error("Method not allowed")))
      && (req.verb == "POST" ==> o.response == Reply(500, Error("OPENAI_API_KEY not set")))
  {
    assert Screen(preflightStatus, keyGate, req.verb, hasKey).Respond?;
  }

  /** A request that gets past the gates is answered 429 exactly when its
      client already holds `limit` timestamps inside the window, and it is
      recorded exactly when it is not answered 429: every response the rest
      of the handler gives, a 400 for missing input included, has used up a
      slot. Other clients' buckets are untouched either way. */
  lemma LimiterDecides(buckets: map<string, seq<int>>, req: Request, now: int, hasKey: bool,
                       preflightStatus: nat, keyGate: bool, limit: nat, windowMs: int, admitted: Response)
    requires req.verb == "POST" && (keyGate ==> hasKey)
    requires admitted != TooManyRequests
    ensures var o := Gated(buckets, req, now, hasKey, preflightStatus, keyGate, limit, windowMs, admitted);
      var ip := ClientId(req.forwardedFor, req.remoteAddress);
      var kept := RateLimit.Retained(RateLimit.Bucket(buckets, ip), now, windowMs);
      && (o.response == TooManyRequests <==> |kept| >= limit)
      && (o.response == admitted <==> |kept| < limit)
      && (o.response == admitted ==> o.buckets[ip] == kept + [now])
      && (o.response == TooManyRequests ==> o.buckets[ip] == kept)
      && (forall other :: other in buckets && other != ip ==> other in o.buckets && o.buckets[other] == buckets[other])
  {
    assert Screen(preflightStatus, keyGate, req.verb, hasKey) == ToLimiter;
  }

  /** A handler never lets a client's bucket grow past `limit`. */
  lemma GatedKeepsBound(buckets: map<string, seq<int>>, req: Request, now: int, hasKey: bool,
                        preflightStatus: nat, keyGate: bool, limit: nat, windowMs: int, admitted: Response)
    ensures (forall ip :: ip in buckets ==> |buckets[ip]| <= limit) ==>
      var o := Gated(buckets, req, now, hasKey, preflightStatus, keyGate, limit, windowMs, admitted);
      forall ip :: ip in o.buckets ==> |o.buckets[ip]| <= limit
  {
    if (forall ip :: ip in buckets ==> |buckets[ip]| <= limit) && Screen(preflightStatus, keyGate, req.verb, hasKey) == ToLimiter {
      var ip := ClientId(req.forwardedFor, req.remoteAddress);
      assert |RateLimit.Bucket(buckets, ip)| <= limit;
    }
  }

  /** The result of `(value || "").trim()` and the `!input` check: the
      trimmed text, the 400 case, or a TypeError because a truthy value that
      is not a string has no `trim` method. */
  datatype Input = Text(text: string) | Missing | Threw

  function TrimmedInput(v: Value): (r: Input)
    ensures r.Threw? <==> Truthy(v) && !v.value.JStr?
    ensures r.Missing? <==> !Truthy(v) || (v.value.JStr? && AllSpace(v.value.s))
    ensures r.Text? ==> v.value.JStr? && r.text == Trim(v.value.s) && r.text != []
  {
    var w := if Truthy(v) then v.value else JStr("");
    if !w.JStr? then Threw
    else
      TrimEmptyIffAllSpace(w.s);
      var t := Trim(w.s);
      if t == [] then Missing else Text(t)
  }
}
