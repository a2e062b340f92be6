/** The chatbot endpoint: gates (OPTIONS 204, 405, missing key 500), a
    30-requests-per-minute limiter, the JSON/form input normaliser, and a
    streaming relay of the upstream chat completion. */
module Chatbot {
  import opened Wrappers
  import opened Json
  import opened Http
  import opened RequestInput
  import RateLimit

  const MAX_REQUESTS: nat := 30
  const WINDOW_MS: int := 60 * 1000
  const PREFLIGHT_STATUS: nat := 204

  /** How the upstream call and the stream relay ended: `fetch` threw; the
      upstream answered with a non-2xx status and this body text; every chunk
      was forwarded; or reading or writing failed part-way, with or without
      the event-stream headers already sent. */
  datatype Relay = FetchThrew | NotOk(errorText: string) | Relayed | Broke(headersSent: bool)

  /** What follows the limiter for an admitted request. */
  function AfterAdmission(body: string, lib: Library, relay: Relay): (r: Response)
    ensures r != TooManyRequests
    ensures r == Crashed <==> ReadInput(body, lib).Threw?
    ensures ReadInput(body, lib).Missing? ==> r == Reply(400, MissingInputBody(body))
    ensures r.EventStream? <==> ReadInput(body, lib).Text? && relay.Relayed?
    ensures r.Abandoned? <==> ReadInput(body, lib).Text? && relay == Broke(true)
    ensures ReadInput(body, lib).Text? && relay.NotOk? ==> r == Reply(500, Error(relay.errorText))
    ensures ReadInput(body, lib).Text? && (relay.FetchThrew? || relay == Broke(false)) ==>
      r == Reply(500, Error("Internal server error"))
  {
    match ReadInput(body, lib)
    case Threw => Crashed
    case Missing => Reply(400, MissingInputBody(body))
    case Text(_) =>
      match relay
      case FetchThrew => Reply(500, Error("Internal server error"))
      case NotOk(text) => Reply(500, Error(text))
      case Relayed => EventStream
      case Broke(headersSent) => if headersSent then Abandoned else Reply(500, Error("Internal server error"))
  }

  /** The whole handler as a function of the limiter's dictionary before the
      request. */
  function Serve(buckets: map<string, seq<int>>, req: Request, now: int, hasKey: bool,
                 body: string, lib: Library, relay: Relay): (o: Outcome)
    ensures req.verb != "POST" || !hasKey ==> o.buckets == buckets
    ensures o.response == TooManyRequests <==>
      req.verb == "POST" && hasKey
      && |RateLimit.Retained(RateLimit.Bucket(buckets, ClientId(req.forwardedFor, req.remoteAddress)), now, WINDOW_MS)| >= MAX_REQUESTS
    ensures (forall ip :: ip in buckets ==> |buckets[ip]| <= MAX_REQUESTS) ==>
      forall ip :: ip in o.buckets ==> |o.buckets[ip]| <= MAX_REQUESTS
  {
    GatedKeepsBound(buckets, req, now, hasKey, PREFLIGHT_STATUS, true, MAX_REQUESTS, WINDOW_MS, AfterAdmission(body, lib, relay));
    Gated(buckets, req, now, hasKey, PREFLIGHT_STATUS, true, MAX_REQUESTS, WINDOW_MS, AfterAdmission(body, lib, relay))
  }

  /** `const RATE_LIMIT = {}` with this endpoint's constants. */
  method NewRateLimit() returns (limiter: RateLimit.SlidingWindow)
    ensures fresh(limiter) && limiter.Valid() && limiter.buckets == map[]
    ensures limiter.limit == MAX_REQUESTS && limiter.windowMs == WINDOW_MS
  {
    limiter := new RateLimit.SlidingWindow(MAX_REQUESTS, WINDOW_MS);
  }

  /** The handler: it consults and updates the module's limiter in place and
      behaves as `Serve` says. */
  method Handle(limiter: RateLimit.SlidingWindow, req: Request, now: int, hasKey: bool,
                body: string, lib: Library, relay: Relay) returns (response: Response)
    requires limiter.Valid() && limiter.limit == MAX_REQUESTS && limiter.windowMs == WINDOW_MS
    modifies limiter
    ensures limiter.Valid()
    ensures Outcome(response, limiter.buckets) == Serve(old(limiter.buckets), req, now, hasKey, body, lib, relay)
  {
    if req.verb == "OPTIONS" {
      return Empty(PREFLIGHT_STATUS);
    }
    if req.verb != "POST" {
      return Reply(405, Error("Method not allowed"));
    }
    if !hasKey {
      return Reply(500, Error("OPENAI_API_KEY not set"));
    }
    var ip := ClientId(req.forwardedFor, req.remoteAddress);
    var admitted := limiter.Check(ip, now);
    if !admitted {
      return TooManyRequests;
    }
    response := Proceed(body, lib, relay);
  }

  /** The part of the handler after the limiter: the input check and the
      relay's outcome. */
  method Proceed(body: string, lib: Library, relay: Relay) returns (response: Response)
    ensures response == AfterAdmission(body, lib, relay)
  {
    var input := ReadInput(body, lib);
    if input.Threw? {
      return Crashed;
    }
    if input.Missing? {
      return Reply(400, MissingInputBody(body));
    }
    match relay
    case FetchThrew => response := Reply(500, Error("Internal server error"));
    case NotOk(text) => response := Reply(500, Error(text));
    case Relayed => response := EventStream;
    case Broke(headersSent) =>
      if headersSent {
        response := Abandoned;
      } else {
        response := Reply(500, Error("Internal server error"));
      }
  }

  /** A 400 "Missing input" is only ever given to an admitted request, which
      has already been recorded: the client's bucket is its retained
      timestamps followed by `now`. */
  lemma MissingInputUsesSlot(buckets: map<string, seq<int>>, req: Request, now: int, hasKey: bool,
                             body: string, lib: Library, relay: Relay)
    requires ReadInput(body, lib) == Missing
    requires req.verb == "POST" && hasKey
    ensures var o := Serve(buckets, req, now, hasKey, body, lib, relay);
      var ip := ClientId(req.forwardedFor, req.remoteAddress);
      var kept := RateLimit.Retained(RateLimit.Bucket(buckets, ip), now, WINDOW_MS);
      (o.response == Reply(400, MissingInputBody(body)) <==> |kept| < MAX_REQUESTS)
      && (o.response.Reply? && o.response.status == 400 ==> o.buckets[ip] == kept + [now])
  {
    var admittedResponse := AfterAdmission(body, lib, relay);
    assert admittedResponse == Reply(400, MissingInputBody(body));
    LimiterDecides(buckets, req, now, hasKey, PREFLIGHT_STATUS, true, MAX_REQUESTS, WINDOW_MS, admittedResponse);
  }

  /** Only a request that passed the gates, the limiter and the input check
      is relayed: after an event stream, complete or abandoned, the caller's
      bucket ends with `now`. */
  lemma RelayOnlyAfterAdmission(buckets: map<string, seq<int>>, req: Request, now: int, hasKey: bool,
                                body: string, lib: Library, relay: Relay)
    ensures var o := Serve(buckets, req, now, hasKey, body, lib, relay);
      var ip := ClientId(req.forwardedFor, req.remoteAddress);
      o.response.EventStream? || o.response.Abandoned? ==>
        req.verb == "POST" && hasKey && ReadInput(body, lib).Text?
        && o.buckets[ip] == RateLimit.Retained(RateLimit.Bucket(buckets, ip), now, WINDOW_MS) + [now]
  {
    var o := Serve(buckets, req, now, hasKey, body, lib, relay);
    if o.response.EventStream? || o.response.Abandoned? {
      assert Screen(PREFLIGHT_STATUS, true, req.verb, hasKey) == ToLimiter;
      LimiterDecides(buckets, req, now, hasKey, PREFLIGHT_STATUS, true, MAX_REQUESTS, WINDOW_MS, AfterAdmission(body, lib, relay));
    }
  }
}
