/** The image endpoint: gates (OPTIONS 204, 405, missing key 500), a
    10-requests-per-minute limiter, the JSON/form input normaliser shared
    with the chatbot, and a buffered upstream call whose answer is
    classified (not JSON, not ok) and from which `data[0].url` is taken. */
module ImageGenerator {
  import opened Wrappers
  import opened Json
  import opened Http
  import opened RequestInput
  import RateLimit

  const MAX_REQUESTS: nat := 10
  const WINDOW_MS: int := 60 * 1000
  const PREFLIGHT_STATUS: nat := 204

  /** `data?.data?.[0]?.url` */
  function ImageUrl(data: Json): (r: Value)
    ensures r.Some? ==> data.JObj? && "data" in data.fields
    ensures data.JObj? && "data" in data.fields && data.fields["data"].JArr? && |data.fields["data"].items| > 0 ==>
      var first := data.fields["data"].items[0];
      r == (if first.JObj? && "url" in first.fields then Some(first.fields["url"]) else None)
  {
    Chain(ChainFirst(Chain(Some(data), "data")), "url")
  }

  /** `{ error: "No image returned", raw: data }` */
  function NoImageBody(data: Json): (j: Json)
    ensures j.JObj? && j.fields.Keys == {"error", "raw"}
    ensures j.fields["error"] == JStr("No image returned") && j.fields["raw"] == data
  {
    JObj(map["error" := JStr("No image returned"), "raw" := data])
  }

  /** The reply built from the upstream result. A body that is not JSON is
      reported before the status is looked at; a parsed body with `!ok` is a
      failed generation; a 200 carries exactly the truthy `data[0].url`. */
  function Imagine(up: Upstream): (r: Response)
    ensures up.Unreachable? ==> r == Reply(500, Error("Server crash"))
    ensures up.Answered? && up.parsed.None? ==> r == Reply(500, Error("Invalid image response"))
    ensures r == Reply(500, Error("Image generation failed")) <==> up.Answered? && !up.ok && up.parsed.Some?
    ensures r.Reply? && r.status == 200 <==> up.Answered? && up.ok && up.parsed.Some? && Truthy(ImageUrl(up.parsed.value))
    ensures r.Reply? && r.status == 200 ==> r.body == Single("image", ImageUrl(up.parsed.value).value)
    ensures up.Answered? && up.ok && up.parsed.Some? && !Truthy(ImageUrl(up.parsed.value)) ==>
      r == Reply(500, NoImageBody(up.parsed.value))
  {
    match up
    case Unreachable => Reply(500, Error("Server crash"))
    case Answered(ok, parsed) =>
      if parsed.None? then Reply(500, Error("Invalid image response"))
      else if !ok then Reply(500, Error("Image generation failed"))
      else
        var image := Or(ImageUrl(parsed.value), Some(JNull));
        if !Truthy(image) then Reply(500, NoImageBody(parsed.value))
        else Reply(200, Single("image", image.value))
  }

  /** What follows the limiter for an admitted request. */
  function AfterAdmission(body: string, lib: Library, up: Upstream): (r: Response)
    ensures r != TooManyRequests
    ensures r == Crashed <==> ReadInput(body, lib).Threw?
    ensures ReadInput(body, lib).Missing? ==> r == Reply(400, MissingInputBody(body))
    ensures ReadInput(body, lib).Text? ==> r == Imagine(up)
    ensures r.Reply? && r.status == 200 <==> ReadInput(body, lib).Text? && Imagine(up).Reply? && Imagine(up).status == 200
  {
    match ReadInput(body, lib)
    case Threw => Crashed
    case Missing => Reply(400, MissingInputBody(body))
    case Text(_) => Imagine(up)
  }

  function Serve(buckets: map<string, seq<int>>, req: Request, now: int, hasKey: bool,
                 body: string, lib: Library, up: Upstream): (o: Outcome)
    ensures req.verb != "POST" || !hasKey ==> o.buckets == buckets
    ensures o.response == TooManyRequests <==>
      req.verb == "POST" && hasKey
      && |RateLimit.Retained(RateLimit.Bucket(buckets, ClientId(req.forwardedFor, req.remoteAddress)), now, WINDOW_MS)| >= MAX_REQUESTS
    ensures (forall ip :: ip in buckets ==> |buckets[ip]| <= MAX_REQUESTS) ==>
      forall ip :: ip in o.buckets ==> |o.buckets[ip]| <= MAX_REQUESTS
  {
    GatedKeepsBound(buckets, req, now, hasKey, PREFLIGHT_STATUS, true, MAX_REQUESTS, WINDOW_MS, AfterAdmission(body, lib, up));
    Gated(buckets, req, now, hasKey, PREFLIGHT_STATUS, true, MAX_REQUESTS, WINDOW_MS, AfterAdmission(body, lib, up))
  }

  /** `const RATE_LIMIT = {}` with this endpoint's constants. */
  method NewRateLimit() returns (limiter: RateLimit.SlidingWindow)
    ensures fresh(limiter) && limiter.Valid() && limiter.buckets == map[]
    ensures limiter.limit == MAX_REQUESTS && limiter.windowMs == WINDOW_MS
  {
    limiter := new RateLimit.SlidingWindow(MAX_REQUESTS, WINDOW_MS);
  }

  /** The handler: it consults and updates the module's limiter in place and
      behaves as `Serve` says. */
  method Handle(limiter: RateLimit.SlidingWindow, req: Request, now: int, hasKey: bool,
                body: string, lib: Library, up: Upstream) returns (response: Response)
    requires limiter.Valid() && limiter.limit == MAX_REQUESTS && limiter.windowMs == WINDOW_MS
    modifies limiter
    ensures limiter.Valid()
    ensures Outcome(response, limiter.buckets) == Serve(old(limiter.buckets), req, now, hasKey, body, lib, up)
  {
    if req.verb == "OPTIONS" {
      return Empty(PREFLIGHT_STATUS);
    }
    if req.verb != "POST" {
      return Reply(405, Error("Method not allowed"));
    }
    if !hasKey {
      return Reply(500, Error("OPENAI_API_KEY not set"));
    }
    var ip := ClientId(req.forwardedFor, req.remoteAddress);
    var admitted := limiter.Check(ip, now);
    if !admitted {
      return TooManyRequests;
    }
    response := Proceed(body, lib, up);
  }

  /** The part of the handler after the limiter: the input check, the
      upstream classification and the URL extraction. */
  method Proceed(body: string, lib: Library, up: Upstream) returns (response: Response)
    ensures response == AfterAdmission(body, lib, up)
  {
    var input := ReadInput(body, lib);
    if input.Threw? {
      return Crashed;
    }
    if input.Missing? {
      return Reply(400, MissingInputBody(body));
    }
    if up.Unreachable? {
      return Reply(500, Error("Server crash"));
    }
    if up.parsed.None? {
      return Reply(500, Error("Invalid image response"));
    }
    if !up.ok {
      return Reply(500, Error("Image generation failed"));
    }
    var data := up.parsed.value;
    var image := Or(ImageUrl(data), Some(JNull));
    if !Truthy(image) {
      return Reply(500, NoImageBody(data));
    }
    response := Reply(200, Single("image", image.value));
  }

  /** A 400 "Missing input" has already used up a slot of the limiter. */
  lemma MissingInputUsesSlot(buckets: map<string, seq<int>>, req: Request, now: int, hasKey: bool,
                             body: string, lib: Library, up: Upstream)
    requires ReadInput(body, lib) == Missing
    requires req.verb == "POST" && hasKey
    ensures var o := Serve(buckets, req, now, hasKey, body, lib, up);
      var ip := ClientId(req.forwardedFor, req.remoteAddress);
      var kept := RateLimit.Retained(RateLimit.Bucket(buckets, ip), now, WINDOW_MS);
      (o.response == Reply(400, MissingInputBody(body)) <==> |kept| < MAX_REQUESTS)
      && (o.response.Reply? && o.response.status == 400 ==> o.buckets[ip] == kept + [now])
  {
    LimiterDecides(buckets, req, now, hasKey, PREFLIGHT_STATUS, true, MAX_REQUESTS, WINDOW_MS, AfterAdmission(body, lib, up));
  }

  /** An image is returned exactly when the first entry of `data` is an
      object with a truthy `url`, and it is that `url`; the entries after the
      first are never looked at. */
  lemma OnlyFirstEntry(fields: map<string, Json>, first: Json, rest: seq<Json>, other: seq<Json>)
    requires "data" in fields && fields["data"] == JArr([first] + rest)
    ensures var r := Imagine(Answered(true, Some(JObj(fields))));
      var r' := Imagine(Answered(true, Some(JObj(fields["data" := JArr([first] + other)]))));
      && (r.Reply? && r.status == 200 <==> first.JObj? && "url" in first.fields && Truthy(Some(first.fields["url"])))
      && (r.Reply? && r.status == 200 ==> r.body == Single("image", first.fields["url"]))
      && (r.Reply? && r.status == 200 <==> r'.Reply? && r'.status == 200)
      && (r.Reply? && r.status == 200 ==> r == r')
  {
    var data' := JObj(fields["data" := JArr([first] + other)]);
    assert ([first] + rest)[0] == first;
    assert ([first] + other)[0] == first;
    assert ImageUrl(JObj(fields)) == ImageUrl(data');
  }
}
