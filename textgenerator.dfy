/** The text endpoint: gates (OPTIONS 200, 405; no key gate), a
    20-requests-per-minute limiter, a message list built from `messages`
    (role "ai" renamed) or from `input`, a system message put in front, and
    a buffered chat completion whose first choice's content is returned. */
module TextGenerator {
  import opened Wrappers
  import opened Json
  import opened JsText
  import opened Http
  import RateLimit

  const MAX_REQUESTS: nat := 20
  const WINDOW_MS: int := 60 * 1000
  const PREFLIGHT_STATUS: nat := 200

  const SYSTEM_PROMPT: string :=
    "You are a helpful AI assistant. This is a continuous conversation. "
    + "You must remember and use information the user provides earlier."

  /** One entry of the list sent upstream. The role is whatever the client
      sent (possibly absent), with "ai" renamed. */
  datatype Message = Message(role: Value, content: string)

  const SystemMessage: Message := Message(Some(JStr("system")), SYSTEM_PROMPT)

  /** `String(v)` for a truthy JSON value. Arrays and objects are converted
      by `composite`, which stands for JavaScript's own conversion. */
  function ToText(v: Json, composite: Json -> string): (s: string)
    ensures v.JStr? ==> s == v.s
  {
    match v
    case JStr(s) => s
    case JNum(t) => t
    case JBool(b) => if b then "true" else "false"
    case JNull => "null"
    case _ => composite(v)
  }

  /** `{ role: m.role === "ai" ? "assistant" : m.role, content: String(m.content || "") }` */
  function Normalise(m: Json, composite: Json -> string): (r: Message)
    requires m != JNull
    ensures Get(m, "role") == Some(JStr("ai")) ==> r.role == Some(JStr("assistant"))
    ensures Get(m, "role") != Some(JStr("ai")) ==> r.role == Get(m, "role")
    ensures !Truthy(Get(m, "content")) ==> r.content == ""
    ensures Truthy(Get(m, "content")) && Get(m, "content").value.JStr? ==> r.content == Get(m, "content").value.s
  {
    var role := Get(m, "role");
    var content := Or(Get(m, "content"), Some(JStr("")));
    Message(if role == Some(JStr("ai")) then Some(JStr("assistant")) else role, ToText(content.value, composite))
  }

  /** `messages.map(...)`: `None` when an entry is `null`, whose `.role`
      throws outside any `try`. Length and order are kept, and nothing is
      filtered out. */
  function MapMessages(ms: seq<Json>, composite: Json -> string): (r: Option<seq<Message>>)
    ensures r.Some? <==> forall i :: 0 <= i < |ms| ==> ms[i] != JNull
    ensures r.Some? ==> |r.value| == |ms| && forall i :: 0 <= i < |ms| ==> r.value[i] == Normalise(ms[i], composite)
  {
    if ms == [] then Some([])
    else if ms[0] == JNull then None
    else
      match MapMessages(ms[1..], composite)
      case None => None
      case Some(rest) => Some([Normalise(ms[0], composite)] + rest)
  }

  /** The list sent upstream, the 400 case, or the exception thrown while
      building it. */
  datatype Prepared = Send(messages: seq<Message>) | Rejected | Crash

  /** Lines 42-66: an array `messages` is mapped and `input` is then ignored;
      otherwise a string `input` becomes one trimmed user message; an empty
      list is rejected; the system message is put in front. */
  function Prepare(body: Value, composite: Json -> string): (p: Prepared)
    ensures p.Send? ==> |p.messages| >= 2 && p.messages[0] == SystemMessage
    ensures p.Crash? <==> IsArray(Chain(body, "messages")) && MapMessages(Chain(body, "messages").value.items, composite).None?
    ensures p.Rejected? <==>
      (IsArray(Chain(body, "messages")) && Chain(body, "messages").value.items == [])
      || (!IsArray(Chain(body, "messages")) && !(Chain(body, "input").Some? && Chain(body, "input").value.JStr?))
  {
    var list := Chain(body, "messages");
    var input := Chain(body, "input");
    var mapped :=
      if IsArray(list) then MapMessages(list.value.items, composite)
      else if input.Some? && input.value.JStr? then Some([Message(Some(JStr("user")), Trim(input.value.s))])
      else Some([]);
    match mapped
    case None => Crash
    case Some(ms) => if |ms| == 0 then Rejected else Send([SystemMessage] + ms)
  }

  /** `data.choices?.[0]?.message?.content` */
  function Content(data: Json): (r: Value)
    requires data != JNull
    ensures !data.JObj? ==> r.None?
    ensures var choices := Get(data, "choices");
      IsArray(choices) && |choices.value.items| > 0 && choices.value.items[0].JObj?
      && "message" in choices.value.items[0].fields ==>
        var message := choices.value.items[0].fields["message"];
        r == (if message.JObj? && "content" in message.fields then Some(message.fields["content"]) else None)
  {
    Chain(Chain(ChainFirst(Get(data, "choices")), "message"), "content")
  }

  /** The reply built from the upstream result. `openaiResponse.json()` on a
      body that is not JSON throws before `ok` is looked at; a parsed body
      with `!ok` is a failed request; a 200 carries the truthy content of the
      first choice. */
  function Complete(up: Upstream): (r: Response)
    ensures up.Unreachable? ==> r == Reply(500, Error("Server crash"))
    ensures up.Answered? && up.parsed.None? ==> r == Reply(500, Error("Server crash"))
    ensures up.Answered? && up.ok && up.parsed == Some(JNull) ==> r == Reply(500, Error("Server crash"))
    ensures r == Reply(500, Error("OpenAI request failed")) <==> up.Answered? && !up.ok && up.parsed.Some?
    ensures r.Reply? && r.status == 200 <==>
      up.Answered? && up.ok && up.parsed.Some? && up.parsed.value != JNull && Truthy(Content(up.parsed.value))
    ensures r.Reply? && r.status == 200 ==> r.body == Single("output", Content(up.parsed.value).value)
    ensures r == Reply(500, Error("No output returned")) <==>
      up.Answered? && up.ok && up.parsed.Some? && up.parsed.value != JNull && !Truthy(Content(up.parsed.value))
  {
    match up
    case Unreachable => Reply(500, Error("Server crash"))
    case Answered(ok, parsed) =>
      if parsed.None? then Reply(500, Error("Server crash"))
      else if !ok then Reply(500, Error("OpenAI request failed"))
      else if parsed.value == JNull then Reply(500, Error("Server crash"))
      else
        var output := Content(parsed.value);
        if !Truthy(output) then Reply(500, Error("No output returned"))
        else Reply(200, Single("output", output.value))
  }

  /** What follows the limiter for an admitted request. */
  function AfterAdmission(body: Value, composite: Json -> string, up: Upstream): (r: Response)
    ensures r != TooManyRequests
    ensures r == Crashed <==> Prepare(body, composite).Crash?
    ensures Prepare(body, composite).Rejected? ==> r == Reply(400, Error("Missing input"))
    ensures Prepare(body, composite).Send? ==> r == Complete(up)
    ensures r.Reply? && r.status == 200 <==> Prepare(body, composite).Send? && Complete(up).Reply? && Complete(up).status == 200
  {
    match Prepare(body, composite)
    case Crash => Crashed
    case Rejected => Reply(400, Error("Missing input"))
    case Send(_) => Complete(up)
  }

  function Serve(buckets: map<string, seq<int>>, req: Request, now: int, body: Value,
                 composite: Json -> string, up: Upstream): (o: Outcome)
    ensures req.verb != "POST" ==> o.buckets == buckets
    ensures o.response == TooManyRequests <==>
      req.verb == "POST"
      && |RateLimit.Retained(RateLimit.Bucket(buckets, ClientId(req.forwardedFor, req.remoteAddress)), now, WINDOW_MS)| >= MAX_REQUESTS
    ensures (forall ip :: ip in buckets ==> |buckets[ip]| <= MAX_REQUESTS) ==>
      forall ip :: ip in o.buckets ==> |o.buckets[ip]| <= MAX_REQUESTS
  {
    GatedKeepsBound(buckets, req, now, true, PREFLIGHT_STATUS, false, MAX_REQUESTS, WINDOW_MS, AfterAdmission(body, composite, up));
    Gated(buckets, req, now, true, PREFLIGHT_STATUS, false, MAX_REQUESTS, WINDOW_MS, AfterAdmission(body, composite, up))
  }

  /** `const RATE_LIMIT = {}` with this endpoint's constants. */
  method NewRateLimit() returns (limiter: RateLimit.SlidingWindow)
    ensures fresh(limiter) && limiter.Valid() && limiter.buckets == map[]
    ensures limiter.limit == MAX_REQUESTS && limiter.windowMs == WINDOW_MS
  {
    limiter := new RateLimit.SlidingWindow(MAX_REQUESTS, WINDOW_MS);
  }

  /** The handler: it consults and updates the module's limiter in place,
      behaves as `Serve` says, and reports the message list it sends
      upstream (`None` when it makes no call). */
  method Handle(limiter: RateLimit.SlidingWindow, req: Request, now: int, body: Value,
                composite: Json -> string, up: Upstream) returns (response: Response, sent: Option<seq<Message>>)
    requires limiter.Valid() && limiter.limit == MAX_REQUESTS && limiter.windowMs == WINDOW_MS
    modifies limiter
    ensures limiter.Valid()
    ensures Outcome(response, limiter.buckets) == Serve(old(limiter.buckets), req, now, body, composite, up)
    ensures sent.Some? <==>
      req.verb == "POST" && Prepare(body, composite).Send?
      && |RateLimit.Retained(RateLimit.Bucket(old(limiter.buckets), ClientId(req.forwardedFor, req.remoteAddress)), now, WINDOW_MS)| < MAX_REQUESTS
    ensures sent.Some? ==> Prepare(body, composite) == Send(sent.value)
  {
    sent := None;
    if req.verb == "OPTIONS" {
      return Empty(PREFLIGHT_STATUS), None;
    }
    if req.verb != "POST" {
      return Reply(405, Error("Method not allowed")), None;
    }
    var ip := ClientId(req.forwardedFor, req.remoteAddress);
    var admitted := limiter.Check(ip, now);
    if !admitted {
      return TooManyRequests, None;
    }
    var messages: seq<Message> := [];
    var list := Chain(body, "messages");
    var input := Chain(body, "input");
    if IsArray(list) {
      var mapped := MapMessages(list.value.items, composite);
      if mapped.None? {
        return Crashed, None;
      }
      messages := mapped.value;
    } else if input.Some? && input.value.JStr? {
      messages := [Message(Some(JStr("user")), Trim(input.value.s))];
    }
    if |messages| == 0 {
      return Reply(400, Error("Missing input")), None;
    }
    messages := [SystemMessage] + messages;
    sent := Some(messages);
    response := Complete(up);
  }

  /** An array `messages` without `null` entries is sent with its length
      and order kept, behind the system message: role "ai" becomes
      "assistant", every other role is passed on unchanged, and falsy
      content becomes "". An empty array is rejected even when `input` is a
      usable string. */
  lemma MessagesArrayKept(body: map<string, Json>, items: seq<Json>, composite: Json -> string)
    requires "messages" in body && body["messages"] == JArr(items)
    requires forall i :: 0 <= i < |items| ==> items[i] != JNull
    ensures items == [] ==> Prepare(Some(JObj(body)), composite) == Rejected
    ensures items != [] ==>
      var p := Prepare(Some(JObj(body)), composite);
      && p.Send? && |p.messages| == |items| + 1 && p.messages[0] == SystemMessage
      && (forall i :: 0 <= i < |items| ==> p.messages[i + 1] == Normalise(items[i], composite))
      && (forall i :: 0 <= i < |items| ==>
            (Get(items[i], "role") == Some(JStr("ai")) ==> p.messages[i + 1].role == Some(JStr("assistant")))
            && (Get(items[i], "role") != Some(JStr("ai")) ==> p.messages[i + 1].role == Get(items[i], "role"))
            && (!Truthy(Get(items[i], "content")) ==> p.messages[i + 1].content == ""))
  {
    var mapped := MapMessages(items, composite);
    if items != [] {
      var p := Prepare(Some(JObj(body)), composite);
      assert p == Send([SystemMessage] + mapped.value);
      forall i | 0 <= i < |items|
        ensures p.messages[i + 1] == Normalise(items[i], composite)
      {
        assert p.messages[i + 1] == mapped.value[i];
      }
    }
  }

  /** A `null` entry in `messages` makes the handler throw. */
  lemma NullMessageThrows(body: map<string, Json>, items: seq<Json>, k: nat, composite: Json -> string)
    requires "messages" in body && body["messages"] == JArr(items)
    requires k < |items| && items[k] == JNull
    ensures Prepare(Some(JObj(body)), composite) == Crash
  {
  }

  /** Without an array `messages`, a string `input` becomes one user message
      with its trimmed text; a whitespace-only input is sent as an empty
      message rather than rejected. */
  lemma StringInputOneMessage(body: map<string, Json>, s: string, composite: Json -> string)
    requires !("messages" in body && body["messages"].JArr?)
    requires "input" in body && body["input"] == JStr(s)
    ensures Prepare(Some(JObj(body)), composite) == Send([SystemMessage, Message(Some(JStr("user")), Trim(s))])
    ensures AllSpace(s) ==> Prepare(Some(JObj(body)), composite).messages[1].content == ""
  {
    TrimEmptyIffAllSpace(s);
  }

  /** A 400 "Missing input" has already used up a slot of the limiter. */
  lemma MissingInputUsesSlot(buckets: map<string, seq<int>>, req: Request, now: int, body: Value,
                             composite: Json -> string, up: Upstream)
    requires Prepare(body, composite) == Rejected
    requires req.verb == "POST"
    ensures var o := Serve(buckets, req, now, body, composite, up);
      var ip := ClientId(req.forwardedFor, req.remoteAddress);
      var kept := RateLimit.Retained(RateLimit.Bucket(buckets, ip), now, WINDOW_MS);
      (o.response == Reply(400, Error("Missing input")) <==> |kept| < MAX_REQUESTS)
      && (o.response.Reply? && o.response.status == 400 ==> o.buckets[ip] == kept + [now])
  {
    LimiterDecides(buckets, req, now, true, PREFLIGHT_STATUS, false, MAX_REQUESTS, WINDOW_MS, AfterAdmission(body, composite, up));
  }
}
