/** The summarizer endpoint: gates (OPTIONS 200, 405; no key gate), a
    20-requests-per-minute limiter, `body.input` trimmed, and a buffered
    upstream call whose answer is classified (not JSON, not ok) and from
    which the summary text is extracted. */
module Summarizer {
  import opened Wrappers
  import opened Json
  import opened JsText
  import opened Http
  import RateLimit

  const MAX_REQUESTS: nat := 20
  const WINDOW_MS: int := 60 * 1000
  const PREFLIGHT_STATUS: nat := 200

  /** `(req.body?.input || "").trim()` with the `!input` check. */
  function BodyInput(body: Value): (r: Input)
    ensures r.Threw? <==> Truthy(Chain(body, "input")) && !Chain(body, "input").value.JStr?
    ensures r.Missing? <==> !Truthy(Chain(body, "input")) || (Chain(body, "input").value.JStr? && AllSpace(Chain(body, "input").value.s))
    ensures r.Text? ==> Chain(body, "input").value.JStr? && r.text == Trim(Chain(body, "input").value.s)
  {
    TrimmedInput(Chain(body, "input"))
  }

  /** What the extraction yields: an output value, none, or a TypeError
      (reading a property of `null`) that the surrounding `try` catches. */
  datatype Extracted = Found(output: Json) | NoOutput | Faulted

  /** A content block the scan stops at: an object whose `type` is
      "output_text" and whose `text` is truthy. */
  predicate Hit(b: Json) {
    b != JNull && Get(b, "type") == Some(JStr("output_text")) && Truthy(Get(b, "text"))
  }

  /** The `text` of a block the scan stops at. */
  function TextOf(b: Json): (t: Json)
    requires Hit(b)
    ensures Truthy(Some(t))
  {
    Get(b, "text").value
  }

  /** The blocks the inner loop visits for an item: its `content` when that
      is an array, and none otherwise. */
  function Blocks(item: Json): seq<Json>
    requires item != JNull
  {
    var c := Get(item, "content");
    if IsArray(c) then c.value.items else []
  }

  /** The inner loop: the first block that is `null` (its `.type` throws) or
      a hit decides. */
  function ScanBlocks(blocks: seq<Json>): (r: Extracted)
    ensures r.Found? ==> Truthy(Some(r.output))
  {
    if blocks == [] then NoOutput
    else if blocks[0] == JNull then Faulted
    else if Hit(blocks[0]) then Found(TextOf(blocks[0]))
    else ScanBlocks(blocks[1..])
  }

  /** The outer loop: a `null` item throws on `.content`; otherwise its
      blocks are scanned and the loop goes on only when they yield nothing. */
  function ScanItems(items: seq<Json>): (r: Extracted)
    ensures r.Found? ==> Truthy(Some(r.output))
  {
    if items == [] then NoOutput
    else if items[0] == JNull then Faulted
    else
      match ScanBlocks(Blocks(items[0]))
      case NoOutput => ScanItems(items[1..])
      case r => r
  }

  /** The scan over `data.output` as the handler runs it: nested loops that
      stop at the first hit. */
  method ScanOutput(items: seq<Json>) returns (r: Extracted)
    ensures r == ScanItems(items)
  {
    var output: Option<Json> := None;
    var i := 0;
    while i < |items|
      invariant 0 <= i <= |items|
      invariant output.None?
      invariant ScanItems(items) == ScanItems(items[i..])
    {
      var item := items[i];
      if item == JNull {
        return Faulted;
      }
      var content := Get(item, "content");
      if IsArray(content) {
        var blocks := content.value.items;
        var j := 0;
        while j < |blocks|
          invariant 0 <= j <= |blocks|
          invariant output.None?
          invariant ScanBlocks(blocks) == ScanBlocks(blocks[j..])
        {
          var block := blocks[j];
          if block == JNull {
            return Faulted;
          }
          if Get(block, "type") == Some(JStr("output_text")) && Truthy(Get(block, "text")) {
            output := Get(block, "text");
            break;
          }
          j := j + 1;
        }
        assert output.None? ==> ScanBlocks(blocks) == NoOutput;
        assert output.Some? ==> ScanBlocks(blocks) == Found(output.value);
      }
      if output.Some? {
        break;
      }
      assert items[i..][1..] == items[i + 1..];
      i := i + 1;
    }
    r := if output.Some? then Found(output.value) else NoOutput;
  }

  /** `data.output_text || data?.output?.[0]?.content?.[0]?.text`: the two
      shortcuts tried before the scan. The second one does not look at the
      block's `type`. */
  function Shortcut(data: Json): (r: Value)
    requires data != JNull
    ensures !data.JObj? ==> r.None?
    ensures Truthy(Get(data, "output_text")) ==> r == Get(data, "output_text")
    ensures var out := Get(data, "output");
      !Truthy(Get(data, "output_text")) && IsArray(out) && |out.value.items| > 0
      && out.value.items[0].JObj? && IsArray(Get(out.value.items[0], "content"))
      && |Get(out.value.items[0], "content").value.items| > 0 ==>
        var block := Get(out.value.items[0], "content").value.items[0];
        r == (if block.JObj? && "text" in block.fields then Some(block.fields["text"]) else None)
  {
    Or(Get(data, "output_text"), Chain(ChainFirst(Chain(ChainFirst(Chain(Some(data), "output")), "content")), "text"))
  }

  /** The extraction: the shortcuts, then the scan when `data.output` is an
      array. `data.output_text` on a `null` body throws. */
  function Extract(data: Json): (r: Extracted)
    ensures r.Found? ==> Truthy(Some(r.output))
  {
    if data == JNull then Faulted
    else
      var s := Shortcut(data);
      if Truthy(s) then Found(s.value)
      else
        var out := Get(data, "output");
        if IsArray(out) then ScanItems(out.value.items) else NoOutput
  }

  /** The extraction as the handler runs it. */
  method ExtractOutput(data: Json) returns (r: Extracted)
    ensures r == Extract(data)
  {
    if data == JNull {
      return Faulted;
    }
    var output := Shortcut(data);
    if Truthy(output) {
      return Found(output.value);
    }
    var out := Get(data, "output");
    if IsArray(out) {
      r := ScanOutput(out.value.items);
    } else {
      r := NoOutput;
    }
  }

  /** The reply built from the upstream result. A body that is not JSON is
      reported as such whatever the status; only a parsed body with `!ok`
      is a failed request; a 200 carries a truthy extracted output. */
  function Summarize(up: Upstream): (r: Response)
    ensures up.Unreachable? ==> r == Reply(500, Error("Server error"))
    ensures up.Answered? && up.parsed.None? ==> r == Reply(500, Error("Invalid response from OpenAI"))
    ensures r == Reply(500, Error("OpenAI request failed")) <==> up.Answered? && !up.ok && up.parsed.Some?
    ensures r.Reply? && r.status == 200 <==>
      up.Answered? && up.ok && up.parsed.Some? && Extract(up.parsed.value).Found?
    ensures r.Reply? && r.status == 200 ==>
      r.body == Single("output", Extract(up.parsed.value).output) && Truthy(Some(Extract(up.parsed.value).output))
    ensures r == Reply(500, Error("No output returned")) <==>
      up.Answered? && up.ok && up.parsed.Some? && Extract(up.parsed.value).NoOutput?
    ensures up.Answered? && up.ok && up.parsed.Some? && Extract(up.parsed.value).Faulted? ==>
      r == Reply(500, Error("Server error"))
  {
    match up
    case Unreachable => Reply(500, Error("Server error"))
    case Answered(ok, parsed) =>
      if parsed.None? then Reply(500, Error("Invalid response from OpenAI"))
      else if !ok then Reply(500, Error("OpenAI request failed"))
      else
        match Extract(parsed.value)
        case Faulted => Reply(500, Error("Server error"))
        case NoOutput => Reply(500, Error("No output returned"))
        case Found(v) => Reply(200, Single("output", v))
  }

  /** What follows the limiter for an admitted request. A truthy `input`
      that is not a string throws on `.trim()` outside the `try`. */
  function AfterAdmission(body: Value, up: Upstream): (r: Response)
    ensures r != TooManyRequests
    ensures r == Crashed <==> BodyInput(body).Threw?
    ensures BodyInput(body).Missing? ==> r == Reply(400, Error("Missing input"))
    ensures BodyInput(body).Text? ==> r == Summarize(up)
    ensures r.Reply? && r.status == 200 <==> BodyInput(body).Text? && Summarize(up).Reply? && Summarize(up).status == 200
  {
    match BodyInput(body)
    case Threw => Crashed
    case Missing => Reply(400, Error("Missing input"))
    case Text(_) => Summarize(up)
  }

  function Serve(buckets: map<string, seq<int>>, req: Request, now: int, body: Value, up: Upstream): (o: Outcome)
    ensures req.verb != "POST" ==> o.buckets == buckets
    ensures o.response == TooManyRequests <==>
      req.verb == "POST"
      && |RateLimit.Retained(RateLimit.Bucket(buckets, ClientId(req.forwardedFor, req.remoteAddress)), now, WINDOW_MS)| >= MAX_REQUESTS
    ensures (forall ip :: ip in buckets ==> |buckets[ip]| <= MAX_REQUESTS) ==>
      forall ip :: ip in o.buckets ==> |o.buckets[ip]| <= MAX_REQUESTS
  {
    GatedKeepsBound(buckets, req, now, true, PREFLIGHT_STATUS, false, MAX_REQUESTS, WINDOW_MS, AfterAdmission(body, up));
    Gated(buckets, req, now, true, PREFLIGHT_STATUS, false, MAX_REQUESTS, WINDOW_MS, AfterAdmission(body, up))
  }

  /** `const RATE_LIMIT = {}` with this endpoint's constants. */
  method NewRateLimit() returns (limiter: RateLimit.SlidingWindow)
    ensures fresh(limiter) && limiter.Valid() && limiter.buckets == map[]
    ensures limiter.limit == MAX_REQUESTS && limiter.windowMs == WINDOW_MS
  {
    limiter := new RateLimit.SlidingWindow(MAX_REQUESTS, WINDOW_MS);
  }

  /** The handler: it consults and updates the module's limiter in place and
      behaves as `Serve` says. */
  method Handle(limiter: RateLimit.SlidingWindow, req: Request, now: int, body: Value, up: Upstream)
    returns (response: Response)
    requires limiter.Valid() && limiter.limit == MAX_REQUESTS && limiter.windowMs == WINDOW_MS
    modifies limiter
    ensures limiter.Valid()
    ensures Outcome(response, limiter.buckets) == Serve(old(limiter.buckets), req, now, body, up)
  {
    if req.verb == "OPTIONS" {
      return Empty(PREFLIGHT_STATUS);
    }
    if req.verb != "POST" {
      return Reply(405, Error("Method not allowed"));
    }
    var ip := ClientId(req.forwardedFor, req.remoteAddress);
    var admitted := limiter.Check(ip, now);
    if !admitted {
      return TooManyRequests;
    }
    response := Proceed(body, up);
  }

  /** The part of the handler after the limiter: the input check, the
      upstream classification and the extraction. */
  method Proceed(body: Value, up: Upstream) returns (response: Response)
    ensures response == AfterAdmission(body, up)
  {
    var input := BodyInput(body);
    if input.Threw? {
      return Crashed;
    }
    if input.Missing? {
      return Reply(400, Error("Missing input"));
    }
    if up.Unreachable? {
      return Reply(500, Error("Server error"));
    }
    if up.parsed.None? {
      return Reply(500, Error("Invalid response from OpenAI"));
    }
    if !up.ok {
      return Reply(500, Error("OpenAI request failed"));
    }
    var output := ExtractOutput(up.parsed.value);
    match output
    case Faulted => response := Reply(500, Error("Server error"));
    case NoOutput => response := Reply(500, Error("No output returned"));
    case Found(v) => response := Reply(200, Single("output", v));
  }

  /** A 400 "Missing input" has already used up a slot of the limiter. */
  lemma MissingInputUsesSlot(buckets: map<string, seq<int>>, req: Request, now: int, body: Value, up: Upstream)
    requires BodyInput(body) == Missing
    requires req.verb == "POST"
    ensures var o := Serve(buckets, req, now, body, up);
      var ip := ClientId(req.forwardedFor, req.remoteAddress);
      var kept := RateLimit.Retained(RateLimit.Bucket(buckets, ip), now, WINDOW_MS);
      (o.response == Reply(400, Error("Missing input")) <==> |kept| < MAX_REQUESTS)
      && (o.response.Reply? && o.response.status == 400 ==> o.buckets[ip] == kept + [now])
  {
    LimiterDecides(buckets, req, now, true, PREFLIGHT_STATUS, false, MAX_REQUESTS, WINDOW_MS, AfterAdmission(body, up));
  }

  /** A truthy `output_text` is the output, whatever else the body holds. */
  lemma OutputTextFirst(fields: map<string, Json>)
    requires "output_text" in fields && Truthy(Some(fields["output_text"]))
    ensures Extract(JObj(fields)) == Found(fields["output_text"])
  {
  }

  /** Without a truthy `output_text`, the `text` of the first block of the
      first item is the output when truthy, whatever the block's `type`. */
  lemma FirstBlockSecond(fields: map<string, Json>, item: map<string, Json>, block: map<string, Json>,
                         items: seq<Json>, blocks: seq<Json>)
    requires !Truthy(if "output_text" in fields then Some(fields["output_text"]) else None)
    requires "output" in fields && fields["output"] == JArr([JObj(item)] + items)
    requires "content" in item && item["content"] == JArr([JObj(block)] + blocks)
    requires "text" in block && Truthy(Some(block["text"]))
    ensures Extract(JObj(fields)) == Found(block["text"])
  {
  }

  /** Blocks visited in item order and, within an item, in block order; a
      `null` item stands for the TypeError it raises. */
  function Visits(items: seq<Json>): (v: seq<Json>)
  {
    if items == [] then []
    else (if items[0] == JNull then [JNull] else Blocks(items[0])) + Visits(items[1..])
  }

  lemma {:induction false} ScanBlocksAppend(a: seq<Json>, b: seq<Json>)
    ensures ScanBlocks(a + b) == if ScanBlocks(a) == NoOutput then ScanBlocks(b) else ScanBlocks(a)
  {
    if a == [] {
      assert a + b == b;
    } else {
      assert (a + b)[0] == a[0];
      assert (a + b)[1..] == a[1..] + b;
      ScanBlocksAppend(a[1..], b);
    }
  }

  /** The nested scan is one scan over all blocks in item order, then block
      order. */
  lemma {:induction false} ScanIsFlat(items: seq<Json>)
    ensures ScanItems(items) == ScanBlocks(Visits(items))
  {
    if items != [] {
      var first := if items[0] == JNull then [JNull] else Blocks(items[0]);
      ScanBlocksAppend(first, Visits(items[1..]));
      ScanIsFlat(items[1..]);
    }
  }

  /** The scan returns the text of the first hit when no earlier block is
      `null`: later hits are ignored. */
  lemma {:induction false} ScanBlocksFirstHit(blocks: seq<Json>, k: nat)
    requires k < |blocks| && Hit(blocks[k])
    requires forall m :: 0 <= m < k ==> blocks[m] != JNull && !Hit(blocks[m])
    ensures ScanBlocks(blocks) == Found(TextOf(blocks[k]))
  {
    if k > 0 {
      ScanBlocksFirstHit(blocks[1..], k - 1);
    }
  }

  /** Conversely, every found output is the text of a first hit, and a scan
      that finds nothing passed over blocks that are neither `null` nor
      hits. */
  lemma {:induction false} ScanBlocksSound(blocks: seq<Json>)
    ensures ScanBlocks(blocks).Found? ==>
      exists k :: 0 <= k < |blocks| && Hit(blocks[k]) && ScanBlocks(blocks).output == TextOf(blocks[k])
        && forall m :: 0 <= m < k ==> blocks[m] != JNull && !Hit(blocks[m])
    ensures ScanBlocks(blocks) == NoOutput <==> forall m :: 0 <= m < |blocks| ==> blocks[m] != JNull && !Hit(blocks[m])
  {
    if blocks != [] && blocks[0] != JNull && !Hit(blocks[0]) {
      var rest := blocks[1..];
      ScanBlocksSound(rest);
      if ScanBlocks(rest).Found? {
        var k :| 0 <= k < |rest| && Hit(rest[k]) && ScanBlocks(rest).output == TextOf(rest[k])
          && forall m :: 0 <= m < k ==> rest[m] != JNull && !Hit(rest[m]);
        assert blocks[k + 1] == rest[k];
        assert forall m :: 1 <= m < k + 1 ==> blocks[m] == rest[m - 1];
      }
      assert forall m :: 1 <= m < |blocks| ==> blocks[m] == rest[m - 1];
    } else if blocks != [] && Hit(blocks[0]) {
      assert ScanBlocks(blocks).output == TextOf(blocks[0]);
    }
  }

  /** With no output from the shortcuts, the summary is the text of the
      first hit over all items' blocks, provided no earlier item or block is
      `null`. */
  lemma ScanFindsFirstHit(data: map<string, Json>, items: seq<Json>, k: nat)
    requires !Truthy(Shortcut(JObj(data)))
    requires "output" in data && data["output"] == JArr(items)
    requires k < |Visits(items)| && Hit(Visits(items)[k])
    requires forall m :: 0 <= m < k ==> Visits(items)[m] != JNull && !Hit(Visits(items)[m])
    ensures Summarize(Answered(true, Some(JObj(data)))) == Reply(200, Single("output", TextOf(Visits(items)[k])))
  {
    ScanIsFlat(items);
    ScanBlocksFirstHit(Visits(items), k);
  }

  /** The flat shape `{output_text: t}` and the nested shape
      `{output: [{content: [{type: "output_text", text: t}]}]}` give the same
      summary. */
  lemma ShapesAgree(t: string)
    requires t != ""
    ensures var flat := JObj(map["output_text" := JStr(t)]);
      var block := JObj(map["type" := JStr("output_text"), "text" := JStr(t)]);
      var nested := JObj(map["output" := JArr([JObj(map["content" := JArr([block])])])]);
      Summarize(Answered(true, Some(flat))) == Reply(200, Single("output", JStr(t)))
      && Summarize(Answered(true, Some(nested))) == Reply(200, Single("output", JStr(t)))
  {
    var block := JObj(map["type" := JStr("output_text"), "text" := JStr(t)]);
    var item := JObj(map["content" := JArr([block])]);
    var nested := JObj(map["output" := JArr([item])]);
    assert Shortcut(nested) == Some(JStr(t)) by {
      assert ChainFirst(Chain(Some(nested), "output")) == Some(item);
      assert ChainFirst(Chain(Some(item), "content")) == Some(block);
    }
  }
}
