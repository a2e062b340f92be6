# Verified model of four serverless AI handlers

The repository has four near-duplicate HTTP handlers: `api/chatbot.js`,
`api/summarizer.js`, `api/image-generator.js` and `api/text-generator.js`.
Each one forwards a client's input to a generative-AI provider and returns
the answer. This project models the deterministic logic around the network
calls and proves properties of it:

- **Sliding-window rate limiter** (`RateLimit`). This is the module-level
  `RATE_LIMIT` dictionary from client id to millisecond timestamps. A check
  keeps only entries younger than `WINDOW_MS` (60000), rejects when
  `MAX_REQUESTS` remain, and otherwise appends `now`. The dictionary is a
  class `SlidingWindow` with a `map<string, seq<int>>` field. `Check`
  updates it in place and is proved against the function `Decide`. Each
  handler creates its own limiter with its own limit: 30 (chatbot), 20
  (summarizer), 10 (image) and 20 (text).
- **Client id and gates** (`Http`). The client id is the first piece of
  `x-forwarded-for`, then the socket address, then `"unknown"`. The gates
  that run before the limiter are OPTIONS, non-POST and, in the chatbot and
  image handlers, a missing API key. `Gated` composes the gates, the limiter
  and the rest of a handler. Its lemmas say which outcomes touch the limiter.
- **Input normalisers.** `RequestInput` is the chatbot and image normaliser:
  JSON `input || prompt`, with a form-urlencoded fallback, then trim.
  `Summarizer.BodyInput` is the summarizer's `body.input` trim.
  `TextGenerator.Prepare` builds the text handler's message list. It renames
  role "ai", converts content with `String(content || "")` and puts the
  system message in front.
- **Upstream classification and extraction.** `Summarizer.Summarize`,
  `ImageGenerator.Imagine` and `TextGenerator.Complete` classify the upstream
  answer (not JSON, not ok, no output) and pull out the text or image URL.
  The summarizer's nested first-match scan is an imperative method,
  `Summarizer.ScanOutput`, proved equal to the recursive `ScanItems`. The
  lemmas show that it returns the first hit in item-then-block order.
- **Handlers.** Each handler has a `Handle` method that updates its
  limiter in place. Each `Handle` is proved equal to a function `Serve` of
  the dictionary before the request, the request features, `now`, whether
  the key is set, the body and the upstream result.

The JavaScript library functions are written out where the handlers depend
on their details. These are `trim` with ECMAScript's white-space set,
`split(",")[0]`, the leftmost match of `/input=([^&]+)/`,
`replace(/\+/g, " ")`, truthiness, `||` and optional chaining
(`Json`, `JsText`). `JSON.parse`, `decodeURIComponent` and `String()` of
arrays and objects are function parameters.

Some behaviour of the code is easy to miss. The model keeps it as written:

- All four copies record a timestamp only when they admit the request.
- No handler truncates the conversation, and the text handler does not
  filter messages by role.
- A non-2xx upstream status becomes a 500 with a fixed message. The
  upstream status is not passed on. The chatbot is the exception: it passes
  on the upstream body text.
- The summarizer recognises two response shapes (`output_text` and
  `output[].content[]`). Only the text handler reads
  `choices[0].message.content`.

## Model

| member | source | states |
|---|---|---|
| `Json.Or` | api/chatbot.js:60 | `a \|\| b` is truthy iff either operand is, and it is one of the two operands |
| `Json.Truthy` | api/chatbot.js:60 | `null` and `undefined` are falsy, arrays and objects truthy, and a string is truthy iff it is non-empty |
| `Json.Get` | api/summarizer.js:95 | a property read yields a value exactly when the base is an object that has the key |
| `Json.Chain` | api/summarizer.js:96 | optional chaining on `null` or `undefined` yields `undefined` |
| `Json.ChainFirst` | api/summarizer.js:96 | `?.[0]` on `null` or `undefined` yields `undefined` |
| `Json.Single` | api/summarizer.js:120 | a one-key reply object has exactly that key, holding that value |
| `JsText.Leading` | api/chatbot.js:72 | the count of leading white-space characters: all of them are white space, and the next character is not |
| `JsText.Trailing` | api/chatbot.js:72 | the count of trailing white-space characters: all of them are white space, and the character before them is not |
| `JsText.Trim` | api/chatbot.js:72 | the result is a prefix of what follows the leading white space; its meaning is stated by `TrimEmptyIffAllSpace`, `TrimEnds` and `TrimIsSlice` |
| `JsText.TrimEmptyIffAllSpace` | api/chatbot.js:72-74 | `s.trim()` is empty iff every character of `s` is ECMAScript white space |
| `JsText.TrimEnds` | api/chatbot.js:72 | a non-empty trimmed string neither starts nor ends with white space |
| `JsText.TrimIsSlice` | api/chatbot.js:72 | the trimmed string is a contiguous slice of the input, with only white space on either side |
| `JsText.TrimIdempotent` | api/chatbot.js:72 | trimming twice equals trimming once |
| `JsText.TrimHello` | api/chatbot.js:72 | `"  hello  ".trim()` is `"hello"` |
| `JsText.Until` | api/chatbot.js:32 | the result is a prefix free of the stop character that ends at its first occurrence or at the end: `split(",")[0]` here and the greedy `[^&]+` of lines 64-65 |
| `JsText.FindFrom` | api/chatbot.js:64-65 | the search returns the leftmost index where `key` is followed by a non-`&` character, or none if there is no such index |
| `JsText.Capture` | api/chatbot.js:64-65 | `match(...)?.[1]` is absent iff the expression matches nowhere; a capture is non-empty and free of `&` |
| `JsText.CaptureIsLeftmostRun` | api/chatbot.js:64-65 | the regex capture is absent iff nothing matches; otherwise it is the non-empty `&`-free run after the leftmost match, ending at `&` or at the end |
| `JsText.PlusToSpace` | api/chatbot.js:68 | replacing `+` keeps the length, turns every `+` into a space, and keeps every other character |
| `RateLimit.Retained` | api/chatbot.js:38 | every retained timestamp satisfies `now - t < WINDOW_MS`, and the list never grows |
| `RateLimit.RetainedAppend` | api/chatbot.js:38 | filtering distributes over concatenation, so retained entries keep their relative order |
| `RateLimit.RetainedMembers` | api/chatbot.js:38 | a timestamp survives iff it was present and is younger than the window; one exactly 60000 ms old is evicted |
| `RateLimit.RetainedAllFresh` | api/chatbot.js:38 | a bucket whose entries are all inside the window is kept whole |
| `RateLimit.RetainedAllStale` | api/chatbot.js:38 | a bucket whose entries have all reached the window's age is emptied |
| `RateLimit.Bucket` | api/chatbot.js:37 | `RATE_LIMIT[ip] \|\| []`: a client never seen has an empty history, a known one its stored list |
| `RateLimit.Decide` | api/chatbot.js:37-44 | admitted iff fewer than `limit` timestamps are retained; an admitted request leaves the retained list plus `now`, a rejected one only the retained list; other clients unchanged; the bucket stays within `limit` and inside the window |
| `RateLimit.SlidingWindow.constructor` | api/chatbot.js:1-3 | an empty dictionary with the given limit and window |
| `RateLimit.SlidingWindow.Check` | api/chatbot.js:37-44 | updates the dictionary in place exactly as `Decide` says, keeps every bucket within the limit, and leaves other clients' buckets unchanged |
| `RateLimit.QuietWindowReadmits` | api/chatbot.js:38-44 | when the limit is positive, a client with no timestamp inside the window is admitted again, whatever its history |
| `RateLimit.Replay` | api/chatbot.js:37-44 | successive checks give one admission flag per request |
| `RateLimit.FreshStep` | api/chatbot.js:37-44 | a check whose bucket lies inside a later window evicts nothing, admits iff the bucket is below the limit, and keeps the bucket inside that window |
| `RateLimit.BurstWithinWindow` | api/chatbot.js:37-44 | for requests that all fall inside one window, the `i`-th is admitted iff the earlier bucket size plus `i` is below the limit |
| `RateLimit.LimitThenRejected` | api/chatbot.js:37-44 | a new client gets exactly `limit` requests through in one window, and the next one is rejected |
| `RateLimit.CheckOnPlainObject` | api/chatbot.js:37-38 | on the plain object `{}`, a check throws iff the id is an inherited property name, and behaves as `Decide` for every other id |
| `RateLimit.ConstructorIdThrows` | api/chatbot.js:37-38 | a first request from client id `"constructor"` throws instead of being admitted |
| `RateLimit.FirstRequestAdmitted` | api/chatbot.js:37-44 | with a dictionary keyed by every string, a first request is admitted whenever the limit is positive |
| `Http.Error` | api/chatbot.js:21 | `{ error: message }` has exactly the key `error` |
| `Http.ClientId` | api/chatbot.js:31-34 | the id is never empty; it is the untrimmed first comma-separated piece of `x-forwarded-for` when that piece is non-empty, else the non-empty remote address, else `"unknown"` |
| `Http.Screen` | api/chatbot.js:16-26 | OPTIONS gives the preflight status, another non-POST gives 405, POST without a key (where checked) gives 500; only a POST with a key reaches the limiter |
| `Http.Gated` | api/chatbot.js:16-44 | gate answers leave the dictionary unchanged; past the gates the client has a bucket and the response is the admitted one or 429; other clients' buckets are unchanged |
| `Http.GatesSkipLimiter` | api/chatbot.js:16-26 | requests answered by a gate leave the rate-limit dictionary unchanged |
| `Http.LimiterDecides` | api/chatbot.js:36-44 | past the gates: 429 iff `limit` timestamps are retained; any other response means `now` was recorded; other clients are untouched |
| `Http.GatedKeepsBound` | api/chatbot.js:37-44 | if every bucket is within the limit before a request, every bucket is within it afterwards |
| `Http.TrimmedInput` | api/chatbot.js:72-79 | throws iff the value is truthy and not a string; missing iff it is falsy or all white space; otherwise the non-empty trimmed string |
| `RequestInput.FormValue` | api/chatbot.js:63-65 | absent iff neither `input=` nor `prompt=` matches; a match of `input=` anywhere wins; without one, the value is the `prompt=` capture; the value is non-empty and `&`-free |
| `RequestInput.Select` | api/chatbot.js:57-70 | a body that parses to anything but `null` yields `input \|\| prompt \|\| ""` (both fields read only on an object), truthy iff either field is, `input` winning; when parsing throws or yields `null`, a URIError iff a form value exists and the decoder rejects it, and `""` when no form value exists |
| `RequestInput.ReadInput` | api/chatbot.js:55-79 | a sent input is non-empty and trimmed at both ends; it throws iff the URI decoder throws or the chosen value is truthy and not a string |
| `RequestInput.MissingInputBody` | api/chatbot.js:75-78 | the 400 body holds exactly `error: "Missing input"` and the received body |
| `RequestInput.JsonInputWins` | api/chatbot.js:58-60 | a non-empty string `input` is used whatever `prompt` holds; a whitespace-only one is rejected |
| `RequestInput.JsonPromptFallback` | api/chatbot.js:60 | a falsy or absent `input` falls back to `prompt`, and to rejection when `prompt` is falsy too |
| `RequestInput.NoFieldIsMissing` | api/chatbot.js:61-79 | a non-JSON body without an `input=` or `prompt=` value is rejected |
| `RequestInput.FormInputDecoded` | api/chatbot.js:61-70 | a non-JSON body uses the leftmost `input=` value with `+` turned into spaces before decoding; a decoder error escapes |
| `RequestInput.FormPromptDecoded` | api/chatbot.js:61-70 | a non-JSON body without an `input=` value uses the leftmost `prompt=` value, decoded the same way; a decoder error escapes |
| `RequestInput.HelloExample` | api/chatbot.js:58-72 | `{"input": "  hello  "}` yields `hello` |
| `Chatbot.NewRateLimit` | api/chatbot.js:1-3 | a fresh, empty limiter with 30 requests per 60000 ms |
| `Chatbot.AfterAdmission` | api/chatbot.js:55-137 | never 429; a crash iff the input read throws; a missing input gives 400 with the body; a stream iff the input is valid and the relay completed; abandoned iff it failed after the headers; a non-2xx upstream gives 500 with the upstream body text; a failed fetch or a failure before the headers gives 500 "Internal server error" |
| `Chatbot.Serve` | api/chatbot.js:16-137 | gate answers leave the dictionary unchanged; 429 iff a POST with a key finds at least 30 timestamps inside the window; buckets within 30 stay within 30 |
| `Chatbot.Handle` | api/chatbot.js:16-137 | the handler updates its limiter in place and behaves as `Serve`; buckets stay within 30 |
| `Chatbot.Proceed` | api/chatbot.js:55-137 | after admission: a throwing input read crashes, a missing input gives 400 with the body, and a valid input is relayed as `AfterAdmission` says |
| `Chatbot.MissingInputUsesSlot` | api/chatbot.js:40-79 | a request with missing input gets 400 iff it was admitted, and then `now` has already been recorded |
| `Chatbot.RelayOnlyAfterAdmission` | api/chatbot.js:111-137 | a relayed or abandoned stream only follows a POST with a key and a valid input that was recorded |
| `Summarizer.BodyInput` | api/summarizer.js:42-45 | throws iff `body.input` is truthy and not a string; missing iff it is falsy or all white space; otherwise the trimmed string |
| `Summarizer.TextOf` | api/summarizer.js:103-104 | the text taken from a hit is truthy |
| `Summarizer.ScanBlocks` | api/summarizer.js:102-107 | a found output is truthy |
| `Summarizer.ScanItems` | api/summarizer.js:99-111 | a found output is truthy |
| `Summarizer.ScanOutput` | api/summarizer.js:99-111 | the nested loops with `break` compute `ScanItems` |
| `Summarizer.Extract` | api/summarizer.js:94-111 | a found output is truthy |
| `Summarizer.ExtractOutput` | api/summarizer.js:94-111 | the handler's extraction computes `Extract` |
| `Summarizer.Summarize` | api/summarizer.js:72-125 | a failed fetch gives "Server error"; non-JSON gives "Invalid response from OpenAI" whatever the status; "OpenAI request failed" iff parsed and not ok; 200 iff ok and an output is found, carrying that output; "No output returned" iff ok and nothing found; a faulting extraction gives "Server error" |
| `Summarizer.NewRateLimit` | api/summarizer.js:1-3 | a fresh, empty limiter with 20 requests per 60000 ms |
| `Summarizer.Shortcut` | api/summarizer.js:94-97 | a truthy `output_text` is taken; otherwise the `text` of `output[0].content[0]`, whatever its type; nothing for a non-object body |
| `Summarizer.AfterAdmission` | api/summarizer.js:42-125 | never 429; a crash iff the input trim throws; a missing input gives 400; 200 iff the input is valid and `Summarize` gives 200; for a valid input the reply is exactly `Summarize`'s |
| `Summarizer.Serve` | api/summarizer.js:13-125 | gate answers leave the dictionary unchanged; 429 iff a POST finds at least 20 timestamps inside the window; buckets within 20 stay within 20 |
| `Summarizer.Handle` | api/summarizer.js:13-125 | the handler updates its limiter in place and behaves as `Serve`; buckets stay within 20 |
| `Summarizer.Proceed` | api/summarizer.js:42-125 | after admission: the input check, then the upstream classification and extraction as `AfterAdmission` says |
| `Summarizer.MissingInputUsesSlot` | api/summarizer.js:33-45 | a request with missing input gets 400 iff it was admitted, and then `now` has already been recorded |
| `Summarizer.OutputTextFirst` | api/summarizer.js:94-95 | a truthy `output_text` is the output, whatever else the body holds |
| `Summarizer.FirstBlockSecond` | api/summarizer.js:94-97 | otherwise a truthy `output[0].content[0].text` is the output, whatever that block's type |
| `Summarizer.ScanBlocksAppend` | api/summarizer.js:102-107 | scanning a concatenation scans the second part only if the first yields nothing |
| `Summarizer.ScanIsFlat` | api/summarizer.js:99-111 | the nested scan equals one scan over all blocks in item order, then block order |
| `Summarizer.ScanBlocksFirstHit` | api/summarizer.js:102-107 | provided no earlier block is `null`, the scan returns the text of the first `output_text` block with truthy text; later matches are ignored |
| `Summarizer.ScanBlocksSound` | api/summarizer.js:102-107 | every found output is the text of a first hit; nothing is found iff every block is a non-null non-hit |
| `Summarizer.ScanFindsFirstHit` | api/summarizer.js:94-120 | without a shortcut value, and provided no item or block before the first hit is `null`, the reply is 200 with the first hit over all items' blocks |
| `Summarizer.ShapesAgree` | api/summarizer.js:94-111 | the flat `output_text` shape and the nested `output[].content[]` shape give the same reply |
| `ImageGenerator.NoImageBody` | api/image-generator.js:122-127 | the body holds exactly `error: "No image returned"` and the raw data |
| `ImageGenerator.Imagine` | api/image-generator.js:101-132 | a failed fetch gives "Server crash"; non-JSON gives "Invalid image response" before the status is checked; "Image generation failed" iff parsed and not ok; 200 iff `data[0].url` is truthy, carrying exactly it; otherwise "No image returned" with the raw data |
| `ImageGenerator.NewRateLimit` | api/image-generator.js:1-3 | a fresh, empty limiter with 10 requests per 60000 ms |
| `ImageGenerator.ImageUrl` | api/image-generator.js:120 | `data?.data?.[0]?.url`: the `url` of the first entry of an array `data`, nothing for a non-object body |
| `ImageGenerator.AfterAdmission` | api/image-generator.js:55-137 | never 429; a crash iff the input read throws; a missing input gives 400 with the body; 200 iff the input is valid and `Imagine` gives 200; for a valid input the reply is exactly `Imagine`'s |
| `ImageGenerator.Serve` | api/image-generator.js:16-137 | gate answers leave the dictionary unchanged; 429 iff a POST with a key finds at least 10 timestamps inside the window; buckets within 10 stay within 10 |
| `ImageGenerator.Handle` | api/image-generator.js:16-137 | the handler updates its limiter in place and behaves as `Serve`; buckets stay within 10 |
| `ImageGenerator.Proceed` | api/image-generator.js:55-137 | after admission: the input check, then the upstream classification and URL extraction as `AfterAdmission` says |
| `ImageGenerator.MissingInputUsesSlot` | api/image-generator.js:40-79 | a request with missing input gets 400 iff it was admitted, and then `now` has already been recorded |
| `ImageGenerator.OnlyFirstEntry` | api/image-generator.js:120-132 | an image is returned iff `data[0]` has a truthy `url`, and it is that url; entries after the first never change whether an image is returned, nor which url |
| `TextGenerator.ToText` | api/text-generator.js:47 | `String()` of a string is the string itself |
| `TextGenerator.Normalise` | api/text-generator.js:45-48 | role "ai" becomes "assistant" and every other role passes through; falsy content becomes ""; string content is kept |
| `TextGenerator.MapMessages` | api/text-generator.js:44-48 | fails iff an entry is `null`; otherwise it keeps the length, and entry `i` is the normalised `messages[i]` |
| `TextGenerator.Prepare` | api/text-generator.js:42-66 | a sent list has at least two messages and starts with the system message; rejected iff `messages` is an empty array, or there is no array and `input` is not a string; it crashes iff `messages` is an array with a `null` entry |
| `TextGenerator.Complete` | api/text-generator.js:90-110 | a failed fetch gives "Server crash"; non-JSON gives "Server crash"; "OpenAI request failed" iff parsed and not ok; 200 iff `choices[0].message.content` is truthy, carrying exactly it; "No output returned" iff ok with a falsy content; an ok `null` body gives "Server crash" |
| `TextGenerator.NewRateLimit` | api/text-generator.js:1-3 | a fresh, empty limiter with 20 requests per 60000 ms |
| `TextGenerator.Content` | api/text-generator.js:97 | `data.choices?.[0]?.message?.content`: the content of the first choice's message, nothing for a non-object body |
| `TextGenerator.AfterAdmission` | api/text-generator.js:42-108 | never 429; a crash iff building the message list throws; an empty list gives 400; 200 iff a list is sent and `Complete` gives 200; when a list is sent the reply is exactly `Complete`'s |
| `TextGenerator.Serve` | api/text-generator.js:13-108 | gate answers leave the dictionary unchanged; 429 iff a POST finds at least 20 timestamps inside the window; buckets within 20 stay within 20 |
| `TextGenerator.Handle` | api/text-generator.js:13-108 | the handler updates its limiter in place and behaves as `Serve`; the message list is sent iff the request is admitted and the list is non-empty, and it is the one `Prepare` builds |
| `TextGenerator.MessagesArrayKept` | api/text-generator.js:44-66 | an array `messages` gives n+1 messages: the system message, then exactly the normalised entries in order, with role aliasing and falsy content as ""; an empty array is rejected even when `input` is present |
| `TextGenerator.NullMessageThrows` | api/text-generator.js:44-48 | a `null` entry in `messages` makes the handler throw |
| `TextGenerator.StringInputOneMessage` | api/text-generator.js:49-58 | a string `input` without a `messages` array gives the system message and one trimmed user message; whitespace-only input is sent empty, not rejected |
| `TextGenerator.MissingInputUsesSlot` | api/text-generator.js:33-58 | a request with no messages gets 400 iff it was admitted, and then `now` has already been recorded |

## Findings

| source | as written | input that shows it | evidently intended | confidence | as-written member | corrected member |
|---|---|---|---|---|---|---|
| api/chatbot.js:37-38 | `RATE_LIMIT` is the plain object `{}`. For an id that names an `Object.prototype` member, `RATE_LIMIT[ip] \|\| []` is a function or an object rather than an array. Then `.filter` throws a TypeError outside any `try`. The same code is in all four handlers. | header `x-forwarded-for: constructor` (also `__proto__`, `toString`, ...) | a dictionary keyed by every string (`Object.create(null)` or a `Map`), so the first request from such a client is admitted | not executed; high | `RateLimit.CheckOnPlainObject`, `RateLimit.ConstructorIdThrows` | `RateLimit.Decide`, `RateLimit.FirstRequestAdmitted` |

## Left out

- The streaming relay loop is not modelled (`reader.read()`, `TextDecoder` and `res.write`, api/chatbot.js:116-131). Only the way it ends is a parameter: relayed to the end, failed before the headers were sent, or failed after.
- The upstream `fetch` calls are left out: URLs, headers, model names, payloads, `AbortController` timeouts. The upstream result is a parameter: it threw, or its `ok` flag and its parsed body. The text handler's message list is the exception: its `Handle` returns that list.
- Body accumulation (`req.on("data")`) is stream I/O. The body is a string parameter. The summarizer and text handlers read the platform-parsed `req.body`, which is a JSON value parameter.
- `JSON.parse`, `decodeURIComponent` and `String()` of arrays and objects are function parameters, not their real behaviour. The `String()` parameter is total, although the real `String()` can throw: an object content with a non-callable own `toString`, such as `{"toString": 0}`, makes it throw a TypeError. JSON numbers are kept as the text JavaScript prints for them. That text is all the handlers observe of a number.
- `Date.now()` is the parameter `now`. Whether `OPENAI_API_KEY` is set and non-empty is the boolean `hasKey`.
- CORS headers and `console.error` logging have no modelled behaviour.
- Concurrency is not modelled. The limiter code runs synchronously before any `await`.
- Every exception that escapes a handler is one outcome, `Crashed`. What the hosting platform then sends is not modelled. Exceptions while reading the upstream body text are not modelled.
- `Http.Gated`, and through it every handler's `Serve` and `Handle`, uses the corrected dictionary from "## Findings". For the twelve `Object.prototype` names in `RateLimit.InheritedNames`, the source throws at the `.filter` call: api/chatbot.js:38, api/image-generator.js:38, api/summarizer.js:31 and api/text-generator.js:31. The model admits or rejects such a client like any other. The behaviour as written is stated by `RateLimit.CheckOnPlainObject` alone.
- Strings are Dafny strings of Unicode scalar values. JavaScript strings are UTF-16 sequences, so a lone surrogate such as the JSON string `"\ud800"` cannot be represented.
- `TextGenerator.MapMessages`: fails only on a `null` entry. The TypeError that `String()` throws for an object content without a callable `toString` or `valueOf` (api/text-generator.js:47, outside any `try`) is not modelled, because `String()` of objects is a total parameter.
