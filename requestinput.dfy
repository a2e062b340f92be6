/** The input normaliser of the chatbot and image handlers: the raw body is
    first read as JSON and `input || prompt || ""` taken from it; when
    `JSON.parse` throws (or yields `null`, whose `.input` throws inside the
    same `try`), the body is searched for `input=…` and then `prompt=…`, the
    value has `+` turned into spaces and is percent-decoded. The result is
    trimmed and an empty one is rejected. */
module RequestInput {
  import opened Wrappers
  import opened Json
  import opened JsText
  import opened Http

  /** The library calls the normaliser makes whose behaviour is not
      modelled: `JSON.parse` (`None` when it throws) and
      `decodeURIComponent` (`None` when it throws a URIError). */
  datatype Library = Library(parse: string -> Option<Json>, decodeUri: string -> Option<string>)

  /** `body.match(/input=([^&]+)/) || body.match(/prompt=([^&]+)/)`, first
      capture: a match of `input=` anywhere wins over any `prompt=`. */
  function FormValue(body: string): (r: Option<string>)
    ensures r.None? <==>
      (forall j :: 0 <= j ==> !MatchesAt(body, "input=", j)) && (forall j :: 0 <= j ==> !MatchesAt(body, "prompt=", j))
    ensures r.Some? ==> |r.value| > 0 && '&' !in r.value
    ensures (exists j :: 0 <= j && MatchesAt(body, "input=", j)) ==> r == Capture(body, "input=")
    ensures (forall j :: 0 <= j ==> !MatchesAt(body, "input=", j)) ==> r == Capture(body, "prompt=")
  {
    CaptureIsLeftmostRun(body, "input=");
    CaptureIsLeftmostRun(body, "prompt=");
    match Capture(body, "input=")
    case Some(v) => Some(v)
    case None => Capture(body, "prompt=")
  }

  /** The value held by `input` after the `try`/`catch` that reads the body,
      or the URIError that `decodeURIComponent` throws out of the `catch`. */
  datatype Selection = Chosen(value: Json) | UriError

  function Select(body: string, lib: Library): (s: Selection)
    ensures var parsed := lib.parse(body);
      parsed.Some? && parsed.value != JNull ==>
        var input, prompt := Get(parsed.value, "input"), Get(parsed.value, "prompt");
        && s.Chosen?
        && (Truthy(Some(s.value)) <==> Truthy(input) || Truthy(prompt))
        && (Truthy(input) ==> s.value == input.value)
        && (!Truthy(input) && Truthy(prompt) ==> s.value == prompt.value)
    ensures s.UriError? <==>
      (lib.parse(body).None? || lib.parse(body).value == JNull)
      && FormValue(body).Some? && lib.decodeUri(PlusToSpace(FormValue(body).value)).None?
    ensures (lib.parse(body).None? || lib.parse(body).value == JNull) && FormValue(body).None? ==>
      s == Chosen(JStr(""))
  {
    var parsed := lib.parse(body);
    if parsed.Some? && parsed.value != JNull then
      var p := parsed.value;
      var v := Or(Or(Get(p, "input"), Get(p, "prompt")), Some(JStr("")));
      Chosen(v.value)
    else
      match FormValue(body)
      case None => Chosen(JStr(""))
      case Some(raw) =>
        match lib.decodeUri(PlusToSpace(raw))
        case None => UriError
        case Some(text) => Chosen(JStr(text))
  }

  /** The input the handler sends upstream, the 400 case, or an exception
      that escapes the handler. A text that is sent is never empty and is
      trimmed at both ends. */
  function ReadInput(body: string, lib: Library): (r: Input)
    ensures r.Text? ==> r.text != [] && !IsJsSpace(r.text[0]) && !IsJsSpace(r.text[|r.text| - 1])
    ensures r.Threw? <==>
      (Select(body, lib).UriError? || (Truthy(Some(Select(body, lib).value)) && !Select(body, lib).value.JStr?))
  {
    match Select(body, lib)
    case UriError => Threw
    case Chosen(v) =>
      TrimEnds(if v.JStr? then v.s else "");
      TrimmedInput(Some(v))
  }

  /** `{ error: "Missing input", receivedBody: body }` */
  function MissingInputBody(body: string): (j: Json)
    ensures j.JObj? && j.fields.Keys == {"error", "receivedBody"}
    ensures j.fields["error"] == JStr("Missing input") && j.fields["receivedBody"] == JStr(body)
  {
    JObj(map["error" := JStr("Missing input"), "receivedBody" := JStr(body)])
  }

  /** A JSON body whose `input` is a non-empty string uses it, whatever
      `prompt` holds: a whitespace-only `input` trims to nothing and is
      rejected even when `prompt` is present. */
  lemma JsonInputWins(body: string, lib: Library, fields: map<string, Json>, s: string)
    requires lib.parse(body) == Some(JObj(fields))
    requires "input" in fields && fields["input"] == JStr(s) && s != ""
    ensures AllSpace(s) ==> ReadInput(body, lib) == Missing
    ensures !AllSpace(s) ==> ReadInput(body, lib) == Text(Trim(s))
  {
    assert Select(body, lib) == Chosen(JStr(s));
  }

  /** A JSON body whose `input` is falsy or absent falls back to `prompt`;
      when that is falsy too, the request is rejected. */
  lemma JsonPromptFallback(body: string, lib: Library, fields: map<string, Json>)
    requires lib.parse(body) == Some(JObj(fields))
    requires !Truthy(if "input" in fields then Some(fields["input"]) else None)
    ensures var prompt := if "prompt" in fields then Some(fields["prompt"]) else None;
      ReadInput(body, lib) == TrimmedInput(prompt)
      && (!Truthy(prompt) ==> ReadInput(body, lib) == Missing)
  {
    var prompt := if "prompt" in fields then Some(fields["prompt"]) else None;
    if Truthy(prompt) {
      assert Select(body, lib) == Chosen(prompt.value);
    } else {
      assert Select(body, lib) == Chosen(JStr(""));
    }
  }

  /** A body that is not JSON and holds neither `input=` nor `prompt=`
      followed by a value is rejected. */
  lemma NoFieldIsMissing(body: string, lib: Library)
    requires lib.parse(body).None?
    requires forall j :: 0 <= j ==> !MatchesAt(body, "input=", j) && !MatchesAt(body, "prompt=", j)
    ensures ReadInput(body, lib) == Missing
  {
    assert FormValue(body).None?;
  }

  /** A body that is not JSON and has a value after `input=` uses the
      leftmost such value: its `+` signs become spaces before it is
      percent-decoded, and a URIError from the decoder escapes the handler.
      A `prompt=` field, wherever it is, is ignored. */
  lemma FormInputDecoded(body: string, lib: Library, j: nat)
    requires lib.parse(body).None?
    requires MatchesAt(body, "input=", j)
    ensures var raw := Capture(body, "input=").value;
      var decoded := lib.decodeUri(PlusToSpace(raw));
      && '+' !in PlusToSpace(raw) && '&' !in raw
      && (decoded.None? ==> ReadInput(body, lib) == Threw)
      && (decoded.Some? ==> ReadInput(body, lib) == TrimmedInput(Some(JStr(decoded.value))))
  {
    assert FormValue(body) == Capture(body, "input=");
  }

  /** A body that is not JSON and has no value after `input=` but one after
      `prompt=` uses the leftmost `prompt=` value, decoded the same way. */
  lemma FormPromptDecoded(body: string, lib: Library, j: nat)
    requires lib.parse(body).None?
    requires forall i :: 0 <= i ==> !MatchesAt(body, "input=", i)
    requires MatchesAt(body, "prompt=", j)
    ensures var raw := Capture(body, "prompt=").value;
      var decoded := lib.decodeUri(PlusToSpace(raw));
      && '&' !in raw
      && (decoded.None? ==> ReadInput(body, lib) == Threw)
      && (decoded.Some? ==> ReadInput(body, lib) == TrimmedInput(Some(JStr(decoded.value))))
  {
    assert Capture(body, "prompt=").Some?;
    assert FormValue(body) == Capture(body, "prompt=");
  }

  /** `{"input": "  hello  "}` yields `hello`. */
  lemma HelloExample(body: string, lib: Library)
    requires lib.parse(body) == Some(JObj(map["input" := JStr("  hello  ")]))
    ensures ReadInput(body, lib) == Text("hello")
  {
    var s := "  hello  ";
    TrimHello();
    assert !AllSpace(s) by { assert !IsJsSpace(s[2]); }
    JsonInputWins(body, lib, map["input" := JStr(s)], s);
  }
}
