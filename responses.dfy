/**
 * What every adapter shares once a reply arrives: the text of an error
 * notification (`raiseError`), the classification of a JSON body
 * (`handleJsonResponse` and the `handleJson` overrides), and one HTTP API call
 * of the SteamShip and ChatBotKit adapters (request, then classification).
 */
module Responses {
  import opened Text
  import opened JsValues
  import opened Conversation
  import opened Proxies

  // ---------------------------------------------------------------------------
  // Error text

  /** The HTTP suffix as the code writes it: `${status}${` ${statusText}`.trim()}`
    * trims the status text together with the space meant to separate it from the
    * code, so the two run together. */
  function HttpErrorSuffixAsWritten(response: Option<HttpResponse>): string {
    if response.None? || response.value.ok then ""
    else " (HTTP code: " + NatToString(response.value.status) + Trim(" " + response.value.statusText) + ")"
  }

  /** Whenever the status text has no surrounding whitespace, the code and the text
    * are glued together: a 404 "Not Found" reads "404Not Found". */
  lemma HttpErrorSuffixAsWrittenGluesStatus(response: HttpResponse)
    requires !response.ok && response.statusText != ""
    requires !IsWhiteSpace(response.statusText[0]) && !IsWhiteSpace(response.statusText[|response.statusText| - 1])
    ensures HttpErrorSuffixAsWritten(Some(response)) ==
            " (HTTP code: " + NatToString(response.status) + response.statusText + ")"
  {
    TrimOfSpaceThen(response.statusText);
  }

  /** Trimming a space put in front of an unpadded text gives the text back. */
  lemma TrimOfSpaceThen(t: string)
    requires t != [] && !IsWhiteSpace(t[0]) && !IsWhiteSpace(t[|t| - 1])
    ensures Trim(" " + t) == t
  {
    var s := " " + t;
    assert s[1..] == t;
    assert TrimStart(s) == TrimStart(t);
    assert TrimStart(t) == t;
    assert TrimEnd(t) == t;
  }

  lemma HttpErrorSuffixAsWrittenNotFound(r: HttpResponse)
    requires !r.ok && r.status == 404 && r.statusText == "Not Found"
    ensures HttpErrorSuffixAsWritten(Some(r)) == " (HTTP code: " + "404" + "Not Found" + ")"
  {
    var t := r.statusText;
    assert !IsWhiteSpace(t[0]) && !IsWhiteSpace(t[|t| - 1]);
    HttpErrorSuffixAsWrittenGluesStatus(r);
    NatToString404();
  }

  lemma NatToString404()
    ensures NatToString(404) == "404"
  {
    assert NatToString(4) == "4";
    assert NatToString(40) == "40";
  }

  /** The HTTP suffix as intended: the code, then the status text after one space
    * when there is one; nothing for a missing or successful response. */
  function HttpErrorSuffix(response: Option<HttpResponse>): (r: string)
    ensures r == "" <==> response.None? || response.value.ok
  {
    if response.None? || response.value.ok then ""
    else " (HTTP code: " + Trim(NatToString(response.value.status) + " " + response.value.statusText) + ")"
  }

  lemma {:induction false} TrimEndOfSpaced(d: string)
    requires d != [] && !IsWhiteSpace(d[|d| - 1])
    ensures TrimEnd(d + " ") == d
  {
    assert (d + " ")[..|d + " "| - 1] == d;
  }

  lemma HttpErrorSuffixSeparatesStatus(response: HttpResponse)
    requires !response.ok
    requires response.statusText == [] ||
             (!IsWhiteSpace(response.statusText[0]) && !IsWhiteSpace(response.statusText[|response.statusText| - 1]))
    ensures HttpErrorSuffix(Some(response)) ==
            " (HTTP code: " +
            (if response.statusText == "" then NatToString(response.status)
             else NatToString(response.status) + " " + response.statusText) + ")"
  {
    var d := NatToString(response.status);
    DigitsUnpadded(d);
    StatusLine(d, response.statusText);
  }

  /** The code and status text joined by a space and trimmed: the code alone for
    * an empty text, otherwise the code, a space and the text. */
  lemma StatusLine(d: string, t: string)
    requires d != [] && !IsWhiteSpace(d[0]) && !IsWhiteSpace(d[|d| - 1])
    requires t == [] || (!IsWhiteSpace(t[0]) && !IsWhiteSpace(t[|t| - 1]))
    ensures Trim(d + " " + t) == if t == "" then d else d + " " + t
  {
    var s := d + " " + t;
    if t == "" {
      assert s == d + " ";
      TrimOfDigitsSpace(d);
    } else {
      assert s[0] == d[0];
      assert s[|s| - 1] == t[|t| - 1];
      TrimOfUnpadded(s);
    }
  }

  lemma DigitsUnpadded(d: string)
    requires |d| > 0 && forall i :: 0 <= i < |d| ==> '0' <= d[i] <= '9'
    ensures !IsWhiteSpace(d[0]) && !IsWhiteSpace(d[|d| - 1])
  {
  }

  lemma TrimOfDigitsSpace(d: string)
    requires d != [] && !IsWhiteSpace(d[0]) && !IsWhiteSpace(d[|d| - 1])
    ensures Trim(d + " ") == d
  {
    var s := d + " ";
    assert s[0] == d[0];
    assert TrimStart(s) == s;
    TrimEndOfSpaced(d);
  }

  /** The `text` of an error notification. */
  function ErrorText(errorMessage: string, error: JsError, state: ConversationState,
                     response: Option<HttpResponse>): string {
    errorMessage + state.extraText + ": " + error.message + HttpErrorSuffix(response)
  }

  /** The error text always starts with the message, the caller's extra text and
    * the exception's message; something follows exactly when there is a response
    * and it is not ok. */
  lemma ErrorTextSuffixOnlyOnFailure(errorMessage: string, error: JsError, state: ConversationState,
                                     response: Option<HttpResponse>)
    ensures var lead := errorMessage + state.extraText + ": " + error.message;
            var t := ErrorText(errorMessage, error, state, response);
            |lead| <= |t| && t[..|lead|] == lead &&
            (t == lead <==> response.None? || response.value.ok)
  {
    var lead := errorMessage + state.extraText + ": " + error.message;
    assert ErrorText(errorMessage, error, state, response) == lead + HttpErrorSuffix(response);
  }

  // ---------------------------------------------------------------------------
  // handleJson

  /** The error of an abstract method left unimplemented (the typo is the code's). */
  const NotImplemented: JsError := JsError("Method handleJson not impleented")

  /** The `handleJson` an adapter class has. */
  datatype JsonHandler =
    | BaseHandler           // AIProvider: abstract
    | NatDevHandler         // passes the body through
    | SteamShipHandler
    | ScaleHandler
    | ChatBotKitHandler
    | FishHandlerAsWritten  // unwraps `response`, then the abstract one
    | FishHandler           // unwraps `response`, then Scale Spellbook's

  /** What a handler resolves to, and what it notified on the way. */
  datatype Handled = Handled(value: Value, events: seq<Event>)

  /** The SteamShip failure message: `"<code>: <message>"`, or the message alone
    * when the code is null or missing. */
  function FailedStatusText(code: Value, message: Value): string {
    (if !IsNullish(code) then Render(code) + ": " else "") + Render(message)
  }

  function HandleJson(h: JsonHandler, json: Value, state: ConversationState, response: HttpResponse): (r: Result<Handled>)
    ensures r.Ok? ==> |r.value.events| <= 1
    ensures r.Ok? && r.value.events != [] ==> r.value.events[0].Error? || r.value.events[0].Notify?
    ensures r.Ok? && r.value.events != [] && r.value.events[0].Error? ==> r.value.value == Bool(false)
    ensures r.Ok? && r.value.events == [] ==> r.value.value == json
    ensures r.Ok? && r.value.events != [] && r.value.events[0].Notify? ==>
              r.value.value == Bool(true) && r.value.events[0].mode == Complete
    ensures h == BaseHandler ==> r == Throw(NotImplemented)
    ensures h == NatDevHandler ==> r == Ok(Handled(json, []))
    decreases if h == FishHandler then 1 else 0
  {
    match h
    case BaseHandler => Throw(NotImplemented)
    case NatDevHandler => Ok(Handled(json, []))
    case SteamShipHandler =>
      var status := OptGet(json, "status");
      if LooseEq(OptGet(status, "state"), Str("failed")) then
        var text := FailedStatusText(OptGet(status, "statusCode"), OptGet(status, "statusMessage"));
        Ok(Handled(Bool(false), [Error(ErrorText("Received error message", JsError(text), state, Some(response)))]))
      else Ok(Handled(json, []))
    case ScaleHandler =>
      (match Get(json, "output")
       case Throw(e) => Throw(e)
       case Ok(output) =>
         var message := OptGet(json, "message");
         if IsNullish(output) || !IsNullish(message) then
           var text := if Truthy(message) then Render(message) else "Unknown";
           Ok(Handled(Bool(false), [Error(ErrorText("Received error message", JsError(text), state, Some(response)))]))
         else Ok(Handled(Bool(true), [Notify(output, Str(""), Complete)])))
    case ChatBotKitHandler =>
      (match Get(json, "message")
       case Throw(e) => Throw(e)
       case Ok(message) =>
         if !IsNullish(message) then
           var text := Render(OptGet(json, "code")) + ": " + Render(message);
           Ok(Handled(Bool(false), [Error(ErrorText("Received error message", JsError(text), state, Some(response)))]))
         else Ok(Handled(json, [])))
    case FishHandlerAsWritten =>
      (match Get(json, "response")
       case Throw(e) => Throw(e)
       case Ok(_) => Throw(NotImplemented))
    case FishHandler =>
      (match Get(json, "response")
       case Throw(e) => Throw(e)
       case Ok(inner) => HandleJson(ScaleHandler, inner, state, response))
  }

  /** A SteamShip status whose state is "failed" becomes one error notification
    * carrying `"<code>: <message>"` (or the message alone without a code) and
    * resolves to false; any other status passes the body through untouched. */
  lemma SteamShipFailedStatus(json: Value, state: ConversationState, response: HttpResponse)
    ensures var status := OptGet(json, "status");
            var r := HandleJson(SteamShipHandler, json, state, response);
            r.Ok? &&
            (LooseEq(OptGet(status, "state"), Str("failed")) ==>
               var code := OptGet(status, "statusCode");
               var message := Render(OptGet(status, "statusMessage"));
               r.value.value == Bool(false) &&
               r.value.events == [Error(ErrorText("Received error message",
                   JsError(if IsNullish(code) then message else Render(code) + ": " + message), state, Some(response)))]) &&
            (!LooseEq(OptGet(status, "state"), Str("failed")) ==> r.value == Handled(json, []))
  {
    var status := OptGet(json, "status");
    var code := OptGet(status, "statusCode");
    var message := Render(OptGet(status, "statusMessage"));
    assert FailedStatusText(code, OptGet(status, "statusMessage")) ==
           if IsNullish(code) then message else Render(code) + ": " + message;
  }

  /** Scale Spellbook: an answer with an `output` and no `message` is one complete
    * message with that output and an empty role, and resolves to true; anything
    * else is an error carrying the message, or "Unknown", and resolves to false. */
  lemma ScaleOutcome(json: Value, state: ConversationState, response: HttpResponse)
    requires json.Obj?
    ensures var r := HandleJson(ScaleHandler, json, state, response);
            var output := Field(json.fields, "output");
            var message := Field(json.fields, "message");
            r.Ok? &&
            (!IsNullish(output) && IsNullish(message) ==>
               r.value == Handled(Bool(true), [Notify(output, Str(""), Complete)])) &&
            (IsNullish(output) || !IsNullish(message) ==>
               r.value.value == Bool(false) &&
               r.value.events == [Error(ErrorText("Received error message",
                   JsError(if Truthy(message) then Render(message) else "Unknown"), state, Some(response)))])
  {
  }

  /** ChatBotKit: a body carrying a `message` is an error `"<code>: <message>"` and
    * resolves to false; any other object passes through. */
  lemma ChatBotKitOutcome(json: Value, state: ConversationState, response: HttpResponse)
    requires json.Obj?
    ensures var r := HandleJson(ChatBotKitHandler, json, state, response);
            var message := Field(json.fields, "message");
            r.Ok? &&
            (!IsNullish(message) ==>
               r.value == Handled(Bool(false), [Error(ErrorText("Received error message",
                   JsError(Render(Field(json.fields, "code")) + ": " + Render(message)), state, Some(response)))])) &&
            (IsNullish(message) ==> r.value == Handled(json, []))
  {
  }

  /** The Fish proxy as written can never succeed: whatever the body, its handler
    * either fails to read `response` or reaches the abstract method. */
  lemma FishHandlerAsWrittenAlwaysThrows(json: Value, state: ConversationState, response: HttpResponse)
    ensures HandleJson(FishHandlerAsWritten, json, state, response).Throw?
    ensures !IsNullish(json) ==> HandleJson(FishHandlerAsWritten, json, state, response) == Throw(NotImplemented)
  {
  }

  /** The corrected Fish handler is Scale Spellbook's handler applied to the
    * wrapped answer. */
  lemma FishHandlerUnwraps(inner: Value, state: ConversationState, response: HttpResponse)
    ensures HandleJson(FishHandler, Obj(map["response" := inner]), state, response) ==
            HandleJson(ScaleHandler, inner, state, response)
    ensures inner.Obj? && "output" in inner.fields && inner.fields["output"] == Str("hi") && "message" !in inner.fields ==>
            HandleJson(FishHandler, Obj(map["response" := inner]), state, response) ==
            Ok(Handled(Bool(true), [Notify(Str("hi"), Str(""), Complete)]))
  {
    FishHandlerReadsResponse(inner, state, response);
  }

  lemma FishHandlerReadsResponse(inner: Value, state: ConversationState, response: HttpResponse)
    ensures HandleJson(FishHandler, Obj(map["response" := inner]), state, response) ==
            HandleJson(ScaleHandler, inner, state, response)
  {
    assert Field(map["response" := inner], "response") == inner;
  }

  // ---------------------------------------------------------------------------
  // handleJsonResponse

  /** The longest body quoted in a parse-failure message. */
  const QuotedBodyLimit: nat := 4096

  /** The lead of a parse-failure message: the body itself when short enough. */
  function ParseFailureLead(text: string): (r: string)
    ensures |r| <= QuotedBodyLimit
    ensures |text| <= QuotedBodyLimit ==> r == text
    ensures |text| > QuotedBodyLimit ==> r == "Failed to parse message"
  {
    if |text| > QuotedBodyLimit then "Failed to parse message" else text
  }

  /** `handleJsonResponse`: read the body, parse it, hand it to the adapter's
    * handler; any failure on the way is one error notification and false. */
  function HandleJsonResponse(h: JsonHandler, state: ConversationState, response: HttpResponse): (r: Handled)
    ensures |r.events| <= 1
    ensures r.events != [] ==> r.events[0].Error? || r.events[0].Notify?
    ensures r.events != [] && r.events[0].Error? ==> r.value == Bool(false)
    ensures response.body.Unreadable? ==>
              r == Handled(Bool(false), [Error(ErrorText("Failed to decode message", response.body.error, state, Some(response)))])
    ensures response.body.Text? && response.body.parsed.Malformed? ==>
              r == Handled(Bool(false), [Error(ErrorText(ParseFailureLead(response.body.text),
                                                          response.body.parsed.error, state, Some(response)))])
    ensures response.body.Text? && response.body.parsed.Json? &&
            HandleJson(h, response.body.parsed.value, state, response).Ok? ==>
              r == HandleJson(h, response.body.parsed.value, state, response).value
    ensures response.body.Text? && response.body.parsed.Json? &&
            HandleJson(h, response.body.parsed.value, state, response).Throw? ==>
              r == Handled(Bool(false), [Error(ErrorText(ParseFailureLead(response.body.text),
                  HandleJson(h, response.body.parsed.value, state, response).error, state, Some(response)))])
  {
    match response.body
    case Unreadable(e) =>
      Handled(Bool(false), [Error(ErrorText("Failed to decode message", e, state, Some(response)))])
    case Text(text, parsed) =>
      var outcome := if parsed.Malformed? then Throw(parsed.error) else HandleJson(h, parsed.value, state, response);
      if outcome.Ok? then outcome.value
      else Handled(Bool(false), [Error(ErrorText(ParseFailureLead(text), outcome.error, state, Some(response)))])
  }

  // ---------------------------------------------------------------------------
  // One API call

  /** `new URL(path, base)` for a relative path of plain segments: the base up to
    * and including its last "/", then the path. */
  function ResolveUrl(path: string, base: string): (r: string)
    ensures |base| > 0 && base[|base| - 1] == '/' ==> r == base + path
  {
    BaseDirectory(base) + path
  }

  function BaseDirectory(base: string): (r: string)
    ensures |r| <= |base| && r == base[..|r|]
    ensures r == [] || r[|r| - 1] == '/'
    ensures forall i :: |r| <= i < |base| ==> base[i] != '/'
  {
    if base == [] || base[|base| - 1] == '/' then base else BaseDirectory(base[..|base| - 1])
  }

  /** `this.config.url || fallback`, as text. */
  function BaseUrl(config: Config, fallback: string): string {
    if Truthy(Field(config, "url")) then Render(Field(config, "url")) else fallback
  }

  /** The URL an adapter's `callApi` fetches for an API path. */
  function ApiUrl(proxy: ProxyInstance, config: Config, fallback: string, path: string): string {
    ModifyUrl(proxy, ResolveUrl(path, BaseUrl(config, fallback)))
  }

  /** How one `callApi` settles: the classified body with the response it came
    * in, the exception the fetch rejected with, or no reply yet. Each carries
    * the events of the call, starting with its request. */
  datatype Call =
    | Answered(json: Value, response: HttpResponse, events: seq<Event>)
    | Raised(error: JsError, events: seq<Event>)
    | Waiting(events: seq<Event>)

  /** `callApi`: issue the request, then classify the reply. */
  function CallApi(h: JsonHandler, state: ConversationState, target: string, body: Payload,
                   reply: Option<Reply>): (c: Call)
    ensures |c.events| >= 1 && c.events[0] == Request(target, body)
    ensures c.Waiting? <==> reply.None?
    ensures c.Raised? <==> reply.Some? && reply.value.NetworkError?
    ensures c.Answered? ==>
              var handled := HandleJsonResponse(h, state, reply.value.response);
              c.json == handled.value && c.response == reply.value.response &&
              c.events == [Request(target, body)] + handled.events
  {
    var request := Request(target, body);
    match reply
    case None => Waiting([request])
    case Some(NetworkError(e)) => Raised(e, [request])
    case Some(Received(response)) =>
      var handled := HandleJsonResponse(h, state, response);
      Answered(handled.value, response, [request] + handled.events)
  }

  /** An API call logs nothing: after its request it raises at most one error or
    * message. */
  lemma CallApiLogsNothing(h: JsonHandler, state: ConversationState, target: string, body: Payload,
                           reply: Option<Reply>)
    ensures var c := CallApi(h, state, target, body, reply);
            |c.events| <= 2 && LogTexts(c.events) == [] &&
            forall i :: 1 <= i < |c.events| ==> c.events[i].Error? || c.events[i].Notify?
  {
    var c := CallApi(h, state, target, body, reply);
    var request := Request(target, body);
    assert [request][1..] == [];
    if c.Answered? {
      var handled := HandleJsonResponse(h, state, reply.value.response);
      LogTextsAppend([request], handled.events);
      if handled.events != [] {
        assert handled.events[1..] == [];
      }
    }
  }

  /** The ChatBotKit handler never raises a message: whatever it notifies is an error. */
  lemma ChatBotKitRaisesOnlyErrors(state: ConversationState, response: HttpResponse)
    ensures var handled := HandleJsonResponse(ChatBotKitHandler, state, response);
            forall i :: 0 <= i < |handled.events| ==> handled.events[i].Error?
  {
    if response.body.Text? && response.body.parsed.Json? {
      var json := response.body.parsed.value;
      var r := HandleJson(ChatBotKitHandler, json, state, response);
      assert r.Ok? && r.value.events != [] ==> r.value.events[0].Error?;
    }
  }
}
