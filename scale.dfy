/**
 * The Scale Spellbook adapter and its Fish variant, which relays the same
 * conversation through a third-party endpoint. Each sends one request whose
 * reply is classified by the Scale Spellbook handler.
 */
module ScaleSpellbook {
  import opened JsValues
  import opened Conversation
  import opened Payloads
  import opened Proxies
  import opened Responses
  import opened ProviderBase

  const FishRelayUrl: string := "https://fishtailprotocol.com/projects/betterGPT4/scale-api.php"

  /** How one request and its reply settle `sendRequest`: a fetch that fails
    * rejects, a reply resolves to what the handler made of it. */
  function SettleCall(call: Call): Run {
    match call
    case Waiting(ev) => Run(Pending, ev)
    case Raised(e, ev) => Run(Threw(e), ev)
    case Answered(json, _, ev) => Run(Returned(json), ev)
  }

  /** `ScaleSpellbookProvider.sendRequest`: every message's text, one per line, to
    * the configured URL through the proxy. */
  function ScaleSendRequest(config: Config, proxy: ProxyInstance, state: ConversationState, reply: Option<Reply>): Run {
    var target := ModifyUrl(proxy, Render(Field(config, "url")));
    SettleCall(CallApi(ScaleHandler, state, target, ScaleInput(ScaleText(state.messages)), reply))
  }

  /** `ScaleSpellbookFishProvider.sendRequest` as the class is declared: it extends
    * the abstract provider, so the inherited default answers and its own
    * `getResponse` is never reached. */
  function FishSendRequestAsWritten(config: Config, proxy: ProxyInstance, state: ConversationState,
                                    reply: Option<Reply>): Run {
    BaseSendRequest()
  }

  /** The Fish adapter as a Scale Spellbook subclass: the conversation, the key and
    * the Scale URL go to the relay, bypassing the proxy, and the relay's wrapped
    * answer is unwrapped before the Scale handler reads it. */
  function FishSendRequest(config: Config, proxy: ProxyInstance, state: ConversationState, reply: Option<Reply>): Run {
    var body := FishRelay(Field(config, "key"), Field(config, "url"), ScaleText(state.messages));
    SettleCall(CallApi(FishHandler, state, FishRelayUrl, body, reply))
  }

  /** A Scale run issues exactly one request, first, carrying every message's text
    * (empty ones included) one per line; it resolves to true exactly when it
    * raised one message, and that message is the last event, complete and with an
    * empty role; otherwise it resolves to false after one error, rejects because
    * the fetch failed, or is still waiting. */
  lemma ScaleRunShape(config: Config, proxy: ProxyInstance, state: ConversationState, reply: Option<Reply>)
    ensures var run := ScaleSendRequest(config, proxy, state, reply);
            |run.events| >= 1 &&
            run.events[0] == Request(ModifyUrl(proxy, Render(Field(config, "url"))), ScaleInput(ScaleText(state.messages))) &&
            (forall i :: 1 <= i < |run.events| ==> !run.events[i].Request?) &&
            (run.outcome == Pending <==> reply.None?) &&
            (run.outcome.Threw? <==> reply.Some? && reply.value.NetworkError?) &&
            (run.outcome.Returned? ==> run.outcome.value == Bool(true) || run.outcome.value == Bool(false)) &&
            (run.outcome == Returned(Bool(true)) <==> NotifyCount(run.events) == 1) &&
            (run.outcome == Returned(Bool(true)) ==>
               |run.events| == 2 && run.events[1].Notify? && run.events[1].mode == Complete && run.events[1].role == Str("")) &&
            (run.outcome == Returned(Bool(false)) ==> |run.events| == 2 && run.events[1].Error?)
  {
    var run := ScaleSendRequest(config, proxy, state, reply);
    if reply.Some? && reply.value.Received? {
      var response := reply.value.response;
      var handled := HandleJsonResponse(ScaleHandler, state, response);
      if response.body.Text? && response.body.parsed.Json? {
        var json := response.body.parsed.value;
        if json.Obj? {
          ScaleOutcome(json, state, response);
        }
      }
      assert handled.value == Bool(true) <==> handled.events != [] && handled.events[0].Notify?;
      assert run.events == [run.events[0]] + handled.events;
      assert NotifyCount(run.events) == NotifyCount(handled.events) by {
        assert run.events[1..] == handled.events;
      }
      if handled.events != [] {
        assert handled.events[1..] == [];
        assert NotifyCount(handled.events) == (if handled.events[0].Notify? then 1 else 0) + NotifyCount([]);
      }
    }
  }

  /** As written the Fish adapter never contacts anyone and resolves to the
    * abstract provider's "not implemented" object, whatever the conversation; and
    * even a reply would be lost, since its handler always throws. */
  lemma FishAsWrittenNeverAnswers(config: Config, proxy: ProxyInstance, state: ConversationState, reply: Option<Reply>,
                                  json: Value, response: HttpResponse)
    ensures FishSendRequestAsWritten(config, proxy, state, reply).events == []
    ensures Get(FishSendRequestAsWritten(config, proxy, state, reply).outcome.value, "error") ==
            Ok(Str("Provider not implemented"))
    ensures HandleJson(FishHandlerAsWritten, json, state, response).Throw?
  {
    PlaceholdersOnlyReportErrors();
    FishHandlerAsWrittenAlwaysThrows(json, state, response);
  }

  /** The Scale handler reads of the response only its status. */
  lemma ScaleHandlerSeesOnlyStatus(json: Value, state: ConversationState, r1: HttpResponse, r2: HttpResponse)
    requires r1.ok == r2.ok && r1.status == r2.status && r1.statusText == r2.statusText
    ensures HandleJson(ScaleHandler, json, state, r1) == HandleJson(ScaleHandler, json, state, r2)
  {
    assert HttpErrorSuffix(Some(r1)) == HttpErrorSuffix(Some(r2));
  }

  /** The corrected Fish adapter requests the relay (never through the proxy) and,
    * given a reply wrapping in `response` the object a direct Scale call received
    * with the same status, settles exactly as that Scale call. */
  lemma FishRelaysScale(config: Config, proxy: ProxyInstance, state: ConversationState,
                        ok: bool, status: nat, statusText: string, fishText: string, scaleText: string, inner: Value)
    requires inner.Obj?
    ensures var fish := FishSendRequest(config, proxy, state,
                          Some(Received(HttpResponse(ok, status, statusText, Text(fishText, Json(Obj(map["response" := inner])))))));
            var scale := ScaleSendRequest(config, proxy, state,
                          Some(Received(HttpResponse(ok, status, statusText, Text(scaleText, Json(inner))))));
            fish.events[0] == Request(FishRelayUrl, FishRelay(Field(config, "key"), Field(config, "url"), ScaleText(state.messages))) &&
            fish.outcome == scale.outcome && fish.events[1..] == scale.events[1..]
  {
    var fishResponse := HttpResponse(ok, status, statusText, Text(fishText, Json(Obj(map["response" := inner]))));
    var scaleResponse := HttpResponse(ok, status, statusText, Text(scaleText, Json(inner)));
    FishHandlerUnwraps(inner, state, fishResponse);
    ScaleHandlerSeesOnlyStatus(inner, state, fishResponse, scaleResponse);
    ScaleOutcome(inner, state, scaleResponse);
    var handled := HandleJson(ScaleHandler, inner, state, scaleResponse);
    assert handled.Ok?;
    assert HandleJsonResponse(FishHandler, state, fishResponse) == handled.value;
    assert HandleJsonResponse(ScaleHandler, state, scaleResponse) == handled.value;
  }
}
