/**
 * The ChatBotKit adapter: create a conversation carrying the backstory and the
 * earlier messages, send the last message, receive the answer, and delete the
 * conversation again whatever happened after it was created. The answer is
 * raised only once the delete call has settled. The network is a script of
 * replies consumed in order; the Pusher connection of the streaming mode is
 * reduced to whether connecting threw, and the channel id it subscribes to is
 * a parameter.
 */
module ChatBotKitAdapter {
  import opened Text
  import opened JsValues
  import opened Conversation
  import opened Payloads
  import opened Proxies
  import opened Responses

  const ChatBotKitBase: string := "https://api.chatbotkit.com/v1/"

  // ---------------------------------------------------------------------------
  // The call name in a log line

  /** A character `.` does not match in a JavaScript regular expression. */
  predicate IsLineTerminator(c: char) {
    c == '\n' || c == '\r' || c == '\U{2028}' || c == '\U{2029}'
  }

  /** The first position at or after `from` holding `c`, or the length. */
  function FirstSlash(s: string, from: nat): (r: nat)
    requires from <= |s|
    ensures from <= r <= |s|
    ensures forall i :: from <= i < r ==> s[i] != '/'
    ensures r < |s| ==> s[r] == '/'
    decreases |s| - from
  {
    if from == |s| then |s| else if s[from] == '/' then from else FirstSlash(s, from + 1)
  }

  /** The first line terminator at or after `from`, or the length. */
  function LineEnd(s: string, from: nat): (r: nat)
    requires from <= |s|
    ensures from <= r <= |s|
    ensures forall i :: from <= i < r ==> !IsLineTerminator(s[i])
    ensures r < |s| ==> IsLineTerminator(s[r])
    decreases |s| - from
  {
    if from == |s| then |s| else if IsLineTerminator(s[from]) then from else LineEnd(s, from + 1)
  }

  /** The last "/" in `s[lo..hi]`, if any. */
  function LastSlash(s: string, lo: nat, hi: nat): (r: Option<nat>)
    requires lo <= hi <= |s|
    ensures r.Some? ==> lo <= r.value < hi && s[r.value] == '/'
    ensures r.Some? ==> forall i :: r.value < i < hi ==> s[i] != '/'
    ensures r.None? ==> (forall i :: lo <= i < hi ==> s[i] != '/')
    decreases hi
  {
    if hi == lo then None else if s[hi - 1] == '/' then Some(hi - 1) else LastSlash(s, lo, hi - 1)
  }

  /** `apiPath.replace(/\/(.*\/)?/, ' - ')`: from the first "/" up to the last "/"
    * on the same line becomes " - ". */
  function TaskName(path: string): string {
    var i := FirstSlash(path, 0);
    if i == |path| then path
    else
      var end := LineEnd(path, i + 1);
      var j := match LastSlash(path, i + 1, end) case None => i + 1 case Some(l) => l + 1;
      path[..i] + " - " + path[j..]
  }

  predicate NoSlash(s: string) {
    forall i :: 0 <= i < |s| ==> s[i] != '/'
  }

  predicate OneLine(s: string) {
    forall i :: 0 <= i < |s| ==> !IsLineTerminator(s[i])
  }

  lemma FirstSlashAfterHead(head: string, rest: string)
    requires NoSlash(head) && |rest| > 0 && rest[0] == '/'
    ensures FirstSlash(head + rest, 0) == |head|
  {
    var s := head + rest;
    assert s[|head|] == '/';
    assert forall i :: 0 <= i < |head| ==> s[i] == head[i];
  }

  lemma LineEndOfOneLine(s: string, from: nat)
    requires from <= |s| && OneLine(s[from..])
    ensures LineEnd(s, from) == |s|
  {
  }

  lemma LastSlashBeforeTail(s: string, from: nat, tail: string)
    requires |tail| < |s| && from <= |s| - |tail| - 1
    requires s[|s| - |tail| - 1] == '/' && s[|s| - |tail|..] == tail && NoSlash(tail)
    ensures LastSlash(s, from, |s|) == Some(|s| - |tail| - 1)
  {
    var k := |s| - |tail| - 1;
    assert forall i :: k < i < |s| ==> s[i] == tail[i - k - 1];
  }

  /** `"a/b"` is named `"a - b"`. */
  lemma TaskNameOfAction(head: string, action: string)
    requires NoSlash(head) && NoSlash(action)
    ensures TaskName(head + "/" + action) == head + " - " + action
  {
    var path := head + "/" + action;
    assert path == head + ("/" + action);
    FirstSlashAfterHead(head, "/" + action);
    var i := |head|;
    var end := LineEnd(path, i + 1);
    assert path[i + 1..] == action;
    assert LastSlash(path, i + 1, end).None?;
    assert path[..i] == head;
  }

  /** `"a/<id>/b"` is named `"a - b"` whatever the id, as long as it stays on one
    * line; a line break in the id cuts the match short. */
  lemma TaskNameOfConversationCall(head: string, id: string, action: string)
    requires NoSlash(head) && NoSlash(action) && OneLine(id) && OneLine(action)
    ensures TaskName(head + "/" + id + "/" + action) == head + " - " + action
  {
    var path := head + "/" + id + "/" + action;
    var i := |head|;
    assert path == head + ("/" + id + "/" + action);
    FirstSlashAfterHead(head, "/" + id + "/" + action);
    assert path[i + 1..] == id + "/" + action;
    assert OneLine(path[i + 1..]) by {
      var t := path[i + 1..];
      forall m | 0 <= m < |t| ensures !IsLineTerminator(t[m]) {
        if m < |id| { assert t[m] == id[m]; }
        else if m > |id| { assert t[m] == action[m - |id| - 1]; }
      }
    }
    LineEndOfOneLine(path, i + 1);
    assert path[|path| - |action|..] == action;
    LastSlashBeforeTail(path, i + 1, action);
    assert path[..i] == head;
  }

  // ---------------------------------------------------------------------------
  // One API call

  function ConversationPath(convId: Value, action: string): string {
    "conversation" + "/" + Render(convId) + "/" + action
  }

  /** `callApi`: the request, the classification of its reply, and, when the reply
    * was not rejected and the call is logged, "Sending message (done: <task>)". */
  function KitCall(config: Config, proxy: ProxyInstance, state: ConversationState, path: string, body: Payload,
                   reply: Option<Reply>, logged: bool): (c: Call)
    ensures |c.events| >= 1 && c.events[0] == Request(ApiUrl(proxy, config, ChatBotKitBase, path), body)
    ensures forall i :: 1 <= i < |c.events| ==> !c.events[i].Request? && !c.events[i].Notify?
    ensures c.Waiting? <==> reply.None?
  {
    var call := CallApi(ChatBotKitHandler, state, ApiUrl(proxy, config, ChatBotKitBase, path), body, reply);
    if call.Answered? then
      ChatBotKitRaisesOnlyErrors(state, call.response);
      var log := if call.json != Bool(false) && logged then [Log("Sending message (done: " + TaskName(path) + ")")] else [];
      Answered(call.json, call.response, call.events + log)
    else call
  }

  /** What the adapter's `callApi` adds to the shared one: its answer is the
    * shared call's, and it logs "Sending message (done: <task>)" exactly when the
    * answer is not false and the call is logged; nothing else is logged. */
  lemma KitCallLogs(config: Config, proxy: ProxyInstance, state: ConversationState, path: string, body: Payload,
                    reply: Option<Reply>, logged: bool)
    ensures var c := KitCall(config, proxy, state, path, body, reply, logged);
            var call := CallApi(ChatBotKitHandler, state, ApiUrl(proxy, config, ChatBotKitBase, path), body, reply);
            (c.Answered? <==> call.Answered?) && (!c.Answered? ==> c == call) &&
            (c.Answered? ==> c.json == call.json && c.response == call.response && c.events[..|call.events|] == call.events)
    ensures var c := KitCall(config, proxy, state, path, body, reply, logged);
            c.Answered? ==>
              LogTexts(c.events) ==
              if c.json != Bool(false) && logged then ["Sending message (done: " + TaskName(path) + ")"] else []
  {
    var url := ApiUrl(proxy, config, ChatBotKitBase, path);
    var call := CallApi(ChatBotKitHandler, state, url, body, reply);
    CallApiLogsNothing(ChatBotKitHandler, state, url, body, reply);
    if call.Answered? {
      var log := if call.json != Bool(false) && logged then [Log("Sending message (done: " + TaskName(path) + ")")] else [];
      CallLogged(call.events, log);
    }
  }

  /** A logged call to "<head>/<action>" logs "Sending message (done: <head> - <action>)". */
  lemma LoggedTaskName(config: Config, proxy: ProxyInstance, state: ConversationState, head: string, action: string,
                       body: Payload, reply: Option<Reply>)
    requires NoSlash(head) && NoSlash(action)
    ensures var c := KitCall(config, proxy, state, head + "/" + action, body, reply, true);
            c.Answered? && c.json != Bool(false) ==>
              LogTexts(c.events) == ["Sending message (done: " + head + " - " + action + ")"]
  {
    KitCallLogs(config, proxy, state, head + "/" + action, body, reply, true);
    TaskNameOfAction(head, action);
    var lead := "Sending message (done: ";
    assert lead + (head + " - " + action) == lead + head + " - " + action;
  }

  /** A logged call to "<head>/<id>/<action>", with the id on one line, logs
    * "Sending message (done: <head> - <action>)", whatever the id. */
  lemma LoggedIdCall(config: Config, proxy: ProxyInstance, state: ConversationState, head: string, id: string,
                     action: string, body: Payload, reply: Option<Reply>)
    requires NoSlash(head) && NoSlash(action) && OneLine(action) && OneLine(id)
    ensures var c := KitCall(config, proxy, state, head + "/" + id + "/" + action, body, reply, true);
            c.Answered? && c.json != Bool(false) ==>
              LogTexts(c.events) == ["Sending message (done: " + head + " - " + action + ")"]
  {
    KitCallLogs(config, proxy, state, head + "/" + id + "/" + action, body, reply, true);
    TaskNameOfConversationCall(head, id, action);
    var lead := "Sending message (done: ";
    assert lead + (head + " - " + action) == lead + head + " - " + action;
  }

  /** A logged call on a conversation whose id renders on one line logs
    * "Sending message (done: conversation - <action>)", whatever the id. */
  lemma LoggedConversationCall(config: Config, proxy: ProxyInstance, state: ConversationState, convId: Value,
                               action: string, body: Payload, reply: Option<Reply>)
    requires NoSlash(action) && OneLine(action) && OneLine(Render(convId))
    ensures var c := KitCall(config, proxy, state, ConversationPath(convId, action), body, reply, true);
            c.Answered? && c.json != Bool(false) ==>
              LogTexts(c.events) == ["Sending message (done: " + "conversation" + " - " + action + ")"]
  {
    LoggedIdCall(config, proxy, state, "conversation", Render(convId), action, body, reply);
  }

  /** A call's events, which log nothing, followed by at most one log. */
  lemma CallLogged(ev: seq<Event>, log: seq<Event>)
    requires LogTexts(ev) == [] && |log| <= 1 && forall i :: 0 <= i < |log| ==> log[i].Log?
    ensures LogTexts(ev + log) == if log == [] then [] else [log[0].message]
    ensures (ev + log)[..|ev|] == ev
  {
    LogTextsAppend(ev, log);
    if log != [] {
      assert log[1..] == [];
    }
  }

  /** Nothing the calls do is a message notification or a further request. */
  lemma NoNotifyAfterFirst(ev: seq<Event>)
    requires forall i :: 1 <= i < |ev| ==> !ev[i].Notify?
    requires |ev| >= 1 && !ev[0].Notify?
    ensures NotifyCount(ev) == 0
  {
    NoNotify(ev);
  }

  lemma {:induction false} NoNotify(ev: seq<Event>)
    requires forall i :: 0 <= i < |ev| ==> !ev[i].Notify?
    ensures NotifyCount(ev) == 0
    decreases |ev|
  {
    if ev != [] {
      NoNotify(ev[1..]);
    }
  }

  // ---------------------------------------------------------------------------
  // The lifecycle

  /** How the `try` block left: still waiting for a reply, or on its way to the
    * `finally` with what it would return or throw (nothing when it ran to its
    * end), the message it prepared, its events and the next reply's index. */
  datatype Attempt =
    | Stuck(events: seq<Event>)
    | Left(abrupt: Option<Outcome>, message: Option<Event>, events: seq<Event>, next: nat)

  /** The `try` block: send the last message, then receive the answer. */
  function TryBlock(config: Config, proxy: ProxyInstance, state: ConversationState, convId: Value,
                    replies: seq<Reply>, pusher: Option<JsError>, channel: string): (a: Attempt)
    ensures a.Left? && a.message.Some? ==> a.message.value.Notify?
    ensures a.Left? ==> (a.abrupt.None? <==> a.message.Some?)
    ensures a.Left? && a.abrupt.Some? ==> a.abrupt.value.Threw? || a.abrupt.value == Returned(Bool(false))
    ensures NotifyCount(a.events) == 0
  {
    match NewMessage(state.messages)
    case None =>
      Left(Some(Threw(ReadError(Undefined, "text"))), None, [], 1)
    case Some(m) =>
      var send := KitCall(config, proxy, state, ConversationPath(convId, "send"), ChatBotKitSend(TextOf(m)),
                          ReplyAt(replies, 1), true);
      NoNotifyAfterFirst(send.events);
      match send
      case Waiting(ev) => Stuck(ev)
      case Raised(e, ev) => Left(Some(Threw(e)), None, ev, 2)
      case Answered(json, _, ev) =>
        if json == Bool(false) then Left(Some(Returned(Bool(false))), None, ev, 2)
        else AfterSend(config, proxy, state, convId, replies, pusher, channel, ev)
  }

  /** The rest of the `try` block once the message was sent, after the events `ev`:
    * connect to Pusher when streaming, then the receive call, then read its answer. */
  function AfterSend(config: Config, proxy: ProxyInstance, state: ConversationState, convId: Value,
                     replies: seq<Reply>, pusher: Option<JsError>, channel: string, ev: seq<Event>): (a: Attempt)
    requires NotifyCount(ev) == 0
    ensures a.Left? && a.message.Some? ==> a.message.value.Notify?
    ensures a.Left? ==> (a.abrupt.None? <==> a.message.Some?)
    ensures a.Left? && a.abrupt.Some? ==> a.abrupt.value.Threw? || a.abrupt.value == Returned(Bool(false))
    ensures NotifyCount(a.events) == 0
  {
    var stream := Truthy(Field(config, "stream"));
    if stream && pusher.Some? then
      var failed := [Error(ErrorText("Failed to receive message", pusher.value, state, None))];
      NotifyCountAppend(ev, failed);
      Left(Some(Returned(Bool(false))), None, ev + failed, 2)
    else
      var receive := KitCall(config, proxy, state, ConversationPath(convId, "receive"),
                             ChatBotKitReceive(if stream then Some(channel) else None), ReplyAt(replies, 2), true);
      NoNotifyAfterFirst(receive.events);
      NotifyCountAppend(ev, receive.events);
      match receive
      case Waiting(ev2) => Stuck(ev + ev2)
      case Raised(e, ev2) => Left(Some(Threw(e)), None, ev + ev2, 3)
      case Answered(json2, _, ev2) =>
        if stream then Left(None, Some(Notify(Str(""), Str("bot"), Done)), ev + ev2, 3)
        else if json2 == Bool(false) then Left(Some(Returned(Bool(false))), None, ev + ev2, 3)
        else match Get(json2, "text")
          case Throw(e) => Left(Some(Threw(e)), None, ev + ev2, 3)
          case Ok(text) => Left(None, Some(Notify(text, Str("bot"), Complete)), ev + ev2, 3)
  }

  function MessageEvents(message: Option<Event>): seq<Event> {
    if message.Some? then [message.value] else []
  }

  /** The `finally` block: delete the conversation, then raise the prepared
    * message whether or not the delete threw; a throw from the delete replaces
    * whatever the `try` block was returning or throwing. */
  function Finally(config: Config, proxy: ProxyInstance, state: ConversationState, convId: Value,
                   replies: seq<Reply>, abrupt: Option<Outcome>, message: Option<Event>, next: nat): Run
  {
    var delete := KitCall(config, proxy, state, ConversationPath(convId, "delete"), ChatBotKitDelete,
                          ReplyAt(replies, next), false);
    match delete
    case Waiting(ev) => Run(Pending, ev)
    case Raised(e, ev) => Run(Threw(e), ev + MessageEvents(message))
    case Answered(_, _, ev) =>
      Run(if abrupt.Some? then abrupt.value else Returned(Bool(true)), ev + MessageEvents(message))
  }

  /** Everything after the conversation was created: the `try` and its `finally`. */
  function Converse(config: Config, proxy: ProxyInstance, state: ConversationState, convId: Value,
                    replies: seq<Reply>, pusher: Option<JsError>, channel: string): Run
  {
    match TryBlock(config, proxy, state, convId, replies, pusher, channel)
    case Stuck(ev) => Run(Pending, ev)
    case Left(abrupt, message, ev, next) =>
      var fin := Finally(config, proxy, state, convId, replies, abrupt, message, next);
      Run(fin.outcome, ev + fin.events)
  }

  /** The create call of `sendRequest`. */
  function CreateCall(config: Config, proxy: ProxyInstance, state: ConversationState, replies: seq<Reply>): Call {
    KitCall(config, proxy, state, "conversation/create", CreatePayload(config, state.messages), ReplyAt(replies, 0), true)
  }

  /** The specification of `sendRequest`: the create call outside the `try`, the
    * rest only once a conversation id was read. */
  function ChatBotKitRun(config: Config, proxy: ProxyInstance, state: ConversationState, replies: seq<Reply>,
                         pusher: Option<JsError>, channel: string): Run
  {
    match CreateCall(config, proxy, state, replies)
    case Waiting(ev) => Run(Pending, ev)
    case Raised(e, ev) => Run(Threw(e), ev)
    case Answered(json, _, ev) =>
      if json == Bool(false) then Run(Returned(Bool(false)), ev)
      else match Get(json, "id")
        case Throw(e) => Run(Threw(e), ev)
        case Ok(convId) =>
          var rest := Converse(config, proxy, state, convId, replies, pusher, channel);
          Run(rest.outcome, ev + rest.events)
  }

  /** The `try` block of `sendRequest`. */
  method SendAndReceive(config: Config, proxy: ProxyInstance, state: ConversationState, convId: Value,
                        replies: seq<Reply>, pusher: Option<JsError>, channel: string)
    returns (a: Attempt)
    ensures a == TryBlock(config, proxy, state, convId, replies, pusher, channel)
  {
    var newMessage := NewMessage(state.messages);
    if newMessage.None? {
      return Left(Some(Threw(ReadError(Undefined, "text"))), None, [], 1);
    }
    var send := KitCall(config, proxy, state, ConversationPath(convId, "send"), ChatBotKitSend(TextOf(newMessage.value)),
                        ReplyAt(replies, 1), true);
    var events := send.events;
    if send.Waiting? {
      return Stuck(events);
    } else if send.Raised? {
      return Left(Some(Threw(send.error)), None, events, 2);
    } else if send.json == Bool(false) {
      return Left(Some(Returned(Bool(false))), None, events, 2);
    }
    NoNotifyAfterFirst(events);
    a := ReceiveAnswer(config, proxy, state, convId, replies, pusher, channel, events);
  }

  /** The `try` block after the message was sent. */
  method ReceiveAnswer(config: Config, proxy: ProxyInstance, state: ConversationState, convId: Value,
                       replies: seq<Reply>, pusher: Option<JsError>, channel: string, ev: seq<Event>)
    returns (a: Attempt)
    requires NotifyCount(ev) == 0
    ensures a == AfterSend(config, proxy, state, convId, replies, pusher, channel, ev)
  {
    var events := ev;
    var stream := Truthy(Field(config, "stream"));
    if stream && pusher.Some? {
      events := events + [Error(ErrorText("Failed to receive message", pusher.value, state, None))];
      return Left(Some(Returned(Bool(false))), None, events, 2);
    }
    var receive := KitCall(config, proxy, state, ConversationPath(convId, "receive"),
                           ChatBotKitReceive(if stream then Some(channel) else None), ReplyAt(replies, 2), true);
    events := events + receive.events;
    if receive.Waiting? {
      return Stuck(events);
    } else if receive.Raised? {
      return Left(Some(Threw(receive.error)), None, events, 3);
    } else if stream {
      return Left(None, Some(Notify(Str(""), Str("bot"), Done)), events, 3);
    } else if receive.json == Bool(false) {
      return Left(Some(Returned(Bool(false))), None, events, 3);
    }
    var text := Get(receive.json, "text");
    if text.Throw? {
      return Left(Some(Threw(text.error)), None, events, 3);
    }
    return Left(None, Some(Notify(text.value, Str("bot"), Complete)), events, 3);
  }

  /** `sendRequest`: create, then send and receive inside `try`, and delete in the
    * `finally`, whose own `finally` raises the prepared message. */
  method SendRequest(config: Config, proxy: ProxyInstance, state: ConversationState, replies: seq<Reply>,
                     pusher: Option<JsError>, channel: string)
    returns (outcome: Outcome, events: seq<Event>)
    ensures Run(outcome, events) == ChatBotKitRun(config, proxy, state, replies, pusher, channel)
  {
    var create := CreateCall(config, proxy, state, replies);
    events := create.events;
    if create.Waiting? {
      return Pending, events;
    } else if create.Raised? {
      return Threw(create.error), events;
    } else if create.json == Bool(false) {
      return Returned(Bool(false)), events;
    }
    var id := Get(create.json, "id");
    if id.Throw? {
      return Threw(id.error), events;
    }
    var rest := TryAndDelete(config, proxy, state, id.value, replies, pusher, channel);
    return rest.outcome, events + rest.events;
  }

  /** The `try` block of `sendRequest` and its `finally`. */
  method TryAndDelete(config: Config, proxy: ProxyInstance, state: ConversationState, convId: Value,
                      replies: seq<Reply>, pusher: Option<JsError>, channel: string)
    returns (run: Run)
    ensures run == Converse(config, proxy, state, convId, replies, pusher, channel)
  {
    var attempt := SendAndReceive(config, proxy, state, convId, replies, pusher, channel);
    if attempt.Stuck? {
      return Run(Pending, attempt.events);
    }
    var fin := DeleteConversation(config, proxy, state, convId, replies, attempt.abrupt, attempt.message, attempt.next);
    return Run(fin.outcome, attempt.events + fin.events);
  }

  /** The `finally` block of `sendRequest`: delete, and in its own `finally` raise
    * the message. */
  method DeleteConversation(config: Config, proxy: ProxyInstance, state: ConversationState, convId: Value,
                            replies: seq<Reply>, abrupt: Option<Outcome>, message: Option<Event>, next: nat)
    returns (fin: Run)
    ensures fin == Finally(config, proxy, state, convId, replies, abrupt, message, next)
  {
    var delete := KitCall(config, proxy, state, ConversationPath(convId, "delete"), ChatBotKitDelete,
                          ReplyAt(replies, next), false);
    var events := delete.events;
    if delete.Waiting? {
      return Run(Pending, events);
    }
    if message.Some? {
      events := events + [message.value];
    }
    if delete.Raised? {
      return Run(Threw(delete.error), events);
    } else if abrupt.Some? {
      return Run(abrupt.value, events);
    }
    return Run(Returned(Bool(true)), events);
  }

  // ---------------------------------------------------------------------------
  // Properties of the lifecycle

  predicate IsDeleteRequest(e: Event) {
    e.Request? && e.body == ChatBotKitDelete
  }

  /** A message is raised only as the last event, after a delete request. */
  predicate NotifiesLastAfterDelete(ev: seq<Event>) {
    forall i :: 0 <= i < |ev| && ev[i].Notify? ==>
      i == |ev| - 1 && exists j :: 0 <= j < i && IsDeleteRequest(ev[j])
  }

  lemma {:induction false} NoNotifyAt(ev: seq<Event>, i: int)
    requires NotifyCount(ev) == 0 && 0 <= i < |ev|
    ensures !ev[i].Notify?
    decreases |ev|
  {
    if i > 0 {
      NoNotifyAt(ev[1..], i - 1);
    }
  }

  /** Events without notifications in front keep the property. */
  lemma NotifiesLastAfterDeletePrefix(pre: seq<Event>, ev: seq<Event>)
    requires NotifyCount(pre) == 0 && NotifiesLastAfterDelete(ev)
    ensures NotifiesLastAfterDelete(pre + ev)
  {
    var all := pre + ev;
    forall i | 0 <= i < |all| && all[i].Notify?
      ensures i == |all| - 1 && exists j :: 0 <= j < i && IsDeleteRequest(all[j])
    {
      if i < |pre| {
        NoNotifyAt(pre, i);
      }
      var k := i - |pre|;
      assert ev[k] == all[i];
      var j :| 0 <= j < k && IsDeleteRequest(ev[j]);
      assert all[|pre| + j] == ev[j];
    }
  }

  /** The `finally` always starts with the delete request and raises at most the
    * prepared message, last; unless the delete is left waiting, it raises it. */
  lemma FinallyRaisesAfterDelete(config: Config, proxy: ProxyInstance, state: ConversationState, convId: Value,
                                 replies: seq<Reply>, abrupt: Option<Outcome>, message: Option<Event>, next: nat)
    requires message.Some? ==> message.value.Notify?
    requires abrupt != Some(Pending)
    ensures var fin := Finally(config, proxy, state, convId, replies, abrupt, message, next);
            |fin.events| >= 1 && IsDeleteRequest(fin.events[0]) &&
            NotifiesLastAfterDelete(fin.events) &&
            NotifyCount(fin.events) == (if fin.outcome != Pending && message.Some? then 1 else 0) &&
            (fin.outcome == Returned(Bool(true)) ==> abrupt.None? || abrupt == Some(Returned(Bool(true))))
  {
    var delete := KitCall(config, proxy, state, ConversationPath(convId, "delete"), ChatBotKitDelete,
                          ReplyAt(replies, next), false);
    var ev := delete.events;
    NoNotifyAfterFirst(ev);
    var fin := Finally(config, proxy, state, convId, replies, abrupt, message, next);
    if delete.Waiting? {
      forall i | 0 <= i < |ev| && ev[i].Notify? ensures false {
        NoNotifyAt(ev, i);
      }
    } else {
      var tail := MessageEvents(message);
      assert fin.events == ev + tail;
      NotifyCountAppend(ev, tail);
      if tail != [] {
        assert tail[1..] == [];
        assert NotifyCount(tail) == 1 + NotifyCount(tail[1..]);
      }
      forall i | 0 <= i < |fin.events| && fin.events[i].Notify?
        ensures i == |fin.events| - 1 && exists j :: 0 <= j < i && IsDeleteRequest(fin.events[j])
      {
        if i < |ev| {
          NoNotifyAt(ev, i);
        }
        assert IsDeleteRequest(fin.events[0]);
      }
    }
  }

  /** Once a conversation exists, the run either stays waiting for a reply or
    * requests its deletion; a message is raised only after that request, as the
    * last event and at most once; and resolving to true means it was raised. */
  lemma ConverseDeletes(config: Config, proxy: ProxyInstance, state: ConversationState, convId: Value,
                        replies: seq<Reply>, pusher: Option<JsError>, channel: string)
    ensures var run := Converse(config, proxy, state, convId, replies, pusher, channel);
            NotifyCount(run.events) <= 1 &&
            NotifiesLastAfterDelete(run.events) &&
            (run.outcome != Pending ==> exists j :: 0 <= j < |run.events| && IsDeleteRequest(run.events[j])) &&
            (run.outcome == Returned(Bool(true)) ==> NotifyCount(run.events) == 1)
  {
    var run := Converse(config, proxy, state, convId, replies, pusher, channel);
    var attempt := TryBlock(config, proxy, state, convId, replies, pusher, channel);
    if attempt.Stuck? {
      forall i | 0 <= i < |run.events| && run.events[i].Notify? ensures false {
        NoNotifyAt(run.events, i);
      }
    } else {
      var fin := Finally(config, proxy, state, convId, replies, attempt.abrupt, attempt.message, attempt.next);
      FinallyRaisesAfterDelete(config, proxy, state, convId, replies, attempt.abrupt, attempt.message, attempt.next);
      NotifyCountAppend(attempt.events, fin.events);
      NotifiesLastAfterDeletePrefix(attempt.events, fin.events);
      if fin.outcome != Pending {
        assert run.events[|attempt.events|] == fin.events[0];
      }
    }
  }

  /** The create call succeeded: its reply was classified as something other than
    * false and carried a readable id. */
  predicate Created(config: Config, proxy: ProxyInstance, state: ConversationState, replies: seq<Reply>) {
    var create := CreateCall(config, proxy, state, replies);
    create.Answered? && create.json != Bool(false) && Get(create.json, "id").Ok?
  }

  /** The lifecycle: the create request comes first; without a conversation nothing
    * else is requested; once one exists and the run is not left waiting, its
    * delete is requested; at most one message is raised, only after the delete
    * request and as the very last event; and a run resolving to true raised
    * exactly one. */
  lemma ChatBotKitLifecycle(config: Config, proxy: ProxyInstance, state: ConversationState, replies: seq<Reply>,
                            pusher: Option<JsError>, channel: string)
    ensures var run := ChatBotKitRun(config, proxy, state, replies, pusher, channel);
            |run.events| >= 1 &&
            run.events[0] == Request(ApiUrl(proxy, config, ChatBotKitBase, "conversation/create"),
                                     CreatePayload(config, state.messages)) &&
            NotifyCount(run.events) <= 1 &&
            NotifiesLastAfterDelete(run.events) &&
            (!Created(config, proxy, state, replies) ==>
               forall i :: 1 <= i < |run.events| ==> !run.events[i].Request?) &&
            (Created(config, proxy, state, replies) && run.outcome != Pending ==>
               exists j :: 0 <= j < |run.events| && IsDeleteRequest(run.events[j])) &&
            (run.outcome == Returned(Bool(true)) ==> NotifyCount(run.events) == 1)
  {
    var run := ChatBotKitRun(config, proxy, state, replies, pusher, channel);
    var create := CreateCall(config, proxy, state, replies);
    NoNotifyAfterFirst(create.events);
    if Created(config, proxy, state, replies) {
      var convId := Get(create.json, "id").value;
      var rest := Converse(config, proxy, state, convId, replies, pusher, channel);
      RunWhenCreated(config, proxy, state, replies, pusher, channel);
      ConverseDeletes(config, proxy, state, convId, replies, pusher, channel);
      DeletesAfterSilentPrefix(create.events, rest);
    } else {
      RunWhenNotCreated(config, proxy, state, replies, pusher, channel);
      forall i | 0 <= i < |run.events| && run.events[i].Notify? ensures false {
        NoNotifyAt(run.events, i);
      }
    }
  }

  /** Events raising no message in front of a conversation keep what it promises. */
  lemma DeletesAfterSilentPrefix(pre: seq<Event>, rest: Run)
    requires NotifyCount(pre) == 0
    requires NotifyCount(rest.events) <= 1 && NotifiesLastAfterDelete(rest.events)
    requires rest.outcome != Pending ==> exists j :: 0 <= j < |rest.events| && IsDeleteRequest(rest.events[j])
    requires rest.outcome == Returned(Bool(true)) ==> NotifyCount(rest.events) == 1
    ensures var all := pre + rest.events;
            NotifyCount(all) <= 1 && NotifiesLastAfterDelete(all) &&
            (rest.outcome != Pending ==> exists j :: 0 <= j < |all| && IsDeleteRequest(all[j])) &&
            (rest.outcome == Returned(Bool(true)) ==> NotifyCount(all) == 1)
  {
    NotifyCountAppend(pre, rest.events);
    NotifiesLastAfterDeletePrefix(pre, rest.events);
    if rest.outcome != Pending {
      var j :| 0 <= j < |rest.events| && IsDeleteRequest(rest.events[j]);
      assert (pre + rest.events)[|pre| + j] == rest.events[j];
    }
  }

  /** A created conversation: the run is the create call followed by the conversation. */
  lemma RunWhenCreated(config: Config, proxy: ProxyInstance, state: ConversationState, replies: seq<Reply>,
                       pusher: Option<JsError>, channel: string)
    requires Created(config, proxy, state, replies)
    ensures var create := CreateCall(config, proxy, state, replies);
            var rest := Converse(config, proxy, state, Get(create.json, "id").value, replies, pusher, channel);
            var run := ChatBotKitRun(config, proxy, state, replies, pusher, channel);
            run.outcome == rest.outcome && run.events == create.events + rest.events
  {
  }

  /** Without a conversation the run is the create call alone. */
  lemma RunWhenNotCreated(config: Config, proxy: ProxyInstance, state: ConversationState, replies: seq<Reply>,
                          pusher: Option<JsError>, channel: string)
    requires !Created(config, proxy, state, replies)
    ensures ChatBotKitRun(config, proxy, state, replies, pusher, channel).events
         == CreateCall(config, proxy, state, replies).events
  {
  }

  /** Without any message to send the call still deletes the conversation it
    * created, and then rejects with the TypeError of reading `text` of undefined,
    * unless deleting threw instead. */
  lemma NothingToSendStillDeletes(config: Config, proxy: ProxyInstance, state: ConversationState,
                                  replies: seq<Reply>, pusher: Option<JsError>, channel: string)
    requires Created(config, proxy, state, replies)
    requires NewMessage(state.messages).None?
    requires |replies| >= 2 && replies[1].Received?
    ensures var run := ChatBotKitRun(config, proxy, state, replies, pusher, channel);
            run.outcome == Threw(ReadError(Undefined, "text")) && NotifyCount(run.events) == 0 &&
            exists j :: 0 <= j < |run.events| && IsDeleteRequest(run.events[j])
  {
    ChatBotKitLifecycle(config, proxy, state, replies, pusher, channel);
    var create := CreateCall(config, proxy, state, replies);
    var convId := Get(create.json, "id").value;
    assert TryBlock(config, proxy, state, convId, replies, pusher, channel)
        == Left(Some(Threw(ReadError(Undefined, "text"))), None, [], 1);
    var delete := KitCall(config, proxy, state, ConversationPath(convId, "delete"), ChatBotKitDelete,
                          ReplyAt(replies, 1), false);
    assert delete.Answered?;
    var fin := Finally(config, proxy, state, convId, replies, Some(Threw(ReadError(Undefined, "text"))), None, 1);
    assert fin.outcome == Threw(ReadError(Undefined, "text"));
    FinallyRaisesAfterDelete(config, proxy, state, convId, replies, Some(Threw(ReadError(Undefined, "text"))), None, 1);
    NoNotifyAfterFirst(create.events);
    assert [] + fin.events == fin.events;
    NotifyCountAppend(create.events, fin.events);
  }
}
