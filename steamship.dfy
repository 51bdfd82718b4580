/**
 * The SteamShip plugin adapter: one generate call, then a status poll that
 * repeats until the generation task has data (one complete message), the status fails
 * (an error) or a call fails. The network is a script of replies consumed in
 * order; the two-second delay between polls is not modelled.
 */
module SteamShip {
  import opened Text
  import opened JsValues
  import opened Conversation
  import opened Payloads
  import opened Proxies
  import opened Responses

  const SteamShipBase: string := "https://api.steamship.com/api/v1/"

  /** The replies from the `n`-th on. */
  function Drop(replies: seq<Reply>, n: nat): (r: seq<Reply>)
    ensures ReplyAt(r, 0) == ReplyAt(replies, n)
  {
    if n < |replies| then replies[n..] else []
  }

  // ---------------------------------------------------------------------------
  // The answer block

  /** `t.kind == 'role'`, for a tag that can be read. */
  predicate IsRoleTag(t: Value) {
    LooseEq(OptGet(t, "kind"), Str("role"))
  }

  /** `tags.filter(t => t.kind == 'role')`: every tag is read, so an unreadable
    * tag anywhere fails the filter. */
  function RoleTags(tags: seq<Value>): (r: Result<seq<Value>>)
    ensures r.Throw? <==> exists i :: 0 <= i < |tags| && IsNullish(tags[i])
    ensures r.Ok? ==> r.value == Filter(IsRoleTag, tags)
  {
    if tags == [] then Ok([])
    else if IsNullish(tags[0]) then Throw(ReadError(tags[0], "kind"))
    else
      var rest := RoleTags(tags[1..]);
      assert forall i :: 1 <= i < |tags| ==> tags[1..][i - 1] == tags[i];
      if rest.Throw? then rest
      else Ok((if IsRoleTag(tags[0]) then [tags[0]] else []) + rest.value)
  }

  /** The notification for the first block of an answer. */
  function BlockMessage(data: Value): Result<Event> {
    match Get(data, "blocks")
    case Throw(e) => Throw(e)
    case Ok(blocks) =>
      match Index(blocks, 0)
      case Throw(e) => Throw(e)
      case Ok(block) => BlockNotification(block)
  }

  /** One block as a complete message: its text, and the name of its first role
    * tag or "assistant". Missing tags fail reading `filter`; tags that are no
    * array have no `filter` to call. */
  function BlockNotification(block: Value): Result<Event> {
    match Get(block, "text")
    case Throw(e) => Throw(e)
    case Ok(text) =>
      match Get(block, "tags")
      case Throw(e) => Throw(e)
      case Ok(tags) =>
        if IsNullish(tags) then Throw(ReadError(tags, "filter"))
        else if !tags.Arr? then Throw(JsError("block.tags.filter is not a function"))
        else match RoleTags(tags.items)
          case Throw(e) => Throw(e)
          case Ok(roleTags) =>
            var name := if roleTags == [] then Undefined else OptGet(roleTags[0], "name");
            Ok(Notify(text, Coalesce(name, Str("assistant")), Complete))
  }

  /** The data of an answer with one block: that block's message. */
  lemma OnlyBlock(block: Value)
    ensures BlockMessage(Obj(map["blocks" := Arr([block])])) == BlockNotification(block)
  {
    var data := Obj(map["blocks" := Arr([block])]);
    assert Get(data, "blocks") == Ok(Arr([block]));
    assert Index(Arr([block]), 0) == Ok(block);
  }

  /** A block with readable tags becomes one complete message whose role is the
    * name of its first role tag, or "assistant" when it has none (or no name). */
  lemma BlockMessageRole(text: Value, tags: seq<Value>)
    requires forall i :: 0 <= i < |tags| ==> tags[i].Obj?
    ensures var block := Obj(map["text" := text, "tags" := Arr(tags)]);
            var roleTags := Filter(IsRoleTag, tags);
            BlockMessage(Obj(map["blocks" := Arr([block])])) ==
            Ok(Notify(text, if roleTags == [] then Str("assistant") else Coalesce(OptGet(roleTags[0], "name"), Str("assistant")),
                      Complete))
  {
    var block := Obj(map["text" := text, "tags" := Arr(tags)]);
    OnlyBlock(block);
    RoleTagsOfObjects(tags);
    ReadableBlock(text, tags, Filter(IsRoleTag, tags));
  }

  lemma ReadableBlock(text: Value, tags: seq<Value>, roleTags: seq<Value>)
    requires RoleTags(tags) == Ok(roleTags)
    ensures BlockNotification(Obj(map["text" := text, "tags" := Arr(tags)])) ==
            Ok(Notify(text, Coalesce(if roleTags == [] then Undefined else OptGet(roleTags[0], "name"), Str("assistant")),
                      Complete))
  {
    BlockFields(text, Arr(tags));
  }

  /** The two fields of a block read back as given. */
  lemma BlockFields(text: Value, tags: Value)
    ensures var block := Obj(map["text" := text, "tags" := tags]);
            Get(block, "text") == Ok(text) && Get(block, "tags") == Ok(tags)
  {
    var fields := map["text" := text, "tags" := tags];
    assert Field(fields, "text") == text && Field(fields, "tags") == tags;
  }

  /** A block whose tags are missing or null fails reading `filter` of them; tags
    * of any other kind that is no array fail calling `filter`. */
  lemma BlockTagsUnusable(text: Value, tags: Value)
    requires !tags.Arr?
    ensures var block := Obj(map["text" := text, "tags" := tags]);
            BlockMessage(Obj(map["blocks" := Arr([block])])) ==
            if IsNullish(tags) then Throw(ReadError(tags, "filter"))
            else Throw(JsError("block.tags.filter is not a function"))
  {
    var block := Obj(map["text" := text, "tags" := tags]);
    OnlyBlock(block);
    BlockFields(text, tags);
  }

  lemma RoleTagsOfObjects(tags: seq<Value>)
    requires forall i :: 0 <= i < |tags| ==> tags[i].Obj?
    ensures RoleTags(tags) == Ok(Filter(IsRoleTag, tags))
  {
    assert forall i :: 0 <= i < |tags| ==> !IsNullish(tags[i]);
  }

  // ---------------------------------------------------------------------------
  // One poll

  /** What one status reply does to the poll: end it, or carry on with the
    * remembered state. */
  datatype Step =
    | Finished(outcome: Outcome, events: seq<Event>)
    | Continue(prevState: Value, events: seq<Event>)

  /** The body of the poll loop after the status call answered with `json`. */
  function PollStep(json: Value, prevState: Value): (s: Step)
    ensures s.Continue? ==> NotifyCount(s.events) == 0 && |s.events| <= 1
    ensures s.Continue? && s.events != [] ==> s.events[0].Log?
    ensures s.Finished? && s.outcome == Returned(Bool(true)) ==>
              |s.events| == 1 && s.events[0].Notify? && s.events[0].mode == Complete
    ensures s.Finished? && s.outcome != Returned(Bool(true)) ==> s.events == []
    ensures json == Bool(false) ==> s == Finished(Returned(Undefined), [])
    ensures IsNullish(json) ==> s == Finished(Threw(ReadError(json, "status")), [])
    ensures json != Bool(false) && Get(json, "status").Ok? && IsNullish(Get(json, "status").value) ==>
              s == Finished(Threw(ReadError(Get(json, "status").value, "state")), [])
    ensures var data := OptGet(json, "data");
            Get(json, "status").Ok? && Get(Get(json, "status").value, "state").Ok? && !IsNullish(data) ==>
              s == match BlockMessage(data)
                   case Ok(m) => Finished(Returned(Bool(true)), [m])
                   case Throw(e) => Finished(Threw(e), [])
    ensures Get(json, "status").Ok? && Get(Get(json, "status").value, "state").Ok? && IsNullish(OptGet(json, "data")) ==>
              var st := Get(Get(json, "status").value, "state").value;
              s == if !LooseEq(prevState, st) then Continue(st, [Log("Sending message (" + Render(st) + ")")])
                   else Continue(prevState, [])
  {
    if json == Bool(false) then Finished(Returned(Undefined), [])
    else
      match Get(json, "status")
      case Throw(e) => Finished(Threw(e), [])
      case Ok(status) =>
        match Get(status, "state")
        case Throw(e) => Finished(Threw(e), [])
        case Ok(st) =>
          var data := OptGet(json, "data");
          if !IsNullish(data) then
            match BlockMessage(data)
            case Throw(e) => Finished(Threw(e), [])
            case Ok(message) => Finished(Returned(Bool(true)), [message])
          else if !LooseEq(prevState, st) then
            Continue(st, [Log("Sending message (" + Render(st) + ")")])
          else Continue(prevState, [])
  }

  /** The poll from the remembered state over the remaining replies: the
    * specification of the loop. */
  function PollRun(target: string, state: ConversationState, taskId: Value, prevState: Value,
                   replies: seq<Reply>): Run
    decreases |replies|
  {
    var call := CallApi(SteamShipHandler, state, target, SteamShipStatus(taskId), ReplyAt(replies, 0));
    match call
    case Waiting(ev) => Run(Pending, ev)
    case Raised(e, ev) => Run(Threw(e), ev)
    case Answered(json, _, ev) =>
      match PollStep(json, prevState)
      case Finished(outcome, stepEvents) => Run(outcome, ev + stepEvents)
      case Continue(next, stepEvents) =>
        var rest := PollRun(target, state, taskId, next, replies[1..]);
        Run(rest.outcome, ev + stepEvents + rest.events)
  }

  /** Where the generate call leaves `sendRequest`: finished, or polling the
    * task it started, after the given events. */
  datatype Generated = Stopped(run: Run) | Started(taskId: Value, events: seq<Event>)

  /** The generate call and the check of its task id. */
  function Generate(config: Config, proxy: ProxyInstance, state: ConversationState, replies: seq<Reply>): (g: Generated)
    ensures var ev := if g.Started? then g.events else g.run.events;
            |ev| >= 1 &&
            ev[0] == Request(ApiUrl(proxy, config, SteamShipBase, "plugin/instance/generate"),
                             SteamShipGenerate(false, SteamShipText(state.messages), Field(config, "workspace")))
    ensures var call := GenerateCall(config, proxy, state, replies);
            !(call.Answered? && call.json != Bool(false)) ==>
              g == Stopped(Run(if call.Waiting? then Pending
                               else if call.Raised? then Threw(call.error)
                               else Returned(Bool(false)), call.events))
    ensures var call := GenerateCall(config, proxy, state, replies);
            call.Answered? && call.json != Bool(false) ==>
              var taskId := OptGet(OptGet(call.json, "status"), "taskId");
              (g.Started? <==> !IsNullish(taskId)) &&
              (g.Started? ==> g.taskId == taskId && LogTexts(g.events) == ["Sending message (done: generate)"] &&
                              g.events[..|call.events|] == call.events) &&
              (g.Stopped? ==> g.run == Run(Returned(Bool(false)),
                 call.events + [Error(ErrorText("Failed to generate", JsError("No task id"), state, Some(call.response)))]))
  {
    var body := SteamShipGenerate(false, SteamShipText(state.messages), Field(config, "workspace"));
    var generate := ApiUrl(proxy, config, SteamShipBase, "plugin/instance/generate");
    match GenerateCall(config, proxy, state, replies)
    case Waiting(ev) => Stopped(Run(Pending, ev))
    case Raised(e, ev) => Stopped(Run(Threw(e), ev))
    case Answered(json, response, ev) =>
      if json == Bool(false) then Stopped(Run(Returned(Bool(false)), ev))
      else
        var taskId := OptGet(OptGet(json, "status"), "taskId");
        if IsNullish(taskId) then
          Stopped(Run(Returned(Bool(false)),
                      ev + [Error(ErrorText("Failed to generate", JsError("No task id"), state, Some(response)))]))
        else
          CallApiLogsNothing(SteamShipHandler, state, generate, body, ReplyAt(replies, 0));
          GenerateLogs(ev, Log("Sending message (done: generate)"));
          Started(taskId, ev + [Log("Sending message (done: generate)")])
  }

  /** The generate call: the kept texts, one per line, for the configured workspace. */
  function GenerateCall(config: Config, proxy: ProxyInstance, state: ConversationState, replies: seq<Reply>): Call {
    CallApi(SteamShipHandler, state, ApiUrl(proxy, config, SteamShipBase, "plugin/instance/generate"),
            SteamShipGenerate(false, SteamShipText(state.messages), Field(config, "workspace")), ReplyAt(replies, 0))
  }

  /** Appending one log to events without logs gives that log alone. */
  lemma GenerateLogs(ev: seq<Event>, log: Event)
    requires log.Log? && LogTexts(ev) == []
    ensures LogTexts(ev + [log]) == [log.message]
  {
    LogTextsAppend(ev, [log]);
    assert [log][1..] == [];
  }

  /** The whole of `sendRequest`: the generate call, then the poll. */
  function SteamShipRun(config: Config, proxy: ProxyInstance, state: ConversationState,
                        replies: seq<Reply>): Run
  {
    match Generate(config, proxy, state, replies)
    case Stopped(run) => run
    case Started(taskId, ev) =>
      var poll := PollRun(ApiUrl(proxy, config, SteamShipBase, "task/status"), state, taskId, Str(""),
                          Drop(replies, 1));
      Run(poll.outcome, ev + poll.events)
  }

  lemma AppendAssoc<T>(a: seq<T>, b: seq<T>, c: seq<T>)
    ensures a + (b + c) == (a + b) + c
  {
  }

  /** One turn of the poll, read off the script from its `n`-th reply. */
  lemma PollRunStep(target: string, state: ConversationState, taskId: Value, prevState: Value,
                    replies: seq<Reply>, n: nat)
    ensures var call := CallApi(SteamShipHandler, state, target, SteamShipStatus(taskId), ReplyAt(replies, n));
            var run := PollRun(target, state, taskId, prevState, Drop(replies, n));
            (call.Waiting? ==> run == Run(Pending, call.events)) &&
            (call.Raised? ==> run == Run(Threw(call.error), call.events)) &&
            (call.Answered? ==>
               var step := PollStep(call.json, prevState);
               (step.Finished? ==> run == Run(step.outcome, call.events + step.events)) &&
               (step.Continue? ==>
                  var rest := PollRun(target, state, taskId, step.prevState, Drop(replies, n + 1));
                  run == Run(rest.outcome, call.events + step.events + rest.events)))
  {
    if n < |replies| {
      assert Drop(replies, n)[1..] == Drop(replies, n + 1);
    }
  }

  /** `sendRequest`: the generate call, then the polling loop, which keeps the
    * previous status state and stops on data, on a failed status or on a failed
    * call. */
  method SendRequest(config: Config, proxy: ProxyInstance, state: ConversationState, replies: seq<Reply>)
    returns (outcome: Outcome, events: seq<Event>)
    ensures Run(outcome, events) == SteamShipRun(config, proxy, state, replies)
  {
    var generated := Generate(config, proxy, state, replies);
    if generated.Stopped? {
      return generated.run.outcome, generated.run.events;
    }
    var taskId := generated.taskId;
    events := generated.events;

    var target := ApiUrl(proxy, config, SteamShipBase, "task/status");
    ghost var whole := SteamShipRun(config, proxy, state, replies);
    var prevState := Str("");
    var n := 1;
    while true
      invariant 1 <= n <= |replies| + 1
      invariant whole.outcome == PollRun(target, state, taskId, prevState, Drop(replies, n)).outcome
      invariant whole.events == events + PollRun(target, state, taskId, prevState, Drop(replies, n)).events
      decreases |replies| + 1 - n
    {
      ghost var before := events;
      var done, last, turn, next := PollTurn(target, state, taskId, prevState, replies, n);
      events := events + turn;
      if done {
        return last, events;
      }
      AppendAssoc(before, turn, PollRun(target, state, taskId, next, Drop(replies, n + 1)).events);
      prevState := next;
      n := n + 1;
    }
  }

  /** One turn of the loop: the status call and what its answer does. Either the
    * poll ends here, or it goes on from the next reply with the new state. */
  method PollTurn(target: string, state: ConversationState, taskId: Value, prevState: Value,
                  replies: seq<Reply>, n: nat)
    returns (done: bool, outcome: Outcome, events: seq<Event>, next: Value)
    ensures var run := PollRun(target, state, taskId, prevState, Drop(replies, n));
            done ==> run == Run(outcome, events)
    ensures var run := PollRun(target, state, taskId, prevState, Drop(replies, n));
            var rest := PollRun(target, state, taskId, next, Drop(replies, n + 1));
            !done ==> n < |replies| && run.outcome == rest.outcome && run.events == events + rest.events
  {
    PollRunStep(target, state, taskId, prevState, replies, n);
    var call := CallApi(SteamShipHandler, state, target, SteamShipStatus(taskId), ReplyAt(replies, n));
    next := prevState;
    if call.Waiting? {
      return true, Pending, call.events, next;
    }
    if call.Raised? {
      return true, Threw(call.error), call.events, next;
    }
    var step := PollStep(call.json, prevState);
    events := call.events + step.events;
    if step.Finished? {
      return true, step.outcome, events, next;
    }
    next := step.prevState;
    done, outcome := false, Pending;
  }

  // ---------------------------------------------------------------------------
  // Properties of the poll

  /** The poll raises at most one message; when it ends in true, exactly one
    * complete message was raised and it was the last thing that happened. */
  lemma {:induction false} PollRaisesAtMostOneMessage(target: string, state: ConversationState, taskId: Value,
                                                       prevState: Value, replies: seq<Reply>)
    ensures var run := PollRun(target, state, taskId, prevState, replies);
            NotifyCount(run.events) <= 1 &&
            (run.outcome == Returned(Bool(true)) ==>
               NotifyCount(run.events) == 1 && run.events[|run.events| - 1].Notify? &&
               run.events[|run.events| - 1].mode == Complete)
    decreases |replies|
  {
    var call := CallApi(SteamShipHandler, state, target, SteamShipStatus(taskId), ReplyAt(replies, 0));
    var run := PollRun(target, state, taskId, prevState, replies);
    StatusCallSilent(target, state, taskId, ReplyAt(replies, 0));
    assert Drop(replies, 0) == replies;
    PollRunStep(target, state, taskId, prevState, replies, 0);
    if call.Answered? {
      var step := PollStep(call.json, prevState);
      StepNotifies(call.json, prevState);
      NotifyCountAppend(call.events, step.events);
      if step.Continue? {
        var rest := PollRun(target, state, taskId, step.prevState, replies[1..]);
        assert Drop(replies, 1) == replies[1..];
        PollRaisesAtMostOneMessage(target, state, taskId, step.prevState, replies[1..]);
        SilentPrefix(call.events + step.events, rest);
      }
    }
  }

  /** Events raising no message in front of a run keep its messages and its last event. */
  lemma SilentPrefix(pre: seq<Event>, rest: Run)
    requires NotifyCount(pre) == 0
    requires NotifyCount(rest.events) <= 1
    requires rest.outcome == Returned(Bool(true)) ==>
               NotifyCount(rest.events) == 1 && rest.events[|rest.events| - 1].Notify? &&
               rest.events[|rest.events| - 1].mode == Complete
    ensures var all := pre + rest.events;
            NotifyCount(all) <= 1 &&
            (rest.outcome == Returned(Bool(true)) ==>
               NotifyCount(all) == 1 && all[|all| - 1].Notify? && all[|all| - 1].mode == Complete)
  {
    NotifyCountAppend(pre, rest.events);
    if rest.outcome == Returned(Bool(true)) {
      assert (pre + rest.events)[|pre| + |rest.events| - 1] == rest.events[|rest.events| - 1];
    }
  }

  /** One step raises a message exactly when it ends the poll with true. */
  lemma StepNotifies(json: Value, prevState: Value)
    ensures var s := PollStep(json, prevState);
            NotifyCount(s.events) == if s.Finished? && s.outcome == Returned(Bool(true)) then 1 else 0
  {
    var s := PollStep(json, prevState);
    if s.events != [] {
      assert s.events[1..] == [];
    }
  }

  /** A status call raises no message: its handler reports errors only. */
  lemma StatusCallSilent(target: string, state: ConversationState, taskId: Value, reply: Option<Reply>)
    ensures NotifyCount(CallApi(SteamShipHandler, state, target, SteamShipStatus(taskId), reply).events) == 0
  {
    var call := CallApi(SteamShipHandler, state, target, SteamShipStatus(taskId), reply);
    var request := Request(target, SteamShipStatus(taskId));
    if call.Answered? {
      var handled := HandleJsonResponse(SteamShipHandler, state, reply.value.response);
      assert NotifyCount(handled.events) == 0 by {
        if handled.events != [] {
          assert handled.events == [handled.events[0]];
          assert !handled.events[0].Notify?;
          assert handled.events[1..] == [];
        }
      }
      NotifyCountAppend([request], handled.events);
    } else {
      assert call.events == [request];
      assert call.events[1..] == [];
    }
  }

  /** `json?.status?.state`: the state the handler checks for "failed". */
  function StatusState(json: Value): Value {
    OptGet(OptGet(json, "status"), "state")
  }

  /** `json.status.state` reads as `st` without throwing: what the loop reads of
    * every status body, whatever other fields it carries. */
  predicate ReportsState(json: Value, st: Value) {
    Get(json, "status").Ok? && Get(Get(json, "status").value, "state") == Ok(st)
  }

  /** The body the reply parses to, if it parses. */
  predicate Parses(r: Reply, json: Value) {
    r.Received? && r.response.body.Text? && r.response.body.parsed == Json(json)
  }

  /** A reply for a task still running in state `st`: its body, whatever else it
    * carries, reports that state, which is not "failed", and no data. */
  predicate IsRunningReply(r: Reply, st: Value) {
    r.Received? && r.response.body.Text? && r.response.body.parsed.Json? &&
    var json := r.response.body.parsed.value;
    ReportsState(json, st) && IsNullish(OptGet(json, "data")) && !LooseEq(st, Str("failed"))
  }

  /** The log lines a sequence of observed states produces: one per change. */
  function StateChangeLogs(prevState: Value, states: seq<Value>): seq<string>
    decreases |states|
  {
    if states == [] then []
    else if !LooseEq(prevState, states[0]) then
      ["Sending message (" + Render(states[0]) + ")"] + StateChangeLogs(states[0], states[1..])
    else StateChangeLogs(prevState, states[1..])
  }

  /** While the generation task runs the poll only logs, once per change of state, and keeps
    * waiting for the next reply. */
  lemma {:induction false} PollLogsStateChanges(target: string, state: ConversationState, taskId: Value,
                                                prevState: Value, replies: seq<Reply>, states: seq<Value>)
    requires |replies| == |states|
    requires forall i :: 0 <= i < |replies| ==> IsRunningReply(replies[i], states[i])
    ensures var run := PollRun(target, state, taskId, prevState, replies);
            run.outcome == Pending && NotifyCount(run.events) == 0 &&
            LogTexts(run.events) == StateChangeLogs(prevState, states)
    decreases |replies|
  {
    var run := PollRun(target, state, taskId, prevState, replies);
    var request := Request(target, SteamShipStatus(taskId));
    if replies == [] {
      assert run.events == [request];
      assert run.events[1..] == [];
    } else {
      var st := states[0];
      var json := replies[0].response.body.parsed.value;
      RunningReplyAnswered(target, state, taskId, replies[0], st);
      var step := PollStep(json, prevState);
      var rest := PollRun(target, state, taskId, step.prevState, replies[1..]);
      PollLogsStateChanges(target, state, taskId, step.prevState, replies[1..], states[1..]);
      assert run.events == [request] + step.events + rest.events;
      TurnCounts(request, step.events, rest.events);
    }
  }

  /** A running status reply passes through the handler untouched. */
  lemma RunningReplyAnswered(target: string, state: ConversationState, taskId: Value, r: Reply, st: Value)
    requires IsRunningReply(r, st)
    ensures CallApi(SteamShipHandler, state, target, SteamShipStatus(taskId), Some(r)) ==
            Answered(r.response.body.parsed.value, r.response, [Request(target, SteamShipStatus(taskId))])
  {
    ReportedState(r.response.body.parsed.value, st);
    PassingCall(target, state, taskId, r.response, r.response.body.parsed.value);
  }

  /** The state the loop reads is the one the handler checks. */
  lemma ReportedState(json: Value, st: Value)
    requires ReportsState(json, st)
    ensures StatusState(json) == st
  {
  }

  /** A body whose state is not "failed" passes through the handler with no event. */
  lemma PassingReplyHandled(state: ConversationState, response: HttpResponse, json: Value)
    requires response.body.Text? && response.body.parsed == Json(json)
    requires !LooseEq(StatusState(json), Str("failed"))
    ensures HandleJsonResponse(SteamShipHandler, state, response) == Handled(json, [])
  {
    SteamShipFailedStatus(json, state, response);
  }

  /** A status call answered with such a body answers it after its request alone. */
  lemma PassingCall(target: string, state: ConversationState, taskId: Value, response: HttpResponse, json: Value)
    requires response.body.Text? && response.body.parsed == Json(json)
    requires !LooseEq(StatusState(json), Str("failed"))
    ensures CallApi(SteamShipHandler, state, target, SteamShipStatus(taskId), Some(Received(response))) ==
            Answered(json, response, [Request(target, SteamShipStatus(taskId))])
  {
    PassingReplyHandled(state, response, json);
    var c := CallApi(SteamShipHandler, state, target, SteamShipStatus(taskId), Some(Received(response)));
    assert c.Answered?;
    assert c.events == [Request(target, SteamShipStatus(taskId))] + [];
  }

  /** A request, at most one log, then the rest: only the log and the rest count. */
  lemma TurnCounts(request: Event, step: seq<Event>, rest: seq<Event>)
    requires request.Request?
    requires step == [] || (|step| == 1 && step[0].Log?)
    ensures NotifyCount([request] + step + rest) == NotifyCount(rest)
    ensures LogTexts([request] + step + rest) == (if step == [] then [] else [step[0].message]) + LogTexts(rest)
  {
    NotifyCountAppend([request] + step, rest);
    NotifyCountAppend([request], step);
    LogTextsAppend([request] + step, rest);
    LogTextsAppend([request], step);
    assert [request][1..] == [];
    if step != [] {
      assert step[1..] == [];
    }
  }

  /** A state repeated over and over is logged once, when it first appears. */
  lemma {:induction false} RepeatedStateLoggedOnce(prevState: Value, st: string, n: nat)
    requires n > 0 && prevState != Str(st)
    requires prevState.Str?
    ensures StateChangeLogs(prevState, seq(n, _ => Str(st))) == ["Sending message (" + st + ")"]
  {
    SameStateSilent(st, n - 1);
    assert seq(n, _ => Str(st))[1..] == seq(n - 1, _ => Str(st));
  }

  lemma {:induction false} SameStateSilent(st: string, n: nat)
    ensures StateChangeLogs(Str(st), seq(n, _ => Str(st))) == []
    decreases n
  {
    if n > 0 {
      assert seq(n, _ => Str(st))[1..] == seq(n - 1, _ => Str(st));
      SameStateSilent(st, n - 1);
    }
  }

  /** The error a failed status carries. */
  function FailedStatusError(state: ConversationState, response: HttpResponse, code: Value, message: Value): Event {
    Error(ErrorText("Received error message",
                    JsError(if IsNullish(code) then Render(message) else Render(code) + ": " + Render(message)),
                    state, Some(response)))
  }

  /** The error a body whose status is "failed" carries. */
  function FailedBodyError(state: ConversationState, response: HttpResponse, json: Value): Event {
    var status := OptGet(json, "status");
    FailedStatusError(state, response, OptGet(status, "statusCode"), OptGet(status, "statusMessage"))
  }

  /** Any body whose `status.state` is loosely "failed" is the failure error and false. */
  lemma FailedReplyHandled(state: ConversationState, response: HttpResponse, json: Value)
    requires response.body.Text? && response.body.parsed == Json(json)
    requires LooseEq(StatusState(json), Str("failed"))
    ensures HandleJsonResponse(SteamShipHandler, state, response) ==
            Handled(Bool(false), [FailedBodyError(state, response, json)])
  {
    SteamShipFailedStatus(json, state, response);
  }

  /** `json.data`, when the loop reads it. */
  function AnswerData(json: Value): Value {
    OptGet(json, "data")
  }

  /** A poll answered with data ends at once: after the status request comes the
    * block's complete message, and `sendRequest` resolves to true. Any body
    * qualifies whose state reads and is not "failed" and whose data is set and
    * has a readable first block. */
  lemma PollDataEnds(target: string, state: ConversationState, taskId: Value, prevState: Value,
                     replies: seq<Reply>, json: Value, st: Value, m: Event)
    requires |replies| > 0 && Parses(replies[0], json)
    requires ReportsState(json, st) && !LooseEq(st, Str("failed"))
    requires !IsNullish(AnswerData(json)) && BlockMessage(AnswerData(json)) == Ok(m)
    ensures PollRun(target, state, taskId, prevState, replies) ==
            Run(Returned(Bool(true)), [Request(target, SteamShipStatus(taskId)), m])
  {
    assert ReplyAt(replies, 0) == Some(Received(replies[0].response));
    ReportedState(json, st);
    PassingCall(target, state, taskId, replies[0].response, json);
    PollRunFinished(target, state, taskId, prevState, replies);
  }

  /** Once generation started, a first status reply with data makes the whole
    * call resolve to true, with the block's message as its last event. */
  lemma GeneratedThenData(config: Config, proxy: ProxyInstance, state: ConversationState, replies: seq<Reply>,
                          json: Value, st: Value, m: Event)
    requires Generate(config, proxy, state, replies).Started?
    requires |replies| > 1 && Parses(replies[1], json)
    requires ReportsState(json, st) && !LooseEq(st, Str("failed"))
    requires !IsNullish(AnswerData(json)) && BlockMessage(AnswerData(json)) == Ok(m)
    ensures var g := Generate(config, proxy, state, replies);
            SteamShipRun(config, proxy, state, replies) ==
            Run(Returned(Bool(true)),
                g.events + [Request(ApiUrl(proxy, config, SteamShipBase, "task/status"), SteamShipStatus(g.taskId)), m])
  {
    var g := Generate(config, proxy, state, replies);
    var target := ApiUrl(proxy, config, SteamShipBase, "task/status");
    assert Drop(replies, 1)[0] == replies[1];
    PollDataEnds(target, state, g.taskId, Str(""), Drop(replies, 1), json, st, m);
  }

  /** A failed status ends the poll: one error notification carrying the status
    * code and message, and `sendRequest` resolves to undefined. Any body whose
    * `status.state` is loosely "failed" qualifies. */
  lemma PollFailedStatusEnds(target: string, state: ConversationState, taskId: Value, prevState: Value,
                             replies: seq<Reply>, json: Value)
    requires |replies| > 0 && Parses(replies[0], json)
    requires LooseEq(StatusState(json), Str("failed"))
    ensures PollRun(target, state, taskId, prevState, replies) ==
            Run(Returned(Undefined), [Request(target, SteamShipStatus(taskId)),
                                      FailedBodyError(state, replies[0].response, json)])
  {
    assert ReplyAt(replies, 0) == Some(Received(replies[0].response));
    FailedCall(target, state, taskId, replies[0].response, json);
    PollRunFinished(target, state, taskId, prevState, replies);
  }

  lemma FailedCall(target: string, state: ConversationState, taskId: Value, response: HttpResponse, json: Value)
    requires response.body.Text? && response.body.parsed == Json(json)
    requires LooseEq(StatusState(json), Str("failed"))
    ensures CallApi(SteamShipHandler, state, target, SteamShipStatus(taskId), Some(Received(response))) ==
            Answered(Bool(false), response,
                     [Request(target, SteamShipStatus(taskId)), FailedBodyError(state, response, json)])
  {
    var request := Request(target, SteamShipStatus(taskId));
    var error := FailedBodyError(state, response, json);
    FailedReplyHandled(state, response, json);
    var c := CallApi(SteamShipHandler, state, target, SteamShipStatus(taskId), Some(Received(response)));
    assert c.Answered?;
    assert c.events == [request] + [error] == [request, error];
  }

  /** A poll whose first call is answered with a body that ends the loop. */
  lemma PollRunFinished(target: string, state: ConversationState, taskId: Value, prevState: Value,
                        replies: seq<Reply>)
    requires var call := CallApi(SteamShipHandler, state, target, SteamShipStatus(taskId), ReplyAt(replies, 0));
             call.Answered? && PollStep(call.json, prevState).Finished?
    ensures var call := CallApi(SteamShipHandler, state, target, SteamShipStatus(taskId), ReplyAt(replies, 0));
            var step := PollStep(call.json, prevState);
            PollRun(target, state, taskId, prevState, replies) == Run(step.outcome, call.events + step.events)
  {
  }
}
