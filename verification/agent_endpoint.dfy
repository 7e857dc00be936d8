/**
 * The chat request handler (`AgentEndpoint.post`): validate the body, pick the
 * last user message, resolve the session id, call the agent with the prefixed
 * text, reduce its reply to one value and wrap it in the response envelope,
 * or answer 400 / 500 with an error body.
 *
 * Everything the handler takes from outside is a parameter: `agent` is the
 * agent call, `genId` the fresh uuid4 string, `now` the El Salvador clock
 * already formatted as YYYY-MM-DD HH:MM:SS, `parse` the `eval` of a reply
 * string and `show` Python's `str()` of a non-string value.
 */
module AgentEndpoint {
  import opened Wrappers
  import opened PyValues
  import opened ReplyExtraction

  const InvalidFormatError := "Invalid request format. 'messages' array is required."
  const NoUserMessageError := "No user message found in the request."
  const PromptPrefix := "Mensaje del usuario: "
  const ErrorPrefix := "An error occurred: "

  /** The exceptions the handler's body can raise; each one ends as a 500. */
  datatype Fault =
    | BodyUnreadable(message: string) // `request.data` raises: malformed JSON or an unsupported media type
    | NotIterable(typeName: string)   // `'messages' in data` on None, a bool or an int
    | ListIndexedByStr                // `data['messages']` on a list body holding "messages"
    | StrIndexedByStr                 // `data['messages']` on a string body containing "messages"
    | NoGetMethod(typeName: string)   // `msg.get('role')` on an element that is not a dict
    | MissingKey(key: string)         // `user_messages[-1]['content']` without that key
    | AgentRaised(message: string)    // the agent call itself raised

  /** `str(e)` of each fault, in CPython's wording. */
  function FaultMessage(f: Fault): string {
    match f
    case BodyUnreadable(m) => m
    case NotIterable(t) => "argument of type '" + t + "' is not iterable"
    case ListIndexedByStr => "list indices must be integers or slices, not str"
    case StrIndexedByStr => "string indices must be integers, not 'str'"
    case NoGetMethod(t) => "'" + t + "' object has no attribute 'get'"
    case MissingKey(k) => "'" + k + "'"
    case AgentRaised(m) => m
  }

  /** What the agent call does: returns a reply or raises with a message. */
  datatype AgentOutcome = Replied(reply: AgentReply) | Raised(message: string)

  /** How far the handler gets before the agent call. */
  datatype Stage =
    | Reject(error: string)
    | Fail(fault: Fault)
    | Call(prompt: string, sessionId: Value, firstInteraction: Value)

  /** The success envelope's variable parts. */
  datatype Envelope = Envelope(content: Value, timestamp: string, firstInteraction: Value, sessionId: Value)

  datatype Response = Ok200(envelope: Envelope) | Bad400(error: string) | Err500(fault: Fault)

  /** The response as DRF sends it: a status code and a JSON body. */
  datatype HttpReply = HttpReply(status: int, body: Value)

  /** `msg.get('role') == 'user'` on a dict element. */
  predicate IsUserMessage(v: Value) {
    v.VDict? && Get(v.entries, "role", VNone) == VStr("user")
  }

  /** Index `i` holds a user message and no later element does. */
  predicate IsLastUserMessage(items: seq<Value>, i: int) {
    0 <= i < |items| && IsUserMessage(items[i]) && forall j | i < j < |items| :: !IsUserMessage(items[j])
  }

  /**
   * `'messages' in data` followed, when true, by `data['messages']`:
   * Ok(None) when the key is absent, Ok(Some(v)) with its value, Err when
   * either step raises. Only a dict body can carry the key.
   */
  function MessagesField(data: Value): (r: Result<Option<Value>, Fault>)
    ensures r.Ok? && r.value.Some? ==> data.VDict? && "messages" in data.entries && r.value.value == data.entries["messages"]
    // a dict: the key's value, or absent
    ensures data.VDict? ==> r == Ok(if "messages" in data.entries then Some(data.entries["messages"]) else None)
    // a list: absent unless the string "messages" is an element, and then indexing it raises
    ensures data.VList? ==> r == (if VStr("messages") in data.items then Err(ListIndexedByStr) else Ok(None))
    // a string: absent unless "messages" occurs in it, and then indexing it raises
    ensures data.VStr? ==> r == (if exists i :: OccursAt("messages", data.s, i) then Err(StrIndexedByStr) else Ok(None))
    // None, a bool or an int: `in` itself raises
    ensures data.VNone? || data.VBool? || data.VInt? ==> r == Err(NotIterable(TypeName(data)))
  {
    match data
    case VDict(entries) => Ok(if "messages" in entries then Some(entries["messages"]) else None)
    case VList(items) => if VStr("messages") in items then Err(ListIndexedByStr) else Ok(None)
    case VStr(s) =>
      IsSubstringIff("messages", s);
      if IsSubstring("messages", s) then Err(StrIndexedByStr) else Ok(None)
    case _ => Err(NotIterable(TypeName(data)))
  }

  /**
   * `[msg for msg in messages if msg.get('role') == 'user']`, evaluated left
   * to right: the first element that is not a dict raises.
   */
  function UserMessages(items: seq<Value>): (r: Result<seq<map<string, Value>>, Fault>)
    // the comprehension completes exactly when every element is a dict
    ensures r.Ok? <==> forall k | 0 <= k < |items| :: items[k].VDict?
    // it keeps user messages only, and keeps none exactly when there are none
    ensures r.Ok? ==> forall u | u in r.value :: IsUserMessage(VDict(u))
    ensures r.Ok? ==> (r.value == [] <==> forall k | 0 <= k < |items| :: !IsUserMessage(items[k]))
  {
    if items == [] then Ok([])
    else if !items[0].VDict? then Err(NoGetMethod(TypeName(items[0])))
    else
      match UserMessages(items[1..])
      case Err(f) =>
        assert !items[1..][0].VDict? || exists k | 0 <= k < |items[1..]| :: !items[1..][k].VDict?;
        Err(f)
      case Ok(rest) =>
        Ok(if IsUserMessage(items[0]) then [items[0].entries] + rest else rest)
  }

  /** When every element is a dict, the filter's last entry is the last user message. */
  lemma {:induction false} LastUserMessageSelected(items: seq<Value>, i: int)
    requires forall k | 0 <= k < |items| :: items[k].VDict?
    requires IsLastUserMessage(items, i)
    ensures UserMessages(items).Ok? && UserMessages(items).value != []
    ensures var us := UserMessages(items).value; us[|us| - 1] == items[i].entries
    decreases |items|
  {
    var tail := items[1..];
    if i == 0 {
      assert forall k | 0 <= k < |tail| :: !IsUserMessage(tail[k]) by {
        forall k | 0 <= k < |tail| ensures !IsUserMessage(tail[k]) {
          assert tail[k] == items[k + 1];
        }
      }
    } else {
      assert IsLastUserMessage(tail, i - 1) by {
        forall j | i - 1 < j < |tail| ensures !IsUserMessage(tail[j]) {
          assert tail[j] == items[j + 1];
        }
      }
      LastUserMessageSelected(tail, i - 1);
    }
  }

  /** The first element that is not a dict decides the fault, whatever follows or precedes it. */
  lemma {:induction false} FirstNonDictFails(items: seq<Value>, k: int)
    requires 0 <= k < |items| && !items[k].VDict?
    requires forall j | 0 <= j < k :: items[j].VDict?
    ensures UserMessages(items) == Err(NoGetMethod(TypeName(items[k])))
    decreases k
  {
    if k > 0 {
      FirstNonDictFails(items[1..], k - 1);
    }
  }

  /** `data.get('session_id')` when truthy, otherwise the freshly generated id. */
  function ResolveSession(entries: map<string, Value>, genId: string): (sid: Value)
    ensures Truthy(Get(entries, "session_id", VNone)) ==> sid == entries["session_id"]
    ensures !Truthy(Get(entries, "session_id", VNone)) ==> sid == VStr(genId)
    ensures genId != "" ==> Truthy(sid)
  {
    var given := Get(entries, "session_id", VNone);
    if Truthy(given) then given else VStr(genId)
  }

  /** The handler up to the agent call (views.py lines 41-77). */
  function ReadRequest(data: Value, genId: string, show: Value -> string): (stage: Stage)
    // `'messages' in data` or `data['messages']` raising ends the request with that fault
    ensures MessagesField(data).Err? ==> stage == Fail(MessagesField(data).error)
    // a body without a 'messages' entry (an empty list, a string not containing it) is a format error
    ensures MessagesField(data) == Ok(None) ==> stage == Reject(InvalidFormatError)
    // only a dict body whose 'messages' is a list gets as far as the agent
    ensures stage.Call? ==> data.VDict? && "messages" in data.entries && data.entries["messages"].VList?
    // a rejection carries one of the two fixed messages
    ensures stage.Reject? ==> stage.error == InvalidFormatError || stage.error == NoUserMessageError
    // the session id: a truthy one is kept, a missing or falsy one replaced by the generated id
    ensures stage.Call? ==> stage.sessionId == ResolveSession(data.entries, genId)
    // isFirstInteraction is echoed, False when absent
    ensures stage.Call? && "isFirstInteraction" in data.entries ==>
              stage.firstInteraction == data.entries["isFirstInteraction"]
    ensures stage.Call? && "isFirstInteraction" !in data.entries ==> stage.firstInteraction == VBool(false)
    // the prompt always starts with the fixed prefix
    ensures stage.Call? ==> |stage.prompt| >= |PromptPrefix| && stage.prompt[..|PromptPrefix|] == PromptPrefix
  {
    match MessagesField(data)
    case Err(f) => Fail(f)
    case Ok(None) => Reject(InvalidFormatError)
    case Ok(Some(messages)) =>
      if !messages.VList? then Reject(InvalidFormatError)
      else
        match UserMessages(messages.items)
        case Err(f) => Fail(f)
        case Ok(users) =>
          if users == [] then Reject(NoUserMessageError)
          else
            var last := users[|users| - 1];
            if "content" !in last then Fail(MissingKey("content"))
            else
              Call(PromptPrefix + Text(last["content"], show),
                   ResolveSession(data.entries, genId),
                   Get(data.entries, "isFirstInteraction", VBool(false)))
  }

  /**
   * `data = request.data` (views.py line 41): DRF parses the body at that
   * point, inside the `try`, so a body it cannot parse is a fault like any
   * other. `body` is Err(message) when parsing raises.
   */
  function ReadBody(body: Result<Value, string>, genId: string, show: Value -> string): (stage: Stage)
    ensures body.Err? ==> stage == Fail(BodyUnreadable(body.error))
    ensures body.Ok? ==> stage == ReadRequest(body.value, genId, show)
  {
    match body
    case Err(m) => Fail(BodyUnreadable(m))
    case Ok(data) => ReadRequest(data, genId, show)
  }

  /** The whole handler: every path ends in a response; no exception escapes it. */
  function Post(body: Result<Value, string>, agent: (string, Value) -> AgentOutcome, genId: string, now: string,
                parse: string -> Option<Value>, show: Value -> string): (r: Response)
    // success exactly when the request reaches the agent and the agent replies
    ensures r.Ok200? <==>
              (var stage := ReadBody(body, genId, show);
               stage.Call? && agent(stage.prompt, stage.sessionId).Replied?)
    // a 400 is decided before the agent is involved, and carries the rejection's message
    ensures r.Bad400? <==> ReadBody(body, genId, show).Reject?
    ensures ReadBody(body, genId, show).Reject? ==> r == Bad400(ReadBody(body, genId, show).error)
    // a fault before the agent call becomes a 500 carrying that very fault
    ensures ReadBody(body, genId, show).Fail? ==> r == Err500(ReadBody(body, genId, show).fault)
    // an agent that raises becomes a 500 carrying its message
    ensures var stage := ReadBody(body, genId, show);
              stage.Call? && agent(stage.prompt, stage.sessionId).Raised? ==>
              r == Err500(AgentRaised(agent(stage.prompt, stage.sessionId).message))
  {
    match ReadBody(body, genId, show)
    case Reject(e) => Bad400(e)
    case Fail(f) => Err500(f)
    case Call(prompt, sid, first) =>
      match agent(prompt, sid)
      case Raised(m) => Err500(AgentRaised(m))
      case Replied(reply) => Ok200(Envelope(Extract(reply, parse, show), now, first, sid))
  }

  /** The body of an error response. */
  function ErrorBody(message: string): Value {
    VDict(map["error" := VStr(message)])
  }

  /** The `Response(...)` the handler builds (views.py lines 44-47, 52-55, 108-128, 132-135). */
  function Render(r: Response): (h: HttpReply)
    ensures r.Bad400? ==> h == HttpReply(400, ErrorBody(r.error))
    ensures r.Err500? ==> h == HttpReply(500, ErrorBody(ErrorPrefix + FaultMessage(r.fault)))
    // a success holds exactly one choice: index 0, role assistant, the extracted content
    ensures r.Ok200? ==> h.status == 200 && h.body.VDict? && h.body.entries.Keys == {"choices", "metadata"}
    ensures r.Ok200? ==>
              h.body.entries["choices"]
              == VList([VDict(map["index" := VInt(0),
                                  "message" := VDict(map["role" := VStr("assistant"),
                                                         "content" := r.envelope.content])])])
    // metadata carries the timestamp, the echoed flag and the session id
    ensures r.Ok200? ==>
              h.body.entries["metadata"]
              == VDict(map["timestamp" := VStr(r.envelope.timestamp),
                           "isFirstInteraction" := r.envelope.firstInteraction,
                           "session_id" := r.envelope.sessionId])
  {
    match r
    case Bad400(e) => HttpReply(400, ErrorBody(e))
    case Err500(f) => HttpReply(500, ErrorBody(ErrorPrefix + FaultMessage(f)))
    case Ok200(Envelope(content, timestamp, first, sid)) =>
      var choice := VDict(map["index" := VInt(0),
                              "message" := VDict(map["role" := VStr("assistant"), "content" := content])]);
      var metadata := VDict(map["timestamp" := VStr(timestamp), "isFirstInteraction" := first,
                                "session_id" := sid]);
      HttpReply(200, VDict(map["choices" := VList([choice]), "metadata" := metadata]))
  }

  /** A dict body without a list under 'messages' is rejected with the format error, and only such a body. */
  lemma InvalidFormatRejected(data: Value, genId: string, show: Value -> string)
    requires data.VDict?
    ensures ReadRequest(data, genId, show) == Reject(InvalidFormatError) <==>
              ("messages" !in data.entries || !data.entries["messages"].VList?)
  {
  }

  /**
   * A dict body with a list of dicts is rejected as having no user message
   * exactly when no element has role "user" (an empty list included).
   */
  lemma {:induction false} NoUserMessageRejected(data: Value, genId: string, show: Value -> string)
    requires data.VDict? && "messages" in data.entries && data.entries["messages"].VList?
    ensures var items := data.entries["messages"].items;
      ReadRequest(data, genId, show) == Reject(NoUserMessageError) <==>
        (forall k | 0 <= k < |items| :: items[k].VDict? && !IsUserMessage(items[k]))
  {
  }

  /**
   * The agent is asked about the last user message, whatever surrounds it:
   * the prompt is the prefix followed by that message's content, or the
   * request fails with KeyError('content') when it has none.
   */
  lemma PromptFromLastUserMessage(data: Value, genId: string, show: Value -> string, i: int)
    requires data.VDict? && "messages" in data.entries && data.entries["messages"].VList?
    requires forall k | 0 <= k < |data.entries["messages"].items| :: data.entries["messages"].items[k].VDict?
    requires IsLastUserMessage(data.entries["messages"].items, i)
    ensures var last := data.entries["messages"].items[i].entries;
      if "content" in last then
        ReadRequest(data, genId, show).Call?
        && ReadRequest(data, genId, show).prompt == PromptPrefix + Text(last["content"], show)
      else
        ReadRequest(data, genId, show) == Fail(MissingKey("content"))
  {
    LastUserMessageSelected(data.entries["messages"].items, i);
  }

  /**
   * An element that is not a dict makes the whole request fail, even when a
   * user message comes before it.
   */
  lemma NonDictMessageFails(data: Value, genId: string, show: Value -> string, k: int)
    requires data.VDict? && "messages" in data.entries && data.entries["messages"].VList?
    requires 0 <= k < |data.entries["messages"].items| && !data.entries["messages"].items[k].VDict?
    requires forall j | 0 <= j < k :: data.entries["messages"].items[j].VDict?
    ensures ReadRequest(data, genId, show) == Fail(NoGetMethod(TypeName(data.entries["messages"].items[k])))
  {
    FirstNonDictFails(data.entries["messages"].items, k);
  }

  /**
   * When the request does not reach the agent call, the response does not
   * depend on the agent at all, and it is not a success.
   */
  lemma AgentNotCalledBeforeCall(body: Result<Value, string>, agent1: (string, Value) -> AgentOutcome,
                                 agent2: (string, Value) -> AgentOutcome, genId: string, now: string,
                                 parse: string -> Option<Value>, show: Value -> string)
    requires !ReadBody(body, genId, show).Call?
    ensures Post(body, agent1, genId, now, parse, show) == Post(body, agent2, genId, now, parse, show)
    ensures !Post(body, agent1, genId, now, parse, show).Ok200?
  {
  }

  /**
   * A success echoes the session id the agent was called with, the supplied
   * timestamp and the flag, and its content is the extracted reply.
   */
  lemma SuccessEnvelope(body: Result<Value, string>, agent: (string, Value) -> AgentOutcome, genId: string, now: string,
                        parse: string -> Option<Value>, show: Value -> string)
    requires Post(body, agent, genId, now, parse, show).Ok200?
    ensures var stage := ReadBody(body, genId, show);
      var e := Post(body, agent, genId, now, parse, show).envelope;
      stage.Call? && agent(stage.prompt, stage.sessionId).Replied?
      && e.content == Extract(agent(stage.prompt, stage.sessionId).reply, parse, show)
      && e.sessionId == stage.sessionId && e.timestamp == now
      && e.firstInteraction == stage.firstInteraction
  {
  }

  /** An agent that raises yields a 500 whose message is the agent's, after the fixed prefix. */
  lemma AgentFailureIs500(body: Result<Value, string>, agent: (string, Value) -> AgentOutcome, genId: string, now: string,
                          parse: string -> Option<Value>, show: Value -> string)
    requires ReadBody(body, genId, show).Call?
    requires agent(ReadBody(body, genId, show).prompt, ReadBody(body, genId, show).sessionId).Raised?
    ensures var m := agent(ReadBody(body, genId, show).prompt, ReadBody(body, genId, show).sessionId).message;
      Render(Post(body, agent, genId, now, parse, show)) == HttpReply(500, ErrorBody(ErrorPrefix + m))
  {
  }

  /**
   * A body that cannot be parsed, or a fault before the agent call, yields a
   * 500 whose message is the fault's, after the fixed prefix: for instance
   * "An error occurred: 'content'" for a last user message without content.
   */
  lemma FaultBeforeCallIs500(body: Result<Value, string>, agent: (string, Value) -> AgentOutcome, genId: string,
                             now: string, parse: string -> Option<Value>, show: Value -> string)
    requires ReadBody(body, genId, show).Fail?
    ensures Render(Post(body, agent, genId, now, parse, show))
            == HttpReply(500, ErrorBody(ErrorPrefix + FaultMessage(ReadBody(body, genId, show).fault)))
  {
  }

  /**
   * The smallest request, one user message and nothing else, reaches the agent
   * with the prefixed text and a generated session id, and succeeds when the
   * agent replies.
   */
  lemma SingleUserMessage(agent: (string, Value) -> AgentOutcome, genId: string, now: string,
                          parse: string -> Option<Value>, show: Value -> string)
    requires genId != ""
    requires agent(PromptPrefix + "quiero ver el menú", VStr(genId)).Replied?
    ensures var data := VDict(map["messages" := VList([VDict(map["role" := VStr("user"),
                                                                 "content" := VStr("quiero ver el menú")])])]);
      var h := Render(Post(Ok(data), agent, genId, now, parse, show));
      h.status == 200 && h.body.entries["metadata"].entries["session_id"] == VStr(genId)
      && h.body.entries["metadata"].entries["isFirstInteraction"] == VBool(false)
  {
    var message := map["role" := VStr("user"), "content" := VStr("quiero ver el menú")];
    var data := VDict(map["messages" := VList([VDict(message)])]);
    assert UserMessages([VDict(message)]) == Ok([message]) by {
      assert [VDict(message)][1..] == [];
      assert UserMessages([]) == Ok([]);
      assert IsUserMessage(VDict(message));
      assert [VDict(message).entries] + [] == [message];
    }
    assert MessagesField(data) == Ok(Some(VList([VDict(message)])));
    var stage := ReadRequest(data, genId, show);
    assert stage == Call(PromptPrefix + "quiero ver el menú", VStr(genId), VBool(false));
    var r := Post(Ok(data), agent, genId, now, parse, show);
    assert r.Ok200? && r.envelope.sessionId == VStr(genId) && r.envelope.firstInteraction == VBool(false);
  }
}
