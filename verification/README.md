# Chat request handler of the restaurant-assistant agent, modelled in Dafny

The repository serves a hosted conversational agent over `POST /chat/`.
Its one piece of logic is the request handler `AgentEndpoint.post`
(`agent_api/views.py`). The handler does these steps in order:

- it checks that the JSON body carries a `messages` list;
- it picks the content of the last message whose `role` is `"user"`;
- it keeps the caller's `session_id` or generates one;
- it calls the agent with `"Mensaje del usuario: "` followed by that content;
- it reduces the agent's loosely typed reply to a single value;
- it answers with an OpenAI-style envelope, a 400 with a fixed message, or a 500 with `"An error occurred: "` and the exception text.

The model is a set of pure functions.

- `wrappers.dfy`: `Option` and `Result`.
- `py_values.dfy` (module `PyValues`): the Python values involved (the JSON body, message fields, what `eval` and the agent return), truthiness, `type().__name__`, `dict.get`, `str()` and `in` on strings.
- `reply_extraction.dfy` (module `ReplyExtraction`): the agent reply as a tagged value, and the reduction of lines 87-105 with its precedence: `output` attribute, then `'output'` key, then string handling, then `str(reply)`.
- `agent_endpoint.dfy` (module `AgentEndpoint`): the handler. `ReadBody` covers reading `request.data`, which DRF parses at that point, inside the `try`. `ReadRequest` covers everything from there up to the agent call. `Post` covers the whole handler. `Render` gives the status code and the JSON body.

The outside world enters as parameters of `Post`:

- `agent` is `query_agent`. It returns a reply or raises with a message.
- `genId` is `str(uuid.uuid4())`.
- `now` is the El Salvador clock, already formatted as `YYYY-MM-DD HH:MM:SS`.
- `parse` is the `eval` of a reply string. It returns `None` when evaluation raises.
- `show` is Python's `str()` of a value that is not a string.

Every exception the handler's body raises on the paths modelled is a `Fault`, and `Post` turns it into a 500. This includes a body DRF cannot parse. `Post` is total, so no exception escapes the handler.

One case of the reply reduction is easy to misread. A braced string reply that parses, but not to a dict with `'output'`, yields `""` rather than the string itself. This happens because `response_content` starts as `""` (line 87) and only the `except` branch (lines 99-100) overwrites it. `Extract` models this behaviour. `ExtractWithRawFallback` is a variant that returns the raw string whenever no `'output'` is found. `ExtractDiffersFromRawFallback` proves that the two differ on exactly those replies.

## Model

| member | source | states |
|---|---|---|
| `PyValues.IsSubstringIff` | agent_api/views.py:43 | `'messages' in data` on a string body finds the key exactly when it occurs at some offset of the body |
| `ReplyExtraction.Extract` | agent_api/views.py:87-105 | reply precedence: the `output` attribute wins; next a dict's `'output'` key; a string lacking a brace or failing to parse is returned unchanged; a braced string parsing to a dict with `'output'` yields that value, and parsing to anything else yields `""`; otherwise `str(reply)` |
| `ReplyExtraction.ExtractDiffersFromRawFallback` | agent_api/views.py:87-102 | the handler and the variant that falls back to the raw string agree on every reply except a braced string that parses to something without `'output'`; on that reply they differ |
| `ReplyExtraction.NonTextContentIsAnOutput` | agent_api/views.py:87-105 | a non-string content can only be an `output` the reply carried (attribute, dict key, or key of the parsed string) |
| `ReplyExtraction.AttributeBeatsKey` | agent_api/views.py:88-91 | a dict that also exposes an `output` attribute is read through the attribute, whatever its `'output'` key holds |
| `ReplyExtraction.BracedStringWithoutOutputIsEmpty` | agent_api/views.py:87-100 | `"{'x': 1}"` evaluating to a dict without `'output'` yields `""`, where the raw-string fallback gives the string itself |
| `AgentEndpoint.MessagesField` | agent_api/views.py:43 | only a dict body can yield a `messages` value; on a dict it is the key's value or absent; on a list it is absent unless `"messages"` is an element, in which case indexing raises; on a string it is absent unless `"messages"` occurs in it, in which case indexing raises; on None, a bool or an int, `in` raises `NotIterable` |
| `AgentEndpoint.UserMessages` | agent_api/views.py:50 | the user-role filter completes exactly when every element is a dict, keeps only user messages, and is empty exactly when no element has role `"user"` |
| `AgentEndpoint.LastUserMessageSelected` | agent_api/views.py:50-58 | when every element is a dict, the last entry of the filter is the last element with role `"user"`, whatever comes before or after it |
| `AgentEndpoint.FirstNonDictFails` | agent_api/views.py:50 | the first element that is not a dict decides the fault (`'<type>' object has no attribute 'get'`) |
| `AgentEndpoint.ResolveSession` | agent_api/views.py:67-74 | a truthy `session_id` is kept unchanged; a missing or falsy one is replaced by the generated id; with a non-empty generated id the result is always truthy |
| `AgentEndpoint.ReadRequest` | agent_api/views.py:41-77 | when `'messages' in data` or `data['messages']` raises (a None, bool or int body; a list holding `"messages"`; a string containing it), the request fails with that fault; a body without a `messages` entry (any other list or string, or a dict without the key) is rejected with the format error; only a dict body with a list under `messages` reaches the agent; rejections carry one of the two fixed messages; the session id is resolved as above; `isFirstInteraction` is echoed and defaults to `False`; the prompt starts with `"Mensaje del usuario: "` |
| `AgentEndpoint.ReadBody` | agent_api/views.py:41 | a body DRF cannot parse fails with its parse error; a parsed body goes on to `ReadRequest` |
| `AgentEndpoint.Post` | agent_api/views.py:38-135 | success exactly when the request reaches the agent and the agent replies; a 400 exactly when the request is rejected before the agent call, with that rejection's message; a fault before the agent call becomes a 500 carrying that very fault; an agent that raises becomes a 500 carrying its message |
| `AgentEndpoint.Render` | agent_api/views.py:44-135 | 400 and 500 bodies are `{"error": ...}`, the 500 one prefixed with `"An error occurred: "`; a 200 body has exactly the keys `choices` and `metadata`, one choice with index 0, role `"assistant"` and the extracted content, and metadata with timestamp, flag and session id |
| `AgentEndpoint.InvalidFormatRejected` | agent_api/views.py:43-47 | a dict body is rejected with the format error exactly when `messages` is absent or not a list |
| `AgentEndpoint.NoUserMessageRejected` | agent_api/views.py:50-55 | with a list under `messages`, the request is rejected for lacking a user message exactly when every element is a dict without role `"user"` (the empty list included) |
| `AgentEndpoint.PromptFromLastUserMessage` | agent_api/views.py:50-77 | the prompt is `"Mensaje del usuario: "` followed by the content of the last user message; when that message has no `content`, the request fails with `KeyError('content')` |
| `AgentEndpoint.NonDictMessageFails` | agent_api/views.py:50 | an element that is not a dict makes the request fail, even after a user message |
| `AgentEndpoint.AgentNotCalledBeforeCall` | agent_api/views.py:43-84 | a request that does not reach the agent call gets the same response from every agent, and that response is not a success |
| `AgentEndpoint.SuccessEnvelope` | agent_api/views.py:61-123 | a success carries the extracted reply, the session id the agent was called with, the supplied timestamp and the echoed flag |
| `AgentEndpoint.AgentFailureIs500` | agent_api/views.py:84-135 | an agent that raises yields status 500 with `"An error occurred: "` followed by its message |
| `AgentEndpoint.FaultBeforeCallIs500` | agent_api/views.py:41-58 | an unparseable body, a non-dict element or a missing `content` renders as status 500 with `"An error occurred: "` followed by the fault's message |
| `AgentEndpoint.SingleUserMessage` | agent_api/views.py:38-128 | a body holding one user message and nothing else answers 200 with the generated session id and `isFirstInteraction` False |

## Left out

- The four tool adapters, the identity-token fetch, the Firestore session history and the agent configuration (`index.py`) are not part of this model. They are HTTP clients and third-party SDK setup. `query_agent` is the `agent` parameter. Its one branch, an empty config for a falsy session id, is never taken from this handler, because the handler always passes a truthy id.
- `eval` (line 96) is the `parse` parameter. Its side effects, its non-termination and values it can build beyond JSON shapes (tuples, sets, floats, non-string keys) are not modelled.
- `uuid4`, the clock and its timezone formatting (lines 32-36, 71), and all logging are inputs or omitted.
- `show`: Python's `repr` of dicts, lists, ints, booleans and `None` is not computed. It is a parameter, used both for formatting a non-string `content` into the prompt and for `str()` of a dict reply.
- Floating-point numbers are not in `Value`, so a float `session_id` or message field is not modelled.
- Bodies that DRF parses from form data (a `QueryDict`) are not modelled. Only JSON bodies are.
- A reply `output` that the JSON renderer cannot serialise fails outside the handler's `try`. That failure is not modelled, since every `Value` is JSON.
- The agent reply is assumed not to raise while it is read. Attribute access on it (lines 88-89) and `str(reply)` (line 105) are taken to succeed, so a reply object whose `output` property or `__str__` raises is not modelled.
- A body DRF cannot parse is an `Err` carrying DRF's exception text. The model does not compute that text (for instance `JSON parse error - …` or the unsupported-media-type message).
- `AgentEndpoint.FaultMessage` uses CPython 3.11+ wording for exception texts. Earlier versions say `string indices must be integers` for a string body.
