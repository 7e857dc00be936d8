/**
 * Reduction of the agent's loosely typed reply to the one value placed in the
 * response's `content` field.
 */
module ReplyExtraction {
  import opened Wrappers
  import opened PyValues

  /**
   * What the agent runtime hands back. `outputAttr` is the value of an
   * `output` attribute when the object has one (`hasattr(reply, 'output')`);
   * `body` says whether the object is a dict, a str or something else, and
   * for something else carries its `str()`.
   */
  datatype AgentReply = AgentReply(outputAttr: Option<Value>, body: ReplyBody)

  datatype ReplyBody =
    | DictBody(entries: map<string, Value>)
    | StrBody(s: string)
    | ObjectBody(text: string)

  /** The handler only tries to parse a string holding both `{` and `}`, in any order. */
  predicate HasBraces(s: string) {
    '{' in s && '}' in s
  }

  /** A parsed value the handler accepts: a dict with an 'output' key. */
  predicate HasOutputKey(v: Value) {
    v.VDict? && "output" in v.entries
  }

  /**
   * The reply content. `parse` stands for `eval`: None when evaluation raises,
   * Some(v) when it yields v. `show` is `str()` of a non-string value.
   * The content starts as "" and is overwritten by at most one branch; a
   * parsed string without an 'output' key overwrites nothing.
   */
  function Extract(reply: AgentReply, parse: string -> Option<Value>, show: Value -> string): (content: Value)
    // 1. an `output` attribute wins over every other reading of the reply
    ensures reply.outputAttr.Some? ==> content == reply.outputAttr.value
    // 2. next, a dict's 'output' key
    ensures reply.outputAttr.None? && reply.body.DictBody? && "output" in reply.body.entries ==>
              content == reply.body.entries["output"]
    // 3. a string lacking a brace, or one whose parse fails, is returned unchanged
    ensures reply.outputAttr.None? && reply.body.StrBody?
              && (!HasBraces(reply.body.s) || parse(reply.body.s).None?) ==>
              content == VStr(reply.body.s)
    // 4. a braced string that parses to a dict with 'output' yields that value ...
    ensures reply.outputAttr.None? && reply.body.StrBody? && HasBraces(reply.body.s)
              && parse(reply.body.s).Some? && HasOutputKey(parse(reply.body.s).value) ==>
              content == parse(reply.body.s).value.entries["output"]
    // ... and one that parses to anything else yields the empty string
    ensures reply.outputAttr.None? && reply.body.StrBody? && HasBraces(reply.body.s)
              && parse(reply.body.s).Some? && !HasOutputKey(parse(reply.body.s).value) ==>
              content == VStr("")
    // 5. any other reply becomes its str()
    ensures reply.outputAttr.None? && reply.body.DictBody? && "output" !in reply.body.entries ==>
              content == VStr(show(VDict(reply.body.entries)))
    ensures reply.outputAttr.None? && reply.body.ObjectBody? ==> content == VStr(reply.body.text)
  {
    if reply.outputAttr.Some? then reply.outputAttr.value
    else
      match reply.body
      case DictBody(entries) =>
        if "output" in entries then entries["output"] else VStr(show(VDict(entries)))
      case StrBody(s) =>
        if HasBraces(s) then
          match parse(s)
          case None => VStr(s)
          case Some(parsed) => if HasOutputKey(parsed) then parsed.entries["output"] else VStr("")
        else VStr(s)
      case ObjectBody(text) => VStr(text)
  }

  /**
   * A variant of the same precedence that returns the raw string whenever no
   * 'output' is found in it, parsed or not. Kept only to compare with Extract.
   */
  function ExtractWithRawFallback(reply: AgentReply, parse: string -> Option<Value>, show: Value -> string): Value {
    if reply.outputAttr.Some? then reply.outputAttr.value
    else
      match reply.body
      case DictBody(entries) =>
        if "output" in entries then entries["output"] else VStr(show(VDict(entries)))
      case StrBody(s) =>
        if HasBraces(s) && parse(s).Some? && HasOutputKey(parse(s).value)
        then parse(s).value.entries["output"]
        else VStr(s)
      case ObjectBody(text) => VStr(text)
  }

  /**
   * The handler and the raw-string fallback agree on every reply except a
   * braced string that parses to something other than a dict with 'output':
   * there the handler answers "" where the fallback answers the string itself.
   */
  lemma ExtractDiffersFromRawFallback(reply: AgentReply, parse: string -> Option<Value>, show: Value -> string)
    ensures Extract(reply, parse, show) != ExtractWithRawFallback(reply, parse, show)
        <==> reply.outputAttr.None? && reply.body.StrBody? && HasBraces(reply.body.s)
             && parse(reply.body.s).Some? && !HasOutputKey(parse(reply.body.s).value)
  {
  }

  /**
   * A value that is not a string can only have come from an 'output' the
   * reply carried: the attribute, the dict key, or the key of the parsed string.
   */
  lemma NonTextContentIsAnOutput(reply: AgentReply, parse: string -> Option<Value>, show: Value -> string)
    requires !Extract(reply, parse, show).VStr?
    ensures var content := Extract(reply, parse, show);
      || reply.outputAttr == Some(content)
      || (reply.body.DictBody? && "output" in reply.body.entries && reply.body.entries["output"] == content)
      || (reply.body.StrBody? && HasBraces(reply.body.s) && parse(reply.body.s).Some?
          && HasOutputKey(parse(reply.body.s).value) && parse(reply.body.s).value.entries["output"] == content)
  {
  }

  /**
   * A dict that also exposes an `output` attribute is read through the
   * attribute, whatever its 'output' key holds.
   */
  lemma AttributeBeatsKey(a: Value, entries: map<string, Value>, parse: string -> Option<Value>, show: Value -> string)
    requires "output" in entries
    ensures Extract(AgentReply(Some(a), DictBody(entries)), parse, show) == a
  {
  }

  /** The quirk on a concrete string: "{'x': 1}" evaluates to a dict without 'output' and yields "". */
  lemma BracedStringWithoutOutputIsEmpty(parse: string -> Option<Value>, show: Value -> string)
    requires parse("{'x': 1}") == Some(VDict(map["x" := VInt(1)]))
    ensures Extract(AgentReply(None, StrBody("{'x': 1}")), parse, show) == VStr("")
    ensures ExtractWithRawFallback(AgentReply(None, StrBody("{'x': 1}")), parse, show) == VStr("{'x': 1}")
  {
  }
}
