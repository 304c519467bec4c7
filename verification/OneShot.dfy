/** The non-streaming translation: one complete Chat Completions response to one Responses
    payload. */
module OneShot {
  import opened Strings
  import opened ThinkTag
  import opened Payloads

  function PartText(part: ContentPart): string {
    match part
    case StringPart(text) => text
    case TextPart(text) => text
    case OtherPart => ""
  }

  function PartListText(parts: seq<ContentPart>): string {
    if parts == [] then "" else PartListText(parts[..|parts| - 1]) + PartText(parts[|parts| - 1])
  }

  function TextContent(content: Content): string {
    match content
    case NoContent => ""
    case PlainText(text) => text
    case PartList(parts) => PartListText(parts)
  }

  /** `extractChatMessageVisibleText`: content first, `reasoning_content` only in its absence. */
  function VisibleText(message: ChatMessage): string {
    var text := TextContent(message.content);
    if text != "" then text else OrElse(message.reasoningContent, "")
  }

  function PrefixFor(kind: Kind): string {
    match kind
    case Message => "msg"
    case Reasoning => "rs"
  }

  function PartFor(kind: Kind, text: string, annotations: seq<string>): Part {
    match kind
    case Message => OutputText(text, annotations)
    case Reasoning => ReasoningText(text)
  }

  /** A finished text item at position `index` of the output. */
  function TextItem(responseId: string, index: nat, kind: Kind, text: string,
                    annotations: seq<string>): Item
  {
    var id := GeneratedId(PrefixFor(kind), responseId, index);
    match kind
    case Message => MessageItem(id, Complete, [PartFor(kind, text, annotations)])
    case Reasoning => ReasoningItem(id, [PartFor(kind, text, annotations)])
  }

  function TextItems(responseId: string, segments: seq<Segment>, annotations: seq<string>): seq<Item> {
    if segments == [] then []
    else
      var n := |segments| - 1;
      TextItems(responseId, segments[..n], annotations)
      + [TextItem(responseId, n, segments[n].kind, segments[n].text, annotations)]
  }

  /** The output items of a message, before its tool calls. */
  ghost function MessageItems(message: ChatMessage, responseId: string): seq<Item> {
    if OrElse(message.refusal, "") != "" then
      [MessageItem(GeneratedId("msg", responseId, 0), Complete, [Refusal(message.refusal.value)])]
    else
      TextItems(responseId, Split(THINK_TAGS, VisibleText(message)), message.annotations)
  }

  /** One tool call at position `index`; nothing when it has no name. */
  function CallItem(call: MessageCall, responseId: string, index: nat): seq<Item> {
    match call
    case NotAnObject => []
    case MessageCall(id, name, arguments) =>
      if OrElse(name, "") == "" then []
      else
        var callId := if id.Some? then id.value else GeneratedId("call", responseId, index);
        [FunctionCall(GeneratedId("fc", responseId, index), callId, name.value, arguments)]
  }

  /** Positions count every entry of the list, also those that yield no item. */
  function CallItems(calls: seq<MessageCall>, responseId: string, start: nat): seq<Item> {
    if calls == [] then []
    else
      var n := |calls| - 1;
      CallItems(calls[..n], responseId, start) + CallItem(calls[n], responseId, start + n)
  }

  /** The whole payload.  `now` stands in for a missing `created`. */
  ghost function Convert(completion: Completion, uuid: string, now: real): Response {
    var id := ToResponseId(completion.id, uuid);
    var texts := MessageItems(completion.message, id);
    var output := texts + CallItems(completion.message.toolCalls, id, |texts|);
    Response(id, OrElse(completion.created, now), StatusOf(completion.finishReason),
             IncompleteOf(completion.finishReason), OrElse(completion.model, ""), output,
             TokenUsageOf(completion.usage), NonEmpty(OutputTextOf(output)))
  }

  // ----- What a payload says -----

  /** The usage of a payload is that of the completion. */
  lemma PayloadUsage(completion: Completion, uuid: string, now: real)
    ensures ReportsUsage(Convert(completion, uuid, now).usage, completion.usage)
  {
    hide MessageItems, CallItems, OutputTextOf, ToResponseId, TokenUsageOf;
    UsageIsReported(completion.usage);
  }

  /** The other fields of a payload: its identifier, the model and time stamp of the completion or else none and
      the present, and the visible text if there is any. */
  lemma PayloadMetadata(completion: Completion, uuid: string, now: real)
    ensures
      var r := Convert(completion, uuid, now);
      && (completion.id.Some? && completion.id.value != "" && !("resp_" <= completion.id.value) ==>
            r.id == "resp_" + completion.id.value)
      && (completion.id.Some? && "resp_" <= completion.id.value ==> r.id == completion.id.value)
      && (completion.created.Some? ==> r.createdAt == completion.created.value)
      && (completion.created.None? ==> r.createdAt == now)
      && (completion.model.Some? ==> r.model == completion.model.value)
      && (completion.model.None? ==> r.model == "")
      && (OutputTextOf(r.output) != "" ==> r.outputText == Some(OutputTextOf(r.output)))
      && (OutputTextOf(r.output) == "" ==> r.outputText == None)
  {
    hide MessageItems, CallItems, OutputTextOf, TokenUsageOf;
  }

  /** Content given as a list says what its strings and its text parts say, in order, and nothing else. */
  lemma PartListReads(parts: seq<ContentPart>, text: string)
    ensures TextContent(PartList([])) == "" && TextContent(NoContent) == "" && TextContent(PlainText(text)) == text
    ensures TextContent(PartList(parts + [StringPart(text)])) == TextContent(PartList(parts)) + text
    ensures TextContent(PartList(parts + [TextPart(text)])) == TextContent(PartList(parts)) + text
    ensures TextContent(PartList(parts + [OtherPart])) == TextContent(PartList(parts))
  {
    forall part: ContentPart
      ensures (parts + [part])[..|parts|] == parts
    {
    }
    assert PartListText(parts) + "" == PartListText(parts);
  }

  /** A named call of a message keeps its name, its arguments and its identifier, if it has one. */
  lemma NamedCallComesOut(id: string, name: string, arguments: string, responseId: string, index: nat)
    requires name != ""
    ensures CallItem(MessageCall(Some(id), Some(name), arguments), responseId, index) ==
            [FunctionCall(GeneratedId("fc", responseId, index), id, name, arguments)]
    ensures CallItem(MessageCall(None, Some(name), arguments), responseId, index) ==
            [FunctionCall(GeneratedId("fc", responseId, index), GeneratedId("call", responseId, index), name,
                          arguments)]
  {
    hide GeneratedId;
  }

  /** A message's own text wins over its reasoning content. */
  lemma VisibleTextIs(message: ChatMessage)
    ensures TextContent(message.content) != "" ==> VisibleText(message) == TextContent(message.content)
    ensures TextContent(message.content) == "" && message.reasoningContent.Some? ==>
              VisibleText(message) == message.reasoningContent.value
  {
  }

  // ----- The loops -----

  method SanitizeIdLoop(s: string) returns (safe: string)
    ensures safe == SanitizeId(s)
    ensures |safe| == |s|
    ensures forall i :: 0 <= i < |s| ==>
              if 'a' <= s[i] <= 'z' || 'A' <= s[i] <= 'Z' || '0' <= s[i] <= '9' || s[i] == '_' || s[i] == '-'
              then safe[i] == s[i] else safe[i] == '_'
  {
    safe := "";
    for i := 0 to |s|
      invariant safe == SanitizeId(s[..i]) && |safe| == i
      invariant forall k :: 0 <= k < i ==> safe[k] == if IsIdChar(s[k]) then s[k] else '_'
    {
      assert s[..i + 1][..i] == s[..i];
      safe := safe + [if IsIdChar(s[i]) then s[i] else '_'];
    }
    assert s[..|s|] == s;
  }

  method ConvertChatMessageToResponseItems(message: ChatMessage, responseId: string)
    returns (out: seq<Item>)
    ensures out == MessageItems(message, responseId)
  {
    hide GeneratedId, Split;
    if OrElse(message.refusal, "") != "" {
      return [MessageItem(GeneratedId("msg", responseId, 0), Complete, [Refusal(message.refusal.value)])];
    }
    var segments := SplitThinkTaggedText(THINK_TAGS, VisibleText(message));
    out := [];
    for i := 0 to |segments|
      invariant out == TextItems(responseId, segments[..i], message.annotations)
    {
      var seg := segments[i];
      assert segments[..i + 1][..i] == segments[..i];
      if seg.kind == Reasoning {
        out := out + [ReasoningItem(GeneratedId("rs", responseId, i), [ReasoningText(seg.text)])];
        continue;
      }
      out := out + [MessageItem(GeneratedId("msg", responseId, i), Complete,
                                [OutputText(seg.text, message.annotations)])];
    }
    assert segments[..|segments|] == segments;
  }

  method ConvertChatToolCallsToResponseItems(calls: seq<MessageCall>, responseId: string, start: nat)
    returns (out: seq<Item>)
    ensures out == CallItems(calls, responseId, start)
  {
    hide GeneratedId;
    out := [];
    for offset := 0 to |calls|
      invariant out == CallItems(calls[..offset], responseId, start)
    {
      hide CallItems;
      CallItemsGrow(calls, responseId, start, offset);
      if calls[offset].NotAnObject? || OrElse(calls[offset].name, "") == "" {
        continue;
      }
      var callId := if calls[offset].id.Some? then calls[offset].id.value
                    else GeneratedId("call", responseId, start + offset);
      out := out + [FunctionCall(GeneratedId("fc", responseId, start + offset), callId,
                                 calls[offset].name.value, calls[offset].arguments)];
    }
    assert calls[..|calls|] == calls;
  }

  lemma CallItemsGrow(calls: seq<MessageCall>, responseId: string, start: nat, offset: nat)
    requires offset < |calls|
    ensures CallItems(calls[..offset + 1], responseId, start) ==
            CallItems(calls[..offset], responseId, start) + CallItem(calls[offset], responseId, start + offset)
  {
    hide CallItem;
    assert calls[..offset + 1][..offset] == calls[..offset];
  }

  method CollectOutputText(output: seq<Item>) returns (text: string)
    ensures text == OutputTextOf(output)
  {
    text := "";
    for i := 0 to |output|
      invariant text == OutputTextOf(output[..i])
    {
      assert output[..i + 1][..i] == output[..i];
      if output[i].FunctionCall? {
        continue;
      }
      var more := CollectPartsText(output[i].content);
      text := text + more;
    }
    assert output[..|output|] == output;
  }

  /** The inner loop of `collectOutputText`. */
  method CollectPartsText(parts: seq<Part>) returns (text: string)
    ensures text == PartsText(parts)
  {
    text := "";
    for j := 0 to |parts|
      invariant text == PartsText(parts[..j])
    {
      assert parts[..j + 1][..j] == parts[..j];
      if parts[j].OutputText? {
        text := text + parts[j].text;
      }
    }
    assert parts[..|parts|] == parts;
  }

  /** `ConvertChatCompletionToResponsePayload`. */
  method ConvertChatCompletionToResponsePayload(completion: Completion, uuid: string, now: real)
    returns (response: Response)
    ensures response == Convert(completion, uuid, now)
  {
    var id := ToResponseId(completion.id, uuid);
    var output := ConvertChatMessageToResponseItems(completion.message, id);
    var calls := ConvertChatToolCallsToResponseItems(completion.message.toolCalls, id, |output|);
    output := output + calls;
    var text := CollectOutputText(output);
    response := Response(id, OrElse(completion.created, now), StatusOf(completion.finishReason),
                         IncompleteOf(completion.finishReason), OrElse(completion.model, ""), output,
                         TokenUsageOf(completion.usage), NonEmpty(text));
  }
}
