/** What the converter reads and writes, after JSON decoding and before JSON encoding. */
module Payloads {
  import opened Strings

  // ----- Chat Completions -----

  /** `finish_reason` when it is not null. */
  datatype FinishReason = Reason(text: string) | NotAString

  /** A `usage` object; each field is absent unless it is a number. */
  datatype Usage = Usage(inputTokens: Option<real>, promptTokens: Option<real>,
                         outputTokens: Option<real>, completionTokens: Option<real>,
                         totalTokens: Option<real>,
                         cachedTokens: Option<real>, reasoningTokens: Option<real>)

  /** One fragment of a streamed tool call. */
  datatype ToolDelta = ToolDelta(index: Option<int>, id: Option<string>,
                                 name: Option<string>, arguments: Option<string>)

  /** A streamed choice together with its `delta`. */
  datatype Choice = Choice(finishReason: Option<FinishReason>, content: Option<string>,
                           reasoningContent: Option<string>, toolCalls: seq<ToolDelta>,
                           refusal: Option<string>, annotations: seq<string>)

  datatype Chunk = Chunk(id: Option<string>, model: Option<string>, created: Option<real>,
                         usage: Option<Usage>, choices: seq<Choice>)

  datatype ContentPart = StringPart(text: string) | TextPart(text: string) | OtherPart
  datatype Content = NoContent | PlainText(text: string) | PartList(parts: seq<ContentPart>)

  /** A tool call of a complete message.  `arguments` is the text `normalizeFunctionArguments`
      makes of whatever was there. */
  datatype MessageCall =
    | MessageCall(id: Option<string>, name: Option<string>, arguments: string)
    | NotAnObject

  datatype ChatMessage = ChatMessage(content: Content, reasoningContent: Option<string>,
                             refusal: Option<string>, annotations: seq<string>,
                             toolCalls: seq<MessageCall>)

  /** A complete Chat Completions response; only its first choice is ever read. */
  datatype Completion = Completion(id: Option<string>, model: Option<string>, created: Option<real>,
                                   usage: Option<Usage>, finishReason: Option<FinishReason>,
                                   message: ChatMessage)

  // ----- Responses API -----

  datatype Part =
    | OutputText(text: string, annotations: seq<string>)
    | ReasoningText(text: string)
    | Refusal(text: string)

  datatype Status = InProgress | Complete | Incomplete
  datatype IncompleteReason = MaxOutputTokens | ContentFilter

  datatype Item =
    | MessageItem(id: string, status: Status, content: seq<Part>)
    | ReasoningItem(id: string, content: seq<Part>)
    | FunctionCall(id: string, callId: string, name: string, arguments: string)

  datatype TokenUsage = TokenUsage(input: real, output: real, total: real,
                                   cached: real, reasoning: real)

  datatype Response = Response(id: string, createdAt: real, status: Status,
                               incomplete: Option<IncompleteReason>, model: string,
                               output: seq<Item>, usage: Option<TokenUsage>,
                               outputText: Option<string>)

  // ----- Shared field mappings -----

  function OrElse<T>(o: Option<T>, default: T): T {
    match o
    case None => default
    case Some(v) => v
  }

  /** `toResponseID`; `uuid` is the random identifier used when there is none. */
  function ToResponseId(chatId: Option<string>, uuid: string): (id: string)
    ensures id != ""
  {
    var id := if OrElse(chatId, "") == "" then uuid else chatId.value;
    if "resp_" <= id then id else "resp_" + id
  }

  predicate IsIdChar(c: char) {
    'a' <= c <= 'z' || 'A' <= c <= 'Z' || '0' <= c <= '9' || c == '_' || c == '-'
  }

  function SanitizeId(s: string): string {
    if s == "" then "" else SanitizeId(s[..|s| - 1]) + [if IsIdChar(s[|s| - 1]) then s[|s| - 1] else '_']
  }

  const DIGITS := "0123456789"

  /** A decimal numeral, as `%d` prints it. */
  function Decimal(n: int): string
    decreases n < 0, if n < 0 then -n else n
  {
    if n < 0 then "-" + Decimal(-n)
    else if n < 10 then [DIGITS[n]]
    else Decimal(n / 10) + [DIGITS[n % 10]]
  }

  /** `generatedItemID`. */
  function GeneratedId(prefix: string, responseId: string, index: int): string {
    var stripped := if "resp_" <= responseId then responseId[5..] else responseId;
    prefix + "_" + SanitizeId(stripped) + "_" + Decimal(index)
  }

  function StatusOf(finishReason: Option<FinishReason>): Status {
    match finishReason
    case Some(Reason("length")) => Incomplete
    case Some(Reason("content_filter")) => Incomplete
    case _ => Complete
  }

  function IncompleteOf(finishReason: Option<FinishReason>): Option<IncompleteReason> {
    match finishReason
    case Some(Reason("length")) => Some(MaxOutputTokens)
    case Some(Reason("content_filter")) => Some(ContentFilter)
    case _ => None
  }

  /** The model was stopped before it was done. */
  predicate IsCutOff(reason: FinishReason) {
    reason == Reason("length") || reason == Reason("content_filter")
  }

  function TokenUsageOf(usage: Option<Usage>): Option<TokenUsage> {
    match usage
    case None => None
    case Some(u) =>
      var input := OrElse(u.inputTokens, OrElse(u.promptTokens, 0.0));
      var output := OrElse(u.outputTokens, OrElse(u.completionTokens, 0.0));
      Some(TokenUsage(input, output, OrElse(u.totalTokens, input + output),
                      OrElse(u.cachedTokens, 0.0), OrElse(u.reasoningTokens, 0.0)))
  }

  /** `value` is the first of two fields that is there, or zero. */
  predicate Takes(value: real, first: Option<real>, second: Option<real>) {
    && (first.Some? ==> value == first.value)
    && (first.None? && second.Some? ==> value == second.value)
    && (first.None? && second.None? ==> value == 0.0)
  }

  /** What a client is told about the tokens: nothing without a usage object; otherwise each number under the
      name of either API, and the total as reported, or else the sum of the two. */
  predicate ReportsUsage(reported: Option<TokenUsage>, usage: Option<Usage>) {
    && (reported.None? <==> usage.None?)
    && (usage.Some? ==>
          var u, r := usage.value, reported.value;
          && Takes(r.input, u.inputTokens, u.promptTokens)
          && Takes(r.output, u.outputTokens, u.completionTokens)
          && Takes(r.total, u.totalTokens, Some(r.input + r.output))
          && Takes(r.cached, u.cachedTokens, None) && Takes(r.reasoning, u.reasoningTokens, None))
  }

  lemma UsageIsReported(usage: Option<Usage>)
    ensures ReportsUsage(TokenUsageOf(usage), usage)
  {
  }

  /** Identifiers look like "msg_abc_12". */
  lemma GeneratedIdLooks()
    ensures GeneratedId("msg", "resp_a.b", 12) == "msg_a_b_12"
  {
    assert "resp_" <= "resp_a.b" && "resp_a.b"[5..] == "a.b";
    assert SanitizeId("a.b") == "a_b" by {
      assert "a.b"[..2] == "a." && "a."[..1] == "a" && "a"[..0] == "";
      assert SanitizeId("a") == "a" && SanitizeId("a.") == "a_";
    }
    assert Decimal(12) == "12" by {
      assert Decimal(1) == "1";
    }
    assert "msg" + "_" + "a_b" + "_" + "12" == "msg_a_b_12";
  }

  /** The text of the `output_text` parts of an item. */
  function PartsText(parts: seq<Part>): string {
    if parts == [] then ""
    else
      var last := parts[|parts| - 1];
      PartsText(parts[..|parts| - 1]) + if last.OutputText? then last.text else ""
  }

  function ItemText(item: Item): string {
    match item
    case MessageItem(_, _, content) => PartsText(content)
    case ReasoningItem(_, content) => PartsText(content)
    case FunctionCall(_, _, _, _) => ""
  }

  /** `collectOutputText`. */
  function OutputTextOf(output: seq<Item>): string {
    if output == [] then ""
    else OutputTextOf(output[..|output| - 1]) + ItemText(output[|output| - 1])
  }

  /** The `output_text` field is set only when there is some. */
  function NonEmpty(text: string): Option<string> {
    if text == "" then None else Some(text)
  }

  lemma {:induction false} OutputTextAppend(a: seq<Item>, b: seq<Item>)
    ensures OutputTextOf(a + b) == OutputTextOf(a) + OutputTextOf(b)
  {
    if b == [] {
      assert a + b == a;
    } else {
      hide ItemText;
      var front, last := b[..|b| - 1], b[|b| - 1];
      assert (a + b)[..|a + b| - 1] == a + front;
      OutputTextAppend(a, front);
      Associative(OutputTextOf(a), OutputTextOf(front), ItemText(last));
    }
  }

  // ----- Identifiers tell items apart -----

  lemma DigitsDiffer(a: nat, b: nat)
    requires a < 10 && b < 10 && DIGITS[a] == DIGITS[b]
    ensures a == b
  {
  }

  lemma DecimalShape(n: nat)
    ensures |Decimal(n)| > 0
    ensures forall i :: 0 <= i < |Decimal(n)| ==> '0' <= Decimal(n)[i] <= '9'
    ensures n >= 10 ==> |Decimal(n)| > 1
  {
    if n >= 10 {
      DecimalShape(n / 10);
    }
  }

  lemma {:induction false} DecimalInjectiveNat(a: nat, b: nat)
    requires Decimal(a) == Decimal(b)
    ensures a == b
    decreases a
  {
    DecimalShape(a);
    DecimalShape(b);
    if a < 10 && b < 10 {
      DigitsDiffer(a, b);
    } else {
      var da, db := Decimal(a), Decimal(b);
      assert a >= 10 && b >= 10;
      assert da[..|da| - 1] == Decimal(a / 10) && db[..|db| - 1] == Decimal(b / 10);
      assert da[|da| - 1] == DIGITS[a % 10] && db[|db| - 1] == DIGITS[b % 10];
      DigitsDiffer(a % 10, b % 10);
      DecimalInjectiveNat(a / 10, b / 10);
    }
  }

  lemma DecimalInjective(a: int, b: int)
    requires Decimal(a) == Decimal(b)
    ensures a == b
  {
    assert a < 0 ==> Decimal(a)[0] == '-' && Decimal(a)[1..] == Decimal(-a);
    assert b < 0 ==> Decimal(b)[0] == '-' && Decimal(b)[1..] == Decimal(-b);
    DecimalShape(if a < 0 then -a else a);
    DecimalShape(if b < 0 then -b else b);
    assert (a < 0) == (b < 0);
    DecimalInjectiveNat(if a < 0 then -a else a, if b < 0 then -b else b);
  }

  /** Within one response, two generated identifiers with the same prefix are the same exactly when
      their indices are. */
  lemma GeneratedIdInjective(prefix: string, responseId: string, a: int, b: int)
    ensures GeneratedId(prefix, responseId, a) == GeneratedId(prefix, responseId, b) <==> a == b
  {
    var stripped := if "resp_" <= responseId then responseId[5..] else responseId;
    var stem := prefix + "_" + SanitizeId(stripped) + "_";
    var x, y := GeneratedId(prefix, responseId, a), GeneratedId(prefix, responseId, b);
    assert x == stem + Decimal(a) && y == stem + Decimal(b);
    if x == y {
      assert x[|stem|..] == Decimal(a) && y[|stem|..] == Decimal(b);
      DecimalInjective(a, b);
    }
  }
}
