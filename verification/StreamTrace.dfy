/** The streaming translation, said without any state: what a list of chunks turns into.  The
    converter in `StreamConverter` is proved to produce exactly this, step by step. */
module StreamTrace {
  import opened Strings
  import opened ThinkTag
  import opened Payloads
  import opened OneShot

  /** The emitted Responses events.  `content_index` is always 0 and is left out. */
  datatype Event =
    | Created(response: Response)
    | ItemAdded(index: nat, item: Item)
    | PartAdded(itemId: string, index: nat, part: Part)
    | Delta(kind: Kind, itemId: string, index: nat, text: string)
    | TextDone(kind: Kind, itemId: string, index: nat, text: string)
    | PartDone(itemId: string, index: nat, part: Part)
    | ItemDone(index: nat, item: Item)
    | Completed(response: Response)
    | DoneMark

  /** A frame written to the client; a block that does not parse is passed through as it is. */
  datatype Frame = EventFrame(event: Event) | PassThrough(block: string)

  function Events(frames: seq<Frame>): seq<Event> {
    if frames == [] then []
    else
      var last := frames[|frames| - 1];
      Events(frames[..|frames| - 1]) + if last.EventFrame? then [last.event] else []
  }

  /** A block passed through after `at` events. */
  datatype Passed = Passed(at: nat, block: string)

  function PassedThrough(frames: seq<Frame>): seq<Passed> {
    if frames == [] then []
    else
      var front, last := frames[..|frames| - 1], frames[|frames| - 1];
      PassedThrough(front) + if last.PassThrough? then [Passed(|Events(front)|, last.block)] else []
  }

  lemma {:induction false} PassedAreInside(frames: seq<Frame>)
    ensures |Events(frames)| + |PassedThrough(frames)| == |frames|
    ensures forall i :: 0 <= i < |PassedThrough(frames)| ==> PassedThrough(frames)[i].at <= |Events(frames)|
  {
    if frames != [] {
      PassedAreInside(frames[..|frames| - 1]);
    }
  }

  /** The events and the blocks passed through, with their places, say everything about the frames. */
  lemma {:induction false} FramesAreDetermined(a: seq<Frame>, b: seq<Frame>)
    requires Events(a) == Events(b) && PassedThrough(a) == PassedThrough(b)
    ensures a == b
  {
    PassedAreInside(a);
    PassedAreInside(b);
    if a != [] {
      var frontA, lastA, frontB, lastB := a[..|a| - 1], a[|a| - 1], b[..|b| - 1], b[|b| - 1];
      PassedAreInside(frontA);
      PassedAreInside(frontB);
      assert a == frontA + [lastA] && b == frontB + [lastB];
      SameLastFrame(frontA, lastA, frontB, lastB);
      FramesAreDetermined(frontA, frontB);
    }
  }

  lemma EventsSnoc(frames: seq<Frame>, frame: Frame)
    ensures Events(frames + [frame]) == Events(frames) + if frame.EventFrame? then [frame.event] else []
    ensures PassedThrough(frames + [frame]) ==
            PassedThrough(frames) + if frame.PassThrough? then [Passed(|Events(frames)|, frame.block)] else []
  {
    assert (frames + [frame])[..|frames|] == frames;
  }

  lemma SameLastFrame(a: seq<Frame>, x: Frame, b: seq<Frame>, y: Frame)
    requires Events(a + [x]) == Events(b + [y]) && PassedThrough(a + [x]) == PassedThrough(b + [y])
    ensures x == y && Events(a) == Events(b) && PassedThrough(a) == PassedThrough(b)
  {
    hide Events, PassedThrough;
    EventsSnoc(a, x);
    EventsSnoc(b, y);
    PassedAreInside(a);
    PassedAreInside(b);
    var events, passed := Events(a + [x]), PassedThrough(a + [x]);
    assert x.PassThrough? || y.PassThrough? ==> passed != [] && passed[|passed| - 1].at == |events|;
    assert (x.EventFrame? || y.EventFrame?) && passed != [] ==> passed[|passed| - 1].at < |events|;
    if x.EventFrame? && y.EventFrame? {
      assert Events(a) == events[..|events| - 1] == Events(b);
      assert PassedThrough(a) == passed == PassedThrough(b);
    } else if x.PassThrough? && y.PassThrough? {
      assert Events(a) == events == Events(b);
      assert PassedThrough(a) == passed[..|passed| - 1] == PassedThrough(b);
    }
  }

  // ----- What the chunks say -----

  function AllChoices(chunks: seq<Chunk>): seq<Choice> {
    if chunks == [] then [] else AllChoices(chunks[..|chunks| - 1]) + chunks[|chunks| - 1].choices
  }

  function AllToolDeltas(choices: seq<Choice>): seq<ToolDelta> {
    if choices == [] then []
    else AllToolDeltas(choices[..|choices| - 1]) + choices[|choices| - 1].toolCalls
  }

  /** The first non-empty model name. */
  function FirstModel(chunks: seq<Chunk>): string {
    if chunks == [] then ""
    else
      var earlier := FirstModel(chunks[..|chunks| - 1]);
      if earlier != "" then earlier else OrElse(chunks[|chunks| - 1].model, "")
  }

  function LastCreated(chunks: seq<Chunk>): real {
    if chunks == [] then 0.0
    else OrElse(chunks[|chunks| - 1].created, LastCreated(chunks[..|chunks| - 1]))
  }

  function LastUsage(chunks: seq<Chunk>): Option<Usage> {
    if chunks == [] then None
    else if chunks[|chunks| - 1].usage.Some? then chunks[|chunks| - 1].usage
    else LastUsage(chunks[..|chunks| - 1])
  }

  function LastFinish(choices: seq<Choice>): Option<FinishReason> {
    if choices == [] then None
    else if choices[|choices| - 1].finishReason.Some? then choices[|choices| - 1].finishReason
    else LastFinish(choices[..|choices| - 1])
  }

  /** The identifier comes from the first chunk, or is random. */
  function ResponseId(chunks: seq<Chunk>, uuid: string): (id: string)
    ensures id != ""
  {
    ToResponseId(if chunks == [] then None else chunks[0].id, uuid)
  }

  /** The text a choice contributes: content, or `reasoning_content` when that is empty. */
  function VisibleDelta(choice: Choice): string {
    if OrElse(choice.content, "") != "" then choice.content.value
    else OrElse(choice.reasoningContent, "")
  }

  function VisibleDeltas(choices: seq<Choice>): seq<string> {
    if choices == [] then []
    else
      var text := VisibleDelta(choices[|choices| - 1]);
      VisibleDeltas(choices[..|choices| - 1]) + if text == "" then [] else [text]
  }

  // ----- Tool calls -----

  /** Each index once, in the order of first appearance. */
  function FirstSeen(indices: seq<int>): (order: seq<int>)
    ensures forall i :: i in order <==> i in indices
    ensures forall p, q :: 0 <= p < q < |order| ==> order[p] != order[q]
  {
    if indices == [] then []
    else
      var order := FirstSeen(indices[..|indices| - 1]);
      var last := indices[|indices| - 1];
      if last in order then order else order + [last]
  }

  predicate IsNewAt(indices: seq<int>, i: nat)
    requires i < |indices|
  {
    indices[i] !in indices[..i]
  }

  /** The order is that of first appearance: the positions where an index is new, one after the other. */
  lemma {:induction false} FirstSeenInOrder(indices: seq<int>) returns (positions: seq<nat>)
    ensures |positions| == |FirstSeen(indices)|
    ensures forall k, l :: 0 <= k < l < |positions| ==> positions[k] < positions[l]
    ensures forall k :: 0 <= k < |positions| ==>
              positions[k] < |indices| && FirstSeen(indices)[k] == indices[positions[k]]
    ensures forall i: nat :: i in positions <==> i < |indices| && IsNewAt(indices, i)
  {
    hide FirstSeen, IsNewAt;
    positions := [];
    if indices == [] {
      NothingSeen();
    } else {
      var front, last := indices[..|indices| - 1], indices[|indices| - 1];
      assert indices == front + [last];
      var earlier := FirstSeenInOrder(front);
      NewInFront(front, last);
      if last in front {
        positions := earlier;
      } else {
        positions := earlier + [|front|];
      }
    }
  }

  lemma NothingSeen()
    ensures FirstSeen([]) == []
  {
  }

  lemma NewInFront(front: seq<int>, last: int)
    ensures FirstSeen(front + [last]) == if last in front then FirstSeen(front) else FirstSeen(front) + [last]
    ensures IsNewAt(front + [last], |front|) <==> last !in front
    ensures forall i: nat :: i < |front| ==> (IsNewAt(front + [last], i) <==> IsNewAt(front, i))
  {
    var indices := front + [last];
    assert indices[..|front|] == front;
    forall i: nat | i < |front|
      ensures IsNewAt(indices, i) <==> IsNewAt(front, i)
    {
      assert indices[..i] == front[..i];
    }
  }

  /** The call each fragment belongs to: its `index`, or the number of calls so far. */
  function ToolIndices(deltas: seq<ToolDelta>): (r: seq<int>)
    ensures |r| == |deltas|
  {
    if deltas == [] then []
    else
      var earlier := ToolIndices(deltas[..|deltas| - 1]);
      earlier + [OrElse(deltas[|deltas| - 1].index, |FirstSeen(earlier)|)]
  }

  function ToolOrder(deltas: seq<ToolDelta>): seq<int> {
    FirstSeen(ToolIndices(deltas))
  }

  /** A fragment without an index continues a call exactly when the number of calls so far is already
      the index of one; it opens a new call whenever the indices so far are smaller than that number. */
  lemma UnindexedFragment(deltas: seq<ToolDelta>, d: ToolDelta)
    requires d.index.None?
    ensures
      var order := ToolOrder(deltas);
      && (ToolOrder(deltas + [d]) == order <==> |order| in ToolIndices(deltas))
      && ((forall i :: i in order ==> i < |order|) ==> ToolOrder(deltas + [d]) == order + [|order|])
  {
    assert (deltas + [d])[..|deltas|] == deltas;
    var indices := ToolIndices(deltas);
    assert (indices + [|FirstSeen(indices)|])[..|indices|] == indices;
  }

  /** One fragment of call 1 and one without an index make a single call. */
  lemma UnindexedFragmentJoins(first: ToolDelta, second: ToolDelta)
    requires first.index == Some(1) && second.index == None
    ensures ToolOrder([first, second]) == [1] && Fragments([first, second], 1) == [first, second]
  {
    assert [first, second][..1] == [first] && [first][..0] == [];
    assert ToolIndices([first]) == [1] && [1][..0] == [] && FirstSeen([1]) == [1];
    assert ToolIndices([first, second]) == [1, 1] && [1, 1][..1] == [1];
    assert Fragments([first], 1) == [first];
  }

  /** The fragments of call `i`, in arrival order. */
  function Fragments(deltas: seq<ToolDelta>, i: int): seq<ToolDelta> {
    if deltas == [] then []
    else
      var n := |deltas| - 1;
      Fragments(deltas[..n], i) + if ToolIndices(deltas)[n] == i then [deltas[n]] else []
  }

  function NamesOf(fragments: seq<ToolDelta>): string {
    if fragments == [] then ""
    else NamesOf(fragments[..|fragments| - 1]) + OrElse(fragments[|fragments| - 1].name, "")
  }

  function ArgumentsOf(fragments: seq<ToolDelta>): string {
    if fragments == [] then ""
    else ArgumentsOf(fragments[..|fragments| - 1]) + OrElse(fragments[|fragments| - 1].arguments, "")
  }

  function LastId(fragments: seq<ToolDelta>): Option<string> {
    if fragments == [] then None
    else if fragments[|fragments| - 1].id.Some? then fragments[|fragments| - 1].id
    else LastId(fragments[..|fragments| - 1])
  }

  datatype StreamCall = StreamCall(id: string, name: string, arguments: string)

  function CallOf(deltas: seq<ToolDelta>, i: int): StreamCall {
    var fragments := Fragments(deltas, i);
    StreamCall(OrElse(LastId(fragments), ""), NamesOf(fragments), ArgumentsOf(fragments))
  }

  function StreamCallItem(responseId: string, position: nat, index: int, call: StreamCall): Item {
    var callId := if call.id == "" then GeneratedId("call", responseId, index) else call.id;
    FunctionCall(GeneratedId("fc", responseId, position), callId, call.name, call.arguments)
  }

  /** The function-call items of the calls `order`, at positions `start` onwards. */
  function StreamCallItems(responseId: string, start: nat, order: seq<int>, deltas: seq<ToolDelta>)
    : (items: seq<Item>)
    ensures |items| == |order|
  {
    if order == [] then []
    else
      var n := |order| - 1;
      StreamCallItems(responseId, start, order[..n], deltas)
      + [StreamCallItem(responseId, start + n, order[n], CallOf(deltas, order[n]))]
  }

  function CallEvents(start: nat, items: seq<Item>): seq<Event> {
    if items == [] then []
    else
      var n := |items| - 1;
      CallEvents(start, items[..n]) + [ItemAdded(start + n, items[n]), ItemDone(start + n, items[n])]
  }

  // ----- Text items: maximal runs of segments of one kind -----

  datatype Group = Group(kind: Kind, deltas: seq<string>)

  /** Make sure the last group has the given kind. */
  function StartGroup(groups: seq<Group>, kind: Kind): (r: seq<Group>)
    ensures r != [] && r[|r| - 1].kind == kind
  {
    if groups != [] && groups[|groups| - 1].kind == kind then groups else groups + [Group(kind, [])]
  }

  function ExtendLast(groups: seq<Group>, text: string): (r: seq<Group>)
    requires groups != []
    ensures |r| == |groups|
  {
    var n := |groups| - 1;
    groups[..n] + [Group(groups[n].kind, groups[n].deltas + [text])]
  }

  function Groups(segments: seq<Segment>): seq<Group> {
    if segments == [] then []
    else
      var last := segments[|segments| - 1];
      ExtendLast(StartGroup(Groups(segments[..|segments| - 1]), last.kind), last.text)
  }

  lemma GroupsSnoc(segments: seq<Segment>, seg: Segment)
    ensures Groups(segments + [seg]) == ExtendLast(StartGroup(Groups(segments), seg.kind), seg.text)
  {
    assert (segments + [seg])[..|segments|] == segments;
  }

  /** The segments of a stream, the final flush included. */
  ghost function AllSegments(choices: seq<Choice>): seq<Segment> {
    var (segments, p) := Feed(THINK_TAGS, Parser("", false), VisibleDeltas(choices));
    segments + FlushOf(p)
  }

  function ItemIdFor(responseId: string, index: nat, kind: Kind): string {
    GeneratedId(PrefixFor(kind), responseId, index)
  }

  /** A text item as it is announced. */
  function OpenItem(responseId: string, index: nat, kind: Kind): Item {
    var id := ItemIdFor(responseId, index, kind);
    match kind
    case Message => MessageItem(id, InProgress, [])
    case Reasoning => ReasoningItem(id, [])
  }

  function OpeningEvents(responseId: string, index: nat, kind: Kind): seq<Event> {
    [ItemAdded(index, OpenItem(responseId, index, kind)),
     PartAdded(ItemIdFor(responseId, index, kind), index, PartFor(kind, "", []))]
  }

  function DeltaEvents(responseId: string, index: nat, kind: Kind, deltas: seq<string>): seq<Event> {
    if deltas == [] then []
    else
      var n := |deltas| - 1;
      DeltaEvents(responseId, index, kind, deltas[..n])
      + [Delta(kind, ItemIdFor(responseId, index, kind), index, deltas[n])]
  }

  function ClosingEvents(responseId: string, index: nat, kind: Kind, text: string): seq<Event> {
    var id := ItemIdFor(responseId, index, kind);
    [TextDone(kind, id, index, text), PartDone(id, index, PartFor(kind, text, [])),
     ItemDone(index, TextItem(responseId, index, kind, text, []))]
  }

  function GroupEvents(responseId: string, index: nat, group: Group, closed: bool): seq<Event> {
    OpeningEvents(responseId, index, group.kind)
    + DeltaEvents(responseId, index, group.kind, group.deltas)
    + if closed then ClosingEvents(responseId, index, group.kind, Concat(group.deltas)) else []
  }

  /** The events of all groups, numbered from `base`; only the last one may still be open. */
  function TextEvents(responseId: string, base: nat, groups: seq<Group>, closed: bool): seq<Event> {
    if groups == [] then []
    else
      var n := |groups| - 1;
      TextEvents(responseId, base, groups[..n], true)
      + GroupEvents(responseId, base + n, groups[n], closed)
  }

  function GroupItems(responseId: string, groups: seq<Group>): (items: seq<Item>)
    ensures |items| == |groups|
  {
    if groups == [] then []
    else
      var n := |groups| - 1;
      GroupItems(responseId, groups[..n])
      + [TextItem(responseId, n, groups[n].kind, Concat(groups[n].deltas), [])]
  }

  // ----- The whole stream -----

  function CreatedEvent(chunks: seq<Chunk>, uuid: string): Event {
    var first := if chunks == [] then [] else chunks[..1];
    Created(Response(ResponseId(chunks, uuid), LastCreated(first), InProgress, None,
                     FirstModel(first), [], None, None))
  }

  ghost function FinalResponse(chunks: seq<Chunk>, uuid: string): Response {
    var id := ResponseId(chunks, uuid);
    var choices := AllChoices(chunks);
    var deltas := AllToolDeltas(choices);
    var texts := GroupItems(id, Groups(AllSegments(choices)));
    var output := texts + StreamCallItems(id, |texts|, ToolOrder(deltas), deltas);
    var finish := LastFinish(choices);
    Response(id, LastCreated(chunks), StatusOf(finish), IncompleteOf(finish), FirstModel(chunks),
             output, TokenUsageOf(LastUsage(chunks)), NonEmpty(OutputTextOf(output)))
  }

  /** Every event of a stream that ends after `chunks`. */
  ghost function FinalTrace(chunks: seq<Chunk>, uuid: string): seq<Event> {
    var id := ResponseId(chunks, uuid);
    var choices := AllChoices(chunks);
    var groups := Groups(AllSegments(choices));
    var deltas := AllToolDeltas(choices);
    [CreatedEvent(chunks, uuid)]
    + TextEvents(id, 0, groups, true)
    + CallEvents(|groups|, StreamCallItems(id, |groups|, ToolOrder(deltas), deltas))
    + [Completed(FinalResponse(chunks, uuid)), DoneMark]
  }

  /** What has been emitted for `chunks` while the stream has not ended. */
  ghost function PartialTrace(chunks: seq<Chunk>, uuid: string): seq<Event> {
    if chunks == [] then []
    else
      [CreatedEvent(chunks, uuid)]
      + TextEvents(ResponseId(chunks, uuid), 0,
                   Groups(Feed(THINK_TAGS, Parser("", false), VisibleDeltas(AllChoices(chunks))).0), false)
  }

  // ----- What is kept after [DONE] -----

  /** The segments emitted by chunks that still arrive after `sealed` was finalized. */
  ghost function LateSegments(sealed: seq<Chunk>, late: seq<Chunk>): seq<Segment> {
    var (_, p) := Feed(THINK_TAGS, Parser("", false), VisibleDeltas(AllChoices(sealed)));
    Feed(THINK_TAGS, Parser("", p.inThink), VisibleDeltas(AllChoices(late))).0
  }

  /** The whole run: the trace up to the first `[DONE]`, then whatever late text opens again. */
  ghost function Trace(sealed: seq<Chunk>, late: seq<Chunk>, uuid: string): seq<Event> {
    var id := ResponseId(sealed, uuid);
    FinalTrace(sealed, uuid)
    + TextEvents(id, |Groups(AllSegments(AllChoices(sealed)))|, Groups(LateSegments(sealed, late)), false)
  }
}
