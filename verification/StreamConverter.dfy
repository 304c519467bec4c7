/** The streaming converter: `streamState` and the functions that update it in place. */
module StreamConverter {
  import opened Strings
  import opened ThinkTag
  import opened Payloads
  import opened OneShot
  import opened StreamTrace

  /** One element of `streamState.items`. */
  datatype StreamItem = StreamItem(kind: Kind, outputIndex: nat, id: string, text: string,
                                   finalized: bool)

  /** `responseOutputItemForStream`. */
  function ResponseOutputItem(item: StreamItem): Item {
    match item.kind
    case Message => MessageItem(item.id, Complete, [PartFor(item.kind, item.text, [])])
    case Reasoning => ReasoningItem(item.id, [PartFor(item.kind, item.text, [])])
  }

  /** A block of the upstream stream after its data has been extracted and decoded. */
  datatype Input =
    | NoData
    | DoneSentinel
    | Malformed(block: string)
    | NotAnObject
    | ChunkInput(chunk: Chunk)

  const EMPTY_CHUNK := Chunk(None, None, None, None, [])

  /** The items of the groups, numbered from `base`. */
  function StreamItems(responseId: string, base: nat, groups: seq<Group>, closed: bool): (r: seq<StreamItem>)
    ensures |r| == |groups|
  {
    if groups == [] then []
    else
      var n := |groups| - 1;
      StreamItems(responseId, base, groups[..n], true)
      + [StreamItem(groups[n].kind, base + n, ItemIdFor(responseId, base + n, groups[n].kind),
                    Concat(groups[n].deltas), closed)]
  }

  // ----- How the text events grow -----

  lemma TextEventsSnoc(responseId: string, base: nat, groups: seq<Group>, group: Group, closed: bool)
    ensures TextEvents(responseId, base, groups + [group], closed) ==
            TextEvents(responseId, base, groups, true)
            + GroupEvents(responseId, base + |groups|, group, closed)
  {
    hide GroupEvents;
    assert (groups + [group])[..|groups|] == groups;
  }

  lemma TextEventsOpen(responseId: string, base: nat, groups: seq<Group>, kind: Kind)
    ensures
      TextEvents(responseId, base, groups + [Group(kind, [])], false) ==
      TextEvents(responseId, base, groups, true)
      + OpeningEvents(responseId, base + |groups|, kind)
  {
    hide TextEvents, OpeningEvents;
    TextEventsSnoc(responseId, base, groups, Group(kind, []), false);
    GroupEventsOpen(responseId, base + |groups|, Group(kind, []));
    assert OpeningEvents(responseId, base + |groups|, kind) + [] == OpeningEvents(responseId, base + |groups|, kind);
  }

  lemma GroupGrows(responseId: string, index: nat, group: Group, text: string)
    ensures GroupEvents(responseId, index, Group(group.kind, group.deltas + [text]), false) ==
            GroupEvents(responseId, index, group, false)
            + [Delta(group.kind, ItemIdFor(responseId, index, group.kind), index, text)]
  {
    hide ItemIdFor, OpeningEvents;
    assert (group.deltas + [text])[..|group.deltas|] == group.deltas;
    GroupEventsOpen(responseId, index, group);
    GroupEventsOpen(responseId, index, Group(group.kind, group.deltas + [text]));
    hide GroupEvents;
    Associative(OpeningEvents(responseId, index, group.kind),
                DeltaEvents(responseId, index, group.kind, group.deltas),
                [Delta(group.kind, ItemIdFor(responseId, index, group.kind), index, text)]);
  }

  lemma TextEventsExtend(responseId: string, base: nat, groups: seq<Group>, text: string)
    requires groups != []
    ensures
      var n := |groups| - 1;
      TextEvents(responseId, base, ExtendLast(groups, text), false) ==
      TextEvents(responseId, base, groups, false)
      + [Delta(groups[n].kind, ItemIdFor(responseId, base + n, groups[n].kind), base + n, text)]
  {
    hide ItemIdFor, GroupEvents, TextEvents;
    var n := |groups| - 1;
    var g, front := groups[n], groups[..n];
    assert groups == front + [g];
    TextEventsSnoc(responseId, base, front, g, false);
    TextEventsSnoc(responseId, base, front, Group(g.kind, g.deltas + [text]), false);
    GroupGrows(responseId, base + n, g, text);
    Associative(TextEvents(responseId, base, front, true), GroupEvents(responseId, base + n, g, false),
                [Delta(g.kind, ItemIdFor(responseId, base + n, g.kind), base + n, text)]);
  }

  lemma GroupEventsOpen(responseId: string, index: nat, group: Group)
    ensures GroupEvents(responseId, index, group, false) ==
            OpeningEvents(responseId, index, group.kind)
            + DeltaEvents(responseId, index, group.kind, group.deltas)
  {
    hide OpeningEvents, DeltaEvents;
  }

  lemma TextEventsClose(responseId: string, base: nat, groups: seq<Group>)
    requires groups != []
    ensures
      var n := |groups| - 1;
      TextEvents(responseId, base, groups, true) ==
      TextEvents(responseId, base, groups, false)
      + ClosingEvents(responseId, base + n, groups[n].kind, Concat(groups[n].deltas))
  {
    hide OpeningEvents, DeltaEvents, ClosingEvents, Concat;
    var n := |groups| - 1;
    var before := TextEvents(responseId, base, groups[..n], true);
    var closing := ClosingEvents(responseId, base + n, groups[n].kind, Concat(groups[n].deltas));
    var open := GroupEvents(responseId, base + n, groups[n], false);
    GroupEventsOpen(responseId, base + n, groups[n]);
    assert GroupEvents(responseId, base + n, groups[n], true) == open + closing;
    hide GroupEvents;
    Associative(before, open, closing);
  }


  lemma StreamItemsExtend(responseId: string, base: nat, groups: seq<Group>, text: string)
    requires groups != []
    ensures
      var n, items := |groups| - 1, StreamItems(responseId, base, groups, false);
      StreamItems(responseId, base, ExtendLast(groups, text), false) ==
      items[n := items[n].(text := items[n].text + text)]
  {
    hide ItemIdFor;
    var n := |groups| - 1;
    assert ExtendLast(groups, text)[..n] == groups[..n];
    ConcatSnoc(groups[n].deltas, text);
  }

  lemma StreamItemsClose(responseId: string, base: nat, groups: seq<Group>)
    requires groups != []
    ensures
      var n, items := |groups| - 1, StreamItems(responseId, base, groups, false);
      && StreamItems(responseId, base, groups, true) == items[n := items[n].(finalized := true)]
      && items[n] == StreamItem(groups[n].kind, base + n, ItemIdFor(responseId, base + n, groups[n].kind),
                                Concat(groups[n].deltas), false)
  {
    hide ItemIdFor;
  }

  lemma StreamItemsOpen(responseId: string, base: nat, groups: seq<Group>, kind: Kind)
    ensures
      StreamItems(responseId, base, groups + [Group(kind, [])], false) ==
      StreamItems(responseId, base, groups, true)
      + [StreamItem(kind, base + |groups|, ItemIdFor(responseId, base + |groups|, kind), "", false)]
  {
    hide ItemIdFor;
    assert (groups + [Group(kind, [])])[..|groups|] == groups;
  }

  lemma UpdateBehind<T>(a: seq<T>, b: seq<T>, i: nat, x: T)
    requires i < |b|
    ensures (a + b)[|a| + i] == b[i]
    ensures (a + b)[|a| + i := x] == a + b[i := x]
  {
  }

  /** Appending text to the open item, on values. */
  lemma {:induction false} TextGrows(prefix: seq<Event>, fixed: seq<StreamItem>, responseId: string,
                                     groups: seq<Group>, items: seq<StreamItem>, events: seq<Event>, text: string)
    requires groups != []
    requires items == fixed + StreamItems(responseId, |fixed|, groups, false)
    requires events == prefix + TextEvents(responseId, |fixed|, groups, false)
    ensures
      var n, more := |items| - 1, ExtendLast(groups, text);
      var item := items[n];
      && item.kind == groups[|groups| - 1].kind
      && items[n := item.(text := item.text + text)] == fixed + StreamItems(responseId, |fixed|, more, false)
      && events + [Delta(item.kind, item.id, item.outputIndex, text)] ==
         prefix + TextEvents(responseId, |fixed|, more, false)
  {
    hide StreamItems, TextEvents, ItemIdFor, ExtendLast;
    var n := |groups| - 1;
    var open := StreamItems(responseId, |fixed|, groups, false);
    StreamItemsClose(responseId, |fixed|, groups);
    StreamItemsExtend(responseId, |fixed|, groups, text);
    UpdateBehind(fixed, open, n, open[n].(text := open[n].text + text));
    TextEventsExtend(responseId, |fixed|, groups, text);
    Associative(prefix, TextEvents(responseId, |fixed|, groups, false),
                [Delta(groups[n].kind, open[n].id, open[n].outputIndex, text)]);
  }

  // ----- How the tool calls grow -----

  lemma {:induction false} NoFragments(deltas: seq<ToolDelta>, i: int)
    requires i !in ToolIndices(deltas)
    ensures Fragments(deltas, i) == []
  {
    if deltas != [] {
      var n := |deltas| - 1;
      assert ToolIndices(deltas)[..n] == ToolIndices(deltas[..n]);
      assert ToolIndices(deltas)[n] in ToolIndices(deltas);
      NoFragments(deltas[..n], i);
    }
  }

  lemma ToolDeltaSnoc(deltas: seq<ToolDelta>, d: ToolDelta)
    ensures ToolIndices(deltas + [d]) ==
            ToolIndices(deltas) + [OrElse(d.index, |ToolOrder(deltas)|)]
    ensures ToolOrder(deltas + [d]) ==
            var i := OrElse(d.index, |ToolOrder(deltas)|);
            if i in ToolOrder(deltas) then ToolOrder(deltas) else ToolOrder(deltas) + [i]
    ensures forall i ::
      (Fragments(deltas + [d], i) ==
       Fragments(deltas, i) + if i == OrElse(d.index, |ToolOrder(deltas)|) then [d] else [])
  {
    assert (deltas + [d])[..|deltas|] == deltas;
    var indices := ToolIndices(deltas + [d]);
    assert indices[..|indices| - 1] == ToolIndices(deltas);
  }

  lemma CallSnoc(deltas: seq<ToolDelta>, d: ToolDelta, i: int)
    ensures CallOf(deltas + [d], i) ==
            if i != OrElse(d.index, |ToolOrder(deltas)|) then CallOf(deltas, i)
            else Extended(CallOf(deltas, i), d)
  {
    ToolDeltaSnoc(deltas, d);
    hide ToolOrder;
    var fragments := Fragments(deltas, i);
    assert (fragments + [d])[..|fragments|] == fragments;
    hide Fragments;
    if i != OrElse(d.index, |ToolOrder(deltas)|) {
      assert fragments + [] == fragments;
    }
  }

  lemma {:induction false} DistinctSize(order: seq<int>, keys: set<int>)
    requires forall i :: i in order <==> i in keys
    requires forall p, q :: 0 <= p < q < |order| ==> order[p] != order[q]
    ensures |order| == |keys|
  {
    if order == [] {
      assert forall i :: i !in keys;
      assert keys == {};
    } else {
      var n := |order| - 1;
      var rest := keys - {order[n]};
      forall i
        ensures i in order[..n] <==> i in rest
      {
        assert i in order <==> i in order[..n] || i == order[n];
      }
      DistinctSize(order[..n], rest);
      assert order[n] in keys;
      assert |rest| == |keys| - 1;
    }
  }

  /** The order list and the map say the same about the fragments received so far. */
  ghost predicate ToolsAre(order: seq<int>, calls: map<int, StreamCall>, log: seq<ToolDelta>) {
    && order == ToolOrder(log)
    && (forall i :: i in order <==> i in calls)
    && (forall i :: i in calls ==> calls[i] == CallOf(log, i))
  }

  lemma ToolsSize(order: seq<int>, calls: map<int, StreamCall>, log: seq<ToolDelta>)
    requires ToolsAre(order, calls, log)
    ensures |calls| == |order|
  {
    hide CallOf;
    DistinctSize(order, calls.Keys);
  }

  const EMPTY_CALL := StreamCall("", "", "")

  function Extended(call: StreamCall, d: ToolDelta): StreamCall {
    StreamCall(OrElse(d.id, call.id), call.name + OrElse(d.name, ""),
               call.arguments + OrElse(d.arguments, ""))
  }

  lemma {:induction false} ToolsStep(order: seq<int>, calls: map<int, StreamCall>, log: seq<ToolDelta>,
                                     d: ToolDelta, idx: int, order': seq<int>, calls': map<int, StreamCall>)
    requires ToolsAre(order, calls, log)
    requires idx == OrElse(d.index, |order|)
    requires order' == if idx in calls then order else order + [idx]
    requires calls' == calls[idx := Extended(if idx in calls then calls[idx] else EMPTY_CALL, d)]
    ensures ToolsAre(order', calls', log + [d])
  {
    hide Extended;
    UnseenCall(log, idx);
    ToolOrderSnoc(log, d);
    hide ToolOrder, CallOf;
    forall i | i in calls'
      ensures calls'[i] == CallOf(log + [d], i)
    {
      CallSnoc(log, d, i);
    }
  }

  lemma UnseenCall(log: seq<ToolDelta>, i: int)
    ensures i !in ToolOrder(log) ==> CallOf(log, i) == EMPTY_CALL
  {
    if i !in ToolIndices(log) {
      NoFragments(log, i);
    }
  }

  lemma ToolOrderSnoc(log: seq<ToolDelta>, d: ToolDelta)
    ensures
      var i := OrElse(d.index, |ToolOrder(log)|);
      ToolOrder(log + [d]) == if i in ToolOrder(log) then ToolOrder(log) else ToolOrder(log) + [i]
  {
    ToolDeltaSnoc(log, d);
  }

  // ----- How the history grows by a chunk -----

  lemma HistorySnoc(log: seq<Chunk>, chunk: Chunk)
    ensures AllChoices(log + [chunk]) == AllChoices(log) + chunk.choices
    ensures FirstModel(log + [chunk]) ==
            if FirstModel(log) == "" then OrElse(chunk.model, "") else FirstModel(log)
    ensures LastCreated(log + [chunk]) == OrElse(chunk.created, LastCreated(log))
    ensures LastUsage(log + [chunk]) == if chunk.usage.Some? then chunk.usage else LastUsage(log)
  {
    assert (log + [chunk])[..|log|] == log;
  }

  lemma FirstChunkStays(log: seq<Chunk>, chunk: Chunk, uuid: string)
    requires log != []
    ensures CreatedEvent(log + [chunk], uuid) == CreatedEvent(log, uuid)
    ensures ResponseId(log + [chunk], uuid) == ResponseId(log, uuid)
  {
    assert (log + [chunk])[..1] == log[..1];
  }

  /** The event announcing a stream whose first chunk is `chunk`. */
  lemma FirstChunk(chunk: Chunk, uuid: string)
    ensures CreatedEvent([chunk], uuid) ==
            Created(Response(ToResponseId(chunk.id, uuid), OrElse(chunk.created, 0.0), InProgress, None,
                             OrElse(chunk.model, ""), [], None, None))
  {
    HistorySnoc([], chunk);
    assert [] + [chunk] == [chunk] && [chunk][..1] == [chunk];
  }

  lemma NoGroups(responseId: string, base: nat, closed: bool)
    ensures StreamItems(responseId, base, [], closed) == [] && TextEvents(responseId, base, [], closed) == []
  {
  }

  // ----- What a state has to do with the chunks that led to it -----

  /** The history of a state: all chunks, how many of them came before the stream was finalized, all
      choices, those since the beginning or since finalization, the tool-call fragments, the text
      deltas fed to the parser and the segments it returned since `start`, the groups they form, and
      the events and items that precede those of the groups. */
  datatype History = History(log: seq<Chunk>, sealedAt: nat, choices: seq<Choice>,
                             phase: seq<Choice>, tools: seq<ToolDelta>, deltas: seq<string>,
                             segments: seq<Segment>, groups: seq<Group>, prefix: seq<Event>,
                             fixed: seq<StreamItem>)
  {
    function Sealed(finalized: bool): seq<Chunk> {
      if finalized && sealedAt <= |log| then log[..sealedAt] else log
    }

    function Late(finalized: bool): seq<Chunk> {
      if finalized && sealedAt <= |log| then log[sealedAt..] else []
    }
  }

  const NO_HISTORY := History([], 0, [], [], [], [], [], [], [], [])

  /** The items and the events are those of the groups; `closed` tells whether the last item has
      been finalized. */
  ghost predicate TextOk(h: History, responseId: string, items: seq<StreamItem>, active: bool,
                         activeItemIdx: int, events: seq<Event>, closed: bool)
  {
    && items == h.fixed + StreamItems(responseId, |h.fixed|, h.groups, closed)
    && events == h.prefix + TextEvents(responseId, |h.fixed|, h.groups, closed)
    && active == (h.groups != [] && !closed)
    && (active ==> activeItemIdx == |items| - 1)
  }

  /** The parser has been fed the deltas since `start`. */
  ghost predicate ParserOk(h: History, start: Parser, parser: Parser) {
    && (h.segments, parser) == Feed(THINK_TAGS, start, h.deltas)
    && h.groups == Groups(h.segments)
    && h.deltas == VisibleDeltas(h.phase)
  }

  /** Where the parser stood when the current phase began. */
  ghost function StartOf(h: History, finalized: bool): Parser {
    if !finalized then Parser("", false)
    else
      Parser("", Feed(THINK_TAGS, Parser("", false), VisibleDeltas(AllChoices(h.Sealed(true)))).1.inThink)
  }

  ghost predicate MetadataOk(h: History, uuid: string, responseId: string, model: string,
                             createdAt: real, created: bool, finalized: bool)
  {
    && (finalized ==> h.sealedAt <= |h.log|)
    && model == FirstModel(h.log)
    && createdAt == LastCreated(h.log)
    && created == (h.log != [] || finalized)
    && responseId == (if created then ResponseId(h.Sealed(finalized), uuid) else "")
  }

  /** What precedes the groups: nothing, the creation event, or a finished trace. */
  ghost predicate PhaseOk(h: History, uuid: string, created: bool, finalized: bool) {
    if finalized then
      && h.prefix == FinalTrace(h.Sealed(true), uuid)
      && |h.fixed| == |Groups(AllSegments(AllChoices(h.Sealed(true))))|
    else
      && h.prefix == (if created then [CreatedEvent(h.log, uuid)] else [])
      && h.fixed == []
  }

  ghost predicate ChoicesOk(h: History, finishReason: Option<FinishReason>, order: seq<int>,
                            calls: map<int, StreamCall>)
  {
    && h.tools == AllToolDeltas(h.choices)
    && finishReason == LastFinish(h.choices)
    && ToolsAre(order, calls, h.tools)
  }

  /** The chunks account for the choices processed. */
  ghost predicate ChunksOk(h: History, usage: Option<Usage>, finalized: bool) {
    && usage == LastUsage(h.log)
    && h.choices == AllChoices(h.log)
    && h.phase == (if finalized then AllChoices(h.Late(true)) else h.choices)
  }

  lemma TextCloses(h: History, responseId: string, items: seq<StreamItem>, events: seq<Event>)
    requires h.groups != []
    requires items == h.fixed + StreamItems(responseId, |h.fixed|, h.groups, false)
    requires events == h.prefix + TextEvents(responseId, |h.fixed|, h.groups, false)
    ensures
      var item := items[|items| - 1];
      && items[|items| - 1 := item.(finalized := true)] ==
         h.fixed + StreamItems(responseId, |h.fixed|, h.groups, true)
      && events + [TextDone(item.kind, item.id, item.outputIndex, item.text)]
         + [PartDone(item.id, item.outputIndex, PartFor(item.kind, item.text, []))]
         + [ItemDone(item.outputIndex, ResponseOutputItem(item))] ==
         h.prefix + TextEvents(responseId, |h.fixed|, h.groups, true)
  {
    hide StreamItems, TextEvents, GeneratedId;
    var n := |h.groups| - 1;
    var open := StreamItems(responseId, |h.fixed|, h.groups, false);
    StreamItemsClose(responseId, |h.fixed|, h.groups);
    UpdateBehind(h.fixed, open, n, open[n].(finalized := true));
    TextEventsClose(responseId, |h.fixed|, h.groups);
    Associative(h.prefix, TextEvents(responseId, |h.fixed|, h.groups, false),
                ClosingEvents(responseId, |h.fixed| + n, open[n].kind, open[n].text));
  }

  lemma TextOpens(h: History, responseId: string, items: seq<StreamItem>, events: seq<Event>, kind: Kind)
    requires items == h.fixed + StreamItems(responseId, |h.fixed|, h.groups, true)
    requires events == h.prefix + TextEvents(responseId, |h.fixed|, h.groups, true)
    ensures
      var more, at := h.groups + [Group(kind, [])], |items|;
      var id := ItemIdFor(responseId, at, kind);
      && items + [StreamItem(kind, at, id, "", false)] ==
         h.fixed + StreamItems(responseId, |h.fixed|, more, false)
      && events + [ItemAdded(at, OpenItem(responseId, at, kind))] + [PartAdded(id, at, PartFor(kind, "", []))] ==
         h.prefix + TextEvents(responseId, |h.fixed|, more, false)
  {
    hide StreamItems, TextEvents, ItemIdFor, OpenItem;
    var at := |items|;
    StreamItemsOpen(responseId, |h.fixed|, h.groups, kind);
    TextEventsOpen(responseId, |h.fixed|, h.groups, kind);
    Associative(h.prefix, TextEvents(responseId, |h.fixed|, h.groups, true), OpeningEvents(responseId, at, kind));
    Associative(h.fixed, StreamItems(responseId, |h.fixed|, h.groups, true),
                [StreamItem(kind, at, ItemIdFor(responseId, at, kind), "", false)]);
  }

  /** Before anything was announced there is no history. */
  lemma NothingYet(h: History, uuid: string, items: seq<StreamItem>, active: bool, idx: int,
                   events: seq<Event>, parser: Parser)
    requires h.log == [] && h.phase == AllChoices([])
    requires PhaseOk(h, uuid, false, false) && TextOk(h, "", items, active, idx, events, false)
    requires ParserOk(h, Parser("", false), parser)
    ensures h.groups == [] && h.prefix == [] && h.fixed == []
    ensures items == [] && events == [] && !active
  {
  }

  /** `ensureStreamCreated` keeps the metadata in step with the chunks. */
  lemma MetadataGrows(h: History, uuid: string, responseId: string, model: string, createdAt: real,
                      created: bool, finalized: bool, chunk: Chunk, h': History)
    requires MetadataOk(h, uuid, responseId, model, createdAt, created, finalized)
    requires PhaseOk(h, uuid, created, finalized)
    requires h' == h.(log := h.log + [chunk],
                      prefix := if created then h.prefix else [CreatedEvent(h.log + [chunk], uuid)])
    ensures MetadataOk(h', uuid, if responseId == "" then ToResponseId(chunk.id, uuid) else responseId,
                       if model == "" then OrElse(chunk.model, "") else model,
                       OrElse(chunk.created, createdAt), true, finalized)
    ensures PhaseOk(h', uuid, true, finalized)
    ensures StartOf(h', finalized) == StartOf(h, finalized)
    ensures !created ==>
              CreatedEvent(h'.log, uuid) ==
              Created(Response(ToResponseId(chunk.id, uuid), OrElse(chunk.created, createdAt), InProgress, None,
                               OrElse(chunk.model, ""), [], None, None))
  {
    hide Feed, FinalTrace, AllSegments, Groups, VisibleDeltas, AllChoices;
    HistorySnoc(h.log, chunk);
    if finalized {
      assert h'.log[..h.sealedAt] == h.log[..h.sealedAt];
    } else if created {
      FirstChunkStays(h.log, chunk, uuid);
    } else {
      FirstChunk(chunk, uuid);
      assert h'.log == [chunk];
    }
    hide FirstModel, LastCreated, CreatedEvent, ToResponseId, StartOf;
  }

  lemma ChunksGrow(h: History, usage: Option<Usage>, finalized: bool, chunk: Chunk, h': History)
    requires ChunksOk(h, usage, finalized) && (finalized ==> h.sealedAt <= |h.log|)
    requires h'.log == h.log + [chunk] && h'.sealedAt == h.sealedAt
    requires h'.choices == h.choices + chunk.choices && h'.phase == h.phase + chunk.choices
    ensures ChunksOk(h', if chunk.usage.Some? then chunk.usage else usage, finalized)
  {
    HistorySnoc(h.log, chunk);
    if finalized {
      HistorySnoc(h.Late(true), chunk);
      assert h'.Late(true) == h.Late(true) + [chunk];
    }
  }

  lemma EventsOfCalls(start: nat, items: seq<Item>, i: nat)
    requires i < |items|
    ensures CallEvents(start, items[..i + 1]) ==
            CallEvents(start, items[..i]) + [ItemAdded(start + i, items[i])] + [ItemDone(start + i, items[i])]
  {
    assert items[..i + 1][..i] == items[..i];
  }

  lemma StreamItemsAt(responseId: string, groups: seq<Group>, i: nat)
    requires i < |groups|
    ensures
      var item := StreamItems(responseId, 0, groups, true)[i];
      ResponseOutputItem(item) == TextItem(responseId, i, groups[i].kind, Concat(groups[i].deltas), [])
  {
    hide GeneratedId;
    if i < |groups| - 1 {
      StreamItemsAt(responseId, groups[..|groups| - 1], i);
    }
  }

  lemma GroupItemsSnoc(responseId: string, groups: seq<Group>, i: nat)
    requires i < |groups|
    ensures GroupItems(responseId, groups[..i + 1]) ==
            GroupItems(responseId, groups[..i])
            + [TextItem(responseId, i, groups[i].kind, Concat(groups[i].deltas), [])]
  {
    assert groups[..i + 1][..i] == groups[..i];
  }

  lemma EmptyStream(uuid: string)
    ensures CreatedEvent([], uuid) ==
            Created(Response(ToResponseId(None, uuid), 0.0, InProgress, None, "", [], None, None))
  {
  }

  lemma AfterTrace(h: History, usage: Option<Usage>, h0: History)
    requires ChunksOk(h0, usage, false)
    requires h == h0.(prefix := h.prefix, segments := h.segments, groups := h.groups)
    ensures ChunksOk(h, usage, false)
  {
  }

  lemma NothingFed(start: Parser)
    ensures Feed(THINK_TAGS, start, []) == ([], start)
    ensures AllChoices([]) == [] && VisibleDeltas([]) == [] && Groups([]) == []
  {
    hide Drain;
  }

  /** Once a trace is complete it becomes the history of whatever follows. */
  lemma {:induction false} SealedOk(h: History, uuid: string, usage: Option<Usage>, responseId: string,
                                    items: seq<StreamItem>, events: seq<Event>, idx: int, h': History)
    requires ChunksOk(h, usage, false)
    requires |items| == |Groups(AllSegments(AllChoices(h.log)))|
    requires events == FinalTrace(h.log, uuid)
    requires h' == h.(sealedAt := |h.log|, phase := [], deltas := [], segments := [], groups := [],
                      prefix := events, fixed := items)
    ensures ChunksOk(h', usage, true) && PhaseOk(h', uuid, true, true)
    ensures TextOk(h', responseId, items, false, idx, events, false)
    ensures h'.Sealed(true) == h.log
    ensures
      var inThink := Feed(THINK_TAGS, Parser("", false), VisibleDeltas(AllChoices(h.log))).1.inThink;
      StartOf(h', true) == Parser("", inThink) && ParserOk(h', StartOf(h', true), Parser("", inThink))
  {
    hide FinalTrace, Feed, VisibleDeltas, Groups, AllChoices, AllSegments, LastUsage, StreamItems, TextEvents;
    assert h.log[..|h.log|] == h.log && h.log[|h.log|..] == [];
    assert events + [] == events && items + [] == items;
    NoGroups(responseId, |items|, false);
    NothingFed(StartOf(h', true));
  }

  lemma NotYetFinalized(h: History, uuid: string, responseId: string, model: string, createdAt: real,
                        created: bool, finalized: bool)
    requires MetadataOk(h, uuid, responseId, model, createdAt, created, finalized)
    ensures !created ==> !finalized
  {
  }

  /** What the first chunk finds. */
  lemma FirstChunkOk(h: History, uuid: string, responseId: string, model: string, createdAt: real,
                     items: seq<StreamItem>, active: bool, idx: int, events: seq<Event>, parser: Parser,
                     usage: Option<Usage>, responseId': string, event: Event)
    requires MetadataOk(h, uuid, responseId, model, createdAt, false, false)
    requires PhaseOk(h, uuid, false, false) && ChunksOk(h, usage, false)
    requires TextOk(h, responseId, items, active, idx, events, false)
    requires ParserOk(h, StartOf(h, false), parser)
    ensures responseId == "" && model == "" && createdAt == 0.0
    ensures TextOk(h.(log := h.log, prefix := [event]), responseId', items, active, idx, events + [event], false)
  {
    hide Feed, VisibleDeltas, Groups, StreamItems, TextEvents, LastUsage;
    NothingSaid();
    StartsFresh(h);
    NothingYet(h, uuid, items, active, idx, events, parser);
    NoGroups("", 0, false);
    NoGroups(responseId', 0, false);
  }

  lemma NothingSaid()
    ensures FirstModel([]) == "" && LastCreated([]) == 0.0
  {
  }

  lemma StartsFresh(h: History)
    ensures StartOf(h, false) == Parser("", false)
  {
  }

  /** What `AnnounceBeforeEnd` does to the fields. */
  lemma AnnouncedOk(h: History, uuid: string, responseId: string, model: string, createdAt: real,
                    created: bool, items: seq<StreamItem>, active: bool, idx: int, events: seq<Event>,
                    parser: Parser)
    requires MetadataOk(h, uuid, responseId, model, createdAt, created, false)
    requires PhaseOk(h, uuid, created, false)
    requires h.phase == AllChoices(h.log)
    requires TextOk(h, responseId, items, active, idx, events, false)
    requires ParserOk(h, Parser("", false), parser)
    ensures h.fixed == []
    ensures created ==> h.prefix == [CreatedEvent(h.log, uuid)] && responseId == ResponseId(h.log, uuid)
    ensures !created ==>
              && responseId == "" && model == "" && createdAt == 0.0
              && ResponseId(h.log, uuid) == ToResponseId(None, uuid)
              && CreatedEvent(h.log, uuid) ==
                 Created(Response(ToResponseId(None, uuid), 0.0, InProgress, None, "", [], None, None))
              && TextOk(h.(prefix := [CreatedEvent(h.log, uuid)]), ResponseId(h.log, uuid), items, active, idx,
                        events + [CreatedEvent(h.log, uuid)], false)
  {
    hide Feed, VisibleDeltas, Groups, AllChoices, StreamItems, TextEvents;
    if !created {
      EmptyStream(uuid);
      hide ToResponseId, CreatedEvent;
      NothingYet(h, uuid, items, active, idx, events, parser);
      NoGroups("", 0, false);
      NoGroups(ToResponseId(None, uuid), 0, false);
    }
  }

  class StreamState {
    const uuid: string
    var responseId: string
    var model: string
    var createdAt: real
    var created: bool
    var finalized: bool
    var finishReason: Option<FinishReason>
    var usage: Option<Usage>
    var toolCalls: map<int, StreamCall>
    var toolOrder: seq<int>
    var items: seq<StreamItem>
    var activeItemIdx: int
    var active: bool
    const thinkParser: ThinkTagParser
    /** What the emitter has received. */
    var frames: seq<Frame>
    ghost var h: History

    ghost predicate Valid()
      reads this, thinkParser
    {
      && thinkParser.tags == THINK_TAGS
      && MetadataOk(h, uuid, responseId, model, createdAt, created, finalized)
      && PhaseOk(h, uuid, created, finalized)
      && ChunksOk(h, usage, finalized)
      && ChoicesOk(h, finishReason, toolOrder, toolCalls)
      && TextOk(h, responseId, items, active, activeItemIdx, Events(frames), false)
      && ParserOk(h, StartOf(h, finalized), thinkParser.State())
    }

    constructor (uuid: string)
      ensures Valid() && fresh(thinkParser)
      ensures this.uuid == uuid && h == NO_HISTORY && !finalized && frames == []
    {
      this.uuid := uuid;
      responseId, model, createdAt, created, finalized := "", "", 0.0, false, false;
      finishReason, usage := None, None;
      toolCalls, toolOrder := map[], [];
      items, activeItemIdx, active := [], -1, false;
      thinkParser := new ThinkTagParser();
      frames := [];
      h := NO_HISTORY;
    }

    method Emit(event: Event)
      modifies `frames
      ensures Events(frames) == old(Events(frames)) + [event]
      ensures PassedThrough(frames) == old(PassedThrough(frames))
    {
      EventsSnoc(frames, EventFrame(event));
      frames := frames + [EventFrame(event)];
    }

    /** `ensureStreamCreated`. */
    method EnsureStreamCreated(chunk: Chunk)
      modifies `responseId, `model, `createdAt, `created, `frames
      ensures responseId == if old(responseId) == "" then ToResponseId(chunk.id, uuid) else old(responseId)
      ensures model == if old(model) == "" then OrElse(chunk.model, "") else old(model)
      ensures createdAt == OrElse(chunk.created, old(createdAt))
      ensures created
      ensures Events(frames) == old(Events(frames)) +
              if old(created) then []
              else [Created(Response(responseId, createdAt, InProgress, None, model, [], None, None))]
      ensures old(created) ==> frames == old(frames)
      ensures PassedThrough(frames) == old(PassedThrough(frames))
    {
      if responseId == "" {
        responseId := ToResponseId(chunk.id, uuid);
      }
      if model == "" && chunk.model.Some? {
        model := chunk.model.value;
      }
      if chunk.created.Some? {
        createdAt := chunk.created.value;
      }
      if created {
        return;
      }
      created := true;
      Emit(Created(Response(responseId, createdAt, InProgress, None, model, [], None, None)));
    }

    /** `finalizeActiveStreamItem`. */
    method FinalizeActiveStreamItem()
      requires TextOk(h, responseId, items, active, activeItemIdx, Events(frames), false)
      modifies `items, `active, `frames
      ensures TextOk(h, responseId, items, active, activeItemIdx, Events(frames), true)
      ensures PassedThrough(frames) == old(PassedThrough(frames))
    {
      hide StreamItems, TextEvents, GeneratedId, Events, PassedThrough;
      if !active {
        NoGroups(responseId, |h.fixed|, false);
        NoGroups(responseId, |h.fixed|, true);
        return;
      }
      var item := items[activeItemIdx];
      TextCloses(h, responseId, items, Events(frames));
      Emit(TextDone(item.kind, item.id, item.outputIndex, item.text));
      Emit(PartDone(item.id, item.outputIndex, PartFor(item.kind, item.text, [])));
      Emit(ItemDone(item.outputIndex, ResponseOutputItem(item)));
      items := items[activeItemIdx := item.(finalized := true)];
      active := false;
    }

    /** The second half of `ensureStreamItemStarted`: announce a new item. */
    method StartStreamItem(kind: Kind)
      requires TextOk(h, responseId, items, active, activeItemIdx, Events(frames), true)
      modifies `items, `activeItemIdx, `active, `frames, `h
      ensures h == old(h).(groups := old(h).groups + [Group(kind, [])])
      ensures TextOk(h, responseId, items, active, activeItemIdx, Events(frames), false)
      ensures PassedThrough(frames) == old(PassedThrough(frames))
    {
      hide StreamItems, TextEvents, ItemIdFor, Events, PassedThrough, OpenItem;
      var outputIndex := |items|;
      var id := ItemIdFor(responseId, outputIndex, kind);
      TextOpens(h, responseId, items, Events(frames), kind);
      items := items + [StreamItem(kind, outputIndex, id, "", false)];
      activeItemIdx, active := outputIndex, true;
      h := h.(groups := h.groups + [Group(kind, [])]);
      Emit(ItemAdded(outputIndex, OpenItem(responseId, outputIndex, kind)));
      Emit(PartAdded(id, outputIndex, PartFor(kind, "", [])));
    }

    /** `ensureStreamItemStarted`: afterwards the active item has the given kind. */
    method EnsureStreamItemStarted(kind: Kind)
      requires TextOk(h, responseId, items, active, activeItemIdx, Events(frames), false)
      modifies `items, `activeItemIdx, `active, `frames, `h
      ensures h == old(h).(groups := StartGroup(old(h).groups, kind))
      ensures TextOk(h, responseId, items, active, activeItemIdx, Events(frames), false)
      ensures PassedThrough(frames) == old(PassedThrough(frames))
    {
      hide StreamItems, TextEvents, ItemIdFor, Events, PassedThrough, OpenItem;
      if active {
        StreamItemsClose(responseId, |h.fixed|, h.groups);
        if items[activeItemIdx].kind == kind {
          return;
        }
      }
      FinalizeActiveStreamItem();
      StartStreamItem(kind);
    }

    /** `appendStreamTextDelta`. */
    method AppendStreamTextDelta(seg: Segment)
      requires TextOk(h, responseId, items, active, activeItemIdx, Events(frames), false)
      requires h.groups == Groups(h.segments)
      modifies `items, `activeItemIdx, `active, `frames, `h
      ensures seg.text == "" ==> h == old(h)
      ensures seg.text != "" ==>
                && h.segments == old(h).segments + [seg]
                && h == old(h).(segments := h.segments, groups := Groups(h.segments))
      ensures TextOk(h, responseId, items, active, activeItemIdx, Events(frames), false)
      ensures PassedThrough(frames) == old(PassedThrough(frames))
    {
      hide StreamItems, TextEvents, Events, PassedThrough, StartGroup, ExtendLast, Groups;
      if seg.text == "" {
        return;
      }
      GroupsSnoc(h.segments, seg);
      EnsureStreamItemStarted(seg.kind);
      var item := items[activeItemIdx];
      TextGrows(h.prefix, h.fixed, responseId, h.groups, items, Events(frames), seg.text);
      items := items[activeItemIdx := item.(text := item.text + seg.text)];
      h := h.(groups := ExtendLast(h.groups, seg.text), segments := h.segments + [seg]);
      Emit(Delta(seg.kind, item.id, item.outputIndex, seg.text));
    }

    /** `appendToolCallDelta`. */
    method AppendToolCallDelta(deltas: seq<ToolDelta>)
      requires ToolsAre(toolOrder, toolCalls, h.tools)
      modifies `toolCalls, `toolOrder, `h
      ensures h == old(h).(tools := old(h).tools + deltas)
      ensures ToolsAre(toolOrder, toolCalls, h.tools)
    {
      hide ToolsAre;
      for k := 0 to |deltas|
        invariant h == old(h).(tools := old(h).tools + deltas[..k])
        invariant ToolsAre(toolOrder, toolCalls, h.tools)
      {
        var d := deltas[k];
        ghost var order, calls := toolOrder, toolCalls;
        ToolsSize(toolOrder, toolCalls, h.tools);
        var idx := if d.index.Some? then d.index.value else |toolCalls|;
        if idx !in toolCalls {
          toolCalls := toolCalls[idx := EMPTY_CALL];
          toolOrder := toolOrder + [idx];
        }
        toolCalls := toolCalls[idx := Extended(toolCalls[idx], d)];
        ToolsStep(order, calls, h.tools, d, idx, toolOrder, toolCalls);
        assert deltas[..k + 1] == deltas[..k] + [d];
        h := h.(tools := h.tools + [d]);
      }
      assert deltas[..|deltas|] == deltas;
    }

    /** The segments of one `consume` or `flush` call. */
    method AppendSegments(segments: seq<Segment>)
      requires TextOk(h, responseId, items, active, activeItemIdx, Events(frames), false)
      requires h.groups == Groups(h.segments)
      requires forall k :: 0 <= k < |segments| ==> segments[k].text != ""
      modifies `items, `activeItemIdx, `active, `frames, `h
      ensures h.segments == old(h).segments + segments
      ensures h == old(h).(segments := h.segments, groups := Groups(h.segments))
      ensures TextOk(h, responseId, items, active, activeItemIdx, Events(frames), false)
      ensures PassedThrough(frames) == old(PassedThrough(frames))
    {
      hide TextOk, Groups, PassedThrough, Events;
      for k := 0 to |segments|
        invariant h.segments == old(h).segments + segments[..k]
        invariant h == old(h).(segments := h.segments, groups := Groups(h.segments))
        invariant TextOk(h, responseId, items, active, activeItemIdx, Events(frames), false)
        invariant PassedThrough(frames) == old(PassedThrough(frames))
      {
        AppendStreamTextDelta(segments[k]);
        assert segments[..k + 1] == segments[..k] + [segments[k]];
      }
      assert segments[..|segments|] == segments;
    }

    /** The text of a choice. */
    method ProcessContent(choice: Choice, ghost start: Parser)
      requires thinkParser.tags == THINK_TAGS
      requires TextOk(h, responseId, items, active, activeItemIdx, Events(frames), false)
      requires ParserOk(h, start, thinkParser.State())
      modifies `items, `activeItemIdx, `active, `frames, `h, thinkParser
      ensures h.phase == old(h).phase + [choice]
      ensures h == old(h).(phase := h.phase, deltas := h.deltas, segments := h.segments, groups := h.groups)
      ensures TextOk(h, responseId, items, active, activeItemIdx, Events(frames), false)
      ensures ParserOk(h, start, thinkParser.State())
      ensures PassedThrough(frames) == old(PassedThrough(frames))
    {
      hide PassedThrough, Drain, Groups, Compress, Feed, Events, StreamItems, TextEvents;
      assert (h.phase + [choice])[..|h.phase|] == h.phase;
      h := h.(phase := h.phase + [choice]);
      var contentDelta := OrElse(choice.content, "");
      if contentDelta == "" {
        contentDelta := OrElse(choice.reasoningContent, "");
      }
      if contentDelta == "" {
        return;
      }
      FeedSnoc(THINK_TAGS, start, h.deltas, contentDelta);
      ghost var p := thinkParser.State();
      var segments := thinkParser.Consume(contentDelta);
      CompressIsNormal(Drain(THINK_TAGS, Parser(p.buffer + contentDelta, p.inThink)).0);
      h := h.(deltas := h.deltas + [contentDelta]);
      AppendSegments(segments);
    }

    /** One choice of a chunk. */
    method ProcessChoice(choice: Choice, ghost start: Parser)
      requires thinkParser.tags == THINK_TAGS
      requires ChoicesOk(h, finishReason, toolOrder, toolCalls)
      requires TextOk(h, responseId, items, active, activeItemIdx, Events(frames), false)
      requires ParserOk(h, start, thinkParser.State())
      modifies `finishReason, `toolCalls, `toolOrder, `items, `activeItemIdx, `active, `frames, `h
      modifies thinkParser
      ensures h.choices == old(h).choices + [choice] && h.phase == old(h).phase + [choice]
      ensures h == old(h).(choices := h.choices, phase := h.phase, tools := h.tools, deltas := h.deltas,
                           segments := h.segments, groups := h.groups)
      ensures ChoicesOk(h, finishReason, toolOrder, toolCalls)
      ensures TextOk(h, responseId, items, active, activeItemIdx, Events(frames), false)
      ensures ParserOk(h, start, thinkParser.State())
      ensures PassedThrough(frames) == old(PassedThrough(frames))
    {
      hide ToolsAre, StreamItems, TextEvents, Feed, VisibleDeltas, Groups, PassedThrough, Events;
      assert (h.choices + [choice])[..|h.choices|] == h.choices;
      if choice.finishReason.Some? {
        finishReason := choice.finishReason;
      }
      AppendToolCallDelta(choice.toolCalls);
      h := h.(choices := h.choices + [choice]);
      ProcessContent(choice, start);
    }

    /** The loop over the choices of a chunk. */
    method ProcessChoices(choices: seq<Choice>, ghost start: Parser)
      requires thinkParser.tags == THINK_TAGS
      requires ChoicesOk(h, finishReason, toolOrder, toolCalls)
      requires TextOk(h, responseId, items, active, activeItemIdx, Events(frames), false)
      requires ParserOk(h, start, thinkParser.State())
      modifies `finishReason, `toolCalls, `toolOrder, `items, `activeItemIdx, `active, `frames, `h
      modifies thinkParser
      ensures h.choices == old(h).choices + choices && h.phase == old(h).phase + choices
      ensures h == old(h).(choices := h.choices, phase := h.phase, tools := h.tools, deltas := h.deltas,
                           segments := h.segments, groups := h.groups)
      ensures ChoicesOk(h, finishReason, toolOrder, toolCalls)
      ensures TextOk(h, responseId, items, active, activeItemIdx, Events(frames), false)
      ensures ParserOk(h, start, thinkParser.State())
      ensures PassedThrough(frames) == old(PassedThrough(frames))
    {
      hide ChoicesOk, TextOk, ParserOk, PassedThrough, Events;
      for k := 0 to |choices|
        invariant h.choices == old(h).choices + choices[..k] && h.phase == old(h).phase + choices[..k]
        invariant h == old(h).(choices := h.choices, phase := h.phase, tools := h.tools, deltas := h.deltas,
                               segments := h.segments, groups := h.groups)
        invariant ChoicesOk(h, finishReason, toolOrder, toolCalls)
        invariant TextOk(h, responseId, items, active, activeItemIdx, Events(frames), false)
        invariant ParserOk(h, start, thinkParser.State())
        invariant PassedThrough(frames) == old(PassedThrough(frames))
      {
        ProcessChoice(choices[k], start);
        assert choices[..k + 1] == choices[..k] + [choices[k]];
      }
      assert choices[..|choices|] == choices;
    }

    /** Announce the stream if need be and take note of the chunk. */
    method BeginChunk(chunk: Chunk)
      requires Valid()
      modifies `responseId, `model, `createdAt, `created, `frames, `h
      ensures created
      ensures h == old(h).(log := old(h).log + [chunk], prefix := h.prefix)
      ensures MetadataOk(h, uuid, responseId, model, createdAt, created, finalized)
      ensures PhaseOk(h, uuid, created, finalized)
      ensures StartOf(h, finalized) == old(StartOf(h, finalized))
      ensures TextOk(h, responseId, items, active, activeItemIdx, Events(frames), false)
      ensures PassedThrough(frames) == old(PassedThrough(frames))
    {
      ghost var event := CreatedEvent(h.log + [chunk], uuid);
      ghost var h' := h.(log := h.log + [chunk], prefix := if created then h.prefix else [event]);
      assert created ==> responseId != "" by {
        hide PhaseOk, ChunksOk, ChoicesOk, TextOk, ParserOk, StartOf, Events, ResponseId;
      }
      hide PassedThrough, Events, PhaseOk, StreamItems, TextEvents, CreatedEvent, ToResponseId, StartOf,
        MetadataOk, ChunksOk, ChoicesOk, ParserOk;
      MetadataGrows(h, uuid, responseId, model, createdAt, created, finalized, chunk, h');
      if !created {
        assert !finalized by {
          NotYetFinalized(h, uuid, responseId, model, createdAt, created, finalized);
        }
        FirstChunkOk(h, uuid, responseId, model, createdAt, items, active, activeItemIdx, Events(frames),
                     thinkParser.State(), usage, ToResponseId(chunk.id, uuid), event);
      }
      EnsureStreamCreated(chunk);
      h := h';
    }

    /** `processChatCompletionChunk`. */
    method ProcessChatCompletionChunk(chunk: Chunk)
      requires Valid()
      modifies this, thinkParser
      ensures Valid()
      ensures h.log == old(h).log + [chunk] && h.sealedAt == old(h).sealedAt
      ensures finalized == old(finalized)
      ensures PassedThrough(frames) == old(PassedThrough(frames))
    {
      ghost var h0, usage0, start := h, usage, StartOf(h, finalized);
      hide TextOk, ChunksOk, ToolsAre, AllToolDeltas, LastFinish, FirstModel, LastCreated, ResponseId, FinalTrace,
        CreatedEvent,
        AllSegments, Groups, AllChoices, Feed, VisibleDeltas, PassedThrough, Events;
      BeginChunk(chunk);
      if chunk.usage.Some? {
        usage := chunk.usage;
      }
      ProcessChoices(chunk.choices, start);
      ChunksGrow(h0, usage0, finalized, chunk, h);
    }

    /** The buffered tool calls as finished items: `functionCallItemsForStream`. */
    method FunctionCallItemsForStream(startIndex: nat) returns (out: seq<Item>)
      requires ToolsAre(toolOrder, toolCalls, h.tools)
      ensures out == StreamCallItems(responseId, startIndex, ToolOrder(h.tools), h.tools)
    {
      hide StreamCallItem, CallOf, ToolOrder;
      out := [];
      for offset := 0 to |toolOrder|
        invariant out == StreamCallItems(responseId, startIndex, toolOrder[..offset], h.tools)
      {
        var idx := toolOrder[offset];
        assert idx in toolOrder;
        assert toolOrder[..offset + 1][..offset] == toolOrder[..offset];
        out := out + [StreamCallItem(responseId, startIndex + offset, idx, toolCalls[idx])];
      }
      assert toolOrder[..|toolOrder|] == toolOrder;
    }

    /** The text items as they appear in the final response. */
    method FinishedItems() returns (output: seq<Item>)
      requires items == StreamItems(responseId, 0, h.groups, true)
      ensures output == GroupItems(responseId, h.groups)
    {
      output := [];
      for k := 0 to |items|
        invariant output == GroupItems(responseId, h.groups[..k])
      {
        hide StreamItems, GroupItems, TextItem, ResponseOutputItem;
        StreamItemsAt(responseId, h.groups, k);
        GroupItemsSnoc(responseId, h.groups, k);
        output := output + [ResponseOutputItem(items[k])];
      }
      assert h.groups[..|h.groups|] == h.groups;
    }

    /** Announce and finish every function call. */
    method EmitCalls(startIndex: nat, calls: seq<Item>)
      modifies `frames
      ensures Events(frames) == old(Events(frames)) + CallEvents(startIndex, calls)
      ensures PassedThrough(frames) == old(PassedThrough(frames))
    {
      hide Events, PassedThrough;
      for offset := 0 to |calls|
        invariant Events(frames) == old(Events(frames)) + CallEvents(startIndex, calls[..offset])
        invariant PassedThrough(frames) == old(PassedThrough(frames))
      {
        EventsOfCalls(startIndex, calls, offset);
        hide CallEvents;
        Emit(ItemAdded(startIndex + offset, calls[offset]));
        Emit(ItemDone(startIndex + offset, calls[offset]));
      }
      assert calls[..|calls|] == calls;
    }

    /** The flush that ends the text: afterwards every item is closed. */
    method FlushText()
      requires thinkParser.tags == THINK_TAGS
      requires TextOk(h, responseId, items, active, activeItemIdx, Events(frames), false)
      requires ParserOk(h, Parser("", false), thinkParser.State())
      modifies `items, `activeItemIdx, `active, `frames, `h, thinkParser
      ensures h == old(h).(segments := h.segments, groups := Groups(AllSegments(h.phase)))
      ensures TextOk(h, responseId, items, active, activeItemIdx, Events(frames), true)
      ensures thinkParser.State() == Parser("", Feed(THINK_TAGS, Parser("", false), VisibleDeltas(h.phase)).1.inThink)
      ensures PassedThrough(frames) == old(PassedThrough(frames))
    {
      hide TextOk, Groups, Feed, VisibleDeltas, PassedThrough, Events;
      var segments := thinkParser.Flush();
      AppendSegments(segments);
      FinalizeActiveStreamItem();
    }

    /** A stream that ends before any chunk arrived is announced by its finalization. */
    method AnnounceBeforeEnd()
      requires Valid() && !finalized
      modifies `responseId, `model, `createdAt, `created, `frames, `h
      ensures created && responseId == ResponseId(h.log, uuid)
      ensures model == old(model) && createdAt == old(createdAt)
      ensures h == old(h).(prefix := [CreatedEvent(h.log, uuid)]) && h.fixed == []
      ensures TextOk(h, responseId, items, active, activeItemIdx, Events(frames), false)
      ensures PassedThrough(frames) == old(PassedThrough(frames))
    {
      hide Events, PassedThrough, MetadataOk, PhaseOk, ChoicesOk, ParserOk, TextOk, CreatedEvent,
        ToResponseId, StartOf, ResponseId, AllChoices, LastUsage;
      assert StartOf(h, false) == Parser("", false) by {
        StartsFresh(h);
      }
      AnnouncedOk(h, uuid, responseId, model, createdAt, created, items, active, activeItemIdx, Events(frames),
                  thinkParser.State());
      assert created ==> h.(prefix := [CreatedEvent(h.log, uuid)]) == h;
      EnsureStreamCreated(EMPTY_CHUNK);
      h := h.(prefix := [CreatedEvent(h.log, uuid)]);
    }

    /** The last two frames. */
    method EmitCompletion(output: seq<Item>)
      modifies `frames
      ensures Events(frames) == old(Events(frames)) +
              [Completed(Response(responseId, createdAt, StatusOf(finishReason), IncompleteOf(finishReason),
                                  model, output, TokenUsageOf(usage), NonEmpty(OutputTextOf(output)))),
               DoneMark]
      ensures PassedThrough(frames) == old(PassedThrough(frames))
    {
      hide Events, PassedThrough;
      var status := StatusOf(finishReason);
      var incomplete := if status == Incomplete then IncompleteOf(finishReason) else None;
      var text := CollectOutputText(output);
      Emit(Completed(Response(responseId, createdAt, status, incomplete, model, output,
                              TokenUsageOf(usage), NonEmpty(text))));
      Emit(DoneMark);
    }

    /** The function calls and the final response. */
    method EmitOutcome()
      requires items == StreamItems(responseId, 0, h.groups, true)
      requires ToolsAre(toolOrder, toolCalls, h.tools)
      modifies `frames
      ensures
        var n := |h.groups|;
        var calls := StreamCallItems(responseId, n, ToolOrder(h.tools), h.tools);
        var output := GroupItems(responseId, h.groups) + calls;
        Events(frames) == old(Events(frames)) + CallEvents(n, calls) +
          [Completed(Response(responseId, createdAt, StatusOf(finishReason), IncompleteOf(finishReason),
                              model, output, TokenUsageOf(usage), NonEmpty(OutputTextOf(output)))),
           DoneMark]
      ensures PassedThrough(frames) == old(PassedThrough(frames))
    {
      hide Events, PassedThrough, StreamCallItems, CallEvents, ToolsAre, GroupItems, StreamItems, ToolOrder;
      var output := FinishedItems();
      var calls := FunctionCallItemsForStream(|output|);
      EmitCalls(|output|, calls);
      EmitCompletion(output + calls);
    }

    /** Announce the stream if that is still to be done, flush the parser and close the last item. */
    method EndText()
      requires Valid() && !finalized
      modifies `responseId, `model, `createdAt, `created, `items, `activeItemIdx, `active, `frames, `h
      modifies thinkParser
      ensures created && responseId == ResponseId(h.log, uuid) && !active
      ensures model == old(model) && createdAt == old(createdAt)
      ensures h == old(h).(prefix := h.prefix, segments := h.segments, groups := h.groups)
      ensures h.groups == Groups(AllSegments(AllChoices(h.log)))
      ensures items == StreamItems(responseId, 0, h.groups, true)
      ensures Events(frames) == [CreatedEvent(h.log, uuid)] + TextEvents(responseId, 0, h.groups, true)
      ensures thinkParser.State() ==
              Parser("", Feed(THINK_TAGS, Parser("", false), VisibleDeltas(AllChoices(h.log))).1.inThink)
      ensures PassedThrough(frames) == old(PassedThrough(frames))
    {
      hide TextEvents, Events, PassedThrough, CreatedEvent, Groups, AllSegments, Feed, LastUsage, VisibleDeltas,
        AllChoices, StreamItems, ResponseId, PhaseOk, StartOf, MetadataOk, ChoicesOk;
      StartsFresh(h);
      AnnounceBeforeEnd();
      FlushText();
      assert [] + StreamItems(responseId, 0, h.groups, true) == items;
    }

    /** Everything `finalizeStream` emits. */
    method EndTrace()
      requires Valid() && !finalized
      modifies `responseId, `model, `createdAt, `created, `items, `activeItemIdx, `active, `frames, `h
      modifies thinkParser
      ensures created && responseId == ResponseId(h.log, uuid) && !active
      ensures model == old(model) && createdAt == old(createdAt)
      ensures h == old(h).(prefix := h.prefix, segments := h.segments, groups := h.groups)
      ensures Events(frames) == FinalTrace(h.log, uuid)
      ensures |items| == |Groups(AllSegments(AllChoices(h.log)))|
      ensures thinkParser.State() ==
              Parser("", Feed(THINK_TAGS, Parser("", false), VisibleDeltas(AllChoices(h.log))).1.inThink)
      ensures PassedThrough(frames) == old(PassedThrough(frames))
    {
      hide TextEvents, Events, PassedThrough, StreamCallItems, CallEvents, ToolsAre, CreatedEvent, Groups,
        AllSegments, Feed, FirstModel, LastCreated, LastUsage, GroupItems, VisibleDeltas, AllChoices,
        AllToolDeltas, LastFinish, StreamItems, ToolOrder, StatusOf, IncompleteOf, TokenUsageOf, ResponseId,
        PhaseOk, StartOf, TextOk, ParserOk;
      EndText();
      EmitOutcome();
    }

    /** `finalizeStream`. */
    method FinalizeStream()
      requires Valid()
      modifies this, thinkParser
      ensures Valid() && finalized
      ensures h.log == old(h).log
      ensures h.sealedAt == if old(finalized) then old(h).sealedAt else |h.log|
      ensures old(finalized) ==> frames == old(frames) && h == old(h)
      ensures PassedThrough(frames) == old(PassedThrough(frames))
    {
      hide TextOk, ParserOk, PhaseOk, ChunksOk, StartOf, Events, PassedThrough, ToolsAre, AllToolDeltas,
        LastFinish, FirstModel, LastCreated, ResponseId, FinalTrace, Groups, AllSegments, AllChoices, Feed;
      if finalized {
        return;
      }
      EndTrace();
      ghost var h' := h.(sealedAt := |h.log|, phase := [], deltas := [], segments := [], groups := [],
                         prefix := Events(frames), fixed := items);
      AfterTrace(h, usage, old(h));
      SealedOk(h, uuid, usage, responseId, items, Events(frames), activeItemIdx, h');
      finalized := true;
      h := h';
    }

    /** `processSseBlock`, after the data has been extracted and decoded. */
    method ProcessSseBlock(input: Input)
      requires Valid()
      modifies this, thinkParser
      ensures Valid()
      ensures h.log == old(h).log + if input.ChunkInput? then [input.chunk] else []
      ensures finalized == (old(finalized) || input.DoneSentinel?)
      ensures h.sealedAt == if input.DoneSentinel? && !old(finalized) then |h.log| else old(h).sealedAt
      ensures PassedThrough(frames) ==
              old(PassedThrough(frames))
              + if input.Malformed? then [Passed(|old(Events(frames))|, input.block)] else []
    {
      hide TextOk, ParserOk, MetadataOk, PhaseOk, ChunksOk, ChoicesOk, StartOf, Events, PassedThrough;
      match input
      case NoData =>
      case DoneSentinel => FinalizeStream();
      case Malformed(block) =>
        EventsSnoc(frames, PassThrough(block));
        frames := frames + [PassThrough(block)];
        assert Events(frames) == old(Events(frames));
      case NotAnObject =>
      case ChunkInput(chunk) => ProcessChatCompletionChunk(chunk);
    }
  }
}
