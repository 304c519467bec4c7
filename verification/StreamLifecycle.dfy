/** The event lifecycle a client may rely on, as a monitor that reads the events one by one and
    rejects the first one out of order, and the proof that it accepts every converted stream. */
module StreamLifecycle {
  import opened Strings
  import opened ThinkTag
  import opened Payloads
  import opened OneShot
  import opened StreamTrace

  /** What the client knows: nothing, no item open, one text item open at some stage of its life,
      one function call announced, the response completed, the stream ended. */
  datatype Stage =
    | Fresh
    | Idle
    | Announced(kind: Kind)
    | Streaming(kind: Kind, text: string)
    | TextClosed(kind: Kind, text: string)
    | PartClosed(kind: Kind, text: string)
    | CallAnnounced(call: Item)
    | Finished
    | Ended

  /** `items` are the finished items so far, `visible` is the text of all message deltas. */
  datatype Monitor = Monitor(stage: Stage, responseId: string, items: seq<Item>, visible: string)

  const START := Monitor(Fresh, "", [], "")

  /** A text item must not follow a function call or a text item of its own kind. */
  predicate MayFollow(items: seq<Item>, kind: Kind) {
    items != [] ==>
      match items[|items| - 1]
      case MessageItem(_, _, _) => kind == Reasoning
      case ReasoningItem(_, _) => kind == Message
      case FunctionCall(_, _, _, _) => false
  }

  /** One event of the protocol; `None` is a violation. */
  function Step(m: Monitor, event: Event): Option<Monitor> {
    var next := |m.items|;
    match event
    case Created(response) =>
      if m.stage == Fresh && response.status == InProgress && response.output == [] then
        Some(m.(stage := Idle, responseId := response.id))
      else None
    case ItemAdded(index, item) =>
      if m.stage != Idle || index != next then None
      else if item.FunctionCall? then
        if item.id == GeneratedId("fc", m.responseId, next) then Some(m.(stage := CallAnnounced(item))) else None
      else
        var kind := if item.MessageItem? then Message else Reasoning;
        if MayFollow(m.items, kind) && item == OpenItem(m.responseId, next, kind) then
          Some(m.(stage := Announced(kind)))
        else None
    case PartAdded(id, index, part) =>
      if m.stage.Announced? && index == next && id == ItemIdFor(m.responseId, next, m.stage.kind)
         && part == PartFor(m.stage.kind, "", []) then
        Some(m.(stage := Streaming(m.stage.kind, "")))
      else None
    case Delta(kind, id, index, text) =>
      if m.stage.Streaming? && kind == m.stage.kind && index == next && text != ""
         && id == ItemIdFor(m.responseId, next, kind) then
        Some(m.(stage := Streaming(kind, m.stage.text + text),
                visible := if kind == Message then m.visible + text else m.visible))
      else None
    case TextDone(kind, id, index, text) =>
      if m.stage.Streaming? && kind == m.stage.kind && index == next && text == m.stage.text && text != ""
         && id == ItemIdFor(m.responseId, next, kind) then
        Some(m.(stage := TextClosed(kind, text)))
      else None
    case PartDone(id, index, part) =>
      if m.stage.TextClosed? && index == next && id == ItemIdFor(m.responseId, next, m.stage.kind)
         && part == PartFor(m.stage.kind, m.stage.text, []) then
        Some(m.(stage := PartClosed(m.stage.kind, m.stage.text)))
      else None
    case ItemDone(index, item) =>
      if index != next then None
      else if m.stage.CallAnnounced? && item == m.stage.call then
        Some(m.(stage := Idle, items := m.items + [item]))
      else if m.stage.PartClosed? && item == TextItem(m.responseId, next, m.stage.kind, m.stage.text, []) then
        Some(m.(stage := Idle, items := m.items + [item]))
      else None
    case Completed(response) =>
      if m.stage == Idle && response.id == m.responseId && response.output == m.items
         && response.status != InProgress && response.outputText == NonEmpty(m.visible) then
        Some(m.(stage := Finished))
      else None
    case DoneMark =>
      if m.stage == Finished then Some(m.(stage := Ended)) else None
  }

  function Run(m: Monitor, events: seq<Event>): Option<Monitor> {
    if events == [] then Some(m)
    else
      match Run(m, events[..|events| - 1])
      case None => None
      case Some(n) => Step(n, events[|events| - 1])
  }

  /** The events of one complete stream, from its creation to its end mark. */
  predicate Accepts(events: seq<Event>) {
    var r := Run(START, events);
    r.Some? && r.value.stage == Ended
  }

  lemma {:induction false} RunAppend(m: Monitor, a: seq<Event>, b: seq<Event>)
    ensures Run(m, a + b) == match Run(m, a) case None => None case Some(n) => Run(n, b)
  {
    hide Step;
    if b == [] {
      assert a + b == a;
    } else {
      assert (a + b)[..|a + b| - 1] == a + b[..|b| - 1];
      RunAppend(m, a, b[..|b| - 1]);
    }
  }

  lemma RunSingle(m: Monitor, event: Event)
    ensures Run(m, [event]) == Step(m, event)
  {
    hide Step;
    assert [event][..0] == [];
  }

  lemma RunCons(m: Monitor, a: Event, b: seq<Event>)
    requires Step(m, a).Some?
    ensures Run(m, [a] + b) == Run(Step(m, a).value, b)
  {
    hide Step;
    RunAppend(m, [a], b);
    RunSingle(m, a);
  }

  // ----- One text item -----

  lemma OpeningAccepted(m: Monitor, kind: Kind)
    requires m.stage == Idle && MayFollow(m.items, kind)
    ensures Run(m, OpeningEvents(m.responseId, |m.items|, kind)) == Some(m.(stage := Streaming(kind, "")))
  {
    hide ItemIdFor, MayFollow;
    var i := |m.items|;
    var added := ItemAdded(i, OpenItem(m.responseId, i, kind));
    var part := PartAdded(ItemIdFor(m.responseId, i, kind), i, PartFor(kind, "", []));
    assert OpeningEvents(m.responseId, i, kind) == [added] + [part];
    RunCons(m, added, [part]);
    RunSingle(m.(stage := Announced(kind)), part);
  }

  lemma DeltaAccepted(m: Monitor, kind: Kind, text: string, delta: string, id: string)
    requires m.stage == Streaming(kind, text) && delta != ""
    requires id == ItemIdFor(m.responseId, |m.items|, kind)
    ensures Run(m, [Delta(kind, id, |m.items|, delta)]) ==
            Some(m.(stage := Streaming(kind, text + delta),
                    visible := if kind == Message then m.visible + delta else m.visible))
  {
    hide ItemIdFor;
    RunSingle(m, Delta(kind, id, |m.items|, delta));
  }

  lemma {:induction false} DeltasAccepted(m: Monitor, kind: Kind, text: string, deltas: seq<string>)
    requires m.stage == Streaming(kind, text)
    requires forall k :: 0 <= k < |deltas| ==> deltas[k] != ""
    ensures Run(m, DeltaEvents(m.responseId, |m.items|, kind, deltas)) ==
            Some(m.(stage := Streaming(kind, text + Concat(deltas)),
                    visible := if kind == Message then m.visible + Concat(deltas) else m.visible))
  {
    hide ItemIdFor, Step;
    if deltas == [] {
      assert text + "" == text && m.visible + "" == m.visible;
    } else {
      hide Run;
      var n, i := |deltas| - 1, |m.items|;
      var front, last := deltas[..n], deltas[n];
      var said := Concat(front);
      var id := ItemIdFor(m.responseId, i, kind);
      assert Concat(deltas) == said + last;
      assert DeltaEvents(m.responseId, i, kind, deltas) ==
             DeltaEvents(m.responseId, i, kind, front) + [Delta(kind, id, i, last)];
      hide Concat, DeltaEvents;
      DeltasAccepted(m, kind, text, front);
      Associative(text, said, last);
      Associative(m.visible, said, last);
      RunAppend(m, DeltaEvents(m.responseId, i, kind, front), [Delta(kind, id, i, last)]);
      DeltaAccepted(m.(stage := Streaming(kind, text + said),
                       visible := if kind == Message then m.visible + said else m.visible),
                    kind, text + said, last, id);
    }
  }

  lemma ClosingAccepted(m: Monitor, kind: Kind, text: string)
    requires m.stage == Streaming(kind, text) && text != ""
    ensures Run(m, ClosingEvents(m.responseId, |m.items|, kind, text)) ==
            Some(m.(stage := Idle, items := m.items + [TextItem(m.responseId, |m.items|, kind, text, [])]))
  {
    hide ItemIdFor, TextItem;
    var i := |m.items|;
    var id := ItemIdFor(m.responseId, i, kind);
    var text' := TextDone(kind, id, i, text);
    var part := PartDone(id, i, PartFor(kind, text, []));
    var item := ItemDone(i, TextItem(m.responseId, i, kind, text, []));
    assert ClosingEvents(m.responseId, i, kind, text) == [text'] + ([part] + [item]);
    RunCons(m, text', [part] + [item]);
    RunCons(m.(stage := TextClosed(kind, text)), part, [item]);
    RunSingle(m.(stage := PartClosed(kind, text)), item);
  }

  /** A group with something to say, whose deltas are all non-empty. */
  predicate Speaks(group: Group) {
    group.deltas != [] && forall k :: 0 <= k < |group.deltas| ==> group.deltas[k] != ""
  }

  lemma SpeakingText(group: Group)
    requires Speaks(group)
    ensures Concat(group.deltas) != ""
  {
  }

  lemma GroupAccepted(m: Monitor, group: Group)
    requires m.stage == Idle && MayFollow(m.items, group.kind) && Speaks(group)
    ensures
      var text := Concat(group.deltas);
      Run(m, GroupEvents(m.responseId, |m.items|, group, true)) ==
      Some(m.(items := m.items + [TextItem(m.responseId, |m.items|, group.kind, text, [])],
              visible := if group.kind == Message then m.visible + text else m.visible))
  {
    var id, i, kind, text := m.responseId, |m.items|, group.kind, Concat(group.deltas);
    SpeakingText(group);
    hide OpeningEvents, DeltaEvents, ClosingEvents, TextItem, MayFollow, Concat, Step;
    OpeningAccepted(m, kind);
    var m1 := m.(stage := Streaming(kind, ""));
    DeltasAccepted(m1, kind, "", group.deltas);
    assert "" + text == text;
    var m2 := m1.(stage := Streaming(kind, text), visible := if kind == Message then m.visible + text else m.visible);
    ClosingAccepted(m2, kind, text);
    RunAppend(m, OpeningEvents(id, i, kind), DeltaEvents(id, i, kind, group.deltas));
    RunAppend(m, OpeningEvents(id, i, kind) + DeltaEvents(id, i, kind, group.deltas),
              ClosingEvents(id, i, kind, text));
  }

  // ----- All text items -----

  /** Group `k` has text and differs in kind from the one before it. */
  predicate SpeaksAnew(groups: seq<Group>, k: nat)
    requires k < |groups|
  {
    Speaks(groups[k]) && (k > 0 ==> groups[k - 1].kind != groups[k].kind)
  }

  predicate Alternates(groups: seq<Group>) {
    forall k: nat :: k < |groups| ==> SpeaksAnew(groups, k)
  }

  lemma AlternatesSnoc(groups: seq<Group>, kind: Kind, text: string)
    requires Alternates(groups) && text != ""
    ensures Alternates(ExtendLast(StartGroup(groups, kind), text))
  {
    var more := StartGroup(groups, kind);
    var n := |more| - 1;
    var result := ExtendLast(more, text);
    assert more[..n] <= groups;
    assert n < |groups| ==> SpeaksAnew(groups, n);
    forall k: nat | k < |result|
      ensures SpeaksAnew(result, k)
    {
      if k < n {
        assert SpeaksAnew(groups, k);
      }
    }
  }

  lemma AlternatesFront(groups: seq<Group>)
    requires Alternates(groups) && groups != []
    ensures Alternates(groups[..|groups| - 1]) && SpeaksAnew(groups, |groups| - 1)
  {
    hide Speaks;
    var front := groups[..|groups| - 1];
    forall k: nat | k < |front|
      ensures SpeaksAnew(front, k)
    {
      assert SpeaksAnew(groups, k);
    }
  }

  predicate AllSay(segments: seq<Segment>) {
    forall k :: 0 <= k < |segments| ==> segments[k].text != ""
  }

  lemma {:induction false} GroupsAlternate(segments: seq<Segment>)
    requires AllSay(segments)
    ensures Alternates(Groups(segments))
  {
    if segments != [] {
      hide Alternates, ExtendLast, StartGroup;
      var n := |segments| - 1;
      GroupsAlternate(segments[..n]);
      AlternatesSnoc(Groups(segments[..n]), segments[n].kind, segments[n].text);
    } else {
      assert Alternates([]);
    }
  }

  function MessageText(groups: seq<Group>): string {
    if groups == [] then ""
    else
      var n := |groups| - 1;
      MessageText(groups[..n]) + if groups[n].kind == Message then Concat(groups[n].deltas) else ""
  }

  lemma LastGroupItem(responseId: string, groups: seq<Group>, kind: Kind)
    requires groups != [] ==> groups[|groups| - 1].kind != kind
    ensures MayFollow(GroupItems(responseId, groups), kind)
  {
  }

  lemma {:induction false} GroupsAccepted(m: Monitor, groups: seq<Group>)
    requires m.stage == Idle && m.items == [] && m.visible == "" && Alternates(groups)
    ensures Run(m, TextEvents(m.responseId, 0, groups, true)) ==
            Some(m.(items := GroupItems(m.responseId, groups), visible := MessageText(groups)))
  {
    if groups == [] {
    } else {
      var n := |groups| - 1;
      var front, last := groups[..n], groups[n];
      hide GroupEvents, TextItem, Step;
      AlternatesFront(groups);
      GroupsAccepted(m, front);
      var m1 := m.(items := GroupItems(m.responseId, front), visible := MessageText(front));
      LastGroupItem(m.responseId, front, last.kind);
      RunAppend(m, TextEvents(m.responseId, 0, front, true), GroupEvents(m.responseId, n, last, true));
      GroupAccepted(m1, last);
      assert m1.visible + "" == m1.visible;
    }
  }

  // ----- Function calls -----

  lemma CallAccepted(m: Monitor, call: Item, position: nat)
    requires m.stage == Idle && position == |m.items|
    requires call.FunctionCall? && call.id == GeneratedId("fc", m.responseId, position)
    ensures Run(m, [ItemAdded(position, call), ItemDone(position, call)]) == Some(m.(items := m.items + [call]))
  {
    hide GeneratedId, OpenItem, TextItem;
    var added, finished := ItemAdded(position, call), ItemDone(position, call);
    assert [added, finished] == [added] + [finished];
    RunCons(m, added, [finished]);
    RunSingle(m.(stage := CallAnnounced(call)), finished);
  }

  lemma CallsSnoc(responseId: string, start: nat, order: seq<int>, deltas: seq<ToolDelta>, i: int)
    ensures
      var front := StreamCallItems(responseId, start, order, deltas);
      var call := StreamCallItem(responseId, start + |order|, i, CallOf(deltas, i));
      && StreamCallItems(responseId, start, order + [i], deltas) == front + [call]
      && CallEvents(start, front + [call]) ==
         CallEvents(start, front) + [ItemAdded(start + |order|, call), ItemDone(start + |order|, call)]
  {
    hide CallOf, GeneratedId, StreamCallItem;
    var call := StreamCallItem(responseId, start + |order|, i, CallOf(deltas, i));
    assert (order + [i])[..|order|] == order;
    var front := StreamCallItems(responseId, start, order, deltas);
    assert (front + [call])[..|front|] == front;
  }

  lemma OneMoreCallAccepted(m: Monitor, order: seq<int>, deltas: seq<ToolDelta>, start: nat, i: int)
    requires m.stage == Idle && start == |m.items|
    requires
      var calls := StreamCallItems(m.responseId, start, order, deltas);
      Run(m, CallEvents(start, calls)) == Some(m.(items := m.items + calls))
    ensures
      var calls := StreamCallItems(m.responseId, start, order + [i], deltas);
      Run(m, CallEvents(start, calls)) == Some(m.(items := m.items + calls))
  {
    hide CallOf, GeneratedId, Step, StreamCallItems, CallEvents, Run;
    var n := |order|;
    var front := StreamCallItems(m.responseId, start, order, deltas);
    var call := StreamCallItem(m.responseId, start + n, i, CallOf(deltas, i));
    CallsSnoc(m.responseId, start, order, deltas, i);
    RunAppend(m, CallEvents(start, front), [ItemAdded(start + n, call), ItemDone(start + n, call)]);
    CallAccepted(m.(items := m.items + front), call, start + n);
    Associative(m.items, front, [call]);
  }

  lemma {:induction false} CallsAccepted(m: Monitor, order: seq<int>, deltas: seq<ToolDelta>, start: nat)
    requires m.stage == Idle && start == |m.items|
    ensures
      var calls := StreamCallItems(m.responseId, start, order, deltas);
      Run(m, CallEvents(start, calls)) == Some(m.(items := m.items + calls))
  {
    if order == [] {
      hide Step;
      assert m.items + [] == m.items;
    } else {
      hide StreamCallItems, CallEvents, Run;
      var front, last := order[..|order| - 1], order[|order| - 1];
      assert order == front + [last];
      CallsAccepted(m, front, deltas, start);
      OneMoreCallAccepted(m, front, deltas, start, last);
    }
  }

  lemma {:induction false} CallsAreSilent(responseId: string, start: nat, order: seq<int>, deltas: seq<ToolDelta>)
    ensures OutputTextOf(StreamCallItems(responseId, start, order, deltas)) == ""
  {
    if order != [] {
      hide CallOf, GeneratedId;
      CallsAreSilent(responseId, start, order[..|order| - 1], deltas);
    }
  }

  lemma {:induction false} MessagesAreVisible(responseId: string, groups: seq<Group>)
    ensures OutputTextOf(GroupItems(responseId, groups)) == MessageText(groups)
  {
    if groups != [] {
      hide GeneratedId;
      var n := |groups| - 1;
      MessagesAreVisible(responseId, groups[..n]);
      PartsTextOfItem(responseId, n, groups[n].kind, Concat(groups[n].deltas));
    }
  }

  lemma PartsTextOfItem(responseId: string, index: nat, kind: Kind, text: string)
    ensures ItemText(TextItem(responseId, index, kind, text, [])) == if kind == Message then text else ""
  {
    hide GeneratedId;
    var part := PartFor(kind, text, []);
    assert [part][..0] == [] && PartsText([]) == "";
    assert "" + text == text;
  }

  // ----- Whole streams -----

  lemma {:induction false} FeedAllSays(start: Parser, deltas: seq<string>)
    ensures AllSay(Feed(THINK_TAGS, start, deltas).0)
  {
    if deltas == [] {
    } else {
      hide Drain, Compress;
      var n := |deltas| - 1;
      FeedAllSays(start, deltas[..n]);
      var (segments, p) := Feed(THINK_TAGS, start, deltas[..n]);
      var labels := Drain(THINK_TAGS, Parser(p.buffer + deltas[n], p.inThink)).0;
      CompressIsNormal(labels);
      assert AllSay(segments + Compress(labels));
    }
  }

  lemma SegmentsSay(choices: seq<Choice>)
    ensures AllSay(AllSegments(choices))
  {
    hide Feed, VisibleDeltas;
    FeedAllSays(Parser("", false), VisibleDeltas(choices));
    var (segments, p) := Feed(THINK_TAGS, Parser("", false), VisibleDeltas(choices));
    assert AllSay(segments + FlushOf(p));
  }

  /** The output text of a finished stream is the text of its message deltas. */
  lemma {:induction false} OutputTextIsVisible(id: string, groups: seq<Group>, order: seq<int>,
                                               deltas: seq<ToolDelta>)
    ensures OutputTextOf(GroupItems(id, groups) + StreamCallItems(id, |groups|, order, deltas)) ==
            MessageText(groups)
  {
    hide OutputTextOf, GroupItems, StreamCallItems, MessageText;
    OutputTextAppend(GroupItems(id, groups), StreamCallItems(id, |groups|, order, deltas));
    MessagesAreVisible(id, groups);
    CallsAreSilent(id, |groups|, order, deltas);
  }

  lemma {:induction false} EndingAccepted(m: Monitor, response: Response)
    requires m.stage == Idle && response.id == m.responseId && response.output == m.items
    requires response.status != InProgress && response.outputText == NonEmpty(m.visible)
    ensures Run(m, [Completed(response), DoneMark]) == Some(m.(stage := Ended))
  {
    assert [Completed(response), DoneMark] == [Completed(response)] + [DoneMark];
    RunCons(m, Completed(response), [DoneMark]);
    RunSingle(m.(stage := Finished), DoneMark);
  }

  /** The trace of every stream is one complete lifecycle: creation, text items of alternating kinds,
      function calls, completion, end mark; with consecutive indices, one item open at a time, done
      texts equal to the concatenated deltas, and a final response listing exactly those items. */
  lemma {:induction false} FinalTraceIsAccepted(chunks: seq<Chunk>, uuid: string)
    ensures
      var response := FinalResponse(chunks, uuid);
      Run(START, FinalTrace(chunks, uuid)) ==
      Some(Monitor(Ended, response.id, response.output, OrElse(response.outputText, "")))
    ensures Accepts(FinalTrace(chunks, uuid))
  {
    var id, choices := ResponseId(chunks, uuid), AllChoices(chunks);
    var groups, deltas := Groups(AllSegments(choices)), AllToolDeltas(choices);
    var order, n := ToolOrder(deltas), |groups|;
    var created, response := CreatedEvent(chunks, uuid), FinalResponse(chunks, uuid);
    SegmentsSay(choices);
    GroupsAlternate(AllSegments(choices));
    OutputTextIsVisible(id, groups, order, deltas);
    hide TextEvents, CallEvents, StreamCallItems, GroupItems, MessageText, AllSegments, Groups, ToolOrder, AllChoices,
      AllToolDeltas, OutputTextOf, ResponseId, FirstModel, LastCreated, Alternates, Run, LastFinish, TokenUsageOf;
    var middle := TextEvents(id, 0, groups, true) + CallEvents(n, StreamCallItems(id, n, order, deltas));
    RunSingle(START, created);
    MiddleAccepted(Monitor(Idle, id, [], ""), groups, order, deltas);
    EndingAccepted(Monitor(Idle, id, response.output, MessageText(groups)), response);
    RunAppend(START, [created], middle);
    RunAppend(START, [created] + middle, [Completed(response), DoneMark]);
    Associative([created], TextEvents(id, 0, groups, true), CallEvents(n, StreamCallItems(id, n, order, deltas)));
  }

  /** The text items and the calls between the first and the last events. */
  lemma {:induction false} MiddleAccepted(m: Monitor, groups: seq<Group>, order: seq<int>, deltas: seq<ToolDelta>)
    requires m.stage == Idle && m.items == [] && m.visible == "" && Alternates(groups)
    ensures
      var n := |groups|;
      var calls := StreamCallItems(m.responseId, n, order, deltas);
      Run(m, TextEvents(m.responseId, 0, groups, true) + CallEvents(n, calls)) ==
      Some(m.(items := GroupItems(m.responseId, groups) + calls, visible := MessageText(groups)))
  {
    hide TextEvents, CallEvents, StreamCallItems, GroupItems, MessageText, Alternates, Run, Step;
    var n := |groups|;
    GroupsAccepted(m, groups);
    CallsAccepted(m.(items := GroupItems(m.responseId, groups), visible := MessageText(groups)), order, deltas, n);
    RunAppend(m, TextEvents(m.responseId, 0, groups, true),
              CallEvents(n, StreamCallItems(m.responseId, n, order, deltas)));
  }

  // ----- Chunks after the end mark -----

  lemma {:induction false} NothingAfterTheEnd(m: Monitor, events: seq<Event>)
    requires m.stage == Ended && events != []
    ensures Run(m, events).None?
  {
    hide GeneratedId, TextItem, OpenItem, ItemIdFor, PartFor, MayFollow;
    var front, last := events[..|events| - 1], events[|events| - 1];
    if front == [] {
      assert Step(m, last).None?;
    } else {
      hide Step;
      NothingAfterTheEnd(m, front);
    }
  }

  lemma {:induction false} GroupsOfSomething(segments: seq<Segment>)
    ensures Groups(segments) == [] <==> segments == []
  {
    if segments != [] {
      GroupsOfSomething(segments[..|segments| - 1]);
    }
  }

  lemma {:induction false} NoLabelsNoSegments(segments: seq<Segment>)
    requires AllSay(segments)
    ensures Labels(segments) == [] <==> segments == []
  {
    if segments != [] {
      NoLabelsNoSegments(segments[..|segments| - 1]);
    }
  }

  /** The late text, from the given side of the tags, is nothing but tags, the last perhaps cut short. */
  predicate Silent(inThink: bool, late: seq<Chunk>) {
    TagsOnly(THINK_TAGS, Concat(VisibleDeltas(AllChoices(late))), inThink)
  }

  /** The last complete tag of the stream's text is an opening one. */
  ghost predicate LeftInThink(sealed: seq<Chunk>) {
    Residue(THINK_TAGS, Concat(VisibleDeltas(AllChoices(sealed))), false).1
  }

  lemma {:induction false} LeftInThinkIs(sealed: seq<Chunk>)
    ensures LeftInThink(sealed) == Feed(THINK_TAGS, Parser("", false), VisibleDeltas(AllChoices(sealed))).1.inThink
  {
    hide Drain, Feed, Residue, VisibleDeltas, AllChoices, Labels, IsLongestHeld;
    var deltas := VisibleDeltas(AllChoices(sealed));
    DrainOfNothing(THINK_TAGS, false);
    FeedIsDrain(THINK_TAGS, Parser("", false), deltas);
    assert "" + Concat(deltas) == Concat(deltas);
    BufferIsLongestHeld(THINK_TAGS, Concat(deltas), false);
  }

  lemma {:induction false} SilentMeansNoSegments(sealed: seq<Chunk>, late: seq<Chunk>)
    ensures Silent(LeftInThink(sealed), late) <==> LateSegments(sealed, late) == []
  {
    hide Drain, Feed, VisibleDeltas, AllChoices, Labels, LeftInThink, TagsOnly;
    LeftInThinkIs(sealed);
    SilentExactlyWhenTagsOnly(THINK_TAGS, Concat(VisibleDeltas(AllChoices(late))), LeftInThink(sealed));
    var start := Parser("", LeftInThink(sealed));
    var deltas := VisibleDeltas(AllChoices(late));
    DrainOfNothing(THINK_TAGS, LeftInThink(sealed));
    FeedIsDrain(THINK_TAGS, start, deltas);
    assert "" + Concat(deltas) == Concat(deltas);
    FeedAllSays(start, deltas);
    NoLabelsNoSegments(Feed(THINK_TAGS, start, deltas).0);
  }

  /** A run stays one complete lifecycle exactly when the text of whatever arrives after `[DONE]` is tags
      only: such chunks are still processed, and any other text opens a new item. */
  lemma LateTextBreaksTheLifecycle(sealed: seq<Chunk>, late: seq<Chunk>, uuid: string)
    ensures Accepts(Trace(sealed, late, uuid)) <==> Silent(LeftInThink(sealed), late)
  {
    hide Silent, LeftInThink, Run, FinalTrace, LateSegments, AllSegments, AllChoices, Groups, FinalResponse,
      ResponseId, GroupEvents;
    var segments := LateSegments(sealed, late);
    var id, base := ResponseId(sealed, uuid), |Groups(AllSegments(AllChoices(sealed)))|;
    var extra := TextEvents(id, base, Groups(segments), false);
    SilentMeansNoSegments(sealed, late);
    GroupsOfSomething(segments);
    FinalTraceIsAccepted(sealed, uuid);
    RunAppend(START, FinalTrace(sealed, uuid), extra);
    if segments == [] {
      assert FinalTrace(sealed, uuid) + extra == FinalTrace(sealed, uuid);
    } else {
      TextEventsSpeak(id, base, Groups(segments));
      NothingAfterTheEnd(Run(START, FinalTrace(sealed, uuid)).value, extra);
    }
  }

  lemma TextEventsSpeak(responseId: string, base: nat, groups: seq<Group>)
    requires groups != []
    ensures TextEvents(responseId, base, groups, false) != []
  {
  }

  // ----- The status -----

  /** No choice behind choice `i` has a finish reason. */
  predicate HasLastFinish(choices: seq<Choice>, i: nat) {
    && i < |choices| && choices[i].finishReason.Some?
    && forall j :: i < j < |choices| ==> choices[j].finishReason.None?
  }

  lemma {:induction false} LastFinishIs(choices: seq<Choice>) returns (i: Option<nat>)
    ensures i.Some? ==> HasLastFinish(choices, i.value) && LastFinish(choices) == choices[i.value].finishReason
    ensures i.None? ==> LastFinish(choices) == None && forall j :: 0 <= j < |choices| ==> choices[j].finishReason.None?
  {
    i := None;
    if choices != [] {
      var n := |choices| - 1;
      if choices[n].finishReason.Some? {
        i := Some(n);
      } else {
        var front := choices[..n];
        i := LastFinishIs(front);
        assert forall j :: 0 <= j < n ==> front[j] == choices[j];
      }
    }
  }

  lemma ResponseStatusIs(chunks: seq<Chunk>, uuid: string)
    ensures
      var response, finish := FinalResponse(chunks, uuid), LastFinish(AllChoices(chunks));
      response.status == StatusOf(finish) && response.incomplete == IncompleteOf(finish)
  {
    hide AllSegments, AllChoices, Groups, GroupItems, StreamCallItems, ToolOrder, AllToolDeltas, ResponseId,
      LastFinish, OutputTextOf, FirstModel, LastCreated, LastUsage, TokenUsageOf, StatusOf, IncompleteOf;
  }

  lemma {:induction false} CutOffIsLast(choices: seq<Choice>)
    ensures
      var finish := LastFinish(choices);
      finish.Some? && IsCutOff(finish.value) <==>
      exists i: nat :: HasLastFinish(choices, i) && IsCutOff(choices[i].finishReason.value)
  {
    var i := LastFinishIs(choices);
    hide IsCutOff, LastFinish;
    if i.Some? {
      hide HasLastFinish;
      forall j: nat | HasLastFinish(choices, j)
        ensures j == i.value
      {
        OnlyOneLastFinish(choices, j, i.value);
      }
    }
  }

  lemma {:induction false} ReasonIsLast(choices: seq<Choice>, reason: FinishReason)
    ensures LastFinish(choices) == Some(reason) <==>
            exists i: nat :: HasLastFinish(choices, i) && choices[i].finishReason.value == reason
  {
    var i := LastFinishIs(choices);
    hide LastFinish;
    if i.Some? {
      hide HasLastFinish;
      forall j: nat | HasLastFinish(choices, j)
        ensures j == i.value
      {
        OnlyOneLastFinish(choices, j, i.value);
      }
    }
  }

  /** The last finish reason of a stream decides: its response is incomplete, and says why, exactly when
      that reason is a cut-off, whatever came before. */
  lemma IncompleteExactlyWhenCutOff(chunks: seq<Chunk>, uuid: string)
    ensures
      var response, choices := FinalResponse(chunks, uuid), AllChoices(chunks);
      && (response.status == Incomplete <==>
            exists i: nat :: HasLastFinish(choices, i) && IsCutOff(choices[i].finishReason.value))
      && (response.incomplete.Some? <==> response.status == Incomplete)
      && (response.incomplete == Some(MaxOutputTokens) <==>
            exists i: nat :: HasLastFinish(choices, i) && choices[i].finishReason.value == Reason("length"))
      && (response.incomplete == Some(ContentFilter) <==>
            exists i: nat :: HasLastFinish(choices, i) && choices[i].finishReason.value == Reason("content_filter"))
  {
    ReasonIsLast(AllChoices(chunks), Reason("length"));
    ReasonIsLast(AllChoices(chunks), Reason("content_filter"));
    hide FinalResponse, AllChoices, LastFinish, HasLastFinish, IsCutOff, StatusOf, IncompleteOf;
    ResponseStatusIs(chunks, uuid);
    CutOffIs(LastFinish(AllChoices(chunks)));
    CutOffIsLast(AllChoices(chunks));
  }

  lemma CutOffIs(finish: Option<FinishReason>)
    ensures StatusOf(finish) == Incomplete <==> finish.Some? && IsCutOff(finish.value)
    ensures IncompleteOf(finish).Some? <==> StatusOf(finish) == Incomplete
    ensures IncompleteOf(finish) == Some(MaxOutputTokens) <==> finish == Some(Reason("length"))
    ensures IncompleteOf(finish) == Some(ContentFilter) <==> finish == Some(Reason("content_filter"))
    ensures StatusOf(finish) == Complete || StatusOf(finish) == Incomplete
  {
  }

  lemma OnlyOneLastFinish(choices: seq<Choice>, i: nat, j: nat)
    requires HasLastFinish(choices, i) && HasLastFinish(choices, j)
    ensures i == j
  {
  }

  // ----- What the final response says -----

  /** No chunk behind chunk `i` carries usage. */
  predicate HasLastUsage(chunks: seq<Chunk>, i: nat) {
    && i < |chunks| && chunks[i].usage.Some?
    && forall j :: i < j < |chunks| ==> chunks[j].usage.None?
  }

  lemma {:induction false} LastUsageIs(chunks: seq<Chunk>)
    ensures forall i: nat :: HasLastUsage(chunks, i) ==> LastUsage(chunks) == chunks[i].usage
    ensures (forall i :: 0 <= i < |chunks| ==> chunks[i].usage.None?) ==> LastUsage(chunks) == None
  {
    if chunks != [] {
      var n := |chunks| - 1;
      var front := chunks[..n];
      LastUsageIs(front);
      assert forall i :: 0 <= i < n ==> front[i] == chunks[i];
      forall i: nat | HasLastUsage(chunks, i)
        ensures LastUsage(chunks) == chunks[i].usage
      {
        if i < n {
          assert chunks[n].usage.None? && HasLastUsage(front, i);
        }
      }
    }
  }

  /** The usage of a stream's response is that of the last chunk with any. */
  lemma StreamUsage(chunks: seq<Chunk>, uuid: string, i: nat)
    ensures HasLastUsage(chunks, i) ==> ReportsUsage(FinalResponse(chunks, uuid).usage, chunks[i].usage)
    ensures (forall k :: 0 <= k < |chunks| ==> chunks[k].usage.None?) ==> FinalResponse(chunks, uuid).usage == None
  {
    hide AllSegments, AllChoices, Groups, GroupItems, StreamCallItems, ToolOrder, AllToolDeltas, ResponseId,
      LastFinish, OutputTextOf, FirstModel, LastCreated, LastUsage, StatusOf, IncompleteOf, TokenUsageOf;
    LastUsageIs(chunks);
    UsageIsReported(LastUsage(chunks));
  }

  /** The model is the first one named, the time stamp the last one given. */
  lemma {:induction false} MetadataIs(chunks: seq<Chunk>, i: nat)
    requires i < |chunks|
    ensures OrElse(chunks[i].model, "") != "" && (forall j :: 0 <= j < i ==> OrElse(chunks[j].model, "") == "") ==>
              FirstModel(chunks) == chunks[i].model.value
    ensures (forall j :: 0 <= j < |chunks| ==> OrElse(chunks[j].model, "") == "") ==> FirstModel(chunks) == ""
    ensures chunks[i].created.Some? && (forall j :: i < j < |chunks| ==> chunks[j].created.None?) ==>
              LastCreated(chunks) == chunks[i].created.value
  {
    var n := |chunks| - 1;
    var front := chunks[..n];
    assert forall j :: 0 <= j < n ==> front[j] == chunks[j];
    if n > 0 {
      MetadataIs(front, if i < n then i else 0);
      NoModel(front);
    } else {
      assert front == [];
    }
  }

  lemma {:induction false} NoModel(chunks: seq<Chunk>)
    ensures (forall j :: 0 <= j < |chunks| ==> OrElse(chunks[j].model, "") == "") ==> FirstModel(chunks) == ""
  {
    if chunks != [] {
      var front := chunks[..|chunks| - 1];
      NoModel(front);
      assert forall j :: 0 <= j < |front| ==> front[j] == chunks[j];
    }
  }

  // ----- Whole streams, written out -----

  /** A text item of either kind from its announcement to its end. */
  lemma TextItemEvents(responseId: string, index: nat, text: string)
    ensures
      var id := GeneratedId("msg", responseId, index);
      GroupEvents(responseId, index, Group(Message, [text]), true) ==
      [ItemAdded(index, MessageItem(id, InProgress, [])), PartAdded(id, index, OutputText("", [])),
       Delta(Message, id, index, text), TextDone(Message, id, index, text),
       PartDone(id, index, OutputText(text, [])), ItemDone(index, MessageItem(id, Complete, [OutputText(text, [])]))]
    ensures
      var id := GeneratedId("rs", responseId, index);
      GroupEvents(responseId, index, Group(Reasoning, [text]), true) ==
      [ItemAdded(index, ReasoningItem(id, [])), PartAdded(id, index, ReasoningText("")),
       Delta(Reasoning, id, index, text), TextDone(Reasoning, id, index, text),
       PartDone(id, index, ReasoningText(text)), ItemDone(index, ReasoningItem(id, [ReasoningText(text)]))]
  {
    hide GeneratedId;
    assert [text][..0] == [] && Concat([]) == "" && "" + text == text;
    assert DeltaEvents(responseId, index, Message, []) == [] && DeltaEvents(responseId, index, Reasoning, []) == [];
  }

  lemma JoinedFragments(x: ToolDelta, y: ToolDelta)
    ensures NamesOf([x, y]) == OrElse(x.name, "") + OrElse(y.name, "")
    ensures ArgumentsOf([x, y]) == OrElse(x.arguments, "") + OrElse(y.arguments, "")
    ensures LastId([x, y]) == if y.id.Some? then y.id else x.id
  {
    assert [x, y][..1] == [x] && [x][..0] == [];
    assert NamesOf([x]) == OrElse(x.name, "") && ArgumentsOf([x]) == OrElse(x.arguments, "") && LastId([x]) == x.id;
  }

  lemma FragmentsOfTwo(x: ToolDelta, y: ToolDelta, i: int)
    requires x.index == y.index == Some(i)
    ensures ToolOrder([x, y]) == [i] && Fragments([x, y], i) == [x, y]
  {
    assert [x, y][..1] == [x] && [x][..0] == [] && [i, i][..1] == [i] && [i][..0] == [];
    assert ToolIndices([x]) == [i] && ToolIndices([x, y]) == [i, i] && FirstSeen([i]) == [i];
    assert Fragments([x], i) == [x];
  }

  /** A function call that arrives in two fragments. */
  lemma TwoFragmentsMakeACall(responseId: string, start: nat, id: string, name: string, name': string,
                              arguments: string, arguments': string)
    requires id != ""
    ensures
      var deltas := [ToolDelta(Some(7), Some(id), Some(name), Some(arguments)),
                     ToolDelta(Some(7), None, Some(name'), Some(arguments'))];
      var call := FunctionCall(GeneratedId("fc", responseId, start), id, name + name', arguments + arguments');
      && StreamCallItems(responseId, start, ToolOrder(deltas), deltas) == [call]
      && CallEvents(start, [call]) == [ItemAdded(start, call), ItemDone(start, call)]
  {
    var x := ToolDelta(Some(7), Some(id), Some(name), Some(arguments));
    var y := ToolDelta(Some(7), None, Some(name'), Some(arguments'));
    var call := FunctionCall(GeneratedId("fc", responseId, start), id, name + name', arguments + arguments');
    JoinedFragments(x, y);
    FragmentsOfTwo(x, y, 7);
    hide GeneratedId, Fragments, NamesOf, ArgumentsOf, LastId, ToolOrder;
    assert [7][..0] == [] && [call][..0] == [] && StreamCallItems(responseId, start, [], [x, y]) == [];
    assert CallEvents(start, []) == [];
  }

  /** A stream without any chunk. */
  lemma EmptyStreamTrace(uuid: string)
    requires uuid != "" && !("resp_" <= uuid)
    ensures
      FinalTrace([], uuid) ==
      [Created(Response("resp_" + uuid, 0.0, InProgress, None, "", [], None, None)),
       Completed(Response("resp_" + uuid, 0.0, Complete, None, "", [], None, None)), DoneMark]
  {
    assert AllSegments([]) == [] by {
      DrainOfNothing(THINK_TAGS, false);
    }
  }

  lemma OneTextChunk(choice: Choice, text: string)
    requires choice.content == Some(text) && text != "" && '<' !in text
    ensures Groups(AllSegments([choice])) == [Group(Message, [text])]
  {
    assert [choice][..0] == [] && [text][..0] == [];
    assert VisibleDeltas([choice]) == [text];
    hide Drain, Compress, Paint, Split;
    TaglessText(text);
    FeedOne(text);
    OneGroup(text);
  }

  lemma FeedOne(text: string)
    requires '<' !in text && text != ""
    ensures Feed(THINK_TAGS, Parser("", false), [text]) == ([Segment(Message, text)], Parser("", false))
  {
    assert [text][..0] == [] && "" + text == text;
    TaglessText(text);
    hide Drain, Paint, Compress;
    assert Feed(THINK_TAGS, Parser("", false), []) == ([], Parser("", false));
    TaglessPaint(text);
    assert [] + [Segment(Message, text)] == [Segment(Message, text)];
  }

  lemma TaglessPaint(text: string)
    requires text != ""
    ensures Compress(Paint(Message, text)) == [Segment(Message, text)]
  {
    CompressPaint([], Message, text);
    NothingCompressed();
    hide Paint, Compress;
    assert [] + Paint(Message, text) == Paint(Message, text);
  }

  lemma OneGroup(text: string)
    ensures Groups([Segment(Message, text)]) == [Group(Message, [text])]
  {
    var groups := [Group(Message, [])];
    assert [Segment(Message, text)][..0] == [] && [] + groups == groups;
    assert StartGroup([], Message) == groups && groups[..0] == [] && [] + [text] == [text];
    assert ExtendLast(groups, text) == [Group(Message, [text])];
    assert Groups([]) == [];
  }

  lemma OneChunk(chunk: Chunk, choice: Choice, uuid: string)
    requires chunk.choices == [choice] && choice.toolCalls == []
    ensures AllChoices([chunk]) == [choice] && AllToolDeltas([choice]) == []
    ensures LastFinish([choice]) == choice.finishReason && LastUsage([chunk]) == chunk.usage
    ensures LastCreated([chunk]) == OrElse(chunk.created, 0.0) && FirstModel([chunk]) == OrElse(chunk.model, "")
    ensures CreatedEvent([chunk], uuid) ==
            Created(Response(ResponseId([chunk], uuid), OrElse(chunk.created, 0.0), InProgress, None,
                             OrElse(chunk.model, ""), [], None, None))
  {
    hide ResponseId;
    assert [chunk][..0] == [] && [choice][..0] == [] && [chunk][..1] == [chunk];
  }

  /** The chunk, its text cut off by length. */
  function PlainChunk(name: string, model: string, created: real, text: string): Chunk {
    Chunk(Some(name), Some(model), Some(created), None,
          [Choice(Some(Reason("length")), Some(text), None, [], None, [])])
  }

  lemma NamedResponse(name: string, model: string, created: real, text: string, uuid: string)
    requires name != "" && !("resp_" <= name)
    ensures ResponseId([PlainChunk(name, model, created, text)], uuid) == "resp_" + name
  {
  }

  lemma ResponseOf(chunks: seq<Chunk>, uuid: string, groups: seq<Group>, message: Item)
    requires Groups(AllSegments(AllChoices(chunks))) == groups && AllToolDeltas(AllChoices(chunks)) == []
    requires |groups| == 1 && GroupItems(ResponseId(chunks, uuid), groups) == [message]
    ensures
      var finish := LastFinish(AllChoices(chunks));
      FinalResponse(chunks, uuid) ==
      Response(ResponseId(chunks, uuid), LastCreated(chunks), StatusOf(finish), IncompleteOf(finish),
               FirstModel(chunks), [message], TokenUsageOf(LastUsage(chunks)), NonEmpty(OutputTextOf([message])))
  {
    hide AllSegments, Groups, AllChoices, AllToolDeltas, LastFinish, FirstModel, LastCreated, LastUsage, ResponseId,
      GroupItems, OutputTextOf, StatusOf, IncompleteOf, NonEmpty, TokenUsageOf, StreamCallItems, ToolOrder;
    NoCallEvents(ResponseId(chunks, uuid));
    assert [message] + [] == [message];
  }

  lemma PlainResponse(name: string, model: string, created: real, text: string, uuid: string)
    requires text != "" && '<' !in text
    ensures
      var chunks := [PlainChunk(name, model, created, text)];
      var id := ResponseId(chunks, uuid);
      var message := MessageItem(GeneratedId("msg", id, 0), Complete, [OutputText(text, [])]);
      FinalResponse(chunks, uuid) ==
      Response(id, created, Incomplete, Some(MaxOutputTokens), model, [message], None, Some(text))
  {
    var chunk := PlainChunk(name, model, created, text);
    var choice := chunk.choices[0];
    var id := ResponseId([chunk], uuid);
    var message := MessageItem(GeneratedId("msg", id, 0), Complete, [OutputText(text, [])]);
    CutOffIs(choice.finishReason);
    assert TokenUsageOf(None) == None && NonEmpty(text) == Some(text);
    hide AllSegments, Groups, AllChoices, AllToolDeltas, GeneratedId, LastFinish, FirstModel, LastCreated, LastUsage,
      ResponseId, GroupItems, OutputTextOf, StatusOf, IncompleteOf, CreatedEvent, NonEmpty, TokenUsageOf, FinalResponse;
    OneChunk(chunk, choice, uuid);
    OneTextChunk(choice, text);
    OneItem(id, text);
    ResponseOf([chunk], uuid, [Group(Message, [text])], message);
  }

  /** A stream of one chunk of plain text, event by event. */
  lemma PlainStreamTrace(name: string, model: string, created: real, text: string, uuid: string)
    requires text != "" && '<' !in text
    ensures
      var chunks := [PlainChunk(name, model, created, text)];
      var id := ResponseId(chunks, uuid);
      var item := GeneratedId("msg", id, 0);
      var message := MessageItem(item, Complete, [OutputText(text, [])]);
      FinalTrace(chunks, uuid) ==
      [Created(Response(id, created, InProgress, None, model, [], None, None))]
      + [ItemAdded(0, MessageItem(item, InProgress, [])), PartAdded(item, 0, OutputText("", [])),
         Delta(Message, item, 0, text), TextDone(Message, item, 0, text), PartDone(item, 0, OutputText(text, [])),
         ItemDone(0, message)]
      + [Completed(Response(id, created, Incomplete, Some(MaxOutputTokens), model, [message], None, Some(text))),
         DoneMark]
  {
    var chunk := PlainChunk(name, model, created, text);
    var choice := chunk.choices[0];
    var id := ResponseId([chunk], uuid);
    PlainResponse(name, model, created, text, uuid);
    OneChunk(chunk, choice, uuid);
    OneTextChunk(choice, text);
    OneItem(id, text);
    NoCallEvents(id);
    hide AllSegments, Groups, AllChoices, AllToolDeltas, GeneratedId, ResponseId, TextEvents, GroupEvents, CreatedEvent,
      StreamCallItems, ToolOrder, CallEvents, FinalResponse, PlainChunk;
    NothingBetween([CreatedEvent([chunk], uuid)], GroupEvents(id, 0, Group(Message, [text]), true),
                   [Completed(FinalResponse([chunk], uuid)), DoneMark]);
  }

  lemma NothingBetween<T>(a: seq<T>, b: seq<T>, c: seq<T>)
    ensures a + b + [] + c == a + b + c
  {
  }

  lemma NoCallEvents(responseId: string)
    ensures StreamCallItems(responseId, 1, ToolOrder([]), []) == [] && CallEvents(1, []) == []
  {
  }

  lemma OneItem(responseId: string, text: string)
    ensures
      var message := MessageItem(GeneratedId("msg", responseId, 0), Complete, [OutputText(text, [])]);
      && GroupItems(responseId, [Group(Message, [text])]) == [message] && OutputTextOf([message]) == text
    ensures TextEvents(responseId, 0, [Group(Message, [text])], true) ==
            GroupEvents(responseId, 0, Group(Message, [text]), true)
    ensures
      var id := GeneratedId("msg", responseId, 0);
      GroupEvents(responseId, 0, Group(Message, [text]), true) ==
      [ItemAdded(0, MessageItem(id, InProgress, [])), PartAdded(id, 0, OutputText("", [])),
       Delta(Message, id, 0, text), TextDone(Message, id, 0, text),
       PartDone(id, 0, OutputText(text, [])), ItemDone(0, MessageItem(id, Complete, [OutputText(text, [])]))]
  {
    TextItemEvents(responseId, 0, text);
    hide GeneratedId, GroupEvents;
    var group := Group(Message, [text]);
    assert [group][..0] == [] && [text][..0] == [] && Concat([]) == "" && "" + text == text;
    assert Concat([text]) == text;
    var part := OutputText(text, []);
    var message := MessageItem(GeneratedId("msg", responseId, 0), Complete, [part]);
    assert [part][..0] == [] && [message][..0] == [] && PartsText([]) == "" && OutputTextOf([]) == "";
    assert PartsText([part]) == text;
    assert TextEvents(responseId, 0, [], true) == [] && GroupItems(responseId, []) == [];
  }

  // ----- Text behind the end -----

  /** The chunk that carries nothing but a piece of content. */
  function TextChunk(text: string): Chunk {
    Chunk(None, None, None, None, [Choice(None, Some(text), None, [], None, [])])
  }

  lemma TextOfChunk(text: string)
    requires text != ""
    ensures Concat(VisibleDeltas(AllChoices([TextChunk(text)]))) == text
  {
    var late := [TextChunk(text)];
    var choices := late[0].choices;
    assert late[..0] == [] && choices[..0] == [] && [text][..0] == [];
    assert AllChoices(late) == choices && VisibleDeltas(choices) == [text];
  }

  /** A single chunk of plain text behind `[DONE]` is enough. */
  lemma LateChunkBreaksTheLifecycle(text: string, uuid: string)
    requires text != "" && '<' !in text
    ensures !Accepts(Trace([], [TextChunk(text)], uuid))
  {
    hide Accepts, Trace, LeftInThink, TagsOnly, VisibleDeltas, AllChoices, TextChunk;
    LateTextBreaksTheLifecycle([], [TextChunk(text)], uuid);
    TextOfChunk(text);
    TaglessIsMoreThanTags(text, LeftInThink([]));
  }

  // ----- Identifiers -----

  lemma {:induction false} GroupItemId(responseId: string, groups: seq<Group>, i: nat)
    requires i < |groups|
    ensures
      var item := GroupItems(responseId, groups)[i];
      !item.FunctionCall? && item.id == GeneratedId(PrefixFor(groups[i].kind), responseId, i)
  {
    hide GeneratedId;
    if i < |groups| - 1 {
      GroupItemId(responseId, groups[..|groups| - 1], i);
    }
  }

  lemma {:induction false} CallItemId(responseId: string, start: nat, order: seq<int>, deltas: seq<ToolDelta>, i: nat)
    requires i < |order|
    ensures StreamCallItems(responseId, start, order, deltas)[i].id == GeneratedId("fc", responseId, start + i)
  {
    hide GeneratedId, CallOf;
    if i < |order| - 1 {
      CallItemId(responseId, start, order[..|order| - 1], deltas, i);
    }
  }

  lemma PrefixShows(kind: Kind, responseId: string, i: int)
    ensures GeneratedId(PrefixFor(kind), responseId, i)[0] == if kind == Message then 'm' else 'r'
    ensures GeneratedId("fc", responseId, i)[0] == 'f'
  {
    hide SanitizeId, Decimal;
  }

  /** No two items of a finished stream share an identifier. */
  lemma {:induction false} ItemIdsAreDistinct(chunks: seq<Chunk>, uuid: string)
    ensures
      var output := FinalResponse(chunks, uuid).output;
      forall i: nat, j: nat :: i < j < |output| ==> output[i].id != output[j].id
  {
    hide FinalResponse;
    var output := FinalResponse(chunks, uuid).output;
    forall i: nat, j: nat | i < j < |output|
      ensures output[i].id != output[j].id
    {
      TwoIdsDiffer(chunks, uuid, i, j);
    }
  }

  lemma {:induction false} TwoIdsDiffer(chunks: seq<Chunk>, uuid: string, i: nat, j: nat)
    requires i < j < |FinalResponse(chunks, uuid).output|
    ensures FinalResponse(chunks, uuid).output[i].id != FinalResponse(chunks, uuid).output[j].id
  {
    var id, choices := ResponseId(chunks, uuid), AllChoices(chunks);
    var groups, deltas := Groups(AllSegments(choices)), AllToolDeltas(choices);
    var order, n := ToolOrder(deltas), |groups|;
    hide GroupItems, StreamCallItems, ResponseId, AllChoices, Groups, AllSegments, AllToolDeltas, ToolOrder,
      GeneratedId,
      LastFinish, OutputTextOf, FirstModel, LastCreated, LastUsage;
    if i < n {
      GroupItemId(id, groups, i);
      PrefixShows(groups[i].kind, id, i);
    } else {
      CallItemId(id, n, order, deltas, i - n);
    }
    if j < n {
      GroupItemId(id, groups, j);
      PrefixShows(groups[j].kind, id, j);
      GeneratedIdInjective(PrefixFor(groups[i].kind), id, i, j);
    } else {
      CallItemId(id, n, order, deltas, j - n);
      PrefixShows(Message, id, j);
      GeneratedIdInjective("fc", id, i, j);
    }
  }
}
