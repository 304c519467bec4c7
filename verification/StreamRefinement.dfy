/** The streaming converter against the one-shot converter: what a stream completes with, and what
    the one-shot conversion makes of the message those chunks assemble into. */
module StreamRefinement {
  import opened Strings
  import opened ThinkTag
  import opened Payloads
  import opened OneShot
  import opened StreamTrace
  import Lifecycle = StreamLifecycle

  // ----- The message the chunks assemble into -----

  function ContentText(choices: seq<Choice>): string {
    if choices == [] then ""
    else ContentText(choices[..|choices| - 1]) + OrElse(choices[|choices| - 1].content, "")
  }

  function ReasoningContent(choices: seq<Choice>): string {
    if choices == [] then ""
    else ReasoningContent(choices[..|choices| - 1]) + OrElse(choices[|choices| - 1].reasoningContent, "")
  }

  /** The streamed calls in order of first appearance, their fragments joined. */
  function AssembledCalls(order: seq<int>, deltas: seq<ToolDelta>): (calls: seq<MessageCall>)
    ensures |calls| == |order|
  {
    if order == [] then []
    else
      var n := |order| - 1;
      var fragments := Fragments(deltas, order[n]);
      AssembledCalls(order[..n], deltas)
      + [MessageCall(LastId(fragments), Some(NamesOf(fragments)), ArgumentsOf(fragments))]
  }

  function FirstChoices(chunks: seq<Chunk>): seq<Choice> {
    if chunks == [] then []
    else
      var last := chunks[|chunks| - 1].choices;
      FirstChoices(chunks[..|chunks| - 1]) + if last == [] then [] else [last[0]]
  }

  function LastCreatedField(chunks: seq<Chunk>): Option<real> {
    if chunks == [] then None
    else if chunks[|chunks| - 1].created.Some? then chunks[|chunks| - 1].created
    else LastCreatedField(chunks[..|chunks| - 1])
  }

  /** The refusal the deltas spell out. */
  function RefusalText(choices: seq<Choice>): string {
    if choices == [] then ""
    else RefusalText(choices[..|choices| - 1]) + OrElse(choices[|choices| - 1].refusal, "")
  }

  function Annotations(choices: seq<Choice>): seq<string> {
    if choices == [] then []
    else Annotations(choices[..|choices| - 1]) + choices[|choices| - 1].annotations
  }

  /** The complete response the same provider would have sent without streaming: the first choice's
      deltas joined into one message. */
  function Assemble(chunks: seq<Chunk>): Completion {
    var choices := FirstChoices(chunks);
    var deltas := AllToolDeltas(choices);
    Completion(if chunks == [] then None else chunks[0].id, Some(FirstModel(chunks)), LastCreatedField(chunks),
               LastUsage(chunks), LastFinish(choices),
               ChatMessage(PlainText(ContentText(choices)), Some(ReasoningContent(choices)),
                           Some(RefusalText(choices)), Annotations(choices),
                           AssembledCalls(ToolOrder(deltas), deltas)))
  }

  predicate SingleChoice(chunks: seq<Chunk>) {
    forall k :: 0 <= k < |chunks| ==> |chunks[k].choices| <= 1
  }

  lemma {:induction false} FirstIsAll(chunks: seq<Chunk>)
    requires SingleChoice(chunks)
    ensures FirstChoices(chunks) == AllChoices(chunks)
  {
    if chunks != [] {
      FirstIsAll(chunks[..|chunks| - 1]);
    }
  }

  // ----- The text -----

  function StreamedText(choices: seq<Choice>): string {
    Concat(VisibleDeltas(choices))
  }

  lemma StreamedTextSnoc(choices: seq<Choice>)
    requires choices != []
    ensures StreamedText(choices) ==
            StreamedText(choices[..|choices| - 1]) + VisibleDelta(choices[|choices| - 1])
  {
    hide VisibleDelta;
    var front := VisibleDeltas(choices[..|choices| - 1]);
    var text := VisibleDelta(choices[|choices| - 1]);
    assert (front + [text])[..|front|] == front;
    assert front + [] == front;
  }

  /** The delta of the choice is text taken from `reasoning_content`. */
  predicate FallsBack(choice: Choice) {
    OrElse(choice.content, "") == "" && OrElse(choice.reasoningContent, "") != ""
  }

  predicate NoContent(choices: seq<Choice>) {
    forall k :: 0 <= k < |choices| ==> OrElse(choices[k].content, "") == ""
  }

  predicate NoFallback(choices: seq<Choice>) {
    forall k :: 0 <= k < |choices| ==> !FallsBack(choices[k])
  }

  lemma LastChoice(choices: seq<Choice>)
    requires choices != []
    ensures
      var front, last := choices[..|choices| - 1], choices[|choices| - 1];
      && (NoContent(choices) <==> NoContent(front) && OrElse(last.content, "") == "")
      && (NoFallback(choices) <==> NoFallback(front) && !FallsBack(last))
  {
    hide FallsBack;
    var front, last := choices[..|choices| - 1], choices[|choices| - 1];
    assert choices == front + [last];
    assert forall k :: 0 <= k < |front| ==> front[k] == choices[k];
  }

  /** The text comes from one field throughout: there is no content, or no delta falls back. */
  predicate OneTextSource(choices: seq<Choice>) {
    NoContent(choices) || NoFallback(choices)
  }

  /** How much the stream shows beyond the content. */
  function Extra(choices: seq<Choice>): nat {
    if choices == [] then 0
    else
      var last := choices[|choices| - 1];
      Extra(choices[..|choices| - 1]) + if FallsBack(last) then |last.reasoningContent.value| else 0
  }

  lemma {:induction false} ExtraIsFallback(choices: seq<Choice>)
    ensures Extra(choices) == 0 <==> NoFallback(choices)
    ensures |StreamedText(choices)| == |ContentText(choices)| + Extra(choices)
    ensures Extra(choices) == 0 ==> StreamedText(choices) == ContentText(choices)
  {
    if choices != [] {
      hide StreamedText, NoFallback, NoContent;
      StreamedTextSnoc(choices);
      LastChoice(choices);
      ExtraIsFallback(choices[..|choices| - 1]);
    }
  }

  lemma {:induction false} NoContentText(choices: seq<Choice>)
    ensures ContentText(choices) == "" <==> NoContent(choices)
    ensures ContentText(choices) == "" ==> StreamedText(choices) == ReasoningContent(choices)
  {
    if choices != [] {
      hide StreamedText, NoFallback, NoContent;
      StreamedTextSnoc(choices);
      LastChoice(choices);
      NoContentText(choices[..|choices| - 1]);
    }
  }

  /** Both paths see the same text exactly when it comes from one field throughout; with both fields in
      use the stream shows both, the one-shot conversion only the content. */
  lemma SameTextExactlyFromOneSource(choices: seq<Choice>)
    ensures StreamedText(choices) ==
            (if ContentText(choices) != "" then ContentText(choices) else ReasoningContent(choices))
            <==> OneTextSource(choices)
  {
    hide StreamedText, NoFallback, NoContent, Extra, ContentText, ReasoningContent;
    NoContentText(choices);
    ExtraIsFallback(choices);
  }

  // ----- Text items -----

  /** What the groups say, one segment each. */
  function Flat(groups: seq<Group>): seq<Segment> {
    if groups == [] then []
    else
      var n := |groups| - 1;
      Flat(groups[..n]) + [Segment(groups[n].kind, Concat(groups[n].deltas))]
  }

  lemma FlatSnoc(groups: seq<Group>, group: Group)
    ensures Flat(groups + [group]) == Flat(groups) + [Segment(group.kind, Concat(group.deltas))]
  {
    assert (groups + [group])[..|groups|] == groups;
  }

  lemma FlatExtends(groups: seq<Group>, text: string)
    requires groups != [] && text != ""
    ensures
      var n := |groups| - 1;
      Flat(ExtendLast(groups, text)) ==
      Flat(groups[..n]) + [Segment(groups[n].kind, Concat(groups[n].deltas) + text)]
  {
    hide Flat, Concat;
    var n := |groups| - 1;
    var front, last := groups[..n], groups[n];
    assert groups == front + [last];
    FlatSnoc(front, last);
    FlatSnoc(front, Group(last.kind, last.deltas + [text]));
    ConcatSnoc(last.deltas, text);
    LastOfFlat(front);
  }

  lemma FlatGrows(groups: seq<Group>, kind: Kind, text: string)
    requires text != ""
    ensures Flat(ExtendLast(StartGroup(groups, kind), text)) == Push(Flat(groups), kind, text)
  {
    hide Flat, Concat, ExtendLast;
    var more := StartGroup(groups, kind);
    var n := |more| - 1;
    LastOfFlat(groups);
    FlatExtends(more, text);
    if more == groups {
      assert groups == groups[..n] + [groups[n]];
      FlatSnoc(groups[..n], groups[n]);
    } else {
      assert more[..n] == groups;
      NothingConcat();
      assert "" + text == text;
    }
  }

  lemma NothingConcat()
    ensures Concat([]) == ""
  {
  }

  lemma LastOfFlat(groups: seq<Group>)
    ensures |Flat(groups)| == |groups|
    ensures groups != [] ==> Flat(groups)[|groups| - 1].kind == groups[|groups| - 1].kind
  {
  }

  lemma {:induction false} GroupsCoalesce(segments: seq<Segment>)
    requires Lifecycle.AllSay(segments)
    ensures Flat(Groups(segments)) == Coalesce(segments)
  {
    if segments == [] {
    } else {
      hide Flat, Push, ExtendLast, StartGroup;
      var n := |segments| - 1;
      GroupsCoalesce(segments[..n]);
      FlatGrows(Groups(segments[..n]), segments[n].kind, segments[n].text);
    }
  }

  lemma {:induction false} FlatItems(responseId: string, groups: seq<Group>)
    ensures GroupItems(responseId, groups) == TextItems(responseId, Flat(groups), [])
  {
    if groups != [] {
      hide TextItem, TextItems, Flat, Concat;
      var front, last := groups[..|groups| - 1], groups[|groups| - 1];
      assert groups == front + [last];
      FlatItems(responseId, front);
      LastOfFlat(front);
      FlatSnoc(front, last);
      TextItemsSnoc(responseId, Flat(front), Segment(last.kind, Concat(last.deltas)), []);
    }
  }

  /** The text items of a stream are those of its whole text, split at once. */
  lemma {:induction false} TextItemsAgree(responseId: string, choices: seq<Choice>)
    ensures GroupItems(responseId, Groups(AllSegments(choices))) ==
            TextItems(responseId, Split(THINK_TAGS, StreamedText(choices)), [])
  {
    hide Groups, GroupItems, TextItems, Flat, Coalesce, Split, Feed, VisibleDeltas;
    var segments := AllSegments(choices);
    Lifecycle.SegmentsSay(choices);
    GroupsCoalesce(segments);
    FlatItems(responseId, Groups(segments));
    ChunkingDoesNotMatter(THINK_TAGS, VisibleDeltas(choices));
  }

  // ----- Function calls -----

  /** The stream and the one-shot conversion make the same item of the call in `position`: it has a
      name, and an identifier unless its index happens to be its position. */
  predicate CallAgrees(deltas: seq<ToolDelta>, index: int, position: nat) {
    var fragments := Fragments(deltas, index);
    && NamesOf(fragments) != ""
    && (match LastId(fragments)
        case Some(id) => id != ""
        case None => index == position)
  }

  predicate CallsAgree(order: seq<int>, deltas: seq<ToolDelta>, start: nat) {
    forall k :: 0 <= k < |order| ==> CallAgrees(deltas, order[k], start + k)
  }

  lemma CallItemAgrees(responseId: string, deltas: seq<ToolDelta>, index: int, position: nat)
    ensures
      var fragments := Fragments(deltas, index);
      var call := MessageCall(LastId(fragments), Some(NamesOf(fragments)), ArgumentsOf(fragments));
      CallItem(call, responseId, position) == [StreamCallItem(responseId, position, index, CallOf(deltas, index))]
      <==> CallAgrees(deltas, index, position)
  {
    hide Fragments;
    GeneratedIdInjective("call", responseId, index, position);
    assert GeneratedId("call", responseId, index) != "";
    hide GeneratedId;
  }

  lemma CallItemsShort(calls: seq<MessageCall>, responseId: string, start: nat)
    ensures |CallItems(calls, responseId, start)| <= |calls|
  {
  }

  lemma SameLast<T>(a: seq<T>, b: seq<T>, x: T, last: seq<T>)
    requires |b| <= |a| && |last| <= 1
    ensures a + [x] == b + last <==> a == b && last == [x]
  {
    if a + [x] == b + last {
      assert |b| == |a| && |last| == 1;
      assert a == (a + [x])[..|a|] && b == (b + last)[..|a|];
      assert (a + [x])[|a|] == x && (b + last)[|a|] == last[0];
    }
  }

  lemma CallsAgreeSnoc(order: seq<int>, deltas: seq<ToolDelta>, start: nat)
    requires order != []
    ensures
      var n := |order| - 1;
      CallsAgree(order, deltas, start) <==>
      CallsAgree(order[..n], deltas, start) && CallAgrees(deltas, order[n], start + n)
  {
    hide CallAgrees;
    assert forall k :: 0 <= k < |order| - 1 ==> order[k] == order[..|order| - 1][k];
  }

  lemma {:induction false} CallItemsAgree(responseId: string, start: nat, order: seq<int>, deltas: seq<ToolDelta>)
    ensures StreamCallItems(responseId, start, order, deltas) ==
            CallItems(AssembledCalls(order, deltas), responseId, start)
            <==> CallsAgree(order, deltas, start)
  {
    hide CallOf, CallAgrees, StreamCallItem, CallItem, Fragments;
    if order == [] {
    } else {
      var n := |order| - 1;
      var front, i := order[..n], order[n];
      var fragments := Fragments(deltas, i);
      var call := MessageCall(LastId(fragments), Some(NamesOf(fragments)), ArgumentsOf(fragments));
      var earlier := AssembledCalls(front, deltas);
      assert AssembledCalls(order, deltas) == earlier + [call];
      assert (earlier + [call])[..n] == earlier;
      assert CallItems(earlier + [call], responseId, start) ==
             CallItems(earlier, responseId, start) + CallItem(call, responseId, start + n);
      hide CallItems, AssembledCalls;
      CallItemsAgree(responseId, start, front, deltas);
      CallItemAgrees(responseId, deltas, i, start + n);
      CallsAgreeSnoc(order, deltas, start);
      CallItemsShort(earlier, responseId, start);
      CallItemShort(call, responseId, start + n);
      hide CallsAgree, StreamCallItems;
      SameLast(StreamCallItems(responseId, start, front, deltas), CallItems(earlier, responseId, start),
               StreamCallItem(responseId, start + n, i, CallOf(deltas, i)), CallItem(call, responseId, start + n));
      StreamCallsSnoc(responseId, start, order, deltas);
    }
  }

  lemma CallItemShort(call: MessageCall, responseId: string, position: nat)
    ensures |CallItem(call, responseId, position)| <= 1
  {
  }

  lemma StreamCallsSnoc(responseId: string, start: nat, order: seq<int>, deltas: seq<ToolDelta>)
    requires order != []
    ensures
      var n := |order| - 1;
      StreamCallItems(responseId, start, order, deltas) ==
      StreamCallItems(responseId, start, order[..n], deltas)
      + [StreamCallItem(responseId, start + n, order[n], CallOf(deltas, order[n]))]
  {
    hide StreamCallItem, CallOf;
  }

  /** Calls that yield exactly the items `items`, one each and in order, and nothing behind them. */
  predicate Placed(items: seq<Item>, calls: seq<MessageCall>, responseId: string, start: nat) {
    && |items| <= |calls|
    && (forall k :: 0 <= k < |items| ==> CallItem(calls[k], responseId, start + k) == [items[k]])
    && (forall k :: |items| <= k < |calls| ==> CallItem(calls[k], responseId, start + k) == [])
  }

  predicate Numbered(items: seq<Item>, responseId: string, start: nat) {
    forall k :: 0 <= k < |items| ==> items[k].FunctionCall? && items[k].id == GeneratedId("fc", responseId, start + k)
  }

  lemma PlacedSnoc(items: seq<Item>, calls: seq<MessageCall>, responseId: string, start: nat)
    requires calls != []
    ensures
      var n := |calls| - 1;
      var last := CallItem(calls[n], responseId, start + n);
      Placed(items, calls, responseId, start) <==>
      if last == [] then Placed(items, calls[..n], responseId, start)
      else |items| == |calls| && last == [items[n]] && Placed(items[..n], calls[..n], responseId, start)
  {
    hide CallItem;
    var n := |calls| - 1;
    assert forall k :: 0 <= k < n ==> calls[k] == calls[..n][k];
    assert |items| == |calls| ==> forall k :: 0 <= k < n ==> items[k] == items[..n][k];
  }

  lemma LastCallItem(items: seq<Item>, call: MessageCall, responseId: string, start: nat, n: nat)
    requires Numbered(items, responseId, start) && items != []
    requires CallItem(call, responseId, start + n) == [items[|items| - 1]]
    ensures |items| == n + 1
  {
    GeneratedIdInjective("fc", responseId, start + n, start + |items| - 1);
    hide GeneratedId;
  }

  lemma NumberedFront(items: seq<Item>, responseId: string, start: nat)
    requires Numbered(items, responseId, start) && items != []
    ensures Numbered(items[..|items| - 1], responseId, start)
  {
    hide GeneratedId;
  }

  lemma NothingPlaced(items: seq<Item>, responseId: string, start: nat)
    ensures items == CallItems([], responseId, start) <==> Placed(items, [], responseId, start)
  {
  }

  /** Items numbered one after the other are those of a list of calls exactly when they are placed. */
  lemma {:induction false} NumberedCalls(items: seq<Item>, calls: seq<MessageCall>, responseId: string, start: nat)
    requires Numbered(items, responseId, start)
    ensures items == CallItems(calls, responseId, start) <==> Placed(items, calls, responseId, start)
    decreases |calls|
  {
    hide CallItem, CallItems, Placed, Numbered;
    if calls == [] {
      NothingPlaced(items, responseId, start);
    } else {
      var front, call := calls[..|calls| - 1], calls[|calls| - 1];
      var earlier, last := CallItems(front, responseId, start), CallItem(call, responseId, start + |front|);
      CallItemsSnoc(calls, responseId, start);
      PlacedSnoc(items, calls, responseId, start);
      CallItemShort(call, responseId, start + |front|);
      if last == [] {
        NumberedCalls(items, front, responseId, start);
        assert earlier + [] == earlier;
      } else if items != [] {
        var front', item := items[..|items| - 1], items[|items| - 1];
        assert items == front' + [item];
        NumberedFront(items, responseId, start);
        NumberedCalls(front', front, responseId, start);
        assert last == [last[0]];
        SameEnds(front', earlier, item, last[0]);
        if last[0] == item {
          LastCallItem(items, call, responseId, start, |front|);
        }
      }
    }
  }

  lemma CallItemsSnoc(calls: seq<MessageCall>, responseId: string, start: nat)
    requires calls != []
    ensures
      var n := |calls| - 1;
      CallItems(calls, responseId, start) ==
      CallItems(calls[..n], responseId, start) + CallItem(calls[n], responseId, start + n)
  {
    hide CallItem;
  }

  lemma SameEnds<T>(a: seq<T>, b: seq<T>, x: T, y: T)
    ensures a + [x] == b + [y] <==> a == b && x == y
  {
    if a + [x] == b + [y] {
      assert (a + [x])[|a|] == x && (b + [y])[|b|] == y;
      assert a == (a + [x])[..|a|] && b == (b + [y])[..|b|];
    }
  }

  /** The identifier a streamed call ends up with, and the one the same call of a complete message has. */
  function StreamCallId(responseId: string, fragments: seq<ToolDelta>, index: int): string {
    if OrElse(LastId(fragments), "") != "" then LastId(fragments).value else GeneratedId("call", responseId, index)
  }

  function MessageCallId(responseId: string, fragments: seq<ToolDelta>, position: nat): string {
    OrElse(LastId(fragments), GeneratedId("call", responseId, position))
  }

  /** A streamed call and a call of the assembled message that come out as the same item. */
  predicate CallMatches(responseId: string, position: nat, index: int, streamed: seq<ToolDelta>,
                        assembled: seq<ToolDelta>)
  {
    && NamesOf(assembled) != "" && NamesOf(streamed) == NamesOf(assembled)
    && ArgumentsOf(streamed) == ArgumentsOf(assembled)
    && StreamCallId(responseId, streamed, index) == MessageCallId(responseId, assembled, position)
  }

  /** The streamed calls match those of the message one by one, and what the message has beyond them is
      without a name. */
  predicate CallsMatch(responseId: string, start: nat, streamed: seq<ToolDelta>, assembled: seq<ToolDelta>) {
    var order, order' := ToolOrder(streamed), ToolOrder(assembled);
    && |order| <= |order'|
    && (forall k :: 0 <= k < |order| ==>
          CallMatches(responseId, start + k, order[k], Fragments(streamed, order[k]), Fragments(assembled, order'[k])))
    && (forall k :: |order| <= k < |order'| ==> NamesOf(Fragments(assembled, order'[k])) == "")
  }

  lemma {:induction false} StreamCallItemAt(responseId: string, start: nat, order: seq<int>, deltas: seq<ToolDelta>,
                                            k: nat)
    requires k < |order|
    ensures StreamCallItems(responseId, start, order, deltas)[k] ==
            StreamCallItem(responseId, start + k, order[k], CallOf(deltas, order[k]))
  {
    hide StreamCallItem, CallOf;
    if k < |order| - 1 {
      StreamCallItemAt(responseId, start, order[..|order| - 1], deltas, k);
    }
  }

  function CallFrom(fragments: seq<ToolDelta>): MessageCall {
    MessageCall(LastId(fragments), Some(NamesOf(fragments)), ArgumentsOf(fragments))
  }

  lemma {:induction false} AssembledCallAt(order: seq<int>, deltas: seq<ToolDelta>, k: nat)
    requires k < |order|
    ensures AssembledCalls(order, deltas)[k] == CallFrom(Fragments(deltas, order[k]))
  {
    hide Fragments, NamesOf, ArgumentsOf, LastId;
    if k < |order| - 1 {
      AssembledCallAt(order[..|order| - 1], deltas, k);
    }
  }

  lemma CallMatchesIs(responseId: string, position: nat, index: int, deltas: seq<ToolDelta>, assembled: seq<ToolDelta>)
    ensures
      CallItem(CallFrom(assembled), responseId, position) ==
      [StreamCallItem(responseId, position, index, CallOf(deltas, index))]
      <==> CallMatches(responseId, position, index, Fragments(deltas, index), assembled)
    ensures CallItem(CallFrom(assembled), responseId, position) == [] <==> NamesOf(assembled) == ""
  {
    hide Fragments, GeneratedId, NamesOf, ArgumentsOf, LastId;
  }

  lemma {:induction false} StreamCallsNumbered(responseId: string, start: nat, order: seq<int>, deltas: seq<ToolDelta>)
    ensures Numbered(StreamCallItems(responseId, start, order, deltas), responseId, start)
  {
    forall k: nat | k < |order|
      ensures
        var item := StreamCallItems(responseId, start, order, deltas)[k];
        item.FunctionCall? && item.id == GeneratedId("fc", responseId, start + k)
    {
      hide GeneratedId, CallOf, StreamCallItems;
      StreamCallItemAt(responseId, start, order, deltas, k);
    }
  }

  /** The call items of a stream are those of the assembled message exactly when the calls match. */
  lemma {:induction false} CallItemsMatch(responseId: string, start: nat, streamed: seq<ToolDelta>,
                                          assembled: seq<ToolDelta>)
    ensures
      StreamCallItems(responseId, start, ToolOrder(streamed), streamed) ==
      CallItems(AssembledCalls(ToolOrder(assembled), assembled), responseId, start)
      <==> CallsMatch(responseId, start, streamed, assembled)
  {
    hide StreamCallItems, CallItems, AssembledCalls, CallItem, CallOf, StreamCallItem, CallMatches, Fragments,
      ToolOrder, CallFrom, NamesOf, GeneratedId, Numbered;
    var order, order' := ToolOrder(streamed), ToolOrder(assembled);
    var items, calls := StreamCallItems(responseId, start, order, streamed), AssembledCalls(order', assembled);
    StreamCallsNumbered(responseId, start, order, streamed);
    NumberedCalls(items, calls, responseId, start);
    forall k: nat | k < |order| && k < |order'|
      ensures CallItem(calls[k], responseId, start + k) == [items[k]] <==>
              CallMatches(responseId, start + k, order[k], Fragments(streamed, order[k]),
                          Fragments(assembled, order'[k]))
    {
      StreamCallItemAt(responseId, start, order, streamed, k);
      AssembledCallAt(order', assembled, k);
      CallMatchesIs(responseId, start + k, order[k], streamed, Fragments(assembled, order'[k]));
    }
    forall k: nat | k < |order'|
      ensures CallItem(calls[k], responseId, start + k) == [] <==> NamesOf(Fragments(assembled, order'[k])) == ""
    {
      AssembledCallAt(order', assembled, k);
      CallMatchesIs(responseId, start + k, 0, streamed, Fragments(assembled, order'[k]));
    }
  }

  // ----- Which text items are equal -----

  lemma {:induction false} TextItemsShape(responseId: string, segments: seq<Segment>, annotations: seq<string>)
    ensures |TextItems(responseId, segments, annotations)| == |segments|
    ensures forall i :: 0 <= i < |segments| ==> !TextItems(responseId, segments, annotations)[i].FunctionCall?
  {
    if segments != [] {
      hide GeneratedId;
      TextItemsShape(responseId, segments[..|segments| - 1], annotations);
    }
  }

  lemma {:induction false} CallItemsShape(calls: seq<MessageCall>, responseId: string, start: nat)
    ensures forall i :: 0 <= i < |CallItems(calls, responseId, start)| ==>
              CallItems(calls, responseId, start)[i].FunctionCall?
  {
    if calls != [] {
      hide GeneratedId;
      CallItemsShape(calls[..|calls| - 1], responseId, start);
    }
  }

  /** No segment would carry annotations. */
  predicate NoMessage(segments: seq<Segment>) {
    forall k :: 0 <= k < |segments| ==> segments[k].kind == Reasoning
  }

  lemma TextItemTells(responseId: string, index: nat, a: Segment, b: Segment, annotations: seq<string>)
    ensures TextItem(responseId, index, a.kind, a.text, []) == TextItem(responseId, index, b.kind, b.text, annotations)
            <==> a == b && (annotations == [] || a.kind == Reasoning)
  {
    hide GeneratedId;
  }

  lemma TextItemsSnoc(responseId: string, front: seq<Segment>, last: Segment, annotations: seq<string>)
    ensures TextItems(responseId, front + [last], annotations) ==
            TextItems(responseId, front, annotations)
            + [TextItem(responseId, |front|, last.kind, last.text, annotations)]
  {
    assert (front + [last])[..|front|] == front;
  }

  lemma NoMessageSnoc(front: seq<Segment>, last: Segment)
    ensures NoMessage(front + [last]) <==> NoMessage(front) && last.kind == Reasoning
  {
    assert forall k :: 0 <= k < |front| ==> (front + [last])[k] == front[k];
    assert (front + [last])[|front|] == last;
  }

  /** Text items tell exactly which segments they were made from; annotations show as soon as there is a
      message segment. */
  lemma {:induction false} TextItemsTell(responseId: string, a: seq<Segment>, b: seq<Segment>, annotations: seq<string>)
    ensures TextItems(responseId, a, []) == TextItems(responseId, b, annotations) <==>
            a == b && (annotations == [] || NoMessage(a))
  {
    hide TextItems, TextItem, NoMessage;
    TextItemsShape(responseId, a, []);
    TextItemsShape(responseId, b, annotations);
    if |a| == |b| && a != [] {
      var frontA, lastA, frontB, lastB := a[..|a| - 1], a[|a| - 1], b[..|b| - 1], b[|b| - 1];
      assert a == frontA + [lastA] && b == frontB + [lastB];
      TextItemsTell(responseId, frontA, frontB, annotations);
      TextItemTells(responseId, |frontA|, lastA, lastB, annotations);
      TextItemsSnoc(responseId, frontA, lastA, []);
      TextItemsSnoc(responseId, frontB, lastB, annotations);
      NoMessageSnoc(frontA, lastA);
      SameEnds(TextItems(responseId, frontA, []), TextItems(responseId, frontB, annotations),
               TextItem(responseId, |frontA|, lastA.kind, lastA.text, []),
               TextItem(responseId, |frontA|, lastB.kind, lastB.text, annotations));
    } else {
      NothingSaid();
    }
  }

  lemma NothingSaid()
    ensures NoMessage([])
    ensures forall id, annotations :: TextItems(id, [], annotations) == []
  {
  }

  /** Text items and function calls do not mix. */
  lemma Separate(texts: seq<Item>, calls: seq<Item>, texts': seq<Item>, calls': seq<Item>)
    requires forall i :: 0 <= i < |texts| ==> !texts[i].FunctionCall?
    requires forall i :: 0 <= i < |texts'| ==> !texts'[i].FunctionCall?
    requires forall i :: 0 <= i < |calls| ==> calls[i].FunctionCall?
    requires forall i :: 0 <= i < |calls'| ==> calls'[i].FunctionCall?
    ensures texts + calls == texts' + calls' <==> texts == texts' && calls == calls'
  {
    var a, b := texts + calls, texts' + calls';
    assert |texts| < |texts'| ==> b[|texts|] == texts'[|texts|] && (|texts| < |a| ==> a[|texts|] == calls[0]);
    assert |texts'| < |texts| ==> a[|texts'|] == texts[|texts'|] && (|texts'| < |b| ==> b[|texts'|] == calls'[0]);
    if a == b {
      assert texts == a[..|texts|] && texts' == b[..|texts'|];
      assert calls == a[|texts|..] && calls' == b[|texts'|..];
    }
  }

  // ----- The outputs -----

  /** What the stream shows as text, and what the one-shot conversion of the assembled message shows. */
  ghost function StreamedSegments(chunks: seq<Chunk>): seq<Segment> {
    Split(THINK_TAGS, StreamedText(AllChoices(chunks)))
  }

  ghost function AssembledSegments(chunks: seq<Chunk>): seq<Segment> {
    Split(THINK_TAGS, VisibleText(Assemble(chunks).message))
  }

  /** When the outputs are the same, identifiers of the response aside: nothing is refused, the texts split
      alike, annotations have nothing to stand on, and the calls match. */
  ghost predicate OutputsMatch(chunks: seq<Chunk>, responseId: string) {
    && RefusalText(FirstChoices(chunks)) == ""
    && StreamedSegments(chunks) == AssembledSegments(chunks)
    && (Annotations(FirstChoices(chunks)) == [] || NoMessage(StreamedSegments(chunks)))
    && CallsMatch(responseId, |StreamedSegments(chunks)|, AllToolDeltas(AllChoices(chunks)),
                  AllToolDeltas(FirstChoices(chunks)))
  }

  /** The output items of a complete response under a given identifier. */
  ghost function ItemsUnder(message: ChatMessage, responseId: string): seq<Item> {
    var texts := MessageItems(message, responseId);
    texts + CallItems(message.toolCalls, responseId, |texts|)
  }

  ghost function StreamItemsUnder(chunks: seq<Chunk>, responseId: string): seq<Item> {
    var deltas := AllToolDeltas(AllChoices(chunks));
    TextItems(responseId, StreamedSegments(chunks), [])
    + StreamCallItems(responseId, |StreamedSegments(chunks)|, ToolOrder(deltas), deltas)
  }

  lemma {:induction false} StreamOutputIs(chunks: seq<Chunk>, uuid: string)
    ensures FinalResponse(chunks, uuid).output == StreamItemsUnder(chunks, ResponseId(chunks, uuid))
  {
    hide Groups, GroupItems, AllSegments, AllChoices, StreamCallItems, TextItems, Split, AllToolDeltas, ToolOrder,
      OutputTextOf, LastFinish, FirstModel, LastCreated, LastUsage, StatusOf, IncompleteOf, TokenUsageOf, ResponseId,
      StreamedText;
    var id := ResponseId(chunks, uuid);
    TextItemsAgree(id, AllChoices(chunks));
    TextItemsShape(id, StreamedSegments(chunks), []);
  }

  lemma AssembledOutputIs(chunks: seq<Chunk>, uuid': string, now: real)
    ensures Convert(Assemble(chunks), uuid', now).id == ResponseId(chunks, uuid')
    ensures Convert(Assemble(chunks), uuid', now).output ==
            ItemsUnder(Assemble(chunks).message, ResponseId(chunks, uuid'))
  {
    hide MessageItems, CallItems, FirstChoices, AssembledCalls, AllToolDeltas, ToolOrder, OutputTextOf, LastFinish,
      FirstModel, LastUsage, StatusOf, IncompleteOf, TokenUsageOf, ContentText, ReasoningContent, RefusalText,
      Annotations, LastCreatedField, ToResponseId;
  }

  lemma RefusalShows(responseId: string, segments: seq<Segment>, calls: seq<Item>, message: ChatMessage)
    requires OrElse(message.refusal, "") != ""
    requires forall i :: 0 <= i < |calls| ==> calls[i].FunctionCall?
    ensures TextItems(responseId, segments, []) + calls != ItemsUnder(message, responseId)
  {
    hide GeneratedId, CallItems, Split;
    var a, b := TextItems(responseId, segments, []) + calls, ItemsUnder(message, responseId);
    assert b[0].MessageItem? && b[0].content == [Refusal(message.refusal.value)];
    if segments != [] {
      FirstTextItem(responseId, segments);
    }
    TextItemsShape(responseId, segments, []);
  }

  lemma {:induction false} FirstTextItem(responseId: string, segments: seq<Segment>)
    requires segments != []
    ensures TextItems(responseId, segments, []) != []
    ensures TextItems(responseId, segments, [])[0] ==
            TextItem(responseId, 0, segments[0].kind, segments[0].text, [])
  {
    hide TextItem;
    TextItemsShape(responseId, segments, []);
    if |segments| > 1 {
      var n := |segments| - 1;
      FirstTextItem(responseId, segments[..n]);
      TextItemsShape(responseId, segments[..n], []);
    }
  }

  /** Under one identifier the outputs are the same exactly when they match. */
  lemma {:induction false} SameUnderOneId(chunks: seq<Chunk>, responseId: string)
    ensures StreamItemsUnder(chunks, responseId) == ItemsUnder(Assemble(chunks).message, responseId) <==>
            OutputsMatch(chunks, responseId)
  {
    hide AllChoices, FirstChoices, StreamCallItems, CallItems, TextItems, Split, AssembledCalls, AllToolDeltas,
      ToolOrder, LastFinish, FirstModel, LastUsage, VisibleText, ContentText, ReasoningContent, RefusalText,
      Annotations, LastCreatedField, StreamedText, CallsMatch, NoMessage, StreamedSegments;
    var message := Assemble(chunks).message;
    var a, b := StreamedSegments(chunks), AssembledSegments(chunks);
    var streamed, assembled := AllToolDeltas(AllChoices(chunks)), AllToolDeltas(FirstChoices(chunks));
    var calls := StreamCallItems(responseId, |a|, ToolOrder(streamed), streamed);
    StreamCallsNumbered(responseId, |a|, ToolOrder(streamed), streamed);
    if RefusalText(FirstChoices(chunks)) != "" {
      RefusalShows(responseId, a, calls, message);
    } else {
      TextItemsTell(responseId, a, b, message.annotations);
      TextItemsShape(responseId, a, []);
      TextItemsShape(responseId, b, message.annotations);
      CallItemsShape(message.toolCalls, responseId, |b|);
      CallItemsMatch(responseId, |a|, streamed, assembled);
      Separate(TextItems(responseId, a, []), calls,
               TextItems(responseId, b, message.annotations), CallItems(message.toolCalls, responseId, |b|));
    }
  }

  // ----- The whole response -----

  /** The first chunk names the response. */
  predicate HasId(chunks: seq<Chunk>) {
    chunks != [] && OrElse(chunks[0].id, "") != ""
  }

  /** Each path draws a random identifier of its own when the first chunk has none. */
  lemma SameIdExactlyWhen(chunks: seq<Chunk>, uuid: string, uuid': string)
    requires !("resp_" <= uuid) && !("resp_" <= uuid')
    ensures ResponseId(chunks, uuid) == ResponseId(chunks, uuid') <==> HasId(chunks) || uuid == uuid'
  {
    assert ("resp_" + uuid)[5..] == uuid && ("resp_" + uuid')[5..] == uuid';
  }

  /** The streaming converter against the one-shot converter, for all chunks: the response a stream
      completes with is the one-shot conversion of the assembled message, in every field but the time
      stamp, exactly when they have the same identifier, the outputs match and the last finish reason of
      all choices says the same as the last one of the first choices. */
  lemma {:induction false} ResponsesAgreeExactlyWhen(chunks: seq<Chunk>, uuid: string, uuid': string, now: real)
    ensures
      var stream, oneShot := FinalResponse(chunks, uuid), Convert(Assemble(chunks), uuid', now);
      var last, last' := LastFinish(AllChoices(chunks)), LastFinish(FirstChoices(chunks));
      stream == oneShot.(createdAt := stream.createdAt) <==>
      && ResponseId(chunks, uuid) == ResponseId(chunks, uuid')
      && OutputsMatch(chunks, ResponseId(chunks, uuid))
      && StatusOf(last) == StatusOf(last') && IncompleteOf(last) == IncompleteOf(last')
  {
    StreamOutputIs(chunks, uuid);
    AssembledOutputIs(chunks, uuid', now);
    SameUnderOneId(chunks, ResponseId(chunks, uuid));
    OtherFields(chunks, uuid, uuid', now);
    hide FinalResponse, Convert, Assemble, OutputsMatch, StreamItemsUnder, ItemsUnder, ResponseId, LastFinish, StatusOf,
      IncompleteOf, AllChoices, FirstChoices, TokenUsageOf, OutputTextOf;
  }

  lemma OtherFields(chunks: seq<Chunk>, uuid: string, uuid': string, now: real)
    ensures
      var stream, oneShot := FinalResponse(chunks, uuid), Convert(Assemble(chunks), uuid', now);
      && stream.id == ResponseId(chunks, uuid) && stream.model == oneShot.model && stream.usage == oneShot.usage
      && stream.status == StatusOf(LastFinish(AllChoices(chunks)))
      && stream.incomplete == IncompleteOf(LastFinish(AllChoices(chunks)))
      && oneShot.status == StatusOf(LastFinish(FirstChoices(chunks)))
      && oneShot.incomplete == IncompleteOf(LastFinish(FirstChoices(chunks)))
      && stream.outputText == NonEmpty(OutputTextOf(stream.output))
      && oneShot.outputText == NonEmpty(OutputTextOf(oneShot.output))
  {
    hide Groups, GroupItems, AllSegments, AllChoices, FirstChoices, StreamCallItems, CallItems, AssembledCalls,
      MessageItems, AllToolDeltas, ToolOrder, OutputTextOf, LastFinish, FirstModel, LastCreated, LastUsage, StatusOf,
      IncompleteOf, TokenUsageOf, ContentText, ReasoningContent, RefusalText, Annotations, LastCreatedField,
      ToResponseId;
  }

  /** What the outputs have to fulfil when every chunk has at most one choice: the calls are the same on
      both sides then, so each only needs a name and a usable identifier. */
  lemma OneChoiceMatches(chunks: seq<Chunk>, responseId: string)
    requires SingleChoice(chunks)
    ensures
      var choices := AllChoices(chunks);
      var deltas := AllToolDeltas(choices);
      OutputsMatch(chunks, responseId) <==>
      && RefusalText(choices) == ""
      && StreamedSegments(chunks) == AssembledSegments(chunks)
      && (Annotations(choices) == [] || NoMessage(StreamedSegments(chunks)))
      && CallsAgree(ToolOrder(deltas), deltas, |StreamedSegments(chunks)|)
  {
    hide AllChoices, FirstChoices, StreamCallItems, CallItems, AssembledCalls, AllToolDeltas, ToolOrder, RefusalText,
      Annotations, CallsMatch, CallsAgree, NoMessage, StreamedSegments, AssembledSegments;
    FirstIsAll(chunks);
    var deltas := AllToolDeltas(AllChoices(chunks));
    CallItemsMatch(responseId, |StreamedSegments(chunks)|, deltas, deltas);
    CallItemsAgree(responseId, |StreamedSegments(chunks)|, ToolOrder(deltas), deltas);
  }

  /** The streaming converter refines the one-shot converter.  For chunks of one choice and one identifier,
      the responses agree in every field but the time stamp exactly when nothing is refused, the text shown
      by the stream and the text of the message split into the same segments, there are no annotations on a
      message, and every function call has a name and a usable identifier. */
  lemma {:induction false} StreamRefinesOneShot(chunks: seq<Chunk>, uuid: string, uuid': string, now: real)
    requires SingleChoice(chunks)
    ensures
      var stream, oneShot := FinalResponse(chunks, uuid), Convert(Assemble(chunks), uuid', now);
      var choices := AllChoices(chunks);
      var deltas := AllToolDeltas(choices);
      stream == oneShot.(createdAt := stream.createdAt) <==>
      && ResponseId(chunks, uuid) == ResponseId(chunks, uuid')
      && RefusalText(choices) == ""
      && StreamedSegments(chunks) == AssembledSegments(chunks)
      && (Annotations(choices) == [] || NoMessage(StreamedSegments(chunks)))
      && CallsAgree(ToolOrder(deltas), deltas, |StreamedSegments(chunks)|)
  {
    hide FinalResponse, Convert, Assemble, OutputsMatch, ResponseId, LastFinish, StatusOf, IncompleteOf, AllChoices,
      FirstChoices, RefusalText, Annotations, NoMessage, StreamedSegments, AssembledSegments, CallsAgree, ToolOrder,
      AllToolDeltas;
    ResponsesAgreeExactlyWhen(chunks, uuid, uuid', now);
    OneChoiceMatches(chunks, ResponseId(chunks, uuid));
    FirstIsAll(chunks);
  }

  /** Text from one field throughout splits alike. */
  lemma {:induction false} OneSourceSplitsAlike(chunks: seq<Chunk>)
    requires SingleChoice(chunks) && OneTextSource(AllChoices(chunks))
    ensures StreamedSegments(chunks) == AssembledSegments(chunks)
  {
    hide AllChoices, FirstChoices, AllToolDeltas, ToolOrder, OneTextSource, Split, StreamedText, ContentText,
      ReasoningContent, LastFinish, FirstModel, LastCreatedField, LastUsage, AssembledCalls, RefusalText, Annotations;
    FirstIsAll(chunks);
    SameTextExactlyFromOneSource(AllChoices(chunks));
  }

  /** So for text from one field the segments drop out of the condition. */
  lemma {:induction false} OneSourceRefines(chunks: seq<Chunk>, uuid: string, uuid': string, now: real)
    requires SingleChoice(chunks) && OneTextSource(AllChoices(chunks))
    ensures
      var stream, oneShot := FinalResponse(chunks, uuid), Convert(Assemble(chunks), uuid', now);
      var choices := AllChoices(chunks);
      var deltas := AllToolDeltas(choices);
      stream == oneShot.(createdAt := stream.createdAt) <==>
      && ResponseId(chunks, uuid) == ResponseId(chunks, uuid')
      && RefusalText(choices) == ""
      && (Annotations(choices) == [] || NoMessage(StreamedSegments(chunks)))
      && CallsAgree(ToolOrder(deltas), deltas, |StreamedSegments(chunks)|)
  {
    hide FinalResponse, Convert, Assemble, ResponseId, AllChoices, OneTextSource, RefusalText, Annotations, NoMessage,
      StreamedSegments, AssembledSegments, CallsAgree, ToolOrder, AllToolDeltas;
    OneSourceSplitsAlike(chunks);
    StreamRefinesOneShot(chunks, uuid, uuid', now);
  }

  /** With the same identifier the outputs alone agree exactly when they match. */
  lemma {:induction false} OutputsAgreeExactlyWhen(chunks: seq<Chunk>, uuid: string, uuid': string, now: real)
    requires ResponseId(chunks, uuid) == ResponseId(chunks, uuid')
    ensures FinalResponse(chunks, uuid).output == Convert(Assemble(chunks), uuid', now).output <==>
            OutputsMatch(chunks, ResponseId(chunks, uuid))
  {
    hide FinalResponse, Convert, Assemble, OutputsMatch, StreamItemsUnder, ItemsUnder, ResponseId;
    StreamOutputIs(chunks, uuid);
    AssembledOutputIs(chunks, uuid', now);
    SameUnderOneId(chunks, ResponseId(chunks, uuid));
  }

  /** The time stamp agrees too when some chunk carries one; otherwise the stream says 0. */
  lemma {:induction false} TimeStampAgrees(chunks: seq<Chunk>)
    ensures LastCreated(chunks) == OrElse(Assemble(chunks).created, 0.0)
  {
    if chunks != [] {
      TimeStampAgrees(chunks[..|chunks| - 1]);
    }
  }

  // ----- Where the two conversions differ, and where they do not -----

  function Say(content: Option<string>, reasoning: Option<string>): Choice {
    Choice(None, content, reasoning, [], None, [])
  }

  function ChunkOf(choices: seq<Choice>): Chunk {
    Chunk(Some("x"), None, None, None, choices)
  }

  lemma OneChoice(x: Choice)
    ensures VisibleDeltas([x]) == if VisibleDelta(x) == "" then [] else [VisibleDelta(x)]
    ensures ContentText([x]) == OrElse(x.content, "") && ReasoningContent([x]) == OrElse(x.reasoningContent, "")
    ensures RefusalText([x]) == OrElse(x.refusal, "") && Annotations([x]) == x.annotations
    ensures AllToolDeltas([x]) == x.toolCalls && LastFinish([x]) == x.finishReason
  {
    hide VisibleDelta;
    assert [x][..0] == [];
    assert [] + x.annotations == x.annotations && [] + x.toolCalls == x.toolCalls;
  }

  lemma TwoChoicesSay(x: Choice, y: Choice)
    ensures ContentText([x, y]) == OrElse(x.content, "") + OrElse(y.content, "")
    ensures VisibleDelta(x) != "" && VisibleDelta(y) != "" ==> StreamedText([x, y]) == VisibleDelta(x) + VisibleDelta(y)
    ensures RefusalText([x, y]) == OrElse(x.refusal, "") + OrElse(y.refusal, "")
    ensures Annotations([x, y]) == x.annotations + y.annotations
    ensures AllToolDeltas([x, y]) == x.toolCalls + y.toolCalls
    ensures LastFinish([x, y]) == if y.finishReason.Some? then y.finishReason else x.finishReason
  {
    hide VisibleDelta, Concat;
    OneChoice(x);
    assert [x, y][..1] == [x];
    if VisibleDelta(x) != "" && VisibleDelta(y) != "" {
      assert VisibleDeltas([x, y]) == [VisibleDelta(x), VisibleDelta(y)];
      TwoParts(VisibleDelta(x), VisibleDelta(y));
    }
  }

  lemma TwoParts(a: string, b: string)
    ensures Concat([a, b]) == a + b
  {
    assert [a, b][..1] == [a] && [a][..0] == [];
    assert Concat([a]) == a;
  }

  lemma OnePart(a: string)
    ensures Concat([]) == "" && Concat([a]) == a
  {
    assert [a][..0] == [];
  }

  lemma OneChunk(chunk: Chunk)
    ensures AllChoices([chunk]) == chunk.choices
    ensures chunk.choices != [] ==> FirstChoices([chunk]) == [chunk.choices[0]]
  {
    assert [chunk][..0] == [];
  }

  lemma TwoChunks(first: Chunk, second: Chunk, x: Choice, y: Choice)
    requires first.choices == [x] && second.choices == [y]
    ensures AllChoices([first, second]) == [x, y] == FirstChoices([first, second])
    ensures SingleChoice([first, second])
  {
    assert [first, second][..1] == [first] && [first][..0] == [] && [x] + [y] == [x, y];
    assert AllChoices([first]) == [x] == FirstChoices([first]);
  }

  /** The segments of either path, said without the assembled message. */
  lemma SegmentsAre(chunks: seq<Chunk>)
    ensures StreamedSegments(chunks) == Split(THINK_TAGS, StreamedText(AllChoices(chunks)))
    ensures
      var content := ContentText(FirstChoices(chunks));
      AssembledSegments(chunks) ==
      Split(THINK_TAGS, if content != "" then content else ReasoningContent(FirstChoices(chunks)))
  {
    hide Split, StreamedText, AllChoices, FirstChoices, ContentText, ReasoningContent, LastFinish, FirstModel,
      LastUsage, LastCreatedField, AllToolDeltas, ToolOrder, AssembledCalls, RefusalText, Annotations;
  }

  /** Content in one chunk, reasoning content in the next. */
  function Mixed(a: string, b: string): seq<Chunk> {
    [ChunkOf([Say(Some(a), None)]), ChunkOf([Say(None, Some(b))])]
  }

  lemma MixedTexts(a: string, b: string)
    requires a != "" && b != ""
    ensures
      var chunks := Mixed(a, b);
      && SingleChoice(chunks) && !OneTextSource(AllChoices(chunks))
      && StreamedSegments(chunks) == Split(THINK_TAGS, a + b)
      && AssembledSegments(chunks) == Split(THINK_TAGS, a)
      && AllToolDeltas(AllChoices(chunks)) == []
      && RefusalText(AllChoices(chunks)) == "" && Annotations(AllChoices(chunks)) == []
  {
    var chunks := Mixed(a, b);
    var x, y := Say(Some(a), None), Say(None, Some(b));
    hide Split, StreamedText, ContentText, ReasoningContent, AllChoices, FirstChoices, AssembledCalls, LastFinish,
      FirstModel, LastCreatedField, LastUsage, ToolOrder, RefusalText, Annotations, AllToolDeltas;
    TwoChunks(chunks[0], chunks[1], x, y);
    TwoChoicesSay(x, y);
    assert a + "" == a;
    assert [x, y][0] == x && [x, y][1] == y;
  }

  lemma NoCalls()
    ensures ToolOrder([]) == []
  {
  }

  /** Content followed by reasoning content: the outputs agree exactly when what follows changes no
      segment. */
  lemma MixedSources(a: string, b: string, uuid: string, now: real)
    requires a != "" && b != ""
    ensures FinalResponse(Mixed(a, b), uuid).output == Convert(Assemble(Mixed(a, b)), uuid, now).output <==>
            Split(THINK_TAGS, a + b) == Split(THINK_TAGS, a)
  {
    var chunks := Mixed(a, b);
    hide FinalResponse, Convert, Split, AllChoices, Assemble, AllToolDeltas, SingleChoice, StreamedSegments, Mixed,
      AssembledSegments, OutputsMatch, ResponseId, RefusalText, Annotations, OneTextSource;
    MixedTexts(a, b);
    NoCalls();
    OutputsAgreeExactlyWhen(chunks, uuid, uuid, now);
    OneChoiceMatches(chunks, ResponseId(chunks, uuid));
  }

  /** Plain text in both fields really differs: the stream shows both, the one-shot conversion only the
      content. */
  lemma MixedSourcesDiffer(a: string, b: string, uuid: string, now: real)
    requires a != "" && b != "" && '<' !in a && '<' !in b
    ensures FinalResponse(Mixed(a, b), uuid).output != Convert(Assemble(Mixed(a, b)), uuid, now).output
  {
    hide FinalResponse, Convert, Split, Assemble, Mixed;
    TaglessText(a + b);
    TaglessText(a);
    MixedSources(a, b, uuid, now);
  }

  /** But mixed sources need not differ: an empty think block shows nothing in either path. */
  lemma MixedSourcesMayAgree(uuid: string, now: real)
    ensures
      var chunks := Mixed("a", "<think></think>");
      && !OneTextSource(AllChoices(chunks))
      && FinalResponse(chunks, uuid).output == Convert(Assemble(chunks), uuid, now).output
  {
    hide FinalResponse, Convert, Split, AllChoices, Assemble, OneTextSource, SingleChoice, StreamedSegments,
      AssembledSegments, AllToolDeltas, Mixed, RefusalText, Annotations;
    MixedTexts("a", "<think></think>");
    EmptyThinkBlock();
    assert "a" + "<think></think>" == "a<think></think>";
    MixedSources("a", "<think></think>", uuid, now);
  }

  lemma EmptyThinkBlock()
    ensures Split(THINK_TAGS, "a<think></think>") == Split(THINK_TAGS, "a")
  {
    var text, tag := "a<think></think>", THINK_TAGS.For(false);
    assert text[1..] == tag + "</think>";
    assert !(tag <= text[0..]) by {
      assert text[0] == 'a';
    }
    IndexIs(text, tag, Some(1));
    assert text[..1] == "a" && text[1 + |tag|..] == THINK_TAGS.For(true);
    hide Index, Compress, Paint;
    TagAlone(THINK_TAGS, true);
    NothingToFind("a", tag);
    assert Paint(Message, "a") + [] == Paint(Message, "a");
  }

  /** A second choice really differs: the stream shows all choices, the one-shot conversion the first. */
  lemma SecondChoiceDiffers(a: string, b: string, uuid: string, now: real)
    requires a != "" && b != "" && '<' !in a && '<' !in b
    ensures
      var chunks := [ChunkOf([Say(Some(a), None), Say(Some(b), None)])];
      FinalResponse(chunks, uuid).output != Convert(Assemble(chunks), uuid, now).output
  {
    var x, y := Say(Some(a), None), Say(Some(b), None);
    var chunks := [ChunkOf([x, y])];
    assert VisibleDelta(x) == a && VisibleDelta(y) == b;
    hide FinalResponse, Convert, Assemble, Split, StreamedText, ContentText, ReasoningContent, AllChoices, FirstChoices,
      LastFinish, ToolOrder, AllToolDeltas, ResponseId, RefusalText, Annotations, AssembledSegments, StreamedSegments,
      VisibleDelta, CallsMatch, NoMessage, Say;
    OneChunk(chunks[0]);
    OneChoice(x);
    TwoChoicesSay(x, y);
    SegmentsAre(chunks);
    TaglessText(a + b);
    TaglessText(a);
    OutputsAgreeExactlyWhen(chunks, uuid, uuid, now);
  }

  /** Nor need the status agree when the outputs do: the stream goes by the last finish reason of all
      choices, the one-shot conversion by that of the first. */
  lemma SecondFinishDiffers(first: FinishReason, second: FinishReason, uuid: string, now: real)
    requires !IsCutOff(first) && IsCutOff(second)
    ensures
      var chunks := [ChunkOf([Say(None, None).(finishReason := Some(first)),
                              Say(None, None).(finishReason := Some(second))])];
      var stream, oneShot := FinalResponse(chunks, uuid), Convert(Assemble(chunks), uuid, now);
      stream.output == oneShot.output && stream.status == Incomplete && oneShot.status != Incomplete
  {
    var x, y := Say(None, None).(finishReason := Some(first)), Say(None, None).(finishReason := Some(second));
    var chunks := [ChunkOf([x, y])];
    Lifecycle.CutOffIs(Some(first));
    Lifecycle.CutOffIs(Some(second));
    hide FinalResponse, Convert, Assemble, Split, StreamedText, AllChoices, FirstChoices, LastFinish, AllToolDeltas,
      ResponseId, OutputsMatch, StatusOf, IncompleteOf, IsCutOff;
    SilentChoices(x, y);
    TwoSilentChoicesMatch(chunks[0], x, y, ResponseId(chunks, uuid));
    OneChoice(x);
    OneChunk(chunks[0]);
    TwoChoicesSay(x, y);
    OutputsAgreeExactlyWhen(chunks, uuid, uuid, now);
    OtherFields(chunks, uuid, uuid, now);
  }

  lemma TwoSilentChoicesMatch(chunk: Chunk, x: Choice, y: Choice, responseId: string)
    requires chunk.choices == [x, y] && StreamedText([x]) == "" && StreamedText([x, y]) == ""
    requires x.content == x.reasoningContent == x.refusal == None
    requires x.annotations == [] && x.toolCalls == y.toolCalls == []
    ensures OutputsMatch([chunk], responseId)
  {
    hide FinalResponse, Convert, Assemble, Split, StreamedText, ContentText, ReasoningContent, AllChoices, FirstChoices,
      LastFinish, ToolOrder, AllToolDeltas, ResponseId, RefusalText, Annotations, AssembledSegments, StreamedSegments,
      VisibleDelta, CallsMatch, NoMessage;
    OneChunk(chunk);
    OneChoice(x);
    TwoChoicesSay(x, y);
    SegmentsAre([chunk]);
    NoCallsMatch(responseId, |StreamedSegments([chunk])|);
  }

  lemma NoCallsMatch(responseId: string, start: nat)
    ensures CallsMatch(responseId, start, [], [])
  {
    NoCalls();
  }

  lemma SilentChoices(x: Choice, y: Choice)
    requires VisibleDelta(x) == "" && VisibleDelta(y) == ""
    ensures StreamedText([x]) == "" && StreamedText([x, y]) == ""
  {
    OneChoice(x);
    hide VisibleDelta;
    assert [x, y][..1] == [x];
    OnePart("");
  }

  /** A refusal shows in the one-shot conversion only. */
  lemma RefusalDiffers(refusal: string, uuid: string, now: real)
    requires refusal != ""
    ensures
      var chunks := [ChunkOf([Say(None, None).(refusal := Some(refusal))])];
      FinalResponse(chunks, uuid).output != Convert(Assemble(chunks), uuid, now).output
  {
    var x := Say(None, None).(refusal := Some(refusal));
    var chunks := [ChunkOf([x])];
    hide FinalResponse, Convert, Assemble, Split, StreamedText, ContentText, ReasoningContent, AllChoices, FirstChoices,
      LastFinish, ToolOrder, AllToolDeltas, ResponseId, RefusalText, Annotations, AssembledSegments, StreamedSegments,
      VisibleDelta, CallsMatch, NoMessage, Say;
    OneChunk(chunks[0]);
    OneChoice(x);
    OutputsAgreeExactlyWhen(chunks, uuid, uuid, now);
  }

  /** So do the annotations of a message. */
  lemma AnnotationsDiffer(text: string, annotation: string, uuid: string, now: real)
    requires text != "" && '<' !in text
    ensures
      var chunks := [ChunkOf([Say(Some(text), None).(annotations := [annotation])])];
      FinalResponse(chunks, uuid).output != Convert(Assemble(chunks), uuid, now).output
  {
    var x := Say(Some(text), None).(annotations := [annotation]);
    var chunks := [ChunkOf([x])];
    OneChunk(chunks[0]);
    OneChoice(x);
    OnePart(text);
    assert StreamedText([x]) == text;
    hide FinalResponse, Convert, Assemble, Split, StreamedText, ContentText, ReasoningContent, AllChoices, FirstChoices,
      LastFinish, ToolOrder, AllToolDeltas, ResponseId, RefusalText, Annotations, AssembledSegments, StreamedSegments,
      VisibleDelta, CallsMatch, Say;
    SegmentsAre(chunks);
    TaglessText(text);
    OutputsAgreeExactlyWhen(chunks, uuid, uuid, now);
  }

  /** Without an identifier in the first chunk each conversion invents its own. */
  lemma MissingIdDiffers(uuid: string, uuid': string, now: real)
    requires !("resp_" <= uuid) && !("resp_" <= uuid') && uuid != uuid'
    ensures
      var chunks := [ChunkOf([]).(id := None)];
      FinalResponse(chunks, uuid).id != Convert(Assemble(chunks), uuid', now).id
  {
    var chunks := [ChunkOf([]).(id := None)];
    SameIdExactlyWhen(chunks, uuid, uuid');
    OtherFields(chunks, uuid, uuid', now);
    AssembledOutputIs(chunks, uuid', now);
    hide FinalResponse, Convert, Assemble, ResponseId;
  }

  lemma OneCall(delta: ToolDelta)
    requires delta.index == Some(0)
    ensures ToolOrder([delta]) == [0] && Fragments([delta], 0) == [delta]
    ensures NamesOf([delta]) == OrElse(delta.name, "") && LastId([delta]) == delta.id
  {
    assert [delta][..0] == [] && [0][..0] == [];
    assert ToolIndices([delta]) == [0] && FirstSeen([0]) == [0];
  }

  lemma CallDiffers(delta: ToolDelta, uuid: string, now: real)
    requires delta.index == Some(0) && (OrElse(delta.name, "") == "" || delta.id == Some(""))
    ensures
      var chunks := [ChunkOf([Say(None, None).(toolCalls := [delta])])];
      FinalResponse(chunks, uuid).output != Convert(Assemble(chunks), uuid, now).output
  {
    var x := Say(None, None).(toolCalls := [delta]);
    var chunks := [ChunkOf([x])];
    hide FinalResponse, Convert, Assemble, Split, StreamedText, ContentText, ReasoningContent, AllChoices, FirstChoices,
      LastFinish, ToolOrder, AllToolDeltas, ResponseId, RefusalText, Annotations, AssembledSegments, StreamedSegments,
      VisibleDelta, OutputsMatch, NoMessage, Fragments, NamesOf, LastId, Say;
    OneChunk(chunks[0]);
    OneChoice(x);
    OneCall(delta);
    assert [0][0] == 0;
    assert !CallAgrees([delta], [0][0], |StreamedSegments(chunks)| + 0);
    OutputsAgreeExactlyWhen(chunks, uuid, uuid, now);
    OneChoiceMatches(chunks, ResponseId(chunks, uuid));
  }

  /** A call that is never named is kept by the stream and dropped by the one-shot conversion. */
  lemma UnnamedCallDiffers(id: string, arguments: string, uuid: string, now: real)
    ensures
      var delta := ToolDelta(Some(0), Some(id), None, Some(arguments));
      var chunks := [ChunkOf([Say(None, None).(toolCalls := [delta])])];
      FinalResponse(chunks, uuid).output != Convert(Assemble(chunks), uuid, now).output
  {
    hide FinalResponse, Convert, Assemble;
    CallDiffers(ToolDelta(Some(0), Some(id), None, Some(arguments)), uuid, now);
  }

  /** A call with an empty identifier gets one from the stream and keeps the empty one in the one-shot
      conversion. */
  lemma UnusableIdDiffers(name: string, arguments: string, uuid: string, now: real)
    ensures
      var delta := ToolDelta(Some(0), Some(""), Some(name), Some(arguments));
      var chunks := [ChunkOf([Say(None, None).(toolCalls := [delta])])];
      FinalResponse(chunks, uuid).output != Convert(Assemble(chunks), uuid, now).output
  {
    hide FinalResponse, Convert, Assemble;
    CallDiffers(ToolDelta(Some(0), Some(""), Some(name), Some(arguments)), uuid, now);
  }
}
