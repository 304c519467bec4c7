/** `ConvertStream`: from the upstream bytes to the emitted frames. */
module StreamPipeline {
  import opened Strings
  import opened ThinkTag
  import opened Payloads
  import opened StreamTrace
  import opened StreamConverter
  import opened StreamLifecycle
  import Sse

  /** What the JSON decoder makes of a payload. */
  datatype Decoded = NotJson | JsonValue | JsonObject(chunk: Chunk)

  const DONE := "[DONE]"

  /** The first half of `processSseBlock`: extract the data and decode it. */
  function Classify(block: string, decode: string -> Decoded): Input {
    var data := TrimSpace(Sse.Join(Sse.DataLines(block)));
    if data == "" then NoData
    else if TrimSpace(data) == DONE then DoneSentinel
    else
      match decode(data)
      case NotJson => Malformed(block)
      case JsonValue => Input.NotAnObject
      case JsonObject(chunk) => ChunkInput(chunk)
  }

  function Inputs(blocks: seq<string>, decode: string -> Decoded): seq<Input> {
    if blocks == [] then []
    else Inputs(blocks[..|blocks| - 1], decode) + [Classify(blocks[|blocks| - 1], decode)]
  }

  /** The chunks before the first end mark. */
  function SealedOf(inputs: seq<Input>): seq<Chunk> {
    if inputs == [] then []
    else
      var front, last := inputs[..|inputs| - 1], inputs[|inputs| - 1];
      SealedOf(front) + if last.ChunkInput? && DoneSentinel !in front then [last.chunk] else []
  }

  /** The chunks behind the first end mark. */
  function LateOf(inputs: seq<Input>): seq<Chunk> {
    if inputs == [] then []
    else
      var front, last := inputs[..|inputs| - 1], inputs[|inputs| - 1];
      LateOf(front) + if last.ChunkInput? && DoneSentinel in front then [last.chunk] else []
  }

  /** What has been emitted when all of `inputs` have been processed. */
  ghost function Emitted(inputs: seq<Input>, uuid: string): seq<Event> {
    if DoneSentinel in inputs then Trace(SealedOf(inputs), LateOf(inputs), uuid)
    else PartialTrace(SealedOf(inputs), uuid)
  }

  /** The blocks that do not parse, each behind the events of the blocks before it. */
  ghost function MalformedOf(inputs: seq<Input>, uuid: string): seq<Passed> {
    if inputs == [] then []
    else
      var front, last := inputs[..|inputs| - 1], inputs[|inputs| - 1];
      MalformedOf(front, uuid) + if last.Malformed? then [Passed(|Emitted(front, uuid)|, last.block)] else []
  }

  lemma InputsSnoc(inputs: seq<Input>, input: Input)
    ensures SealedOf(inputs + [input]) ==
            SealedOf(inputs) + if input.ChunkInput? && DoneSentinel !in inputs then [input.chunk] else []
    ensures LateOf(inputs + [input]) ==
            LateOf(inputs) + if input.ChunkInput? && DoneSentinel in inputs then [input.chunk] else []
    ensures forall uuid :: MalformedOf(inputs + [input], uuid) ==
                           MalformedOf(inputs, uuid)
                           + if input.Malformed? then [Passed(|Emitted(inputs, uuid)|, input.block)] else []
    ensures DoneSentinel in inputs + [input] <==> DoneSentinel in inputs || input.DoneSentinel?
  {
    assert (inputs + [input])[..|inputs|] == inputs;
  }

  lemma {:induction false} NothingIsLateBeforeDone(inputs: seq<Input>)
    requires DoneSentinel !in inputs
    ensures LateOf(inputs) == []
  {
    if inputs != [] {
      NothingIsLateBeforeDone(inputs[..|inputs| - 1]);
    }
  }

  /** How far the state has come. */
  ghost predicate Reached(h: History, finalized: bool, inputs: seq<Input>) {
    && finalized == (DoneSentinel in inputs)
    && h.log == SealedOf(inputs) + LateOf(inputs)
    && (finalized ==> h.sealedAt == |SealedOf(inputs)|)
  }

  lemma ReachedSnoc(h: History, finalized: bool, inputs: seq<Input>, input: Input, h': History, finalized': bool)
    requires Reached(h, finalized, inputs)
    requires h'.log == h.log + if input.ChunkInput? then [input.chunk] else []
    requires finalized' == (finalized || input.DoneSentinel?)
    requires h'.sealedAt == if input.DoneSentinel? && !finalized then |h'.log| else h.sealedAt
    ensures Reached(h', finalized', inputs + [input])
  {
    hide SealedOf, LateOf;
    InputsSnoc(inputs, input);
    if !finalized {
      NothingIsLateBeforeDone(inputs);
    }
  }

  /** A finalized state has emitted exactly the trace of its chunks, any other state the part so far. */
  lemma ValidMeansTrace(st: StreamState)
    requires st.Valid()
    ensures st.finalized ==> st.h.sealedAt <= |st.h.log|
    ensures
      Events(st.frames) ==
      if st.finalized then Trace(st.h.log[..st.h.sealedAt], st.h.log[st.h.sealedAt..], st.uuid)
      else PartialTrace(st.h.log, st.uuid)
  {
    hide FinalTrace, TextEvents, Groups, AllSegments, StreamItems, Feed, ToolsAre;
    NothingFed(Parser("", false));
    NoGroups("", 0, false);
  }

  lemma ReachedMeansEmitted(st: StreamState, inputs: seq<Input>)
    requires st.Valid() && Reached(st.h, st.finalized, inputs)
    ensures Events(st.frames) == Emitted(inputs, st.uuid)
  {
    hide Trace, PartialTrace, Events, SealedOf, LateOf, TextOk, ParserOk, MetadataOk, PhaseOk, ChunksOk,
         ChoicesOk;
    ValidMeansTrace(st);
    if st.finalized {
      assert st.h.log[..st.h.sealedAt] == SealedOf(inputs) && st.h.log[st.h.sealedAt..] == LateOf(inputs);
    } else {
      NothingIsLateBeforeDone(inputs);
      assert st.h.log == SealedOf(inputs);
    }
  }

  /** `ConvertStream`.  `decode` is the JSON decoder, `uuid` the random identifier in case it is needed. */
  method ConvertStream(source: Sse.Source, decode: string -> Decoded, uuid: string) returns (frames: seq<Frame>)
    requires source.limit > 0
    ensures
      var inputs := Inputs(Sse.Blocks(source, ""), decode);
      && Events(frames) == Trace(SealedOf(inputs), LateOf(inputs), uuid)
      && PassedThrough(frames) == MalformedOf(inputs, uuid)
      && (Accepts(Events(frames)) <==> Silent(LeftInThink(SealedOf(inputs)), LateOf(inputs)))
  {
    hide Sse.Blocks, Sse.Ending, Classify, SealedOf, LateOf, MalformedOf, Reached, Trace, Emitted, Accepts, Silent,
      Events,
      PassedThrough, TextOk, ParserOk, MetadataOk, PhaseOk, ChunksOk, ChoicesOk;
    var reader := new Sse.BlockReader(source);
    var st := new StreamState(uuid);
    ghost var seen: seq<string> := [];
    ghost var all := Sse.Blocks(source, "");
    assert all == seen + all;
    StartReached(st);
    while true
      invariant reader.Valid() && !reader.done && st.Valid() && st.uuid == uuid
      invariant fresh(reader) && fresh(st) && fresh(st.thinkParser)
      invariant all == seen + Sse.Blocks(reader.source, "")
      invariant Reached(st.h, st.finalized, Inputs(seen, decode))
      invariant PassedThrough(st.frames) == MalformedOf(Inputs(seen, decode), uuid)
      decreases |reader.source.rest|
    {
      var block, ok, err := reader.Next();
      if !ok {
        assert all == seen;
        break;
      }
      var input := Classify(block, decode);
      ghost var inputs, h, finalized := Inputs(seen, decode), st.h, st.finalized;
      InputsSnoc(inputs, input);
      assert (seen + [block])[..|seen|] == seen;
      Associative(seen, [block], Sse.Blocks(reader.source, ""));
      ReachedMeansEmitted(st, inputs);
      st.ProcessSseBlock(input);
      ReachedSnoc(h, finalized, inputs, input, st.h, st.finalized);
      seen := seen + [block];
    }
    ghost var inputs, h, finalized := Inputs(seen, decode), st.h, st.finalized;
    st.FinalizeStream();
    EndReached(h, finalized, inputs, st.h);
    ValidMeansTrace(st);
    frames := st.frames;
    LateTextBreaksTheLifecycle(SealedOf(inputs), LateOf(inputs), uuid);
  }

  // ----- Single blocks -----

  /** A block of one data line: "[DONE]" is the end mark, and anything else goes to the decoder as it is. */
  lemma OneLineBlocks(payload: string, decode: string -> Decoded)
    requires Sse.OneLine(payload) && payload != "" && !IsSpace(payload[0]) && !IsSpace(payload[|payload| - 1])
    ensures payload == "[DONE]" ==> Classify("data: " + payload, decode) == DoneSentinel
    ensures payload == "[DONE]" ==> Classify("data:" + payload, decode) == DoneSentinel
    ensures payload != "[DONE]" ==>
              Classify("data: " + payload, decode) ==
              match decode(payload)
              case NotJson => Malformed("data: " + payload)
              case JsonValue => Input.NotAnObject
              case JsonObject(chunk) => ChunkInput(chunk)
  {
    Sse.OneLineCarries(payload);
    assert TrimSpace(payload) == payload;
    assert Sse.Join([payload]) == payload;
    hide Sse.DataLines, TrimSpace, Sse.Join;
  }

  /** A block without any data line is nothing to the converter. */
  lemma CommentBlock(line: string, decode: string -> Decoded)
    requires Sse.OneLine(line) && !("data:" <= line)
    ensures Classify(line, decode) == NoData
  {
    Sse.OneLineCarries(line);
    assert TrimSpace(Sse.Join([])) == "";
    hide Sse.DataLines, TrimSpace, Sse.Join;
  }

  // ----- What the bytes mean -----

  /** What an event with the given data lines is to the converter; a block that does not parse is known by
      its data. */
  function ClassifyData(data: seq<string>, decode: string -> Decoded): Input {
    var text := TrimSpace(Sse.Join(data));
    if text == "" then NoData
    else if TrimSpace(text) == DONE then DoneSentinel
    else
      match decode(text)
      case NotJson => Malformed(text)
      case JsonValue => Input.NotAnObject
      case JsonObject(chunk) => ChunkInput(chunk)
  }

  function DataInputs(events: seq<seq<string>>, decode: string -> Decoded): seq<Input> {
    if events == [] then []
    else DataInputs(events[..|events| - 1], decode) + [ClassifyData(events[|events| - 1], decode)]
  }

  /** Inputs that differ at most in how a block that does not parse is written down. */
  predicate Alike(a: Input, b: Input) {
    a == b || (a.Malformed? && b.Malformed?)
  }

  lemma ClassifiedAlike(block: string, decode: string -> Decoded)
    ensures Alike(Classify(block, decode), ClassifyData(Sse.DataLines(block), decode))
  {
    hide TrimSpace, Sse.Join, Sse.DataLines;
  }

  lemma {:induction false} AllDataSnoc(front: seq<string>, block: string)
    ensures Sse.AllData(front + [block]) == Sse.AllData(front) + [Sse.DataLines(block)]
  {
    hide Sse.DataLines;
    if front == [] {
      assert front + [block] == [block] && [block][1..] == [];
      assert Sse.AllData([block]) == [Sse.DataLines(block)] + [];
    } else {
      assert (front + [block])[1..] == front[1..] + [block];
      AllDataSnoc(front[1..], block);
    }
  }

  lemma {:induction false} SameChunks(blocks: seq<string>, decode: string -> Decoded)
    ensures
      var a, b := Inputs(blocks, decode), DataInputs(Sse.AllData(blocks), decode);
      SealedOf(a) == SealedOf(b) && LateOf(a) == LateOf(b) && (DoneSentinel in a <==> DoneSentinel in b)
  {
    if blocks != [] {
      var front, last := blocks[..|blocks| - 1], blocks[|blocks| - 1];
      assert blocks == front + [last];
      AllDataSnoc(front, last);
      var events, data := Sse.AllData(front), Sse.DataLines(last);
      assert (events + [data])[..|events|] == events;
      SameChunks(front, decode);
      ClassifiedAlike(last, decode);
      hide Classify, ClassifyData, SealedOf, LateOf, Sse.AllData;
      InputsSnoc(Inputs(front, decode), Classify(last, decode));
      InputsSnoc(DataInputs(events, decode), ClassifyData(data, decode));
    }
  }

  /** From bytes to events: for a stream whose lines fit the buffer, the chunks that the converter sees, before
      and behind the end mark, are those in the events of the stream, read line by line. */
  lemma {:induction false} BytesMeanChunks(source: Sse.Source, decode: string -> Decoded)
    requires source.limit > 0 && Sse.Fits(source.rest, source.limit, source.eager)
    ensures
      var inputs := Inputs(Sse.Blocks(source, ""), decode);
      var events := DataInputs(Sse.EventData(source.rest, false, []), decode);
      SealedOf(inputs) == SealedOf(events) && LateOf(inputs) == LateOf(events)
  {
    hide Sse.Blocks, Sse.EventData, Sse.AllData, Sse.Fits, Inputs, DataInputs, SealedOf, LateOf;
    Sse.StreamDataIsDelivered(source);
    SameChunks(Sse.Blocks(source, ""), decode);
  }

  lemma StartReached(st: StreamState)
    requires st.h == NO_HISTORY && !st.finalized && st.frames == []
    ensures Reached(st.h, st.finalized, []) && forall uuid :: PassedThrough(st.frames) == MalformedOf([], uuid)
  {
  }

  /** Finalizing at the end of the input seals what has not been sealed yet. */
  lemma EndReached(h: History, finalized: bool, inputs: seq<Input>, h': History)
    requires Reached(h, finalized, inputs)
    requires h'.log == h.log && h'.sealedAt == if finalized then h.sealedAt else |h.log|
    ensures h'.sealedAt <= |h'.log|
    ensures h'.log[..h'.sealedAt] == SealedOf(inputs) && h'.log[h'.sealedAt..] == LateOf(inputs)
  {
    hide SealedOf, LateOf;
    if !finalized {
      NothingIsLateBeforeDone(inputs);
    }
  }
}
