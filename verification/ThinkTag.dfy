/** The `<think>`-tag splitter: a one-shot form over a whole text and an incremental form that
    holds back a partial tag at the end of every chunk. */
module ThinkTag {
  import opened Strings

  datatype Kind = Message | Reasoning
  datatype Segment = Segment(kind: Kind, text: string)
  datatype Parser = Parser(buffer: string, inThink: bool)

  /** The opening and the closing tag.  Nothing below depends on how they are spelled. */
  datatype Tags = Tags(open: string, close: string) {
    function For(inThink: bool): string {
      if inThink then close else open
    }
  }

  type TagPair = t: Tags | t.open != "" && t.close != "" witness Tags("<think>", "</think>")

  const THINK_TAGS: TagPair := Tags("<think>", "</think>")

  function KindFor(inThink: bool): Kind {
    if inThink then Reasoning else Message
  }

  /** `pushThinkSegment`: extend the last segment when the kind repeats, ignore empty text. */
  function Push(segments: seq<Segment>, kind: Kind, text: string): seq<Segment> {
    var n := |segments|;
    if text == "" then segments
    else if n > 0 && segments[n - 1].kind == kind then
      segments[..n - 1] + [Segment(kind, segments[n - 1].text + text)]
    else segments + [Segment(kind, text)]
  }

  /** Merging across calls, which is what the consumer of the segments does. */
  function Coalesce(segments: seq<Segment>): seq<Segment> {
    if segments == [] then []
    else
      var last := segments[|segments| - 1];
      Push(Coalesce(segments[..|segments| - 1]), last.kind, last.text)
  }

  // ----- What segments mean: every character painted with the kind it was filed under -----

  type Label = (Kind, char)

  function Paint(kind: Kind, text: string): seq<Label> {
    seq(|text|, i requires 0 <= i < |text| => (kind, text[i]))
  }

  function Labels(segments: seq<Segment>): seq<Label> {
    if segments == [] then []
    else
      var last := segments[|segments| - 1];
      Labels(segments[..|segments| - 1]) + Paint(last.kind, last.text)
  }

  /** The canonical segments of a painted text. */
  function Compress(labels: seq<Label>): seq<Segment> {
    if labels == [] then []
    else
      var last := labels[|labels| - 1];
      Push(Compress(labels[..|labels| - 1]), last.0, [last.1])
  }

  lemma PaintAppend(kind: Kind, a: string, b: string)
    ensures Paint(kind, a + b) == Paint(kind, a) + Paint(kind, b)
  {
  }

  lemma PushPush(segments: seq<Segment>, kind: Kind, a: string, b: string)
    ensures Push(Push(segments, kind, a), kind, b) == Push(segments, kind, a + b)
  {
    if a == "" {
      assert a + b == b;
    } else if b == "" {
      assert a + b == a;
    } else {
      var n := |segments|;
      if n > 0 && segments[n - 1].kind == kind {
        assert segments[n - 1].text + a + b == segments[n - 1].text + (a + b);
      }
    }
  }

  lemma CompressSnoc(labels: seq<Label>, l: Label)
    ensures Compress(labels + [l]) == Push(Compress(labels), l.0, [l.1])
  {
    hide Push;
    assert (labels + [l])[..|labels|] == labels;
  }

  lemma {:induction false} CompressPaint(labels: seq<Label>, kind: Kind, text: string)
    ensures Compress(labels + Paint(kind, text)) == Push(Compress(labels), kind, text)
  {
    if text == "" {
      assert labels + Paint(kind, text) == labels;
    } else {
      var n := |text| - 1;
      var front := Paint(kind, text[..n]);
      assert Paint(kind, text) == front + [(kind, text[n])];
      assert text[..n] + [text[n]] == text;
      hide Push, Compress, Paint;
      Associative(labels, front, [(kind, text[n])]);
      CompressPaint(labels, kind, text[..n]);
      CompressSnoc(labels + front, (kind, text[n]));
      PushPush(Compress(labels), kind, text[..n], [text[n]]);
    }
  }

  /** Merging segments forgets how they were cut: only the painted text matters. */
  lemma {:induction false} CoalesceIsCompress(segments: seq<Segment>)
    ensures Coalesce(segments) == Compress(Labels(segments))
  {
    if segments != [] {
      var front := segments[..|segments| - 1];
      var last := segments[|segments| - 1];
      CoalesceIsCompress(front);
      CompressPaint(Labels(front), last.kind, last.text);
    }
  }

  lemma {:induction false} LabelsAppend(a: seq<Segment>, b: seq<Segment>)
    ensures Labels(a + b) == Labels(a) + Labels(b)
  {
    if b == [] {
      assert a + b == a;
    } else {
      assert (a + b)[..|a + b| - 1] == a + b[..|b| - 1];
      LabelsAppend(a, b[..|b| - 1]);
    }
  }

  lemma {:induction false} LabelsOfPush(segments: seq<Segment>, kind: Kind, text: string)
    ensures Labels(Push(segments, kind, text)) == Labels(segments) + Paint(kind, text)
  {
    var n := |segments|;
    if n > 0 && segments[n - 1].kind == kind && text != "" {
      var pushed := Push(segments, kind, text);
      assert pushed[..|pushed| - 1] == segments[..n - 1];
      PaintAppend(kind, segments[n - 1].text, text);
    } else if text != "" {
      assert (segments + [Segment(kind, text)])[..n] == segments;
    }
  }

  lemma {:induction false} LabelsOfCompress(labels: seq<Label>)
    ensures Labels(Compress(labels)) == labels
  {
    if labels == [] {
    } else {
      hide Labels, Push;
      var front, last := labels[..|labels| - 1], labels[|labels| - 1];
      LabelsOfCompress(front);
      LabelsOfPush(Compress(front), last.0, [last.1]);
      assert Paint(last.0, [last.1]) == [last];
      assert front + [last] == labels;
    }
  }

  /** No empty segment, and neighbours of different kinds. */
  predicate Normal(segments: seq<Segment>) {
    && (forall i :: 0 <= i < |segments| ==> segments[i].text != "")
    && (forall i :: 0 < i < |segments| ==> segments[i - 1].kind != segments[i].kind)
  }

  lemma PushKeepsNormal(segments: seq<Segment>, kind: Kind, text: string)
    requires Normal(segments)
    ensures Normal(Push(segments, kind, text))
  {
  }

  lemma {:induction false} CompressIsNormal(labels: seq<Label>)
    ensures Normal(Compress(labels))
  {
    if labels != [] {
      var last := labels[|labels| - 1];
      CompressIsNormal(labels[..|labels| - 1]);
      PushKeepsNormal(Compress(labels[..|labels| - 1]), last.0, [last.1]);
    }
  }

  // ----- The held-back suffix -----

  predicate HeldAt(value: string, tag: string, n: nat) {
    n < |tag| && n <= |value| && value[|value| - n..] == tag[..n]
  }

  /** `n` is the length of the longest suffix of `value` that is a proper prefix of `tag`. */
  ghost predicate IsLongestHeld(value: string, tag: string, n: nat) {
    HeldAt(value, tag, n) && forall m: nat :: HeldAt(value, tag, m) ==> m <= n
  }

  lemma {:induction false} LongestHeldExists(value: string, tag: string, limit: nat)
    requires tag != ""
    requires forall m: nat :: HeldAt(value, tag, m) ==> m <= limit
    ensures exists n: nat :: n <= |value| && IsLongestHeld(value, tag, n)
  {
    if limit == 0 {
      assert HeldAt(value, tag, 0);
      assert IsLongestHeld(value, tag, 0);
    } else if HeldAt(value, tag, limit) {
      assert IsLongestHeld(value, tag, limit);
    } else {
      LongestHeldExists(value, tag, limit - 1);
    }
  }

  /** How many characters at the end of `value` could still turn into `tag`. */
  ghost function LongestHeld(value: string, tag: string): (n: nat)
    requires tag != ""
    ensures n <= |value|
  {
    LongestHeldExists(value, tag, |value|);
    var n: nat :| n <= |value| && IsLongestHeld(value, tag, n);
    n
  }

  lemma LongestHeldIs(value: string, tag: string, n: nat)
    requires tag != ""
    ensures IsLongestHeld(value, tag, n) <==> LongestHeld(value, tag) == n
  {
    var l := LongestHeld(value, tag);
    LongestHeldExists(value, tag, |value|);
    assert IsLongestHeld(value, tag, l);
    if IsLongestHeld(value, tag, n) {
      assert HeldAt(value, tag, n) && HeldAt(value, tag, l);
    }
  }

  /** The countdown loop of `longestTagSuffixPrefix`. */
  method LongestTagSuffixPrefix(value: string, tag: string) returns (length: nat)
    requires tag != ""
    ensures IsLongestHeld(value, tag, length)
  {
    length := |value|;
    if |tag| - 1 < length {
      length := |tag| - 1;
    }
    while length > 0
      invariant length <= |value| && length < |tag|
      invariant forall m: nat :: HeldAt(value, tag, m) ==> m <= length
    {
      if value[|value| - length..] == tag[..length] {
        return;
      }
      length := length - 1;
    }
  }

  // ----- Looking for one tag -----

  /** Either the text before and after the first tag, or the part that is safe to emit and the
      held-back suffix. */
  datatype Scan = Found(before: string, after: string) | Absent(safe: string, held: string)

  ghost function ScanFor(text: string, tag: string): (r: Scan)
    requires tag != ""
    ensures r.Found? ==> |r.after| < |text|
    ensures r.Absent? ==> text == r.safe + r.held
  {
    match Index(text, tag)
    case Some(i) => Found(text[..i], text[i + |tag|..])
    case None =>
      var safe := |text| - LongestHeld(text, tag);
      Absent(text[..safe], text[safe..])
  }

  // ----- One-shot meaning -----

  ghost function SplitLabels(tags: TagPair, text: string, inThink: bool): seq<Label>
    decreases |text|
  {
    match ScanFor(text, tags.For(inThink))
    case Absent(_, _) => Paint(KindFor(inThink), text)
    case Found(before, after) => Paint(KindFor(inThink), before) + SplitLabels(tags, after, !inThink)
  }

  lemma NothingToScan(tags: TagPair, inThink: bool)
    ensures ScanFor("", tags.For(inThink)) == Absent("", "")
    ensures SplitLabels(tags, "", inThink) == []
  {
    hide IsLongestHeld;
    var tag := tags.For(inThink);
    assert forall j: nat :: !OccursAt("", tag, j);
    IndexIs("", tag, None);
    assert LongestHeld("", tag) == 0;
  }

  ghost function Split(tags: TagPair, text: string): seq<Segment> {
    Compress(SplitLabels(tags, text, false))
  }

  /** With `done` produced so far, splitting what is left ends up having produced `all`. */
  ghost predicate SplitLeads(tags: TagPair, rest: string, inThink: bool, done: seq<Label>, all: seq<Label>) {
    done + SplitLabels(tags, rest, inThink) == all
  }

  lemma SplitPastTag(tags: TagPair, rest: string, inThink: bool, done: seq<Label>, all: seq<Label>, i: nat)
    requires SplitLeads(tags, rest, inThink, done, all)
    requires Index(rest, tags.For(inThink)) == Some(i)
    ensures SplitLeads(tags, rest[i + |tags.For(inThink)|..], !inThink,
                       done + Paint(KindFor(inThink), rest[..i]), all)
  {
    hide Index, LongestHeld, Paint;
    var after := rest[i + |tags.For(inThink)|..];
    Associative(done, Paint(KindFor(inThink), rest[..i]), SplitLabels(tags, after, !inThink));
  }

  lemma SplitToEnd(tags: TagPair, rest: string, inThink: bool, done: seq<Label>, all: seq<Label>)
    requires SplitLeads(tags, rest, inThink, done, all)
    requires Index(rest, tags.For(inThink)).None?
    ensures done + Paint(KindFor(inThink), rest) == all
  {
    hide Index, LongestHeld, Paint;
  }

  lemma SplitOfNothing(tags: TagPair, inThink: bool, done: seq<Label>, all: seq<Label>)
    requires SplitLeads(tags, "", inThink, done, all)
    ensures done == all
  {
    hide SplitLabels, LongestHeld, Index;
    NothingToScan(tags, inThink);
    assert done + [] == done;
  }

  /** `splitThinkTaggedText`. */
  method SplitThinkTaggedText(tags: TagPair, text: string) returns (segments: seq<Segment>)
    ensures segments == Split(tags, text)
    ensures Normal(segments)
  {
    hide SplitLabels, Index, Push, Paint;
    segments := [];
    var cursor := 0;
    var inThink := false;
    ghost var done: seq<Label> := [];
    ghost var all := SplitLabels(tags, text, false);
    assert text[0..] == text && done + all == all && Compress(done) == [];
    assert SplitLeads(tags, text, false, done, all);
    hide Compress, SplitLeads;
    while cursor < |text|
      invariant cursor <= |text|
      invariant segments == Compress(done)
      invariant SplitLeads(tags, text[cursor..], inThink, done, all)
    {
      var tag := tags.For(inThink);
      var rest := text[cursor..];
      var idx := Index(rest, tag);
      if idx.None? {
        SplitToEnd(tags, rest, inThink, done, all);
        CompressPaint(done, KindFor(inThink), rest);
        segments := Push(segments, KindFor(inThink), rest);
        CompressIsNormal(all);
        return;
      }
      var before := rest[..idx.value];
      SplitPastTag(tags, rest, inThink, done, all, idx.value);
      CompressPaint(done, KindFor(inThink), before);
      done := done + Paint(KindFor(inThink), before);
      segments := Push(segments, KindFor(inThink), before);
      assert rest[idx.value + |tag|..] == text[cursor + idx.value + |tag|..];
      cursor := cursor + idx.value + |tag|;
      inThink := !inThink;
    }
    assert text[cursor..] == "";
    SplitOfNothing(tags, inThink, done, all);
    CompressIsNormal(all);
  }

  // ----- Incremental meaning -----

  /** What one `consume` call does to a buffer that already holds the new chunk: the labels it
      emits and the state it leaves. */
  ghost function Drain(tags: TagPair, p: Parser): (seq<Label>, Parser)
    decreases |p.buffer|
  {
    match ScanFor(p.buffer, tags.For(p.inThink))
    case Absent(safe, held) => (Paint(KindFor(p.inThink), safe), p.(buffer := held))
    case Found(before, after) =>
      var (labels, q) := Drain(tags, Parser(after, !p.inThink));
      (Paint(KindFor(p.inThink), before) + labels, q)
  }

  /** A tag found in a buffer stays the first one whatever follows. */
  lemma IndexStable(text: string, tag: string, rest: string)
    requires Index(text, tag).Some?
    ensures Index(text + rest, tag) == Index(text, tag)
  {
    var r := Index(text, tag);
    IndexIs(text, tag, r);
    forall j: nat | j <= r.value
      ensures OccursAt(text + rest, tag, j) <==> OccursAt(text, tag, j)
    {
      OccursBefore(text, rest, tag, j);
    }
    IndexIs(text + rest, tag, r);
  }

  /** A tag that starts in `value` and ends beyond it leaves a held suffix behind. */
  lemma StraddlingTagIsHeld(value: string, tag: string, rest: string, j: nat)
    requires j < |value| < j + |tag|
    requires OccursAt(value + rest, tag, j)
    ensures HeldAt(value, tag, |value| - j)
  {
    assert (value + rest)[j..] == value[j..] + rest;
    assert tag[..|value| - j] == value[j..];
  }

  /** Nothing before the held suffix can start a tag, whatever follows. */
  lemma SafeStaysSafe(value: string, tag: string, rest: string, safe: nat, j: nat)
    requires tag != "" && Index(value, tag).None?
    requires j < safe == |value| - LongestHeld(value, tag)
    ensures !OccursAt(value + rest, tag, j)
  {
    if j + |tag| <= |value| {
      OccursBefore(value, rest, tag, j);
      IndexIs(value, tag, None);
    } else {
      LongestHeldIs(value, tag, |value| - safe);
      assert !HeldAt(value, tag, |value| - j);
      if OccursAt(value + rest, tag, j) {
        StraddlingTagIsHeld(value, tag, rest, j);
      }
    }
  }

  function Shifted(r: Option<nat>, offset: nat): Option<nat> {
    match r
    case None => None
    case Some(i) => Some(offset + i)
  }

  /** The search may skip the safe part of a tag-free buffer. */
  lemma IndexSkipsSafe(value: string, tag: string, rest: string, safe: nat)
    requires tag != "" && Index(value, tag).None?
    requires safe == |value| - LongestHeld(value, tag)
    ensures Index(value + rest, tag) == Shifted(Index(value[safe..] + rest, tag), safe)
  {
    var whole, tail := value + rest, value[safe..] + rest;
    assert whole[safe..] == tail;
    var r := Index(tail, tag);
    IndexIs(tail, tag, r);
    forall j: nat | r.None? || j < safe + r.value
      ensures !OccursAt(whole, tag, j)
    {
      if j < safe {
        SafeStaysSafe(value, tag, rest, safe, j);
      } else {
        OccursInDrop(whole, tag, safe, j - safe);
      }
    }
    if r.Some? {
      OccursInDrop(whole, tag, safe, r.value);
    }
    IndexIs(whole, tag, Shifted(r, safe));
  }

  lemma HeldWithout(value: string, tag: string, rest: string, n: nat)
    requires HeldAt(value + rest, tag, n) && n >= |rest|
    ensures HeldAt(value, tag, n - |rest|)
  {
    var k := n - |rest|;
    assert (value + rest)[|value + rest| - n..] == value[|value| - k..] + rest;
    assert tag[..n][..k] == tag[..k];
  }

  lemma HeldInTail(value: string, tag: string, rest: string, safe: nat, n: nat)
    requires safe <= |value| && n <= |value| - safe + |rest|
    ensures HeldAt(value + rest, tag, n) <==> HeldAt(value[safe..] + rest, tag, n)
  {
    var whole, tail := value + rest, value[safe..] + rest;
    assert whole[safe..] == tail;
    assert whole[|whole| - n..] == tail[|tail| - n..];
  }

  /** A longer text's held suffix does not reach back into the safe part. */
  lemma HeldSkipsSafe(value: string, tag: string, rest: string, safe: nat)
    requires tag != "" && safe == |value| - LongestHeld(value, tag)
    ensures LongestHeld(value + rest, tag) == LongestHeld(value[safe..] + rest, tag)
  {
    hide HeldAt;
    var m := LongestHeld(value[safe..] + rest, tag);
    LongestHeldIs(value, tag, |value| - safe);
    LongestHeldIs(value[safe..] + rest, tag, m);
    HeldInTail(value, tag, rest, safe, m);
    forall n: nat | HeldAt(value + rest, tag, n)
      ensures n <= m
    {
      if n >= |rest| {
        HeldWithout(value, tag, rest, n);
      }
      HeldInTail(value, tag, rest, safe, n);
    }
    LongestHeldIs(value + rest, tag, m);
  }

  function Prepend(safe: string, s: Scan): Scan {
    match s
    case Found(before, after) => Found(safe + before, after)
    case Absent(more, held) => Absent(safe + more, held)
  }

  lemma ScanFound(text: string, tag: string, rest: string)
    requires tag != "" && ScanFor(text, tag).Found?
    ensures ScanFor(text + rest, tag) ==
            Found(ScanFor(text, tag).before, ScanFor(text, tag).after + rest)
  {
    var i := Index(text, tag).value;
    IndexStable(text, tag, rest);
    assert (text + rest)[..i] == text[..i];
    assert (text + rest)[i + |tag|..] == text[i + |tag|..] + rest;
  }

  lemma SlicesOfSum(a: string, b: string, cut: nat, skip: nat)
    requires cut <= skip <= |b|
    ensures (a + b)[..|a| + cut] == a + b[..cut]
    ensures (a + b)[|a| + skip..] == b[skip..]
  {
  }

  /** Searching a longer text is searching the held suffix and what follows it. */
  lemma ScanAbsent(text: string, tag: string, rest: string)
    requires tag != "" && ScanFor(text, tag).Absent?
    ensures var Absent(safe, held) := ScanFor(text, tag);
            ScanFor(text + rest, tag) == Prepend(safe, ScanFor(held + rest, tag))
  {
    var Absent(safe, held) := ScanFor(text, tag);
    var tail := held + rest;
    assert text + rest == safe + tail;
    IndexSkipsSafe(text, tag, rest, |safe|);
    if Index(tail, tag).Some? {
      var i := Index(tail, tag).value;
      SlicesOfSum(safe, tail, i, i + |tag|);
    } else {
      HeldSkipsSafe(text, tag, rest, |safe|);
      var cut := |tail| - LongestHeld(tail, tag);
      SlicesOfSum(safe, tail, cut, cut);
    }
  }

  /** Draining in two goes is draining at once. */
  lemma {:induction false} DrainChunked(tags: TagPair, p: Parser, chunk: string)
    ensures
      var (first, q) := Drain(tags, p);
      var (second, r) := Drain(tags, Parser(q.buffer + chunk, q.inThink));
      Drain(tags, Parser(p.buffer + chunk, p.inThink)) == (first + second, r)
    decreases |p.buffer|
  {
    var tag, kind := tags.For(p.inThink), KindFor(p.inThink);
    var (second, r) := Drain(tags, Parser(Drain(tags, p).1.buffer + chunk, Drain(tags, p).1.inThink));
    match ScanFor(p.buffer, tag)
    case Found(before, after) =>
      ScanFound(p.buffer, tag, chunk);
      DrainChunked(tags, Parser(after, !p.inThink), chunk);
      Associative(Paint(kind, before), Drain(tags, Parser(after, !p.inThink)).0, second);
    case Absent(safe, held) =>
      ScanAbsent(p.buffer, tag, chunk);
      match ScanFor(held + chunk, tag) {
        case Found(before, after) =>
          PaintAppend(kind, safe, before);
          Associative(Paint(kind, safe), Paint(kind, before), Drain(tags, Parser(after, !p.inThink)).0);
        case Absent(more, _) => PaintAppend(kind, safe, more);
      }
  }

  /** Splitting is draining and then flushing what is held. */
  lemma {:induction false} SplitIsDrainThenFlush(tags: TagPair, text: string, inThink: bool)
    ensures
      var (labels, q) := Drain(tags, Parser(text, inThink));
      SplitLabels(tags, text, inThink) == labels + Paint(KindFor(q.inThink), q.buffer)
    decreases |text|
  {
    match ScanFor(text, tags.For(inThink))
    case Found(before, after) =>
      SplitIsDrainThenFlush(tags, after, !inThink);
      var (labels, q) := Drain(tags, Parser(after, !inThink));
      Associative(Paint(KindFor(inThink), before), labels, Paint(KindFor(q.inThink), q.buffer));
    case Absent(safe, held) =>
      PaintAppend(KindFor(inThink), safe, held);
  }

  /** What has been emitted is final, and the held buffer stands for everything else. */
  lemma {:induction false} SplitContinues(tags: TagPair, text: string, inThink: bool, rest: string)
    ensures
      var (labels, q) := Drain(tags, Parser(text, inThink));
      SplitLabels(tags, text + rest, inThink) == labels + SplitLabels(tags, q.buffer + rest, q.inThink)
  {
    var (labels, q) := Drain(tags, Parser(text, inThink));
    DrainChunked(tags, Parser(text, inThink), rest);
    SplitIsDrainThenFlush(tags, text + rest, inThink);
    SplitIsDrainThenFlush(tags, q.buffer + rest, q.inThink);
    var (more, r) := Drain(tags, Parser(q.buffer + rest, q.inThink));
    Associative(labels, more, Paint(KindFor(r.inThink), r.buffer));
  }

  /** With `done` emitted so far, draining `p` ends up having emitted `all` in state `end`. */
  ghost predicate Leads(tags: TagPair, p: Parser, done: seq<Label>, all: seq<Label>, end: Parser) {
    var (labels, q) := Drain(tags, p);
    done + labels == all && q == end
  }

  lemma LeadsPastTag(tags: TagPair, p: Parser, done: seq<Label>, all: seq<Label>, end: Parser, i: nat)
    requires Leads(tags, p, done, all, end)
    requires Index(p.buffer, tags.For(p.inThink)) == Some(i)
    ensures Leads(tags, Parser(p.buffer[i + |tags.For(p.inThink)|..], !p.inThink),
                  done + Paint(KindFor(p.inThink), p.buffer[..i]), all, end)
  {
    var after := p.buffer[i + |tags.For(p.inThink)|..];
    Associative(done, Paint(KindFor(p.inThink), p.buffer[..i]), Drain(tags, Parser(after, !p.inThink)).0);
  }

  lemma LeadsToHeld(tags: TagPair, p: Parser, done: seq<Label>, all: seq<Label>, end: Parser, held: nat)
    requires Leads(tags, p, done, all, end)
    requires Index(p.buffer, tags.For(p.inThink)).None?
    requires IsLongestHeld(p.buffer, tags.For(p.inThink), held)
    ensures held <= |p.buffer|
    ensures done + Paint(KindFor(p.inThink), p.buffer[..|p.buffer| - held]) == all
    ensures Parser(p.buffer[|p.buffer| - held..], p.inThink) == end
  {
    LongestHeldIs(p.buffer, tags.For(p.inThink), held);
  }

  lemma LeadsNowhere(tags: TagPair, p: Parser, done: seq<Label>, all: seq<Label>, end: Parser)
    requires Leads(tags, p, done, all, end) && p.buffer == ""
    ensures done == all && p == end
  {
    NothingToScan(tags, p.inThink);
    assert Paint(KindFor(p.inThink), "") == [];
  }

  // ----- Whole streams of chunks -----

  /** The state after feeding `chunks` one `consume` at a time, and every segment returned so far. */
  ghost function Feed(tags: TagPair, start: Parser, chunks: seq<string>): (seq<Segment>, Parser) {
    if chunks == [] then ([], start)
    else
      var (segments, p) := Feed(tags, start, chunks[..|chunks| - 1]);
      var (labels, q) := Drain(tags, Parser(p.buffer + chunks[|chunks| - 1], p.inThink));
      (segments + Compress(labels), q)
  }

  lemma FeedSnoc(tags: TagPair, start: Parser, chunks: seq<string>, chunk: string)
    ensures
      var (segments, p) := Feed(tags, start, chunks);
      var (labels, q) := Drain(tags, Parser(p.buffer + chunk, p.inThink));
      Feed(tags, start, chunks + [chunk]) == (segments + Compress(labels), q)
  {
    assert (chunks + [chunk])[..|chunks|] == chunks;
  }

  /** What `flush` returns. */
  function FlushOf(p: Parser): seq<Segment> {
    Push([], KindFor(p.inThink), p.buffer)
  }

  /** How the text was cut into chunks shows neither in the state nor in what was emitted. */
  lemma {:induction false} FeedIsDrain(tags: TagPair, start: Parser, chunks: seq<string>)
    requires Drain(tags, start) == ([], start)
    ensures
      var (segments, p) := Feed(tags, start, chunks);
      Drain(tags, Parser(start.buffer + Concat(chunks), start.inThink)) == (Labels(segments), p)
  {
    hide Drain, Compress;
    if chunks == [] {
      assert start.buffer + Concat(chunks) == start.buffer;
    } else {
      var front, last := chunks[..|chunks| - 1], chunks[|chunks| - 1];
      FeedIsDrain(tags, start, front);
      var (segments, p) := Feed(tags, start, front);
      var (labels, q) := Drain(tags, Parser(p.buffer + last, p.inThink));
      var before := Parser(start.buffer + Concat(front), start.inThink);
      DrainChunked(tags, before, last);
      assert before.buffer + last == start.buffer + Concat(chunks);
      LabelsAppend(segments, Compress(labels));
      LabelsOfCompress(labels);
    }
  }

  lemma DrainOfNothing(tags: TagPair, inThink: bool)
    ensures Drain(tags, Parser("", inThink)) == ([], Parser("", inThink))
  {
    NothingToScan(tags, inThink);
    assert Paint(KindFor(inThink), "") == [];
  }

  /** The incremental form refines the one-shot form, for every text and every way of cutting it:
      the segments of all the `consume` calls and of the final `flush`, merged, are the segments of
      the concatenated text. */
  lemma {:induction false} ChunkingDoesNotMatter(tags: TagPair, chunks: seq<string>)
    ensures
      var (segments, p) := Feed(tags, Parser("", false), chunks);
      Coalesce(segments + FlushOf(p)) == Split(tags, Concat(chunks))
  {
    var (segments, p) := Feed(tags, Parser("", false), chunks);
    DrainOfNothing(tags, false);
    FeedIsDrain(tags, Parser("", false), chunks);
    assert "" + Concat(chunks) == Concat(chunks);
    SplitIsDrainThenFlush(tags, Concat(chunks), false);
    CoalesceIsCompress(segments + FlushOf(p));
    LabelsAppend(segments, FlushOf(p));
    LabelsOfPush([], KindFor(p.inThink), p.buffer);
    assert Labels([]) + Paint(KindFor(p.inThink), p.buffer) == Paint(KindFor(p.inThink), p.buffer);
  }

  /** The text behind the last complete tag, and whether it lies inside a think block. */
  ghost function Residue(tags: TagPair, text: string, inThink: bool): (string, bool)
    decreases |text|
  {
    match ScanFor(text, tags.For(inThink))
    case Absent(_, _) => (text, inThink)
    case Found(_, after) => Residue(tags, after, !inThink)
  }

  lemma HeldHasNoTag(text: string, tag: string, safe: nat)
    requires Index(text, tag).None? && safe <= |text|
    ensures Index(text[safe..], tag).None?
  {
    hide Index, OccursAt;
    IndexIs(text, tag, None);
    forall j: nat
      ensures !OccursAt(text[safe..], tag, j)
    {
      OccursInDrop(text, tag, safe, j);
    }
    IndexIs(text[safe..], tag, None);
  }

  /** The buffer holds exactly the longest end of the text behind the last complete tag that could
      still become the current tag, and no complete tag. */
  lemma {:induction false} BufferIsLongestHeld(tags: TagPair, text: string, inThink: bool)
    ensures
      var (_, p) := Drain(tags, Parser(text, inThink));
      var (residue, within) := Residue(tags, text, inThink);
      && p.inThink == within
      && IsLongestHeld(residue, tags.For(within), |p.buffer|)
      && p.buffer == residue[|residue| - |p.buffer|..]
      && Index(p.buffer, tags.For(within)).None?
    decreases |text|
  {
    hide IsLongestHeld, LongestHeld, Index, Paint;
    match ScanFor(text, tags.For(inThink))
    case Found(_, after) => BufferIsLongestHeld(tags, after, !inThink);
    case Absent(safe, held) =>
      LongestHeldIs(text, tags.For(inThink), |held|);
      HeldHasNoTag(text, tags.For(inThink), |safe|);
  }

  /** Holding back is sound and minimal: what has been emitted after reading `text` is exactly the
      longest output that every continuation of `text` starts with. */
  lemma {:induction false} HoldbackIsSoundAndMinimal(tags: TagPair, text: string, inThink: bool, output: seq<Label>)
    ensures
      output <= Drain(tags, Parser(text, inThink)).0 <==>
      forall rest: string :: output <= SplitLabels(tags, text + rest, inThink)
  {
    var (emitted, p) := Drain(tags, Parser(text, inThink));
    forall rest: string
      ensures emitted <= SplitLabels(tags, text + rest, inThink)
    {
      SplitContinues(tags, text, inThink, rest);
    }
    var rest := CompletingTag(tags, text, inThink);
    SplitContinues(tags, text, inThink, rest);
    assert SplitLabels(tags, text + rest, inThink) == emitted;
    assert forall rest: string :: output <= emitted ==> output <= SplitLabels(tags, text + rest, inThink);
  }

  lemma CompletingTag(tags: TagPair, text: string, inThink: bool) returns (rest: string)
    ensures
      var (_, p) := Drain(tags, Parser(text, inThink));
      p.buffer + rest == tags.For(p.inThink) && SplitLabels(tags, p.buffer + rest, p.inThink) == []
  {
    hide Drain, Residue, SplitLabels, Index;
    var (_, p) := Drain(tags, Parser(text, inThink));
    var tag, n := tags.For(p.inThink), |p.buffer|;
    BufferIsLongestHeld(tags, text, inThink);
    assert p.buffer == tag[..n];
    rest := tag[n..];
    assert p.buffer + rest == tag;
    TagAlone(tags, p.inThink);
  }

  /** A tag and nothing else is no text at all. */
  lemma TagAlone(tags: TagPair, inThink: bool)
    ensures SplitLabels(tags, tags.For(inThink), inThink) == []
  {
    var tag := tags.For(inThink);
    assert tag[0..] == tag;
    IndexIs(tag, tag, Some(0));
    assert tag[..0] == "" && tag[0 + |tag|..] == "";
    hide LongestHeld;
    NothingToScan(tags, !inThink);
    assert Paint(KindFor(inThink), "") == [];
  }

  lemma NothingToFind(text: string, tag: string)
    requires tag != "" && tag[0] !in text
    ensures Index(text, tag) == None && LongestHeld(text, tag) == 0
  {
    forall j: nat
      ensures !OccursAt(text, tag, j)
    {
      assert j < |text| ==> text[j] in text && text[j..][0] == text[j];
    }
    IndexIs(text, tag, None);
    NothingHeld(text, tag);
  }

  lemma NothingHeld(text: string, tag: string)
    requires tag != "" && tag[0] !in text
    ensures LongestHeld(text, tag) == 0
  {
    forall n: nat | n > 0
      ensures !HeldAt(text, tag, n)
    {
      assert n <= |text| ==> text[|text| - n] in text && text[|text| - n..][0] == text[|text| - n];
      assert n <= |tag| ==> tag[..n][0] == tag[0];
    }
    assert HeldAt(text, tag, 0);
    LongestHeldIs(text, tag, 0);
  }

  /** Nothing but complete tags, each the one that is due, and at most the beginning of a further one. */
  predicate TagsOnly(tags: TagPair, text: string, inThink: bool)
    decreases |text|
  {
    var tag := tags.For(inThink);
    if tag <= text then TagsOnly(tags, text[|tag|..], !inThink) else text <= tag
  }

  lemma TagInFront(text: string, tag: string)
    requires tag != ""
    ensures Index(text, tag) == Some(0) <==> tag <= text
    ensures Index(text, tag).Some? && Index(text, tag).value > 0 ==> !(text <= tag)
  {
    assert text[0..] == text;
    IndexIs(text, tag, Some(0));
  }

  lemma AllHeld(text: string, tag: string)
    requires tag != "" && !(tag <= text)
    ensures LongestHeld(text, tag) == |text| <==> text <= tag
  {
    assert text[0..] == text;
    if text <= tag {
      assert HeldAt(text, tag, |text|);
      LongestHeldIs(text, tag, |text|);
    } else {
      LongestHeldIs(text, tag, LongestHeld(text, tag));
    }
  }

  lemma PaintedLength(kind: Kind, text: string)
    ensures |Paint(kind, text)| == |text|
  {
  }

  /** When a drain is silent, one tag at a time. */
  lemma DrainIsSilent(tags: TagPair, text: string, inThink: bool)
    ensures
      var tag := tags.For(inThink);
      Drain(tags, Parser(text, inThink)).0 == [] <==>
      match Index(text, tag)
      case Some(i) => i == 0 && Drain(tags, Parser(text[i + |tag|..], !inThink)).0 == []
      case None => LongestHeld(text, tag) == |text|
  {
    hide Index, LongestHeld, Paint;
    var tag := tags.For(inThink);
    match Index(text, tag)
    case Some(i) => PaintedLength(KindFor(inThink), text[..i]);
    case None => PaintedLength(KindFor(inThink), text[..|text| - LongestHeld(text, tag)]);
  }

  lemma SilentPastTag(tags: TagPair, text: string, inThink: bool)
    requires tags.For(inThink) <= text
    ensures Drain(tags, Parser(text, inThink)).0 == [] <==>
            Drain(tags, Parser(text[|tags.For(inThink)|..], !inThink)).0 == []
  {
    hide Index, LongestHeld, Drain;
    TagInFront(text, tags.For(inThink));
    DrainIsSilent(tags, text, inThink);
  }

  lemma SilentBeforeTag(tags: TagPair, text: string, inThink: bool)
    requires !(tags.For(inThink) <= text)
    ensures Drain(tags, Parser(text, inThink)).0 == [] <==> text <= tags.For(inThink)
  {
    hide Index, LongestHeld, Drain;
    TagInFront(text, tags.For(inThink));
    DrainIsSilent(tags, text, inThink);
    AllHeld(text, tags.For(inThink));
  }

  lemma TagsOnlyPastTag(tags: TagPair, text: string, inThink: bool)
    requires tags.For(inThink) <= text
    ensures TagsOnly(tags, text, inThink) <==> TagsOnly(tags, text[|tags.For(inThink)|..], !inThink)
  {
  }

  /** A parser that holds nothing emits nothing for a text exactly when the text is tags only. */
  lemma {:induction false} SilentExactlyWhenTagsOnly(tags: TagPair, text: string, inThink: bool)
    ensures Drain(tags, Parser(text, inThink)).0 == [] <==> TagsOnly(tags, text, inThink)
    decreases |text|
  {
    if tags.For(inThink) <= text {
      SilentPastTag(tags, text, inThink);
      TagsOnlyPastTag(tags, text, inThink);
      hide Drain, TagsOnly;
      SilentExactlyWhenTagsOnly(tags, text[|tags.For(inThink)|..], !inThink);
    } else {
      hide Drain;
      SilentBeforeTag(tags, text, inThink);
    }
  }

  lemma TaglessIsMoreThanTags(text: string, inThink: bool)
    requires text != "" && '<' !in text
    ensures !TagsOnly(THINK_TAGS, text, inThink)
  {
    var tag := THINK_TAGS.For(inThink);
    assert tag[0] == '<' && text[0] in text;
  }

  /** Text without any "<" is emitted at once, and as it is. */
  lemma TaglessText(text: string)
    requires '<' !in text
    ensures Drain(THINK_TAGS, Parser(text, false)) == (Paint(Message, text), Parser("", false))
    ensures Split(THINK_TAGS, text) == if text == "" then [] else [Segment(Message, text)]
  {
    hide Index, LongestHeld, Compress, Paint;
    assert THINK_TAGS.For(false)[0] == '<';
    NothingToFind(text, THINK_TAGS.For(false));
    assert text[..|text|] == text && text[|text|..] == "";
    CompressPaint([], Message, text);
    NothingCompressed();
    assert [] + Paint(Message, text) == Paint(Message, text);
  }

  lemma NothingCompressed()
    ensures Compress([]) == []
  {
  }

  // ----- What goes where -----

  /** The pieces with the tags that are due between them, beginning inside or outside a block. */
  function Joined(tags: TagPair, pieces: seq<string>, inside: bool): string
    requires pieces != []
  {
    if |pieces| == 1 then pieces[0]
    else pieces[0] + tags.For(inside) + Joined(tags, pieces[1..], !inside)
  }

  /** Message and reasoning in turn. */
  function Alternating(pieces: seq<string>, inside: bool): seq<Segment> {
    if pieces == [] then []
    else [if inside then Segment(Reasoning, pieces[0]) else Segment(Message, pieces[0])]
         + Alternating(pieces[1..], !inside)
  }

  /** No piece holds the tag that would end it. */
  predicate TagFree(tags: TagPair, pieces: seq<string>, inside: bool) {
    pieces != [] ==> Index(pieces[0], tags.For(inside)).None? && TagFree(tags, pieces[1..], !inside)
  }

  /** A tag cannot overlap itself. */
  predicate Borderless(tag: string) {
    tag != "" && tag[0] !in tag[1..]
  }

  /** Behind a text without it, a tag is found where it stands. */
  lemma TagAfter(text: string, tag: string, rest: string)
    requires Borderless(tag) && Index(text, tag).None?
    ensures Index(text + tag + rest, tag) == Some(|text|)
  {
    var all := text + tag + rest;
    hide Index;
    IndexIs(text, tag, None);
    assert all[|text|..] == tag + rest;
    forall j: nat | j < |text|
      ensures !OccursAt(all, tag, j)
    {
      if j + |tag| <= |text| {
        assert all == text + (tag + rest);
        OccursBefore(text, tag + rest, tag, j);
      } else {
        assert all[|text|] == tag[0] && all[j..][|text| - j] == all[|text|];
        assert tag[|text| - j] == tag[1..][|text| - j - 1];
      }
    }
    IndexIs(all, tag, Some(|text|));
  }

  lemma {:induction false} PiecesPaint(tags: TagPair, pieces: seq<string>, inside: bool)
    requires Borderless(tags.open) && Borderless(tags.close)
    requires pieces != [] && TagFree(tags, pieces, inside)
    ensures SplitLabels(tags, Joined(tags, pieces, inside), inside) == Labels(Alternating(pieces, inside))
    decreases |pieces|
  {
    hide Index, LongestHeld, Paint, Labels, Borderless;
    var tag, first, rest := tags.For(inside), pieces[0], pieces[1..];
    var head := [if inside then Segment(Reasoning, first) else Segment(Message, first)];
    OnePainted(head[0]);
    LabelsAppend(head, Alternating(rest, !inside));
    if rest == [] {
      assert head + [] == head;
    } else {
      var after := Joined(tags, rest, !inside);
      var all := first + tag + after;
      TagAfter(first, tag, after);
      assert all[..|first|] == first && all[|first| + |tag|..] == after;
      PiecesPaint(tags, rest, !inside);
    }
  }

  lemma OnePainted(segment: Segment)
    ensures Labels([segment]) == Paint(segment.kind, segment.text)
  {
    assert [segment][..0] == [];
    assert Labels([]) + Paint(segment.kind, segment.text) == Paint(segment.kind, segment.text);
  }

  /** Pieces with opening and closing tags between them, in turn, split into a message, the reasoning of the
      first block, a message, and so on. */
  lemma {:induction false} PiecesAlternate(tags: TagPair, pieces: seq<string>)
    requires Borderless(tags.open) && Borderless(tags.close)
    requires pieces != [] && TagFree(tags, pieces, false)
    ensures Split(tags, Joined(tags, pieces, false)) == Coalesce(Alternating(pieces, false))
  {
    hide SplitLabels, TagFree, Joined, Alternating, Labels, Coalesce, Compress;
    PiecesPaint(tags, pieces, false);
    CoalesceIsCompress(Alternating(pieces, false));
  }

  /** Text, a think block and text again. */
  lemma ThinkBlockSplits(a: string, b: string, c: string)
    requires '<' !in a && '<' !in b && '<' !in c
    ensures Split(THINK_TAGS, a + "<think>" + b + "</think>" + c) ==
            Coalesce([Segment(Message, a), Segment(Reasoning, b), Segment(Message, c)])
  {
    var pieces := [a, b, c];
    assert pieces[1..] == [b, c] && [b, c][1..] == [c] && [c][1..] == [];
    assert THINK_TAGS.open == "<think>" && THINK_TAGS.close == "</think>";
    ThinkTagsAreBorderless();
    hide Split, Coalesce, Index, Borderless;
    NothingToFind(a, THINK_TAGS.open);
    NothingToFind(b, THINK_TAGS.close);
    NothingToFind(c, THINK_TAGS.open);
    ThreePieces(THINK_TAGS, a, b, c);
    PiecesAlternate(THINK_TAGS, pieces);
  }

  lemma ThinkTagsAreBorderless()
    ensures Borderless(THINK_TAGS.open) && Borderless(THINK_TAGS.close)
    ensures THINK_TAGS.open[0] == '<' == THINK_TAGS.close[0]
  {
  }

  lemma ThreePieces(tags: TagPair, a: string, b: string, c: string)
    ensures Joined(tags, [a, b, c], false) == a + tags.open + b + tags.close + c
    ensures Alternating([a, b, c], false) == [Segment(Message, a), Segment(Reasoning, b), Segment(Message, c)]
    ensures TagFree(tags, [a, b, c], false) <==>
            Index(a, tags.open).None? && Index(b, tags.close).None? && Index(c, tags.open).None?
  {
    hide Index;
    assert [a, b, c][1..] == [b, c] && [b, c][1..] == [c] && [c][1..] == [];
    assert TagFree(tags, [c], false) <==> Index(c, tags.open).None?;
    assert TagFree(tags, [b, c], true) <==> Index(b, tags.close).None? && TagFree(tags, [c], false);
    assert Joined(tags, [b, c], true) == b + tags.close + c;
    assert a + tags.open + (b + tags.close + c) == a + tags.open + b + tags.close + c;
    assert Alternating([c], false) == [Segment(Message, c)];
    assert Alternating([b, c], true) == [Segment(Reasoning, b), Segment(Message, c)];
  }

  // ----- The incremental parser -----

  /** `thinkTagParser`. */
  class ThinkTagParser {
    const tags: TagPair
    var buffer: string
    var inThink: bool

    function State(): Parser
      reads this
    {
      Parser(buffer, inThink)
    }

    constructor ()
      ensures tags == THINK_TAGS && State() == Parser("", false)
    {
      tags := THINK_TAGS;
      buffer, inThink := "", false;
    }

    method Consume(chunk: string) returns (segments: seq<Segment>)
      modifies this
      ensures
        var (labels, q) := Drain(tags, Parser(old(buffer) + chunk, old(inThink)));
        segments == Compress(labels) && State() == q
    {
      hide IsLongestHeld, Drain, Index, Push, Paint;
      segments := [];
      buffer := buffer + chunk;
      ghost var p, done: seq<Label> := State(), [];
      ghost var (all, end) := Drain(tags, p);
      assert done + all == all;
      assert Leads(tags, p, done, all, end) && Compress(done) == [];
      hide Compress, Leads;
      while |buffer| > 0
        invariant State() == p && segments == Compress(done)
        invariant Leads(tags, p, done, all, end)
        decreases |buffer|
      {
        var tag := tags.For(inThink);
        var idx := Index(buffer, tag);
        if idx.Some? {
          var before := buffer[..idx.value];
          LeadsPastTag(tags, p, done, all, end, idx.value);
          CompressPaint(done, KindFor(inThink), before);
          done := done + Paint(KindFor(inThink), before);
          segments := Push(segments, KindFor(inThink), before);
          buffer := buffer[idx.value + |tag|..];
          inThink := !inThink;
          p := State();
          continue;
        }
        var held := LongestTagSuffixPrefix(buffer, tag);
        LeadsToHeld(tags, p, done, all, end, held);
        var safe := buffer[..|buffer| - held];
        CompressPaint(done, KindFor(inThink), safe);
        segments := Push(segments, KindFor(inThink), safe);
        buffer := buffer[|buffer| - held..];
        return;
      }
      LeadsNowhere(tags, p, done, all, end);
    }

    method Flush() returns (segments: seq<Segment>)
      modifies this
      ensures segments == FlushOf(old(State()))
      ensures State() == Parser("", old(inThink))
    {
      segments := Push([], KindFor(inThink), buffer);
      buffer := "";
    }
  }
}
