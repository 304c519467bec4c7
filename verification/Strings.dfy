/** Strings and the few standard-library operations the relay leans on.  A Go string is a
    sequence of bytes; here one `char` stands for one byte. */
module Strings {
  datatype Option<+T> = None | Some(value: T)

  predicate OccursAt(text: string, tag: string, i: nat) {
    i <= |text| && tag <= text[i..]
  }

  lemma OccursInDrop(text: string, tag: string, from: nat, i: nat)
    requires from <= |text|
    ensures OccursAt(text[from..], tag, i) <==> OccursAt(text, tag, from + i)
  {
    if from + i <= |text| {
      assert text[from..][i..] == text[from + i..];
    }
  }

  lemma OccursBefore(text: string, rest: string, tag: string, i: nat)
    requires i + |tag| <= |text|
    ensures OccursAt(text + rest, tag, i) <==> OccursAt(text, tag, i)
  {
    assert (text + rest)[i..] == text[i..] + rest;
    assert (text[i..] + rest)[..|tag|] == text[i..][..|tag|];
  }

  /** `r` is the first occurrence of `tag` in `text`, or says that there is none. */
  ghost predicate IsFirst(text: string, tag: string, r: Option<nat>) {
    match r
    case None => forall j: nat :: !OccursAt(text, tag, j)
    case Some(i) => OccursAt(text, tag, i) && forall j: nat :: j < i ==> !OccursAt(text, tag, j)
  }

  /** Go's `strings.Index`. */
  function Index(text: string, tag: string): (r: Option<nat>)
    ensures r.Some? ==> r.value + |tag| <= |text|
  {
    IndexFrom(text, tag, 0)
  }

  function IndexFrom(text: string, tag: string, from: nat): (r: Option<nat>)
    requires from <= |text|
    ensures r.Some? ==> from <= r.value && r.value + |tag| <= |text|
    decreases |text| - from
  {
    if tag <= text[from..] then Some(from)
    else if from == |text| then None
    else IndexFrom(text, tag, from + 1)
  }

  lemma {:induction false} IndexFromIsFirst(text: string, tag: string, from: nat)
    requires from <= |text|
    requires forall j: nat :: j < from ==> !OccursAt(text, tag, j)
    ensures IsFirst(text, tag, IndexFrom(text, tag, from))
    decreases |text| - from
  {
    if !OccursAt(text, tag, from) && from < |text| {
      IndexFromIsFirst(text, tag, from + 1);
    }
  }

  /** The search finds the first occurrence, and there is only one first occurrence. */
  lemma IndexIs(text: string, tag: string, r: Option<nat>)
    ensures IsFirst(text, tag, r) <==> Index(text, tag) == r
  {
    IndexFromIsFirst(text, tag, 0);
    var s := Index(text, tag);
    match (r, s)
    case (Some(i), Some(j)) =>
      assert IsFirst(text, tag, r) ==> i == j;
    case _ =>
  }

  predicate IsSpace(c: char) {
    c == ' ' || '\t' <= c <= '\r'
  }

  /** Blank, tab, line feed, vertical tab, form feed and carriage return. */
  lemma SpacesAre(c: char)
    ensures IsSpace(c) <==> c as int in {0x20, 0x09, 0x0A, 0x0B, 0x0C, 0x0D}
  {
  }

  /** `strings.TrimSpace`, for ASCII white space. */
  function TrimSpace(s: string): string {
    if s != "" && IsSpace(s[0]) then TrimSpace(s[1..])
    else if s != "" && IsSpace(s[|s| - 1]) then TrimSpace(s[..|s| - 1])
    else s
  }

  predicate AllSpace(s: string) {
    forall i :: 0 <= i < |s| ==> IsSpace(s[i])
  }

  lemma SpaceGrows(s: string, c: char)
    requires AllSpace(s)
    ensures IsSpace(c) ==> AllSpace([c] + s) && AllSpace(s + [c])
  {
    hide IsSpace;
  }

  lemma NoSpace()
    ensures AllSpace("")
  {
  }

  lemma JoinThree(a: string, b: string, c: string, d: string)
    ensures a + (b + c + d) == (a + b) + c + d
    ensures (a + b + c) + d == a + b + (c + d)
  {
  }

  /** Trimming cuts white space off both ends, and all of it. */
  lemma {:induction false} TrimSpaceIs(s: string) returns (left: string, right: string)
    ensures s == left + TrimSpace(s) + right && AllSpace(left) && AllSpace(right)
    ensures var t := TrimSpace(s); t != "" ==> !IsSpace(t[0]) && !IsSpace(t[|t| - 1])
  {
    hide IsSpace, AllSpace;
    NoSpace();
    left, right := "", "";
    if s != "" && IsSpace(s[0]) {
      var c, rest := s[0], s[1..];
      assert s == [c] + rest && TrimSpace(s) == TrimSpace(rest);
      hide TrimSpace;
      left, right := TrimSpaceIs(rest);
      JoinThree([c], left, TrimSpace(rest), right);
      SpaceGrows(left, c);
      left := [c] + left;
    } else if s != "" && IsSpace(s[|s| - 1]) {
      var c, rest := s[|s| - 1], s[..|s| - 1];
      assert s == rest + [c] && TrimSpace(s) == TrimSpace(rest);
      hide TrimSpace;
      left, right := TrimSpaceIs(rest);
      JoinThree(left, TrimSpace(rest), right, [c]);
      SpaceGrows(right, c);
      right := right + [c];
    }
  }

  function Concat(parts: seq<string>): string {
    if parts == [] then "" else Concat(parts[..|parts| - 1]) + parts[|parts| - 1]
  }

  lemma ConcatAppend(a: seq<string>, b: seq<string>)
    ensures Concat(a + b) == Concat(a) + Concat(b)
  {
    if b == [] {
      assert a + b == a;
    } else {
      var front := b[..|b| - 1];
      assert (a + b)[..|a + b| - 1] == a + front;
      ConcatAppend(a, front);
    }
  }

  lemma ConcatSnoc(parts: seq<string>, text: string)
    ensures Concat(parts + [text]) == Concat(parts) + text
  {
    assert (parts + [text])[..|parts|] == parts;
  }

  lemma Associative<T>(a: seq<T>, b: seq<T>, c: seq<T>)
    ensures a + (b + c) == (a + b) + c
  {
  }
}
