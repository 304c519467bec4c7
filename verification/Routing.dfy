/** Which upstream channels may serve a request, and in which order. */
module Routing {
  import opened Strings

  datatype UpstreamType = Unset | Anthropic | OpenAI

  /** A provider, as far as routing reads it.  `direct` is false for explicit-only channels. */
  datatype Entry = Entry(kind: UpstreamType, baseUrl: string, models: seq<string>, priority: int,
                         enabled: bool, direct: bool)

  datatype Target = Target(provider: string, model: string)
  datatype Alias = Alias(provider: string, model: string, targets: seq<Target>)

  datatype Snapshot = Snapshot(providers: map<string, Entry>, aliases: map<string, Alias>,
                               uuids: map<string, string>)

  datatype Route = Route(channel: string, kind: UpstreamType, url: string, resolvedModel: string,
                         virtualModel: string)

  // ----- Paths -----

  const V1 := "/v1"

  predicate IsModelRoutedPath(path: string) {
    path == V1 || "/v1/" <= path
  }

  function InferExpectedType(path: string): UpstreamType {
    if path == "/v1/messages" || "/v1/messages?" <= path then Anthropic
    else if IsModelRoutedPath(path) then OpenAI
    else Unset
  }

  /** The type a request asks for: the forced one, or the one its path suggests; none off `/v1`. */
  function ExpectedType(path: string, forced: UpstreamType): UpstreamType {
    if !IsModelRoutedPath(path) then Unset else if forced != Unset then forced else InferExpectedType(path)
  }

  lemma ModelRoutedPathIsLong(path: string)
    requires IsModelRoutedPath(path)
    ensures |path| >= |V1|
  {
  }

  function BuildRoute(channel: string, entry: Entry, path: string, search: string): Route {
    var kind := if entry.kind == Unset then OpenAI else entry.kind;
    var normalized :=
      if IsModelRoutedPath(path) && kind == OpenAI then
        ModelRoutedPathIsLong(path);
        if path[|V1|..] == "" then "/" else path[|V1|..]
      else path;
    Route(channel, kind, entry.baseUrl + normalized + search, "", "")
  }

  /** The type a request asks for, by its path. */
  lemma ExpectedIs(rest: string, forced: UpstreamType, path: string)
    ensures ExpectedType("/v1/" + rest, forced) ==
            if forced != Unset then forced
            else if rest == "messages" || "messages?" <= rest then Anthropic else OpenAI
    ensures ExpectedType("/v1", forced) == if forced != Unset then forced else OpenAI
    ensures path != "/v1" && !("/v1/" <= path) ==> ExpectedType(path, forced) == Unset
  {
    var full := "/v1/" + rest;
    assert full[..4] == "/v1/" && full[4..] == rest && "/v1/messages" == "/v1/" + "messages";
    assert "/v1/messages?" == "/v1/" + "messages?";
    assert full == "/v1/messages" <==> rest == "messages" by {
      assert "/v1/messages"[4..] == "messages";
    }
    assert "/v1/messages?" <= full <==> "messages?" <= rest by {
      assert "/v1/messages?"[4..] == "messages?";
      assert |full| >= 13 ==> full[..13] == "/v1/" + rest[..9];
    }
  }

  /** The address of a route: behind `/v1` an OpenAI channel gets the rest of the path, or a slash; everything
      else is appended to the channel's address as it is. */
  lemma AddressIs(channel: string, entry: Entry, rest: string, path: string, search: string)
    ensures entry.kind != Anthropic && rest != "" && rest[0] == '/' ==>
              BuildRoute(channel, entry, "/v1" + rest, search).url == entry.baseUrl + rest + search
    ensures entry.kind != Anthropic ==> BuildRoute(channel, entry, "/v1", search).url == entry.baseUrl + "/" + search
    ensures entry.kind == Anthropic || (path != "/v1" && !("/v1/" <= path)) ==>
              BuildRoute(channel, entry, path, search).url == entry.baseUrl + path + search
    ensures BuildRoute(channel, entry, path, search).channel == channel
    ensures BuildRoute(channel, entry, path, search).kind == if entry.kind == Unset then OpenAI else entry.kind
    ensures BuildRoute(channel, entry, path, search).resolvedModel == ""
  {
    var full := "/v1" + rest;
    assert full[3..] == rest;
    if rest != "" && rest[0] == '/' {
      assert full[..4] == "/v1/";
    }
    assert "/v1"[3..] == "";
  }

  // ----- The order of channels -----

  /** Byte-wise string order. */
  predicate Less(a: string, b: string) {
    if b == "" then false
    else if a == "" then true
    else if a[0] != b[0] then a[0] < b[0]
    else Less(a[1..], b[1..])
  }

  lemma LessIsTotal(a: string, b: string)
    ensures a == b || Less(a, b) || Less(b, a)
    ensures !(Less(a, b) && Less(b, a)) && !Less(a, a)
  {
    if a != "" && b != "" && a[0] == b[0] {
      LessIsTotal(a[1..], b[1..]);
      assert a == [a[0]] + a[1..] && b == [b[0]] + b[1..];
    }
    LessIsIrreflexive(a);
  }

  lemma LessIsIrreflexive(a: string)
    ensures !Less(a, a)
  {
  }

  lemma LessIsTransitive(a: string, b: string, c: string)
    requires Less(a, b) && Less(b, c)
    ensures Less(a, c)
  {
    if a != "" && b != "" && c != "" && a[0] == b[0] == c[0] {
      LessIsTransitive(a[1..], b[1..], c[1..]);
    }
  }

  /** The order is that of dictionaries: what comes first is a proper beginning of the other, or has the smaller
      byte where they differ first. */
  lemma {:induction false} LessIsLexicographic(a: string, b: string)
    ensures Less(a, b) <==>
            (a <= b && a != b)
            || exists i: nat :: i < |a| && i < |b| && a[..i] == b[..i] && a[i] < b[i]
  {
    if a != "" && b != "" && a[0] == b[0] {
      LessIsLexicographic(a[1..], b[1..]);
      assert a == [a[0]] + a[1..] && b == [b[0]] + b[1..];
      forall i: nat | i < |a| - 1 && i < |b| - 1
        ensures a[..i + 1] == b[..i + 1] <==> a[1..][..i] == b[1..][..i]
      {
        assert a[..i + 1] == [a[0]] + a[1..][..i] && b[..i + 1] == [b[0]] + b[1..][..i];
      }
      if i: nat :| i < |a| && i < |b| && a[..i] == b[..i] && a[i] < b[i] {
        assert i > 0 && a[i] == a[1..][i - 1] && b[i] == b[1..][i - 1] && a[1..][..i - 1] == b[1..][..i - 1];
      }
      if j: nat :| j < |a| - 1 && j < |b| - 1 && a[1..][..j] == b[1..][..j] && a[1..][j] < b[1..][j] {
        assert a[..j + 1] == b[..j + 1] && a[j + 1] < b[j + 1];
      }
    } else if a != "" && b != "" {
      assert a[0] < b[0] ==> a[..0] == b[..0] && a[0] < b[0];
      assert forall i: nat :: 0 < i < |a| && i < |b| ==> a[..i][0] == a[0] && b[..i][0] == b[0];
    }
  }

  /** Higher priority first, then by name. */
  predicate Before(providers: map<string, Entry>, a: string, b: string)
    requires a in providers && b in providers
  {
    var p, q := providers[a].priority, providers[b].priority;
    if p != q then p > q else Less(a, b)
  }

  lemma BeforeIsTotal(providers: map<string, Entry>, a: string, b: string)
    requires a in providers && b in providers
    ensures a == b || Before(providers, a, b) || Before(providers, b, a)
    ensures !(Before(providers, a, b) && Before(providers, b, a))
  {
    LessIsTotal(a, b);
  }

  lemma BeforeIsTransitive(providers: map<string, Entry>, a: string, b: string, c: string)
    requires a in providers && b in providers && c in providers
    requires Before(providers, a, b) && Before(providers, b, c)
    ensures Before(providers, a, c)
  {
    if providers[a].priority == providers[b].priority == providers[c].priority {
      LessIsTransitive(a, b, c);
    }
  }

  /** `names` lists some channels of the snapshot. */
  predicate Known(providers: map<string, Entry>, names: seq<string>) {
    forall i :: 0 <= i < |names| ==> names[i] in providers
  }

  predicate Ordered(providers: map<string, Entry>, names: seq<string>)
    requires Known(providers, names)
  {
    forall i, j :: 0 <= i < j < |names| ==> Before(providers, names[i], names[j])
  }

  function Insert(providers: map<string, Entry>, names: seq<string>, name: string): (r: seq<string>)
    requires Known(providers, names) && name in providers
    ensures Known(providers, r) && forall x :: x in r <==> x in names || x == name
  {
    if names == [] then [name]
    else if Before(providers, name, names[0]) then [name] + names
    else
      assert names == [names[0]] + names[1..];
      [names[0]] + Insert(providers, names[1..], name)
  }

  /** `sort.Slice` and `sort.SliceStable` with the channel order. */
  function SortChannels(providers: map<string, Entry>, names: seq<string>): (r: seq<string>)
    requires Known(providers, names)
    ensures Known(providers, r) && forall x :: x in r <==> x in names
  {
    if names == [] then []
    else
      assert names == names[..|names| - 1] + [names[|names| - 1]];
      Insert(providers, SortChannels(providers, names[..|names| - 1]), names[|names| - 1])
  }

  lemma OrderedCons(providers: map<string, Entry>, name: string, names: seq<string>)
    requires Known(providers, names) && name in providers && Ordered(providers, names)
    requires forall x :: x in names ==> Before(providers, name, x)
    ensures Known(providers, [name] + names) && Ordered(providers, [name] + names)
  {
    var r := [name] + names;
    assert forall j :: 0 < j < |r| ==> r[j] == names[j - 1];
  }

  lemma {:induction false} InsertKeepsOrder(providers: map<string, Entry>, names: seq<string>, name: string)
    requires Known(providers, names) && name in providers && name !in names && Ordered(providers, names)
    ensures Ordered(providers, Insert(providers, names, name))
  {
    if names != [] {
      hide Before;
      BeforeIsTotal(providers, name, names[0]);
      if Before(providers, name, names[0]) {
        forall x | x in names
          ensures Before(providers, name, x)
        {
          if x != names[0] {
            BeforeIsTransitive(providers, name, names[0], x);
          }
        }
        OrderedCons(providers, name, names);
      } else {
        assert Ordered(providers, names[1..]);
        InsertKeepsOrder(providers, names[1..], name);
        OrderedCons(providers, names[0], Insert(providers, names[1..], name));
      }
    }
  }

  predicate NoRepeats(names: seq<string>) {
    forall i, j :: 0 <= i < j < |names| ==> names[i] != names[j]
  }

  lemma {:induction false} SortIsOrdered(providers: map<string, Entry>, names: seq<string>)
    requires Known(providers, names) && NoRepeats(names)
    ensures Ordered(providers, SortChannels(providers, names))
  {
    if names != [] {
      hide Before, Insert, SortChannels;
      SortIsOrdered(providers, names[..|names| - 1]);
      SortUnfolds(providers, names);
      InsertKeepsOrder(providers, SortChannels(providers, names[..|names| - 1]), names[|names| - 1]);
    } else {
      assert SortChannels(providers, names) == [];
    }
  }

  lemma SortUnfolds(providers: map<string, Entry>, names: seq<string>)
    requires Known(providers, names) && names != []
    ensures SortChannels(providers, names) ==
            Insert(providers, SortChannels(providers, names[..|names| - 1]), names[|names| - 1])
  {
  }

  /** An ordered list is determined by its members. */
  lemma {:induction false} OrderedIsUnique(providers: map<string, Entry>, a: seq<string>, b: seq<string>)
    requires Known(providers, a) && Known(providers, b) && Ordered(providers, a) && Ordered(providers, b)
    requires forall x :: x in a <==> x in b
    ensures a == b
    decreases |a|
  {
    hide Before;
    assert b != [] ==> b[0] in b;
    if a != [] {
      assert a[0] in b;
      assert b[0] in a;
      BeforeIsTotal(providers, a[0], b[0]);
      assert a[0] == b[0];
      HeadOnlyOnce(providers, a);
      HeadOnlyOnce(providers, b);
      OrderedIsUnique(providers, a[1..], b[1..]);
      assert a == [a[0]] + a[1..] && b == [b[0]] + b[1..];
    }
  }

  lemma HeadOnlyOnce(providers: map<string, Entry>, a: seq<string>)
    requires a != [] && Known(providers, a) && Ordered(providers, a)
    ensures forall x :: x in a[1..] <==> x in a && x != a[0]
    ensures Ordered(providers, a[1..])
  {
    assert a == [a[0]] + a[1..];
    forall i | 0 < i < |a|
      ensures a[i] != a[0]
    {
      BeforeIsTotal(providers, a[0], a[i]);
    }
  }

  // ----- Channels listing a model -----

  predicate Serves(entry: Entry, model: string, expected: UpstreamType) {
    entry.enabled && entry.direct && (expected == Unset || entry.kind == expected) && model in entry.models
  }

  function Matching(providers: map<string, Entry>, names: seq<string>, model: string, expected: UpstreamType)
    : (r: seq<string>)
    requires Known(providers, names)
    ensures Known(providers, r)
  {
    if names == [] then []
    else
      var n := |names| - 1;
      Matching(providers, names[..n], model, expected)
      + if Serves(providers[names[n]], model, expected) then [names[n]] else []
  }

  /** `order` is the order in which the map happens to yield the channels. */
  predicate IsEnumeration(order: seq<string>, providers: map<string, Entry>) {
    && NoRepeats(order) && Known(providers, order)
    && forall name :: name in providers ==> name in order
  }

  /** `findRoutesByModel`: sort the channels, then keep those that serve the model. */
  method FindRoutesByModel(providers: map<string, Entry>, order: seq<string>, model: string,
                           expected: UpstreamType) returns (matches: seq<string>)
    requires IsEnumeration(order, providers)
    ensures matches == Matching(providers, SortChannels(providers, order), model, expected)
  {
    var channels := SortChannels(providers, order);
    matches := [];
    for i := 0 to |channels|
      invariant matches == Matching(providers, channels[..i], model, expected)
    {
      var entry := providers[channels[i]];
      assert channels[..i + 1][..i] == channels[..i];
      if !entry.enabled {
        continue;
      }
      if !entry.direct {
        continue;
      }
      if expected != Unset && entry.kind != expected {
        continue;
      }
      if model in entry.models {
        matches := matches + [channels[i]];
      }
    }
    assert channels[..|channels|] == channels;
  }

  lemma {:induction false} MatchingMembers(providers: map<string, Entry>, names: seq<string>, model: string,
                                           expected: UpstreamType)
    requires Known(providers, names)
    ensures forall x :: x in Matching(providers, names, model, expected) <==>
              x in names && Serves(providers[x], model, expected)
    ensures Ordered(providers, names) ==> Ordered(providers, Matching(providers, names, model, expected))
  {
    if names != [] {
      hide Before, Serves;
      var front, last := names[..|names| - 1], names[|names| - 1];
      assert names == front + [last];
      MatchingMembers(providers, front, model, expected);
      var kept := Matching(providers, front, model, expected);
      if Ordered(providers, names) {
        assert Ordered(providers, front);
        forall x | x in kept
          ensures Before(providers, x, last)
        {
          var i :| 0 <= i < |front| && front[i] == x;
          assert names[i] == x && names[|front|] == last;
        }
      }
    }
  }

  /** Model routing finds exactly the enabled direct channels of the type that list the model, by falling
      priority and then by name, whatever order the map yields its channels in. */
  lemma {:induction false} ModelMatchesAreDetermined(providers: map<string, Entry>, order: seq<string>,
                                                     order': seq<string>, model: string, expected: UpstreamType)
    requires IsEnumeration(order, providers) && IsEnumeration(order', providers)
    ensures
      var r := Matching(providers, SortChannels(providers, order), model, expected);
      && r == Matching(providers, SortChannels(providers, order'), model, expected)
      && Ordered(providers, r)
      && (forall x :: x in r <==> x in providers && Serves(providers[x], model, expected))
  {
    hide Before, SortChannels, Matching, Serves, Ordered;
    SortIsOrdered(providers, order);
    SortIsOrdered(providers, order');
    OrderedIsUnique(providers, SortChannels(providers, order), SortChannels(providers, order'));
    MatchingMembers(providers, SortChannels(providers, order), model, expected);
  }

  /** The same, channel by channel: who is among the matches, and who comes before whom. */
  lemma MatchesAre(providers: map<string, Entry>, order: seq<string>, model: string, expected: UpstreamType)
    requires IsEnumeration(order, providers) && expected != Unset
    ensures
      var r := Matching(providers, SortChannels(providers, order), model, expected);
      && (forall x :: x in r <==>
            && x in providers && providers[x].enabled && providers[x].direct && providers[x].kind == expected
            && model in providers[x].models)
      && (forall i, j :: 0 <= i < j < |r| ==>
            && r[i] in providers && r[j] in providers
            && (providers[r[i]].priority > providers[r[j]].priority
                || (providers[r[i]].priority == providers[r[j]].priority && Less(r[i], r[j]))))
  {
    hide SortChannels, Matching, Less;
    ModelMatchesAreDetermined(providers, order, order, model, expected);
    var r := Matching(providers, SortChannels(providers, order), model, expected);
    forall i, j | 0 <= i < j < |r|
      ensures Before(providers, r[i], r[j])
    {
    }
  }
}
