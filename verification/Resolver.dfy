/** From a request path and model name to the routes that may serve it. */
module Resolver {
  import opened Strings
  import opened Routing
  import opened Dedupe

  /** What a request asks of the resolver. */
  datatype Ask = Ask(path: string, search: string, forced: UpstreamType)

  function Expected(ask: Ask): UpstreamType {
    ExpectedType(ask.path, ask.forced)
  }

  /** The channel named by a provider id, or the name itself. */
  function ChannelFor(snap: Snapshot, provider: string): string {
    if provider in snap.uuids then snap.uuids[provider] else provider
  }

  // ----- The explicit form -----

  const PROVIDERS_PREFIX := "/providers/"

  /** Length of the longest prefix of `s` without a slash. */
  function SegmentLength(s: string): (n: nat)
    ensures n <= |s|
    ensures forall i :: 0 <= i < n ==> s[i] != '/'
    ensures n < |s| ==> s[n] == '/'
  {
    if s == "" || s[0] == '/' then 0 else
      assert s == [s[0]] + s[1..];
      1 + SegmentLength(s[1..])
  }

  /** `^/providers/([^/]+)(/.*)?$`: the channel and the rest of the path, which holds no line feed. */
  function MatchExplicit(path: string): Option<(string, string)> {
    if !(PROVIDERS_PREFIX <= path) then None
    else
      var tail := path[|PROVIDERS_PREFIX|..];
      var n := SegmentLength(tail);
      if n == 0 || '\n' in tail[n..] then None else Some((tail[..n], tail[n..]))
  }

  lemma SegmentIs(channel: string, rest: string)
    requires '/' !in channel && (rest == "" || rest[0] == '/')
    ensures SegmentLength(channel + rest) == |channel|
  {
    var tail := channel + rest;
    assert forall i :: 0 <= i < |channel| ==> tail[i] == channel[i];
    assert rest != "" ==> tail[|channel|] == rest[0];
  }

  /** The match is the only way to read the path as a channel followed by nothing or by a slash. */
  lemma ExplicitPathReads(path: string, channel: string, rest: string)
    ensures MatchExplicit(path) == Some((channel, rest)) <==>
            && path == PROVIDERS_PREFIX + (channel + rest)
            && channel != "" && '/' !in channel
            && (rest == "" || rest[0] == '/') && '\n' !in rest
  {
    var tail := channel + rest;
    if MatchExplicit(path) == Some((channel, rest)) {
      assert path[|PROVIDERS_PREFIX|..] == tail;
      assert path == path[..|PROVIDERS_PREFIX|] + tail;
    } else if path == PROVIDERS_PREFIX + tail && '/' !in channel && (rest == "" || rest[0] == '/') {
      SegmentIs(channel, rest);
      assert path[|PROVIDERS_PREFIX|..] == tail;
      assert tail[..|channel|] == channel && tail[|channel|..] == rest;
    }
  }

  function ResolveExplicit(snap: Snapshot, path: string, search: string): Option<Route> {
    match MatchExplicit(path)
    case None => None
    case Some((channel, rest)) =>
      if channel !in snap.providers || !snap.providers[channel].enabled || !snap.providers[channel].direct
      then None
      else Some(BuildRoute(channel, snap.providers[channel], if rest == "" then "/" else rest, search))
  }

  // ----- Aliases -----

  function ResolveTarget(snap: Snapshot, ask: Ask, target: Target): Option<Route> {
    var channel := ChannelFor(snap, target.provider);
    if channel !in snap.providers then None
    else
      var entry := snap.providers[channel];
      if !entry.enabled || entry.kind != Expected(ask) then None
      else Some(BuildRoute(channel, entry, ask.path, ask.search).(resolvedModel := target.model))
  }

  /** An alias without a target list has one target of its own. */
  function TargetsOf(alias: Alias): seq<Target> {
    if alias.targets == [] then [Target(alias.provider, alias.model)] else alias.targets
  }

  /** When a target resolves, and to what: its id or name must lead to an enabled channel of the type. */
  lemma TargetResolves(snap: Snapshot, ask: Ask, target: Target)
    ensures
      var channel := if target.provider in snap.uuids then snap.uuids[target.provider] else target.provider;
      && (ResolveTarget(snap, ask, target).Some? <==>
            && channel in snap.providers && snap.providers[channel].enabled
            && snap.providers[channel].kind == Expected(ask))
      && (ResolveTarget(snap, ask, target).Some? ==>
            var r := ResolveTarget(snap, ask, target).value;
            r.channel == channel && r.resolvedModel == target.model)
  {
    hide ExpectedType, IsModelRoutedPath;
  }

  /** An alias has the targets it lists, or else the one it names. */
  lemma TargetsAre(provider: string, model: string, targets: seq<Target>)
    ensures targets != [] ==> TargetsOf(Alias(provider, model, targets)) == targets
    ensures TargetsOf(Alias(provider, model, [])) == [Target(provider, model)]
  {
  }

  function TargetRoutes(snap: Snapshot, ask: Ask, name: string, targets: seq<Target>): seq<Route> {
    if targets == [] then []
    else
      var front, last := targets[..|targets| - 1], targets[|targets| - 1];
      TargetRoutes(snap, ask, name, front)
      + match ResolveTarget(snap, ask, last) case None => [] case Some(r) => [r.(virtualModel := name)]
  }

  method ResolveTargets(snap: Snapshot, ask: Ask, name: string, targets: seq<Target>)
    returns (routes: seq<Route>)
    ensures routes == TargetRoutes(snap, ask, name, targets)
  {
    routes := [];
    for i := 0 to |targets|
      invariant routes == TargetRoutes(snap, ask, name, targets[..i])
    {
      assert targets[..i + 1][..i] == targets[..i];
      var route := ResolveTarget(snap, ask, targets[i]);
      if route.Some? {
        routes := routes + [route.value.(virtualModel := name)];
      }
    }
    assert targets[..|targets|] == targets;
  }

  // ----- Routing by model -----

  function ModelRoutes(snap: Snapshot, ask: Ask, channels: seq<string>): seq<Route>
    requires Known(snap.providers, channels)
  {
    if channels == [] then []
    else
      var n := |channels| - 1;
      ModelRoutes(snap, ask, channels[..n])
      + [BuildRoute(channels[n], snap.providers[channels[n]], ask.path, ask.search)]
  }

  /** The routes of a model name: an alias stands for its own targets only; any other name for the
      channels that list it. */
  function RoutesByModel(snap: Snapshot, ask: Ask, model: string, order: seq<string>): seq<Route>
    requires IsEnumeration(order, snap.providers)
  {
    if Expected(ask) == Unset then []
    else if model in snap.aliases then
      FirstOccurrences(TargetRoutes(snap, ask, model, TargetsOf(snap.aliases[model])))
    else
      ModelRoutes(snap, ask,
                  Matching(snap.providers, SortChannels(snap.providers, order), model, Expected(ask)))
  }

  method ResolveRoutesByModel(snap: Snapshot, ask: Ask, model: string, order: seq<string>)
    returns (routes: seq<Route>)
    requires IsEnumeration(order, snap.providers)
    ensures routes == RoutesByModel(snap, ask, model, order)
  {
    hide Matching, SortChannels, IsEnumeration, TargetRoutes, BuildRoute, ExpectedType;
    if !IsModelRoutedPath(ask.path) {
      RoutedPathsHaveAType(ask);
      return [];
    }
    var expected := if ask.forced != Unset then ask.forced else InferExpectedType(ask.path);
    RoutedPathsHaveAType(ask);
    if expected == Unset {
      return [];
    }
    if model in snap.aliases {
      routes := ResolveTargets(snap, ask, model, TargetsOf(snap.aliases[model]));
      routes := DedupeRoutes(routes);
      return;
    }
    var channels := FindRoutesByModel(snap.providers, order, model, expected);
    routes := [];
    for i := 0 to |channels|
      invariant routes == ModelRoutes(snap, ask, channels[..i])
    {
      assert channels[..i + 1][..i] == channels[..i];
      routes := routes + [BuildRoute(channels[i], snap.providers[channels[i]], ask.path, ask.search)];
    }
    assert channels[..|channels|] == channels;
  }

  lemma RoutedPathsHaveAType(ask: Ask)
    ensures !IsModelRoutedPath(ask.path) ==> Expected(ask) == Unset
    ensures IsModelRoutedPath(ask.path) ==>
              Expected(ask) == if ask.forced != Unset then ask.forced else InferExpectedType(ask.path)
  {
  }

  // ----- Fallbacks -----

  /** Where the first colon is, or the length if there is none. */
  function ColonAt(s: string): (i: nat)
    ensures i <= |s|
    ensures i < |s| ==> s[i] == ':'
    ensures ':' !in s[..i]
  {
    if s == "" || s[0] == ':' then 0
    else
      var i := 1 + ColonAt(s[1..]);
      assert s[..i] == [s[0]] + s[1..][..i - 1];
      i
  }

  /** A `channel:model` pair: the model must be listed there. */
  function PairRoute(snap: Snapshot, ask: Ask, spec: string): Option<Route> {
    var i := ColonAt(spec);
    if i == |spec| || i == 0 || i == |spec| - 1 then None
    else
      var channelOrId, model := TrimSpace(spec[..i]), TrimSpace(spec[i + 1..]);
      if channelOrId == "" || model == "" then None
      else
        var channel := ChannelFor(snap, channelOrId);
        if channel !in snap.providers then None
        else
          var entry := snap.providers[channel];
          if !entry.enabled || entry.kind != Expected(ask) || model !in entry.models then None
          else ResolveTarget(snap, ask, Target(channel, model))
  }

  /** The model of a pair is looked up on the channel the pair names, but the route is resolved from that
      channel's name once more: it leads to the same channel exactly when the name is not itself the id
      of another one. */
  lemma PairModelIsListed(snap: Snapshot, ask: Ask, spec: string)
    ensures
      match PairRoute(snap, ask, spec)
      case None => true
      case Some(r) =>
        exists channelOrId, model ::
          && IsPair(spec, channelOrId, model) && r.resolvedModel == TrimSpace(model)
          && var named := ChannelFor(snap, TrimSpace(channelOrId));
          && named in snap.providers && r.resolvedModel in snap.providers[named].models
          && (r.channel == named <==> named !in snap.uuids || snap.uuids[named] == named)
  {
    hide TrimSpace, IsModelRoutedPath, ExpectedType;
    if PairRoute(snap, ask, spec).Some? {
      var i := ColonAt(spec);
      assert spec == spec[..i] + [':'] + spec[i + 1..];
      assert IsPair(spec, spec[..i], spec[i + 1..]);
    }
  }

  /** When a specifier is taken as a pair: both halves have something in them, and the channel is an enabled one
      of the type that lists the model. */
  lemma PairResolves(snap: Snapshot, ask: Ask, provider: string, model: string)
    requires ':' !in provider
    ensures
      var spec := provider + ":" + model;
      var named, wanted := TrimSpace(provider), TrimSpace(model);
      var channel := if named in snap.uuids then snap.uuids[named] else named;
      PairRoute(snap, ask, spec).Some? ==>
        && named != "" && wanted != "" && channel in snap.providers && snap.providers[channel].enabled
        && snap.providers[channel].kind == Expected(ask) && wanted in snap.providers[channel].models
    ensures
      var spec := provider + ":" + model;
      var named, wanted := TrimSpace(provider), TrimSpace(model);
      named != "" && wanted != "" && named in snap.providers && named !in snap.uuids && snap.providers[named].enabled
      && snap.providers[named].kind == Expected(ask) && wanted in snap.providers[named].models ==>
        && PairRoute(snap, ask, spec).Some? && PairRoute(snap, ask, spec).value.channel == named
        && PairRoute(snap, ask, spec).value.resolvedModel == wanted
  {
    var spec := provider + ":" + model;
    var i := ColonAt(spec);
    ColonBehind(provider, model);
    assert spec[..i] == provider && spec[i + 1..] == model;
    TrimOfNothing();
    hide TrimSpace, ExpectedType, IsModelRoutedPath;
  }

  lemma {:induction false} ColonBehind(provider: string, model: string)
    requires ':' !in provider
    ensures ColonAt(provider + ":" + model) == |provider|
  {
    var spec := provider + ":" + model;
    if provider != "" {
      ColonBehind(provider[1..], model);
      assert spec[0] == provider[0] && spec[1..] == provider[1..] + ":" + model;
    }
  }

  lemma TrimOfNothing()
    ensures TrimSpace("") == ""
  {
  }

  /** A specifier that is an alias stands for the alias, any other for its pair, if it is one. */
  lemma SpecRoutesAre(snap: Snapshot, ask: Ask, spec: string)
    ensures spec in snap.aliases ==>
              SpecRoutes(snap, ask, spec) == TargetRoutes(snap, ask, spec, TargetsOf(snap.aliases[spec]))
    ensures spec !in snap.aliases ==>
              forall r :: r in SpecRoutes(snap, ask, spec) <==> PairRoute(snap, ask, spec) == Some(r)
  {
    hide TargetRoutes, PairRoute, TargetsOf;
  }

  /** A pair that leads elsewhere: its id names channel "x", whose own name is the id of channel "y", which
      does not list the model. */
  lemma PairLeadsElsewhere(x: Entry, y: Entry)
    requires x.enabled && y.enabled && x.kind == y.kind == OpenAI && x.models == ["m"] && y.models == []
    ensures
      var snap := Snapshot(map["x" := x, "y" := y], map[], map["u" := "x", "x" := "y"]);
      var r := PairRoute(snap, Ask("/v1", "", OpenAI), "u:m");
      r.Some? && r.value.channel == "y" && r.value.resolvedModel == "m"
  {
    var snap := Snapshot(map["x" := x, "y" := y], map[], map["u" := "x", "x" := "y"]);
    var spec := "u:m";
    assert ColonAt(spec) == 1;
    assert spec[..1] == "u" && spec[2..] == "m" && TrimSpace("u") == "u" && TrimSpace("m") == "m";
    assert Expected(Ask("/v1", "", OpenAI)) == OpenAI;
    assert ResolveTarget(snap, Ask("/v1", "", OpenAI), Target("x", "m")).value.channel == "y";
  }

  /** The specifier reads as a channel, a colon and a model; the channel has no colon. */
  predicate IsPair(spec: string, channelOrId: string, model: string) {
    spec == channelOrId + [':'] + model && ':' !in channelOrId && channelOrId != "" && model != ""
  }

  /** What one fallback specifier stands for: an alias first, else a pair. */
  function SpecRoutes(snap: Snapshot, ask: Ask, spec: string): seq<Route> {
    if spec in snap.aliases then TargetRoutes(snap, ask, spec, TargetsOf(snap.aliases[spec]))
    else match PairRoute(snap, ask, spec) case None => [] case Some(r) => [r]
  }

  function CustomRoutes(snap: Snapshot, ask: Ask, specs: seq<string>): seq<Route> {
    if specs == [] then []
    else CustomRoutes(snap, ask, specs[..|specs| - 1]) + SpecRoutes(snap, ask, specs[|specs| - 1])
  }

  function FallbackRoutes(snap: Snapshot, ask: Ask, specs: seq<string>): seq<Route> {
    if Expected(ask) == Unset then [] else FirstOccurrences(CustomRoutes(snap, ask, specs))
  }

  method ResolveRoutesForFallbackModels(snap: Snapshot, ask: Ask, specs: seq<string>)
    returns (routes: seq<Route>)
    ensures routes == FallbackRoutes(snap, ask, specs)
  {
    hide ExpectedType, TargetRoutes, PairRoute;
    if Expected(ask) == Unset {
      return [];
    }
    routes := [];
    for i := 0 to |specs|
      invariant routes == CustomRoutes(snap, ask, specs[..i])
    {
      assert specs[..i + 1][..i] == specs[..i];
      if specs[i] in snap.aliases {
        var more := ResolveTargets(snap, ask, specs[i], TargetsOf(snap.aliases[specs[i]]));
        routes := routes + more;
        continue;
      }
      var route := PairRoute(snap, ask, specs[i]);
      if route.Some? {
        routes := routes + [route.value];
      }
    }
    assert specs[..|specs|] == specs;
    routes := DedupeRoutes(routes);
  }

  function ChannelRoutes(channel: string, entry: Entry, ask: Ask, models: seq<string>): seq<Route> {
    if models == [] then []
    else
      var n := |models| - 1;
      ChannelRoutes(channel, entry, ask, models[..n])
      + [BuildRoute(channel, entry, ask.path, ask.search).(resolvedModel := models[n])]
  }

  predicate Offers(entry: Entry, ask: Ask) {
    entry.enabled && entry.direct && entry.kind == Expected(ask)
  }

  function AnyRoutes(snap: Snapshot, ask: Ask, channels: seq<string>): seq<Route>
    requires Known(snap.providers, channels)
  {
    if channels == [] then []
    else
      var n := |channels| - 1;
      var entry := snap.providers[channels[n]];
      AnyRoutes(snap, ask, channels[..n])
      + if Offers(entry, ask) then ChannelRoutes(channels[n], entry, ask, entry.models) else []
  }

  function AnyModelRoutes(snap: Snapshot, ask: Ask, order: seq<string>): seq<Route>
    requires IsEnumeration(order, snap.providers)
  {
    if Expected(ask) == Unset then [] else AnyRoutes(snap, ask, SortChannels(snap.providers, order))
  }

  method ResolveRoutesForAnyModelFallback(snap: Snapshot, ask: Ask, order: seq<string>)
    returns (routes: seq<Route>)
    requires IsEnumeration(order, snap.providers)
    ensures routes == AnyModelRoutes(snap, ask, order)
  {
    hide ExpectedType, SortChannels, BuildRoute;
    if Expected(ask) == Unset {
      return [];
    }
    var channels := SortChannels(snap.providers, order);
    routes := [];
    for i := 0 to |channels|
      invariant routes == AnyRoutes(snap, ask, channels[..i])
    {
      assert channels[..i + 1][..i] == channels[..i];
      var entry := snap.providers[channels[i]];
      if !entry.enabled || !entry.direct || entry.kind != Expected(ask) {
        continue;
      }
      ghost var before := routes;
      for j := 0 to |entry.models|
        invariant routes == before + ChannelRoutes(channels[i], entry, ask, entry.models[..j])
      {
        assert entry.models[..j + 1][..j] == entry.models[..j];
        var route := BuildRoute(channels[i], entry, ask.path, ask.search);
        routes := routes + [route.(resolvedModel := entry.models[j])];
      }
      assert entry.models[..|entry.models|] == entry.models;
    }
    assert channels[..|channels|] == channels;
  }

  // ----- What every resolved route has in common -----

  /** The route leads to an enabled channel of the snapshot, of the type the request asks for, by that
      channel's own address. */
  predicate Sound(snap: Snapshot, ask: Ask, route: Route) {
    && route.channel in snap.providers
    && snap.providers[route.channel].enabled
    && snap.providers[route.channel].kind == route.kind == Expected(ask)
    && route.url == BuildRoute(route.channel, snap.providers[route.channel], ask.path, ask.search).url
  }

  predicate AllSound(snap: Snapshot, ask: Ask, routes: seq<Route>) {
    forall r :: r in routes ==> Sound(snap, ask, r)
  }

  /** The route is target `t` of the alias `name`. */
  predicate IsTarget(snap: Snapshot, name: string, t: Target, route: Route) {
    && route.channel == ChannelFor(snap, t.provider) && route.resolvedModel == t.model
    && route.virtualModel == name
  }

  lemma BuiltRouteIsSound(snap: Snapshot, ask: Ask, channel: string, model: string, name: string)
    requires Expected(ask) != Unset
    requires channel in snap.providers
    requires snap.providers[channel].enabled && snap.providers[channel].kind == Expected(ask)
    ensures
      var built := BuildRoute(channel, snap.providers[channel], ask.path, ask.search);
      Sound(snap, ask, built.(resolvedModel := model, virtualModel := name))
  {
    hide ExpectedType, IsModelRoutedPath;
  }

  lemma ResolvedTargetIsSound(snap: Snapshot, ask: Ask, target: Target)
    requires Expected(ask) != Unset
    ensures
      match ResolveTarget(snap, ask, target)
      case None => true
      case Some(r) => && Sound(snap, ask, r) && r.virtualModel == ""
                      && r.channel == ChannelFor(snap, target.provider) && r.resolvedModel == target.model
  {
    hide ExpectedType, IsModelRoutedPath;
    var channel := ChannelFor(snap, target.provider);
    if ResolveTarget(snap, ask, target).Some? {
      BuiltRouteIsSound(snap, ask, channel, target.model, "");
    }
  }

  lemma {:induction false} TargetRoutesAreTargets(snap: Snapshot, ask: Ask, name: string, targets: seq<Target>)
    requires Expected(ask) != Unset
    ensures AllSound(snap, ask, TargetRoutes(snap, ask, name, targets))
    ensures forall r :: r in TargetRoutes(snap, ask, name, targets) ==>
              exists t :: t in targets && IsTarget(snap, name, t, r)
    ensures forall t :: t in targets && ResolveTarget(snap, ask, t).Some? ==>
              ResolveTarget(snap, ask, t).value.(virtualModel := name) in TargetRoutes(snap, ask, name, targets)
  {
    if targets != [] {
      hide ExpectedType, ResolveTarget, BuildRoute, ChannelFor;
      var front, last := targets[..|targets| - 1], targets[|targets| - 1];
      assert targets == front + [last];
      TargetRoutesAreTargets(snap, ask, name, front);
      ResolvedTargetIsSound(snap, ask, last);
      forall r | r in TargetRoutes(snap, ask, name, targets)
        ensures exists t :: t in targets && IsTarget(snap, name, t, r)
      {
        if r in TargetRoutes(snap, ask, name, front) {
          var t :| t in front && IsTarget(snap, name, t, r);
          assert t in targets;
        } else {
          assert IsTarget(snap, name, last, r);
        }
      }
    }
  }

  /** Routing an alias never leaves its own targets, and drops none of those that resolve: each is kept
      or shares its key with one that is. */
  lemma AliasRoutesAreItsTargets(snap: Snapshot, ask: Ask, name: string, order: seq<string>)
    requires IsEnumeration(order, snap.providers) && name in snap.aliases && Expected(ask) != Unset
    ensures
      var targets := TargetsOf(snap.aliases[name]);
      var routes := RoutesByModel(snap, ask, name, order);
      && (forall r :: r in routes ==> exists t :: t in targets && IsTarget(snap, name, t, r))
      && (forall t :: t in targets && ResolveTarget(snap, ask, t).Some? ==>
            HasKey(routes, Key(ResolveTarget(snap, ask, t).value)))
      && DistinctKeys(routes)
  {
    hide ExpectedType, ResolveTarget, BuildRoute, ChannelFor, TargetRoutes, FirstOccurrences, IsEnumeration;
    var targets := TargetsOf(snap.aliases[name]);
    var routes := TargetRoutes(snap, ask, name, targets);
    TargetRoutesAreTargets(snap, ask, name, targets);
    KeptWereThere(routes);
    KeysAreDistinct(routes);
    forall t | t in targets && ResolveTarget(snap, ask, t).Some?
      ensures HasKey(FirstOccurrences(routes), Key(ResolveTarget(snap, ask, t).value))
    {
      var r := ResolveTarget(snap, ask, t).value;
      var i :| 0 <= i < |routes| && routes[i] == r.(virtualModel := name);
      assert Key(routes[i]) == Key(r);
      SameKeys(routes, Key(r));
    }
  }

  /** No channel's name is that of another one continued behind a colon. */
  predicate NamesAreUnambiguous(snap: Snapshot) {
    forall a, b :: a in snap.providers && b in snap.providers ==> !Extends(a, b)
  }

  /** Routes resolved for one request have the same key exactly when they are for the same channel and
      model, provided that no channel's name extends another's. */
  lemma KeyTellsRoutesApart(snap: Snapshot, ask: Ask, a: Route, b: Route)
    requires NamesAreUnambiguous(snap) && Sound(snap, ask, a) && Sound(snap, ask, b)
    ensures Key(a) == Key(b) <==> a.channel == b.channel && a.resolvedModel == b.resolvedModel
  {
    hide Key, BuildRoute, ExpectedType, Extends;
    KeyTellsApart(a, b);
  }

  /** Then every target of an alias that resolves has its route. */
  lemma {:induction false} NoTargetIsLost(snap: Snapshot, ask: Ask, name: string, order: seq<string>, t: Target)
    requires IsEnumeration(order, snap.providers) && name in snap.aliases && Expected(ask) != Unset
    requires NamesAreUnambiguous(snap) && t in TargetsOf(snap.aliases[name]) && ResolveTarget(snap, ask, t).Some?
    ensures exists r :: r in RoutesByModel(snap, ask, name, order) && IsTarget(snap, name, t, r)
  {
    hide ExpectedType, ResolveTarget, BuildRoute, ChannelFor, TargetRoutes, FirstOccurrences, IsEnumeration, Key,
         NamesAreUnambiguous;
    var targets := TargetsOf(snap.aliases[name]);
    var all := TargetRoutes(snap, ask, name, targets);
    TargetRoutesAreTargets(snap, ask, name, targets);
    var own := ResolveTarget(snap, ask, t).value.(virtualModel := name);
    ResolvedTargetIsSound(snap, ask, t);
    var r := KeptInstead(all, own);
    KeptWereThere(all);
    KeyTellsRoutesApart(snap, ask, r, own);
    assert r in RoutesByModel(snap, ask, name, order) && IsTarget(snap, name, t, r);
  }

  /** An alias with two targets of which the resolver keeps one: channel "a" with model "b:c" and channel
      "a:b" with model "c", at one address. */
  lemma TargetIsLost(url: string)
    ensures
      var entry := Entry(OpenAI, url, [], 0, true, true);
      var targets := [Target("a", "b:c"), Target("a:b", "c")];
      var snap := Snapshot(map["a" := entry, "a:b" := entry], map["z" := Alias("", "", targets)], map[]);
      var ask, order := Ask("/v1", "", OpenAI), ["a", "a:b"];
      && IsEnumeration(order, snap.providers)
      && ResolveTarget(snap, ask, targets[1]).Some?
      && |RoutesByModel(snap, ask, "z", order)| == 1
      && IsTarget(snap, "z", targets[0], RoutesByModel(snap, ask, "z", order)[0])
  {
    var entry := Entry(OpenAI, url, [], 0, true, true);
    var first, second := Target("a", "b:c"), Target("a:b", "c");
    var targets := [first, second];
    var snap := Snapshot(map["a" := entry, "a:b" := entry], map["z" := Alias("", "", targets)], map[]);
    var ask, order := Ask("/v1", "", OpenAI), ["a", "a:b"];
    assert NoRepeats(order) by {
      assert |order[0]| == 1 && |order[1]| == 3;
    }
    assert order[0] == "a" && order[1] == "a:b";
    assert Expected(ask) == OpenAI;
    hide ExpectedType, Key;
    var a := ResolveTarget(snap, ask, first).value.(virtualModel := "z");
    var b := ResolveTarget(snap, ask, second).value.(virtualModel := "z");
    assert a.channel == "a" && a.resolvedModel == "b:c" && b.channel == "a:b" && b.resolvedModel == "c";
    assert a.url == b.url;
    hide ResolveTarget, BuildRoute;
    TwoTargets(snap, ask, "z", first, second);
    CollidingRoutes(a, b);
  }

  lemma TwoTargets(snap: Snapshot, ask: Ask, name: string, first: Target, second: Target)
    requires ResolveTarget(snap, ask, first).Some? && ResolveTarget(snap, ask, second).Some?
    ensures TargetRoutes(snap, ask, name, [first, second]) ==
            [ResolveTarget(snap, ask, first).value.(virtualModel := name),
             ResolveTarget(snap, ask, second).value.(virtualModel := name)]
  {
    hide ResolveTarget;
    assert [first, second][..1] == [first] && [first][..0] == [];
    assert TargetRoutes(snap, ask, name, [first]) == [ResolveTarget(snap, ask, first).value.(virtualModel := name)];
  }

  lemma CollidingRoutes(a: Route, b: Route)
    requires a.channel == "a" && b.channel == "a:b" && a.url == b.url
    requires a.resolvedModel == "b:c" && b.resolvedModel == "c"
    ensures FirstOccurrences([a, b]) == [a]
  {
    assert "a:b"[2..] == "b" && "b" + ":" + "c" == "b:c";
    assert "a" + ":" <= "a:b";
    SameKeyExactlyWhen(a, b);
    TwoAlike(a, b);
  }

  lemma TwoAlike(a: Route, b: Route)
    requires Key(a) == Key(b)
    ensures FirstOccurrences([a, b]) == [a]
  {
    hide Key;
    assert [a, b][..1] == [a] && [a][..0] == [] && [a][0] == a;
    assert FirstOccurrences([a]) == [a];
  }

  /** What is dropped has its key kept. */
  lemma KeptInstead(routes: seq<Route>, route: Route) returns (kept: Route)
    requires route in routes
    ensures kept in FirstOccurrences(routes) && Key(kept) == Key(route)
  {
    hide Key, FirstOccurrences;
    var i :| 0 <= i < |routes| && routes[i] == route;
    SameKeys(routes, Key(route));
    var firsts := FirstOccurrences(routes);
    var k :| 0 <= k < |firsts| && Key(firsts[k]) == Key(route);
    kept := firsts[k];
  }

  lemma {:induction false} ModelRoutesMirror(snap: Snapshot, ask: Ask, channels: seq<string>)
    requires Known(snap.providers, channels)
    ensures |ModelRoutes(snap, ask, channels)| == |channels|
    ensures forall i :: 0 <= i < |channels| ==>
              ModelRoutes(snap, ask, channels)[i]
              == BuildRoute(channels[i], snap.providers[channels[i]], ask.path, ask.search)
  {
    if channels != [] {
      hide BuildRoute;
      ModelRoutesMirror(snap, ask, channels[..|channels| - 1]);
    }
  }

  /** Every route found for a model leads to an enabled channel of the type the request asks for. */
  lemma ModelRoutesAreSound(snap: Snapshot, ask: Ask, model: string, order: seq<string>)
    requires IsEnumeration(order, snap.providers)
    ensures AllSound(snap, ask, RoutesByModel(snap, ask, model, order))
  {
    hide ExpectedType, BuildRoute, TargetRoutes, FirstOccurrences, Matching, SortChannels, ModelRoutes, Sound;
    if Expected(ask) != Unset {
      if model in snap.aliases {
        var targets := TargetsOf(snap.aliases[model]);
        TargetRoutesAreTargets(snap, ask, model, targets);
        KeptWereThere(TargetRoutes(snap, ask, model, targets));
      } else {
        var channels := Matching(snap.providers, SortChannels(snap.providers, order), model, Expected(ask));
        ModelMatchesAreDetermined(snap.providers, order, order, model, Expected(ask));
        ModelRoutesMirror(snap, ask, channels);
        var routes := ModelRoutes(snap, ask, channels);
        forall r | r in routes
          ensures Sound(snap, ask, r)
        {
          var i :| 0 <= i < |routes| && routes[i] == r;
          assert channels[i] in channels;
          BuildRouteLeavesModelsEmpty(channels[i], snap.providers[channels[i]], ask);
          BuiltRouteIsSound(snap, ask, channels[i], "", "");
        }
      }
    }
  }

  lemma BuildRouteLeavesModelsEmpty(channel: string, entry: Entry, ask: Ask)
    ensures
      var built := BuildRoute(channel, entry, ask.path, ask.search);
      built.(resolvedModel := "", virtualModel := "") == built
  {
  }

  lemma SpecRoutesAreSound(snap: Snapshot, ask: Ask, spec: string)
    requires Expected(ask) != Unset
    ensures AllSound(snap, ask, SpecRoutes(snap, ask, spec))
  {
    hide ExpectedType, BuildRoute, ResolveTarget, Sound;
    if spec in snap.aliases {
      TargetRoutesAreTargets(snap, ask, spec, TargetsOf(snap.aliases[spec]));
    } else if PairRoute(snap, ask, spec).Some? {
      var i := ColonAt(spec);
      var channel := ChannelFor(snap, TrimSpace(spec[..i]));
      ResolvedTargetIsSound(snap, ask, Target(channel, TrimSpace(spec[i + 1..])));
    }
  }

  lemma {:induction false} CustomRoutesAreSound(snap: Snapshot, ask: Ask, specs: seq<string>)
    requires Expected(ask) != Unset
    ensures AllSound(snap, ask, CustomRoutes(snap, ask, specs))
  {
    if specs != [] {
      hide ExpectedType, SpecRoutes, Sound;
      CustomRoutesAreSound(snap, ask, specs[..|specs| - 1]);
      SpecRoutesAreSound(snap, ask, specs[|specs| - 1]);
    }
  }

  lemma FallbackRoutesAreSound(snap: Snapshot, ask: Ask, specs: seq<string>)
    ensures AllSound(snap, ask, FallbackRoutes(snap, ask, specs))
  {
    hide ExpectedType, CustomRoutes, Sound;
    if Expected(ask) != Unset {
      CustomRoutesAreSound(snap, ask, specs);
      KeptWereThere(CustomRoutes(snap, ask, specs));
    }
  }

  lemma {:induction false} ChannelRoutesAre(snap: Snapshot, channel: string, ask: Ask, models: seq<string>)
    requires Expected(ask) != Unset
    requires channel in snap.providers
    requires snap.providers[channel].enabled && snap.providers[channel].kind == Expected(ask)
    ensures AllSound(snap, ask, ChannelRoutes(channel, snap.providers[channel], ask, models))
  {
    if models != [] {
      hide ExpectedType, BuildRoute, Sound;
      var n := |models| - 1;
      ChannelRoutesAre(snap, channel, ask, models[..n]);
      BuildRouteLeavesModelsEmpty(channel, snap.providers[channel], ask);
      BuiltRouteIsSound(snap, ask, channel, models[n], "");
    }
  }

  lemma {:induction false} AnyRoutesAreSound(snap: Snapshot, ask: Ask, channels: seq<string>)
    requires Expected(ask) != Unset && Known(snap.providers, channels)
    ensures AllSound(snap, ask, AnyRoutes(snap, ask, channels))
  {
    if channels != [] {
      hide ExpectedType, ChannelRoutes, Sound;
      var n := |channels| - 1;
      AnyRoutesAreSound(snap, ask, channels[..n]);
      if Offers(snap.providers[channels[n]], ask) {
        ChannelRoutesAre(snap, channels[n], ask, snap.providers[channels[n]].models);
      }
    }
  }

  predicate IsChannelRoute(snap: Snapshot, ask: Ask, channel: string, model: string, route: Route) {
    && channel in snap.providers && Offers(snap.providers[channel], ask)
    && model in snap.providers[channel].models
    && route == BuildRoute(channel, snap.providers[channel], ask.path, ask.search).(resolvedModel := model)
  }

  lemma {:induction false} ChannelRouteMembers(channel: string, entry: Entry, ask: Ask, models: seq<string>)
    ensures forall r :: r in ChannelRoutes(channel, entry, ask, models) <==>
              exists m :: m in models
                && r == BuildRoute(channel, entry, ask.path, ask.search).(resolvedModel := m)
  {
    if models != [] {
      hide BuildRoute;
      var n := |models| - 1;
      assert models == models[..n] + [models[n]];
      ChannelRouteMembers(channel, entry, ask, models[..n]);
    }
  }

  lemma {:induction false} AnyRouteMembers(snap: Snapshot, ask: Ask, channels: seq<string>)
    requires Known(snap.providers, channels)
    ensures forall r :: r in AnyRoutes(snap, ask, channels) <==>
              exists c, m :: c in channels && IsChannelRoute(snap, ask, c, m, r)
  {
    if channels != [] {
      hide BuildRoute, ChannelRoutes, Offers;
      var n := |channels| - 1;
      var entry := snap.providers[channels[n]];
      assert channels == channels[..n] + [channels[n]];
      AnyRouteMembers(snap, ask, channels[..n]);
      ChannelRouteMembers(channels[n], entry, ask, entry.models);
      forall r
        ensures r in AnyRoutes(snap, ask, channels) <==>
                  exists c, m :: c in channels && IsChannelRoute(snap, ask, c, m, r)
      {
        if r in AnyRoutes(snap, ask, channels[..n]) {
          var c, m :| c in channels[..n] && IsChannelRoute(snap, ask, c, m, r);
          assert c in channels;
        } else if r in AnyRoutes(snap, ask, channels) {
          var m :| m in entry.models
            && r == BuildRoute(channels[n], entry, ask.path, ask.search).(resolvedModel := m);
          assert IsChannelRoute(snap, ask, channels[n], m, r);
        }
      }
    }
  }

  /** The any-model fallback offers exactly one kind of route: each model listed on each enabled direct
      channel of the type, and every one of them, in an order the map's own order does not affect. */
  lemma {:induction false} AnyModelIsEveryListedModel(snap: Snapshot, ask: Ask, order: seq<string>,
                                                      order': seq<string>)
    requires IsEnumeration(order, snap.providers) && IsEnumeration(order', snap.providers)
    requires Expected(ask) != Unset
    ensures AnyModelRoutes(snap, ask, order) == AnyModelRoutes(snap, ask, order')
    ensures forall r :: r in AnyModelRoutes(snap, ask, order) <==>
              exists c, m :: IsChannelRoute(snap, ask, c, m, r)
  {
    hide Before, SortChannels, Ordered, AnyRoutes, BuildRoute, ExpectedType, Offers;
    var channels := SortChannels(snap.providers, order);
    SortIsOrdered(snap.providers, order);
    SortIsOrdered(snap.providers, order');
    OrderedIsUnique(snap.providers, channels, SortChannels(snap.providers, order'));
    AnyRouteMembers(snap, ask, channels);
  }

  // ----- The order of routes -----

  lemma {:induction false} TargetRoutesInOrder(snap: Snapshot, ask: Ask, name: string, a: seq<Target>, b: seq<Target>)
    ensures TargetRoutes(snap, ask, name, a + b) == TargetRoutes(snap, ask, name, a) + TargetRoutes(snap, ask, name, b)
  {
    hide ResolveTarget;
    if b == [] {
      assert a + b == a;
    } else {
      assert (a + b)[..|a + b| - 1] == a + b[..|b| - 1];
      TargetRoutesInOrder(snap, ask, name, a, b[..|b| - 1]);
    }
  }

  lemma {:induction false} CustomRoutesInOrder(snap: Snapshot, ask: Ask, a: seq<string>, b: seq<string>)
    ensures CustomRoutes(snap, ask, a + b) == CustomRoutes(snap, ask, a) + CustomRoutes(snap, ask, b)
  {
    hide SpecRoutes;
    if b == [] {
      assert a + b == a;
    } else {
      assert (a + b)[..|a + b| - 1] == a + b[..|b| - 1];
      CustomRoutesInOrder(snap, ask, a, b[..|b| - 1]);
    }
  }

  lemma {:induction false} AnyRoutesInOrder(snap: Snapshot, ask: Ask, a: seq<string>, b: seq<string>)
    requires Known(snap.providers, a) && Known(snap.providers, b) && Known(snap.providers, a + b)
    ensures AnyRoutes(snap, ask, a + b) == AnyRoutes(snap, ask, a) + AnyRoutes(snap, ask, b)
  {
    hide ChannelRoutes, Offers;
    if b == [] {
      assert a + b == a;
    } else {
      assert (a + b)[..|a + b| - 1] == a + b[..|b| - 1];
      AnyRoutesInOrder(snap, ask, a, b[..|b| - 1]);
    }
  }

  /** The routes of a channel are those of its models, one by one. */
  lemma {:induction false} ChannelRouteAt(channel: string, entry: Entry, ask: Ask, models: seq<string>, i: nat)
    requires i < |models|
    ensures |ChannelRoutes(channel, entry, ask, models)| == |models|
    ensures ChannelRoutes(channel, entry, ask, models)[i] ==
            BuildRoute(channel, entry, ask.path, ask.search).(resolvedModel := models[i])
  {
    hide BuildRoute;
    if |models| > 1 {
      ChannelRouteAt(channel, entry, ask, models[..|models| - 1], if i < |models| - 1 then i else 0);
    }
  }
}
