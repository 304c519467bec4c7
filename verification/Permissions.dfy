/** A client's list of allowed models against the models its request is really forwarded with.  The list is
    consulted once, for the model that was asked for; aliases and fallbacks may put another in its place. */
module Permissions {
  import opened Strings
  import opened Routing
  import opened Dedupe
  import opened Resolver
  import opened Clients
  import opened Failover

  /** The model in the body that is sent upstream. */
  function EffectiveModel(requested: string, route: Route): string {
    if route.resolvedModel != "" then route.resolvedModel else requested
  }

  predicate AllMay(client: Client, requested: string, routes: seq<Route>) {
    forall r :: r in routes ==> May(client, EffectiveModel(requested, r))
  }

  function Tries(req: Request): nat {
    MaxTries(Explicit(req).Some?, req.policy)
  }

  /** Whatever the upstream does, nothing is forwarded with a model the client may not use. */
  ghost predicate OnlyAllowedModels(client: Client, req: Request)
    requires Enumerated(req)
  {
    forall upstream: Upstream, calls, responses ::
      IsRun(req.policy, req.streaming, Plan(Candidates(req), Tries(req)), upstream, calls, responses) ==>
        AllMay(client, req.model, calls)
  }

  // ----- From runs to candidates -----

  /** Some behaviour of the upstream makes the loop try again. */
  predicate MayRetry(policy: Policy, streaming: bool) {
    policy.enabled && (policy.onTimeout || policy.onNetworkError || (!streaming && RetriesOnStatus(policy)))
  }

  lemma RetriedMeansMayRetry(policy: Policy, streaming: bool, outcome: Outcome)
    requires Retried(policy, streaming, outcome)
    ensures MayRetry(policy, streaming)
  {
  }

  lemma RetryingOutcome(policy: Policy, streaming: bool) returns (outcome: Outcome)
    requires MayRetry(policy, streaming)
    ensures Retried(policy, streaming, outcome)
  {
    if policy.onTimeout {
      outcome := Silence;
    } else if policy.onNetworkError {
      outcome := Broken;
    } else if "5xx" in policy.ranges {
      outcome := Answered(503);
    } else {
      var code :| code in policy.codes && 400 <= code < 1000;
      outcome := Answered(code);
    }
  }

  lemma {:induction false} ScheduleCovers(routes: seq<Route>, tries: nat)
    requires tries > 0
    ensures forall r :: r in routes ==> r in Schedule(routes, tries)
    ensures routes != [] ==> Schedule(routes, tries) != [] && Schedule(routes, tries)[0] == routes[0]
  {
    if routes != [] {
      hide Times;
      var front, last := routes[..|routes| - 1], routes[|routes| - 1];
      assert routes == front + [last];
      ScheduleCovers(front, tries);
      assert Times(last, tries)[0] == last;
    }
  }

  /** The plan starts with the first candidate and visits exactly the distinct ones. */
  lemma PlanCovers(candidates: seq<Route>, tries: nat)
    requires tries > 0
    ensures forall r :: r in Plan(candidates, tries) <==> r in FirstOccurrences(candidates)
    ensures candidates != [] ==> Plan(candidates, tries) != [] && Plan(candidates, tries)[0] == candidates[0]
  {
    hide FirstOccurrences, Schedule;
    ScheduleCovers(FirstOccurrences(candidates), tries);
    ScheduleMembers(FirstOccurrences(candidates), tries);
    if candidates != [] {
      KeptWereThere(candidates);
      EarlierStayInFront([candidates[0]], candidates[1..]);
      assert candidates == [candidates[0]] + candidates[1..];
      OneRoute(candidates[0]);
    }
  }

  lemma OneRoute(route: Route)
    ensures FirstOccurrences([route]) == [route]
  {
    assert [route][..0] == [];
  }

  lemma NoTriesNoPlan(routes: seq<Route>)
    ensures Schedule(routes, 0) == []
  {
  }

  lemma NoRoutesNoPlan(tries: nat)
    ensures Plan([], tries) == []
  {
  }

  /** Without any retry a run makes at most one attempt. */
  lemma AtMostOneAttempt(policy: Policy, streaming: bool, plan: seq<Route>, upstream: Upstream, calls: seq<Route>,
                         responses: seq<Response>)
    requires IsRun(policy, streaming, plan, upstream, calls, responses) && !MayRetry(policy, streaming)
    ensures |calls| <= 1
  {
    hide Retried, RetriedOnStatus, MayRetry, ForwardOnce;
    if |calls| > 1 && Retried(policy, streaming, upstream(0)) {
      RetriedMeansMayRetry(policy, streaming, upstream(0));
    }
  }

  lemma PrefixMembers(calls: seq<Route>, plan: seq<Route>)
    requires calls <= plan
    ensures forall r :: r in calls ==> r in plan
  {
  }

  lemma FirstAttemptAlone(policy: Policy, streaming: bool, plan: seq<Route>)
    requires plan != []
    ensures IsRun(policy, streaming, plan, _ => Refused(400), [plan[0]], [OwnError(400)])
  {
    var upstream: Upstream := _ => Refused(400);
    assert !Retried(policy, streaming, upstream(0));
    assert !AllRetried(policy, streaming, upstream, 1);
  }

  lemma WholePlan(policy: Policy, streaming: bool, plan: seq<Route>, outcome: Outcome)
    returns (responses: seq<Response>)
    requires Retried(policy, streaming, outcome)
    ensures IsRun(policy, streaming, plan, _ => outcome, plan, responses)
  {
    var upstream: Upstream := _ => outcome;
    RunExhausts(policy, streaming, plan, upstream);
    responses := if SomeOnStatus(policy, streaming, upstream, |plan|) then [] else [ALL_FAILED];
  }

  /** Only allowed models are forwarded, whatever the upstream does, if and only if nothing is tried, or the
      first candidate is allowed and, unless nothing is ever retried, so are all others. */
  lemma OnlyAllowedExactlyWhen(client: Client, req: Request)
    requires Enumerated(req)
    ensures
      var candidates := Candidates(req);
      OnlyAllowedModels(client, req) <==>
      || candidates == [] || Tries(req) == 0
      || (&& May(client, EffectiveModel(req.model, candidates[0]))
          && (MayRetry(req.policy, req.streaming) ==> AllMay(client, req.model, FirstOccurrences(candidates))))
  {
    hide Candidates, Plan, FirstOccurrences, Schedule, IsRun, May, EffectiveModel, MayRetry, IsEnumeration, Retried;
    var candidates, tries := Candidates(req), Tries(req);
    var plan := Plan(candidates, tries);
    NoRoutesNoPlan(tries);
    if tries == 0 {
      EmptyPlan(candidates);
    }
    if candidates == [] || tries == 0 {
      NothingForwarded(client, req);
    } else {
      PlanCovers(candidates, tries);
      if OnlyAllowedModels(client, req) {
        FirstAttemptAlone(req.policy, req.streaming, plan);
        assert AllMay(client, req.model, [plan[0]]) && plan[0] in [plan[0]];
        if MayRetry(req.policy, req.streaming) {
          var outcome := RetryingOutcome(req.policy, req.streaming);
          var responses := WholePlan(req.policy, req.streaming, plan, outcome);
          assert AllMay(client, req.model, plan);
        }
      } else {
        var upstream: Upstream, calls, responses :|
          IsRun(req.policy, req.streaming, plan, upstream, calls, responses) && !AllMay(client, req.model, calls);
        BadCallIsPlanned(client, req, plan, upstream, calls, responses);
      }
    }
  }

  lemma EmptyPlan(candidates: seq<Route>)
    ensures Plan(candidates, 0) == []
  {
    hide FirstOccurrences;
    NoTriesNoPlan(FirstOccurrences(candidates));
  }

  lemma NothingForwarded(client: Client, req: Request)
    requires Enumerated(req) && Plan(Candidates(req), Tries(req)) == []
    ensures OnlyAllowedModels(client, req)
  {
    hide Candidates, Plan, IsEnumeration, Retried, RetriedOnStatus;
  }

  /** An attempt with a model that is not allowed is the first one or comes after a retry. */
  lemma BadCallIsPlanned(client: Client, req: Request, plan: seq<Route>, upstream: Upstream, calls: seq<Route>,
                         responses: seq<Response>)
    requires IsRun(req.policy, req.streaming, plan, upstream, calls, responses)
    requires !AllMay(client, req.model, calls)
    ensures plan != [] && !AllMay(client, req.model, plan)
    ensures !MayRetry(req.policy, req.streaming) ==> !May(client, EffectiveModel(req.model, plan[0]))
  {
    hide May, EffectiveModel, MayRetry, IsRun;
    RunFollowsThePlan(req.policy, req.streaming, plan, upstream, calls, responses);
    PrefixMembers(calls, plan);
    if !MayRetry(req.policy, req.streaming) {
      AtMostOneAttempt(req.policy, req.streaming, plan, upstream, calls, responses);
      var r :| r in calls && !May(client, EffectiveModel(req.model, r));
      assert r == calls[0] == plan[0];
    }
  }

  // ----- From candidates to the configuration -----

  /** If the target resolves, its model is one the client may use. */
  predicate TargetMay(client: Client, req: Request, t: Target) {
    ResolveTarget(req.snap, req.ask, t).Some? ==> May(client, if t.model != "" then t.model else req.model)
  }

  predicate TargetsMay(client: Client, req: Request, targets: seq<Target>) {
    forall t :: t in targets ==> TargetMay(client, req, t)
  }

  /** The same for what a fallback specifier stands for: an alias, or a pair with its model. */
  predicate SpecMay(client: Client, req: Request, spec: string) {
    if spec in req.snap.aliases then TargetsMay(client, req, TargetsOf(req.snap.aliases[spec]))
    else
      match PairRoute(req.snap, req.ask, spec)
      case None => true
      case Some(r) => May(client, EffectiveModel(req.model, r))
  }

  /** The same for a model listed on an enabled direct channel of the type the request asks for. */
  predicate ListedMay(client: Client, req: Request) {
    forall c, m ::
      c in req.snap.providers && Offers(req.snap.providers[c], req.ask) && m in req.snap.providers[c].models ==>
        May(client, if m != "" then m else req.model)
  }

  /** What snapshot, policy and allow-list have to satisfy. */
  predicate ConfigurationAllows(client: Client, req: Request) {
    Expected(req.ask) != Unset ==>
      && (req.model in req.snap.aliases ==> TargetsMay(client, req, TargetsOf(req.snap.aliases[req.model])))
      && (FallsBack(req) ==>
            forall spec :: spec in CustomFallbackModels(req.policy, req.model) ==> SpecMay(client, req, spec))
      && (FallsBack(req) && req.policy.mode == AnyModel ==> ListedMay(client, req))
  }

  /** Dropping repeated keys adds no model, and drops none as long as no channel's name extends another's. */
  lemma {:induction false} DedupeKeepsModels(client: Client, req: Request, routes: seq<Route>)
    requires AllSound(req.snap, req.ask, routes)
    ensures AllMay(client, req.model, routes) ==> AllMay(client, req.model, FirstOccurrences(routes))
    ensures NamesAreUnambiguous(req.snap) ==>
              (AllMay(client, req.model, FirstOccurrences(routes)) <==> AllMay(client, req.model, routes))
    ensures AllSound(req.snap, req.ask, FirstOccurrences(routes))
  {
    hide FirstOccurrences, Key, Sound, May, NamesAreUnambiguous;
    KeptWereThere(routes);
    if NamesAreUnambiguous(req.snap) {
      forall r | r in routes
        ensures exists kept :: kept in FirstOccurrences(routes) && kept.resolvedModel == r.resolvedModel
      {
        var kept := KeptInstead(routes, r);
        KeyTellsRoutesApart(req.snap, req.ask, kept, r);
      }
    }
  }

  lemma AllMayAppend(client: Client, requested: string, a: seq<Route>, b: seq<Route>)
    ensures AllMay(client, requested, a + b) <==> AllMay(client, requested, a) && AllMay(client, requested, b)
  {
    hide May;
    assert forall r :: r in a + b <==> r in a || r in b;
  }

  lemma OneTargetMay(client: Client, req: Request, name: string, t: Target)
    requires Expected(req.ask) != Unset && ResolveTarget(req.snap, req.ask, t).Some?
    ensures AllMay(client, req.model, [ResolveTarget(req.snap, req.ask, t).value.(virtualModel := name)]) <==>
            TargetMay(client, req, t)
  {
    hide May, ResolveTarget, ExpectedType, Sound;
    ResolvedTargetIsSound(req.snap, req.ask, t);
    var r := ResolveTarget(req.snap, req.ask, t).value.(virtualModel := name);
    assert r in [r];
  }

  lemma {:induction false} TargetRoutesMay(client: Client, req: Request, name: string, targets: seq<Target>)
    requires Expected(req.ask) != Unset
    ensures AllMay(client, req.model, TargetRoutes(req.snap, req.ask, name, targets)) <==>
            TargetsMay(client, req, targets)
  {
    NothingMay(client, req.model);
    if targets != [] {
      hide May, AllMay, ResolveTarget, ExpectedType;
      var front, last := targets[..|targets| - 1], targets[|targets| - 1];
      assert targets == front + [last];
      TargetRoutesMay(client, req, name, front);
      var resolved := ResolveTarget(req.snap, req.ask, last);
      if resolved.Some? {
        OneTargetMay(client, req, name, last);
        AllMayAppend(client, req.model, TargetRoutes(req.snap, req.ask, name, front),
                     [resolved.value.(virtualModel := name)]);
      } else {
        assert TargetRoutes(req.snap, req.ask, name, front) + [] == TargetRoutes(req.snap, req.ask, name, front);
      }
    }
  }

  lemma SpecRoutesMay(client: Client, req: Request, spec: string)
    requires Expected(req.ask) != Unset
    ensures AllMay(client, req.model, SpecRoutes(req.snap, req.ask, spec)) <==> SpecMay(client, req, spec)
  {
    hide May, ResolveTarget, ExpectedType, PairRoute, TargetRoutes, TargetsMay;
    if spec in req.snap.aliases {
      TargetRoutesMay(client, req, spec, TargetsOf(req.snap.aliases[spec]));
    } else if PairRoute(req.snap, req.ask, spec).Some? {
      var r := PairRoute(req.snap, req.ask, spec).value;
      assert r in [r];
    }
  }

  lemma {:induction false} CustomRoutesMay(client: Client, req: Request, specs: seq<string>)
    requires Expected(req.ask) != Unset
    ensures AllMay(client, req.model, CustomRoutes(req.snap, req.ask, specs)) <==>
            forall spec :: spec in specs ==> SpecMay(client, req, spec)
  {
    if specs != [] {
      hide AllMay, SpecMay, SpecRoutes, ExpectedType;
      var front, last := specs[..|specs| - 1], specs[|specs| - 1];
      assert specs == front + [last];
      CustomRoutesMay(client, req, front);
      SpecRoutesMay(client, req, last);
      AllMayAppend(client, req.model, CustomRoutes(req.snap, req.ask, front), SpecRoutes(req.snap, req.ask, last));
    } else {
      assert AllMay(client, req.model, []);
    }
  }

  lemma ListedRoutesMay(client: Client, req: Request)
    requires Enumerated(req) && Expected(req.ask) != Unset
    ensures AllMay(client, req.model, AnyModelRoutes(req.snap, req.ask, req.order')) <==> ListedMay(client, req)
  {
    hide May, AnyModelRoutes, ExpectedType, IsEnumeration, Offers, BuildRoute;
    AnyModelIsEveryListedModel(req.snap, req.ask, req.order', req.order');
    var routes := AnyModelRoutes(req.snap, req.ask, req.order');
    forall c, m | c in req.snap.providers && Offers(req.snap.providers[c], req.ask)
                  && m in req.snap.providers[c].models
      ensures exists r :: r in routes && r.resolvedModel == m
    {
      var r := BuildRoute(c, req.snap.providers[c], req.ask.path, req.ask.search).(resolvedModel := m);
      assert IsChannelRoute(req.snap, req.ask, c, m, r);
    }
    forall r | r in routes
      ensures exists c, m ::
                && c in req.snap.providers && Offers(req.snap.providers[c], req.ask)
                && m in req.snap.providers[c].models && r.resolvedModel == m
    {
      var c, m :| IsChannelRoute(req.snap, req.ask, c, m, r);
    }
  }

  lemma ModelRoutesKeepTheModel(req: Request)
    requires Enumerated(req) && Explicit(req).None? && req.model !in req.snap.aliases
    ensures forall r :: r in Initial(req) ==> r.resolvedModel == ""
  {
    hide ExpectedType, Matching, SortChannels, IsEnumeration, ModelRoutes, ResolveExplicit;
    if Expected(req.ask) != Unset {
      EnumerationIsKnown(req);
      var channels := Matching(req.snap.providers, SortChannels(req.snap.providers, req.order), req.model,
                               Expected(req.ask));
      ModelRoutesMirror(req.snap, req.ask, channels);
    }
  }

  lemma EnumerationIsKnown(req: Request)
    requires Enumerated(req)
    ensures Known(req.snap.providers, req.order) && Known(req.snap.providers, req.order')
  {
  }

  /** The initial routes: only an alias can put another model in the place of the one asked for. */
  lemma InitialMay(client: Client, req: Request)
    requires Enumerated(req) && Explicit(req).None?
    requires Refusal(client, req.model) == None && Expected(req.ask) != Unset
    ensures (req.model in req.snap.aliases ==> TargetsMay(client, req, TargetsOf(req.snap.aliases[req.model])))
            ==> AllMay(client, req.model, Initial(req))
    ensures NamesAreUnambiguous(req.snap) && AllMay(client, req.model, Initial(req)) ==>
              (req.model in req.snap.aliases ==> TargetsMay(client, req, TargetsOf(req.snap.aliases[req.model])))
  {
    hide ExpectedType, ResolveExplicit, IsEnumeration, TargetRoutes, FirstOccurrences, ModelRoutes, May, Refusal,
         TargetsMay, NamesAreUnambiguous, Sound;
    AdmittedMay(client, req.model);
    if req.model in req.snap.aliases {
      var targets := TargetsOf(req.snap.aliases[req.model]);
      TargetRoutesMay(client, req, req.model, targets);
      TargetRoutesAreTargets(req.snap, req.ask, req.model, targets);
      DedupeKeepsModels(client, req, TargetRoutes(req.snap, req.ask, req.model, targets));
    } else {
      ModelRoutesKeepTheModel(req);
    }
  }

  lemma CustomPartMay(client: Client, req: Request)
    requires Expected(req.ask) != Unset
    ensures (forall spec :: spec in CustomFallbackModels(req.policy, req.model) ==> SpecMay(client, req, spec))
            ==> AllMay(client, req.model, CustomPart(req))
    ensures NamesAreUnambiguous(req.snap) && AllMay(client, req.model, CustomPart(req)) ==>
              forall spec :: spec in CustomFallbackModels(req.policy, req.model) ==> SpecMay(client, req, spec)
  {
    hide ExpectedType, CustomRoutes, FirstOccurrences, AllMay, SpecMay, NamesAreUnambiguous,
         CustomFallbackModels, Sound;
    var specs := CustomFallbackModels(req.policy, req.model);
    CustomRoutesAreSound(req.snap, req.ask, specs);
    DedupeKeepsModels(client, req, CustomRoutes(req.snap, req.ask, specs));
    CustomRoutesMay(client, req, specs);
  }

  lemma NothingMay(client: Client, requested: string)
    ensures AllMay(client, requested, [])
  {
  }

  lemma ModePartMay(client: Client, req: Request)
    requires Enumerated(req) && Expected(req.ask) != Unset && AllMay(client, req.model, Initial(req))
    ensures AllMay(client, req.model, ModePart(req)) <==> (req.policy.mode == AnyModel ==> ListedMay(client, req))
  {
    hide ExpectedType, IsEnumeration, RoutesByModel, AnyModelRoutes, ResolveExplicit, AllMay, ListedMay;
    NothingMay(client, req.model);
    ListedRoutesMay(client, req);
  }

  lemma PartsAreSound(req: Request)
    requires Enumerated(req) && Explicit(req).None?
    ensures AllSound(req.snap, req.ask, Initial(req) + CustomPart(req) + ModePart(req))
  {
    hide RoutesByModel, FallbackRoutes, AnyModelRoutes, IsEnumeration, ExpectedType, Explicit, Sound,
         CustomFallbackModels;
    ModelRoutesAreSound(req.snap, req.ask, req.model, req.order);
    FallbackRoutesAreSound(req.snap, req.ask, CustomFallbackModels(req.policy, req.model));
    AnyModelRoutesAreSound(req.snap, req.ask, req.order');
  }

  /** Off the model-routed paths there is no candidate at all. */
  lemma NothingExpected(req: Request)
    requires Enumerated(req) && Explicit(req).None? && Expected(req.ask) == Unset
    ensures Candidates(req) == []
  {
    hide ExpectedType, Explicit, IsEnumeration, CustomFallbackModels;
    assert Initial(req) == [] && CustomPart(req) == [] && ModePart(req) == [];
  }

  lemma PartsMay(client: Client, req: Request)
    requires Enumerated(req) && Explicit(req).None?
    requires Refusal(client, req.model) == None && Expected(req.ask) != Unset && FallsBack(req)
    ensures
      var all := Initial(req) + CustomPart(req) + ModePart(req);
      && (ConfigurationAllows(client, req) ==> AllMay(client, req.model, all))
      && (NamesAreUnambiguous(req.snap) && AllMay(client, req.model, all) ==> ConfigurationAllows(client, req))
  {
    hide ExpectedType, Explicit, IsEnumeration, AllMay, Refusal, TargetsMay, SpecMay, ListedMay, NamesAreUnambiguous,
         CustomFallbackModels, Initial, CustomPart, ModePart;
    AllMayAppend(client, req.model, Initial(req) + CustomPart(req), ModePart(req));
    AllMayAppend(client, req.model, Initial(req), CustomPart(req));
    InitialMay(client, req);
    CustomPartMay(client, req);
    if AllMay(client, req.model, Initial(req)) {
      ModePartMay(client, req);
    }
  }

  /** All candidates are allowed when the configuration says so, and only then as long as no channel's name
      extends another's. */
  lemma CandidatesMay(client: Client, req: Request)
    requires Enumerated(req) && Explicit(req).None?
    requires Refusal(client, req.model) == None
    ensures ConfigurationAllows(client, req) ==> AllMay(client, req.model, FirstOccurrences(Candidates(req)))
    ensures NamesAreUnambiguous(req.snap) && AllMay(client, req.model, FirstOccurrences(Candidates(req))) ==>
              ConfigurationAllows(client, req)
  {
    hide ExpectedType, Explicit, IsEnumeration, FirstOccurrences, AllMay, Refusal, TargetsMay, SpecMay, ListedMay,
         NamesAreUnambiguous, CustomFallbackModels, Initial, CustomPart, ModePart, Sound;
    EveryCandidateIsSound(req);
    DedupeKeepsModels(client, req, Candidates(req));
    if Expected(req.ask) == Unset {
      NothingExpected(req);
      NothingMay(client, req.model);
    } else if FallsBack(req) {
      PartsAreSound(req);
      DedupeKeepsModels(client, req, Initial(req) + CustomPart(req) + ModePart(req));
      PartsMay(client, req);
    } else {
      InitialMay(client, req);
    }
  }

  // ----- What a client may rely on -----

  /** For a request that was let in, only allowed models are forwarded, whatever the upstream does, if the
      configuration offers the request no other: no alias target, no custom fallback and, in any-model mode,
      no listed model that the client may not use.  As long as no channel's name extends another's, they are
      if and only if the request names its channel, or nothing is tried, or the first candidate's model is
      allowed and, unless nothing is ever retried, the configuration is such. */
  lemma {:induction false} ForwardsOnlyAllowedModels(client: Client, req: Request)
    requires Enumerated(req) && Refusal(client, req.model) == None
    ensures ConfigurationAllows(client, req) ==> OnlyAllowedModels(client, req)
    ensures
      var candidates := Candidates(req);
      NamesAreUnambiguous(req.snap) ==>
        (OnlyAllowedModels(client, req) <==>
         || Explicit(req).Some? || candidates == [] || Tries(req) == 0
         || (&& May(client, EffectiveModel(req.model, candidates[0]))
             && (MayRetry(req.policy, req.streaming) ==> ConfigurationAllows(client, req))))
  {
    hide Candidates, OnlyAllowedModels, Tries, May, EffectiveModel, MayRetry, ConfigurationAllows, IsEnumeration,
         AllMay, FirstOccurrences, Refusal, ResolveExplicit, NamesAreUnambiguous;
    OnlyAllowedExactlyWhen(client, req);
    if Explicit(req).Some? {
      ExplicitRouteMay(client, req);
    } else {
      CandidatesMay(client, req);
      if ConfigurationAllows(client, req) && Candidates(req) != [] {
        FirstIsKept(client, req);
      }
    }
  }

  /** A request that names its channel is forwarded there with its own model. */
  lemma ExplicitRouteMay(client: Client, req: Request)
    requires Enumerated(req) && Explicit(req).Some? && Refusal(client, req.model) == None
    ensures Candidates(req) != [] && May(client, EffectiveModel(req.model, Candidates(req)[0]))
    ensures AllMay(client, req.model, FirstOccurrences(Candidates(req)))
  {
    hide IsEnumeration, May, Refusal, MatchExplicit, FirstOccurrences;
    AdmittedMay(client, req.model);
    OneRoute(Candidates(req)[0]);
  }

  /** Without an alias, a custom rule and the any-model mode every attempt carries the model asked for. */
  lemma {:induction false} PlainRequestsAreSafe(client: Client, req: Request)
    requires Enumerated(req) && Refusal(client, req.model) == None
    requires req.model !in req.snap.aliases && req.policy.mode != AnyModel
    requires CustomFallbackModels(req.policy, req.model) == []
    ensures OnlyAllowedModels(client, req)
  {
    hide Candidates, OnlyAllowedModels, Tries, May, MayRetry, IsEnumeration, Refusal, ResolveExplicit,
         NamesAreUnambiguous, CustomFallbackModels, ExpectedType;
    ForwardsOnlyAllowedModels(client, req);
  }

  lemma FirstIsKept(client: Client, req: Request)
    requires Enumerated(req) && Candidates(req) != []
    requires AllMay(client, req.model, FirstOccurrences(Candidates(req)))
    ensures May(client, EffectiveModel(req.model, Candidates(req)[0]))
  {
    hide Candidates, FirstOccurrences, Schedule, May, EffectiveModel, IsEnumeration;
    var plan := Plan(Candidates(req), 1);
    PlanCovers(Candidates(req), 1);
    assert plan[0] in plan;
  }

  /** In any-model mode one listed model that the client may not use is enough to break the rule. */
  lemma {:induction false} AnyModelIgnoresTheList(client: Client, req: Request, channel: string, model: string)
    requires Enumerated(req) && NamesAreUnambiguous(req.snap) && Refusal(client, req.model) == None
    requires FallsBack(req) && req.policy.mode == AnyModel && req.policy.retryAttempts >= 0
    requires MayRetry(req.policy, req.streaming) && Expected(req.ask) != Unset
    requires channel in req.snap.providers && Offers(req.snap.providers[channel], req.ask)
    requires model in req.snap.providers[channel].models && model != "" && !May(client, model)
    ensures !OnlyAllowedModels(client, req)
  {
    hide Candidates, OnlyAllowedModels, May, MayRetry, IsEnumeration, FirstOccurrences, Refusal, ResolveExplicit,
         NamesAreUnambiguous, CustomFallbackModels, ExpectedType, Offers;
    assert !ListedMay(client, req);
    ForwardsOnlyAllowedModels(client, req);
    CandidatesMay(client, req);
    if Candidates(req) == [] {
      NothingKept();
    }
  }

  lemma NothingKept()
    ensures FirstOccurrences([]) == []
  {
  }

  /** One channel with two models, and a client that may use only the first: when the channel fails for it,
      the request is sent again with the second. */
  lemma AnotherModelIsForwarded(url: string)
    ensures
      var snap := Snapshot(map["c" := Entry(OpenAI, url, ["m1", "m2"], 0, true, true)], map[], map[]);
      var policy := DEFAULT_POLICY.(mode := AnyModel);
      var req := Request(snap, Ask("/v1/chat", "", Unset), "m1", false, policy, ["c"], ["c"]);
      var client := Client(["k"], "", map["k" := ManagedKey(false, ["m1"])]);
      Enumerated(req) && Refusal(client, "m1") == None && !OnlyAllowedModels(client, req)
  {
    var entry := Entry(OpenAI, url, ["m1", "m2"], 0, true, true);
    var snap := Snapshot(map["c" := entry], map[], map[]);
    var policy := DEFAULT_POLICY.(mode := AnyModel);
    var req := Request(snap, Ask("/v1/chat", "", Unset), "m1", false, policy, ["c"], ["c"]);
    var client := Client(["k"], "", map["k" := ManagedKey(false, ["m1"])]);
    hide OnlyAllowedModels;
    assert client.credentials[0] == "k" && "m1" in ["m1"] && Matches("m1", "m1");
    assert !Matches("m1", "m2");
    assert "c" in ["c"] && entry.models[1] == "m2";
    AnyModelIgnoresTheList(client, req, "c", "m2");
  }
}
