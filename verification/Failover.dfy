/** Trying one upstream after another until one of them settles the request. */
module Failover {
  import opened Strings
  import opened Routing
  import opened Dedupe
  import opened Resolver
  import opened Clients

  datatype Mode = Disabled | SameModel | AnyModel

  datatype Rule = Rule(model: string, fallbacks: seq<string>)

  datatype Policy = Policy(
    enabled: bool, retryAttempts: int, mode: Mode, maxFallbackAttempts: int, custom: seq<Rule>,
    onTimeout: bool, onNetworkError: bool, codes: seq<int>, ranges: seq<string>)

  /** The policy in force when none is configured. */
  const DEFAULT_POLICY := Policy(true, 1, SameModel, 2, [], true, true, [408, 429], ["5xx"])

  // ----- One attempt -----

  /** Status codes have three digits. */
  type StatusCode = s: nat | s < 1000 witness 200

  datatype Trigger = Timeout | NetworkError | Status(status: StatusCode)

  predicate ShouldTrigger(policy: Policy, trigger: Trigger) {
    && policy.enabled
    && match trigger
       case Timeout => policy.onTimeout
       case NetworkError => policy.onNetworkError
       case Status(s) => s in policy.codes || ("5xx" in policy.ranges && 500 <= s <= 599)
  }

  /** What one attempt meets: a request that cannot be forwarded at all (answered on the spot), silence,
      a broken connection, or response headers. */
  datatype Outcome = Refused(status: StatusCode) | Silence | Broken | Answered(status: StatusCode)

  /** What the client is sent. */
  datatype Response = OwnError(status: nat) | Relayed(route: Route, status: nat)

  /** The status reported to the loop, whether to try again, and what was written to the client. */
  datatype Attempt = Attempt(status: nat, retry: bool, written: seq<Response>)

  function ForwardOnce(policy: Policy, streaming: bool, route: Route, outcome: Outcome): Attempt {
    match outcome
    case Refused(s) => Attempt(s, false, [OwnError(s)])
    case Silence =>
      if ShouldTrigger(policy, Timeout) then Attempt(0, true, []) else Attempt(0, false, [OwnError(504)])
    case Broken =>
      if ShouldTrigger(policy, NetworkError) then Attempt(0, true, []) else Attempt(0, false, [OwnError(502)])
    case Answered(s) =>
      if !streaming && s >= 400 && ShouldTrigger(policy, Status(s)) then Attempt(s, true, [])
      else Attempt(s, false, [Relayed(route, s)])
  }

  // ----- The candidates -----

  function RuleFor(rules: seq<Rule>, model: string): seq<string> {
    if rules == [] then []
    else if rules[0].model == model then rules[0].fallbacks
    else RuleFor(rules[1..], model)
  }

  /** The first rule for the model decides; without one there are no fallbacks. */
  lemma {:induction false} FirstRuleWins(rules: seq<Rule>, model: string, i: nat)
    requires i < |rules| ==> rules[i].model == model
    requires i <= |rules| && forall j :: 0 <= j < i ==> rules[j].model != model
    ensures RuleFor(rules, model) == if i < |rules| then rules[i].fallbacks else []
  {
    if i > 0 {
      FirstRuleWins(rules[1..], model, i - 1);
    }
  }

  function CustomFallbackModels(policy: Policy, model: string): seq<string> {
    if TrimSpace(model) == "" then [] else RuleFor(policy.custom, TrimSpace(model))
  }

  /** Everything a request's routes are computed from; `order` and `order'` are the orders in which the
      channel map is enumerated, once for the model and once for the fallback. */
  datatype Request = Request(snap: Snapshot, ask: Ask, model: string, streaming: bool, policy: Policy,
                             order: seq<string>, order': seq<string>)

  predicate Enumerated(req: Request) {
    IsEnumeration(req.order, req.snap.providers) && IsEnumeration(req.order', req.snap.providers)
  }

  function Explicit(req: Request): Option<Route> {
    ResolveExplicit(req.snap, req.ask.path, req.ask.search)
  }

  function Initial(req: Request): seq<Route>
    requires Enumerated(req)
  {
    match Explicit(req)
    case Some(r) => [r]
    case None => RoutesByModel(req.snap, req.ask, req.model, req.order)
  }

  function CustomPart(req: Request): seq<Route> {
    FallbackRoutes(req.snap, req.ask, CustomFallbackModels(req.policy, req.model))
  }

  function ModePart(req: Request): seq<Route>
    requires Enumerated(req)
  {
    match req.policy.mode
    case Disabled => []
    case SameModel => Initial(req)
    case AnyModel => AnyModelRoutes(req.snap, req.ask, req.order')
  }

  predicate FallsBack(req: Request) {
    Explicit(req).None? && req.policy.enabled && req.policy.maxFallbackAttempts > 0
  }

  function Candidates(req: Request): seq<Route>
    requires Enumerated(req)
  {
    if FallsBack(req) then FirstOccurrences(Initial(req) + CustomPart(req) + ModePart(req)) else Initial(req)
  }

  method BuildFailoverCandidates(req: Request, initial: seq<Route>) returns (routes: seq<Route>)
    requires Enumerated(req) && initial == Initial(req)
    ensures routes == Candidates(req)
  {
    hide RoutesByModel, ResolveExplicit, FallbackRoutes, AnyModelRoutes, FirstOccurrences, TrimSpace, RuleFor;
    if Explicit(req).Some? || !req.policy.enabled || req.policy.maxFallbackAttempts <= 0 {
      return initial;
    }
    routes := initial;
    var specs := CustomFallbackModels(req.policy, req.model);
    NoSpecsNoRoutes(req.snap, req.ask);
    if specs != [] {
      var more := ResolveRoutesForFallbackModels(req.snap, req.ask, specs);
      routes := routes + more;
    }
    assert routes == initial + CustomPart(req);
    match req.policy.mode {
      case AnyModel =>
        var more := ResolveRoutesForAnyModelFallback(req.snap, req.ask, req.order');
        routes := routes + more;
      case SameModel =>
        routes := routes + initial;
      case Disabled =>
        assert routes == routes + [];
    }
    routes := DedupeRoutes(routes);
  }

  lemma NoSpecsNoRoutes(snap: Snapshot, ask: Ask)
    ensures FallbackRoutes(snap, ask, []) == []
  {
  }

  /** Where candidates come from: a request that names its channel has that one; without a policy, or with no
      fallback attempts allowed, there are only the routes found for the request; otherwise the custom fallbacks
      and, in any-model mode, the listed models join them, in this order. */
  lemma {:induction false} CandidatesAre(req: Request, key: string)
    requires Enumerated(req)
    ensures Explicit(req).Some? ==> Candidates(req) == [Explicit(req).value]
    ensures Explicit(req).None? && (!req.policy.enabled || req.policy.maxFallbackAttempts <= 0) ==>
              Candidates(req) == RoutesByModel(req.snap, req.ask, req.model, req.order)
    ensures Explicit(req).None? && req.policy.enabled && req.policy.maxFallbackAttempts > 0 ==>
              (HasKey(Candidates(req), key) <==>
               || HasKey(RoutesByModel(req.snap, req.ask, req.model, req.order), key)
               || HasKey(FallbackRoutes(req.snap, req.ask, CustomFallbackModels(req.policy, req.model)), key)
               || (req.policy.mode == AnyModel && HasKey(AnyModelRoutes(req.snap, req.ask, req.order'), key)))
    ensures FallsBack(req) ==>
              FirstOccurrences(Initial(req) + FallbackRoutes(req.snap, req.ask,
                                                             CustomFallbackModels(req.policy, req.model)))
              <= Candidates(req)
  {
    EarlierStayInFront(Initial(req) + CustomPart(req), ModePart(req));
    hide RoutesByModel, ResolveExplicit, FallbackRoutes, AnyModelRoutes, FirstOccurrences, CustomFallbackModels, Key,
         HasKey, IsEnumeration;
    NoKeys(key);
    SameKeys(Initial(req) + CustomPart(req) + ModePart(req), key);
    HasKeyAppend(Initial(req) + CustomPart(req), ModePart(req), key);
    HasKeyAppend(Initial(req), CustomPart(req), key);
  }

  lemma NoKeys(key: string)
    ensures !HasKey([], key)
  {
  }

  /** The requested model is trimmed before its rule is looked up, and no rule is for an empty name. */
  lemma FallbackModelsAre(policy: Policy, model: string)
    ensures TrimSpace(model) == "" ==> CustomFallbackModels(policy, model) == []
    ensures TrimSpace(model) != "" ==>
              forall i: nat :: i < |policy.custom| && policy.custom[i].model == TrimSpace(model)
                               && (forall j :: 0 <= j < i ==> policy.custom[j].model != TrimSpace(model)) ==>
                CustomFallbackModels(policy, model) == policy.custom[i].fallbacks
  {
    hide RuleFor, TrimSpace;
    forall i: nat | && i < |policy.custom| && policy.custom[i].model == TrimSpace(model)
                    && forall j :: 0 <= j < i ==> policy.custom[j].model != TrimSpace(model)
      ensures RuleFor(policy.custom, TrimSpace(model)) == policy.custom[i].fallbacks
    {
      FirstRuleWins(policy.custom, TrimSpace(model), i);
    }
  }

  /** Repeating the initial routes for the same model adds nothing: the mode is the same as none. */
  lemma {:induction false} SameModelAddsNothing(req: Request)
    requires Enumerated(req) && req.policy.mode == SameModel
    ensures Candidates(req) == Candidates(req.(policy := req.policy.(mode := Disabled)))
  {
    hide RoutesByModel, ResolveExplicit, FallbackRoutes, AnyModelRoutes, FirstOccurrences, TrimSpace, RuleFor, Key,
         IsEnumeration;
    var other := req.(policy := req.policy.(mode := Disabled));
    var initial := Initial(req);
    assert Initial(other) == initial && CustomPart(other) == CustomPart(req);
    assert FallsBack(other) == FallsBack(req);
    var base := initial + CustomPart(req);
    assert base + ModePart(other) == base;
    forall i | 0 <= i < |initial|
      ensures HasKey(base, Key(initial[i]))
    {
      assert base[i] == initial[i];
    }
    KnownKeysAddNothing(base, initial);
  }

  /** The routes found for the request itself stay in front, so the first attempt goes to the very route
      whose type shapes the error a refused client would get. */
  lemma InitialStaysInFront(req: Request)
    requires Enumerated(req) && Initial(req) != []
    ensures Candidates(req) != [] && Candidates(req)[0] == Initial(req)[0]
    ensures FallsBack(req) ==> FirstOccurrences(Initial(req)) <= Candidates(req)
  {
    hide RoutesByModel, ResolveExplicit, FallbackRoutes, AnyModelRoutes, TrimSpace, RuleFor, Key, IsEnumeration;
    if FallsBack(req) {
      var initial, rest := Initial(req), CustomPart(req) + ModePart(req);
      assert initial + CustomPart(req) + ModePart(req) == initial + rest;
      EarlierStayInFront(initial, rest);
      EarlierStayInFront([initial[0]], initial[1..]);
      assert initial == [initial[0]] + initial[1..];
      assert FirstOccurrences([initial[0]]) == [initial[0]];
    }
  }

  /** Every candidate of a request that names no channel leads to an enabled channel of the type the
      request asks for. */
  lemma EveryCandidateIsSound(req: Request)
    requires Enumerated(req) && Explicit(req).None?
    ensures AllSound(req.snap, req.ask, Candidates(req))
    ensures forall r :: r in Candidates(req) ==> r.kind == Expected(req.ask)
  {
    hide RoutesByModel, ResolveExplicit, FallbackRoutes, AnyModelRoutes, FirstOccurrences, TrimSpace, RuleFor,
         IsEnumeration, BuildRoute, ExpectedType, Explicit;
    ModelRoutesAreSound(req.snap, req.ask, req.model, req.order);
    FallbackRoutesAreSound(req.snap, req.ask, CustomFallbackModels(req.policy, req.model));
    AnyModelRoutesAreSound(req.snap, req.ask, req.order');
    KeptWereThere(Initial(req) + CustomPart(req) + ModePart(req));
  }

  lemma AnyModelRoutesAreSound(snap: Snapshot, ask: Ask, order: seq<string>)
    requires IsEnumeration(order, snap.providers)
    ensures AllSound(snap, ask, AnyModelRoutes(snap, ask, order))
  {
    hide ExpectedType, AnyRoutes, Sound, SortChannels;
    if Expected(ask) != Unset {
      AnyRoutesAreSound(snap, ask, SortChannels(snap.providers, order));
    }
  }

  // ----- The loop -----

  /** A distinct route is tried once if the client named it, else once more than the retry count. */
  function MaxTries(explicit: bool, policy: Policy): nat {
    if explicit then 1 else if policy.retryAttempts < 0 then 0 else policy.retryAttempts + 1
  }

  /** How often a distinct route may be tried. */
  lemma TriesAllowed(policy: Policy)
    ensures MaxTries(true, policy) == 1
    ensures policy.retryAttempts >= 0 ==> MaxTries(false, policy) == policy.retryAttempts + 1
    ensures policy.retryAttempts < 0 ==> MaxTries(false, policy) == 0
  {
  }

  function Times(route: Route, n: nat): (r: seq<Route>)
    ensures |r| == n && forall i :: 0 <= i < n ==> r[i] == route
  {
    if n == 0 then [] else Times(route, n - 1) + [route]
  }

  /** Each distinct route in order, each as often as it may be tried. */
  function Schedule(routes: seq<Route>, tries: nat): seq<Route> {
    if routes == [] then []
    else Schedule(routes[..|routes| - 1], tries) + Times(routes[|routes| - 1], tries)
  }

  function Plan(candidates: seq<Route>, tries: nat): seq<Route> {
    Schedule(FirstOccurrences(candidates), tries)
  }

  /** What the upstream does, attempt by attempt. */
  type Upstream = nat -> Outcome

  predicate Retried(policy: Policy, streaming: bool, outcome: Outcome) {
    ForwardOnce(policy, streaming, Route("", Unset, "", "", ""), outcome).retry
  }

  /** A retry because of the answer's status: the loop believes a response was written. */
  predicate RetriedOnStatus(policy: Policy, streaming: bool, outcome: Outcome) {
    Retried(policy, streaming, outcome) && outcome.Answered?
  }

  predicate AllRetried(policy: Policy, streaming: bool, upstream: Upstream, n: nat) {
    forall k: nat :: k < n ==> Retried(policy, streaming, upstream(k))
  }

  predicate SomeOnStatus(policy: Policy, streaming: bool, upstream: Upstream, n: nat) {
    exists k: nat :: k < n && RetriedOnStatus(policy, streaming, upstream(k))
  }

  const ALL_FAILED := OwnError(502)

  /** The attempts follow the plan up to the first that is not retried, which writes the response; if
      all are retried, the closing 502 is sent only when none was retried on its status. */
  predicate IsRun(policy: Policy, streaming: bool, plan: seq<Route>, upstream: Upstream,
                  calls: seq<Route>, responses: seq<Response>) {
    && calls <= plan
    && if AllRetried(policy, streaming, upstream, |calls|) then
         && calls == plan
         && responses == if SomeOnStatus(policy, streaming, upstream, |calls|) then [] else [ALL_FAILED]
       else
         && calls != []
         && AllRetried(policy, streaming, upstream, |calls| - 1)
         && responses == ForwardOnce(policy, streaming, calls[|calls| - 1], upstream(|calls| - 1)).written
  }

  lemma RetriedWritesNothing(policy: Policy, streaming: bool, route: Route, outcome: Outcome)
    ensures
      var a := ForwardOnce(policy, streaming, route, outcome);
      && a.retry == Retried(policy, streaming, outcome)
      && (a.retry ==> a.written == [] && (a.status != 0 <==> RetriedOnStatus(policy, streaming, outcome)))
      && (!a.retry ==> |a.written| == 1)
  {
  }

  lemma RunStops(policy: Policy, streaming: bool, plan: seq<Route>, upstream: Upstream, calls: seq<Route>,
                 route: Route)
    requires calls + [route] <= plan && AllRetried(policy, streaming, upstream, |calls|)
    requires !ForwardOnce(policy, streaming, route, upstream(|calls|)).retry
    ensures IsRun(policy, streaming, plan, upstream, calls + [route],
                  ForwardOnce(policy, streaming, route, upstream(|calls|)).written)
  {
    hide ForwardOnce;
    RetriedWritesNothing(policy, streaming, route, upstream(|calls|));
    assert !Retried(policy, streaming, upstream(|calls|));
  }

  lemma RunExhausts(policy: Policy, streaming: bool, plan: seq<Route>, upstream: Upstream)
    requires AllRetried(policy, streaming, upstream, |plan|)
    ensures IsRun(policy, streaming, plan, upstream, plan,
                  if SomeOnStatus(policy, streaming, upstream, |plan|) then [] else [ALL_FAILED])
  {
  }

  lemma NothingAttemptedYet(policy: Policy, streaming: bool, upstream: Upstream)
    ensures AllRetried(policy, streaming, upstream, 0) && !SomeOnStatus(policy, streaming, upstream, 0)
  {
  }

  lemma OneMoreAttempt(policy: Policy, streaming: bool, upstream: Upstream, n: nat)
    ensures AllRetried(policy, streaming, upstream, n + 1) <==>
              AllRetried(policy, streaming, upstream, n) && Retried(policy, streaming, upstream(n))
    ensures SomeOnStatus(policy, streaming, upstream, n + 1) <==>
              SomeOnStatus(policy, streaming, upstream, n) || RetriedOnStatus(policy, streaming, upstream(n))
  {
    hide Retried, RetriedOnStatus;
  }

  /** The failover loop. */
  method Forward(policy: Policy, streaming: bool, explicit: bool, candidates: seq<Route>, upstream: Upstream)
    returns (calls: seq<Route>, responses: seq<Response>)
    ensures IsRun(policy, streaming, Plan(candidates, MaxTries(explicit, policy)), upstream, calls, responses)
  {
    hide ForwardOnce, Key, HasKey, Plan, Retried, RetriedOnStatus, MaxTries, AllRetried, SomeOnStatus, IsRun;
    calls, responses := [], [];
    var attempted := {};
    var wroteResponse := false;
    var tries := MaxTries(explicit, policy);
    NothingPlannedYet(candidates, tries);
    NothingAttemptedYet(policy, streaming, upstream);
    for idx := 0 to |candidates|
      invariant forall key :: key in attempted <==> HasKey(candidates[..idx], key)
      invariant calls == Plan(candidates[..idx], tries) && responses == []
      invariant AllRetried(policy, streaming, upstream, |calls|)
      invariant wroteResponse == SomeOnStatus(policy, streaming, upstream, |calls|)
    {
      var route := candidates[idx];
      var key := Key(route);
      OneMore(candidates, idx);
      PlanGrows(candidates, idx, tries);
      if key in attempted && idx > 0 {
        continue;
      }
      attempted := attempted + {key};
      ghost var before := calls;
      for try := 0 to tries
        invariant calls == before + Times(route, try) && responses == []
        invariant AllRetried(policy, streaming, upstream, |calls|)
        invariant wroteResponse == SomeOnStatus(policy, streaming, upstream, |calls|)
      {
        var attempt := ForwardOnce(policy, streaming, route, upstream(|calls|));
        RetriedWritesNothing(policy, streaming, route, upstream(|calls|));
        OneMoreAttempt(policy, streaming, upstream, |calls|);
        calls := calls + [route];
        responses := responses + attempt.written;
        if !attempt.retry {
          AttemptIsPlanned(candidates, idx, tries, try);
          RunStops(policy, streaming, Plan(candidates, tries), upstream, before + Times(route, try), route);
          assert responses == attempt.written;
          return;
        }
        if attempt.status != 0 {
          wroteResponse := true;
        }
        if try + 1 >= tries {
          if idx == |candidates| - 1 && wroteResponse {
            assert candidates[..idx + 1] == candidates;
            assert calls == Plan(candidates, tries);
            RunExhausts(policy, streaming, calls, upstream);
            return;
          }
        }
      }
    }
    assert candidates[..|candidates|] == candidates;
    assert calls == Plan(candidates, tries);
    RunExhausts(policy, streaming, calls, upstream);
    if !wroteResponse {
      responses := responses + [ALL_FAILED];
      assert responses == [ALL_FAILED];
    }
  }

  lemma NothingPlannedYet(candidates: seq<Route>, tries: nat)
    ensures Plan(candidates[..0], tries) == []
    ensures forall key :: !HasKey(candidates[..0], key)
  {
  }

  lemma PlanGrows(candidates: seq<Route>, idx: nat, tries: nat)
    requires idx < |candidates|
    ensures Plan(candidates[..idx + 1], tries) ==
            Plan(candidates[..idx], tries)
            + if HasKey(candidates[..idx], Key(candidates[idx])) then [] else Times(candidates[idx], tries)
  {
    hide Key, HasKey, FirstOccurrences;
    OneMore(candidates, idx);
    var kept := FirstOccurrences(candidates[..idx]);
    assert (kept + [candidates[idx]])[..|kept|] == kept;
    assert kept + [] == kept;
  }

  lemma {:induction false} SchedulePrefix(routes: seq<Route>, more: seq<Route>, tries: nat)
    ensures Schedule(routes, tries) <= Schedule(routes + more, tries)
  {
    if more == [] {
      assert routes + more == routes;
    } else {
      var front := more[..|more| - 1];
      assert (routes + more)[..|routes + more| - 1] == routes + front;
      SchedulePrefix(routes, front, tries);
    }
  }

  lemma PlanPrefix(candidates: seq<Route>, idx: nat, tries: nat)
    requires idx <= |candidates|
    ensures Plan(candidates[..idx], tries) <= Plan(candidates, tries)
  {
    hide FirstOccurrences, Schedule;
    assert candidates == candidates[..idx] + candidates[idx..];
    EarlierStayInFront(candidates[..idx], candidates[idx..]);
    var a, b := FirstOccurrences(candidates[..idx]), FirstOccurrences(candidates);
    assert b == a + b[|a|..];
    SchedulePrefix(a, b[|a|..], tries);
  }

  lemma AttemptIsPlanned(candidates: seq<Route>, idx: nat, tries: nat, try: nat)
    requires idx < |candidates| && try < tries
    requires !HasKey(candidates[..idx], Key(candidates[idx]))
    ensures Plan(candidates[..idx], tries) + Times(candidates[idx], try) + [candidates[idx]]
            <= Plan(candidates, tries)
  {
    hide Key, HasKey, FirstOccurrences, Schedule;
    PlanGrows(candidates, idx, tries);
    PlanPrefix(candidates, idx + 1, tries);
    var before := Plan(candidates[..idx], tries);
    assert Times(candidates[idx], try) + [candidates[idx]] == Times(candidates[idx], tries)[..try + 1];
  }

  // ----- What every run keeps -----

  /** The upstream's behaviour decides the run. */
  lemma RunIsDetermined(policy: Policy, streaming: bool, plan: seq<Route>, upstream: Upstream,
                        calls: seq<Route>, responses: seq<Response>, calls': seq<Route>,
                        responses': seq<Response>)
    requires IsRun(policy, streaming, plan, upstream, calls, responses)
    requires IsRun(policy, streaming, plan, upstream, calls', responses')
    ensures calls == calls' && responses == responses'
  {
    hide Retried, RetriedOnStatus, ForwardOnce;
    assert |calls| == |calls'|;
  }

  /** Attempt `k` settled the run with the given response. */
  predicate Ends(calls: seq<Route>, responses: seq<Response>, k: nat, response: Response) {
    |calls| == k + 1 && responses == [response]
  }

  /** Another attempt followed attempt `k`, or there was none left. */
  predicate GoesOn(plan: seq<Route>, calls: seq<Route>, k: nat) {
    |calls| > k + 1 || calls == plan
  }

  /** What each attempt of a run leads to.  A request that cannot be forwarded ends it with its own status.  Silence
      ends it with 504 if the policy is disabled or does not retry on timeouts, a broken connection with 502 if
      the policy is disabled or does not retry on network errors, and otherwise the run goes on.  An answer is
      relayed, unless it is an error the policy retries on and the request does not stream. */
  lemma AttemptSettles(policy: Policy, streaming: bool, plan: seq<Route>, upstream: Upstream, calls: seq<Route>,
                       responses: seq<Response>, k: nat)
    requires IsRun(policy, streaming, plan, upstream, calls, responses) && k < |calls|
    ensures
      match upstream(k)
      case Refused(s) => Ends(calls, responses, k, OwnError(s))
      case Silence =>
        if policy.enabled && policy.onTimeout then GoesOn(plan, calls, k)
        else Ends(calls, responses, k, OwnError(504))
      case Broken =>
        if policy.enabled && policy.onNetworkError then GoesOn(plan, calls, k)
        else Ends(calls, responses, k, OwnError(502))
      case Answered(s) =>
        if && policy.enabled && !streaming && s >= 400
           && (s in policy.codes || ("5xx" in policy.ranges && 500 <= s <= 599))
        then GoesOn(plan, calls, k)
        else Ends(calls, responses, k, Relayed(calls[k], s))
  {
    if Retried(policy, streaming, upstream(k)) {
      assert |calls| > k + 1 || calls == plan;
    } else {
      assert !AllRetried(policy, streaming, upstream, |calls|);
      assert |calls| == k + 1;
    }
  }

  /** Once every attempt has gone on the closing answer is a 502, unless some attempt was answered. */
  lemma ClosingAnswer(policy: Policy, streaming: bool, plan: seq<Route>, upstream: Upstream, calls: seq<Route>,
                      responses: seq<Response>)
    requires IsRun(policy, streaming, plan, upstream, calls, responses)
    requires AllRetried(policy, streaming, upstream, |calls|)
    ensures calls == plan
    ensures responses ==
            if exists k: nat :: k < |plan| && upstream(k).Answered? then [] else [OwnError(502)]
  {
    hide ForwardOnce;
    if k: nat :| k < |plan| && upstream(k).Answered? {
      assert RetriedOnStatus(policy, streaming, upstream(k));
    } else {
      assert !SomeOnStatus(policy, streaming, upstream, |plan|);
    }
  }

  /** The switch for timeouts is about silence only. */
  lemma TimeoutSwitchIsForSilence(policy: Policy, onTimeout: bool, streaming: bool, plan: seq<Route>,
                                  upstream: Upstream, calls: seq<Route>, responses: seq<Response>)
    requires forall k: nat :: k < |plan| ==> !upstream(k).Silence?
    ensures IsRun(policy, streaming, plan, upstream, calls, responses) <==>
            IsRun(policy.(onTimeout := onTimeout), streaming, plan, upstream, calls, responses)
  {
    SameOutcomes(policy, policy.(onTimeout := onTimeout), streaming, plan, upstream, calls, responses);
  }

  /** The switch for network errors is about broken connections only. */
  lemma NetworkSwitchIsForBreaks(policy: Policy, onNetworkError: bool, streaming: bool, plan: seq<Route>,
                                 upstream: Upstream, calls: seq<Route>, responses: seq<Response>)
    requires forall k: nat :: k < |plan| ==> !upstream(k).Broken?
    ensures IsRun(policy, streaming, plan, upstream, calls, responses) <==>
            IsRun(policy.(onNetworkError := onNetworkError), streaming, plan, upstream, calls, responses)
  {
    SameOutcomes(policy, policy.(onNetworkError := onNetworkError), streaming, plan, upstream, calls, responses);
  }

  /** Policies that treat every attempt alike have the same runs. */
  lemma SameOutcomes(policy: Policy, other: Policy, streaming: bool, plan: seq<Route>, upstream: Upstream,
                     calls: seq<Route>, responses: seq<Response>)
    requires forall k: nat, route :: k < |plan| ==>
               ForwardOnce(policy, streaming, route, upstream(k)) == ForwardOnce(other, streaming, route, upstream(k))
    ensures IsRun(policy, streaming, plan, upstream, calls, responses) <==>
            IsRun(other, streaming, plan, upstream, calls, responses)
  {
    hide ForwardOnce;
    if calls <= plan {
      forall k: nat | k < |plan|
        ensures Retried(policy, streaming, upstream(k)) == Retried(other, streaming, upstream(k))
      {
      }
      hide Retried;
      assert forall n: nat :: n <= |plan| ==>
          AllRetried(policy, streaming, upstream, n) == AllRetried(other, streaming, upstream, n);
      assert forall n: nat :: n <= |plan| ==>
          SomeOnStatus(policy, streaming, upstream, n) == SomeOnStatus(other, streaming, upstream, n);
    }
  }

  /** At most one response is ever written, and none at all exactly when every planned attempt was made
      and retried, at least one of them because of its status. */
  lemma NoResponseExactlyWhen(policy: Policy, streaming: bool, plan: seq<Route>, upstream: Upstream,
                              calls: seq<Route>, responses: seq<Response>)
    requires IsRun(policy, streaming, plan, upstream, calls, responses)
    ensures |responses| <= 1
    ensures responses == [] <==>
              AllRetried(policy, streaming, upstream, |plan|) && SomeOnStatus(policy, streaming, upstream, |plan|)
  {
    hide Retried, RetriedOnStatus, ForwardOnce;
    if !AllRetried(policy, streaming, upstream, |calls|) {
      var n := |calls| - 1;
      assert !Retried(policy, streaming, upstream(n));
      RetriedWritesNothing(policy, streaming, calls[n], upstream(n));
    }
  }

  /** When all retries made were for timeouts and broken connections, exactly one response is written, and it is
      the closing 502 when the plan was exhausted. */
  lemma FailuresAreAnswered(policy: Policy, streaming: bool, plan: seq<Route>, upstream: Upstream,
                            calls: seq<Route>, responses: seq<Response>)
    requires IsRun(policy, streaming, plan, upstream, calls, responses)
    requires !SomeOnStatus(policy, streaming, upstream, |calls|)
    ensures |responses| == 1
    ensures AllRetried(policy, streaming, upstream, |calls|) ==> calls == plan && responses == [ALL_FAILED]
  {
    hide Retried, RetriedOnStatus, ForwardOnce;
    NoResponseExactlyWhen(policy, streaming, plan, upstream, calls, responses);
  }

  /** The policy can retry an answered request because of its status. */
  predicate RetriesOnStatus(policy: Policy) {
    policy.enabled && ("5xx" in policy.ranges || exists code :: code in policy.codes && 400 <= code < 1000)
  }

  ghost predicate AlwaysAnswers(policy: Policy, streaming: bool, plan: seq<Route>) {
    forall upstream: Upstream, calls, responses ::
      IsRun(policy, streaming, plan, upstream, calls, responses) ==> |responses| == 1
  }

  /** Whatever the upstream does the client gets exactly one response, if and only if the request
      streams, or no route is to be tried, or the policy never retries on a status. */
  lemma AnswersExactlyWhen(policy: Policy, streaming: bool, plan: seq<Route>)
    ensures AlwaysAnswers(policy, streaming, plan) <==> streaming || plan == [] || !RetriesOnStatus(policy)
  {
    if streaming || plan == [] || !RetriesOnStatus(policy) {
      forall upstream: Upstream, calls, responses | IsRun(policy, streaming, plan, upstream, calls, responses)
        ensures |responses| == 1
      {
        NoResponseExactlyWhen(policy, streaming, plan, upstream, calls, responses);
      }
    } else {
      var code: StatusCode := if "5xx" in policy.ranges then 503 else
        var c :| c in policy.codes && 400 <= c < 1000; c;
      LosesTheResponse(policy, plan, code);
    }
  }

  /** If every route keeps answering with a status the policy retries on, nothing is ever written. */
  lemma LosesTheResponse(policy: Policy, plan: seq<Route>, code: StatusCode)
    requires plan != [] && code >= 400 && ShouldTrigger(policy, Status(code))
    ensures IsRun(policy, false, plan, _ => Answered(code), plan, [])
  {
    var upstream: Upstream := _ => Answered(code);
    assert RetriedOnStatus(policy, false, upstream(0));
    assert AllRetried(policy, false, upstream, |plan|);
    assert SomeOnStatus(policy, false, upstream, |plan|);
  }

  /** With the default policy, one channel that keeps answering 503 is tried twice and the client is
      sent nothing. */
  lemma DefaultPolicyLosesTheResponse(route: Route)
    ensures Plan([route], MaxTries(false, DEFAULT_POLICY)) == [route, route]
    ensures IsRun(DEFAULT_POLICY, false, [route, route], _ => Answered(503), [route, route], [])
    ensures !AlwaysAnswers(DEFAULT_POLICY, false, [route, route])
  {
    var two := Times(route, 2);
    assert two == [route, route];
    assert FirstOccurrences([route]) == [route];
    assert Schedule([route], 2) == Schedule([], 2) + two;
    LosesTheResponse(DEFAULT_POLICY, [route, route], 503);
  }

  function CallsWith(calls: seq<Route>, key: string): nat {
    if calls == [] then 0
    else CallsWith(calls[..|calls| - 1], key) + if Key(calls[|calls| - 1]) == key then 1 else 0
  }

  lemma CallsWithAppend(a: seq<Route>, b: seq<Route>, key: string)
    ensures CallsWith(a + b, key) == CallsWith(a, key) + CallsWith(b, key)
  {
    hide Key;
    if b == [] {
      assert a + b == a;
    } else {
      assert (a + b)[..|a + b| - 1] == a + b[..|b| - 1];
      CallsWithAppend(a, b[..|b| - 1], key);
    }
  }

  lemma CallsWithTimes(route: Route, n: nat, key: string)
    ensures CallsWith(Times(route, n), key) == if Key(route) == key then n else 0
  {
    hide Key;
    if n > 0 {
      CallsWithTimes(route, n - 1, key);
      assert Times(route, n)[..n - 1] == Times(route, n - 1);
    }
  }

  lemma {:induction false} CallsInSchedule(routes: seq<Route>, tries: nat, key: string)
    requires DistinctKeys(routes)
    ensures CallsWith(Schedule(routes, tries), key) == if HasKey(routes, key) then tries else 0
  {
    if routes != [] {
      hide Key, HasKey, DistinctKeys, CallsWith, Times;
      var front, last := routes[..|routes| - 1], routes[|routes| - 1];
      assert routes == front + [last];
      LastIsNew(front, last);
      CallsInSchedule(front, tries, key);
      HasKeySnoc(front, last);
      CallsWithAppend(Schedule(front, tries), Times(last, tries), key);
      CallsWithTimes(last, tries, key);
    }
  }

  lemma LastIsNew(front: seq<Route>, last: Route)
    requires DistinctKeys(front + [last])
    ensures DistinctKeys(front) && !HasKey(front, Key(last))
  {
    hide Key;
    var routes := front + [last];
    forall i | 0 <= i < |front|
      ensures Key(front[i]) != Key(last)
    {
      assert routes[i] == front[i] && routes[|front|] == last;
    }
    assert routes[..|front|] == front;
  }

  /** No distinct route is attempted more often than its tries allow, and each is attempted exactly that
      often when the run exhausts the plan. */
  lemma {:induction false} TriesPerRoute(policy: Policy, streaming: bool, candidates: seq<Route>, tries: nat,
                                         upstream: Upstream, calls: seq<Route>, responses: seq<Response>,
                                         key: string)
    requires IsRun(policy, streaming, Plan(candidates, tries), upstream, calls, responses)
    ensures CallsWith(calls, key) <= if HasKey(candidates, key) then tries else 0
    ensures AllRetried(policy, streaming, upstream, |calls|) && HasKey(candidates, key) ==>
              CallsWith(calls, key) == tries
  {
    hide Key, HasKey, FirstOccurrences, Schedule, CallsWith, AllRetried;
    var plan := Plan(candidates, tries);
    KeysAreDistinct(candidates);
    SameKeys(candidates, key);
    CallsInSchedule(FirstOccurrences(candidates), tries, key);
    assert plan == calls + plan[|calls|..];
    CallsWithAppend(calls, plan[|calls|..], key);
  }

  // ----- The request as a whole -----

  lemma {:induction false} ScheduleMembers(routes: seq<Route>, tries: nat)
    ensures forall r :: r in Schedule(routes, tries) ==> r in routes
  {
    if routes != [] {
      ScheduleMembers(routes[..|routes| - 1], tries);
    }
  }

  /** Everything is forwarded to channels of one kind, that of the first route found. */
  lemma {:induction false} CallsShareOneKind(req: Request, calls: seq<Route>)
    requires Enumerated(req) && Initial(req) != []
    requires calls <= Plan(Candidates(req), MaxTries(Explicit(req).Some?, req.policy))
    ensures forall r :: r in calls ==> r in Candidates(req) && r.kind == Initial(req)[0].kind
  {
    hide RoutesByModel, ResolveExplicit, FallbackRoutes, AnyModelRoutes, FirstOccurrences, Schedule,
         IsEnumeration, ExpectedType, CustomPart, ModePart;
    var tries := MaxTries(Explicit(req).Some?, req.policy);
    var plan := Plan(Candidates(req), tries);
    ScheduleMembers(FirstOccurrences(Candidates(req)), tries);
    KeptWereThere(Candidates(req));
    InitialStaysInFront(req);
    if Explicit(req).None? {
      EveryCandidateIsSound(req);
      assert Candidates(req)[0] in Candidates(req);
    }
    forall r | r in calls
      ensures r in plan
    {
      var i :| 0 <= i < |calls| && calls[i] == r;
      assert plan[i] == r;
    }
  }

  /** One request, from its path to its last attempt. */
  method HandleProxy(req: Request, client: Client, upstream: Upstream)
    returns (calls: seq<Route>, responses: seq<Response>)
    requires Enumerated(req)
    ensures Initial(req) == [] ==> calls == [] && responses == [OwnError(400)]
    ensures Initial(req) != [] && Refusal(client, req.model).Some? ==>
              calls == [] && responses == [OwnError(Refusal(client, req.model).value)]
    ensures Initial(req) != [] && Refusal(client, req.model).None? ==>
              IsRun(req.policy, req.streaming, Plan(Candidates(req), MaxTries(Explicit(req).Some?, req.policy)),
                    upstream, calls, responses)
    ensures |responses| <= 1
    ensures Explicit(req).Some? ==> |calls| <= 1
    ensures forall r :: r in calls ==> r in Candidates(req) && r.kind == Initial(req)[0].kind
  {
    hide RoutesByModel, ResolveExplicit, Candidates, Plan, IsEnumeration, ExpectedType, IsRun, MaxTries, Refusal;
    var explicit := ResolveExplicit(req.snap, req.ask.path, req.ask.search);
    var initial: seq<Route>;
    if explicit.Some? {
      initial := [explicit.value];
    } else {
      initial := ResolveRoutesByModel(req.snap, req.ask, req.model, req.order);
    }
    if initial == [] {
      return [], [OwnError(400)];
    }
    var refusal := Refusal(client, req.model);
    if refusal.Some? {
      return [], [OwnError(refusal.value)];
    }
    var candidates := BuildFailoverCandidates(req, initial);
    calls, responses := Forward(req.policy, req.streaming, explicit.Some?, candidates, upstream);
    var plan := Plan(candidates, MaxTries(explicit.Some?, req.policy));
    NoResponseExactlyWhen(req.policy, req.streaming, plan, upstream, calls, responses);
    RunFollowsThePlan(req.policy, req.streaming, plan, upstream, calls, responses);
    CallsShareOneKind(req, calls);
    if explicit.Some? {
      TriesAllowed(req.policy);
      OnePlanned(explicit.value);
      CandidatesAre(req, "");
    }
  }

  lemma OnePlanned(route: Route)
    ensures Plan([route], 1) == [route]
  {
    hide Key, HasKey;
    assert [route][..0] == [];
    assert FirstOccurrences([]) == [] && !HasKey([], Key(route)) by {
      NoKeys(Key(route));
    }
    assert FirstOccurrences([route]) == [route];
    assert Times(route, 0) == [] && Times(route, 1) == [route];
    assert Schedule([], 1) == [] && Schedule([route], 1) == [route];
  }

  lemma RunFollowsThePlan(policy: Policy, streaming: bool, plan: seq<Route>, upstream: Upstream,
                          calls: seq<Route>, responses: seq<Response>)
    requires IsRun(policy, streaming, plan, upstream, calls, responses)
    ensures calls <= plan
  {
  }
}
