/** Dropping repeated routes, in place, the way both the resolver and the failover list do it. */
module Dedupe {
  import opened Routing

  /** Routes with the same key count as the same attempt, and only the first of them is kept. */
  function Key(route: Route): string {
    route.channel + ":" + route.resolvedModel + ":" + route.url
  }

  /** One name continues the other behind a colon. */
  predicate Extends(name: string, longer: string) {
    name + ":" <= longer
  }

  /** The longer channel name of `b` takes the first part of the model of `a` away from it. */
  predicate Shifted(a: Route, b: Route) {
    && Extends(a.channel, b.channel)
    && a.resolvedModel == b.channel[|a.channel| + 1..] + ":" + b.resolvedModel
  }

  lemma SameEnd(a: string, b: string, end: string)
    requires a + end == b + end
    ensures a == b
  {
    var s := a + end;
    assert |a| == |b|;
    assert a == s[..|a|] && b == s[..|b|];
  }

  /** If two names, each followed by a colon, begin the same text, one of them extends the other unless
      they are equal. */
  lemma SameText(a: string, b: string, x: string, y: string)
    requires a + ":" + x == b + ":" + y
    ensures a == b ==> x == y
    ensures |a| < |b| ==> Extends(a, b) && x == b[|a| + 1..] + ":" + y
    ensures |a| == |b| ==> a == b
  {
    var s := a + ":" + x;
    assert a == s[..|a|] && b == s[..|b|] && x == s[|a| + 1..] && y == s[|b| + 1..];
    if |a| < |b| {
      assert b[..|a| + 1] == s[..|a| + 1] == a + ":";
      assert x == s[|a| + 1..|b|] + s[|b|..] && s[|b|..] == ":" + y;
      assert b[|a| + 1..] == s[|a| + 1..|b|];
    }
  }

  lemma ShiftedText(a: Route, b: Route)
    requires Shifted(a, b)
    ensures a.channel + ":" + a.resolvedModel == b.channel + ":" + b.resolvedModel
  {
    var x := b.channel[|a.channel| + 1..];
    assert b.channel == (a.channel + ":") + x;
    assert a.channel + ":" + a.resolvedModel == ((a.channel + ":") + x) + (":" + b.resolvedModel);
  }

  /** At one address two routes have the same key exactly when they are for the same channel and model, or
      one channel's name extends the other's and the models make up for it. */
  lemma SameKeyExactlyWhen(a: Route, b: Route)
    requires a.url == b.url
    ensures Key(a) == Key(b) <==>
            (a.channel == b.channel && a.resolvedModel == b.resolvedModel) || Shifted(a, b) || Shifted(b, a)
  {
    hide Shifted;
    var x, y := a.channel + ":" + a.resolvedModel, b.channel + ":" + b.resolvedModel;
    assert Key(a) == x + (":" + a.url) && Key(b) == y + (":" + b.url);
    if Key(a) == Key(b) {
      SameEnd(x, y, ":" + a.url);
      SameText(a.channel, b.channel, a.resolvedModel, b.resolvedModel);
      SameText(b.channel, a.channel, b.resolvedModel, a.resolvedModel);
      ShiftedIs(a, b);
      ShiftedIs(b, a);
    } else {
      if Shifted(a, b) {
        ShiftedText(a, b);
      } else if Shifted(b, a) {
        ShiftedText(b, a);
      }
    }
  }

  lemma ShiftedIs(a: Route, b: Route)
    ensures (&& Extends(a.channel, b.channel)
             && a.resolvedModel == b.channel[|a.channel| + 1..] + ":" + b.resolvedModel) ==> Shifted(a, b)
  {
  }

  /** Between channels whose names do not extend each other, a key tells channel and model. */
  lemma KeyTellsApart(a: Route, b: Route)
    requires !Extends(a.channel, b.channel) && !Extends(b.channel, a.channel)
    requires a.channel == b.channel ==> a.url == b.url
    ensures Key(a) == Key(b) <==> a.channel == b.channel && a.resolvedModel == b.resolvedModel
  {
    hide Extends;
    var x, y := a.resolvedModel + ":" + a.url, b.resolvedModel + ":" + b.url;
    assert Key(a) == a.channel + ":" + x && Key(b) == b.channel + ":" + y;
    if Key(a) == Key(b) {
      SameText(a.channel, b.channel, x, y);
      SameText(b.channel, a.channel, y, x);
      assert x == a.resolvedModel + (":" + a.url) && y == b.resolvedModel + (":" + b.url);
      SameEnd(a.resolvedModel, b.resolvedModel, ":" + a.url);
    }
  }

  predicate HasKey(routes: seq<Route>, key: string) {
    exists i :: 0 <= i < |routes| && Key(routes[i]) == key
  }

  /** Each key's first route, in order. */
  function FirstOccurrences(routes: seq<Route>): seq<Route> {
    if routes == [] then []
    else
      var front, last := routes[..|routes| - 1], routes[|routes| - 1];
      FirstOccurrences(front) + if HasKey(front, Key(last)) then [] else [last]
  }

  /** No earlier route has the key of route `i`. */
  predicate IsFirstOfKey(routes: seq<Route>, i: nat)
    requires i < |routes|
  {
    !HasKey(routes[..i], Key(routes[i]))
  }

  predicate DistinctKeys(routes: seq<Route>) {
    forall i, j :: 0 <= i < j < |routes| ==> Key(routes[i]) != Key(routes[j])
  }

  predicate Increasing(positions: seq<nat>) {
    forall i, j :: 0 <= i < j < |positions| ==> positions[i] < positions[j]
  }

  lemma FirstOccurrencesSnoc(front: seq<Route>, last: Route)
    ensures FirstOccurrences(front + [last]) ==
            FirstOccurrences(front) + if HasKey(front, Key(last)) then [] else [last]
  {
    assert (front + [last])[..|front|] == front;
  }

  lemma HasKeyAppend(a: seq<Route>, b: seq<Route>, key: string)
    ensures HasKey(a + b, key) <==> HasKey(a, key) || HasKey(b, key)
  {
    hide Key;
    if HasKey(a, key) {
      var i :| 0 <= i < |a| && Key(a[i]) == key;
      assert (a + b)[i] == a[i];
    }
    if HasKey(b, key) {
      var i :| 0 <= i < |b| && Key(b[i]) == key;
      assert (a + b)[|a| + i] == b[i];
    }
  }

  lemma HasKeyOne(route: Route, key: string)
    ensures HasKey([route], key) <==> Key(route) == key
  {
    assert [route][0] == route;
  }

  lemma HasKeySnoc(front: seq<Route>, last: Route)
    ensures forall k :: HasKey(front + [last], k) <==> HasKey(front, k) || k == Key(last)
  {
    forall k
      ensures HasKey(front + [last], k) <==> HasKey(front, k) || k == Key(last)
    {
      HasKeyAppend(front, [last], k);
      HasKeyOne(last, k);
    }
  }

  /** Dropping repeats keeps every key. */
  lemma {:induction false} SameKeys(routes: seq<Route>, key: string)
    ensures HasKey(FirstOccurrences(routes), key) <==> HasKey(routes, key)
  {
    if routes != [] {
      hide Key, HasKey;
      var front, last := routes[..|routes| - 1], routes[|routes| - 1];
      assert routes == front + [last];
      SameKeys(front, key);
      HasKeyAppend(front, [last], key);
      HasKeyAppend(FirstOccurrences(front), [last], key);
      HasKeyOne(last, key);
      assert FirstOccurrences(front) + [] == FirstOccurrences(front);
    }
  }

  /** The kept routes are those at exactly the positions where a key appears first, in order. */
  lemma {:induction false} KeepsTheFirsts(routes: seq<Route>) returns (positions: seq<nat>)
    ensures Increasing(positions) && |positions| == |FirstOccurrences(routes)|
    ensures forall k :: 0 <= k < |positions| ==>
              positions[k] < |routes| && FirstOccurrences(routes)[k] == routes[positions[k]]
    ensures forall i: nat :: i in positions <==> i < |routes| && IsFirstOfKey(routes, i)
  {
    positions := [];
    if routes != [] {
      hide Key, HasKey;
      var front, last := routes[..|routes| - 1], routes[|routes| - 1];
      assert routes == front + [last];
      var earlier := KeepsTheFirsts(front);
      forall i: nat | i < |front|
        ensures IsFirstOfKey(routes, i) <==> IsFirstOfKey(front, i)
      {
        assert routes[..i] == front[..i];
      }
      forall i: nat | i in earlier
        ensures i < |front|
      {
      }
      positions := earlier + if HasKey(front, Key(last)) then [] else [|front|];
    }
  }

  lemma {:induction false} KeysAreDistinct(routes: seq<Route>)
    ensures DistinctKeys(FirstOccurrences(routes))
  {
    if routes != [] {
      hide Key;
      var front, last := routes[..|routes| - 1], routes[|routes| - 1];
      var kept := FirstOccurrences(front);
      KeysAreDistinct(front);
      SameKeys(front, Key(last));
      forall i | 0 <= i < |kept|
        ensures !HasKey(front, Key(last)) ==> Key(kept[i]) != Key(last)
      {
      }
    }
  }

  lemma {:induction false} DistinctStays(routes: seq<Route>)
    requires DistinctKeys(routes)
    ensures FirstOccurrences(routes) == routes
  {
    if routes != [] {
      hide Key;
      var front, last := routes[..|routes| - 1], routes[|routes| - 1];
      assert routes == front + [last];
      DistinctStays(front);
      forall i | 0 <= i < |front|
        ensures Key(front[i]) != Key(last)
      {
        assert routes[i] == front[i] && routes[|front|] == last;
      }
    }
  }

  /** Routes whose keys are all present already change nothing. */
  lemma {:induction false} KnownKeysAddNothing(routes: seq<Route>, more: seq<Route>)
    requires forall i :: 0 <= i < |more| ==> HasKey(routes, Key(more[i]))
    ensures FirstOccurrences(routes + more) == FirstOccurrences(routes)
  {
    if more == [] {
      assert routes + more == routes;
    } else {
      hide Key, HasKey, FirstOccurrences;
      var front, last := more[..|more| - 1], more[|more| - 1];
      assert routes + more == (routes + front) + [last];
      KnownKeysAddNothing(routes, front);
      HasKeyAppend(routes, front, Key(last));
      FirstOccurrencesSnoc(routes + front, last);
    }
  }

  /** Whatever is appended, the routes kept so far stay in front. */
  lemma {:induction false} EarlierStayInFront(routes: seq<Route>, more: seq<Route>)
    ensures FirstOccurrences(routes) <= FirstOccurrences(routes + more)
  {
    if more == [] {
      assert routes + more == routes;
    } else {
      hide Key, HasKey, FirstOccurrences;
      var front, last := more[..|more| - 1], more[|more| - 1];
      assert routes + more == (routes + front) + [last];
      EarlierStayInFront(routes, front);
      FirstOccurrencesSnoc(routes + front, last);
    }
  }

  lemma KeptWereThere(routes: seq<Route>)
    ensures forall r :: r in FirstOccurrences(routes) ==> r in routes
    ensures routes != [] ==> FirstOccurrences(routes) != []
  {
    hide Key, FirstOccurrences;
    var positions := KeepsTheFirsts(routes);
    if routes != [] {
      assert HasKey(routes, Key(routes[0]));
      SameKeys(routes, Key(routes[0]));
    }
  }

  lemma OneMore(routes: seq<Route>, i: nat)
    requires i < |routes|
    ensures FirstOccurrences(routes[..i + 1]) ==
            FirstOccurrences(routes[..i]) + if HasKey(routes[..i], Key(routes[i])) then [] else [routes[i]]
    ensures forall k :: HasKey(routes[..i + 1], k) <==> HasKey(routes[..i], k) || k == Key(routes[i])
  {
    hide Key, HasKey, FirstOccurrences;
    assert routes[..i + 1] == routes[..i] + [routes[i]];
    FirstOccurrencesSnoc(routes[..i], routes[i]);
    HasKeySnoc(routes[..i], routes[i]);
  }

  /** The shared slice loop: routes seen before are skipped, the rest are moved to the front of the
      same array, and what lies behind them is left as it was. */
  method DedupeInPlace(routes: array<Route>) returns (n: nat)
    modifies routes
    ensures n <= routes.Length
    ensures routes[..n] == FirstOccurrences(old(routes[..]))
    ensures routes[n..] == old(routes[n..])
  {
    hide Key, HasKey, FirstOccurrences;
    ghost var was := routes[..];
    ghost var kept: seq<Route> := [];
    var seen := {};
    n := 0;
    NothingSeen(was);
    for i := 0 to routes.Length
      invariant n <= i && n == |kept| && kept == FirstOccurrences(was[..i])
      invariant forall key :: key in seen <==> HasKey(was[..i], key)
      invariant forall k :: 0 <= k < n ==> routes[k] == kept[k]
      invariant forall k :: n <= k < routes.Length ==> routes[k] == was[k]
    {
      var route := routes[i];
      var key := Key(route);
      OneMore(was, i);
      if key in seen {
        continue;
      }
      seen := seen + {key};
      routes[n] := route;
      kept := kept + [route];
      n := n + 1;
    }
    assert was[..routes.Length] == was;
    assert routes[..n] == kept && routes[n..] == was[n..];
  }

  lemma NothingSeen(routes: seq<Route>)
    ensures FirstOccurrences(routes[..0]) == [] && forall key :: !HasKey(routes[..0], key)
  {
  }

  /** Deduplicates a freshly built list. */
  method DedupeRoutes(routes: seq<Route>) returns (kept: seq<Route>)
    ensures kept == FirstOccurrences(routes)
  {
    var slice := new Route[|routes|](i requires 0 <= i < |routes| => routes[i]);
    assert slice[..] == routes;
    var n := DedupeInPlace(slice);
    kept := slice[..n];
  }
}
