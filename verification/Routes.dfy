/** Mounted routes: the worklist over every path, and the handler a request lands on. */
module Routes {
  import opened Text

  type Scope = nat
  type Handler = nat

  /** A route or container: `routes` for a mount, `router` for an included router, `answers` the requests it
      matches in full. */
  datatype Route = Route(path: Option<string>, endpoint: Option<Handler>, routes: seq<Route>, router: Router,
                         answers: set<Scope>)

  datatype Router = NoRouter | Router(inner: seq<Route>)

  function Included(r: Route): seq<Route> { if r.router.Router? then r.router.inner else [] }

  // ------------------------------------------------------------------ every path

  /** The route forest, node by node. */
  function Forest(rs: seq<Route>): seq<Route>
    decreases rs
  {
    if rs == [] then []
    else
      [rs[0]] + Forest(rs[0].routes) + (if rs[0].router.Router? then Forest(rs[0].router.inner) else [])
      + Forest(rs[1..])
  }

  function Paths(nodes: seq<Route>): set<string> {
    set n | n in nodes && n.path.Some? :: n.path.value
  }

  lemma {:induction false} ForestJoins(a: seq<Route>, b: seq<Route>)
    ensures Forest(a + b) == Forest(a) + Forest(b)
    decreases |a|
  {
    if a == [] {
      assert a + b == b;
    } else {
      assert (a + b)[1..] == a[1..] + b;
      ForestJoins(a[1..], b);
    }
  }

  lemma PathsJoin(a: seq<Route>, b: seq<Route>)
    ensures Paths(a + b) == Paths(a) + Paths(b)
  {
    forall p | p in Paths(a) + Paths(b) ensures p in Paths(a + b) {
      if p in Paths(a) { var n :| n in a && n.path == Some(p); assert n in a + b; }
      else { var n :| n in b && n.path == Some(p); assert n in a + b; }
    }
  }

  /** The pushes still owed: a node's `routes` go onto the stack twice. */
  function Weight(rs: seq<Route>): nat
    decreases rs
  {
    if rs == [] then 0
    else
      1 + 2 * Weight(rs[0].routes) + (if rs[0].router.Router? then Weight(rs[0].router.inner) else 0)
      + Weight(rs[1..])
  }

  lemma {:induction false} WeightJoins(a: seq<Route>, b: seq<Route>)
    ensures Weight(a + b) == Weight(a) + Weight(b)
    decreases |a|
  {
    if a == [] {
      assert a + b == b;
    } else {
      assert (a + b)[1..] == a[1..] + b;
      WeightJoins(a[1..], b);
    }
  }

  function Own(r: Route): set<string> { if r.path.Some? then {r.path.value} else {} }

  lemma PopPaths(rest: seq<Route>, r: Route)
    ensures
      Paths(Forest(rest + [r]))
      == Paths(Forest(rest)) + Own(r) + Paths(Forest(r.routes)) + Paths(Forest(Included(r)))
  {
    PushOne(rest, [r]);
    OnePaths(r);
  }

  lemma OnePaths(r: Route)
    ensures Paths(Forest([r])) == Own(r) + Paths(Forest(r.routes)) + Paths(Forest(Included(r)))
  {
    assert Forest([r]) == [r] + Forest(r.routes) + Forest(Included(r));
    PathsJoin([r] + Forest(r.routes), Forest(Included(r)));
    PathsJoin([r], Forest(r.routes));
    assert Paths([r]) == Own(r);
  }

  lemma PushPaths(rest: seq<Route>, r: Route)
    ensures
      Paths(Forest(rest + r.routes + r.routes + Included(r)))
      == Paths(Forest(rest)) + Paths(Forest(r.routes)) + Paths(Forest(Included(r)))
  {
    PushOne(rest + r.routes + r.routes, Included(r));
    PushOne(rest + r.routes, r.routes);
    PushOne(rest, r.routes);
  }

  lemma PushOne(rest: seq<Route>, more: seq<Route>)
    ensures Paths(Forest(rest + more)) == Paths(Forest(rest)) + Paths(Forest(more))
  {
    ForestJoins(rest, more);
    PathsJoin(Forest(rest), Forest(more));
  }

  lemma StackShrinks(rest: seq<Route>, r: Route)
    ensures Weight(rest + r.routes + r.routes + Included(r)) < Weight(rest + [r])
  {
    WeightJoins(rest + r.routes + r.routes, Included(r));
    WeightJoins(rest + r.routes, r.routes);
    WeightJoins(rest, r.routes);
    WeightJoins(rest, [r]);
    assert Weight([r]) == 1 + 2 * Weight(r.routes) + Weight(Included(r));
  }

  /** One turn of the worklist: the popped node's own path, and what is then on the stack. */
  lemma WorklistTurn(rest: seq<Route>, r: Route)
    ensures Paths(Forest(rest + [r])) == Own(r) + Paths(Forest(rest + r.routes + r.routes + Included(r)))
  {
    PopPaths(rest, r);
    PushPaths(rest, r);
  }

  /** The worklist terminates and finds exactly the paths of the forest. */
  method ReachablePaths(routes: seq<Route>) returns (found: set<string>)
    ensures found == Paths(Forest(routes))
  {
    found := {};
    var stack := routes;
    while stack != []
      invariant found + Paths(Forest(stack)) == Paths(Forest(routes))
      decreases Weight(stack)
    {
      var route := stack[|stack| - 1];
      var rest := stack[..|stack| - 1];
      assert stack == rest + [route];
      WorklistTurn(rest, route);
      StackShrinks(rest, route);
      stack := rest;
      stack := stack + route.routes;
      stack := stack + route.routes;
      if route.path.Some? { found := found + {route.path.value}; }
      if route.router.Router? { stack := stack + route.router.inner; }
      assert stack == rest + route.routes + route.routes + Included(route);
    }
  }

  /** Including a router makes every path under it reachable, and loses none. */
  lemma InclusionServesTheRouter(routes: seq<Route>, container: Route)
    ensures
      Paths(Forest(routes + [container]))
      == Paths(Forest(routes)) + Own(container) + Paths(Forest(container.routes)) + Paths(Forest(Included(container)))
  {
    PopPaths(routes, container);
  }

  lemma {:induction false} TopLevelIsInTheForest(rs: seq<Route>, k: nat)
    requires k < |rs|
    ensures rs[k] in Forest(rs)
    decreases |rs|
  {
    if k > 0 {
      TopLevelIsInTheForest(rs[1..], k - 1);
      assert rs[1..][k - 1] == rs[k];
    }
  }

  /** `mount` asks after every route it included, and finds it. */
  lemma MountCheckPasses(routes: seq<Route>, container: Route, k: nat)
    requires k < |Included(container)| && Included(container)[k].path.Some?
    ensures Included(container)[k].path.value in Paths(Forest(routes + [container]))
  {
    InclusionServesTheRouter(routes, container);
    TopLevelIsInTheForest(Included(container), k);
  }

  /** `n` is one of the routes, or hangs below one by its `routes` or its included router. */
  predicate Hangs(rs: seq<Route>, n: Route)
    decreases rs
  {
    n in rs || exists k :: 0 <= k < |rs| && HangsBelow(rs[k], n)
  }

  predicate HangsBelow(r: Route, n: Route)
    decreases r
  {
    Hangs(r.routes, n) || (r.router.Router? && Hangs(r.router.inner, n))
  }

  lemma HangsSplit(rs: seq<Route>, n: Route)
    requires rs != []
    ensures Hangs(rs, n) <==> n == rs[0] || HangsBelow(rs[0], n) || Hangs(rs[1..], n)
  {
    if k :| 0 <= k < |rs| && HangsBelow(rs[k], n) {
      if k > 0 { assert HangsBelow(rs[1..][k - 1], n); }
    }
    if k :| 0 <= k < |rs[1..]| && HangsBelow(rs[1..][k], n) { assert HangsBelow(rs[k + 1], n); }
  }

  lemma {:induction false} ForestHangs(rs: seq<Route>, n: Route)
    ensures n in Forest(rs) <==> Hangs(rs, n)
    decreases rs
  {
    if rs != [] {
      HangsSplit(rs, n);
      ForestHangs(rs[0].routes, n);
      if rs[0].router.Router? { ForestHangs(rs[0].router.inner, n); }
      ForestHangs(rs[1..], n);
    }
  }

  /** The paths found are those of the routes that hang anywhere below. */
  lemma PathsExactly(rs: seq<Route>, p: string)
    ensures p in Paths(Forest(rs)) <==> exists n :: Hangs(rs, n) && n.path == Some(p)
  {
    if p in Paths(Forest(rs)) {
      var n :| n in Forest(rs) && n.path == Some(p);
      ForestHangs(rs, n);
    }
    if n :| Hangs(rs, n) && n.path == Some(p) {
      ForestHangs(rs, n);
      assert n.path.value in Paths(Forest(rs));
    }
  }

  // ------------------------------------------------------------------ the handler of a request

  /** An endpoint with the containers above it. */
  datatype Leaf = Leaf(handler: Handler, chain: seq<Route>)

  /** Every endpoint, depth first; what has an endpoint is not descended into. */
  function Leaves(rs: seq<Route>, above: seq<Route>): seq<Leaf>
    decreases rs
  {
    if rs == [] then []
    else
      var chain := above + [rs[0]];
      (if rs[0].endpoint.Some? then [Leaf(rs[0].endpoint.value, chain)]
       else if rs[0].router.Router? then Leaves(rs[0].router.inner, chain) else [])
      + Leaves(rs[1..], above)
  }

  predicate AllAnswer(chain: seq<Route>, scope: Scope) { forall i :: 0 <= i < |chain| ==> scope in chain[i].answers }

  /** The handlers whose whole chain matches, in order. */
  function Matching(leaves: seq<Leaf>, scope: Scope): seq<Handler> {
    if leaves == [] then []
    else (if AllAnswer(leaves[0].chain, scope) then [leaves[0].handler] else []) + Matching(leaves[1..], scope)
  }

  function Last(hs: seq<Handler>): Option<Handler> { if hs == [] then None else Some(hs[|hs| - 1]) }

  function Landing(rs: seq<Route>, scope: Scope): seq<Handler> { Matching(Leaves(rs, []), scope) }

  lemma {:induction false} MatchingJoins(a: seq<Leaf>, b: seq<Leaf>, scope: Scope)
    ensures Matching(a + b, scope) == Matching(a, scope) + Matching(b, scope)
  {
    if a == [] {
      assert a + b == b;
    } else {
      var head := if AllAnswer(a[0].chain, scope) then [a[0].handler] else [];
      calc {
        Matching(a + b, scope);
        { assert (a + b)[0] == a[0] && (a + b)[1..] == a[1..] + b; }
        head + Matching(a[1..] + b, scope);
        { MatchingJoins(a[1..], b, scope); }
        head + (Matching(a[1..], scope) + Matching(b, scope));
        (head + Matching(a[1..], scope)) + Matching(b, scope);
        Matching(a, scope) + Matching(b, scope);
      }
    }
  }

  lemma {:induction false} LeavesJoin(a: seq<Route>, b: seq<Route>, above: seq<Route>)
    ensures Leaves(a + b, above) == Leaves(a, above) + Leaves(b, above)
    decreases |a|
  {
    if a == [] {
      assert a + b == b;
    } else {
      assert (a + b)[1..] == a[1..] + b;
      LeavesJoin(a[1..], b, above);
    }
  }

  lemma AnswersStep(above: seq<Route>, r: Route, scope: Scope)
    ensures AllAnswer(above + [r], scope) <==> AllAnswer(above, scope) && scope in r.answers
  {
    var chain := above + [r];
    assert chain[|above|] == r;
    forall i | 0 <= i < |above| ensures chain[i] == above[i] {}
  }

  /** The leaves one route contributes, under `above`. */
  function Contribution(r: Route, above: seq<Route>): seq<Leaf> {
    if r.endpoint.Some? then [Leaf(r.endpoint.value, above + [r])]
    else if r.router.Router? then Leaves(r.router.inner, above + [r]) else []
  }

  /** Containers above a list of routes let all of its matches through, or none. */
  lemma {:induction false} MatchesUnder(rs: seq<Route>, above: seq<Route>, scope: Scope)
    ensures Matching(Leaves(rs, above), scope) == if AllAnswer(above, scope) then Landing(rs, scope) else []
    decreases rs
  {
    if rs != [] {
      ContributionUnder(rs[0], above, scope);
      ContributionUnder(rs[0], [], scope);
      MatchesUnder(rs[1..], above, scope);
      MatchesUnder(rs[1..], [], scope);
      MatchingJoins(Contribution(rs[0], above), Leaves(rs[1..], above), scope);
      MatchingJoins(Contribution(rs[0], []), Leaves(rs[1..], []), scope);
    }
  }

  /** What one route answers for a request: its endpoint, else what its router lands on, if it matches. */
  function Answer(r: Route, scope: Scope): seq<Handler> {
    if scope !in r.answers then []
    else if r.endpoint.Some? then [r.endpoint.value]
    else if r.router.Router? then Landing(r.router.inner, scope) else []
  }

  lemma {:induction false} ContributionUnder(r: Route, above: seq<Route>, scope: Scope)
    ensures Matching(Contribution(r, above), scope) == if AllAnswer(above, scope) then Answer(r, scope) else []
    decreases r
  {
    AnswersStep(above, r, scope);
    if r.endpoint.None? && r.router.Router? { MatchesUnder(r.router.inner, above + [r], scope); }
  }

  lemma LandingJoins(before: seq<Route>, r: Route, scope: Scope)
    ensures Landing(before + [r], scope) == Landing(before, scope) + Answer(r, scope)
  {
    LeavesJoin(before, [r], []);
    assert Leaves([r], []) == Contribution(r, []) + [] == Contribution(r, []);
    ContributionUnder(r, [], scope);
    MatchingJoins(Leaves(before, []), Leaves([r], []), scope);
  }

  /** The resolver's loop, descending into each matching container, finds the last matching leaf of the
      flattened forest. */
  method ResolveRouteHandler(routes: seq<Route>, scope: Scope) returns (handler: Option<Handler>)
    ensures handler == Last(Landing(routes, scope))
    decreases routes
  {
    handler := None;
    for i := 0 to |routes|
      invariant handler == Last(Landing(routes[..i], scope))
    {
      var route := routes[i];
      LandingJoins(routes[..i], route, scope);
      assert routes[..i + 1] == routes[..i] + [route];
      if scope !in route.answers { continue; }
      if route.endpoint.Some? {
        handler := route.endpoint;
        continue;
      }
      if route.router.Router? {
        var inner := ResolveRouteHandler(route.router.inner, scope);
        if inner.Some? { handler := inner; }
      }
    }
    assert routes[..|routes|] == routes;
  }

  /** A route with an endpoint, added at the top level after everything else, prices every request it matches;
      a request it does not match lands where it did. */
  lemma LastRouteWins(routes: seq<Route>, probe: Route, scope: Scope)
    requires probe.endpoint.Some?
    ensures
      Last(Landing(routes + [probe], scope))
      == if scope in probe.answers then probe.endpoint else Last(Landing(routes, scope))
  {
    LandingJoins(routes, probe, scope);
  }

  /** No route, no handler; and a route that does not match, or has neither endpoint nor router, prices nothing. */
  lemma DeadRoutesPriceNothing(routes: seq<Route>, r: Route, scope: Scope)
    requires scope !in r.answers || (r.endpoint.None? && r.router.NoRouter?)
    ensures Last(Landing(routes + [r], scope)) == Last(Landing(routes, scope))
    ensures Last(Landing([], scope)) == None
  {
    LandingJoins(routes, r, scope);
  }

  /** A mounted endpoint prices its request: a container that matches, appended last, lands the request where
      its own router does whenever that router has a match at all. */
  lemma MountedRoutesArePriced(routes: seq<Route>, container: Route, scope: Scope)
    requires container.endpoint.None? && container.router.Router? && scope in container.answers
    ensures
      var inner := Last(Landing(container.router.inner, scope));
      Last(Landing(routes + [container], scope)) == if inner.Some? then inner else Last(Landing(routes, scope))
  {
    LandingJoins(routes, container, scope);
  }
}
