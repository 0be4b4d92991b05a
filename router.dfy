/**
 * The hash router (web/js/router.js): a route table kept in insertion order,
 * segment-by-segment pattern matching with `:name` parameters, and
 * navigation with a session-dependent fallback.
 */
module Router {
  import opened Common
  import opened Query
  import Auth

  /** A registered handler: `{ page, init }`, where `init` may be missing. */
  datatype Handler<H> = Handler(page: string, init: Option<H>)

  type Route<H> = (string, Handler<H>)

  // ---------------------------------------------------------------------
  // matchRoute
  // ---------------------------------------------------------------------

  /** A pattern segment that starts with `:` binds the path segment under the rest of its name. */
  predicate IsParam(seg: string) {
    |seg| > 0 && seg[0] == ':'
  }

  predicate NoParams(pattern: string) {
    forall k :: 0 <= k < |Split(pattern, '/')| ==> !IsParam(Split(pattern, '/')[k])
  }

  /** Same segment count, and every literal pattern segment equals the path segment. */
  predicate SegmentsAgree(pp: seq<string>, ps: seq<string>) {
    |pp| == |ps| && forall k :: 0 <= k < |pp| && !IsParam(pp[k]) ==> pp[k] == ps[k]
  }

  /** The `params[name] = segment` assignments of the matching loop, in order. */
  function Bindings(pp: seq<string>, ps: seq<string>): (es: seq<Entry>)
    requires |pp| == |ps|
    ensures |es| <= |pp|
    decreases |pp|
  {
    if pp == [] then []
    else
      var n := |pp| - 1;
      Bindings(pp[..n], ps[..n]) + (if IsParam(pp[n]) then [(pp[n][1..], ps[n])] else [])
  }

  /** `matchRoute(pattern, path)`: the bound parameters, or `None` for `null`. */
  function RouteMatch(pattern: string, path: string): (r: Option<map<string, string>>)
    ensures |Split(pattern, '/')| != |Split(path, '/')| ==> r.None?
    ensures r.Some? ==> forall k :: 0 <= k < |Split(pattern, '/')| && !IsParam(Split(pattern, '/')[k]) ==>
                          Split(pattern, '/')[k] == Split(path, '/')[k]
  {
    var pp := Split(pattern, '/');
    var ps := Split(path, '/');
    if SegmentsAgree(pp, ps) then Some(FromEntries(Bindings(pp, ps))) else None
  }

  /** A `:name` segment binds `name` to the raw path segment at its index (the last such segment wins). */
  lemma {:induction false} BindingsLastWins(pp: seq<string>, ps: seq<string>, i: nat)
    requires |pp| == |ps| && i < |pp| && IsParam(pp[i])
    requires forall j :: i < j < |pp| && IsParam(pp[j]) ==> pp[j][1..] != pp[i][1..]
    ensures pp[i][1..] in FromEntries(Bindings(pp, ps))
    ensures FromEntries(Bindings(pp, ps))[pp[i][1..]] == ps[i]
    decreases |pp|
  {
    var n := |pp| - 1;
    var front := Bindings(pp[..n], ps[..n]);
    if i == n {
      assert Bindings(pp, ps) == front + [(pp[n][1..], ps[n])];
      assert (front + [(pp[n][1..], ps[n])])[..|front|] == front;
    } else {
      assert pp[..n][i] == pp[i];
      assert forall j :: i < j < n ==> pp[..n][j] == pp[j];
      BindingsLastWins(pp[..n], ps[..n], i);
      if IsParam(pp[n]) {
        assert Bindings(pp, ps) == front + [(pp[n][1..], ps[n])];
        assert (front + [(pp[n][1..], ps[n])])[..|front|] == front;
      } else {
        assert Bindings(pp, ps) == front + [];
        assert front + [] == front;
      }
    }
  }

  /** On a match, each `:name` of the pattern is bound to the path segment at the same index. */
  lemma MatchBindsParams(pattern: string, path: string, i: nat)
    requires RouteMatch(pattern, path).Some?
    requires i < |Split(pattern, '/')| && IsParam(Split(pattern, '/')[i])
    requires forall j :: i < j < |Split(pattern, '/')| && IsParam(Split(pattern, '/')[j]) ==>
               Split(pattern, '/')[j][1..] != Split(pattern, '/')[i][1..]
    ensures Split(pattern, '/')[i][1..] in RouteMatch(pattern, path).value
    ensures RouteMatch(pattern, path).value[Split(pattern, '/')[i][1..]] == Split(path, '/')[i]
  {
    BindingsLastWins(Split(pattern, '/'), Split(path, '/'), i);
  }

  /** A pattern without parameters binds nothing. */
  lemma {:induction false} NoParamBindings(pp: seq<string>, ps: seq<string>)
    requires |pp| == |ps|
    requires forall k :: 0 <= k < |pp| ==> !IsParam(pp[k])
    ensures Bindings(pp, ps) == []
    decreases |pp|
  {
    if pp != [] {
      var n := |pp| - 1;
      assert forall k :: 0 <= k < n ==> pp[..n][k] == pp[k];
      NoParamBindings(pp[..n], ps[..n]);
    }
  }

  /** A pattern without parameters matches exactly the path equal to it, binding nothing. */
  lemma LiteralMatch(pattern: string, path: string)
    requires NoParams(pattern)
    ensures RouteMatch(pattern, path).Some? <==> pattern == path
    ensures RouteMatch(pattern, path).Some? ==> RouteMatch(pattern, path).value == map[]
  {
    var pp := Split(pattern, '/');
    var ps := Split(path, '/');
    if SegmentsAgree(pp, ps) {
      assert pp == ps;
      SplitInjective(pattern, path, '/');
      NoParamBindings(pp, ps);
    }
  }

  /** One more segment adds at most one binding, at the end. */
  lemma BindingsStep(pp: seq<string>, ps: seq<string>, i: nat)
    requires |pp| == |ps| && i < |pp|
    ensures SegmentsAgree(pp[..i + 1], ps[..i + 1]) <==> SegmentsAgree(pp[..i], ps[..i]) && (IsParam(pp[i]) || pp[i] == ps[i])
    ensures IsParam(pp[i]) ==> Bindings(pp[..i + 1], ps[..i + 1]) == Bindings(pp[..i], ps[..i]) + [(pp[i][1..], ps[i])]
    ensures !IsParam(pp[i]) ==> Bindings(pp[..i + 1], ps[..i + 1]) == Bindings(pp[..i], ps[..i])
  {
    assert pp[..i + 1][..i] == pp[..i];
    assert ps[..i + 1][..i] == ps[..i];
    assert Bindings(pp[..i], ps[..i]) + [] == Bindings(pp[..i], ps[..i]);
  }

  /** `matchRoute`, with its loop and early `return null`. */
  method MatchRoute(pattern: string, path: string) returns (r: Option<map<string, string>>)
    ensures r == RouteMatch(pattern, path)
  {
    var patternParts := Split(pattern, '/');
    var pathParts := Split(path, '/');
    if |patternParts| != |pathParts| {
      return None;
    }
    var params: map<string, string> := map[];
    var i := 0;
    while i < |patternParts|
      invariant 0 <= i <= |patternParts|
      invariant SegmentsAgree(patternParts[..i], pathParts[..i])
      invariant params == FromEntries(Bindings(patternParts[..i], pathParts[..i]))
    {
      BindingsStep(patternParts, pathParts, i);
      if IsParam(patternParts[i]) {
        FromEntriesSnoc(Bindings(patternParts[..i], pathParts[..i]), (patternParts[i][1..], pathParts[i]));
        params := params[patternParts[i][1..] := pathParts[i]];
      } else if patternParts[i] != pathParts[i] {
        return None;
      }
      i := i + 1;
    }
    assert patternParts[..i] == patternParts && pathParts[..i] == pathParts;
    return Some(params);
  }

  // ---------------------------------------------------------------------
  // The route table
  // ---------------------------------------------------------------------

  /**
   * A key JavaScript treats as an array index ("0", "17", not "017"):
   * `Object.entries` lists such keys first, in numeric order, and every
   * other key in insertion order.  `Patterns` is the insertion order, which
   * is what `Object.entries` gives when no key is of this form.
   */
  predicate IndexKey(key: string) {
    && key != []
    && (forall i :: 0 <= i < |key| ==> '0' <= key[i] <= '9')
    && (key[0] == '0' ==> key == "0")
  }

  /** `Object.entries(routes)` for a table with no array-index key: the patterns in table order. */
  function Patterns<H>(routes: seq<Route<H>>): (ps: seq<string>)
    ensures |ps| == |routes|
    ensures forall k :: 0 <= k < |routes| ==> ps[k] == routes[k].0
  {
    if routes == [] then [] else [routes[0].0] + Patterns(routes[1..])
  }

  /** Object keys are unique. */
  predicate DistinctPatterns<H>(routes: seq<Route<H>>) {
    forall i, j :: 0 <= i < j < |routes| ==> routes[i].0 != routes[j].0
  }

  /** `routes[pattern]`. */
  function Lookup<H>(routes: seq<Route<H>>, pattern: string): (r: Option<Handler<H>>)
    ensures r.None? <==> pattern !in Patterns(routes)
  {
    if routes == [] then None
    else if routes[0].0 == pattern then Some(routes[0].1)
    else Lookup(routes[1..], pattern)
  }

  /** `routes[pattern] = handler`: an existing key keeps its place, a new one goes last. */
  function Registered<H>(routes: seq<Route<H>>, pattern: string, h: Handler<H>): (r: seq<Route<H>>)
    requires DistinctPatterns(routes)
    ensures pattern in Patterns(routes) ==> |r| == |routes| && Patterns(r) == Patterns(routes)
    ensures pattern !in Patterns(routes) ==> r == routes + [(pattern, h)]
    ensures forall k :: 0 <= k < |routes| && routes[k].0 != pattern ==> r[k] == routes[k]
    ensures forall k :: 0 <= k < |routes| && routes[k].0 == pattern ==> r[k] == (pattern, h)
  {
    if routes == [] then [(pattern, h)]
    else if routes[0].0 == pattern then [(pattern, h)] + routes[1..]
    else [routes[0]] + Registered(routes[1..], pattern, h)
  }

  /** After registering, looking the pattern up gives the new handler, and the keys stay distinct. */
  lemma RegisterThenLookup<H>(routes: seq<Route<H>>, pattern: string, h: Handler<H>)
    requires DistinctPatterns(routes)
    ensures DistinctPatterns(Registered(routes, pattern, h))
    ensures Lookup(Registered(routes, pattern, h), pattern) == Some(h)
  {
    var r := Registered(routes, pattern, h);
    if pattern in Patterns(routes) {
      var k :| 0 <= k < |routes| && Patterns(routes)[k] == pattern;
      assert r[k] == (pattern, h);
      LookupFinds(r, k);
    } else {
      assert forall k :: 0 <= k < |routes| ==> routes[k].0 != pattern;
      LookupFinds(r, |routes|);
    }
  }

  /** With distinct keys, looking up the pattern at index k finds the handler at k. */
  lemma {:induction false} LookupFinds<H>(routes: seq<Route<H>>, k: nat)
    requires DistinctPatterns(routes) && k < |routes|
    ensures Lookup(routes, routes[k].0) == Some(routes[k].1)
    decreases k
  {
    if k > 0 {
      assert routes[0].0 != routes[k].0;
      assert routes[1..][k - 1] == routes[k];
      LookupFinds(routes[1..], k - 1);
    }
  }

  /** Registering distinct patterns one after another lays the table out in registration order. */
  lemma RegisterFresh<H>(routes: seq<Route<H>>, n: nat)
    requires DistinctPatterns(routes) && n < |routes|
    ensures DistinctPatterns(routes[..n])
    ensures Registered(routes[..n], routes[n].0, routes[n].1) == routes[..n + 1]
  {
    assert routes[n].0 !in Patterns(routes[..n]);
    assert routes[..n] + [routes[n]] == routes[..n + 1];
  }

  /** The index of the first pattern, in table order, that matches the path. */
  function FirstMatch<H>(routes: seq<Route<H>>, path: string): (r: Option<nat>)
    ensures r.Some? ==> r.value < |routes| && RouteMatch(routes[r.value].0, path).Some?
    ensures r.Some? ==> forall j :: 0 <= j < r.value ==> RouteMatch(routes[j].0, path).None?
    ensures r.None? ==> forall j :: 0 <= j < |routes| ==> RouteMatch(routes[j].0, path).None?
  {
    if routes == [] then None
    else if RouteMatch(routes[0].0, path).Some? then Some(0)
    else
      match FirstMatch(routes[1..], path)
      case None => None
      case Some(k) =>
        assert forall j :: 1 <= j < k + 1 ==> routes[j] == routes[1..][j - 1];
        Some(k + 1)
  }

  /** `{ ...routeParams, ...params }`. */
  function Merge(routeParams: map<string, string>, queryParams: map<string, string>): (m: map<string, string>)
    ensures m.Keys == routeParams.Keys + queryParams.Keys
    ensures forall k :: k in queryParams ==> m[k] == queryParams[k]
    ensures forall k :: k in routeParams && k !in queryParams ==> m[k] == routeParams[k]
  {
    routeParams + queryParams
  }

  /** With no query parameters, the route's own bindings pass through unchanged. */
  lemma MergeNothing(routeParams: map<string, string>)
    ensures Merge(routeParams, map[]) == routeParams
  {
  }

  /** The path of a hash: the first `#` removed, then the text before the first `?`. */
  function HashPath(hash: string): (p: string)
    ensures '?' !in p
  {
    Split(RemoveFirst(hash, '#'), '?')[0]
  }

  /** The query params of a hash: only the text between the first and the second `?` is parsed. */
  function HashQueryParams(hash: string): map<string, string> {
    var parts := Split(RemoveFirst(hash, '#'), '?');
    var query := if |parts| > 1 then parts[1] else "";
    if query != "" then ParseQuery(query) else map[]
  }

  /** What a call of `navigate` amounts to. */
  datatype Navigation<H> =
    | Invoked(init: H, params: map<string, string>, toast: Option<string>)
    | NoInit
    | RedirectedToDashboard(hash: string)
    | Diverges

  /**
   * The outcome of `navigate(hash)` over a route table, for a session that is
   * (or is not) authenticated with the given role; `initError` is the message
   * the handler's `init` throws, if it throws.  A miss on the empty path with
   * no session calls `navigate('')` on the same empty path again, without end.
   */
  function NavigationOf<H>(routes: seq<Route<H>>, hash: string, authenticated: bool, role: string,
                         initError: Option<string>): (n: Navigation<H>)
    ensures n.Invoked? ==> FirstMatch(routes, HashPath(hash)).Some? || (!authenticated && FirstMatch(routes, "").Some?)
    ensures n.RedirectedToDashboard? ==> authenticated && n.hash == Auth.DashboardHash(role)
    ensures n.Diverges? ==> !authenticated && FirstMatch(routes, "").None?
    ensures n.Invoked? ==> n.toast == initError
    decreases if HashPath(hash) == "" then 0 else 1
  {
    var path := HashPath(hash);
    match FirstMatch(routes, path)
    case Some(k) =>
      var h := routes[k].1;
      if h.init.None? then NoInit
      else Invoked(h.init.value, Merge(RouteMatch(routes[k].0, path).value, HashQueryParams(hash)), initError)
    case None =>
      if authenticated then RedirectedToDashboard(Auth.DashboardHash(role))
      else if path == "" then Diverges
      else
        assert HashPath("") == "" by { assert RemoveFirst("", '#') == ""; }
        NavigationOf(routes, "", authenticated, role, initError)
  }

  /** A hash whose path first matches pattern k runs k's handler with the merged parameters. */
  lemma NavigatesToMatch<H>(routes: seq<Route<H>>, hash: string, k: nat, authenticated: bool, role: string,
                            initError: Option<string>)
    requires FirstMatch(routes, HashPath(hash)) == Some(k) && routes[k].1.init.Some?
    ensures NavigationOf(routes, hash, authenticated, role, initError) ==
            Invoked(routes[k].1.init.value, Merge(RouteMatch(routes[k].0, HashPath(hash)).value, HashQueryParams(hash)), initError)
  {
  }

  /** Merged handler params: a query value overrides a route value of the same name. */
  lemma QueryParamsWin<H>(routes: seq<Route<H>>, hash: string, authenticated: bool, role: string,
                          initError: Option<string>, key: string)
    requires FirstMatch(routes, HashPath(hash)).Some?
    requires routes[FirstMatch(routes, HashPath(hash)).value].1.init.Some?
    requires key in HashQueryParams(hash)
    ensures NavigationOf(routes, hash, authenticated, role, initError).Invoked?
    ensures NavigationOf(routes, hash, authenticated, role, initError).params[key] == HashQueryParams(hash)[key]
  {
  }

  class RouteTable<H> {
    /** `this.routes`, in insertion order. */
    var routes: seq<Route<H>>

    predicate Valid()
      reads this
    {
      DistinctPatterns(routes)
    }

    constructor ()
      ensures routes == [] && Valid()
    {
      routes := [];
    }

    method Register(pattern: string, h: Handler<H>)
      requires Valid()
      modifies this
      ensures Valid()
      ensures routes == Registered(old(routes), pattern, h)
      ensures Lookup(routes, pattern) == Some(h)
    {
      RegisterThenLookup(routes, pattern, h);
      routes := Registered(routes, pattern, h);
    }

    /** The `for ... of Object.entries(this.routes)` loop with its `break`. */
    method FindRoute(path: string) returns (found: Option<nat>, routeParams: map<string, string>)
      ensures found == FirstMatch(routes, path)
      ensures found.Some? ==> RouteMatch(routes[found.value].0, path) == Some(routeParams)
    {
      found := None;
      routeParams := map[];
      var i := 0;
      while i < |routes|
        invariant 0 <= i <= |routes|
        invariant forall j :: 0 <= j < i ==> RouteMatch(routes[j].0, path).None?
      {
        var m := MatchRoute(routes[i].0, path);
        if m.Some? {
          found := Some(i);
          routeParams := m.value;
          break;
        }
        i := i + 1;
      }
    }

    /** `navigate(hash)`: run the first matching handler, else redirect or navigate to `''`. */
    method Navigate(hash: string, session: Auth.Session, initError: Option<string>) returns (n: Navigation<H>)
      modifies session`hash
      ensures n == NavigationOf(routes, hash, old(session.IsAuthenticated()), old(session.Role()), initError)
      ensures n.RedirectedToDashboard? ==> session.hash == n.hash
      ensures !n.RedirectedToDashboard? ==> session.hash == old(session.hash)
      decreases if HashPath(hash) == "" then 0 else 1
    {
      var path := HashPath(hash);
      var params := HashQueryParams(hash);
      var found, routeParams := FindRoute(path);
      if found.None? {
        if session.IsAuthenticated() {
          session.RedirectToDashboard();
          return RedirectedToDashboard(session.hash);
        } else if path == "" {
          return Diverges;
        } else {
          assert HashPath("") == "" by { assert RemoveFirst("", '#') == ""; }
          n := Navigate("", session, initError);
          return;
        }
      }
      var h := routes[found.value].1;
      if h.init.None? {
        return NoInit;
      }
      return Invoked(h.init.value, Merge(routeParams, params), initError);
    }
  }
}
