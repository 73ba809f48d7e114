/**
 * The route table of the deployment manifest and the patch that sends the
 * requested path patterns to the alternate-runtime function.
 *
 * Matching is by position, first match wins, so a route placed before the
 * catch-all `"/(.*)"` is consulted before it.
 */
module RouteConfig {
  import opened Wrappers
  import FunctionNames

  /** The `src` of the default route. */
  const CatchAll: string := "/(.*)"

  /**
   * One entry of `routes`. Entries such as `{"handle": "filesystem"}` have no
   * `src`; members other than `src` and `dest` are kept as JSON text.
   */
  datatype Route = Route(src: Option<string>, dest: Option<string>, other: map<string, string>)

  /** The parsed manifest: its `routes` array and every other top-level member, kept as JSON text. */
  datatype Config = Config(routes: seq<Route>, rest: map<string, string>)

  datatype PatchError = NoDefaultRoute

  /** `route.src === "/(.*)"`. */
  predicate IsCatchAll(r: Route) {
    r.src == Some(CatchAll)
  }

  predicate HasCatchAll(routes: seq<Route>) {
    exists j :: 0 <= j < |routes| && IsCatchAll(routes[j])
  }

  /** `routes.findIndex((route) => route.src === "/(.*)")`: the first catch-all, or -1. */
  function FindCatchAll(routes: seq<Route>): (i: int)
    ensures -1 <= i < |routes|
    ensures i == -1 <==> !HasCatchAll(routes)
    ensures 0 <= i ==> IsCatchAll(routes[i])
    ensures forall j :: 0 <= j < i ==> !IsCatchAll(routes[j])
  {
    if routes == [] then -1
    else if IsCatchAll(routes[0]) then 0
    else
      var k := FindCatchAll(routes[1..]);
      assert forall j :: 0 < j < |routes| ==> routes[j] == routes[1..][j - 1];
      if k == -1 then -1 else k + 1
  }

  /** `{ src: pattern, dest: "/" + getFuncName(runtime) }`. */
  function RouteTo(pattern: string, runtime: string): (r: Route)
    ensures IsCatchAll(r) <==> pattern == CatchAll
    ensures r.dest.Some? && |r.dest.value| >= 8 && r.dest.value[..8] == "/__nitro"
  {
    Route(Some(pattern), Some("/" + FunctionNames.FuncName(runtime)), map[])
  }

  /** `patterns.map((route) => RouteTo(route, runtime))`. */
  function NewRoutes(patterns: seq<string>, runtime: string): (rs: seq<Route>)
    ensures |rs| == |patterns|
    ensures forall k :: 0 <= k < |patterns| ==> rs[k] == RouteTo(patterns[k], runtime)
  {
    if patterns == [] then []
    else [RouteTo(patterns[0], runtime)] + NewRoutes(patterns[1..], runtime)
  }

  /**
   * The patch applied to the parsed manifest: fail when there is no
   * catch-all, otherwise `routes.splice(index, 0, ...NewRoutes(patterns, runtime))`
   * at the first catch-all's index; the rest of the document is untouched.
   */
  function PatchRoutes(cfg: Config, patterns: seq<string>, runtime: string): (r: Result<Config, PatchError>)
    ensures r.Failure? <==> !HasCatchAll(cfg.routes)
    ensures r.Success? ==> r.value.rest == cfg.rest
    ensures r.Success? ==>
      var i, rs := FindCatchAll(cfg.routes), r.value.routes;
      && |rs| == |cfg.routes| + |patterns|
      && rs[..i] == cfg.routes[..i]
      && (forall k :: 0 <= k < |patterns| ==> rs[i + k] == RouteTo(patterns[k], runtime))
      && rs[i + |patterns|..] == cfg.routes[i..]
      && IsCatchAll(rs[i + |patterns|])
  {
    var i := FindCatchAll(cfg.routes);
    if i == -1 then Failure(NoDefaultRoute)
    else
      var added := NewRoutes(patterns, runtime);
      var rs := cfg.routes[..i] + added + cfg.routes[i..];
      assert rs[..i] == cfg.routes[..i];
      assert forall k :: 0 <= k < |patterns| ==> rs[i + k] == added[k];
      assert rs[i + |patterns|..] == cfg.routes[i..];
      Success(cfg.(routes := rs))
  }

  /** A catch-all at `n` bounds the first one; with none before `n` it is the first. */
  lemma FirstCatchAllAt(routes: seq<Route>, n: int)
    requires 0 <= n < |routes| && IsCatchAll(routes[n])
    ensures 0 <= FindCatchAll(routes) <= n
    ensures (forall j :: 0 <= j < n ==> !IsCatchAll(routes[j])) ==> FindCatchAll(routes) == n
  {
  }

  /** Before the old catch-all's new position a patch holds no catch-all, unless a pattern is one. */
  lemma PatchedRouteBefore(cfg: Config, patterns: seq<string>, runtime: string, j: int)
    requires HasCatchAll(cfg.routes)
    requires forall k :: 0 <= k < |patterns| ==> patterns[k] != CatchAll
    requires 0 <= j < FindCatchAll(cfg.routes) + |patterns|
    ensures !IsCatchAll(PatchRoutes(cfg, patterns, runtime).value.routes[j])
  {
    var r := PatchRoutes(cfg, patterns, runtime);
    var i, rs := FindCatchAll(cfg.routes), r.value.routes;
    assert 0 <= j < |rs|;
    if j < i {
      assert rs[j] == rs[..i][j] == cfg.routes[..i][j] == cfg.routes[j];
    } else {
      assert rs[i + (j - i)] == RouteTo(patterns[j - i], runtime);
    }
  }

  /** A catch-all pattern at `k` puts a catch-all before the old one's new position. */
  lemma PatchedCatchAllPattern(cfg: Config, patterns: seq<string>, runtime: string, k: int)
    requires HasCatchAll(cfg.routes)
    requires 0 <= k < |patterns| && patterns[k] == CatchAll
    ensures FindCatchAll(PatchRoutes(cfg, patterns, runtime).value.routes) <= FindCatchAll(cfg.routes) + k
  {
    var r := PatchRoutes(cfg, patterns, runtime);
    var i, rs := FindCatchAll(cfg.routes), r.value.routes;
    assert 0 <= i + k < |rs|;
    assert rs[i + k] == RouteTo(patterns[k], runtime);
    assert IsCatchAll(rs[i + k]);
    FirstCatchAllAt(rs, i + k);
  }

  /**
   * After a patch the first catch-all sits right after the inserted routes
   * exactly when no pattern is itself the catch-all pattern; otherwise an
   * inserted route becomes the first catch-all.
   */
  lemma CatchAllAfterInserted(cfg: Config, patterns: seq<string>, runtime: string)
    requires HasCatchAll(cfg.routes)
    ensures PatchRoutes(cfg, patterns, runtime).Success?
    ensures FindCatchAll(PatchRoutes(cfg, patterns, runtime).value.routes)
              == FindCatchAll(cfg.routes) + |patterns|
            <==> forall k :: 0 <= k < |patterns| ==> patterns[k] != CatchAll
  {
    var r := PatchRoutes(cfg, patterns, runtime);
    var i, rs := FindCatchAll(cfg.routes), r.value.routes;
    if forall k :: 0 <= k < |patterns| ==> patterns[k] != CatchAll {
      forall j | 0 <= j < i + |patterns| ensures !IsCatchAll(rs[j]) {
        PatchedRouteBefore(cfg, patterns, runtime, j);
      }
      assert 0 <= i + |patterns| < |rs| && IsCatchAll(rs[i + |patterns|]);
      FirstCatchAllAt(rs, i + |patterns|);
    } else {
      var k :| 0 <= k < |patterns| && patterns[k] == CatchAll;
      PatchedCatchAllPattern(cfg, patterns, runtime, k);
    }
  }





  /** The inserted routes of a pattern list are those of its parts, in order. */
  lemma NewRoutesAppend(p: seq<string>, q: seq<string>, runtime: string)
    ensures NewRoutes(p + q, runtime) == NewRoutes(p, runtime) + NewRoutes(q, runtime)
  {
    var l, r := NewRoutes(p + q, runtime), NewRoutes(p, runtime) + NewRoutes(q, runtime);
    assert |l| == |r|;
    forall k | 0 <= k < |l| ensures l[k] == r[k] {
      if k < |p| { assert (p + q)[k] == p[k]; } else { assert (p + q)[k] == q[k - |p|]; }
    }
  }

  /** The spliced table of a manifest that has a catch-all. */
  lemma PatchedRoutes(cfg: Config, patterns: seq<string>, runtime: string)
    requires HasCatchAll(cfg.routes)
    ensures
      var i := FindCatchAll(cfg.routes);
      PatchRoutes(cfg, patterns, runtime)
      == Success(cfg.(routes := cfg.routes[..i] + NewRoutes(patterns, runtime) + cfg.routes[i..]))
  {
  }

  /** Splicing `b` right after a spliced `a` is splicing `a + b`. */
  lemma SpliceAfterSplice<T>(s: seq<T>, i: nat, a: seq<T>, b: seq<T>)
    requires i <= |s|
    ensures
      var once := s[..i] + a + s[i..];
      once[..i + |a|] + b + once[i + |a|..] == s[..i] + (a + b) + s[i..]
  {
    var once := s[..i] + a + s[i..];
    assert once[..i + |a|] == s[..i] + a;
    assert once[i + |a|..] == s[i..];
  }

  /**
   * Patching twice for the same runtime places the second list right after
   * the first, as one patch with both lists would, provided the first list
   * holds no catch-all pattern.
   */
  lemma PatchTwice(cfg: Config, p: seq<string>, q: seq<string>, runtime: string)
    requires HasCatchAll(cfg.routes)
    requires forall k :: 0 <= k < |p| ==> p[k] != CatchAll
    ensures PatchRoutes(cfg, p, runtime).Success?
    ensures PatchRoutes(PatchRoutes(cfg, p, runtime).value, q, runtime) == PatchRoutes(cfg, p + q, runtime)
  {
    var i := FindCatchAll(cfg.routes);
    var np, nq := NewRoutes(p, runtime), NewRoutes(q, runtime);
    var once := cfg.(routes := cfg.routes[..i] + np + cfg.routes[i..]);
    PatchedRoutes(cfg, p, runtime);
    CatchAllAfterInserted(cfg, p, runtime);
    PatchedRoutes(once, q, runtime);
    PatchedRoutes(cfg, p + q, runtime);
    NewRoutesAppend(p, q, runtime);
    SpliceAfterSplice(cfg.routes, i, np, nq);
  }

  /**
   * The example of a fresh manifest: the catch-all to the default function,
   * one legacy pattern, the default runtime tag.
   */
  lemma LegacyApiExample(rest: map<string, string>, runtime: string)
    requires runtime == "nodejs18.x"
    ensures
      var catchAll := Route(Some(CatchAll), Some("/" + FunctionNames.Prefix), map[]);
      PatchRoutes(Config([catchAll], rest), ["/api/legacy/(.*)"], runtime)
      == Success(Config([Route(Some("/api/legacy/(.*)"), Some("/__nitro-nodejs18x"), map[]), catchAll], rest))
  {
    FunctionNames.NodeRuntimeName(runtime);
    var catchAll := Route(Some(CatchAll), Some("/" + FunctionNames.Prefix), map[]);
    var legacy := Route(Some("/api/legacy/(.*)"), Some("/__nitro-nodejs18x"), map[]);
    assert IsCatchAll(catchAll);
    assert FindCatchAll([catchAll]) == 0;
    assert "/" + FunctionNames.FuncName(runtime) == "/__nitro-nodejs18x";
    assert RouteTo("/api/legacy/(.*)", runtime) == legacy;
    assert NewRoutes(["/api/legacy/(.*)"], runtime) == [legacy];
    PatchedRoutes(Config([catchAll], rest), ["/api/legacy/(.*)"], runtime);
    assert [catchAll][..0] + [legacy] + [catchAll][0..] == [legacy, catchAll];
  }
}
