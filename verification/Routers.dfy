/** The routers that Bay writes as labels on one container: their rule texts, their
    priorities and their middleware chains. */
module Routers {
  import opened Options
  import opened RuleText
  import Text

  datatype Access = Public | Vpn

  /** The middleware keys of a service: which per-service middlewares it declares, and
      whether it keeps the security headers and the compression. */
  datatype Middleware = Middleware(
    headers: bool, compress: bool,
    rateLimit: bool, inFlight: bool, basicAuth: bool, circuitBreaker: bool, retry: bool)

  /** `path` and `healthPath` are "" when the service has none. */
  datatype Service = Service(
    name: string, access: Access, domains: seq<string>, path: string,
    vpnRoutes: seq<string>, publicRoutes: seq<string>,
    mw: Middleware, healthPath: string, port: string)

  datatype Config = Config(
    publicEntrypoints: string, vpnEntrypoints: string,
    headersOn: bool, compressOn: bool, errorsOn: bool)

  /** One router. A router without a priority ranks by the length of its rule; one
      without a service is served by the only backend of its container. */
  datatype Router = Router(
    rule: string, priority: Option<nat>, service: Option<string>,
    entrypoints: string, middlewares: seq<string>)

  const HEALTH_PRIORITY: nat := 1000000

  // ------------------------------------------------------------------ rule texts

  /** A value that may sit between backquotes. */
  predicate Clean(v: string) {
    '`' !in v && '\n' !in v && '\r' !in v
  }

  predicate AllClean(vs: seq<string>) {
    forall v :: v in vs ==> Clean(v)
  }

  const REGEX_REFUSED: string := "?()|[]{}^$\\"

  predicate VpnRouteOk(route: string) {
    Clean(route) && forall c :: c in route ==> c !in REGEX_REFUSED
  }

  function RStripSlash(s: string): (r: string)
    ensures r <= s
    ensures r != "" ==> r[|r| - 1] != '/'
    ensures forall i :: |r| <= i < |s| ==> s[i] == '/'
  {
    if s != "" && s[|s| - 1] == '/' then RStripSlash(s[..|s| - 1]) else s
  }

  /** `" || ".join(texts)`. */
  function JoinOr(texts: seq<string>): string
    requires texts != []
  {
    if |texts| == 1 then texts[0] else texts[0] + " || " + JoinOr(texts[1..])
  }

  function HostTexts(domains: seq<string>): (r: seq<string>)
    ensures |r| == |domains|
  {
    seq(|domains|, i requires 0 <= i < |domains| => "Host(`" + domains[i] + "`)")
  }

  function PathMatcherText(path: string): string {
    var prefix := RStripSlash(path);
    if prefix == "" then "PathPrefix(`/`)"
    else "(Path(`" + prefix + "`) || PathPrefix(`" + prefix + "/`))"
  }

  function Parens(text: string, wrap: bool): string {
    if wrap then "(" + text + ")" else text
  }

  function HostRuleText(domains: seq<string>, path: string): string
    requires domains != []
  {
    var expr := JoinOr(HostTexts(domains));
    if path == "" then expr
    else Parens(expr, |domains| > 1) + " && " + PathMatcherText(path)
  }

  function RegexBody(route: string): string {
    if route == "" then ""
    else (if route[0] in ".+*" then "[" + [route[0]] + "]" else [route[0]]) + RegexBody(route[1..])
  }

  function VpnRouteText(route: string): string {
    "PathRegexp(`(?i)^" + RegexBody(route) + "`)"
  }

  function PublicRouteText(route: string): string {
    "PathPrefix(`" + route + "`)"
  }

  function RouteTexts(routes: seq<string>, vpn: bool): (r: seq<string>)
    ensures |r| == |routes|
  {
    seq(|routes|, i requires 0 <= i < |routes| => if vpn then VpnRouteText(routes[i]) else PublicRouteText(routes[i]))
  }

  /** The rule of the path-matched router of a split pair. */
  function SplitRuleText(domains: seq<string>, path: string, routes: seq<string>, vpn: bool): string
    requires domains != [] && routes != []
  {
    Parens(HostRuleText(domains, path), |domains| > 1 && path == "") + " && (" + JoinOr(RouteTexts(routes, vpn)) + ")"
  }

  function HealthRuleText(domains: seq<string>, path: string, health: string): string
    requires domains != []
  {
    Parens(HostRuleText(domains, path), |domains| > 1 && path == "") + " && Path(`" + health + "`)"
  }

  // ------------------------------------------------------- what the rule texts mean

  /** At the path or below it on a `/` boundary. */
  predicate UnderPath(path: string, p: string) {
    var prefix := RStripSlash(path);
    if prefix == "" then "/" <= p else p == prefix || prefix + "/" <= p
  }

  /** `_vpn_route_covers`: a prefix, ignoring case, with no boundary. */
  predicate VpnRouteCovers(p: string, routes: seq<string>) {
    exists r :: r in routes && Text.Lower(r) <= Text.Lower(p)
  }

  predicate PublicRouteCovers(p: string, routes: seq<string>) {
    exists r :: r in routes && r <= p
  }

  function HostShape(domains: seq<string>): Shape
    requires domains != []
  {
    if |domains| == 1 then Leaf("Host", domains[0])
    else Either(Leaf("Host", domains[0]), HostShape(domains[1..]))
  }

  function GroupedHost(domains: seq<string>): Shape
    requires domains != []
  {
    if |domains| > 1 then Group(HostShape(domains)) else HostShape(domains)
  }

  function PathShape(path: string): Shape {
    var prefix := RStripSlash(path);
    if prefix == "" then Leaf("PathPrefix", "/")
    else Group(Either(Leaf("Path", prefix), Leaf("PathPrefix", prefix + "/")))
  }

  function HostRuleShape(domains: seq<string>, path: string): Shape
    requires domains != []
  {
    if path == "" then HostShape(domains) else Both(GroupedHost(domains), PathShape(path))
  }

  function RouteShape(route: string, vpn: bool): Shape {
    if vpn then Leaf("PathRegexp", CASE_FOLDED_PREFIX + RegexBody(route)) else Leaf("PathPrefix", route)
  }

  function RoutesShape(routes: seq<string>, vpn: bool): Shape
    requires routes != []
  {
    if |routes| == 1 then RouteShape(routes[0], vpn)
    else Either(RouteShape(routes[0], vpn), RoutesShape(routes[1..], vpn))
  }

  /** The host, the path when there is one, and one more matcher. */
  function NarrowedShape(domains: seq<string>, path: string, last: Shape): Shape
    requires domains != []
  {
    if path == "" then Both(GroupedHost(domains), last)
    else Both(GroupedHost(domains), Both(PathShape(path), last))
  }

  lemma {:induction false} HostTextIsShape(domains: seq<string>)
    requires domains != []
    ensures JoinOr(HostTexts(domains)) == Show(HostShape(domains))
  {
    if |domains| > 1 {
      assert HostTexts(domains)[1..] == HostTexts(domains[1..]);
      HostTextIsShape(domains[1..]);
    }
  }

  lemma {:induction false} HostShapeMeans(domains: seq<string>, req: Request)
    requires domains != [] && AllClean(domains)
    ensures OrOk(HostShape(domains)) && OneOk(GroupedHost(domains))
    ensures Means(HostShape(domains), req) <==> req.host in domains
    ensures Means(GroupedHost(domains), req) <==> req.host in domains
  {
    assert LeafOk("Host", domains[0]) by { assert domains[0] in domains; }
    if |domains| > 1 {
      forall v | v in domains[1..] ensures Clean(v) { assert v in domains; }
      HostShapeMeans(domains[1..], req);
      assert domains == [domains[0]] + domains[1..];
    }
  }

  lemma PathText(prefix: string)
    ensures "(Path(`" + prefix + "`) || PathPrefix(`" + prefix + "/`))" ==
            "(" + (("Path" + "(`" + prefix + "`)") + " || " + ("PathPrefix" + "(`" + (prefix + "/") + "`)")) + ")"
  {
  }

  lemma PathShapeText(path: string)
    ensures Show(PathShape(path)) == PathMatcherText(path)
  {
    var prefix := RStripSlash(path);
    if prefix == "" {
      assert Show(Leaf("PathPrefix", "/")) == "PathPrefix" + "(`" + "/" + "`)";
    } else {
      PathText(prefix);
      var e := Either(Leaf("Path", prefix), Leaf("PathPrefix", prefix + "/"));
      assert Show(e) == ("Path" + "(`" + prefix + "`)") + " || " + ("PathPrefix" + "(`" + (prefix + "/") + "`)");
      assert Show(Group(e)) == "(" + Show(e) + ")";
    }
  }

  lemma PathShapeMeans(path: string, req: Request)
    requires Clean(path)
    ensures OneOk(PathShape(path))
    ensures Means(PathShape(path), req) <==> UnderPath(path, req.path)
  {
    var prefix := RStripSlash(path);
    if prefix != "" {
      assert forall c :: c in prefix ==> c in path;
      var exact, below := Leaf("Path", prefix), Leaf("PathPrefix", prefix + "/");
      assert LeafOk("Path", prefix) && LeafOk("PathPrefix", prefix + "/");
      var e := Either(exact, below);
      OneIsOr(below);
      EitherOk(exact, below);
      assert Means(e, req) == (Means(exact, req) || Means(below, req));
      assert Means(Group(e), req) == Means(e, req);
    }
  }

  /** Rule text is unambiguous: the rule of a router reads back as (some host matches)
      and, for a path service, (the path or below it on a segment boundary). */
  lemma HostRuleMeans(domains: seq<string>, path: string, req: Request)
    requires domains != [] && AllClean(domains) && Clean(path)
    ensures TextMatches(HostRuleText(domains, path), req) <==>
              req.host in domains && (path != "" ==> UnderPath(path, req.path))
  {
    HostTextIsShape(domains);
    HostShapeMeans(domains, req);
    PathShapeText(path);
    PathShapeMeans(path, req);
    var shape := HostRuleShape(domains, path);
    assert Show(shape) == HostRuleText(domains, path);
    assert OrOk(shape) by { assert path != "" ==> AndOk(PathShape(path)); }
    ShownTextParses(shape);
    assert TextMatches(Show(shape), req) == Means(shape, req);
  }

  lemma {:induction false} UnitsOfBody(route: string)
    requires forall c :: c in route ==> c !in REGEX_REFUSED
    ensures Units(RegexBody(route)) == Some(route)
    ensures forall c :: c in RegexBody(route) ==> c in route || c in "[]"
  {
    if route != "" {
      var rest := RegexBody(route[1..]);
      forall c | c in route[1..] ensures c !in REGEX_REFUSED { assert c in route; }
      UnitsOfBody(route[1..]);
      assert route[0] in route;
      var body := RegexBody(route);
      if route[0] in ".+*" {
        assert body[3..] == rest;
      } else {
        assert body == [route[0]] + rest;
        assert body[1..] == rest;
        assert forall c :: c in META ==> c in REGEX_REFUSED || c in ".+*";
      }
      assert route == [route[0]] + route[1..];
    }
  }

  /** The generated pattern matches exactly what `_vpn_route_covers` says. */
  lemma VpnRegexpCovers(route: string, p: string)
    requires VpnRouteOk(route)
    ensures RegexpMatches(CASE_FOLDED_PREFIX + RegexBody(route), p) <==> Text.Lower(route) <= Text.Lower(p)
    ensures LeafOk("PathRegexp", CASE_FOLDED_PREFIX + RegexBody(route))
  {
    UnitsOfBody(route);
    var pattern := CASE_FOLDED_PREFIX + RegexBody(route);
    assert pattern[|CASE_FOLDED_PREFIX|..] == RegexBody(route);
    if |route| <= |p| {
      assert Text.Lower(p)[..|route|] == Text.Lower(p[..|route|]);
    }
    assert '`' !in CASE_FOLDED_PREFIX;
  }

  predicate RoutesOk(routes: seq<string>, vpn: bool) {
    forall r :: r in routes ==> if vpn then VpnRouteOk(r) else Clean(r)
  }

  predicate RoutesCover(p: string, routes: seq<string>, vpn: bool) {
    if vpn then VpnRouteCovers(p, routes) else PublicRouteCovers(p, routes)
  }

  lemma CoverSplits(p: string, routes: seq<string>, vpn: bool)
    requires routes != []
    ensures RoutesCover(p, routes, vpn) <==> RoutesCover(p, [routes[0]], vpn) || RoutesCover(p, routes[1..], vpn)
  {
    assert forall r :: r in routes <==> r in [routes[0]] || r in routes[1..];
  }

  lemma RouteShapeMeans(r: string, vpn: bool, req: Request)
    requires if vpn then VpnRouteOk(r) else Clean(r)
    ensures OneOk(RouteShape(r, vpn))
    ensures Means(RouteShape(r, vpn), req) <==> RoutesCover(req.path, [r], vpn)
  {
    if vpn { VpnRegexpCovers(r, req.path); }
    assert r in [r];
  }

  lemma RouteShapeText(r: string, vpn: bool)
    ensures Show(RouteShape(r, vpn)) == if vpn then VpnRouteText(r) else PublicRouteText(r)
  {
    if vpn {
      assert "PathRegexp(`(?i)^" + RegexBody(r) + "`)" == "PathRegexp" + "(`" + ("(?i)^" + RegexBody(r)) + "`)";
    } else {
      assert "PathPrefix(`" + r + "`)" == "PathPrefix" + "(`" + r + "`)";
    }
  }

  lemma {:induction false} RoutesShapeText(routes: seq<string>, vpn: bool)
    requires routes != []
    ensures Show(RoutesShape(routes, vpn)) == JoinOr(RouteTexts(routes, vpn))
  {
    RouteShapeText(routes[0], vpn);
    if |routes| > 1 {
      RoutesShapeText(routes[1..], vpn);
      assert RouteTexts(routes, vpn)[1..] == RouteTexts(routes[1..], vpn);
    }
  }

  lemma {:induction false} RoutesShapeMeans(routes: seq<string>, vpn: bool, req: Request)
    requires routes != [] && RoutesOk(routes, vpn)
    ensures OrOk(RoutesShape(routes, vpn))
    ensures Means(RoutesShape(routes, vpn), req) <==> RoutesCover(req.path, routes, vpn)
  {
    var r := routes[0];
    assert r in routes;
    RouteShapeMeans(r, vpn, req);
    assert AndOk(RouteShape(r, vpn));
    if |routes| > 1 {
      forall v | v in routes[1..] ensures if vpn then VpnRouteOk(v) else Clean(v) { assert v in routes; }
      RoutesShapeMeans(routes[1..], vpn, req);
      CoverSplits(req.path, routes, vpn);
    } else {
      assert routes == [r];
    }
  }

  /** The text in front of one more matcher. */
  function HostPrefix(domains: seq<string>, path: string): string
    requires domains != []
  {
    Parens(HostRuleText(domains, path), |domains| > 1 && path == "")
  }

  lemma NarrowedText(domains: seq<string>, path: string, last: Shape)
    requires domains != []
    ensures Show(NarrowedShape(domains, path, last)) == HostPrefix(domains, path) + " && " + Show(last)
  {
    HostTextIsShape(domains);
    var host := GroupedHost(domains);
    assert Show(host) == Parens(JoinOr(HostTexts(domains)), |domains| > 1);
    if path != "" {
      PathShapeText(path);
      var tail := Both(PathShape(path), last);
      assert Show(tail) == PathMatcherText(path) + " && " + Show(last);
      assert Show(Both(host, tail)) == Show(host) + " && " + Show(tail);
      Regroup(Show(host), PathMatcherText(path), Show(last));
    }
  }

  lemma Regroup(a: string, b: string, c: string)
    ensures a + " && " + (b + " && " + c) == (a + " && " + b) + " && " + c
  {
  }

  lemma NarrowedMeans(domains: seq<string>, path: string, last: Shape, req: Request)
    requires domains != [] && AllClean(domains) && Clean(path) && OneOk(last)
    ensures TextMatches(HostPrefix(domains, path) + " && " + Show(last), req) <==>
              req.host in domains && (path != "" ==> UnderPath(path, req.path)) && Means(last, req)
  {
    NarrowedText(domains, path, last);
    HostShapeMeans(domains, req);
    OneIsOr(last);
    var shape := NarrowedShape(domains, path, last);
    if path == "" {
      BothOk(GroupedHost(domains), last);
    } else {
      PathShapeMeans(path, req);
      var tail := Both(PathShape(path), last);
      BothOk(PathShape(path), last);
      BothOk(GroupedHost(domains), tail);
      assert Means(tail, req) == (Means(PathShape(path), req) && Means(last, req));
    }
    ShownTextParses(shape);
    assert TextMatches(Show(shape), req) == Means(shape, req);
  }

  /** The rule of the path-matched router of a split pair: its host, its path, and some
      route covers the request. */
  lemma SplitRuleMeans(domains: seq<string>, path: string, routes: seq<string>, vpn: bool, req: Request)
    requires domains != [] && AllClean(domains) && Clean(path) && routes != [] && RoutesOk(routes, vpn)
    ensures TextMatches(SplitRuleText(domains, path, routes, vpn), req) <==>
              && req.host in domains && (path != "" ==> UnderPath(path, req.path))
              && RoutesCover(req.path, routes, vpn)
  {
    RoutesShapeMeans(routes, vpn, req);
    var last := Group(RoutesShape(routes, vpn));
    NarrowedMeans(domains, path, last, req);
    SplitText(domains, path, routes, vpn);
  }

  lemma SplitText(domains: seq<string>, path: string, routes: seq<string>, vpn: bool)
    requires domains != [] && routes != []
    ensures SplitRuleText(domains, path, routes, vpn) ==
            HostPrefix(domains, path) + " && " + Show(Group(RoutesShape(routes, vpn)))
  {
    RoutesShapeText(routes, vpn);
    var inner := JoinOr(RouteTexts(routes, vpn));
    assert " && (" == " && " + "(";
    SplitLiteral(HostPrefix(domains, path), inner);
  }

  lemma SplitLiteral(host: string, inner: string)
    ensures host + " && (" + inner + ")" == host + " && " + ("(" + inner + ")")
  {
  }

  lemma HealthRuleMeans(domains: seq<string>, path: string, health: string, req: Request)
    requires domains != [] && AllClean(domains) && Clean(path) && Clean(health)
    ensures TextMatches(HealthRuleText(domains, path, health), req) <==>
              req.host in domains && (path != "" ==> UnderPath(path, req.path)) && req.path == health
  {
    var last := Leaf("Path", health);
    NarrowedMeans(domains, path, last, req);
    HealthTextIsShape(HostPrefix(domains, path), health);
  }

  lemma HealthTextIsShape(host: string, health: string)
    ensures host + " && Path(`" + health + "`)" == host + " && " + Show(Leaf("Path", health))
  {
    assert Show(Leaf("Path", health)) == "Path" + "(`" + health + "`)";
    assert " && Path(`" == " && " + "Path" + "(`";
  }
}
