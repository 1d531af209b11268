/** The label writer: the methods that fill the routers, backends and chains of one
    container, against the routers a service is meant to get. */
module RouterLabels {
  import opened Options
  import opened RuleText
  import opened Routers

  // ------------------------------------------------------------ middleware chains

  predicate NeedsCustomChain(mw: Middleware) {
    !mw.headers || !mw.compress
  }

  function PerService(name: string, mw: Middleware): seq<string> {
    (if mw.rateLimit then [name + "-ratelimit"] else []) +
    (if mw.inFlight then [name + "-inflightreq"] else []) +
    (if mw.basicAuth then [name + "-basicauth"] else []) +
    (if mw.circuitBreaker then [name + "-circuitbreaker"] else []) +
    (if mw.retry then [name + "-retry"] else [])
  }

  function PublicChain(name: string, mw: Middleware): seq<string> {
    [if NeedsCustomChain(mw) then name + "-chain" else "public-chain"] + PerService(name, mw)
  }

  function VpnChain(name: string, mw: Middleware): seq<string> {
    (if NeedsCustomChain(mw) then [name + "-chain", "vpn-only"] else ["vpn-chain"]) + PerService(name, mw)
  }

  function CustomMembers(mw: Middleware, config: Config): seq<string> {
    (if mw.headers && config.headersOn then ["secure-headers"] else []) +
    (if mw.compress && config.compressOn then ["compress"] else []) +
    (if config.errorsOn then ["errors"] else [])
  }

  /** The chains every container may name, from `bay_traefik_global_labels`. */
  function GlobalChains(config: Config): map<string, seq<string>> {
    var front := (if config.headersOn then ["secure-headers"] else []) +
        (if config.compressOn then ["compress"] else []);
    var back := if config.errorsOn then ["errors"] else [];
    map["public-chain" := front + back, "vpn-chain" := front + ["vpn-only"] + back]
  }

  function OwnChains(svc: Service, config: Config): map<string, seq<string>> {
    if NeedsCustomChain(svc.mw) then map[svc.name + "-chain" := CustomMembers(svc.mw, config)] else map[]
  }

  /** Does the proxy apply the VPN allow list somewhere in this list of middlewares? */
  predicate Gated(mws: seq<string>, chains: map<string, seq<string>>) {
    exists m :: m in mws && (m == "vpn-only" || (m in chains && "vpn-only" in chains[m]))
  }

  function WithoutBasicAuth(mws: seq<string>, name: string): seq<string> {
    if mws == [] then []
    else (if mws[0] == name + "-basicauth" then [] else [mws[0]]) + WithoutBasicAuth(mws[1..], name)
  }

  // ----------------------------------------------------------- the intended routers

  predicate HasHealthRouter(svc: Service) {
    svc.mw.basicAuth && svc.healthPath != "" && (svc.path == "" || UnderPath(svc.path, svc.healthPath))
  }

  /** The services for which no label breaks out of its rule: the others are refused. */
  predicate Printable(svc: Service) {
    && svc.domains != [] && AllClean(svc.domains) && Clean(svc.path)
    && (svc.access.Public? ==> RoutesOk(svc.vpnRoutes, true))
    && (svc.access.Vpn? ==> RoutesOk(svc.publicRoutes, false))
    && (HasHealthRouter(svc) ==> Clean(svc.healthPath))
  }

  /** Is `v` printed between backquotes? */
  predicate IsPrinted(svc: Service, v: string) {
    || v in svc.domains || v == svc.path || (HasHealthRouter(svc) && v == svc.healthPath)
    || (svc.access.Public? && v in svc.vpnRoutes) || (svc.access.Vpn? && v in svc.publicRoutes)
  }

  /** A service gets its labels exactly when it has a domain, no printed value holds a
      backquote or a line break, and no vpn route of a public service holds a character that
      means something in a regular expression, but for `.`, `+` and `*`. */
  lemma PrintableIff(svc: Service)
    ensures Printable(svc) <==>
              && svc.domains != []
              && (forall v, c | IsPrinted(svc, v) && c in v :: c != '`' && c != '\n' && c != '\r')
              && (svc.access.Public? ==> forall r, c | r in svc.vpnRoutes && c in r ::
                    c !in {'?', '(', ')', '|', '[', ']', '{', '}', '^', '$', '\\'})
  {
    assert forall c: char :: c in REGEX_REFUSED <==> c in {'?', '(', ')', '|', '[', ']', '{', '}', '^', '$', '\\'};
    assert IsPrinted(svc, svc.path) && (HasHealthRouter(svc) ==> IsPrinted(svc, svc.healthPath));
    assert forall v: string :: Clean(v) <==> forall c | c in v :: c != '`' && c != '\n' && c != '\r';
  }

  function SingleRouter(svc: Service, mws: seq<string>, entrypoints: string): Router
    requires svc.domains != []
  {
    var rule := HostRuleText(svc.domains, svc.path);
    Router(rule, if svc.path == "" then None else Some(|rule|), None, entrypoints, mws)
  }

  /** The catch-all of a split pair. */
  function PrimaryRouter(svc: Service, mws: seq<string>, entrypoints: string): Router
    requires svc.domains != []
  {
    var rule := HostRuleText(svc.domains, svc.path);
    Router(rule, Some(if svc.path == "" then 10 else |rule|), Some(svc.name), entrypoints, mws)
  }

  /** The path-matched router of a split pair. */
  function SecondaryRouter(svc: Service, routes: seq<string>, vpn: bool, mws: seq<string>, entrypoints: string): Router
    requires svc.domains != [] && routes != []
  {
    Router(SplitRuleText(svc.domains, svc.path, routes, vpn),
           Some(if svc.path == "" then 20 else |HostRuleText(svc.domains, svc.path)| + 1),
           Some(svc.name), entrypoints, mws)
  }

  function OrdinaryRouters(svc: Service, config: Config): map<string, Router>
    requires svc.domains != []
  {
    var pub, vpn := PublicChain(svc.name, svc.mw), VpnChain(svc.name, svc.mw);
    match svc.access
    case Public =>
      if svc.vpnRoutes == [] then map[svc.name := SingleRouter(svc, pub, config.publicEntrypoints)]
      else map[svc.name := PrimaryRouter(svc, pub, config.publicEntrypoints),
               svc.name + "-vpn" := SecondaryRouter(svc, svc.vpnRoutes, true, vpn, config.vpnEntrypoints)]
    case Vpn =>
      if svc.publicRoutes == [] then map[svc.name + "-vpn" := SingleRouter(svc, vpn, config.vpnEntrypoints)]
      else map[svc.name + "-vpn" := PrimaryRouter(svc, vpn, config.vpnEntrypoints),
               svc.name + "-public" := SecondaryRouter(svc, svc.publicRoutes, false, pub, config.publicEntrypoints)]
  }

  function Backends(svc: Service): map<string, string> {
    if svc.access.Vpn? && svc.publicRoutes == [] then map[svc.name + "-vpn" := svc.port]
    else map[svc.name := svc.port]
  }

  predicate PathUnder(p: string, routes: seq<string>) {
    exists r :: r in routes && UnderPath(r, p)
  }

  /** Does the health path take the public chain? */
  predicate HealthIsPublic(svc: Service) {
    if svc.access.Public? then !VpnRouteCovers(svc.healthPath, svc.vpnRoutes)
    else PathUnder(svc.healthPath, svc.publicRoutes)
  }

  function HealthRouter(svc: Service, config: Config): Router
    requires svc.domains != []
  {
    var base := if HealthIsPublic(svc) then PublicChain(svc.name, svc.mw) else VpnChain(svc.name, svc.mw);
    Router(HealthRuleText(svc.domains, svc.path, svc.healthPath), Some(HEALTH_PRIORITY),
           Some(if svc.access.Vpn? && svc.publicRoutes == [] then svc.name + "-vpn" else svc.name),
           if HealthIsPublic(svc) then config.publicEntrypoints else config.vpnEntrypoints,
           WithoutBasicAuth(base, svc.name))
  }

  function HealthName(svc: Service): string {
    svc.name + "-health"
  }

  function AllRouters(svc: Service, config: Config): map<string, Router>
    requires svc.domains != []
  {
    if HasHealthRouter(svc) then OrdinaryRouters(svc, config)[HealthName(svc) := HealthRouter(svc, config)]
    else OrdinaryRouters(svc, config)
  }

  // ---------------------------------------------------------------- the label dict

  /** The labels of one container, by kind. */
  class Labels {
    var routers: map<string, Router>
    var backends: map<string, string>
    var chains: map<string, seq<string>>

    constructor ()
      ensures routers == map[] && backends == map[] && chains == map[]
    {
      routers, backends, chains := map[], map[], map[];
    }

    /** The whole label set of a service. False: a value was refused. */
    method TraefikLabels(svc: Service, config: Config) returns (ok: bool)
      modifies this
      requires routers == map[] && backends == map[] && chains == map[]
      ensures ok == Printable(svc)
      ensures ok ==> routers == AllRouters(svc, config) && backends == Backends(svc) && chains == OwnChains(svc, config)
    {
      var pub, vpn := ComputeMiddlewareChains(svc.name, svc.mw, config);
      ok := AddRouterLabels(svc, pub, vpn, config);
    }

    method ComputeMiddlewareChains(name: string, mw: Middleware, config: Config)
                                   returns (pub: seq<string>, vpn: seq<string>)
      modifies this`chains
      ensures pub == PublicChain(name, mw) && vpn == VpnChain(name, mw)
      ensures chains == if NeedsCustomChain(mw) then old(chains)[name + "-chain" := CustomMembers(mw, config)]
                else old(chains)
    {
      var perService := PerService(name, mw);
      if !mw.headers || !mw.compress {
        var members := ChainMembers(mw, config);
        chains := chains[name + "-chain" := members];
        return [name + "-chain"] + perService, [name + "-chain", "vpn-only"] + perService;
      }
      return ["public-chain"] + perService, ["vpn-chain"] + perService;
    }

    method ChainMembers(mw: Middleware, config: Config) returns (members: seq<string>)
      ensures members == CustomMembers(mw, config)
    {
      members := [];
      if mw.headers && config.headersOn { members := members + ["secure-headers"]; }
      if mw.compress && config.compressOn { members := members + ["compress"]; }
      if config.errorsOn { members := members + ["errors"]; }
    }

    method AddRouterLabels(svc: Service, pub: seq<string>, vpn: seq<string>, config: Config) returns (ok: bool)
      modifies this`routers, this`backends
      requires routers == map[] && backends == map[]
      requires pub == PublicChain(svc.name, svc.mw) && vpn == VpnChain(svc.name, svc.mw)
      ensures ok == Printable(svc)
      ensures ok ==> routers == AllRouters(svc, config) && backends == Backends(svc)
    {
      match svc.access {
        case Public =>
          if svc.vpnRoutes != [] {
            ok := AddDualRouterLabels(svc, svc.vpnRoutes, true, pub, vpn, "", "-vpn",
                                      config.publicEntrypoints, config.vpnEntrypoints);
          } else {
            ok := AddSingleRouterLabels(svc, pub, "", config.publicEntrypoints);
          }
          assert svc.name + "" == svc.name;
        case Vpn =>
          if svc.publicRoutes != [] {
            ok := AddDualRouterLabels(svc, svc.publicRoutes, false, vpn, pub, "-vpn", "-public",
                                      config.vpnEntrypoints, config.publicEntrypoints);
          } else {
            ok := AddSingleRouterLabels(svc, vpn, "-vpn", config.vpnEntrypoints);
          }
      }
      if !ok {
        return;
      }
      assert routers == OrdinaryRouters(svc, config) && backends == Backends(svc);
      ok := AddHealthRouterLabels(svc, pub, vpn, config);
    }

    method AddSingleRouterLabels(svc: Service, mws: seq<string>, suffix: string, entrypoints: string) returns (ok: bool)
      modifies this`routers, this`backends
      ensures ok <==> svc.domains != [] && AllClean(svc.domains) && Clean(svc.path)
      ensures ok ==> routers == old(routers)[svc.name + suffix := SingleRouter(svc, mws, entrypoints)]
      ensures ok ==> backends == old(backends)[svc.name + suffix := svc.port]
    {
      if svc.domains == [] || !AllClean(svc.domains) || !Clean(svc.path) {
        return false;
      }
      var router := svc.name + suffix;
      var rule := HostRuleText(svc.domains, svc.path);
      var priority := None;
      if svc.path != "" {
        priority := Some(|rule|);
      }
      routers := routers[router := Router(rule, priority, None, entrypoints, mws)];
      backends := backends[router := svc.port];
      return true;
    }

    method SplitRule(svc: Service, routes: seq<string>, vpn: bool, hostExpr: string) returns (rule: string)
      requires svc.domains != [] && routes != [] && hostExpr == HostRuleText(svc.domains, svc.path)
      ensures rule == SplitRuleText(svc.domains, svc.path, routes, vpn)
    {
      var secondHost := Parens(hostExpr, |svc.domains| > 1 && svc.path == "");
      return secondHost + " && (" + JoinOr(RouteTexts(routes, vpn)) + ")";
    }

    method AddDualRouterLabels(svc: Service, routes: seq<string>, vpn: bool, primaryMw: seq<string>,
                               secondaryMw: seq<string>,
                               primarySuffix: string, secondarySuffix: string,
                               primaryEntrypoints: string, secondaryEntrypoints: string) returns (ok: bool)
      modifies this`routers, this`backends
      requires routes != [] && primarySuffix != secondarySuffix
      ensures ok <==> svc.domains != [] && AllClean(svc.domains) && Clean(svc.path) && RoutesOk(routes, vpn)
      ensures ok ==> routers == old(routers)
                       [svc.name + secondarySuffix := SecondaryRouter(svc, routes, vpn, secondaryMw,
                           secondaryEntrypoints)]
                       [svc.name + primarySuffix := PrimaryRouter(svc, primaryMw, primaryEntrypoints)]
      ensures ok ==> backends == old(backends)[svc.name := svc.port]
    {
      backends := backends[svc.name := svc.port];
      if svc.domains == [] || !AllClean(svc.domains) || !Clean(svc.path) || !RoutesOk(routes, vpn) {
        return false;
      }
      var hostExpr := HostRuleText(svc.domains, svc.path);
      var low, high := 10, 20;
      if svc.path != "" {
        low, high := |hostExpr|, |hostExpr| + 1;
      }
      var rule := SplitRule(svc, routes, vpn, hostExpr);
      routers := routers[svc.name + secondarySuffix := Router(rule, Some(high), Some(svc.name), secondaryEntrypoints,
          secondaryMw)];
      routers := routers[svc.name + primarySuffix := Router(hostExpr, Some(low), Some(svc.name), primaryEntrypoints,
          primaryMw)];
      return true;
    }

    /** The chain, the entry points and the backend of the health router. */
    method HealthTarget(svc: Service, pub: seq<string>, vpn: seq<string>, config: Config)
      returns (base: seq<string>, entrypoints: string, service: string)
      ensures base == (if HealthIsPublic(svc) then pub else vpn)
      ensures entrypoints == (if HealthIsPublic(svc) then config.publicEntrypoints else config.vpnEntrypoints)
      ensures service == (if svc.access.Vpn? && svc.publicRoutes == [] then svc.name + "-vpn" else svc.name)
    {
      base, entrypoints := vpn, config.vpnEntrypoints;
      service := svc.name;
      match svc.access {
        case Public =>
          if svc.vpnRoutes == [] || !VpnRouteCovers(svc.healthPath, svc.vpnRoutes) {
            base, entrypoints := pub, config.publicEntrypoints;
          }
        case Vpn =>
          if svc.publicRoutes != [] && PathUnder(svc.healthPath, svc.publicRoutes) {
            base, entrypoints := pub, config.publicEntrypoints;
          }
          if svc.publicRoutes == [] {
            service := svc.name + "-vpn";
          }
      }
    }

    method AddHealthRouterLabels(svc: Service, pub: seq<string>, vpn: seq<string>, config: Config) returns (ok: bool)
      modifies this`routers
      requires svc.domains != [] && AllClean(svc.domains) && Clean(svc.path)
      requires pub == PublicChain(svc.name, svc.mw) && vpn == VpnChain(svc.name, svc.mw)
      ensures ok <==> (HasHealthRouter(svc) ==> Clean(svc.healthPath))
      ensures !HasHealthRouter(svc) ==> routers == old(routers)
      ensures ok && HasHealthRouter(svc) ==> routers == old(routers)[HealthName(svc) := HealthRouter(svc, config)]
    {
      if !svc.mw.basicAuth || svc.healthPath == "" {
        return true;
      }
      var base, entrypoints, service := HealthTarget(svc, pub, vpn, config);
      if svc.path != "" && !UnderPath(svc.path, svc.healthPath) {
        return true;
      }
      if !Clean(svc.healthPath) {
        return false;
      }
      var host := Parens(HostRuleText(svc.domains, svc.path), |svc.domains| > 1 && svc.path == "");
      var rule := host + " && Path(`" + svc.healthPath + "`)";
      assert rule == HealthRuleText(svc.domains, svc.path, svc.healthPath);
      routers := routers[svc.name + "-health" :=
        Router(rule, Some(HEALTH_PRIORITY), Some(service), entrypoints, WithoutBasicAuth(base, svc.name))];
      return true;
    }
  }
}
