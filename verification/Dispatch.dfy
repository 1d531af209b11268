/** Which router the proxy picks for a request, and what that means for the VPN gate,
    for the health carve-out and for services that share a domain by path. */
module Dispatch {
  import opened Options
  import opened RuleText
  import opened Routers
  import opened RouterLabels
  import Text

  /** The entry points of a router, as its label lists them. */
  predicate Listens(entrypoints: string, entrypoint: string) {
    entrypoint in Text.Split(entrypoints, ',')
  }

  /** A list of names without commas, joined by commas, is heard where one of them is. */
  lemma ListensIff(names: seq<string>, entrypoint: string)
    requires names != [] && forall n :: n in names ==> ',' !in n
    ensures Listens(Text.Join(names, ','), entrypoint) <==> entrypoint in names
  {
    Text.SplitJoin(names, ',');
  }

  /** Is the router bound to the listener of the request, and does its rule match? */
  predicate Hears(r: Router, req: Request) {
    Listens(r.entrypoints, req.entrypoint) && TextMatches(r.rule, req)
  }

  /** A router without a priority ranks by the length of its rule. */
  function Rank(r: Router): nat {
    if r.priority.Some? then r.priority.value else |r.rule|
  }

  /** Router `n` takes the request: it matches, and no matching router ranks higher. */
  ghost predicate Dispatches(rs: map<string, Router>, req: Request, n: string) {
    && n in rs && Hears(rs[n], req)
    && forall k :: k in rs && Hears(rs[k], req) ==> Rank(rs[k]) <= Rank(rs[n])
  }

  predicate Reaches(svc: Service, req: Request) {
    req.host in svc.domains && (svc.path != "" ==> UnderPath(svc.path, req.path))
  }

  function SplitRoutes(svc: Service): seq<string> {
    if svc.access.Public? then svc.vpnRoutes else svc.publicRoutes
  }

  /** The name of the catch-all router. */
  function CatchAll(svc: Service): string {
    if svc.access.Public? then svc.name else svc.name + "-vpn"
  }

  /** The name of the path-matched router of a split pair. */
  function PathMatched(svc: Service): string {
    if svc.access.Public? then svc.name + "-vpn" else svc.name + "-public"
  }

  lemma NamesDiffer(name: string)
    ensures name != name + "-vpn" && name != name + "-public" && name != name + "-health"
    ensures name + "-vpn" != name + "-public"
    ensures name + "-health" != name + "-vpn" && name + "-health" != name + "-public"
  {
    assert |name + "-vpn"| == |name| + 4 && |name + "-public"| == |name| + 7 && |name + "-health"| == |name| + 7;
    assert (name + "-health")[|name| + 1] == 'h' && (name + "-public")[|name| + 1] == 'p';
  }

  /** The ordinary routers of a service, by name, with what they match. */
  lemma OrdinaryMatch(svc: Service, config: Config, req: Request, n: string)
    requires Printable(svc)
    ensures n in OrdinaryRouters(svc, config) <==>
              n == CatchAll(svc) || (n == PathMatched(svc) && SplitRoutes(svc) != [])
    ensures n == CatchAll(svc) ==> (TextMatches(OrdinaryRouters(svc, config)[n].rule, req) <==> Reaches(svc, req))
    ensures n == PathMatched(svc) && SplitRoutes(svc) != [] ==>
              (TextMatches(OrdinaryRouters(svc, config)[n].rule, req) <==>
                 Reaches(svc, req) && RoutesCover(req.path, SplitRoutes(svc), svc.access.Public?))
  {
    NamesDiffer(svc.name);
    HostRuleMeans(svc.domains, svc.path, req);
    if SplitRoutes(svc) != [] {
      SplitRuleMeans(svc.domains, svc.path, SplitRoutes(svc), svc.access.Public?, req);
    }
  }

  function CatchAllRank(svc: Service): nat
    requires svc.domains != []
  {
    if svc.path == "" && SplitRoutes(svc) != [] then 10 else |HostRuleText(svc.domains, svc.path)|
  }

  function PathMatchedRank(svc: Service): nat
    requires svc.domains != []
  {
    if svc.path == "" then 20 else |HostRuleText(svc.domains, svc.path)| + 1
  }

  function ChainFor(svc: Service, public: bool): seq<string> {
    if public then PublicChain(svc.name, svc.mw) else VpnChain(svc.name, svc.mw)
  }

  function EntrypointsFor(config: Config, public: bool): string {
    if public then config.publicEntrypoints else config.vpnEntrypoints
  }

  /** The name of the backend. */
  function BackendName(svc: Service): string {
    if svc.access.Vpn? && svc.publicRoutes == [] then svc.name + "-vpn" else svc.name
  }

  /** The ordinary routers of a service: their ranks, chains, entry points and backends. */
  lemma OrdinaryRow(svc: Service, config: Config)
    requires Printable(svc)
    ensures var r, c, p := OrdinaryRouters(svc, config), CatchAll(svc), PathMatched(svc);
            && Backends(svc) == map[BackendName(svc) := svc.port]
            && r.Keys == (if SplitRoutes(svc) == [] then {c} else {c, p})
            && Rank(r[c]) == CatchAllRank(svc)
            && r[c].middlewares == ChainFor(svc, svc.access.Public?)
            && r[c].entrypoints == EntrypointsFor(config, svc.access.Public?)
            && ServedBy(r[c], Backends(svc), BackendName(svc))
            && (SplitRoutes(svc) != [] ==>
                  && Rank(r[p]) == PathMatchedRank(svc)
                  && r[p].middlewares == ChainFor(svc, !svc.access.Public?)
                  && r[p].entrypoints == EntrypointsFor(config, !svc.access.Public?)
                  && ServedBy(r[p], Backends(svc), BackendName(svc)))
  {
    NamesDiffer(svc.name);
  }

  lemma HealthRow(svc: Service, config: Config)
    requires svc.domains != []
    ensures var h := HealthRouter(svc, config);
            && Rank(h) == HEALTH_PRIORITY == 1000000
            && h.rule == HealthRuleText(svc.domains, svc.path, svc.healthPath)
            && h.middlewares == WithoutBasicAuth(ChainFor(svc, HealthIsPublic(svc)), svc.name)
            && h.entrypoints == EntrypointsFor(config, HealthIsPublic(svc))
            && ServedBy(h, Backends(svc), BackendName(svc))
  {
  }

  /** The backend that serves a router: the one it names, else the only one there is. */
  predicate ServedBy(r: Router, backends: map<string, string>, b: string) {
    b in backends && if r.service.Some? then r.service == Some(b) else backends.Keys == {b}
  }

  // ------------------------------------------------------- what the proxy applies

  /** Does the proxy apply middleware `m`: by name, or inside a chain that is named? */
  predicate Applies(mws: seq<string>, chains: map<string, seq<string>>, m: string) {
    m in mws || exists c :: c in mws && c in chains && m in chains[c]
  }

  /** The suffixes of the per-service middlewares, in the order in which they are applied. */
  const SUFFIXES := ["-ratelimit", "-inflightreq", "-basicauth", "-circuitbreaker", "-retry"]

  /** Does the service declare the middleware with suffix `k`? */
  predicate Declares(mw: Middleware, k: nat) {
    match k
    case 0 => mw.rateLimit
    case 1 => mw.inFlight
    case 2 => mw.basicAuth
    case 3 => mw.circuitBreaker
    case 4 => mw.retry
    case _ => false
  }

  /** The declared ones among the first `n`, in order. */
  function Declared(name: string, mw: Middleware, n: nat): seq<string>
    requires n <= 5
  {
    if n == 0 then []
    else Declared(name, mw, n - 1) + if Declares(mw, n - 1) then [name + SUFFIXES[n - 1]] else []
  }

  lemma PerServiceIsDeclared(name: string, mw: Middleware)
    ensures PerService(name, mw) == Declared(name, mw, 5)
  {
    assert Declared(name, mw, 1) == if mw.rateLimit then [name + "-ratelimit"] else [];
    assert Declared(name, mw, 2) == Declared(name, mw, 1) + if mw.inFlight then [name + "-inflightreq"] else [];
    assert Declared(name, mw, 3) == Declared(name, mw, 2) + if mw.basicAuth then [name + "-basicauth"] else [];
    assert Declared(name, mw, 4) ==
           Declared(name, mw, 3) + if mw.circuitBreaker then [name + "-circuitbreaker"] else [];
    assert Declared(name, mw, 5) == Declared(name, mw, 4) + if mw.retry then [name + "-retry"] else [];
  }

  lemma SuffixEnds(name: string, k: nat)
    requires k < 5
    ensures var m := name + SUFFIXES[k];
            m != "" && m[|m| - 1] == "tqhry"[k] && (k == 4 ==> m[|m| - 2] == 'r')
  {
    assert SUFFIXES[0] == "-ratelimit" && SUFFIXES[1] == "-inflightreq" && SUFFIXES[2] == "-basicauth";
    assert SUFFIXES[3] == "-circuitbreaker" && SUFFIXES[4] == "-retry";
  }

  lemma SuffixesAre(name: string, k: nat)
    requires k < 5
    ensures forall j: nat | j < 5 && j != k :: name + SUFFIXES[j] != name + SUFFIXES[k]
    ensures name + SUFFIXES[k] !in {name + "-chain", "public-chain", "vpn-chain", "vpn-only"}
    ensures name + SUFFIXES[k] !in {"secure-headers", "compress", "errors"}
  {
    SuffixEnds(name, k);
    forall j: nat | j < 5 && j != k ensures name + SUFFIXES[j] != name + SUFFIXES[k] { SuffixEnds(name, j); }
    var own := name + "-chain";
    assert own[|own| - 1] == 'n' && "public-chain"[11] == 'n' && "vpn-chain"[8] == 'n';
    assert "vpn-only"[7] == 'y' && "vpn-only"[6] == 'l';
    assert "secure-headers"[13] == 's' && "compress"[7] == 's' && "errors"[5] == 's';
  }

  lemma {:induction false} DeclaredHas(name: string, mw: Middleware, n: nat, m: string)
    requires n <= 5
    ensures m in Declared(name, mw, n) <==> exists k: nat :: k < n && Declares(mw, k) && m == name + SUFFIXES[k]
  {
    if n > 0 {
      DeclaredHas(name, mw, n - 1, m);
    }
  }

  /** The chain in front of the per-service middlewares. */
  function Head(svc: Service, public: bool): seq<string> {
    if svc.mw.headers && svc.mw.compress then [if public then "public-chain" else "vpn-chain"]
    else if public then [svc.name + "-chain"]
    else [svc.name + "-chain", "vpn-only"]
  }

  /** Both lists of a service: the chain, and then the declared middlewares in order. */
  lemma ListsAre(svc: Service, public: bool)
    ensures ChainFor(svc, public) == Head(svc, public) + Declared(svc.name, svc.mw, 5)
  {
    PerServiceIsDeclared(svc.name, svc.mw);
  }

  /** Each ordinary router of a service names a per-service middleware (rate limit, requests
      in flight, basic auth, circuit breaker, retry) exactly when the service declares it. */
  lemma RoutersNameWhatIsDeclared(svc: Service, config: Config, n: string, k: nat)
    requires Printable(svc) && n in OrdinaryRouters(svc, config) && k < 5
    ensures svc.name + SUFFIXES[k] in OrdinaryRouters(svc, config)[n].middlewares <==> Declares(svc.mw, k)
  {
    NamesDiffer(svc.name);
    OrdinaryRow(svc, config);
    ListsAre(svc, true);
    ListsAre(svc, false);
    DeclaredHas(svc.name, svc.mw, 5, svc.name + SUFFIXES[k]);
    SuffixesAre(svc.name, k);
  }

  /** The members of the chain in front. */
  lemma ChainHolds(svc: Service, config: Config, public: bool)
    ensures var chain, chains := Head(svc, public)[0], Chains(svc, config);
            && chain in chains
            && ("secure-headers" in chains[chain] <==> svc.mw.headers && config.headersOn)
            && ("compress" in chains[chain] <==> svc.mw.compress && config.compressOn)
            && ("errors" in chains[chain] <==> config.errorsOn)
            && ("vpn-only" in chains[chain] <==> !public && svc.mw.headers && svc.mw.compress)
  {
    NamesApart();
  }

  lemma NamesApart()
    ensures "secure-headers" != "compress" && "secure-headers" != "errors" && "secure-headers" != "vpn-only"
    ensures "compress" != "errors" && "compress" != "vpn-only" && "errors" != "vpn-only"
    ensures "public-chain" != "vpn-chain"
  {
    assert |"secure-headers"| == 14 && |"errors"| == 6 && "compress"[0] == 'c' && "vpn-only"[0] == 'v';
  }

  /** Nothing else in a list is a chain. */
  lemma OnlyTheChain(svc: Service, config: Config, public: bool, m: string)
    requires m in ChainFor(svc, public)
    ensures m == Head(svc, public)[0] || m !in Chains(svc, config)
  {
    ListsAre(svc, public);
    DeclaredHas(svc.name, svc.mw, 5, m);
    var own := svc.name + "-chain";
    assert own[|own| - 1] == 'n' && "vpn-only"[7] == 'y';
    assert |"vpn-only"| == 8 && |"vpn-chain"| == 9 && |"public-chain"| == 12;
    if k: nat :| k < 5 && Declares(svc.mw, k) && m == svc.name + SUFFIXES[k] {
      SuffixesAre(svc.name, k);
    }
  }

  lemma ApplyIs(mws: seq<string>, chains: map<string, seq<string>>, chain: string)
    requires chain in mws && chain in chains && forall m | m in mws :: m == chain || m !in chains
    ensures forall m: string :: Applies(mws, chains, m) <==> m in mws || m in chains[chain]
  {
  }

  lemma HeadIsAChain(svc: Service, public: bool)
    ensures Head(svc, public)[0] !in {"vpn-only", "errors", "compress", "secure-headers"}
  {
    var h, own := Head(svc, public)[0], svc.name + "-chain";
    assert own[|own| - 1] == 'n' && "public-chain"[11] == 'n' && "vpn-chain"[8] == 'n';
    assert "vpn-only"[7] == 'y' && "errors"[5] == 's' && "compress"[7] == 's' && "secure-headers"[13] == 's';
    assert h[|h| - 1] == 'n';
  }

  /** Seen through the chains, the proxy applies the security headers and the compression
      exactly when both the service and the host want them, and the error pages exactly
      when the host does, on public and vpn routers alike. */
  lemma ProxyApplies(svc: Service, config: Config, public: bool)
    ensures var mws, chains := ChainFor(svc, public), Chains(svc, config);
            && (Applies(mws, chains, "secure-headers") <==> svc.mw.headers && config.headersOn)
            && (Applies(mws, chains, "compress") <==> svc.mw.compress && config.compressOn)
            && (Applies(mws, chains, "errors") <==> config.errorsOn)
            && (Applies(mws, chains, "vpn-only") <==> !public)
  {
    var mws, chains, chain := ChainFor(svc, public), Chains(svc, config), Head(svc, public)[0];
    ListsAre(svc, public);
    ChainHolds(svc, config, public);
    forall m | m in mws ensures m == chain || m !in chains {
      OnlyTheChain(svc, config, public, m);
    }
    ApplyIs(mws, chains, chain);
    NotByName(svc, public, "secure-headers");
    NotByName(svc, public, "compress");
    NotByName(svc, public, "errors");
    NotByName(svc, public, "vpn-only");
  }

  /** Of these four only the gate is ever in a list by name, behind a custom vpn chain. */
  lemma NotByName(svc: Service, public: bool, m: string)
    requires m in {"secure-headers", "compress", "errors", "vpn-only"}
    ensures m in ChainFor(svc, public) <==> m == "vpn-only" && !public && !(svc.mw.headers && svc.mw.compress)
  {
    ListsAre(svc, public);
    HeadIsAChain(svc, public);
    NamesApart();
    DeclaredHas(svc.name, svc.mw, 5, m);
    if k: nat :| k < 5 && Declares(svc.mw, k) && m == svc.name + SUFFIXES[k] {
      SuffixesAre(svc.name, k);
    }
  }

  // ------------------------------------------------------------------ the VPN gate

  lemma PerServiceNames(name: string, mw: Middleware, m: string)
    requires m in PerService(name, mw)
    ensures m in {name + "-ratelimit", name + "-inflightreq", name + "-basicauth", name + "-circuitbreaker",
              name + "-retry"}
    ensures m[|m| - 1] in "tqhry" && m[|m| - 2] in "ietrre"
    ensures m != "vpn-only" && m != "public-chain" && m != "vpn-chain" && m != name + "-chain"
  {
  }

  lemma {:induction false} WithoutBasicAuthKeeps(mws: seq<string>, name: string, m: string)
    ensures m in WithoutBasicAuth(mws, name) <==> m in mws && m != name + "-basicauth"
  {
    if mws != [] {
      WithoutBasicAuthKeeps(mws[1..], name, m);
      assert mws == [mws[0]] + mws[1..];
    }
  }

  function Chains(svc: Service, config: Config): map<string, seq<string>> {
    GlobalChains(config) + OwnChains(svc, config)
  }

  /** The VPN chain of a service holds the gate and its public chain does not, with the
      default chains and with a custom chain, and with or without the basic auth entry. */
  lemma ChainsAndTheGate(svc: Service, config: Config)
    ensures Gated(VpnChain(svc.name, svc.mw), Chains(svc, config))
    ensures !Gated(PublicChain(svc.name, svc.mw), Chains(svc, config))
    ensures Gated(WithoutBasicAuth(VpnChain(svc.name, svc.mw), svc.name), Chains(svc, config))
    ensures !Gated(WithoutBasicAuth(PublicChain(svc.name, svc.mw), svc.name), Chains(svc, config))
  {
    var name, mw, chains := svc.name, svc.mw, Chains(svc, config);
    var gate := if NeedsCustomChain(mw) then "vpn-only" else "vpn-chain";
    GateIsNotBasicAuth(name);
    assert gate in VpnChain(name, mw);
    WithoutBasicAuthKeeps(VpnChain(name, mw), name, gate);
    VpnChainMembers(svc, config);
    forall m | m in PublicChain(name, mw)
      ensures m != "vpn-only" && !(m in chains && "vpn-only" in chains[m])
    {
      PublicEntryIsOpen(svc, config, m);
    }
    forall m | m in WithoutBasicAuth(PublicChain(name, mw), name)
      ensures m in PublicChain(name, mw)
    {
      WithoutBasicAuthKeeps(PublicChain(name, mw), name, m);
    }
  }

  lemma GateIsNotBasicAuth(name: string)
    ensures "vpn-only" != name + "-basicauth" && "vpn-chain" != name + "-basicauth"
  {
    var b := name + "-basicauth";
    assert b[|b| - 1] == 'h' && "vpn-only"[7] == 'y' && "vpn-chain"[8] == 'n';
  }

  lemma VpnChainMembers(svc: Service, config: Config)
    ensures !NeedsCustomChain(svc.mw) ==>
              "vpn-chain" in Chains(svc, config) && "vpn-only" in Chains(svc, config)["vpn-chain"]
  {
  }

  lemma PublicEntryIsOpen(svc: Service, config: Config, m: string)
    requires m in PublicChain(svc.name, svc.mw)
    ensures m != "vpn-only" && !(m in Chains(svc, config) && "vpn-only" in Chains(svc, config)[m])
  {
    var own := svc.name + "-chain";
    assert own[|own| - 1] == 'n' && "vpn-only"[7] == 'y';
    if m in PerService(svc.name, svc.mw) {
      PerServiceNames(svc.name, svc.mw, m);
    }
  }

  /** The gate, the ranks and the listeners of the routers of a public service. */
  lemma GatedRows(svc: Service, config: Config)
    requires Printable(svc) && svc.access.Public?
    ensures var rs, chains, c, p := OrdinaryRouters(svc, config), Chains(svc, config), CatchAll(svc), PathMatched(svc);
            && c != p && c in rs && !Gated(rs[c].middlewares, chains) && rs[c].entrypoints == config.publicEntrypoints
            && (p in rs <==> svc.vpnRoutes != [])
            && (p in rs ==> Gated(rs[p].middlewares, chains) && Rank(rs[c]) < Rank(rs[p])
                            && rs[p].entrypoints == config.vpnEntrypoints)
  {
    ChainsAndTheGate(svc, config);
    NamesDiffer(svc.name);
    OrdinaryRow(svc, config);
  }

  lemma GatedHealth(svc: Service, config: Config)
    requires svc.domains != [] && svc.access.Public?
    ensures var h := HealthRouter(svc, config);
            && (Gated(h.middlewares, Chains(svc, config)) <==> VpnRouteCovers(svc.healthPath, svc.vpnRoutes))
            && h.entrypoints == EntrypointsFor(config, !VpnRouteCovers(svc.healthPath, svc.vpnRoutes))
  {
    ChainsAndTheGate(svc, config);
    HealthRow(svc, config);
  }

  /** In every shape of a public service, a request is dispatched to a router whose chain
      holds the VPN gate exactly when its path starts, ignoring case, with a vpn route and
      the vpn routers listen where it arrives. */
  lemma VpnRoutesAreGated(svc: Service, config: Config, req: Request, n: string)
    requires Printable(svc) && svc.access.Public?
    requires Dispatches(AllRouters(svc, config), req, n)
    ensures Gated(AllRouters(svc, config)[n].middlewares, Chains(svc, config)) <==>
              VpnRouteCovers(req.path, svc.vpnRoutes) && Listens(config.vpnEntrypoints, req.entrypoint)
  {
    var all, c, p, h := AllRouters(svc, config), CatchAll(svc), PathMatched(svc), HealthName(svc);
    NamesDiffer(svc.name);
    GatedRows(svc, config);
    OrdinaryMatch(svc, config, req, c);
    OrdinaryMatch(svc, config, req, p);
    OrdinaryMatch(svc, config, req, n);
    if HasHealthRouter(svc) {
      GatedHealth(svc, config);
      HealthRuleMeans(svc.domains, svc.path, svc.healthPath, req);
      WithAdded(OrdinaryRouters(svc, config), h, HealthRouter(svc, config));
    }
    assert n == c && p in all ==> !Hears(all[p], req);
  }

  lemma WithAdded(rs: map<string, Router>, h: string, added: Router)
    requires h !in rs
    ensures rs[h := added][h] == added && forall k :: k in rs ==> rs[h := added][k] == rs[k]
  {
  }

  /** Every request for a vpn route is gated, and no other request is. */
  ghost predicate GateHolds(svc: Service, config: Config)
    requires svc.domains != []
  {
    forall req: Request, n: string :: Dispatches(AllRouters(svc, config), req, n) ==>
      (Gated(AllRouters(svc, config)[n].middlewares, Chains(svc, config)) <==> VpnRouteCovers(req.path, svc.vpnRoutes))
  }

  /** The vpn routers listen wherever the public ones do. */
  ghost predicate Nested(config: Config) {
    forall e: string :: Listens(config.publicEntrypoints, e) ==> Listens(config.vpnEntrypoints, e)
  }

  /** A request for a vpn route that only the public routers hear: its catch-all takes it. */
  lemma UnheardRouteIsOpen(svc: Service, config: Config, req: Request)
    requires Printable(svc) && svc.access.Public? && Reaches(svc, req) && VpnRouteCovers(req.path, svc.vpnRoutes)
    requires Listens(config.publicEntrypoints, req.entrypoint) && !Listens(config.vpnEntrypoints, req.entrypoint)
    ensures Dispatches(AllRouters(svc, config), req, CatchAll(svc))
    ensures !Gated(AllRouters(svc, config)[CatchAll(svc)].middlewares, Chains(svc, config))
  {
    var all, c, p, h := AllRouters(svc, config), CatchAll(svc), PathMatched(svc), HealthName(svc);
    NamesDiffer(svc.name);
    GatedRows(svc, config);
    OrdinaryMatch(svc, config, req, c);
    if HasHealthRouter(svc) {
      GatedHealth(svc, config);
      HealthRuleMeans(svc.domains, svc.path, svc.healthPath, req);
      WithAdded(OrdinaryRouters(svc, config), h, HealthRouter(svc, config));
    }
    forall k | k in all && Hears(all[k], req) ensures k == c {
      OrdinaryMatch(svc, config, req, k);
    }
  }

  /** The gate holds for every request exactly when the vpn routers hear every request for
      a vpn route that the public routers hear. */
  lemma GateHoldsByRequest(svc: Service, config: Config)
    requires Printable(svc) && svc.access.Public?
    ensures GateHolds(svc, config) <==>
              forall req: Request ::
                (Reaches(svc, req) && VpnRouteCovers(req.path, svc.vpnRoutes) &&
                    Listens(config.publicEntrypoints, req.entrypoint)
                 ==> Listens(config.vpnEntrypoints, req.entrypoint))
  {
    forall req: Request | GateHolds(svc, config) && Reaches(svc, req) && VpnRouteCovers(req.path, svc.vpnRoutes) &&
                          Listens(config.publicEntrypoints, req.entrypoint)
      ensures Listens(config.vpnEntrypoints, req.entrypoint)
    {
      if !Listens(config.vpnEntrypoints, req.entrypoint) {
        UnheardRouteIsOpen(svc, config, req);
      }
    }
    forall req: Request, n: string | Dispatches(AllRouters(svc, config), req, n)
      ensures (Gated(AllRouters(svc, config)[n].middlewares, Chains(svc, config)) <==>
                VpnRouteCovers(req.path, svc.vpnRoutes))
              || (Reaches(svc, req) && VpnRouteCovers(req.path, svc.vpnRoutes) &&
                  Listens(config.publicEntrypoints, req.entrypoint) && !Listens(config.vpnEntrypoints, req.entrypoint))
    {
      VpnRoutesAreGated(svc, config, req, n);
      DispatchedReaches(svc, config, req, n);
    }
  }

  lemma DispatchedReaches(svc: Service, config: Config, req: Request, n: string)
    requires Printable(svc) && Dispatches(AllRouters(svc, config), req, n)
    ensures Reaches(svc, req)
    ensures Listens(config.publicEntrypoints, req.entrypoint) || Listens(config.vpnEntrypoints, req.entrypoint)
  {
    NamesDiffer(svc.name);
    OrdinaryRow(svc, config);
    OrdinaryMatch(svc, config, req, n);
    if HasHealthRouter(svc) {
      HealthRow(svc, config);
      HealthRuleMeans(svc.domains, svc.path, svc.healthPath, req);
      WithAdded(OrdinaryRouters(svc, config), HealthName(svc), HealthRouter(svc, config));
    }
  }

  /** Can a request under the path start with the route, ignoring case? */
  predicate Meets(path: string, route: string) {
    var prefix := RStripSlash(path);
    var folded, below := Text.Lower(route), Text.Lower(prefix + "/");
    path == "" || folded <= below || below <= folded
  }

  predicate Under(path: string, p: string) {
    path != "" ==> UnderPath(path, p)
  }

  lemma LowerStarts(a: string, b: string)
    requires a <= b
    ensures Text.Lower(a) <= Text.Lower(b)
  {
  }

  lemma LowerOf(a: string, b: string)
    ensures Text.Lower(a + b) == Text.Lower(a) + Text.Lower(b)
  {
  }

  /** A path that shows it. */
  lemma MeetingPath(path: string, route: string) returns (p: string)
    requires Meets(path, route)
    ensures Under(path, p) && Text.Lower(route) <= Text.Lower(p)
  {
    var prefix := RStripSlash(path);
    if path == "" {
      p := route;
    } else if Text.Lower(route) <= Text.Lower(prefix + "/") {
      p := prefix + "/";
    } else {
      var n := |prefix| + 1;
      p := (prefix + "/") + route[n..];
      LowerOf(prefix + "/", route[n..]);
      LowerOf(route[..n], route[n..]);
      assert route == route[..n] + route[n..];
    }
  }

  lemma PathMeets(path: string, route: string, p: string)
    requires Under(path, p) && Text.Lower(route) <= Text.Lower(p)
    ensures Meets(path, route)
  {
    var prefix := RStripSlash(path);
    if path != "" && prefix + "/" <= p {
      LowerStarts(prefix + "/", p);
    }
  }

  /** The gate holds for every request exactly when every public entry point is a vpn one,
      or no vpn route can be reached under the path of the service. */
  lemma GateHoldsIff(svc: Service, config: Config)
    requires Printable(svc) && svc.access.Public?
    ensures GateHolds(svc, config) <==> Nested(config) || !exists r :: r in svc.vpnRoutes && Meets(svc.path, r)
  {
    GateHoldsByRequest(svc, config);
    if r :| r in svc.vpnRoutes && Meets(svc.path, r) {
      var p := MeetingPath(svc.path, r);
      forall e: string | GateHolds(svc, config) && Listens(config.publicEntrypoints, e)
        ensures Listens(config.vpnEntrypoints, e)
      {
        var req := Request(svc.domains[0], p, e);
        assert Reaches(svc, req) && VpnRouteCovers(req.path, svc.vpnRoutes);
      }
    } else {
      forall req: Request | Reaches(svc, req) ensures !VpnRouteCovers(req.path, svc.vpnRoutes) {
        if r :| r in svc.vpnRoutes && Text.Lower(r) <= Text.Lower(req.path) {
          PathMeets(svc.path, r, req.path);
        }
      }
    }
  }

  // -------------------------------------------------------- the health carve-out

  /** Only the exact health path is carved out of a public service, and only where its
      health router listens; elsewhere nothing changes, which for the health path happens
      exactly when a vpn route covers it and only the public routers listen. Where it
      listens, the request keeps the backend, the entry points and the middlewares it
      would have had, minus the service's basic auth, and it is taken from its ordinary
      router exactly when that one ranks no higher than the health router does. */
  lemma HealthCarveOut(svc: Service, config: Config, req: Request, n: string)
    requires Printable(svc) && svc.access.Public? && HasHealthRouter(svc)
    ensures var carved := HealthRouter(svc, config);
            && (req.path != svc.healthPath || !Listens(carved.entrypoints, req.entrypoint) ==>
                  (Dispatches(AllRouters(svc, config), req, n) <==> Dispatches(OrdinaryRouters(svc, config), req, n)))
            && (req.path == svc.healthPath && Dispatches(OrdinaryRouters(svc, config), req, n) ==>
                  (Listens(carved.entrypoints, req.entrypoint) <==>
                     Listens(config.vpnEntrypoints, req.entrypoint) || !VpnRouteCovers(svc.healthPath, svc.vpnRoutes)))
    ensures var carved := HealthRouter(svc, config);
            req.path == svc.healthPath && Listens(carved.entrypoints, req.entrypoint) &&
            Dispatches(OrdinaryRouters(svc, config), req, n) ==>
              var was := OrdinaryRouters(svc, config)[n];
              && ServedBy(carved, Backends(svc), BackendName(svc)) && ServedBy(was, Backends(svc), BackendName(svc))
              && carved.entrypoints == was.entrypoints
              && carved.middlewares == WithoutBasicAuth(was.middlewares, svc.name)
              && (Dispatches(AllRouters(svc, config), req, HealthName(svc)) <==> Rank(was) <= HEALTH_PRIORITY)
              && (Dispatches(AllRouters(svc, config), req, n) <==> HEALTH_PRIORITY <= Rank(was))
  {
    CarvedRows(svc, config, req, n);
    var rs, p := OrdinaryRouters(svc, config), PathMatched(svc);
    if Dispatches(rs, req, n) && p in rs && Hears(rs[p], req) {
      assert Rank(rs[p]) <= Rank(rs[n]);
    }
  }

  /** The rows of a service with a carve-out, and what adding its health router does. */
  lemma CarvedRows(svc: Service, config: Config, req: Request, n: string)
    requires Printable(svc) && HasHealthRouter(svc)
    ensures var rs, h, c, p := OrdinaryRouters(svc, config), HealthRouter(svc, config), CatchAll(svc), PathMatched(svc);
            && HealthName(svc) !in rs && c != p && c in rs && (p in rs <==> SplitRoutes(svc) != [])
            && Rank(h) == HEALTH_PRIORITY
            && (TextMatches(h.rule, req) <==> Reaches(svc, req) && req.path == svc.healthPath)
            && h.entrypoints == EntrypointsFor(config, HealthIsPublic(svc))
            && h.middlewares == WithoutBasicAuth(ChainFor(svc, HealthIsPublic(svc)), svc.name)
            && ServedBy(h, Backends(svc), BackendName(svc))
            && (n in rs <==> n == c || (n == p && SplitRoutes(svc) != []))
            && (n in rs ==>
                  && rs[n].entrypoints == EntrypointsFor(config, (n == c) == svc.access.Public?)
                  && rs[n].middlewares == ChainFor(svc, (n == c) == svc.access.Public?)
                  && ServedBy(rs[n], Backends(svc), BackendName(svc))
                  && (TextMatches(rs[n].rule, req) <==>
                        Reaches(svc, req) && (n == p ==> RoutesCover(req.path, SplitRoutes(svc), svc.access.Public?))))
            && (p in rs ==>
                  && Rank(rs[c]) < Rank(rs[p]) && rs[p].entrypoints == EntrypointsFor(config, svc.access.Vpn?)
                  && (TextMatches(rs[p].rule, req) <==>
                        Reaches(svc, req) && RoutesCover(req.path, SplitRoutes(svc), svc.access.Public?)))
    ensures var rs, h, all := OrdinaryRouters(svc, config), HealthRouter(svc, config), AllRouters(svc, config);
            && (!Hears(h, req) ==> (Dispatches(all, req, n) <==> Dispatches(rs, req, n)))
            && (Hears(h, req) && Dispatches(rs, req, n) ==>
                  && (Dispatches(all, req, HealthName(svc)) <==> Rank(rs[n]) <= HEALTH_PRIORITY)
                  && (Dispatches(all, req, n) <==> HEALTH_PRIORITY <= Rank(rs[n])))
  {
    NamesDiffer(svc.name);
    OrdinaryRow(svc, config);
    HealthRow(svc, config);
    TopsRankHigher(svc);
    HealthRuleMeans(svc.domains, svc.path, svc.healthPath, req);
    OrdinaryMatch(svc, config, req, CatchAll(svc));
    OrdinaryMatch(svc, config, req, PathMatched(svc));
    OrdinaryMatch(svc, config, req, n);
    AddedRouter(OrdinaryRouters(svc, config), HealthRouter(svc, config), req, HealthName(svc), n);
  }

  /** A vpn service keeps that promise exactly when its public routes say the same of the
      health path on a segment boundary, as the writer asks, and by plain prefix on a
      listener of the public routers, as the proxy asks. The entry points also stay when
      both lists are the same; the backend always does. */
  lemma VpnHealthCarveOut(svc: Service, config: Config, req: Request, n: string)
    requires Printable(svc) && svc.access.Vpn? && HasHealthRouter(svc)
    ensures var carved := HealthRouter(svc, config);
            req.path != svc.healthPath || !Listens(carved.entrypoints, req.entrypoint) ==>
              (Dispatches(AllRouters(svc, config), req, n) <==> Dispatches(OrdinaryRouters(svc, config), req, n))
    ensures req.path == svc.healthPath && Dispatches(OrdinaryRouters(svc, config), req, n) ==>
              var was, carved := OrdinaryRouters(svc, config)[n], HealthRouter(svc, config);
              var kept := PathUnder(svc.healthPath, svc.publicRoutes) <==>
                            PublicRouteCovers(svc.healthPath, svc.publicRoutes) &&
                                Listens(config.publicEntrypoints, req.entrypoint);
              && ServedBy(carved, Backends(svc), BackendName(svc)) && ServedBy(was, Backends(svc), BackendName(svc))
              && (carved.entrypoints == was.entrypoints <==> kept || config.publicEntrypoints == config.vpnEntrypoints)
              && (carved.middlewares == WithoutBasicAuth(was.middlewares, svc.name) <==> kept)
              && (Listens(carved.entrypoints, req.entrypoint) ==>
                    && (Dispatches(AllRouters(svc, config), req, HealthName(svc)) <==> Rank(was) <= HEALTH_PRIORITY)
                    && (Dispatches(AllRouters(svc, config), req, n) <==> HEALTH_PRIORITY <= Rank(was)))
  {
    CarvedRows(svc, config, req, n);
    ChainsAndTheGate(svc, config);
    var rs, p := OrdinaryRouters(svc, config), PathMatched(svc);
    if Dispatches(rs, req, n) && p in rs && Hears(rs[p], req) {
      assert Rank(rs[p]) <= Rank(rs[n]);
    }
  }

  lemma TopsRankHigher(svc: Service)
    requires svc.domains != []
    ensures SplitRoutes(svc) != [] ==> CatchAllRank(svc) < PathMatchedRank(svc)
  {
  }

  /** The two readings of a public route differ both ways. */
  lemma RouteReadingsDiffer()
    ensures !PathUnder("/apiary", ["/api"]) && PublicRouteCovers("/apiary", ["/api"])
    ensures PathUnder("/api", ["/api/"]) && !PublicRouteCovers("/api", ["/api/"])
  {
    assert "/api" in ["/api"] && "/api/" in ["/api/"];
    assert RStripSlash("/api") == "/api";
    assert "/api/"[..4] == "/api" && RStripSlash("/api/") == "/api";
    assert "/apiary"[4] == 'a' && "/api/"[4] == '/';
  }

  /** A vpn service with basic auth, one public route and a health path. */
  function AppWith(route: string, health: string): Service {
    Service("app", Vpn, ["app.example"], "", [], [route], Middleware(true, true, false, false, true, false, false),
        health, "80")
  }

  // So its health carve-out can move a health path across the gate. With the public route
  // `/api`, the health path `/apiary` is served in the open and the carve-out puts it
  // behind the gate; with the route `/api/`, the health path `/api` is behind the gate and
  // the carve-out opens it.
  lemma CarveOutCrossesTheGate(route: string, health: string, config: Config, e: string)
    requires AppPaths(route, health)
    requires Listens(config.publicEntrypoints, e) && Listens(config.vpnEntrypoints, e)
    ensures var req := Request("app.example", health, e);
            if route == "/api" then MovesAcross(AppWith(route, health), config, req, "app-public", true)
            else MovesAcross(AppWith(route, health), config, req, "app-vpn", false)
  {
    AppPathsDisagree(route, health);
    AppCrosses(route, health, config, e);
  }

  predicate AppPaths(route: string, health: string) {
    (route == "/api" && health == "/apiary") || (route == "/api/" && health == "/api")
  }

  lemma AppPathsDisagree(route: string, health: string)
    requires AppPaths(route, health)
    ensures Clean(route) && Clean(health) && health != ""
    ensures PublicRouteCovers(health, [route]) <==> route == "/api"
    ensures PathUnder(health, [route]) <==> route != "/api"
  {
    AppPathsAreClean(route, health);
    RouteReadingsDiffer();
  }

  lemma AppPathsAreClean(route: string, health: string)
    requires AppPaths(route, health)
    ensures Clean(route) && Clean(health) && health != ""
  {
  }

  /** The request is taken from router `n` by the health router, which is gated when `n` is
      not, and the other way round. */
  ghost predicate MovesAcross(svc: Service, config: Config, req: Request, n: string, gates: bool) {
    && Printable(svc)
    && Dispatches(OrdinaryRouters(svc, config), req, n) && Dispatches(AllRouters(svc, config), req, HealthName(svc))
    && (Gated(OrdinaryRouters(svc, config)[n].middlewares, Chains(svc, config)) <==> !gates)
    && (Gated(AllRouters(svc, config)[HealthName(svc)].middlewares, Chains(svc, config)) <==> gates)
  }

  lemma Crossing(svc: Service, config: Config, req: Request)
    requires Printable(svc) && HasHealthRouter(svc) && svc.access.Vpn? && svc.publicRoutes != []
    requires CatchAllRank(svc) < HEALTH_PRIORITY && PathMatchedRank(svc) < HEALTH_PRIORITY
    requires Reaches(svc, req) && req.path == svc.healthPath
    requires Listens(config.publicEntrypoints, req.entrypoint) && Listens(config.vpnEntrypoints, req.entrypoint)
    requires PublicRouteCovers(req.path, svc.publicRoutes) <==> !PathUnder(req.path, svc.publicRoutes)
    ensures var gates := PublicRouteCovers(req.path, svc.publicRoutes);
            MovesAcross(svc, config, req, if gates then PathMatched(svc) else CatchAll(svc), gates)
  {
    var n := if PublicRouteCovers(req.path, svc.publicRoutes) then PathMatched(svc) else CatchAll(svc);
    SplitDispatch(svc, config, req);
    CarvedRows(svc, config, req, n);
    OrdinaryRow(svc, config);
    ChainsAndTheGate(svc, config);
  }

  lemma AppCrosses(route: string, health: string, config: Config, e: string)
    requires Clean(route) && Clean(health) && health != ""
    requires Listens(config.publicEntrypoints, e) && Listens(config.vpnEntrypoints, e)
    requires PublicRouteCovers(health, [route]) <==> !PathUnder(health, [route])
    ensures var gates := PublicRouteCovers(health, [route]);
            MovesAcross(AppWith(route, health), config, Request("app.example", health, e), if gates then "app-public"
                else "app-vpn", gates)
  {
    AppRanks(route, health);
    Crossing(AppWith(route, health), config, Request("app.example", health, e));
  }

  lemma AppRanks(route: string, health: string)
    requires Clean(route) && Clean(health) && health != ""
    ensures var svc := AppWith(route, health);
            && Printable(svc) && HasHealthRouter(svc)
            && CatchAllRank(svc) < HEALTH_PRIORITY && PathMatchedRank(svc) < HEALTH_PRIORITY
            && PathMatched(svc) == "app-public" && CatchAll(svc) == "app-vpn"
  {
  }

  /** Where both kinds of routers listen, the path-matched one takes what its routes cover
      and the catch-all takes the rest. */
  lemma SplitDispatch(svc: Service, config: Config, req: Request)
    requires Printable(svc) && SplitRoutes(svc) != [] && Reaches(svc, req)
    requires Listens(config.publicEntrypoints, req.entrypoint) && Listens(config.vpnEntrypoints, req.entrypoint)
    ensures Dispatches(OrdinaryRouters(svc, config), req,
                       if RoutesCover(req.path, SplitRoutes(svc), svc.access.Public?) then PathMatched(svc)
                           else CatchAll(svc))
  {
    NamesDiffer(svc.name);
    OrdinaryRow(svc, config);
    TopsRankHigher(svc);
    OrdinaryMatch(svc, config, req, CatchAll(svc));
    OrdinaryMatch(svc, config, req, PathMatched(svc));
  }

  /** Adding one router to a set: it changes nothing for a request it does not match, and
      it takes a matched request exactly when nothing ranked higher. */
  lemma AddedRouter(rs: map<string, Router>, added: Router, req: Request, h: string, n: string)
    requires h !in rs
    ensures !Hears(added, req) ==> (Dispatches(rs[h := added], req, n) <==> Dispatches(rs, req, n))
    ensures Hears(added, req) && Dispatches(rs, req, n) ==>
              && (Dispatches(rs[h := added], req, h) <==> Rank(rs[n]) <= Rank(added))
              && (Dispatches(rs[h := added], req, n) <==> Rank(added) <= Rank(rs[n]))
  {
    var all := rs[h := added];
    assert forall k :: k in rs ==> all[k] == rs[k];
    if Hears(added, req) && Dispatches(rs, req, n) {
      assert n in all && h in all && all[h] == added;
    }
  }

  /** A service has a health router exactly when it declares basic auth and a health path,
      which for a path service is the path itself or lies below it. */
  lemma HealthRouterIff(svc: Service, config: Config)
    requires Printable(svc)
    ensures svc.name + "-health" in AllRouters(svc, config) <==>
              && svc.mw.basicAuth && svc.healthPath != ""
              && (svc.path == "" ||
                  var prefix := RStripSlash(svc.path);
                  (prefix != "" && svc.healthPath == prefix) || prefix + "/" <= svc.healthPath)
  {
    NamesDiffer(svc.name);
    OrdinaryRow(svc, config);
    assert "" + "/" == "/";
  }

  /** A service with a health router and rule texts of fewer than 999999 characters: on
      every listener of the health router, health requests go to it and to it alone. On
      any other listener they go where they would go without it. */
  lemma HealthRouterTakesItsPath(svc: Service, config: Config, req: Request, n: string)
    requires Printable(svc) && HasHealthRouter(svc) && Reaches(svc, req) && req.path == svc.healthPath
    requires |HostRuleText(svc.domains, svc.path)| + 1 < 1000000
    ensures Dispatches(AllRouters(svc, config), req, n) <==>
              if Listens(HealthRouter(svc, config).entrypoints, req.entrypoint) then n == HealthName(svc)
              else Dispatches(OrdinaryRouters(svc, config), req, n)
  {
    CarvedRows(svc, config, req, n);
    OrdinaryRow(svc, config);
    if Listens(HealthRouter(svc, config).entrypoints, req.entrypoint) {
      HighestTakesAll(OrdinaryRouters(svc, config), HealthRouter(svc, config), req, HealthName(svc), n);
    }
  }

  lemma HighestTakesAll(rs: map<string, Router>, added: Router, req: Request, h: string, n: string)
    requires h !in rs && Hears(added, req)
    requires forall k :: k in rs ==> Rank(rs[k]) < Rank(added)
    ensures Dispatches(rs[h := added], req, n) <==> n == h
  {
    var all := rs[h := added];
    assert h in all && all[h] == added;
    assert forall k :: k in rs ==> all[k] == rs[k];
  }
}
