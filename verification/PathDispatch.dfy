/** Services that share the main container's domains by path: the rule that keeps their
    paths apart, and which service each request of those domains reaches. */
module PathDispatch {
  import opened Options
  import opened RuleText
  import opened Routers
  import opened RouterLabels
  import opened Dispatch

  // ------------------------------------------------------------ paths of one project

  /** A `services` entry: its name and its `path`, if that is a string. */
  datatype Entry = Entry(name: string, path: Option<string>)

  datatype Violation = Root(service: string) | Twin(service: string, path: string, other: string)

  predicate Routed(e: Entry) {
    e.path.Some? && e.path.value != "" && e.path.value[0] == '/'
  }

  function Key(e: Entry): string
    requires Routed(e)
  {
    RStripSlash(e.path.value)
  }

  predicate Has(e: Entry, key: string) {
    Routed(e) && Key(e) == key
  }

  /** The first of `n` entries that has the key, or `n`. */
  function First(entries: seq<Entry>, n: nat, key: string): (f: nat)
    requires n <= |entries|
    ensures f <= n && (f < n ==> Has(entries[f], key))
    ensures forall k | 0 <= k < f :: !Has(entries[k], key)
  {
    if n == 0 then 0
    else
      var f := First(entries, n - 1, key);
      if f < n - 1 || Has(entries[n - 1], key) then f else n
  }

  /** What is wrong with entry `i`, given the entries before it. */
  function Verdict(entries: seq<Entry>, i: nat): Option<Violation>
    requires i < |entries|
  {
    var e := entries[i];
    if !Routed(e) then None
    else if Key(e) == "" then Some(Root(e.name))
    else
      var f := First(entries, i, Key(e));
      if f < i then Some(Twin(e.name, e.path.value, entries[f].name)) else None
  }

  function Verdicts(entries: seq<Entry>, n: nat): seq<Violation>
    requires n <= |entries|
  {
    if n == 0 then []
    else Verdicts(entries, n - 1) +
         (if Verdict(entries, n - 1).Some? then [Verdict(entries, n - 1).value] else [])
  }

  /** No path is the whole domain, and no two paths are one route. */
  predicate PathsOk(entries: seq<Entry>) {
    && (forall i | 0 <= i < |entries| :: Routed(entries[i]) ==> Key(entries[i]) != "")
    && (forall i, j | 0 <= j < i < |entries| ::
          Routed(entries[i]) && Routed(entries[j]) ==> Key(entries[i]) != Key(entries[j]))
  }

  /** No entry before `i` has the key of entry `i`, and that key is not empty. */
  predicate ApartAt(entries: seq<Entry>, i: nat)
    requires i < |entries|
  {
    Routed(entries[i]) ==> Key(entries[i]) != "" && forall j | 0 <= j < i :: !Has(entries[j], Key(entries[i]))
  }

  lemma VerdictIff(entries: seq<Entry>, i: nat)
    requires i < |entries|
    ensures Verdict(entries, i) == None <==> ApartAt(entries, i)
  {
  }

  /** What a violation says: the entry, its path, and the first entry before it that has the
      same route. A path of slashes only is the whole domain. */
  lemma VerdictSays(entries: seq<Entry>, i: nat)
    requires i < |entries|
    ensures var e := entries[i];
            match Verdict(entries, i)
            case None => ApartAt(entries, i)
            case Some(Root(s)) => s == e.name && Routed(e) && forall c :: c in e.path.value ==> c == '/'
            case Some(Twin(s, p, other)) =>
              && s == e.name && e.path == Some(p) && Routed(e) && RStripSlash(p) != ""
              && exists f :: 0 <= f < i && Has(entries[f], RStripSlash(p)) && other == entries[f].name &&
                   forall k | 0 <= k < f :: !Has(entries[k], RStripSlash(p))
  {
    VerdictIff(entries, i);
  }

  lemma {:induction false} NoVerdictsIffApart(entries: seq<Entry>, n: nat)
    requires n <= |entries|
    ensures Verdicts(entries, n) == [] <==> forall i | 0 <= i < n :: ApartAt(entries, i)
  {
    if n > 0 {
      NoVerdictsIffApart(entries, n - 1);
      VerdictIff(entries, n - 1);
    }
  }

  lemma ApartIffOk(entries: seq<Entry>)
    ensures PathsOk(entries) <==> forall i | 0 <= i < |entries| :: ApartAt(entries, i)
  {
    if PathsOk(entries) {
      forall i, j | 0 <= j < i < |entries| && Routed(entries[i]) ensures !Has(entries[j], Key(entries[i])) {}
    } else if i, j :| 0 <= j < i < |entries| && Routed(entries[i]) && Has(entries[j], Key(entries[i])) {
      assert !ApartAt(entries, i) by { assert Has(entries[j], Key(entries[i])); }
    } else {
      var i :| 0 <= i < |entries| && Routed(entries[i]) && Key(entries[i]) == "";
      assert !ApartAt(entries, i);
    }
  }

  lemma FirstGrows(entries: seq<Entry>, n: nat, key: string)
    requires n < |entries|
    ensures First(entries, n, key) < n ==> First(entries, n + 1, key) == First(entries, n, key)
    ensures First(entries, n + 1, key) <= n <==> First(entries, n, key) < n || Has(entries[n], key)
  {
  }

  /** One violation for every entry that is the whole domain or the same route as an
      earlier one, in order; none exactly when the paths are apart. */
  method PathRules(entries: seq<Entry>) returns (violations: seq<Violation>)
    ensures violations == Verdicts(entries, |entries|)
    ensures violations == [] <==> PathsOk(entries)
  {
    violations := [];
    var seen: map<string, string> := map[];
    for n := 0 to |entries|
      invariant violations == Verdicts(entries, n)
      invariant forall key :: key in seen <==> key != "" && First(entries, n, key) < n
      invariant forall key | key in seen :: seen[key] == entries[First(entries, n, key)].name
    {
      forall key: string
        ensures First(entries, n, key) < n ==> First(entries, n + 1, key) == First(entries, n, key)
        ensures First(entries, n + 1, key) <= n <==> First(entries, n, key) < n || Has(entries[n], key)
      {
        FirstGrows(entries, n, key);
      }
      var entry := entries[n];
      if !Routed(entry) {
        continue;
      }
      var key := RStripSlash(entry.path.value);
      if key == "" {
        violations := violations + [Root(entry.name)];
      } else if key in seen {
        violations := violations + [Twin(entry.name, entry.path.value, seen[key])];
      } else {
        seen := seen[key := entry.name];
      }
    }
    NoVerdictsIffApart(entries, |entries|);
    ApartIffOk(entries);
  }

  // --------------------------------------------------------- one fleet of routers

  /** Router `n` of service `i` takes the request, among the routers of all services. */
  ghost predicate Takes(services: seq<Service>, config: Config, req: Request, i: nat, n: string)
    requires forall s | s in services :: s.domains != []
  {
    && i < |services| && n in AllRouters(services[i], config)
    && Hears(AllRouters(services[i], config)[n], req)
    && forall j: nat, k: string | j < |services| && k in AllRouters(services[j], config) ::
         Hears(AllRouters(services[j], config)[k], req) ==>
           Rank(AllRouters(services[j], config)[k]) <= Rank(AllRouters(services[i], config)[n])
  }

  function Prefix(svc: Service): string {
    RStripSlash(svc.path)
  }

  /** Service 0 is the main container; the others are its path services, on its domains. */
  predicate SharedDomains(services: seq<Service>) {
    && services != [] && services[0].path == ""
    && (forall s | s in services :: Printable(s) && s.domains == services[0].domains)
    && (forall i | 0 < i < |services| :: services[i].path != "" && services[i].path[0] == '/')
    && PathsOk(Entries(services))
  }

  function Entries(services: seq<Service>): seq<Entry>
    requires services != []
  {
    seq(|services| - 1, i requires 0 <= i < |services| - 1 => Entry(services[i + 1].name, Some(services[i + 1].path)))
  }

  /** Health carve-outs aside. */
  predicate NoCarveOut(services: seq<Service>, p: string) {
    forall s | s in services :: HasHealthRouter(s) ==> p != s.healthPath
  }

  /** Has the service an ordinary router for the request on the listener it arrives on? */
  predicate OpenAt(svc: Service, config: Config, req: Request) {
    && Reaches(svc, req)
    && (Listens(EntrypointsFor(config, svc.access.Public?), req.entrypoint) || TakesSplit(svc, config, req))
  }

  predicate TakesSplit(svc: Service, config: Config, req: Request) {
    && SplitRoutes(svc) != [] && RoutesCover(req.path, SplitRoutes(svc), svc.access.Public?)
    && Listens(EntrypointsFor(config, !svc.access.Public?), req.entrypoint)
  }

  function Reaching(services: seq<Service>, req: Request): set<nat> {
    set i: nat | i < |services| && Reaches(services[i], req)
  }

  function Opening(services: seq<Service>, config: Config, req: Request): set<nat> {
    set i: nat | i < |services| && OpenAt(services[i], config, req)
  }

  /** The service with the longest path among the candidates. */
  predicate IsLongest(services: seq<Service>, candidates: set<nat>, i: nat)
    requires forall j | j in candidates :: j < |services|
  {
    i in candidates && forall j | j in candidates && j != i :: |Prefix(services[j])| < |Prefix(services[i])|
  }

  /** The longest path that covers the request on a segment boundary; main has none. */
  predicate Owns(services: seq<Service>, req: Request, i: nat) {
    IsLongest(services, Reaching(services, req), i)
  }

  /** The same among the services that listen where the request arrives. */
  predicate OwnsOn(services: seq<Service>, config: Config, req: Request, i: nat) {
    IsLongest(services, Opening(services, config, req), i)
  }

  // ---------------------------------------------------------------- rule lengths

  /** Rule length grows by two for every character of the path. */
  lemma RuleLength(domains: seq<string>, path: string)
    requires domains != [] && RStripSlash(path) != ""
    ensures |HostRuleText(domains, path)| ==
            |JoinOr(HostTexts(domains))| + (if |domains| > 1 then 2 else 0) + 33 + 2 * |RStripSlash(path)|
  {
    assert |PathMatcherText(path)| == 29 + 2 * |RStripSlash(path)|;
  }

  lemma PrefixOf(services: seq<Service>, i: nat)
    requires SharedDomains(services) && i < |services|
    ensures services[i] in services && Printable(services[i]) && services[i].domains == services[0].domains
    ensures if i == 0 then Prefix(services[i]) == "" else Prefix(services[i]) != ""
    ensures 0 < i ==> services[i].path != ""
  {
    if i > 0 {
      assert Entries(services)[i - 1] == Entry(services[i].name, Some(services[i].path));
    }
  }

  /** A longer path outranks every router of a shorter one, split pairs included, and
      every path outranks every router of the main container, whatever its shape. */
  lemma LongerPathOutranks(services: seq<Service>, i: nat, j: nat)
    requires SharedDomains(services) && i < |services| && j < |services|
    requires |Prefix(services[j])| < |Prefix(services[i])|
    ensures CatchAllRank(services[j]) < CatchAllRank(services[i])
    ensures PathMatchedRank(services[j]) < CatchAllRank(services[i])
  {
    PrefixOf(services, i);
    PrefixOf(services, j);
    RuleLength(services[i].domains, services[i].path);
    if j > 0 {
      RuleLength(services[j].domains, services[j].path);
    }
  }

  lemma PrefixesDiffer(services: seq<Service>, i: nat, j: nat)
    requires SharedDomains(services) && i < |services| && j < |services| && i != j
    ensures Prefix(services[i]) != Prefix(services[j])
  {
    PrefixOf(services, i);
    PrefixOf(services, j);
    if i > 0 && j > 0 {
      var es := Entries(services);
      assert es[i - 1] == Entry(services[i].name, Some(services[i].path));
      assert es[j - 1] == Entry(services[j].name, Some(services[j].path));
      assert Routed(es[i - 1]) && Routed(es[j - 1]);
    }
  }

  lemma PrefixStarts(services: seq<Service>, req: Request, i: nat)
    requires SharedDomains(services) && i < |services| && Reaches(services[i], req)
    ensures Prefix(services[i]) <= req.path
  {
    PrefixOf(services, i);
    if i > 0 {
      CoverStarts(services[i].path, req.path);
    }
  }

  /** Two distinct paths that cover one request have different lengths. */
  lemma CoveringPathsDiffer(services: seq<Service>, req: Request, i: nat, j: nat)
    requires SharedDomains(services) && i < |services| && j < |services| && i != j
    requires Reaches(services[i], req) && Reaches(services[j], req)
    ensures |Prefix(services[i])| != |Prefix(services[j])|
  {
    PrefixesDiffer(services, i, j);
    PrefixStarts(services, req, i);
    PrefixStarts(services, req, j);
    StartsDiffer(Prefix(services[i]), Prefix(services[j]), req.path);
  }

  lemma StartsDiffer(a: string, b: string, p: string)
    requires a <= p && b <= p && a != b
    ensures |a| != |b|
  {
    assert a == p[..|a|] && b == p[..|b|];
  }

  lemma CoverStarts(path: string, p: string)
    requires UnderPath(path, p) && RStripSlash(path) != ""
    ensures RStripSlash(path) <= p
  {
    var prefix := RStripSlash(path);
    if p != prefix {
      assert prefix == p[..|prefix|] by { assert (prefix + "/")[..|prefix|] == prefix; }
    }
  }

  // ------------------------------------------------------- routers of one service

  /** The best ordinary router of a service for a request that it is open to. */
  function Top(svc: Service, config: Config, req: Request): string {
    if TakesSplit(svc, config, req) then PathMatched(svc) else CatchAll(svc)
  }

  predicate IsTop(svc: Service, config: Config, rs: map<string, Router>, req: Request, top: string)
    requires svc.domains != []
  {
    && top in rs && Rank(rs[top]) in {CatchAllRank(svc), PathMatchedRank(svc)}
    && (OpenAt(svc, config, req) ==> Hears(rs[top], req))
  }

  predicate IsBelow(svc: Service, config: Config, rs: map<string, Router>, req: Request, top: string, k: string)
    requires svc.domains != [] && top in rs
  {
    k in rs && Hears(rs[k], req) ==>
      OpenAt(svc, config, req) && Rank(rs[k]) in {CatchAllRank(svc), PathMatchedRank(svc)} &&
          Rank(rs[k]) <= Rank(rs[top])
  }

  /** The ordinary routers of a service: the rank is one of the service's two, and the
      top one beats the others. */
  lemma OrdinaryTop(svc: Service, config: Config, req: Request, k: string)
    requires Printable(svc)
    ensures IsTop(svc, config, OrdinaryRouters(svc, config), req, Top(svc, config, req))
    ensures IsBelow(svc, config, OrdinaryRouters(svc, config), req, Top(svc, config, req), k)
  {
    NamesDiffer(svc.name);
    OrdinaryRow(svc, config);
    OrdinaryMatch(svc, config, req, CatchAll(svc));
    OrdinaryMatch(svc, config, req, PathMatched(svc));
    OrdinaryMatch(svc, config, req, k);
    TopsRankHigher(svc);
  }

  /** Away from the health path the health router changes none of that. */
  lemma RoutersOfService(svc: Service, config: Config, req: Request, k: string)
    requires Printable(svc) && (HasHealthRouter(svc) ==> req.path != svc.healthPath)
    ensures IsTop(svc, config, AllRouters(svc, config), req, Top(svc, config, req))
    ensures IsBelow(svc, config, AllRouters(svc, config), req, Top(svc, config, req), k)
  {
    var h := HealthName(svc);
    OrdinaryTop(svc, config, req, k);
    if HasHealthRouter(svc) {
      NamesDiffer(svc.name);
      OrdinaryMatch(svc, config, req, h);
      HealthRuleMeans(svc.domains, svc.path, svc.healthPath, req);
      WithAdded(OrdinaryRouters(svc, config), h, HealthRouter(svc, config));
    }
  }

  // ------------------------------------------------------------------ the theorem

  /** Longest-prefix dispatch, listener by listener: health carve-outs aside, the services
      whose routers take a request are exactly those with the longest path covering it on
      a segment boundary among the services that listen where it arrives; the main
      container has the shortest. */
  lemma LongestPrefixDispatch(services: seq<Service>, config: Config, req: Request, i: nat)
    requires SharedDomains(services) && NoCarveOut(services, req.path)
    ensures (exists n: string :: Takes(services, config, req, i, n)) <==> OwnsOn(services, config, req, i)
  {
    if OwnsOn(services, config, req, i) {
      OwnerTakes(services, config, req, i);
    }
    forall n: string ensures Takes(services, config, req, i, n) ==> OwnsOn(services, config, req, i) {
      TakerOwns(services, config, req, i, n);
    }
  }

  /** So the owner of a path takes a request for it exactly on the listeners where it is
      open to the request. Elsewhere a service with a shorter path takes it, if any. */
  lemma OwnerTakesWhereOpen(services: seq<Service>, config: Config, req: Request, i: nat)
    requires SharedDomains(services) && NoCarveOut(services, req.path) && Owns(services, req, i)
    ensures (exists n: string :: Takes(services, config, req, i, n)) <==> OpenAt(services[i], config, req)
  {
    LongestPrefixDispatch(services, config, req, i);
  }

  /** For example a public path service beside a vpn main container: on a listener that
      only the vpn routers have, main takes every request, those for the path too. */
  lemma MainTakesTheTailnet(services: seq<Service>, config: Config, req: Request)
    requires SharedDomains(services) && NoCarveOut(services, req.path) && |services| == 2
    requires services[0].access.Vpn? && services[1].access.Public? && services[1].vpnRoutes == []
    requires Listens(config.vpnEntrypoints, req.entrypoint) && !Listens(config.publicEntrypoints, req.entrypoint)
    requires Reaches(services[1], req)
    ensures Owns(services, req, 1)
    ensures exists n: string :: Takes(services, config, req, 0, n)
    ensures !exists n: string :: Takes(services, config, req, 1, n)
  {
    assert services[0] in services && services[1] in services;
    PrefixOf(services, 0);
    PrefixOf(services, 1);
    assert Reaching(services, req) == {0, 1} && Opening(services, config, req) == {0};
    LongestPrefixDispatch(services, config, req, 0);
    LongestPrefixDispatch(services, config, req, 1);
  }

  lemma OwnerTakes(services: seq<Service>, config: Config, req: Request, i: nat)
    requires SharedDomains(services) && NoCarveOut(services, req.path) && OwnsOn(services, config, req, i)
    ensures Takes(services, config, req, i, Top(services[i], config, req))
  {
    var n := Top(services[i], config, req);
    assert services[i] in services;
    RoutersOfService(services[i], config, req, n);
    forall j: nat, k: string
      | j < |services| && k in AllRouters(services[j], config) && Hears(AllRouters(services[j], config)[k], req)
      ensures Rank(AllRouters(services[j], config)[k]) <= Rank(AllRouters(services[i], config)[n])
    {
      assert services[j] in services;
      RoutersOfService(services[j], config, req, k);
      if j == i {
        RoutersOfService(services[i], config, req, k);
      } else {
        assert j in Opening(services, config, req);
        LongerPathOutranks(services, i, j);
        AboveCatchAll(services[i]);
      }
    }
  }

  lemma AboveCatchAll(svc: Service)
    requires svc.domains != [] && (svc.path == "" || RStripSlash(svc.path) != "")
    ensures svc.path != "" ==> CatchAllRank(svc) < PathMatchedRank(svc)
  {
  }

  lemma TakerOwns(services: seq<Service>, config: Config, req: Request, i: nat, n: string)
    requires SharedDomains(services) && NoCarveOut(services, req.path)
    ensures Takes(services, config, req, i, n) ==> OwnsOn(services, config, req, i)
  {
    if Takes(services, config, req, i, n) {
      assert services[i] in services;
      RoutersOfService(services[i], config, req, n);
      forall j | j in Opening(services, config, req) && j != i
        ensures |Prefix(services[j])| < |Prefix(services[i])|
      {
        OthersAreShorter(services, config, req, i, n, j);
      }
    }
  }

  lemma OthersAreShorter(services: seq<Service>, config: Config, req: Request, i: nat, n: string, j: nat)
    requires SharedDomains(services) && NoCarveOut(services, req.path)
    requires i < |services| && j < |services| && j != i && OpenAt(services[j], config, req)
    ensures Takes(services, config, req, i, n) ==> |Prefix(services[j])| < |Prefix(services[i])|
  {
    if Takes(services, config, req, i, n) {
      assert services[i] in services && services[j] in services;
      RoutersOfService(services[i], config, req, n);
      RoutersOfService(services[j], config, req, Top(services[j], config, req));
      CoveringPathsDiffer(services, req, i, j);
      PrefixOf(services, j);
      AboveCatchAll(services[j]);
      if |Prefix(services[j])| > |Prefix(services[i])| {
        LongerPathOutranks(services, j, i);
        assert false;
      }
    }
  }

  /** Every request of the domains has one owner, and no other request has any. On each
      listener, every request that some service is open to has one owner there. */
  lemma EveryRequestHasOneOwner(services: seq<Service>, config: Config, req: Request)
    requires SharedDomains(services)
    ensures req.host in services[0].domains <==> exists i: nat :: Owns(services, req, i)
    ensures (exists i: nat :: i < |services| && OpenAt(services[i], config, req)) <==>
              exists i: nat :: OwnsOn(services, config, req, i)
    ensures forall i: nat, j: nat :: Owns(services, req, i) && Owns(services, req, j) ==> i == j
    ensures forall i: nat, j: nat :: OwnsOn(services, config, req, i) && OwnsOn(services, config, req, j) ==> i == j
  {
    OneLongest(services, req, Reaching(services, req));
    OneLongest(services, req, Opening(services, config, req));
    WhoReaches(services, req);
    assert forall i: nat :: Owns(services, req, i) <==> IsLongest(services, Reaching(services, req), i);
    assert forall i: nat :: OwnsOn(services, config, req, i) <==>
        IsLongest(services, Opening(services, config, req), i);
    if i: nat :| i < |services| && OpenAt(services[i], config, req) {
      assert i in Opening(services, config, req);
    } else {
      assert Opening(services, config, req) == {};
    }
  }

  lemma WhoReaches(services: seq<Service>, req: Request)
    requires SharedDomains(services)
    ensures req.host in services[0].domains <==> Reaching(services, req) != {}
  {
    if req.host in services[0].domains {
      assert 0 in Reaching(services, req);
    }
    forall i: nat | i in Reaching(services, req) ensures req.host in services[0].domains {
      assert services[i] in services;
    }
  }

  lemma OneLongest(services: seq<Service>, req: Request, candidates: set<nat>)
    requires SharedDomains(services) && candidates <= Reaching(services, req)
    ensures candidates != {} <==> exists i: nat :: IsLongest(services, candidates, i)
    ensures forall i: nat, j: nat :: IsLongest(services, candidates, i) && IsLongest(services, candidates, j) ==> i == j
  {
    if candidates != {} {
      var i := Longest(services, req, candidates);
    }
  }

  /** The longest covering path among some services that the request reaches. */
  lemma {:induction false} Longest(services: seq<Service>, req: Request, candidates: set<nat>) returns (i: nat)
    requires SharedDomains(services) && candidates != {} && candidates <= Reaching(services, req)
    ensures IsLongest(services, candidates, i)
    decreases |candidates|
  {
    var j :| j in candidates;
    var rest := candidates - {j};
    assert forall k :: k in candidates <==> k == j || k in rest;
    i := j;
    if rest != {} {
      i := Longest(services, req, rest);
      CoveringPathsDiffer(services, req, i, j);
      if |Prefix(services[i])| < |Prefix(services[j])| {
        i := j;
      }
    }
  }
}
