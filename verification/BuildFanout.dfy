/** One push builds the whole project: which services the webhook triggers for a push, and
    which it leaves to the alias fan-out of the build it triggers. */
module BuildFanout {
  import opened Options
  import opened Text

  /** A branch is `main` where the key is missing. `rest` stands for what else makes an image:
      Dockerfile, context and arguments. Empty texts are missing keys. */
  datatype Build = Build(
    repo: string, branch: string, tomlPath: string, project: string,
    sharedFrom: bool, strategy: string, rest: string)

  datatype Service = Service(build: Option<Build>, regions: seq<string>)

  /** Services in their order of definition. */
  datatype Fleet = Fleet(services: map<string, Service>, order: seq<string>)

  ghost predicate Valid(f: Fleet) {
    && (forall n :: n in f.order <==> n in f.services)
    && (forall i, j | 0 <= i < j < |f.order| :: f.order[i] != f.order[j])
  }

  /** The two digests of a build: the clone it uses, and the image it makes. */
  datatype Digests = Digests(slug: (string, string) -> string, image: Build -> string)

  datatype Project = Toml(path: string) | InFleet(name: string)

  // -------------------------------------------------------------------- build dedup

  datatype Role = Role(primary: bool, primarySvc: string, groupSize: nat)

  function BuildOf(f: Fleet, n: string): Build {
    if n in f.services && f.services[n].build.Some? then f.services[n].build.value
    else Build("", "", "", "", false, "", "")
  }

  function Identity(f: Fleet, d: Digests, n: string): string {
    d.image(BuildOf(f, n))
  }

  /** The names of one image, in order. */
  function SameImage(f: Fleet, d: Digests, names: seq<string>, id: string): (r: seq<string>)
    ensures forall n :: n in r <==> n in names && Identity(f, d, n) == id
  {
    if names == [] then []
    else
      var front, last := SameImage(f, d, names[..|names| - 1], id), names[|names| - 1];
      assert names == names[..|names| - 1] + [last];
      if Identity(f, d, last) == id then front + [last] else front
  }

  function Owners(f: Fleet, group: seq<string>): (r: seq<string>)
    ensures forall n :: n in r <==> n in group && !BuildOf(f, n).sharedFrom
  {
    if group == [] then []
    else (if BuildOf(f, group[0]).sharedFrom then [] else [group[0]]) + Owners(f, group[1..])
  }

  /** The first member that builds its own image, else the first member. */
  function PrimaryOf(f: Fleet, group: seq<string>): (r: string)
    requires group != []
    ensures r in group
    ensures BuildOf(f, r).sharedFrom ==> forall n :: n in group ==> BuildOf(f, n).sharedFrom
  {
    var owners := Owners(f, group);
    assert owners == [] ==> forall n :: n in group ==> n !in owners;
    if owners == [] then group[0] else assert owners[0] in owners; owners[0]
  }

  function RoleOf(f: Fleet, d: Digests, names: seq<string>, n: string): Role
    requires n in names
  {
    var group := SameImage(f, d, names, Identity(f, d, n));
    assert n in group;
    Role(n == PrimaryOf(f, group), PrimaryOf(f, group), |group|)
  }

  /** Member `k` is the first with a build of its own; or all share theirs, and it is the first. */
  predicate FirstOwner(f: Fleet, group: seq<string>, k: nat)
    requires k < |group|
  {
    if BuildOf(f, group[k]).sharedFrom then k == 0 && forall n :: n in group ==> BuildOf(f, n).sharedFrom
    else forall j | 0 <= j < k :: BuildOf(f, group[j]).sharedFrom
  }

  lemma {:induction false} PrimaryIs(f: Fleet, group: seq<string>) returns (k: nat)
    requires group != []
    ensures k < |group| && group[k] == PrimaryOf(f, group) && FirstOwner(f, group, k)
  {
    k := 0;
    var rest := group[1..];
    if BuildOf(f, group[0]).sharedFrom && Owners(f, rest) != [] {
      k := PrimaryIs(f, rest);
      forall j | 0 <= j < k + 1 ensures BuildOf(f, group[j]).sharedFrom {
        if j > 0 { assert group[j] == rest[j - 1]; }
      }
      k := k + 1;
    } else if BuildOf(f, group[0]).sharedFrom {
      assert group == [group[0]] + rest;
    }
  }

  /** The role of a service in its image: the primary is the first member that has a build of
      its own, or the first of all when every one shares its build. */
  lemma RoleMeans(f: Fleet, d: Digests, names: seq<string>, n: string)
    requires n in names
    ensures var r, group := RoleOf(f, d, names, n), SameImage(f, d, names, Identity(f, d, n));
            && (r.primary <==> n == r.primarySvc) && r.groupSize == |group|
            && exists k | 0 <= k < |group| :: group[k] == r.primarySvc && FirstOwner(f, group, k)
  {
    var k := PrimaryIs(f, SameImage(f, d, names, Identity(f, d, n)));
  }

  lemma SameImageGrows(f: Fleet, d: Digests, names: seq<string>, i: nat, id: string)
    requires i < |names|
    ensures SameImage(f, d, names[..i + 1], id) ==
            SameImage(f, d, names[..i], id) + if Identity(f, d, names[i]) == id then [names[i]] else []
  {
    assert names[..i + 1][..i] == names[..i];
  }

  method GroupsByImage(f: Fleet, d: Digests, names: seq<string>) returns (groups: map<string, seq<string>>)
    ensures forall id :: id in groups <==> SameImage(f, d, names, id) != []
    ensures forall id | id in groups :: groups[id] == SameImage(f, d, names, id)
  {
    groups := map[];
    for i := 0 to |names|
      invariant forall id :: id in groups <==> SameImage(f, d, names[..i], id) != []
      invariant forall id | id in groups :: groups[id] == SameImage(f, d, names[..i], id)
    {
      var id := Identity(f, d, names[i]);
      forall other: string
        ensures SameImage(f, d, names[..i + 1], other) ==
                SameImage(f, d, names[..i], other) + if id == other then [names[i]] else []
      {
        SameImageGrows(f, d, names, i, other);
      }
      if id !in groups {
        groups := groups[id := [names[i]]];
      } else {
        groups := groups[id := groups[id] + [names[i]]];
      }
    }
    assert names[..|names|] == names;
  }

  method DedupMap(f: Fleet, d: Digests, names: seq<string>) returns (roles: map<string, Role>)
    ensures forall n :: n in roles <==> n in names
    ensures forall n | n in names :: roles[n] == RoleOf(f, d, names, n)
  {
    var groups := GroupsByImage(f, d, names);
    roles := map[];
    var ids := groups.Keys;
    forall n: string ensures RoleAt(f, d, names, ids, roles, n) {}
    while ids != {}
      invariant ids <= groups.Keys
      invariant forall n: string :: RoleAt(f, d, names, ids, roles, n)
      decreases |ids|
    {
      var id :| id in ids;
      var group := groups[id];
      var primary := PrimaryOf(f, group);
      var more := map n | n in group :: Role(n == primary, primary, |group|);
      forall n: string ensures RoleAt(f, d, names, ids - {id}, roles + more, n) {
        RoleAtGrows(f, d, names, ids, roles, id, more, n);
      }
      ids := ids - {id};
      roles := roles + more;
    }
    forall n: string
      ensures n in roles <==> n in names
      ensures n in names ==> roles[n] == RoleOf(f, d, names, n)
    {
      assert RoleAt(f, d, names, {}, roles, n);
    }
  }

  /** The second loop, seen from one name: it has its role once its image is done. */
  predicate RoleAt(f: Fleet, d: Digests, names: seq<string>, ids: set<string>, roles: map<string, Role>, n: string) {
    && (n in roles <==> n in names && Identity(f, d, n) !in ids)
    && (n in roles ==> roles[n] == RoleOf(f, d, names, n))
  }

  lemma RoleAtGrows(f: Fleet, d: Digests, names: seq<string>, ids: set<string>, roles: map<string, Role>,
                                       id: string, more: map<string, Role>, n: string)
    requires RoleAt(f, d, names, ids, roles, n) && SameImage(f, d, names, id) != []
    requires var group := SameImage(f, d, names, id);
             more == map m | m in group :: Role(m == PrimaryOf(f, group), PrimaryOf(f, group), |group|)
    ensures RoleAt(f, d, names, ids - {id}, roles + more, n)
  {
    if n in SameImage(f, d, names, id) {
      RoleInGroup(f, d, names, n, id);
    }
  }

  lemma RoleInGroup(f: Fleet, d: Digests, names: seq<string>, n: string, id: string)
    requires n in SameImage(f, d, names, id)
    ensures n in names && Identity(f, d, n) == id
    ensures var group := SameImage(f, d, names, id);
            RoleOf(f, d, names, n) == Role(n == PrimaryOf(f, group), PrimaryOf(f, group), |group|)
  {
  }

  // -------------------------------------------------------------------- local aliases

  function Strategy(b: Build, fallback: string): string {
    var raw := if b.strategy != "" then b.strategy else if fallback != "" then fallback else "local";
    if raw == "push" then "remote" else raw
  }

  predicate IsLocal(f: Fleet, fallback: string, n: string) {
    n in f.services && f.services[n].build.Some? && Strategy(f.services[n].build.value, fallback) == "local"
  }

  /** A build is local when it says so, or says nothing and the fleet says local or nothing. */
  lemma LocalMeans(f: Fleet, fallback: string, n: string)
    ensures IsLocal(f, fallback, n) <==>
              && n in f.services && f.services[n].build.Some?
              && var said := f.services[n].build.value.strategy;
                 said == "local" || (said == "" && (fallback == "local" || fallback == ""))
  {
    assert "push" != "local" && "remote" != "local" by { assert |"push"| == 4 && |"remote"| == 6; }
  }

  function Locals(f: Fleet, fallback: string, order: seq<string>): (r: seq<string>)
    ensures forall n :: n in r <==> n in order && IsLocal(f, fallback, n)
  {
    if order == [] then []
    else (if IsLocal(f, fallback, order[0]) then [order[0]] else []) + Locals(f, fallback, order[1..])
  }

  /** The primary whose build retags this service's image, if there is one. */
  function AliasOf(f: Fleet, d: Digests, fallback: string, n: string): Option<string> {
    var locals := Locals(f, fallback, f.order);
    if n !in locals || RoleOf(f, d, locals, n).primary then None else Some(RoleOf(f, d, locals, n).primarySvc)
  }

  method LocalAliases(f: Fleet, d: Digests, fallback: string) returns (aliases: map<string, string>)
    ensures forall n :: n in aliases <==> AliasOf(f, d, fallback, n).Some?
    ensures forall n | n in aliases :: AliasOf(f, d, fallback, n) == Some(aliases[n])
  {
    var locals := Locals(f, fallback, f.order);
    var roles := DedupMap(f, d, locals);
    aliases := map n | n in roles && !roles[n].primary :: roles[n].primarySvc;
    forall n: string
      ensures n in aliases <==> AliasOf(f, d, fallback, n).Some?
      ensures n in aliases ==> AliasOf(f, d, fallback, n) == Some(aliases[n])
    {
      AliasAt(f, d, fallback, locals, n);
    }
  }

  lemma AliasAt(f: Fleet, d: Digests, fallback: string, locals: seq<string>, n: string)
    requires locals == Locals(f, fallback, f.order)
    ensures AliasOf(f, d, fallback, n) ==
            if n in locals && !RoleOf(f, d, locals, n).primary then Some(RoleOf(f, d, locals, n).primarySvc) else None
  {
  }

  /** A primary builds its own image: it is no alias. */
  lemma PrimariesAreNoAliases(f: Fleet, d: Digests, fallback: string, n: string, p: string)
    requires AliasOf(f, d, fallback, n) == Some(p)
    ensures p != n && AliasOf(f, d, fallback, p) == None
  {
    var locals := Locals(f, fallback, f.order);
    var group := SameImage(f, d, locals, Identity(f, d, n));
    assert p in group && Identity(f, d, p) == Identity(f, d, n);
  }

  // ------------------------------------------------------------------------- siblings

  function ProjectOf(b: Build): Option<Project> {
    if b.tomlPath != "" then Some(Toml(b.tomlPath))
    else if b.project != "" then Some(InFleet(b.project))
    else None
  }

  function Slug(d: Digests, b: Build): string {
    d.slug(b.repo, b.branch)
  }

  /** May a push be posted to this service for a project? */
  predicate Posted(f: Fleet, n: string) {
    n in f.services && f.services[n].build.Some? && ProjectOf(f.services[n].build.value).Some? &&
        f.services[n].build.value.repo != ""
  }

  /** `n` is another service of the project and of the clone of `svc`, with its own build. */
  predicate IsMember(f: Fleet, d: Digests, svc: string, n: string)
    requires Posted(f, svc)
  {
    var own := f.services[svc].build.value;
    && n != svc && n in f.services && f.services[n].build.Some?
    && var b := f.services[n].build.value;
       !b.sharedFrom && ProjectOf(b) == ProjectOf(own) && b.repo != "" && Slug(d, b) == Slug(d, own)
  }

  /** Two builds are of one project when both name one bay.toml, or neither does and both name
      one project of the fleet. */
  predicate SameProject(a: Build, b: Build) {
    if a.tomlPath != "" then b.tomlPath == a.tomlPath
    else b.tomlPath == "" && a.project != "" && b.project == a.project
  }

  /** A push is for a project when the build names a bay.toml or a project, and a
      repository; its members are the other services of that project and that clone that
      have a build of their own. */
  lemma MemberMeans(f: Fleet, d: Digests, svc: string, n: string)
    requires svc in f.services && f.services[svc].build.Some?
    ensures var own := f.services[svc].build.value;
            && (Posted(f, svc) <==> own.repo != "" && (own.tomlPath != "" || own.project != ""))
            && (Posted(f, svc) ==>
                  (IsMember(f, d, svc, n) <==>
                     && n != svc && n in f.services && f.services[n].build.Some?
                     && var b := f.services[n].build.value;
                        && SameProject(own, b) && !b.sharedFrom && b.repo != ""
                        && d.slug(b.repo, b.branch) == d.slug(own.repo, own.branch)))
  {
  }

  /** The project group of a push: the posted service and the other members. */
  predicate InGroup(f: Fleet, d: Digests, svc: string, n: string)
    requires Posted(f, svc)
  {
    n == svc || IsMember(f, d, svc, n)
  }

  /** An alias of another member in the same regions: the primary's build reaches it. */
  predicate LeftToFanout(f: Fleet, d: Digests, fallback: string, svc: string, n: string)
    requires Posted(f, svc) && n in f.services
  {
    var p := AliasOf(f, d, fallback, n);
    && p.Some? && InGroup(f, d, svc, p.value) && p.value in f.services
    && f.services[n].regions == f.services[p.value].regions
  }

  /** The first loop: the other members, aliases included. */
  method OtherMembers(f: Fleet, d: Digests, svc: string) returns (names: set<string>)
    requires Valid(f) && Posted(f, svc)
    ensures forall n :: n in names <==> IsMember(f, d, svc, n)
  {
    var own := f.services[svc].build.value;
    names := {};
    for i := 0 to |f.order|
      invariant forall n :: n in names <==> n in f.order[..i] && IsMember(f, d, svc, n)
    {
      var name := f.order[i];
      assert name in f.services;
      assert forall n :: n in f.order[..i + 1] <==> n in f.order[..i] || n == name;
      if name == svc || f.services[name].build.None? {
        continue;
      }
      var build := f.services[name].build.value;
      if build.sharedFrom || ProjectOf(build) != ProjectOf(own) || build.repo == "" {
        continue;
      }
      if Slug(d, build) == Slug(d, own) {
        names := names + {name};
      }
    }
    assert f.order[..|f.order|] == f.order;
  }

  method PushSiblings(f: Fleet, d: Digests, fallback: string, svc: string) returns (siblings: set<string>)
    requires Valid(f)
    ensures !Posted(f, svc) ==> siblings == {}
    ensures Posted(f, svc) ==> forall n :: n in siblings <==>
              IsMember(f, d, svc, n) && !LeftToFanout(f, d, fallback, svc, n)
  {
    if svc !in f.services || f.services[svc].build.None? {
      return {};
    }
    var own := f.services[svc].build.value;
    if ProjectOf(own).None? || own.repo == "" {
      return {};
    }
    var names := OtherMembers(f, d, svc);
    var aliases := LocalAliases(f, d, fallback);
    siblings := Kept(f, names, aliases, names + {svc});
    forall n: string
      ensures n in siblings <==> IsMember(f, d, svc, n) && !LeftToFanout(f, d, fallback, svc, n)
    {
      if n in names {
        LeftIff(f, d, fallback, svc, n, aliases, names + {svc});
      }
    }
  }

  function Kept(f: Fleet, names: set<string>, aliases: map<string, string>, group: set<string>): set<string>
    requires names <= f.services.Keys && group <= f.services.Keys
  {
    set n | n in names &&
      !(n in aliases && aliases[n] in group && f.services[n].regions == f.services[aliases[n]].regions)
  }

  lemma LeftIff(f: Fleet, d: Digests, fallback: string, svc: string, n: string, aliases: map<string, string>,
                group: set<string>)
    requires Posted(f, svc) && n in f.services
    requires n in aliases <==> AliasOf(f, d, fallback, n).Some?
    requires n in aliases ==> AliasOf(f, d, fallback, n) == Some(aliases[n])
    requires forall m :: m in group <==> InGroup(f, d, svc, m)
    ensures LeftToFanout(f, d, fallback, svc, n) <==>
              n in aliases && aliases[n] in group && f.services[n].regions == f.services[aliases[n]].regions
  {
    assert n in aliases && aliases[n] in group ==> InGroup(f, d, svc, aliases[n]);
  }

  // ---------------------------------------------------------------------- the coverage

  /** The services that the webhook triggers for a push posted to `svc`. */
  predicate Triggered(f: Fleet, d: Digests, fallback: string, svc: string, n: string)
    requires Posted(f, svc)
  {
    n == svc || (IsMember(f, d, svc, n) && !LeftToFanout(f, d, fallback, svc, n))
  }

  /** The alias fan-out at the end of a triggered primary's build, on the primary's box. */
  predicate FannedOut(f: Fleet, d: Digests, fallback: string, svc: string, n: string)
    requires Posted(f, svc) && n in f.services
  {
    var p := AliasOf(f, d, fallback, n);
    && p.Some? && p.value in f.services && Triggered(f, d, fallback, svc, p.value)
    && f.services[n].regions == f.services[p.value].regions
  }

  /** One push reaches every member of its project: directly, or through a triggered
      primary in the same regions. */
  lemma PushReachesTheProject(f: Fleet, d: Digests, fallback: string, svc: string, n: string)
    requires Posted(f, svc) && InGroup(f, d, svc, n)
    ensures Triggered(f, d, fallback, svc, n) || FannedOut(f, d, fallback, svc, n)
  {
    var p := AliasOf(f, d, fallback, n);
    if p.Some? {
      PrimariesAreNoAliases(f, d, fallback, n, p.value);
    }
  }

  /** Every other member is reached once only. The posted service is reached twice exactly
      when it is itself an alias of a member in the same regions. */
  lemma ReachedTwiceIff(f: Fleet, d: Digests, fallback: string, svc: string, n: string)
    requires Posted(f, svc) && InGroup(f, d, svc, n)
    ensures Triggered(f, d, fallback, svc, n) && FannedOut(f, d, fallback, svc, n) <==>
              n == svc && LeftToFanout(f, d, fallback, svc, svc)
  {
    var p := AliasOf(f, d, fallback, n);
    if p.Some? {
      PrimariesAreNoAliases(f, d, fallback, n, p.value);
    }
  }

  // --------------------------------------------------------------- the same groups twice

  /** What `push_sibling_groups` groups by. */
  datatype Key = Key(repo: string, branch: string, which: Project)

  function KeyOf(f: Fleet, n: string): Option<Key> {
    if n !in f.services || f.services[n].build.None? then None
    else
      var b := f.services[n].build.value;
      if b.sharedFrom || b.repo == "" || ProjectOf(b).None? then None
      else Some(Key(b.repo, b.branch, ProjectOf(b).value))
  }

  /** Two services are grouped when both have a build of their own, of one project, from one
      repository and branch. */
  lemma GroupedMeans(f: Fleet, m: string, n: string)
    requires m in f.services && n in f.services && f.services[m].build.Some? && f.services[n].build.Some?
    ensures var a, b := f.services[m].build.value, f.services[n].build.value;
            KeyOf(f, m).Some? && KeyOf(f, m) == KeyOf(f, n) <==>
              && !a.sharedFrom && !b.sharedFrom && SameProject(a, b)
              && a.repo != "" && a.repo == b.repo && a.branch == b.branch
  {
  }

  function Members(f: Fleet, order: seq<string>, key: Key): set<string> {
    set n | n in order && KeyOf(f, n) == Some(key)
  }

  lemma MembersGrow(f: Fleet, order: seq<string>, i: nat, key: Key)
    requires i < |order|
    ensures Members(f, order[..i + 1], key) ==
            Members(f, order[..i], key) + if KeyOf(f, order[i]) == Some(key) then {order[i]} else {}
  {
    assert order[..i + 1] == order[..i] + [order[i]];
  }

  method MembersByKey(f: Fleet) returns (byKey: map<Key, set<string>>)
    ensures forall key :: key in byKey <==> Members(f, f.order, key) != {}
    ensures forall key | key in byKey :: byKey[key] == Members(f, f.order, key)
  {
    byKey := map[];
    for i := 0 to |f.order|
      invariant forall key :: key in byKey <==> Members(f, f.order[..i], key) != {}
      invariant forall key | key in byKey :: byKey[key] == Members(f, f.order[..i], key)
    {
      var name := f.order[i];
      var own := KeyOf(f, name);
      forall key: Key ensures Members(f, f.order[..i + 1], key) ==
                              Members(f, f.order[..i], key) + if own == Some(key) then {name} else {}
      {
        MembersGrow(f, f.order, i, key);
      }
      if own.None? {
        continue;
      }
      byKey := byKey[own.value := (if own.value in byKey then byKey[own.value] else {}) + {name}];
    }
    assert f.order[..|f.order|] == f.order;
  }

  method PushSiblingGroups(f: Fleet) returns (groups: set<set<string>>)
    ensures forall g :: g in groups <==> |g| > 1 && exists key :: g == Members(f, f.order, key)
  {
    var byKey := MembersByKey(f);
    groups := set key | key in byKey && |byKey[key]| > 1 :: byKey[key];
    forall key | |Members(f, f.order, key)| > 1 ensures Members(f, f.order, key) in groups {
      assert key in byKey;
    }
  }

  /** Slugs that tell repositories and branches apart. */
  predicate SlugsAreDistinct(f: Fleet, d: Digests) {
    forall m, n | m in f.services && n in f.services && f.services[m].build.Some? && f.services[n].build.Some? ::
      var a, b := f.services[m].build.value, f.services[n].build.value;
      Slug(d, a) == Slug(d, b) ==> a.repo == b.repo && a.branch == b.branch
  }

  /** For a service with its own build, the group of a push is the one that the hook check
      computes, when slugs are distinct. */
  lemma GroupsAgree(f: Fleet, d: Digests, svc: string)
    requires Valid(f) && Posted(f, svc) && !f.services[svc].build.value.sharedFrom && SlugsAreDistinct(f, d)
    ensures KeyOf(f, svc).Some?
    ensures forall n :: InGroup(f, d, svc, n) <==> n in Members(f, f.order, KeyOf(f, svc).value)
  {
    forall n ensures InGroup(f, d, svc, n) <==> n in Members(f, f.order, KeyOf(f, svc).value) {
      assert n in f.order <==> n in f.services;
    }
  }
}
