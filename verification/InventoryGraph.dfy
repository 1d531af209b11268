/** The reader of the inventory graph, run on the printed form of any tree of groups. */
module InventoryGraph {
  import opened Text

  datatype Node = Host(name: string) | Group(name: string, kids: seq<Node>)

  /** Group or host name to the hosts below it. */
  type Table = map<string, set<string>>

  // ---------------------------------------------------------------- reading one line

  function RStripColon(s: string): string {
    if s != "" && s[|s| - 1] == ':' then RStripColon(s[..|s| - 1]) else s
  }

  /** `line.count("|")`. */
  function Depth(line: string): nat {
    if line == "" then 0 else (if line[0] == '|' then 1 else 0) + Depth(line[1..])
  }

  /** The index of the first `--`, or |s|. */
  function Dashes(s: string): (i: nat)
    ensures i <= |s| && (i < |s| ==> i + 2 <= |s| && s[i] == s[i + 1] == '-')
  {
    if s == "" || (|s| >= 2 && s[0] == s[1] == '-') then 0 else 1 + Dashes(s[1..])
  }

  function NameOf(line: string): string {
    if Dashes(line) < |line| then line[Dashes(line) + 2..] else LStrip(line)
  }

  datatype Row = Skip | OfGroup(depth: nat, name: string) | OfHost(depth: nat, name: string)

  function ReadRow(raw: string): Row {
    var line := RStrip(raw);
    if LStrip(line) == "" then Skip
    else
      var name := NameOf(line);
      if name != "" && name[0] == '@' then OfGroup(Depth(line), RStripColon(name[1..]))
      else OfHost(Depth(line), name)
  }

  // -------------------------------------------------------------------------- the loop

  datatype State = State(out: Table, stack: seq<string>)

  function Cut(stack: seq<string>, depth: nat): seq<string> {
    if depth <= |stack| then stack[..depth] else stack
  }

  function Add(out: Table, key: string, hosts: set<string>): Table {
    out[key := (if key in out then out[key] else {}) + hosts]
  }

  function AddAll(out: Table, groups: seq<string>, host: string): Table {
    if groups == [] then out else Add(AddAll(out, groups[..|groups| - 1], host), groups[|groups| - 1], {host})
  }

  function Next(s: State, row: Row): State {
    match row
    case Skip => s
    case OfGroup(depth, name) => State(Add(s.out, name, {}), Cut(s.stack, depth) + [name])
    case OfHost(depth, name) =>
      var stack := Cut(s.stack, depth);
      State(Add(AddAll(s.out, stack, name), name, {name}), stack)
  }

  function After(s: State, lines: seq<string>): State
    decreases |lines|
  {
    if lines == [] then s else After(Next(s, ReadRow(lines[0])), lines[1..])
  }

  /** A host goes to every group on the stack and to itself. */
  method AddHost(before: Table, stack: seq<string>, name: string) returns (out: Table)
    ensures out == Add(AddAll(before, stack, name), name, {name})
  {
    out := before;
    for k := 0 to |stack|
      invariant out == AddAll(before, stack[..k], name)
    {
      assert stack[..k + 1][..k] == stack[..k];
      out := out[stack[k] := (if stack[k] in out then out[stack[k]] else {}) + {name}];
    }
    assert stack[..|stack|] == stack;
    out := out[name := (if name in out then out[name] else {}) + {name}];
  }

  method AddGroup(before: Table, group: string) returns (out: Table)
    ensures out == Add(before, group, {})
  {
    out := before;
    if group !in out {
      out := out[group := {}];
    }
    AddNothing(before, group);
  }

  method ParseGraph(lines: seq<string>) returns (out: Table)
    ensures out == After(State(map[], []), lines).out
  {
    out := map[];
    var stack: seq<string> := [];
    for i := 0 to |lines|
      invariant After(State(out, stack), lines[i..]) == After(State(map[], []), lines)
    {
      var line := RStrip(lines[i]);
      if LStrip(line) == "" {
        continue;
      }
      var depth := Depth(line);
      var name := NameOf(line);
      stack := Cut(stack, depth);
      if name != "" && name[0] == '@' {
        var group := RStripColon(name[1..]);
        stack := stack + [group];
        out := AddGroup(out, group);
        continue;
      }
      out := AddHost(out, stack, name);
    }
  }

  lemma AddNothing(out: Table, key: string)
    ensures Add(out, key, {}) == if key in out then out else out[key := {}]
  {
    var none: set<string> := {};
    assert none + none == none;
    if key in out {
      assert out[key] + {} == out[key];
      assert out[key := out[key]] == out;
    }
  }

  // ------------------------------------------------------------------- the printed form

  function Bars(depth: nat): string {
    if depth == 0 then "" else "  |" + Bars(depth - 1)
  }

  function Line(depth: nat, name: string): string {
    if depth == 0 then name else Bars(depth) + "--" + name
  }

  function Print(n: Node, depth: nat): seq<string> {
    match n
    case Host(name) => [Line(depth, name)]
    case Group(name, kids) => [Line(depth, "@" + name + ":")] + PrintAll(kids, depth + 1)
  }

  function PrintAll(ns: seq<Node>, depth: nat): seq<string> {
    if ns == [] then [] else Print(ns[0], depth) + PrintAll(ns[1..], depth)
  }

  /** A name without bars and white space. */
  predicate NameOk(name: string) {
    name != "" && forall c :: c in name ==> c != '|' && !Blank(c)
  }

  predicate NodeOk(n: Node) {
    && NameOk(n.name)
    && match n
       case Host(name) => name[0] != '@'
       case Group(name, kids) => name[|name| - 1] != ':' && forall k :: k in kids ==> NodeOk(k)
  }

  /** What the graph command prints: a root group whose name holds no `--`. */
  predicate RootOk(n: Node) {
    NodeOk(n) && n.Group? && Dashes("@" + n.name + ":") == |n.name| + 2
  }

  lemma FirstChar(c: char, t: string)
    ensures Depth([c] + t) == (if c == '|' then 1 else 0) + Depth(t)
    ensures c != '-' ==> Dashes([c] + t) == 1 + Dashes(t)
  {
    assert ([c] + t)[1..] == t;
  }

  lemma OneBar(t: string)
    ensures Depth("  |" + t) == 1 + Depth(t)
    ensures Dashes("  |" + t) == 3 + Dashes(t)
  {
    FirstChar('|', t);
    FirstChar(' ', ['|'] + t);
    FirstChar(' ', [' '] + (['|'] + t));
    assert "  |" + t == [' '] + ([' '] + (['|'] + t));
  }

  lemma {:induction false} BarsOnly(depth: nat, rest: string)
    ensures Depth(Bars(depth) + rest) == depth + Depth(rest)
    ensures |Bars(depth)| == 3 * depth
    ensures Dashes(Bars(depth) + rest) == 3 * depth + Dashes(rest)
  {
    if depth == 0 {
      assert Bars(depth) + rest == rest;
    } else {
      BarsOnly(depth - 1, rest);
      OneBar(Bars(depth - 1) + rest);
      assert Bars(depth) + rest == "  |" + (Bars(depth - 1) + rest);
    }
  }

  lemma {:induction false} NoBars(s: string)
    requires '|' !in s
    ensures Depth(s) == 0
  {
    if s != "" {
      NoBars(s[1..]);
    }
  }

  lemma EndsInInk(s: string)
    requires s != "" && !Blank(s[|s| - 1])
    ensures RStrip(s) == s && LStrip(s) != ""
  {
    KeepsInk(s, |s| - 1);
  }

  lemma NoDashes(s: string)
    requires s != "" && !Blank(s[0])
    ensures LStrip(s) == s
  {
  }

  lemma RootReads(name: string)
    requires NameOk(name) && Dashes(name) == |name|
    ensures RStrip(name) == name && LStrip(name) != "" && Depth(name) == 0 && NameOf(name) == name
  {
    assert name[|name| - 1] in name && name[0] in name;
    EndsInInk(name);
    NoBars(name);
    NoDashes(name);
  }

  lemma BelowReads(depth: nat, name: string, line: string)
    requires NameOk(name) && depth > 0 && line == Bars(depth) + ("--" + name)
    requires line[|line| - 1] == name[|name| - 1] && |line| >= 3 * depth + 2 && line[3 * depth + 2..] == name
    ensures RStrip(line) == line && LStrip(line) != "" && Depth(line) == depth && NameOf(line) == name
  {
    var rest := "--" + name;
    assert name[|name| - 1] in name;
    EndsInInk(line);
    BarsOnly(depth, rest);
    NoBars(rest);
  }

  /** A printed line reads back as its depth and its name. */
  lemma LineReads(depth: nat, name: string)
    requires NameOk(name) && (depth == 0 ==> Dashes(name) == |name|)
    ensures var line := RStrip(Line(depth, name));
            LStrip(line) != "" && Depth(line) == depth && NameOf(line) == name
  {
    if depth == 0 {
      RootReads(name);
    } else {
      LineAs(depth, name);
      BarsOnly(depth, "--" + name);
      BelowReads(depth, name, Line(depth, name));
    }
  }

  lemma {:induction false} LineAs(depth: nat, name: string)
    requires depth > 0 && name != ""
    ensures Line(depth, name) == Bars(depth) + ("--" + name)
    ensures Line(depth, name)[|Line(depth, name)| - 1] == name[|name| - 1]
    ensures Line(depth, name)[|Bars(depth)| + 2..] == name
  {
  }

  lemma {:induction false} KeepsInk(s: string, i: nat)
    requires i < |s| && !Blank(s[i])
    ensures LStrip(s) != ""
  {
    if Blank(s[0]) {
      KeepsInk(s[1..], i - 1);
    }
  }

  lemma RowOfHost(depth: nat, n: Node)
    requires n.Host? && NodeOk(n) && depth > 0
    ensures ReadRow(Line(depth, n.name)) == OfHost(depth, n.name)
  {
    LineReads(depth, n.name);
  }

  lemma ColonStripped(name: string)
    requires name != "" && name[|name| - 1] != ':'
    ensures RStripColon(name + ":") == name
  {
    assert (name + ":")[..|name|] == name;
    assert RStripColon(name) == name;
  }

  lemma ShownGroup(name: string)
    requires NameOk(name)
    ensures NameOk("@" + name + ":") && ("@" + name + ":")[1..] == name + ":"
  {
  }

  lemma RowOfGroup(depth: nat, n: Node)
    requires n.Group? && NodeOk(n) && (depth == 0 ==> RootOk(n))
    ensures ReadRow(Line(depth, "@" + n.name + ":")) == OfGroup(depth, n.name)
  {
    var shown := "@" + n.name + ":";
    ShownGroup(n.name);
    LineReads(depth, shown);
    ColonStripped(n.name);
    RowIs(Line(depth, shown), depth, shown);
  }

  /** What is read of a line, given its parts. */
  lemma RowIs(raw: string, depth: nat, name: string)
    requires var line := RStrip(raw); LStrip(line) != "" && Depth(line) == depth && NameOf(line) == name
    requires name != ""
    ensures ReadRow(raw) == if name[0] == '@' then OfGroup(depth, RStripColon(name[1..])) else OfHost(depth, name)
  {
  }

  // ------------------------------------------------------------------ what the tree says

  function HostsIn(n: Node): set<string> {
    match n
    case Host(name) => {name}
    case Group(_, kids) => HostsInAll(kids)
  }

  function HostsInAll(ns: seq<Node>): set<string> {
    if ns == [] then {} else HostsIn(ns[0]) + HostsInAll(ns[1..])
  }

  function NamesIn(n: Node): set<string> {
    match n
    case Host(name) => {name}
    case Group(name, kids) => {name} + NamesInAll(kids)
  }

  function NamesInAll(ns: seq<Node>): set<string> {
    if ns == [] then {} else NamesIn(ns[0]) + NamesInAll(ns[1..])
  }

  /** The hosts below any group `key` anywhere in the tree, and `key` itself where it is
      a host. */
  function Below(n: Node, key: string): set<string> {
    match n
    case Host(name) => if name == key then {name} else {}
    case Group(name, kids) => (if name == key then HostsInAll(kids) else {}) + BelowAll(kids, key)
  }

  function BelowAll(ns: seq<Node>, key: string): set<string> {
    if ns == [] then {} else Below(ns[0], key) + BelowAll(ns[1..], key)
  }

  // ------------------------------------------------------------------------ the theorem

  function Have(out: Table, key: string): set<string> {
    if key in out then out[key] else {}
  }

  lemma {:induction false} AfterAppend(s: State, a: seq<string>, b: seq<string>)
    ensures After(s, a + b) == After(After(s, a), b)
    decreases |a|
  {
    if a == [] {
      assert a + b == b;
    } else {
      assert (a + b)[1..] == a[1..] + b;
      AfterAppend(Next(s, ReadRow(a[0])), a[1..], b);
    }
  }

  lemma {:induction false} AddAllAt(out: Table, groups: seq<string>, host: string, key: string)
    ensures AddAll(out, groups, host).Keys == out.Keys + (set g | g in groups)
    ensures Have(AddAll(out, groups, host), key) == Have(out, key) + if key in groups then {host} else {}
  {
    if groups != [] {
      AddAllAt(out, groups[..|groups| - 1], host, key);
      assert groups == groups[..|groups| - 1] + [groups[|groups| - 1]];
    }
  }

  /** From a state whose stack holds the ancestors of some nodes, their printed lines add
      their hosts to every ancestor, and to `key` what they have below it. */
  predicate Read(s: State, t: State, depth: nat, hosts: set<string>, names: set<string>, key: string,
                 below: set<string>) {
    && depth <= |s.stack| && depth <= |t.stack| && t.stack[..depth] == s.stack[..depth] && Known(t)
    && t.out.Keys == s.out.Keys + names
    && Have(t.out, key) == Have(s.out, key) + below + if key in s.stack[..depth] then hosts else {}
  }

  predicate Known(s: State) {
    forall g :: g in s.stack ==> g in s.out
  }

  lemma NodeRead(s: State, n: Node, depth: nat, key: string)
    requires NodeOk(n) && (depth == 0 ==> RootOk(n)) && depth <= |s.stack| && Known(s)
    ensures Read(s, After(s, Print(n, depth)), depth, HostsIn(n), NamesIn(n), key, Below(n, key))
    decreases n
  {
    if n.Host? {
      HostNode(s, n, depth, key);
    } else {
      OpenRead(s, n.name, depth, key);
      KidsRead(Next(s, OfGroup(depth, n.name)), n.kids, depth + 1, key);
      GroupNode(s, n, depth, key);
    }
  }

  lemma HostNode(s: State, n: Node, depth: nat, key: string)
    requires NodeOk(n) && n.Host? && 0 < depth <= |s.stack| && Known(s)
    ensures Read(s, After(s, Print(n, depth)), depth, HostsIn(n), NamesIn(n), key, Below(n, key))
  {
    RowOfHost(depth, n);
    OneLine(s, Line(depth, n.name));
    HostRead(s, n.name, depth, key);
  }

  lemma GroupNode(s: State, n: Node, depth: nat, key: string)
    requires NodeOk(n) && n.Group? && (depth == 0 ==> RootOk(n)) && depth <= |s.stack| && Known(s)
    requires var t := Next(s, OfGroup(depth, n.name));
             Read(t, After(t, PrintAll(n.kids, depth + 1)), depth + 1, HostsInAll(n.kids), NamesInAll(n.kids), key,
                 BelowAll(n.kids, key))
    ensures Read(s, After(s, Print(n, depth)), depth, HostsIn(n), NamesIn(n), key, Below(n, key))
  {
    var t := Next(s, OfGroup(depth, n.name));
    AfterGroup(s, n, depth);
    OpenRead(s, n.name, depth, key);
    GroupRead(s, t, After(t, PrintAll(n.kids, depth + 1)), n.name, n.kids, depth, key);
  }

  lemma AfterGroup(s: State, n: Node, depth: nat)
    requires n.Group? && NodeOk(n) && (depth == 0 ==> RootOk(n))
    ensures After(s, Print(n, depth)) == After(Next(s, OfGroup(depth, n.name)), PrintAll(n.kids, depth + 1))
  {
    var head := Line(depth, "@" + n.name + ":");
    RowOfGroup(depth, n);
    OneLine(s, head);
    AfterAppend(s, [head], PrintAll(n.kids, depth + 1));
  }

  lemma OneLine(s: State, line: string)
    ensures After(s, [line]) == Next(s, ReadRow(line))
  {
    assert [line][1..] == [];
  }

  lemma HostRead(s: State, name: string, depth: nat, key: string)
    requires depth <= |s.stack| && Known(s)
    ensures Read(s, Next(s, OfHost(depth, name)), depth, {name}, {name}, key, if name == key then {name} else {})
  {
    var stack := s.stack[..depth];
    AddAllAt(s.out, stack, name, key);
    AddAllAt(s.out, stack, name, name);
    assert (set g | g in stack) <= s.out.Keys;
  }

  lemma OpenRead(s: State, name: string, depth: nat, key: string)
    requires depth <= |s.stack| && Known(s)
    ensures var t := Next(s, OfGroup(depth, name));
            && t.stack == s.stack[..depth] + [name] && Known(t)
            && t.out.Keys == s.out.Keys + {name} && Have(t.out, key) == Have(s.out, key)
  {
  }

  lemma GroupRead(s: State, t: State, u: State, name: string, kids: seq<Node>, depth: nat, key: string)
    requires depth <= |s.stack| && t.stack == s.stack[..depth] + [name]
    requires t.out.Keys == s.out.Keys + {name} && Have(t.out, key) == Have(s.out, key)
    requires Read(t, u, depth + 1, HostsInAll(kids), NamesInAll(kids), key, BelowAll(kids, key))
    ensures Read(s, u, depth, HostsInAll(kids), {name} + NamesInAll(kids), key,
                 (if name == key then HostsInAll(kids) else {}) + BelowAll(kids, key))
  {
    assert t.stack[..depth + 1] == t.stack && t.stack[..depth] == s.stack[..depth];
    assert u.stack[..depth] == u.stack[..depth + 1][..depth];
    assert key in t.stack <==> key in s.stack[..depth] || key == name;
  }

  lemma {:induction false} KidsRead(s: State, ns: seq<Node>, depth: nat, key: string)
    requires (forall n :: n in ns ==> NodeOk(n)) && 0 < depth <= |s.stack| && Known(s)
    ensures Read(s, After(s, PrintAll(ns, depth)), depth, HostsInAll(ns), NamesInAll(ns), key, BelowAll(ns, key))
    decreases ns
  {
    if ns != [] {
      assert ns[0] in ns;
      NodeRead(s, ns[0], depth, key);
      var t := After(s, Print(ns[0], depth));
      AfterAppend(s, Print(ns[0], depth), PrintAll(ns[1..], depth));
      KidsRead(t, ns[1..], depth, key);
      ThenRead(s, t, After(t, PrintAll(ns[1..], depth)), depth, key,
               HostsIn(ns[0]), NamesIn(ns[0]), Below(ns[0], key),
               HostsInAll(ns[1..]), NamesInAll(ns[1..]), BelowAll(ns[1..], key));
    }
  }

  lemma ThenRead(s: State, t: State, u: State, depth: nat, key: string,
                 h1: set<string>, n1: set<string>, b1: set<string>, h2: set<string>, n2: set<string>, b2: set<string>)
    requires Read(s, t, depth, h1, n1, key, b1) && Read(t, u, depth, h2, n2, key, b2)
    ensures Read(s, u, depth, h1 + h2, n1 + n2, key, b1 + b2)
  {
  }

  /** On the printed form of any tree the reader returns a row for exactly the groups and
      hosts of the tree, and for each of them exactly the hosts below it anywhere, also
      when a group appears under several parents. */
  lemma ReadsTheTree(root: Node)
    requires RootOk(root)
    ensures var out := After(State(map[], []), Print(root, 0)).out;
            out.Keys == NamesIn(root) && forall key :: key in out ==> out[key] == Below(root, key)
  {
    var s := State(map[], []);
    NodeRead(s, root, 0, root.name);
    var out := After(s, Print(root, 0)).out;
    forall key | key in out ensures out[key] == Below(root, key) {
      NodeRead(s, root, 0, key);
      assert Have(out, key) == Have(s.out, key) + Below(root, key) + {};
    }
  }
}
