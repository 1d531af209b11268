/** The importer's TOML writer, and a strict reader of TOML v1.0.0 statements (sections
    "Table" and "Array of Tables") that reads its output back. */
module TomlWriter {
  import opened Options

  /** A Python value; a dict keeps its insertion order. */
  datatype Value =
    | Bool(bit: bool)
    | Int(number: int)
    | Str(text: string)
    | List(items: seq<Value>)
    | Dict(entries: seq<Entry>)
  datatype Entry = Entry(key: string, value: Value)

  /** One printed line. The text of keys and of inline values is not modelled. */
  datatype Line =
    | Blank
    | KeyVal(key: string, value: Value)
    | Header(path: seq<string>)
    | ArrayHeader(path: seq<string>)

  // ------------------------------------------------------------- what gets printed

  predicate IsTable(v: Value) {
    v.Dict?
  }

  predicate IsTableArray(v: Value) {
    v.List? && v.items != [] && forall x :: x in v.items ==> x.Dict?
  }

  predicate IsPlain(v: Value) {
    !IsTable(v) && !IsTableArray(v)
  }

  predicate HasPlain(es: seq<Entry>) {
    exists e :: e in es && IsPlain(e.value)
  }

  function PlainLines(es: seq<Entry>): seq<Line> {
    if es == [] then []
    else (if IsPlain(es[0].value) then [KeyVal(es[0].key, es[0].value)] else []) + PlainLines(es[1..])
  }

  function Lines(es: seq<Entry>, path: seq<string>): seq<Line>
    decreases es, 2
  {
    PlainLines(es) + SubLines(es, path)
  }

  function SubLines(es: seq<Entry>, path: seq<string>): seq<Line>
    decreases es, 1
  {
    if es == [] then [] else EntryLines(es[0], path) + SubLines(es[1..], path)
  }

  function EntryLines(e: Entry, path: seq<string>): seq<Line>
    decreases e
  {
    var sub := path + [e.key];
    if IsTable(e.value) then
      (if HasPlain(e.value.entries) || e.value.entries == [] then [Blank, Header(sub)] else []) +
          Lines(e.value.entries, sub)
    else if IsTableArray(e.value) then ItemLines(e.value.items, sub)
    else []
  }

  function ItemLines(items: seq<Value>, path: seq<string>): seq<Line>
    requires forall x :: x in items ==> x.Dict?
    decreases items, 0
  {
    if items == [] then []
    else [Blank, ArrayHeader(path)] + Lines(items[0].entries, path) + ItemLines(items[1..], path)
  }

  /** The writer: a shared list of lines that the recursion appends to. */
  class Writer {
    var lines: seq<Line>

    constructor ()
      ensures lines == []
    {
      lines := [];
    }

    method Emit(table: seq<Entry>, path: seq<string>)
      modifies this
      ensures lines == old(lines) + Lines(table, path)
      decreases table, 2
    {
      for i := 0 to |table|
        invariant lines + PlainLines(table[i..]) == old(lines) + PlainLines(table)
      {
        if IsPlain(table[i].value) {
          lines := lines + [KeyVal(table[i].key, table[i].value)];
        }
      }
      assert table[|table|..] == [];
      ghost var front := lines;
      assert front == old(lines) + PlainLines(table);
      for i := 0 to |table|
        invariant lines + SubLines(table[i..], path) == front + SubLines(table, path)
      {
        ghost var before := lines;
        EmitEntry(table[i], path);
        Shift(before, EntryLines(table[i], path), SubLines(table[i + 1..], path));
      }
      assert table[|table|..] == [];
      assert lines == front + SubLines(table, path);
      Shift(old(lines), PlainLines(table), SubLines(table, path));
    }

    method EmitEntry(e: Entry, path: seq<string>)
      modifies this
      ensures lines == old(lines) + EntryLines(e, path)
      decreases e
    {
      var k, v := e.key, e.value;
      if IsTable(v) {
        var sub := path + [k];
        if HasPlain(v.entries) || v.entries == [] {
          lines := lines + [Blank];
          lines := lines + [Header(sub)];
        }
        Emit(v.entries, sub);
      } else if IsTableArray(v) {
        EmitItems(v.items, path + [k]);
      }
    }

    method EmitItems(items: seq<Value>, path: seq<string>)
      requires forall x :: x in items ==> x.Dict?
      modifies this
      ensures lines == old(lines) + ItemLines(items, path)
      decreases items, 0
    {
      for j := 0 to |items|
        invariant lines + ItemLines(items[j..], path) == old(lines) + ItemLines(items, path)
      {
        ghost var before := lines;
        lines := lines + [Blank];
        lines := lines + [ArrayHeader(path)];
        Emit(items[j].entries, path);
        Shift(before, [Blank, ArrayHeader(path)] + Lines(items[j].entries, path), ItemLines(items[j + 1..], path));
      }
    }
  }

  lemma {:induction false} Shift(front: seq<Line>, one: seq<Line>, rest: seq<Line>)
    ensures (front + one) + rest == front + (one + rest)
  {
  }

  // ------------------------------------------------------------------- the reader

  /** A document as read: a table knows whether a header of its own defined it. */
  datatype Node =
    | Leaf(value: Value)
    | Table(kids: map<string, Node>, explicit: bool)
    | Array(items: seq<Node>)

  const IMPLICIT := Table(map[], false)
  const EXPLICIT := Table(map[], true)

  /** The table that a key of a table stands for in a path: a missing one is an implicit
      table, an array of tables is its last element, a value is no table. */
  function Inside(t: Node, k: string): Option<Node>
    requires t.Table?
  {
    if k !in t.kids then Some(IMPLICIT)
    else
      match t.kids[k]
      case Table(_, _) => Some(t.kids[k])
      case Array(items) => if items != [] && items[|items| - 1].Table? then Some(items[|items| - 1]) else None
      case Leaf(_) => None
  }

  /** Put a table back where `Inside` found it. */
  function With(t: Node, k: string, n: Node): Node
    requires t.Table?
  {
    if k in t.kids && t.kids[k].Array? && t.kids[k].items != [] then
      var items := t.kids[k].items;
      t.(kids := t.kids[k := Array(items[..|items| - 1] + [n])])
    else t.(kids := t.kids[k := n])
  }

  function Get(t: Node, path: seq<string>): (r: Option<Node>)
    requires t.Table?
    ensures r.Some? ==> r.value.Table?
    decreases |path|
  {
    if path == [] then Some(t)
    else
      var inner := Inside(t, path[0]);
      if inner.None? then None else Get(inner.value, path[1..])
  }

  function Put(t: Node, path: seq<string>, n: Node): (r: Node)
    requires t.Table? && n.Table? && Get(t, path).Some?
    ensures r.Table?
    decreases |path|
  {
    if path == [] then n else With(t, path[0], Put(Inside(t, path[0]).value, path[1..], n))
  }

  datatype Reader = Reader(root: Node, at: seq<string>)

  /** One statement; None is a document that TOML v1.0.0 calls invalid. */
  function Step(r: Reader, line: Line): (r': Option<Reader>)
    requires r.root.Table?
    ensures r'.Some? ==> r'.value.root.Table?
  {
    match line
    case Blank => Some(r)
    case KeyVal(key, value) =>
      var t := Get(r.root, r.at);
      if t.None? || key in t.value.kids then None
      else Some(Reader(Put(r.root, r.at, t.value.(kids := t.value.kids[key := Leaf(value)])), r.at))
    case Header(path) =>
      if path == [] then None
      else
        var up, k := path[..|path| - 1], path[|path| - 1];
        var t := Get(r.root, up);
        if t.None? then None
        else if k !in t.value.kids then
          Some(Reader(Put(r.root, up, t.value.(kids := t.value.kids[k := EXPLICIT])), path))
        else if t.value.kids[k].Table? && !t.value.kids[k].explicit then
          Some(Reader(Put(r.root, up, t.value.(kids := t.value.kids[k := t.value.kids[k].(explicit := true)])), path))
        else None
    case ArrayHeader(path) =>
      if path == [] then None
      else
        var up, k := path[..|path| - 1], path[|path| - 1];
        var t := Get(r.root, up);
        if t.None? then None
        else if k !in t.value.kids then
          Some(Reader(Put(r.root, up, t.value.(kids := t.value.kids[k := Array([EXPLICIT])])), path))
        else if t.value.kids[k].Array? then
          Some(Reader(Put(r.root, up, t.value.(kids := t.value.kids[k := Array(t.value.kids[k].items + [EXPLICIT])])),
              path))
        else None
  }

  function ReadFrom(r: Reader, lines: seq<Line>): (r': Option<Reader>)
    requires r.root.Table?
    ensures r'.Some? ==> r'.value.root.Table?
    decreases |lines|
  {
    if lines == [] then Some(r)
    else
      var next := Step(r, lines[0]);
      if next.None? then None else ReadFrom(next.value, lines[1..])
  }

  function Read(lines: seq<Line>): Option<Node> {
    var r := ReadFrom(Reader(EXPLICIT, []), lines);
    if r.None? then None else Some(r.value.root)
  }

  // --------------------------------------------------------------- what both mean

  /** A document without the order of its keys. */
  datatype Data = B(bool) | I(int) | S(string) | L(seq<Data>) | D(map<string, Data>)

  function Meaning(v: Value): Data {
    match v
    case Bool(b) => B(b)
    case Int(i) => I(i)
    case Str(s) => S(s)
    case List(items) => L(Meanings(items))
    case Dict(entries) => D(Entries(entries))
  }

  function Meanings(vs: seq<Value>): seq<Data> {
    if vs == [] then [] else [Meaning(vs[0])] + Meanings(vs[1..])
  }

  function Entries(es: seq<Entry>): map<string, Data> {
    if es == [] then map[] else Entries(es[1..])[es[0].key := Meaning(es[0].value)]
  }

  function NodeMeaning(n: Node): Data {
    match n
    case Leaf(v) => Meaning(v)
    case Table(kids, _) => D(map k | k in kids :: NodeMeaning(kids[k]))
    case Array(items) => L(NodeMeanings(items))
  }

  function NodeMeanings(ns: seq<Node>): seq<Data> {
    if ns == [] then [] else [NodeMeaning(ns[0])] + NodeMeanings(ns[1..])
  }

  // ------------------------------------------------- what the reader makes of a table

  /** Keys are distinct at every level, as they are in a Python dict. */
  predicate Wf(v: Value) {
    match v
    case List(items) => forall x :: x in items ==> Wf(x)
    case Dict(entries) => WfEntries(entries)
    case _ => true
  }

  predicate WfEntries(es: seq<Entry>) {
    && (forall i, j | 0 <= i < j < |es| :: es[i].key != es[j].key)
    && forall e :: e in es ==> Wf(e.value)
  }

  function Build(v: Value): Node {
    if IsTable(v) then Table(BuildKids(v.entries), HasPlain(v.entries) || v.entries == [])
    else if IsTableArray(v) then Array(BuildItems(v.items))
    else Leaf(v)
  }

  function BuildKids(es: seq<Entry>): map<string, Node>
    decreases es, 2
  {
    PlainKids(es) + SubKids(es)
  }

  function PlainKids(es: seq<Entry>): map<string, Node> {
    if es == [] then map[]
    else (if IsPlain(es[0].value) then map[es[0].key := Leaf(es[0].value)] else map[]) + PlainKids(es[1..])
  }

  function SubKids(es: seq<Entry>): map<string, Node>
    decreases es, 1
  {
    if es == [] then map[]
    else (if IsPlain(es[0].value) then map[] else map[es[0].key := Build(es[0].value)]) + SubKids(es[1..])
  }

  function BuildItems(items: seq<Value>): (r: seq<Node>)
    requires forall x :: x in items ==> x.Dict?
    ensures |r| == |items|
    ensures forall n :: n in r ==> n.Table?
    decreases items, 0
  {
    if items == [] then [] else [Table(BuildKids(items[0].entries), true)] + BuildItems(items[1..])
  }

  predicate HasSub(es: seq<Entry>) {
    exists e :: e in es && !IsPlain(e.value)
  }

  predicate NewKeys(es: seq<Entry>, kids: map<string, Node>) {
    forall e :: e in es ==> e.key !in kids
  }

  lemma {:induction false} MapSplit(kids: map<string, Node>, k: string, n: Node, a: map<string, Node>,
                                    b: map<string, Node>)
    ensures kids + (map[k := n] + a) == kids[k := n] + a
    ensures k !in a && k !in b ==> (map[k := n] + a) + b == (a + b)[k := n]
    ensures k !in a && k !in b ==> a + (map[k := n] + b) == (a + b)[k := n]
    ensures map[] + a == a && a + map[] == a
  {
  }

  lemma {:induction false} RestIsWf(es: seq<Entry>)
    requires es != [] && WfEntries(es)
    ensures es[0] in es && Wf(es[0].value) && WfEntries(es[1..])
    ensures forall e :: e in es[1..] ==> e.key != es[0].key
    ensures forall e :: e in es <==> e == es[0] || e in es[1..]
  {
    assert es == [es[0]] + es[1..];
    forall e | e in es[1..] ensures e.key != es[0].key && Wf(e.value) {
      var i :| 0 <= i < |es[1..]| && es[1..][i] == e;
      assert es[i + 1] == e;
    }
  }

  // -------------------------------------------------------------- laws of Get and Put

  lemma {:induction false} InsideWith(t: Node, k: string, n: Node, m: Node)
    requires t.Table? && n.Table? && Inside(t, k).Some?
    ensures Inside(With(t, k, n), k) == Some(n)
    ensures With(With(t, k, n), k, m) == With(t, k, m)
  {
  }

  lemma {:induction false} GetPut(t: Node, path: seq<string>, n: Node, m: Node)
    requires t.Table? && n.Table? && m.Table? && Get(t, path).Some?
    ensures Get(Put(t, path, n), path) == Some(n)
    ensures Put(Put(t, path, n), path, m) == Put(t, path, m)
    decreases |path|
  {
    if path != [] {
      var inner := Inside(t, path[0]).value;
      GetPut(inner, path[1..], n, m);
      InsideWith(t, path[0], Put(inner, path[1..], n), Put(inner, path[1..], m));
    }
  }

  lemma {:induction false} GetPutSnoc(t: Node, path: seq<string>, k: string, n: Node)
    requires t.Table? && n.Table? && Get(t, path).Some?
    ensures Get(t, path + [k]) == Inside(Get(t, path).value, k)
    ensures Inside(Get(t, path).value, k).Some? ==>
              Put(t, path + [k], n) == Put(t, path, With(Get(t, path).value, k, n))
    decreases |path|
  {
    if path == [] {
      assert path + [k] == [k];
      assert [k][1..] == [];
    } else {
      assert (path + [k])[1..] == path[1..] + [k];
      GetPutSnoc(Inside(t, path[0]).value, path[1..], k, n);
    }
  }

  lemma {:induction false} ReadAppend(r: Reader, a: seq<Line>, b: seq<Line>)
    requires r.root.Table? && ReadFrom(r, a).Some?
    ensures ReadFrom(r, a + b) == ReadFrom(ReadFrom(r, a).value, b)
    decreases |a|
  {
    if a == [] {
      assert a + b == b;
    } else {
      assert (a + b)[1..] == a[1..] + b;
      ReadAppend(Step(r, a[0]).value, a[1..], b);
    }
  }

  // ----------------------------------------------------------- reading what is printed

  lemma {:induction false} StepKeyVal(r: Reader, kids: map<string, Node>, x: bool, k: string, v: Value)
    requires r.root.Table? && Get(r.root, r.at) == Some(Table(kids, x)) && k !in kids
    ensures Step(r, KeyVal(k, v)) == Some(Reader(Put(r.root, r.at, Table(kids[k := Leaf(v)], x)), r.at))
  {
  }

  lemma {:induction false} PlainRead(r: Reader, es: seq<Entry>, kids: map<string, Node>, x: bool)
    requires r.root.Table? && Get(r.root, r.at) == Some(Table(kids, x))
    requires WfEntries(es) && NewKeys(es, kids)
    ensures ReadFrom(r, PlainLines(es)) ==
            Some(if HasPlain(es) then Reader(Put(r.root, r.at, Table(kids + PlainKids(es), x)), r.at) else r)
    decreases |es|
  {
    if es != [] {
      var k, v, rest := es[0].key, es[0].value, es[1..];
      RestIsWf(es);
      MapSplit(kids, k, Leaf(v), PlainKids(rest), map[]);
      if IsPlain(v) {
        PlainReadFirst(r, es, kids, x);
        var kids' := kids[k := Leaf(v)];
        var t := Table(kids', x);
        GetPut(r.root, r.at, t, Table(kids' + PlainKids(rest), x));
        PlainRead(Reader(Put(r.root, r.at, t), r.at), rest, kids', x);
        NoPlainKids(rest);
        assert kids' + map[] == kids';
      } else {
        assert PlainKids(es) == PlainKids(rest) && PlainLines(es) == PlainLines(rest);
        assert HasPlain(es) <==> HasPlain(rest);
        PlainRead(r, rest, kids, x);
      }
    }
  }

  lemma {:induction false} PlainReadFirst(r: Reader, es: seq<Entry>, kids: map<string, Node>, x: bool)
    requires r.root.Table? && Get(r.root, r.at) == Some(Table(kids, x))
    requires es != [] && IsPlain(es[0].value) && es[0].key !in kids
    ensures ReadFrom(r, PlainLines(es)) ==
            ReadFrom(Reader(Put(r.root, r.at, Table(kids[es[0].key := Leaf(es[0].value)], x)), r.at),
                PlainLines(es[1..]))
  {
    StepKeyVal(r, kids, x, es[0].key, es[0].value);
    assert PlainLines(es)[1..] == PlainLines(es[1..]);
  }

  lemma {:induction false} NoPlainKids(es: seq<Entry>)
    ensures !HasPlain(es) ==> PlainKids(es) == map[] && PlainLines(es) == []
    ensures !HasSub(es) ==> SubKids(es) == map[]
  {
    if es != [] {
      NoPlainKids(es[1..]);
      assert es[0] in es;
      assert HasPlain(es[1..]) ==> HasPlain(es);
      assert HasSub(es[1..]) ==> HasSub(es);
    }
  }

  /** A table whose header has just been read: its whole body rebuilds it. */
  lemma {:induction false} TableRead(r: Reader, es: seq<Entry>, x: bool) returns (at: seq<string>)
    requires r.root.Table? && Get(r.root, r.at) == Some(Table(map[], x)) && WfEntries(es)
    ensures ReadFrom(r, Lines(es, r.at)) ==
            Some(Reader(if es == [] then r.root else Put(r.root, r.at, Table(BuildKids(es), x)), at))
    decreases es, 2
  {
    var kids := PlainKids(es);
    var mid := AfterPlain(r, es, x);
    PlainKeys(es);
    at := SubRead(mid, es, r.at, kids, x);
    ReadAppend(r, PlainLines(es), SubLines(es, r.at));
    SomethingToRead(es);
    if HasPlain(es) {
      GetPut(r.root, r.at, Table(kids, x), Table(BuildKids(es), x));
    }
  }

  lemma {:induction false} SomethingToRead(es: seq<Entry>)
    ensures es != [] <==> HasPlain(es) || HasSub(es)
    ensures PlainKids(es) + SubKids(es) == BuildKids(es)
    ensures !HasPlain(es) ==> PlainKids(es) == map[]
    ensures !HasSub(es) ==> BuildKids(es) == PlainKids(es)
  {
    NoPlainKids(es);
    assert PlainKids(es) + map[] == PlainKids(es);
    assert es != [] ==> es[0] in es;
  }

  /** After the plain lines the table holds the plain keys. */
  lemma {:induction false} AfterPlain(r: Reader, es: seq<Entry>, x: bool) returns (mid: Reader)
    requires r.root.Table? && Get(r.root, r.at) == Some(Table(map[], x)) && WfEntries(es)
    ensures ReadFrom(r, PlainLines(es)) == Some(mid) && mid.root.Table? &&
              Get(mid.root, r.at) == Some(Table(PlainKids(es), x))
    ensures mid == if HasPlain(es) then Reader(Put(r.root, r.at, Table(PlainKids(es), x)), r.at) else r
  {
    var kids := PlainKids(es);
    PlainRead(r, es, map[], x);
    assert map[] + kids == kids;
    NoPlainKids(es);
    mid := ReadFrom(r, PlainLines(es)).value;
    if HasPlain(es) {
      GetPut(r.root, r.at, Table(kids, x), Table(kids, x));
    }
  }

  lemma {:induction false} PlainKeys(es: seq<Entry>)
    requires WfEntries(es)
    ensures forall k :: k in PlainKids(es) ==> exists e :: e in es && IsPlain(e.value) && e.key == k
    ensures SubsNew(es, PlainKids(es))
  {
    forall k | k in PlainKids(es) ensures exists e :: e in es && IsPlain(e.value) && e.key == k { PlainKey(es, k); }
  }

  lemma {:induction false} PlainKey(es: seq<Entry>, k: string)
    requires k in PlainKids(es)
    ensures exists e :: e in es && IsPlain(e.value) && e.key == k
  {
    if k in PlainKids(es[1..]) {
      PlainKey(es[1..], k);
      var e :| e in es[1..] && IsPlain(e.value) && e.key == k;
      assert e in es;
    } else {
      assert es[0] in es;
    }
  }

  predicate SubsNew(es: seq<Entry>, kids: map<string, Node>) {
    forall e :: e in es && !IsPlain(e.value) ==> e.key !in kids
  }

  lemma {:induction false} SubRead(r: Reader, es: seq<Entry>, path: seq<string>, kids: map<string, Node>, x: bool)
    returns (at: seq<string>)
    requires r.root.Table? && Get(r.root, path) == Some(Table(kids, x)) && WfEntries(es) && SubsNew(es, kids)
    ensures ReadFrom(r, SubLines(es, path)) ==
            Some(Reader(if HasSub(es) then Put(r.root, path, Table(kids + SubKids(es), x)) else r.root, at))
    decreases es, 1
  {
    if es == [] {
      at := r.at;
    } else {
      var e, rest := es[0], es[1..];
      RestIsWf(es);
      MapSplit(kids, e.key, Build(e.value), SubKids(rest), map[]);
      var at1 := EntryRead(r, e, path, kids, x);
      ReadAppend(r, EntryLines(e, path), SubLines(rest, path));
      if IsPlain(e.value) {
        at := SubRead(r, rest, path, kids, x);
      } else {
        var kids' := kids[e.key := Build(e.value)];
        var r' := Reader(Put(r.root, path, Table(kids', x)), at1);
        GetPut(r.root, path, Table(kids', x), Table(kids' + SubKids(rest), x));
        at := SubRead(r', rest, path, kids', x);
        NoPlainKids(rest);
        assert kids' + map[] == kids';
      }
    }
  }

  lemma {:induction false} EntryRead(r: Reader, e: Entry, path: seq<string>, kids: map<string, Node>, x: bool)
    returns (at: seq<string>)
    requires r.root.Table? && Get(r.root, path) == Some(Table(kids, x)) && Wf(e.value)
    requires !IsPlain(e.value) ==> e.key !in kids
    ensures ReadFrom(r, EntryLines(e, path)) ==
            Some(if IsPlain(e.value) then r else Reader(Put(r.root, path, Table(kids[e.key := Build(e.value)], x)), at))
    decreases e
  {
    at := r.at;
    EntryShape(e, path);
    if IsTable(e.value) {
      if HasPlain(e.value.entries) || e.value.entries == [] {
        at := HeadedRead(r, e, path, kids, x);
      } else {
        at := HeaderlessRead(r, e, path, kids, x);
      }
    } else if IsTableArray(e.value) {
      at := ItemsRead(r, [], e.value.items, path, e.key, kids, x);
    }
  }

  lemma {:induction false} EntryShape(e: Entry, path: seq<string>)
    ensures IsPlain(e.value) ==> EntryLines(e, path) == []
    ensures IsTableArray(e.value) ==>
              && !IsPlain(e.value) && e.value.items != []
              && EntryLines(e, path) == ItemLines(e.value.items, path + [e.key])
              && Build(e.value) == Array([] + BuildItems(e.value.items))
  {
    if IsTableArray(e.value) {
      assert [] + BuildItems(e.value.items) == BuildItems(e.value.items);
    }
  }

  /** Writing below a table that has just been opened at a key. */
  lemma {:induction false} BelowOpened(root: Node, path: seq<string>, begun: Node, k: string, n: Node)
    requires root.Table? && n.Table? && Get(root, path).Some? && begun.Table? && Inside(begun, k) == Some(EXPLICIT)
    ensures Get(Put(root, path, begun), path + [k]) == Some(EXPLICIT)
    ensures Put(Put(root, path, begun), path + [k], n) == Put(root, path, With(begun, k, n))
  {
    GetPut(root, path, begun, With(begun, k, n));
    GetPutSnoc(Put(root, path, begun), path, k, n);
  }

  lemma {:induction false} StepHeader(r: Reader, path: seq<string>, kids: map<string, Node>, x: bool, k: string)
    requires r.root.Table? && Get(r.root, path) == Some(Table(kids, x)) && k !in kids
    ensures Step(r, Header(path + [k])) == Some(Reader(Put(r.root, path, Table(kids[k := EXPLICIT], x)), path + [k]))
  {
    var sub := path + [k];
    assert sub[..|sub| - 1] == path;
  }

  lemma {:induction false} StepArrayHeader(r: Reader, path: seq<string>, done: seq<Node>, kids: map<string, Node>,
                                           x: bool, k: string)
    requires r.root.Table? && k !in kids
    requires Get(r.root, path) == Some(Table(if done == [] then kids else kids[k := Array(done)], x))
    ensures Step(r, ArrayHeader(path + [k])) ==
            Some(Reader(Put(r.root, path, Table(kids[k := Array(done + [EXPLICIT])], x)), path + [k]))
  {
    var sub := path + [k];
    assert sub[..|sub| - 1] == path;
    assert [] + [EXPLICIT] == [EXPLICIT];
    assert kids[k := Array(done)][k := Array(done + [EXPLICIT])] == kids[k := Array(done + [EXPLICIT])];
  }

  /** A table with a header of its own. */
  lemma {:induction false} HeadedRead(r: Reader, e: Entry, path: seq<string>, kids: map<string, Node>, x: bool)
    returns (at: seq<string>)
    requires r.root.Table? && Get(r.root, path) == Some(Table(kids, x)) && Wf(e.value)
    requires IsTable(e.value) && e.key !in kids && (HasPlain(e.value.entries) || e.value.entries == [])
    ensures ReadFrom(r, EntryLines(e, path)) ==
            Some(Reader(Put(r.root, path, Table(kids[e.key := Build(e.value)], x)), at))
    decreases e, 0
  {
    var k, es, sub := e.key, e.value.entries, path + [e.key];
    var begun := Table(kids[k := EXPLICIT], x);
    StepHeader(r, path, kids, x, k);
    at := OpenedRead(r.root, path, begun, k, es);
    TwoMore(r, Header(sub), Lines(es, sub));
    HeadedLines(e, path);
    OnlyReplaced(kids, x, k, Build(e.value));
  }

  /** The body of a table that has just been opened at a key. */
  lemma {:induction false} OpenedRead(root: Node, path: seq<string>, begun: Node, k: string, es: seq<Entry>)
    returns (at: seq<string>)
    requires root.Table? && Get(root, path).Some? && begun.Table? && Inside(begun, k) == Some(EXPLICIT) &&
               k in begun.kids
    requires WfEntries(es)
    ensures ReadFrom(Reader(Put(root, path, begun), path + [k]), Lines(es, path + [k])) ==
            Some(Reader(Put(root, path, With(begun, k, Table(BuildKids(es), true))), at))
    decreases es, 3
  {
    var built := Table(BuildKids(es), true);
    BelowOpened(root, path, begun, k, built);
    at := TableRead(Reader(Put(root, path, begun), path + [k]), es, true);
    if es == [] {
      assert BuildKids(es) == map[];
      WithItself(begun, k);
    }
  }

  lemma {:induction false} WithItself(t: Node, k: string)
    requires t.Table? && k in t.kids && Inside(t, k).Some?
    ensures With(t, k, Inside(t, k).value) == t
  {
    if t.kids[k].Array? {
      var items := t.kids[k].items;
      assert items[..|items| - 1] + [items[|items| - 1]] == items;
    }
    assert t.kids[k := t.kids[k]] == t.kids;
  }

  lemma {:induction false} HeadedLines(e: Entry, path: seq<string>)
    requires IsTable(e.value) && (HasPlain(e.value.entries) || e.value.entries == [])
    ensures EntryLines(e, path) == [Blank, Header(path + [e.key])] + Lines(e.value.entries, path + [e.key])
    ensures Build(e.value) == Table(BuildKids(e.value.entries), true)
  {
  }

  /** After a blank line, one statement, then the rest. */
  lemma {:induction false} TwoMore(r: Reader, head: Line, body: seq<Line>)
    requires r.root.Table? && Step(r, head).Some?
    ensures ReadFrom(r, [Blank, head] + body) == ReadFrom(Step(r, head).value, body)
  {
    var all := [Blank, head] + body;
    assert all[1..] == [head] + body && all[1..][1..] == body;
    assert ReadFrom(r, all) == ReadFrom(r, all[1..]);
  }

  /** A table that holds only tables: its header is left out, and the headers below it
      make it as an implicit super-table. */
  lemma {:induction false} HeaderlessRead(r: Reader, e: Entry, path: seq<string>, kids: map<string, Node>, x: bool)
    returns (at: seq<string>)
    requires r.root.Table? && Get(r.root, path) == Some(Table(kids, x)) && Wf(e.value)
    requires IsTable(e.value) && e.key !in kids && !HasPlain(e.value.entries) && e.value.entries != []
    ensures ReadFrom(r, EntryLines(e, path)) ==
            Some(Reader(Put(r.root, path, Table(kids[e.key := Build(e.value)], x)), at))
    decreases e, 0
  {
    var k, es, sub := e.key, e.value.entries, path + [e.key];
    var built := Build(e.value);
    NoPlainKids(es);
    assert BuildKids(es) == PlainKids(es) + SubKids(es) && map[] + SubKids(es) == SubKids(es);
    assert built == Table(SubKids(es), false);
    GetPutSnoc(r.root, path, k, built);
    at := SubRead(r, es, sub, map[], false);
    assert HasSub(es) by { assert es[0] in es && !IsPlain(es[0].value); }
    assert EntryLines(e, path) == SubLines(es, sub);
  }

  /** Each `[[ ]]` header opens a new last element, and the body below it rebuilds that. */
  lemma {:induction false} ItemsRead(r: Reader, done: seq<Node>, items: seq<Value>, path: seq<string>, k: string,
                                     kids: map<string, Node>, x: bool)
    returns (at: seq<string>)
    requires r.root.Table? && k !in kids
    requires Get(r.root, path) == Some(Table(if done == [] then kids else kids[k := Array(done)], x))
    requires forall v :: v in items ==> v.Dict? && Wf(v)
    ensures ReadFrom(r, ItemLines(items, path + [k])) ==
            Some(Reader(if items == [] then r.root else Put(r.root, path,
                Table(kids[k := Array(done + BuildItems(items))], x)), at))
    decreases items, 0
  {
    at := r.at;
    if items != [] {
      var es, rest, sub := items[0].entries, items[1..], path + [k];
      assert items[0] in items && Wf(items[0]);
      var built := Table(BuildKids(es), true);
      var done' := done + [built];
      var at1 := ItemRead(r, done, es, path, k, kids, x);
      var t1 := Table(kids[k := Array(done')], x);
      var r1 := Reader(Put(r.root, path, t1), at1);
      GetPut(r.root, path, t1, Table(kids[k := Array(done' + BuildItems(rest))], x));
      at := ItemsRead(r1, done', rest, path, k, kids, x);
      BuildItemsSplits(done, items);
      ReadAppend(r, [Blank, ArrayHeader(sub)] + Lines(es, sub), ItemLines(rest, sub));
      assert done' + [] == done';
    }
  }

  lemma {:induction false} BuildItemsSplits(done: seq<Node>, items: seq<Value>)
    requires items != [] && forall v :: v in items ==> v.Dict?
    ensures done + BuildItems(items) == (done + [Table(BuildKids(items[0].entries), true)]) + BuildItems(items[1..])
  {
  }

  lemma {:induction false} ItemRead(r: Reader, done: seq<Node>, es: seq<Entry>, path: seq<string>, k: string,
                                    kids: map<string, Node>, x: bool)
    returns (at: seq<string>)
    requires r.root.Table? && k !in kids && WfEntries(es)
    requires Get(r.root, path) == Some(Table(if done == [] then kids else kids[k := Array(done)], x))
    ensures ReadFrom(r, [Blank, ArrayHeader(path + [k])] + Lines(es, path + [k])) ==
            Some(Reader(Put(r.root, path, Table(kids[k := Array(done + [Table(BuildKids(es), true)])], x)), at))
    decreases es, 4
  {
    var sub, built := path + [k], Table(BuildKids(es), true);
    var begun := Table(kids[k := Array(done + [EXPLICIT])], x);
    StepArrayHeader(r, path, done, kids, x, k);
    at := OpenedRead(r.root, path, begun, k, es);
    TwoMore(r, ArrayHeader(sub), Lines(es, sub));
    LastReplaced(done, kids, x, k, built);
  }

  lemma {:induction false} LastReplaced(done: seq<Node>, kids: map<string, Node>, x: bool, k: string, n: Node)
    ensures With(Table(kids[k := Array(done + [EXPLICIT])], x), k, n) == Table(kids[k := Array(done + [n])], x)
  {
    assert (done + [EXPLICIT])[..|done|] == done;
    assert kids[k := Array(done + [EXPLICIT])][k := Array(done + [n])] == kids[k := Array(done + [n])];
  }

  lemma {:induction false} OnlyReplaced(kids: map<string, Node>, x: bool, k: string, n: Node)
    ensures With(Table(kids[k := EXPLICIT], x), k, n) == Table(kids[k := n], x)
  {
    assert kids[k := EXPLICIT][k := n] == kids[k := n];
  }

  // ------------------------------------------------------------------- the round trip

  lemma {:induction false} BuildMeans(v: Value)
    requires Wf(v)
    ensures NodeMeaning(Build(v)) == Meaning(v)
    decreases v
  {
    if IsTable(v) {
      KidsMean(v.entries);
      assert NodeMeaning(Build(v)) == D(Means(BuildKids(v.entries)));
    } else if IsTableArray(v) {
      ItemsMean(v.items);
    }
  }

  function Means(kids: map<string, Node>): map<string, Data> {
    map k | k in kids :: NodeMeaning(kids[k])
  }

  lemma {:induction false} MeansOfUpdate(kids: map<string, Node>, k: string, n: Node)
    ensures Means(kids[k := n]) == Means(kids)[k := NodeMeaning(n)]
  {
  }

  lemma {:induction false} KidsMean(es: seq<Entry>)
    requires WfEntries(es)
    ensures Means(BuildKids(es)) == Entries(es)
    decreases es, 0
  {
    if es == [] {
      assert BuildKids(es) == map[];
    } else {
      var e, rest := es[0], es[1..];
      assert e in es;
      KidsMean(rest);
      BuildMeans(e.value);
      KidsOfFirst(es);
      MeansOfUpdate(BuildKids(rest), e.key, Build(e.value));
    }
  }

  lemma {:induction false} KidsOfFirst(es: seq<Entry>)
    requires es != [] && WfEntries(es)
    ensures BuildKids(es) == BuildKids(es[1..])[es[0].key := Build(es[0].value)]
  {
    var e, rest := es[0], es[1..];
    RestIsWf(es);
    KeysAre(rest);
    forall i | 0 <= i < |rest| ensures rest[i].key != e.key { assert rest[i] in rest; }
    MapSplit(map[], e.key, Build(e.value), PlainKids(rest), SubKids(rest));
    MapSplit(map[], e.key, Build(e.value), SubKids(rest), map[]);
    FirstKid(es);
  }

  lemma {:induction false} FirstKid(es: seq<Entry>)
    requires es != []
    ensures PlainKids(es) == (if IsPlain(es[0].value) then map[es[0].key := Build(es[0].value)] else map[]) +
              PlainKids(es[1..])
    ensures SubKids(es) == (if IsPlain(es[0].value) then map[] else map[es[0].key := Build(es[0].value)]) +
              SubKids(es[1..])
  {
  }

  lemma {:induction false} KeysAre(es: seq<Entry>)
    ensures forall k :: k in BuildKids(es) <==> exists i :: 0 <= i < |es| && es[i].key == k
  {
    if es != [] {
      KeysAre(es[1..]);
      forall k ensures k in BuildKids(es) <==> k == es[0].key || k in BuildKids(es[1..]) {}
      forall k | k in BuildKids(es[1..]) ensures exists i :: 0 <= i < |es| && es[i].key == k {
        var i :| 0 <= i < |es[1..]| && es[1..][i].key == k;
        assert es[i + 1].key == k;
      }
      forall i | 0 <= i < |es| ensures es[i].key in BuildKids(es) {
        if i > 0 { assert es[1..][i - 1] == es[i]; }
      }
    }
  }

  lemma {:induction false} ItemsMean(items: seq<Value>)
    requires forall v :: v in items ==> v.Dict? && Wf(v)
    ensures NodeMeanings(BuildItems(items)) == Meanings(items)
    decreases items, 0
  {
    if items != [] {
      assert items[0] in items;
      KidsMean(items[0].entries);
      ItemsMean(items[1..]);
      var head := Table(BuildKids(items[0].entries), true);
      assert NodeMeaning(head) == D(Means(head.kids)) == Meaning(items[0]);
      assert BuildItems(items)[0] == head && BuildItems(items)[1..] == BuildItems(items[1..]);
    }
  }

  /** Reading back what the writer prints gives the document, at any nesting of tables
      and arrays of tables, with the super-table headers it leaves out. */
  lemma {:induction false} RoundTrip(doc: seq<Entry>)
    requires WfEntries(doc)
    ensures Read(Lines(doc, [])).Some?
    ensures NodeMeaning(Read(Lines(doc, [])).value) == Meaning(Dict(doc))
  {
    var at := TableRead(Reader(EXPLICIT, []), doc, true);
    KidsMean(doc);
    assert doc == [] ==> BuildKids(doc) == map[];
    var root := Table(BuildKids(doc), true);
    assert Read(Lines(doc, [])) == Some(root);
    assert NodeMeaning(root) == D(Means(root.kids));
  }
}
