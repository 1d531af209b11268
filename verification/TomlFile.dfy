/** The whole text that the TOML writer returns, read back. */
module TomlFile {
  import opened Options
  import opened Text
  import opened TomlWriter
  import opened TomlText

  // ------------------------------------------------------------------ what is printed

  function Texts(lines: seq<Line>): (r: seq<string>)
    ensures |r| == |lines|
  {
    seq(|lines|, i requires 0 <= i < |lines| => LineText(lines[i]))
  }

  /** `"\n".join(lines)`. */
  function Joined(lines: seq<Line>): string {
    if lines == [] then "" else Join(Texts(lines), '\n')
  }

  function TomlOf(doc: seq<Entry>): string {
    Collapsed(EndStripped(FrontStripped(Joined(Lines(doc, [])))) + "\n")
  }

  method ToToml(doc: seq<Entry>) returns (text: string)
    ensures text == TomlOf(doc)
  {
    var writer := new Writer();
    writer.Emit(doc, []);
    assert writer.lines == Lines(doc, []);
    text := EndStripped(FrontStripped(Joined(writer.lines))) + "\n";
    return Collapsed(text);
  }

  /** A text as TOML v1.0.0 reads it; None is an invalid one. */
  function ReadToml(text: string): Option<Data> {
    match ReadText(text)
    case None => None
    case Some(lines) =>
      match Read(lines)
      case None => None
      case Some(root) => Some(NodeMeaning(root))
  }

  // ----------------------------------------------------------- the lines of a document

  predicate AllWf(lines: seq<Line>) {
    forall l :: l in lines ==> LineWf(l)
  }

  lemma SpacedJoin(a: seq<Line>, b: seq<Line>)
    requires Spaced(a) && Spaced(b)
    ensures Spaced(a + b)
  {
    var s := a + b;
    forall i | 0 <= i < |s| && s[i] == Blank ensures i + 1 < |s| && s[i + 1] != Blank {
      if i < |a| {
        assert a[i] == Blank && s[i + 1] == a[i + 1];
      } else {
        assert b[i - |a|] == Blank && s[i + 1] == b[i - |a| + 1];
      }
    }
  }

  lemma {:induction false} PlainLinesShape(es: seq<Entry>)
    requires WfEntries(es)
    ensures Spaced(PlainLines(es)) && AllWf(PlainLines(es))
    ensures AllLinesOk(PlainLines(es)) <==> forall e :: e in es && IsPlain(e.value) ==> KeyOk(e.key) && ValueOk(e.value)
  {
    if es != [] {
      RestIsWf(es);
      PlainLinesShape(es[1..]);
      var head := if IsPlain(es[0].value) then [KeyVal(es[0].key, es[0].value)] else [];
      SpacedJoin(head, PlainLines(es[1..]));
      OkJoin(head, PlainLines(es[1..]));
      assert AllLinesOk(head) <==> (IsPlain(es[0].value) ==> KeyOk(es[0].key) && ValueOk(es[0].value)) by {
        assert IsPlain(es[0].value) ==> head[0] in head;
      }
      assert PlainLines(es) == head + PlainLines(es[1..]);
    }
  }

  lemma LinesShape(es: seq<Entry>, path: seq<string>)
    requires WfEntries(es)
    ensures Spaced(Lines(es, path)) && AllWf(Lines(es, path))
    decreases es, 2
  {
    PlainLinesShape(es);
    SubLinesShape(es, path);
    SpacedJoin(PlainLines(es), SubLines(es, path));
  }

  lemma {:induction false} SubLinesShape(es: seq<Entry>, path: seq<string>)
    requires WfEntries(es)
    ensures Spaced(SubLines(es, path)) && AllWf(SubLines(es, path))
    decreases es, 1
  {
    if es != [] {
      RestIsWf(es);
      EntryLinesShape(es[0], path);
      SubLinesShape(es[1..], path);
      SpacedJoin(EntryLines(es[0], path), SubLines(es[1..], path));
    }
  }

  lemma EntryLinesShape(e: Entry, path: seq<string>)
    requires Wf(e.value)
    ensures Spaced(EntryLines(e, path)) && AllWf(EntryLines(e, path))
    decreases e
  {
    var sub := path + [e.key];
    if IsTable(e.value) {
      var es := e.value.entries;
      LinesShape(es, sub);
      var head := if HasPlain(es) || es == [] then [Blank, Header(sub)] else [];
      SpacedJoin(head, Lines(es, sub));
    } else if IsTableArray(e.value) {
      ItemLinesShape(e.value.items, sub);
    }
  }

  lemma {:induction false} ItemLinesShape(items: seq<Value>, path: seq<string>)
    requires path != [] && forall x :: x in items ==> x.Dict? && Wf(x)
    ensures Spaced(ItemLines(items, path)) && AllWf(ItemLines(items, path))
    decreases items, 0
  {
    if items != [] {
      assert items[0] in items && Wf(items[0]);
      var head := [Blank, ArrayHeader(path)];
      LinesShape(items[0].entries, path);
      SpacedJoin(head, Lines(items[0].entries, path));
      ItemLinesShape(items[1..], path);
      SpacedJoin(head + Lines(items[0].entries, path), ItemLines(items[1..], path));
    }
  }

  // ---------------------------------------------------------- good lines, good document

  lemma OkJoin(a: seq<Line>, b: seq<Line>)
    ensures AllLinesOk(a + b) <==> AllLinesOk(a) && AllLinesOk(b)
  {
    assert forall l :: l in a + b <==> l in a || l in b;
  }

  lemma HeadOk(path: seq<string>)
    ensures AllLinesOk([Blank, Header(path)]) <==> PathOk(path)
    ensures AllLinesOk([Blank, ArrayHeader(path)]) <==> PathOk(path)
  {
    assert Header(path) in [Blank, Header(path)] && ArrayHeader(path) in [Blank, ArrayHeader(path)];
  }

  /** A bad key of a table shows in a header, also where its own header is left out. */
  lemma {:induction false} BadPathShows(es: seq<Entry>, path: seq<string>)
    requires !PathOk(path) && HasSub(es)
    ensures !AllLinesOk(SubLines(es, path))
    decreases es, 1
  {
    var e, rest := es[0], es[1..];
    assert forall x :: x in es <==> x == e || x in rest;
    OkJoin(EntryLines(e, path), SubLines(rest, path));
    if IsPlain(e.value) {
      BadPathShows(rest, path);
    } else {
      BadEntryShows(e, path);
    }
  }

  lemma BadEntryShows(e: Entry, path: seq<string>)
    requires !IsPlain(e.value) && !PathOk(path + [e.key])
    ensures !AllLinesOk(EntryLines(e, path))
    decreases e
  {
    var sub := path + [e.key];
    HeadOk(sub);
    if IsTable(e.value) {
      var es := e.value.entries;
      if HasPlain(es) || es == [] {
        OkJoin([Blank, Header(sub)], Lines(es, sub));
      } else {
        OkJoin(PlainLines(es), SubLines(es, sub));
        assert es[0] in es && HasSub(es);
        BadPathShows(es, sub);
      }
    } else {
      var items := e.value.items;
      var head := [Blank, ArrayHeader(sub)];
      OkJoin(head, Lines(items[0].entries, sub));
      OkJoin(head + Lines(items[0].entries, sub), ItemLines(items[1..], sub));
    }
  }

  lemma PathGrows(path: seq<string>, k: string)
    requires PathOk(path)
    ensures PathOk(path + [k]) <==> KeyOk(k)
  {
    assert k in path + [k] && forall x :: x in path + [k] <==> x in path || x == k;
  }

  /** Every key and every string of the document is in some line. */
  lemma LinesOkIff(es: seq<Entry>, path: seq<string>)
    requires WfEntries(es) && PathOk(path)
    ensures AllLinesOk(Lines(es, path)) <==> PairsOk(es)
    decreases es, 2
  {
    PlainLinesShape(es);
    SubLinesOkIff(es, path);
    OkJoin(PlainLines(es), SubLines(es, path));
  }

  lemma {:induction false} SubLinesOkIff(es: seq<Entry>, path: seq<string>)
    requires WfEntries(es) && PathOk(path)
    ensures AllLinesOk(SubLines(es, path)) <==> forall e :: e in es && !IsPlain(e.value) ==>
              KeyOk(e.key) && ValueOk(e.value)
    decreases es, 1
  {
    if es != [] {
      RestIsWf(es);
      EntryLinesOkIff(es[0], path);
      SubLinesOkIff(es[1..], path);
      OkJoin(EntryLines(es[0], path), SubLines(es[1..], path));
    }
  }

  lemma EntryLinesOkIff(e: Entry, path: seq<string>)
    requires Wf(e.value) && PathOk(path)
    ensures !IsPlain(e.value) ==> (AllLinesOk(EntryLines(e, path)) <==> KeyOk(e.key) && ValueOk(e.value))
    ensures IsPlain(e.value) ==> AllLinesOk(EntryLines(e, path))
    decreases e
  {
    var sub := path + [e.key];
    PathGrows(path, e.key);
    HeadOk(sub);
    if !IsPlain(e.value) && !KeyOk(e.key) {
      BadEntryShows(e, path);
    } else if IsTable(e.value) {
      LinesOkIff(e.value.entries, sub);
      OkJoin([Blank, Header(sub)], Lines(e.value.entries, sub));
    } else if IsTableArray(e.value) {
      ItemLinesOkIff(e.value.items, sub);
    }
  }

  lemma {:induction false} ItemLinesOkIff(items: seq<Value>, path: seq<string>)
    requires PathOk(path) && forall x :: x in items ==> x.Dict? && Wf(x)
    ensures AllLinesOk(ItemLines(items, path)) <==> AllOk(items)
    decreases items, 0
  {
    if items != [] {
      var es, head := items[0].entries, [Blank, ArrayHeader(path)];
      assert items[0] in items && Wf(items[0]) && forall x :: x in items <==> x == items[0] || x in items[1..];
      HeadOk(path);
      LinesOkIff(es, path);
      ItemLinesOkIff(items[1..], path);
      OkJoin(head, Lines(es, path));
      OkJoin(head + Lines(es, path), ItemLines(items[1..], path));
    }
  }

  // --------------------------------------------------------------- joining and stripping

  lemma {:induction false} JoinedText(lines: seq<Line>)
    requires lines != []
    ensures Joined(lines) + "\n" == TextOf(lines)
    ensures |lines| > 1 ==> Joined(lines) == LineText(lines[0]) + "\n" + Joined(lines[1..])
  {
    var a := LineText(lines[0]);
    JoinedSplits(lines);
    if |lines| == 1 {
      assert TextOf(lines[1..]) == "";
      assert a + ("\n" + "") == a + "\n";
    } else {
      JoinedText(lines[1..]);
      OneMoreLine(a, Joined(lines[1..]));
    }
  }

  lemma JoinedSplits(lines: seq<Line>)
    requires lines != []
    ensures Joined(lines) == if |lines| == 1 then LineText(lines[0]) else LineText(lines[0]) + "\n" + Joined(lines[1..])
  {
    assert Texts(lines)[1..] == Texts(lines[1..]);
    assert ['\n'] == "\n";
  }

  lemma OneMoreLine(a: string, b: string)
    ensures a + "\n" + b + "\n" == a + ("\n" + (b + "\n"))
  {
  }

  /** The lines without a blank one in front. */
  function Trimmed(lines: seq<Line>): seq<Line> {
    if lines != [] && lines[0] == Blank then lines[1..] else lines
  }

  lemma TrimmedShape(lines: seq<Line>)
    requires lines != [] && Spaced(lines) && AllWf(lines)
    ensures var t := Trimmed(lines); t != [] && t[0] != Blank && Spaced(t) && AllWf(t)
    ensures Trimmed(lines)[|Trimmed(lines)| - 1] != Blank
    ensures AllLinesOk(Trimmed(lines)) <==> AllLinesOk(lines)
  {
    var t := Trimmed(lines);
    assert lines == if lines[0] == Blank then [Blank] + t else t;
    if lines[0] == Blank {
      assert lines[0 + 1] == t[0];
      forall i | 0 <= i < |t| && t[i] == Blank ensures i + 1 < |t| && t[i + 1] != Blank {
        assert lines[i + 1] == Blank;
      }
    }
    assert t[|t| - 1] == lines[|lines| - 1];
  }

  /** The joined text of lines that begin and end with no blank one. */
  lemma {:induction false} JoinedEnds(t: seq<Line>)
    requires t != [] && t[|t| - 1] != Blank && AllWf(t)
    ensures Joined(t) != "" && Joined(t)[|Joined(t)| - 1] != '\n'
    ensures t[0] != Blank ==> Joined(t)[0] != '\n'
  {
    assert t[0] in t;
    if |t| == 1 {
      assert t == [t[0]];
      JoinedOne(t[0]);
      LineIsTame(t[0]);
    } else {
      JoinedEnds(t[1..]);
      JoinedText(t);
      Ends(LineText(t[0]), Joined(t[1..]));
      if t[0] != Blank { LineIsTame(t[0]); }
    }
  }

  lemma JoinedOne(line: Line)
    ensures Joined([line]) == LineText(line)
  {
    assert Texts([line]) == [LineText(line)];
  }

  lemma Ends(a: string, b: string)
    requires b != ""
    ensures var s := a + "\n" + b; s[|s| - 1] == b[|b| - 1] && (a != "" ==> s[0] == a[0])
  {
  }

  lemma StrippedText(s: string, j: string)
    requires s == j || s == "\n" + j
    requires j != "" && j[0] != '\n' && j[|j| - 1] != '\n'
    ensures EndStripped(FrontStripped(s)) == j
  {
    assert ("\n" + j)[1..] == j;
    assert FrontStripped(j) == j;
  }

  lemma LeadingBlank(lines: seq<Line>)
    requires |lines| > 1 && lines[0] == Blank
    ensures Joined(lines) == "\n" + Joined(lines[1..])
  {
    JoinedSplits(lines);
    assert "" + "\n" == "\n";
  }

  lemma Stripped(lines: seq<Line>)
    requires lines != [] && Spaced(lines) && AllWf(lines)
    ensures EndStripped(FrontStripped(Joined(lines))) + "\n" == TextOf(Trimmed(lines))
  {
    var t := Trimmed(lines);
    TrimmedShape(lines);
    JoinedEnds(t);
    if lines[0] == Blank {
      LeadingBlank(lines);
    }
    StrippedText(Joined(lines), Joined(t));
    JoinedText(t);
  }

  /** What the writer returns is the text of its lines, without a blank one in front. */
  lemma TomlIsTheLines(doc: seq<Entry>)
    requires WfEntries(doc) && doc != []
    ensures Lines(doc, []) != [] && TomlOf(doc) == TextOf(Trimmed(Lines(doc, [])))
  {
    var lines := Lines(doc, []);
    LinesShape(doc, []);
    SomeLine(doc);
    Stripped(lines);
    TrimmedShape(lines);
    TextIsCalm(Trimmed(lines), 0);
    CalmStays(TextOf(Trimmed(lines)));
  }

  lemma SomeLine(doc: seq<Entry>)
    requires WfEntries(doc) && doc != []
    ensures Lines(doc, []) != []
  {
    KeysAre(doc);
    assert doc[0].key in BuildKids(doc);
    var at := TableRead(Reader(EXPLICIT, []), doc, true);
    assert Put(EXPLICIT, [], Table(BuildKids(doc), true)) != EXPLICIT;
  }

  // ------------------------------------------------------------------- the round trip

  lemma BlanksAreNothing(lines: seq<Line>)
    requires Read(lines).Some?
    ensures Read(Trimmed(lines) + [Blank]) == Read(lines)
  {
    var r := Reader(EXPLICIT, []);
    if lines != [] && lines[0] == Blank {
      assert ReadFrom(r, lines) == ReadFrom(r, lines[1..]);
    }
    ReadAppend(r, Trimmed(lines), [Blank]);
    var end := ReadFrom(r, Trimmed(lines)).value;
    assert [Blank][1..] == [];
    assert ReadFrom(end, [Blank]) == Some(end);
  }

  lemma EmptyDocument()
    ensures ReadToml(TomlOf([])) == Some(Meaning(Dict([])))
  {
    assert Lines([], []) == [];
    assert "" + "\n" == "\n" && "\n"[1..] == "";
    assert NewlineRun("\n") == 1 && "\n"[..1] == "\n" && Collapsed("") == "";
    assert TomlOf([]) == "\n" + "" == "\n";
    assert ReadText("") == Some([Blank]) && ReadText("\n") == Some([Blank] + [Blank]);
    BlanksAreNothing([]);
    BlanksAreNothing([Blank]);
    assert Trimmed([Blank]) == [];
    assert [Blank] + [Blank] == [Blank, Blank];
    var r := Reader(EXPLICIT, []);
    assert [Blank, Blank][1..] == [Blank] && [Blank][1..] == [];
    assert ReadFrom(r, [Blank, Blank]) == ReadFrom(r, [Blank]) == Some(r);
    assert Read([Blank, Blank]) == Some(EXPLICIT);
    assert NodeMeaning(EXPLICIT) == D(Means(map[]));
    assert Means(map[]) == map[];
  }

  /** The text that the writer returns reads back as the document, at any nesting, exactly
      when no string of the document holds DEL and no key is a bare one followed by a
      newline. With either, the text is no TOML at all. */
  lemma TomlRoundTrip(doc: seq<Entry>)
    requires WfEntries(doc)
    ensures ReadToml(TomlOf(doc)) == if ValueOk(Dict(doc)) then Some(Meaning(Dict(doc))) else None
  {
    if doc == [] {
      EmptyDocument();
    } else {
      var lines := Lines(doc, []);
      TomlIsTheLines(doc);
      LinesShape(doc, []);
      TrimmedShape(lines);
      TextReads(Trimmed(lines));
      LinesOkIff(doc, []);
      RoundTrip(doc);
      BlanksAreNothing(lines);
    }
  }
}
