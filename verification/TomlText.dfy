/** The text of the TOML writer's lines, and a strict reader of single lines: which keys
    and values survive, and which make a line that TOML v1.0.0 refuses. */
module TomlText {
  import opened Options
  import opened Text
  import opened TomlWriter

  // ------------------------------------------------------------- strings, as printed

  const DEL := 127 as char

  function HexDigit(n: nat): char
    requires n < 16
  {
    if n < 10 then DigitOf(n) else ('a' as int + n - 10) as char
  }

  /** JSON escapes the quote, the backslash and the characters below a space; no others. */
  function Escape(c: char): string {
    if c == '"' then "\\\""
    else if c == '\\' then "\\\\"
    else if c == '\n' then "\\n"
    else if c == '\r' then "\\r"
    else if c == '\t' then "\\t"
    else if c as int == 8 then "\\b"
    else if c as int == 12 then "\\f"
    else if c as int < 32 then "\\u00" + [HexDigit(c as int / 16), HexDigit(c as int % 16)]
    else [c]
  }

  function Escaped(s: string): string {
    if s == "" then "" else Escape(s[0]) + Escaped(s[1..])
  }

  /** `json.dumps(s, ensure_ascii=False)`. */
  function Quoted(s: string): string {
    "\"" + Escaped(s) + "\""
  }

  predicate BareChar(c: char) {
    'A' <= c <= 'Z' || 'a' <= c <= 'z' || '0' <= c <= '9' || c == '_' || c == '-'
  }

  predicate Bare(k: string) {
    k != "" && forall c :: c in k ==> BareChar(c)
  }

  /** The pattern `^[A-Za-z0-9_-]+$` also matches a bare key with one newline after it. */
  predicate MatchesBareKey(k: string) {
    Bare(k) || NewlineKey(k)
  }

  predicate NewlineKey(k: string) {
    k != "" && k[|k| - 1] == '\n' && Bare(k[..|k| - 1])
  }

  function KeyText(k: string): string {
    if MatchesBareKey(k) then k else Quoted(k)
  }

  // -------------------------------------------------------------- values, as printed

  function IntText(i: int): string {
    if i < 0 then "-" + Decimal(-i) else Decimal(i)
  }

  function ValueText(v: Value): string {
    match v
    case Bool(b) => if b then "true" else "false"
    case Int(i) => IntText(i)
    case Str(s) => Quoted(s)
    case List(items) => "[" + ItemsText(items) + "]"
    case Dict(es) => "{ " + PairsText(es) + " }"
  }

  function ItemsText(vs: seq<Value>): string {
    if vs == [] then "" else ValueText(vs[0]) + (if |vs| == 1 then "" else ", ") + ItemsText(vs[1..])
  }

  function PairsText(es: seq<Entry>): string {
    if es == [] then ""
    else KeyText(es[0].key) + " = " + ValueText(es[0].value) + (if |es| == 1 then "" else ", ") + PairsText(es[1..])
  }

  function PathText(path: seq<string>): string {
    if path == [] then "" else KeyText(path[0]) + (if |path| == 1 then "" else ".") + PathText(path[1..])
  }

  function LineText(line: Line): string {
    match line
    case Blank => ""
    case KeyVal(k, v) => KeyText(k) + " = " + ValueText(v)
    case Header(path) => "[" + PathText(path) + "]"
    case ArrayHeader(path) => "[[" + PathText(path) + "]]"
  }

  // ------------------------------------------------------------------- reading a line

  datatype Got<T> = Fail | Got(value: T, rest: string)

  function Skip(s: string): (r: string)
    ensures |r| <= |s|
  {
    if s != "" && (s[0] == ' ' || s[0] == '\t') then Skip(s[1..]) else s
  }

  predicate Starts(s: string, c: char) {
    s != "" && s[0] == c
  }

  function HexValue(c: char): Option<nat> {
    if '0' <= c <= '9' then Some(c as int - '0' as int)
    else if 'a' <= c <= 'f' then Some(c as int - 'a' as int + 10)
    else if 'A' <= c <= 'F' then Some(c as int - 'A' as int + 10)
    else None
  }

  function FourHex(s: string): Option<nat>
    requires |s| >= 4
  {
    var a, b, c, d := HexValue(s[0]), HexValue(s[1]), HexValue(s[2]), HexValue(s[3]);
    if a.None? || b.None? || c.None? || d.None? then None
    else Some(4096 * a.value + 256 * b.value + 16 * c.value + d.value)
  }

  /** What follows a backslash. */
  function ReadEscape(s: string): (r: Got<char>)
    ensures r.Got? ==> |r.rest| < |s|
  {
    if s == "" then Fail
    else if s[0] == 'b' then Got(8 as char, s[1..])
    else if s[0] == 't' then Got('\t', s[1..])
    else if s[0] == 'n' then Got('\n', s[1..])
    else if s[0] == 'f' then Got(12 as char, s[1..])
    else if s[0] == 'r' then Got('\r', s[1..])
    else if s[0] == '"' || s[0] == '\\' then Got(s[0], s[1..])
    else if s[0] == 'u' && |s| >= 5 && FourHex(s[1..]).Some? then
      var n := FourHex(s[1..]).value;
      if 0xD800 <= n < 0xE000 || n > 0xFFFF then Fail else Got(n as char, s[5..])
    else Fail
  }

  /** The inside of a basic string: no control character but the tab stands for itself. */
  function ReadBody(s: string): (r: Got<string>)
    ensures r.Got? ==> |r.rest| < |s|
    decreases |s|
  {
    if s == "" then Fail
    else if s[0] == '"' then Got("", s[1..])
    else if s[0] == '\\' then
      var e := ReadEscape(s[1..]);
      if e.Fail? then Fail else Then(e.value, ReadBody(e.rest))
    else if (s[0] as int < 32 && s[0] != '\t') || s[0] == DEL then Fail
    else Then(s[0], ReadBody(s[1..]))
  }

  function Then(c: char, r: Got<string>): Got<string> {
    if r.Fail? then Fail else Got([c] + r.value, r.rest)
  }

  function BareRun(s: string): (n: nat)
    ensures n <= |s|
  {
    if s != "" && BareChar(s[0]) then 1 + BareRun(s[1..]) else 0
  }

  function ReadKey(s: string): (r: Got<string>)
    ensures r.Got? ==> |r.rest| < |s|
  {
    if Starts(s, '"') then ReadBody(s[1..])
    else
      var n := BareRun(s);
      if n == 0 then Fail else Got(s[..n], s[n..])
  }

  function DigitRun(s: string): (n: nat)
    ensures n <= |s|
    ensures forall c :: c in s[..n] ==> IsDigit(c)
  {
    if s != "" && IsDigit(s[0]) then
      var n := 1 + DigitRun(s[1..]);
      assert s[..n] == [s[0]] + s[1..][..n - 1];
      n
    else 0
  }

  /** A decimal integer without leading zeros. */
  function ReadNat(s: string): (r: Got<nat>)
    ensures r.Got? ==> |r.rest| < |s|
  {
    var n := DigitRun(s);
    if n == 0 || (n > 1 && s[0] == '0') then Fail else Got(Number(s[..n]), s[n..])
  }

  function ReadInt(s: string): (r: Got<int>)
    ensures r.Got? ==> |r.rest| < |s|
  {
    if Starts(s, '-') then
      var r := ReadNat(s[1..]);
      if r.Fail? then Fail
      else
        var n: int := r.value;
        Got(-n, r.rest)
    else
      var r := ReadNat(s);
      if r.Fail? then Fail
      else
        var i: int := r.value;
        Got(i, r.rest)
  }

  function ReadValue(s: string): (r: Got<Value>)
    ensures r.Got? ==> |r.rest| < |s|
    decreases |s|, 0
  {
    if Starts(s, '"') then
      var r := ReadBody(s[1..]);
      if r.Fail? then Fail else Got(Str(r.value), r.rest)
    else if "true" <= s then Got(Bool(true), s[4..])
    else if "false" <= s then Got(Bool(false), s[5..])
    else if Starts(s, '[') then
      var r := ReadItems(Skip(s[1..]));
      if r.Fail? then Fail else Got(List(r.value), r.rest)
    else if Starts(s, '{') then
      var t := Skip(s[1..]);
      if Starts(t, '}') then Got(Dict([]), t[1..])
      else
        var r := ReadPairs(t);
        if r.Fail? then Fail else Got(Dict(r.value), r.rest)
    else
      var r := ReadInt(s);
      if r.Fail? then Fail else Got(Int(r.value), r.rest)
  }

  function ReadItems(s: string): (r: Got<seq<Value>>)
    ensures r.Got? ==> |r.rest| < |s|
    decreases |s|, 1
  {
    if Starts(s, ']') then Got([], s[1..])
    else
      var v := ReadValue(s);
      if v.Fail? then Fail
      else
        var t := Skip(v.rest);
        if Starts(t, ']') then Got([v.value], t[1..])
        else if Starts(t, ',') then
          var more := ReadItems(Skip(t[1..]));
          if more.Fail? then Fail else Got([v.value] + more.value, more.rest)
        else Fail
  }

  /** At least one pair of an inline table, up to the closing brace; keys are distinct. */
  function ReadPairs(s: string): (r: Got<seq<Entry>>)
    ensures r.Got? ==> |r.rest| < |s|
    decreases |s|, 1
  {
    var k := ReadKey(s);
    if k.Fail? || !Starts(Skip(k.rest), '=') then Fail
    else
      var v := ReadValue(Skip(Skip(k.rest)[1..]));
      if v.Fail? then Fail
      else
        var t := Skip(v.rest);
        if Starts(t, '}') then Got([Entry(k.value, v.value)], t[1..])
        else if Starts(t, ',') then
          var more := ReadPairs(Skip(t[1..]));
          if more.Fail? || exists e :: e in more.value && e.key == k.value then Fail
          else Got([Entry(k.value, v.value)] + more.value, more.rest)
        else Fail
  }

  function ReadPath(s: string): (r: Got<seq<string>>)
    ensures r.Got? ==> |r.rest| < |s|
    decreases |s|
  {
    var k := ReadKey(Skip(s));
    if k.Fail? then Fail
    else
      var t := Skip(k.rest);
      if Starts(t, '.') then
        var more := ReadPath(t[1..]);
        if more.Fail? then Fail else Got([k.value] + more.value, more.rest)
      else Got([k.value], t)
  }

  /** One statement, up to the end of its line. */
  function ReadStatement(s: string): (r: Got<Line>)
    ensures r.Got? ==> |r.rest| <= |s| && (r.rest == "" || r.rest[0] == '\n')
  {
    if Skip(s) == "" || Starts(Skip(s), '\n') then Got(Blank, Skip(s))
    else if "[[" <= s then
      var p := ReadPath(s[2..]);
      if p.Got? && "]]" <= p.rest && AtEnd(p.rest[2..]) then Got(ArrayHeader(p.value), Skip(p.rest[2..])) else Fail
    else if "[" <= s then
      var p := ReadPath(s[1..]);
      if p.Got? && "]" <= p.rest && AtEnd(p.rest[1..]) then Got(Header(p.value), Skip(p.rest[1..])) else Fail
    else
      var k := AtValue(s);
      if k.None? then Fail
      else
        var v := ReadValue(k.value.1);
        if v.Got? && AtEnd(v.rest) then Got(KeyVal(k.value.0, v.value), Skip(v.rest)) else Fail
  }

  predicate AtEnd(s: string) {
    Skip(s) == "" || Starts(Skip(s), '\n')
  }

  /** A pair as far as its value: None where the key is refused. */
  function AtValue(s: string): (r: Option<(string, string)>)
    ensures r.Some? ==> |r.value.1| < |s|
  {
    var k := ReadKey(s);
    if k.Fail? || !Starts(Skip(k.rest), '=') then None else Some((k.value, Skip(Skip(k.rest)[1..])))
  }

  /** The statements of a text, line by line. */
  function ReadText(s: string): Option<seq<Line>>
    decreases |s|
  {
    var r := ReadStatement(s);
    if r.Fail? then None
    else if r.rest == "" then Some([r.value])
    else
      var more := ReadText(r.rest[1..]);
      if more.None? then None else Some([r.value] + more.value)
  }

  // ------------------------------------------------------------------- what survives

  /** Every character but DEL: JSON leaves it as it is, and TOML refuses it. */
  predicate StringOk(s: string) {
    DEL !in s
  }

  predicate KeyOk(k: string) {
    StringOk(k) && !NewlineKey(k)
  }

  predicate ValueOk(v: Value) {
    match v
    case Str(s) => StringOk(s)
    case List(items) => forall x :: x in items ==> ValueOk(x)
    case Dict(es) => forall e :: e in es ==> KeyOk(e.key) && ValueOk(e.value)
    case _ => true
  }

  predicate LineOk(line: Line) {
    match line
    case Blank => true
    case KeyVal(k, v) => KeyOk(k) && ValueOk(v)
    case Header(path) => forall k :: k in path ==> KeyOk(k)
    case ArrayHeader(path) => forall k :: k in path ==> KeyOk(k)
  }

  // --------------------------------------------------------------------- strings read

  lemma EscapeReads(c: char, rest: string)
    ensures c == DEL ==> ReadBody(Escape(c) + rest) == Fail
    ensures c != DEL ==> ReadBody(Escape(c) + rest) == Then(c, ReadBody(rest))
  {
    var e := Escape(c);
    var s := e + rest;
    if |e| == 1 {
      assert s[1..] == rest;
    } else if |e| == 2 {
      assert s[1..] == [e[1]] + rest && s[1..][1..] == rest;
    } else {
      LowEscape(c, rest);
    }
  }

  lemma LowEscape(c: char, rest: string)
    requires c as int < 32 && |Escape(c)| == 6
    ensures ReadBody(Escape(c) + rest) == Then(c, ReadBody(rest))
  {
    var s := Escape(c) + rest;
    assert s[1..][0] == 'u' && s[1..][1..] == s[2..] && s[2..][4..] == rest && s[1..][5..] == rest;
    LowHex(c, rest);
    assert ReadBody(s) == Then(c, ReadBody(rest));
  }

  lemma LowHex(c: char, rest: string)
    requires c as int < 32 && |Escape(c)| == 6
    ensures FourHex((Escape(c) + rest)[2..]) == Some(c as int)
  {
    var t := (Escape(c) + rest)[2..];
    assert t[0] == '0' && t[1] == '0' && t[2] == HexDigit(c as int / 16) && t[3] == HexDigit(c as int % 16);
    HexReads(c as int / 16);
    HexReads(c as int % 16);
  }

  lemma HexReads(n: nat)
    requires n < 16
    ensures HexValue(HexDigit(n)) == Some(n)
  {
  }

  /** A printed string reads back unless it holds DEL. */
  lemma {:induction false} StringReads(s: string, rest: string)
    ensures ReadBody(Escaped(s) + "\"" + rest) == if StringOk(s) then Got(s, rest) else Fail
  {
    if s == "" {
      assert Escaped(s) + "\"" + rest == "\"" + rest;
      assert ("\"" + rest)[1..] == rest;
    } else {
      var tail := Escaped(s[1..]) + "\"" + rest;
      assert Escaped(s) + "\"" + rest == Escape(s[0]) + tail;
      EscapeReads(s[0], tail);
      StringReads(s[1..], rest);
      assert s == [s[0]] + s[1..];
    }
  }

  lemma QuotedReads(s: string, rest: string)
    ensures Starts(Quoted(s) + rest, '"')
    ensures ReadBody((Quoted(s) + rest)[1..]) == if StringOk(s) then Got(s, rest) else Fail
  {
    assert (Quoted(s) + rest)[1..] == Escaped(s) + "\"" + rest;
    StringReads(s, rest);
  }

  lemma {:induction false} BareReads(k: string, rest: string)
    requires Bare(k) && (rest == "" || !BareChar(rest[0]))
    ensures BareRun(k + rest) == |k| && !Starts(k + rest, '"')
  {
    assert k[0] in k;
    if |k| == 1 {
      assert (k + rest)[1..] == rest;
    } else {
      assert (k + rest)[1..] == k[1..] + rest;
      forall c | c in k[1..] ensures BareChar(c) { assert c in k; }
      BareReads(k[1..], rest);
    }
  }

  /** Where a key that a newline ends leaves the reader: in front of the newline. */
  predicate Stuck(r: Got<string>) {
    r.Fail? || Starts(r.rest, '\n')
  }

  lemma KeyReads(k: string, rest: string)
    requires rest == "" || !BareChar(rest[0])
    ensures if KeyOk(k) then ReadKey(KeyText(k) + rest) == Got(k, rest) else Stuck(ReadKey(KeyText(k) + rest))
    ensures KeyText(k) != "" && (BareChar(KeyText(k)[0]) || KeyText(k)[0] == '"')
  {
    var s := KeyText(k) + rest;
    if Bare(k) {
      assert k[0] in k && k[|k| - 1] in k;
      assert DEL !in k && !NewlineKey(k);
      BareReads(k, rest);
      assert s[..|k|] == k && s[|k|..] == rest;
    } else if NewlineKey(k) {
      var b := k[..|k| - 1];
      assert b[0] in b && k[0] == b[0];
      assert s == b + ("\n" + rest);
      BareReads(b, "\n" + rest);
      assert s[|b|..] == "\n" + rest;
    } else {
      QuotedReads(k, rest);
    }
  }

  // ----------------------------------------------------------------------- values read

  lemma SkipNothing(s: string)
    requires s == "" || (s[0] != ' ' && s[0] != '\t')
    ensures Skip(s) == s && Skip(" " + s) == s
  {
    assert (" " + s)[1..] == s;
  }

  lemma {:induction false} NoLeadingZero(n: nat)
    ensures Decimal(n)[0] == '0' ==> n == 0
    ensures n > 0 ==> Decimal(n)[0] != '0'
  {
    if n >= 10 {
      NoLeadingZero(n / 10);
      assert Decimal(n)[0] == Decimal(n / 10)[0];
    }
  }

  lemma {:induction false} DigitsRead(d: string, rest: string)
    requires (forall c :: c in d ==> IsDigit(c)) && (rest == "" || !IsDigit(rest[0]))
    ensures DigitRun(d + rest) == |d|
  {
    if d == "" {
      assert d + rest == rest;
    } else {
      assert d[0] in d && (d + rest)[1..] == d[1..] + rest;
      forall c | c in d[1..] ensures IsDigit(c) { assert c in d; }
      DigitsRead(d[1..], rest);
    }
  }

  lemma NatReads(n: nat, rest: string)
    requires rest == "" || !IsDigit(rest[0])
    ensures ReadNat(Decimal(n) + rest) == Got(n, rest)
    ensures IsDigit(Decimal(n)[0])
  {
    var d := Decimal(n);
    assert d[0] in d;
    DigitsRead(d, rest);
    NoLeadingZero(n);
    assert (d + rest)[..|d|] == d && (d + rest)[|d|..] == rest;
    if n == 0 { assert |d| == 1; }
  }

  lemma SignReads(d: string, n: int, rest: string)
    requires n >= 0 && d != "" && IsDigit(d[0]) && ReadNat(d + rest) == Got(n, rest)
    ensures ReadInt(d + rest) == Got(n, rest) && ReadInt(("-" + d) + rest) == Got(-n, rest)
  {
    assert (("-" + d) + rest)[1..] == d + rest;
  }

  lemma IntReads(i: int, rest: string)
    requires rest == "" || !IsDigit(rest[0])
    ensures ReadInt(IntText(i) + rest) == Got(i, rest)
    ensures IsDigit(IntText(i)[0]) || IntText(i)[0] == '-'
  {
    var n: nat := if i < 0 then -i else i;
    NatReads(n, rest);
    SignReads(Decimal(n), n, rest);
  }

  /** The first character of a printed value. */
  predicate ValueStart(c: char) {
    c in "\"tf[{-" || IsDigit(c)
  }

  lemma ValueStarts(v: Value)
    ensures ValueText(v) != "" && ValueStart(ValueText(v)[0])
  {
    if v.Int? {
      IntReads(v.number, "");
    }
  }

  /** Text after a value in any of its places. */
  predicate Follows(rest: string) {
    rest == "" || rest[0] in ",] }\n"
  }

  lemma ValueReads(v: Value, rest: string)
    requires Wf(v) && Follows(rest)
    ensures ReadValue(ValueText(v) + rest) == if ValueOk(v) then Got(v, rest) else Fail
    decreases v, 0
  {
    var s := ValueText(v) + rest;
    match v {
      case Bool(b) => assert s[if b then 4 else 5..] == rest;
      case Int(i) =>
        IntReads(i, rest);
        assert s[0] == IntText(i)[0];
      case Str(t) => QuotedReads(t, rest);
      case List(items) => ListReads(items, rest);
      case Dict(es) => DictReads(es, rest);
    }
  }

  predicate AllOk(vs: seq<Value>) {
    forall x :: x in vs ==> ValueOk(x)
  }

  predicate PairsOk(es: seq<Entry>) {
    forall e :: e in es ==> KeyOk(e.key) && ValueOk(e.value)
  }

  lemma ListReads(items: seq<Value>, rest: string)
    requires forall x :: x in items ==> Wf(x)
    ensures ReadValue(ValueText(List(items)) + rest) == if AllOk(items) then Got(List(items), rest) else Fail
    decreases items, 2
  {
    var s := ValueText(List(items)) + rest;
    var inner := ItemsText(items) + "]" + rest;
    assert s == "[" + inner && s[1..] == inner;
    if items == [] {
      assert inner == "]" + rest && inner[1..] == rest;
    } else {
      ValueStarts(items[0]);
      assert inner[0] == ValueText(items[0])[0];
      ItemsRead(items, rest);
    }
    SkipNothing(inner);
  }

  lemma LastItem(s: string, v: Value, rest: string)
    requires s != "" && s[0] != ']' && ReadValue(s) == Got(v, "]" + rest)
    ensures ReadItems(s) == Got([v], rest)
  {
    SkipNothing("]" + rest);
    assert ("]" + rest)[1..] == rest;
  }

  lemma OneMoreItem(s: string, v: Value, tail: string)
    requires s != "" && s[0] != ']' && ReadValue(s) == Got(v, ", " + tail) &&
               (tail == "" || (tail[0] != ' ' && tail[0] != '\t'))
    ensures ReadItems(s) == if ReadItems(tail).Fail? then Fail
              else Got([v] + ReadItems(tail).value, ReadItems(tail).rest)
  {
    var t := ", " + tail;
    SkipNothing(t);
    assert t[0] == ',' && t[1..] == " " + tail;
    SkipNothing(tail);
    assert Skip(t) == t && Skip(t[1..]) == tail && !Starts(s, ']');
  }

  lemma {:induction false} ItemsTextSplits(vs: seq<Value>, rest: string)
    requires vs != []
    ensures ItemsText(vs) + "]" + rest ==
            ValueText(vs[0]) + if |vs| == 1 then "]" + rest else ", " + (ItemsText(vs[1..]) + "]" + rest)
  {
  }

  predicate Inked(s: string) {
    s != "" && s[0] != ' ' && s[0] != '\t'
  }

  /** One item and the rest of the list, given how each of them reads. */
  lemma ItemsStep(s: string, v: Value, okV: bool, more: seq<Value>, okMore: bool, tail: string, rest: string)
    requires s != "" && s[0] != ']'
    requires ReadValue(s) == if okV then Got(v, if more == [] then "]" + rest else ", " + tail) else Fail
    requires more != [] ==> Inked(tail) && ReadItems(tail) == if okMore then Got(more, rest) else Fail
    ensures ReadItems(s) == if okV && (more == [] || okMore) then Got([v] + more, rest) else Fail
  {
    if okV {
      if more == [] {
        LastItem(s, v, rest);
        assert [v] + more == [v];
      } else {
        OneMoreItem(s, v, tail);
      }
    }
  }

  lemma ItemsInk(vs: seq<Value>, rest: string)
    requires vs != []
    ensures Inked(ItemsText(vs) + "]" + rest) && (ItemsText(vs) + "]" + rest)[0] != ']'
  {
    ItemsTextSplits(vs, rest);
    ValueStarts(vs[0]);
  }

  lemma {:induction false} ItemsRead(vs: seq<Value>, rest: string)
    requires vs != [] && forall x :: x in vs ==> Wf(x)
    ensures ReadItems(ItemsText(vs) + "]" + rest) == if AllOk(vs) then Got(vs, rest) else Fail
    decreases vs, 1
  {
    var v, more := vs[0], vs[1..];
    var s, tail := ItemsText(vs) + "]" + rest, ItemsText(more) + "]" + rest;
    assert v in vs && forall x :: x in vs <==> x == v || x in more;
    ItemsTextSplits(vs, rest);
    ItemsInk(vs, rest);
    ValueReads(v, if more == [] then "]" + rest else ", " + tail);
    if more != [] {
      ItemsInk(more, rest);
      ItemsRead(more, rest);
    }
    ItemsStep(s, v, ValueOk(v), more, AllOk(more), tail, rest);
    assert vs == [v] + more;
  }

  lemma DictReads(es: seq<Entry>, rest: string)
    requires WfEntries(es)
    ensures ReadValue(ValueText(Dict(es)) + rest) == if PairsOk(es) then Got(Dict(es), rest) else Fail
    decreases es, 2
  {
    if es == [] {
      EmptyDictReads(rest);
    } else {
      PairsInk(es, rest);
      PairsRead(es, rest);
      DictText(es, rest);
      InBraces(ValueText(Dict(es)) + rest, PairsText(es) + " }" + rest);
    }
  }

  lemma DictText(es: seq<Entry>, rest: string)
    ensures ValueText(Dict(es)) + rest == "{ " + (PairsText(es) + " }" + rest)
  {
    Wrap("{ ", PairsText(es), " }", rest);
  }

  lemma Wrap(a: string, b: string, c: string, rest: string)
    ensures a + b + c + rest == a + (b + c + rest)
  {
  }

  lemma PairsOkSplits(es: seq<Entry>)
    requires es != []
    ensures PairsOk(es) <==> KeyOk(es[0].key) && ValueOk(es[0].value) && PairsOk(es[1..])
    ensures es == [Entry(es[0].key, es[0].value)] + es[1..]
  {
    assert forall e :: e in es <==> e == es[0] || e in es[1..];
  }

  lemma PairsInk(es: seq<Entry>, rest: string)
    requires es != []
    ensures Inked(PairsText(es) + " }" + rest) && (PairsText(es) + " }" + rest)[0] != '}'
  {
    PairsTextSplits(es, rest);
    KeyStarts(es[0].key);
  }

  lemma KeyStarts(k: string)
    ensures Inked(KeyText(k)) && KeyText(k)[0] !in "[]}.="
  {
    KeyReads(k, "");
  }

  lemma EmptyDictReads(rest: string)
    ensures ReadValue(ValueText(Dict([])) + rest) == Got(Dict([]), rest)
  {
    var s := ValueText(Dict([])) + rest;
    var close := "}" + rest;
    assert s == "{" + (" " + (" " + close)) && s[1..] == " " + (" " + close) &&
        (" " + (" " + close))[1..] == " " + close;
    SkipNothing(close);
    assert Skip(s[1..]) == close && close[1..] == rest;
  }

  lemma InBraces(s: string, inner: string)
    requires s == "{ " + inner && inner != "" && inner[0] != ' ' && inner[0] != '\t' && inner[0] != '}'
    ensures ReadValue(s) == if ReadPairs(inner).Fail? then Fail
              else Got(Dict(ReadPairs(inner).value), ReadPairs(inner).rest)
  {
    assert s[1..] == " " + inner;
    SkipNothing(inner);
  }

  lemma EqualsSign(value: string)
    requires value != "" && value[0] != ' ' && value[0] != '\t'
    ensures Starts(Skip(" = " + value), '=') && Skip(Skip(" = " + value)[1..]) == value
  {
    assert " = " + value == " " + ("= " + value) && ("= " + value)[1..] == " " + value;
    SkipNothing("= " + value);
    SkipNothing(value);
  }

  lemma PairKeyReads(k: string, value: string)
    requires value != "" && value[0] != ' ' && value[0] != '\t'
    ensures AtValue(KeyText(k) + (" = " + value)) == if KeyOk(k) then Some((k, value)) else None
  {
    var s := KeyText(k) + (" = " + value);
    KeyReads(k, " = " + value);
    EqualsSign(value);
    if !KeyOk(k) && ReadKey(s).Got? {
      SkipNothing(ReadKey(s).rest);
    }
  }

  lemma LastPair(s: string, k: string, value: string, v: Value, rest: string)
    requires AtValue(s) == Some((k, value)) && ReadValue(value) == Got(v, " }" + rest)
    ensures ReadPairs(s) == Got([Entry(k, v)], rest)
  {
    assert " }" + rest == " " + ("}" + rest) && ("}" + rest)[1..] == rest;
    SkipNothing("}" + rest);
  }

  lemma OneMorePair(s: string, k: string, value: string, v: Value, tail: string)
    requires AtValue(s) == Some((k, value)) && ReadValue(value) == Got(v, ", " + tail)
    requires tail == "" || (tail[0] != ' ' && tail[0] != '\t')
    ensures ReadPairs(s) ==
            if ReadPairs(tail).Fail? || exists e :: e in ReadPairs(tail).value && e.key == k then Fail
            else Got([Entry(k, v)] + ReadPairs(tail).value, ReadPairs(tail).rest)
  {
    SkipNothing(", " + tail);
    assert (", " + tail)[1..] == " " + tail;
    SkipNothing(tail);
  }

  lemma BadPair(s: string)
    requires AtValue(s) == None || ReadValue(AtValue(s).value.1).Fail?
    ensures ReadPairs(s) == Fail
  {
  }

  lemma Regroup(k: string, e: string, v: string, sep: string, p: string, c: string, rest: string)
    ensures k + e + v + sep + p + c + rest == k + (e + (v + (sep + (p + c + rest))))
  {
  }

  lemma PairsTextSplits(es: seq<Entry>, rest: string)
    requires es != []
    ensures PairsText(es) + " }" + rest ==
            KeyText(es[0].key) + (" = " + (ValueText(es[0].value) +
              if |es| == 1 then " }" + rest else ", " + (PairsText(es[1..]) + " }" + rest)))
  {
    var sep := if |es| == 1 then "" else ", ";
    Regroup(KeyText(es[0].key), " = ", ValueText(es[0].value), sep, PairsText(es[1..]), " }", rest);
    if |es| == 1 {
      assert PairsText(es[1..]) == "";
      assert sep + ("" + " }" + rest) == " }" + rest;
    }
  }

  /** One pair and the rest of the table, given how each of them reads. */
  lemma PairsStep(s: string, k: string, okK: bool, value: string, v: Value, okV: bool,
                                     more: seq<Entry>, okMore: bool, tail: string, rest: string)
    requires AtValue(s) == if okK then Some((k, value)) else None
    requires ReadValue(value) == if okV then Got(v, if more == [] then " }" + rest else ", " + tail) else Fail
    requires more != [] ==> Inked(tail) && ReadPairs(tail) == if okMore then Got(more, rest) else Fail
    requires forall e :: e in more ==> e.key != k
    ensures ReadPairs(s) == if okK && okV && (more == [] || okMore) then Got([Entry(k, v)] + more, rest) else Fail
  {
    if !okK || !okV {
      BadPair(s);
    } else if more == [] {
      LastPair(s, k, value, v, rest);
      assert [Entry(k, v)] + more == [Entry(k, v)];
    } else {
      OneMorePair(s, k, value, v, tail);
    }
  }

  /** How the head of a printed pair reads. */
  predicate PairHead(s: string, e: Entry, after: string) {
    var value := ValueText(e.value) + after;
    && AtValue(s) == (if KeyOk(e.key) then Some((e.key, value)) else None)
    && ReadValue(value) == if ValueOk(e.value) then Got(e.value, after) else Fail
  }

  lemma PairHeadReads(e: Entry, after: string)
    requires Wf(e.value) && Follows(after)
    ensures PairHead(KeyText(e.key) + (" = " + (ValueText(e.value) + after)), e, after)
    decreases e
  {
    ValueStarts(e.value);
    PairKeyReads(e.key, ValueText(e.value) + after);
    ValueReads(e.value, after);
  }

  lemma {:induction false} PairsRead(es: seq<Entry>, rest: string)
    requires es != [] && WfEntries(es)
    ensures ReadPairs(PairsText(es) + " }" + rest) == if PairsOk(es) then Got(es, rest) else Fail
    decreases es, 1
  {
    var e, more := es[0], es[1..];
    RestIsWf(es);
    var s, tail := PairsText(es) + " }" + rest, PairsText(more) + " }" + rest;
    var after := if more == [] then " }" + rest else ", " + tail;
    PairsTextSplits(es, rest);
    PairHeadReads(e, after);
    if more != [] {
      PairsInk(more, rest);
      PairsRead(more, rest);
    }
    PairsStep(s, e.key, KeyOk(e.key), ValueText(e.value) + after, e.value, ValueOk(e.value), more, PairsOk(more), tail,
        rest);
    PairsOkSplits(es);
  }

  // ------------------------------------------------------------------------ lines read

  predicate PathOk(path: seq<string>) {
    forall k :: k in path ==> KeyOk(k)
  }

  lemma {:induction false} PathTextSplits(path: seq<string>, rest: string)
    requires path != []
    ensures PathText(path) + rest == KeyText(path[0]) + if |path| == 1 then rest else "." + (PathText(path[1..]) + rest)
  {
  }

  lemma {:induction false} PathReads(path: seq<string>, rest: string)
    requires path != [] && Starts(rest, ']')
    ensures var r := ReadPath(PathText(path) + rest);
            if PathOk(path) then r == Got(path, rest) else r.Fail? || Starts(r.rest, '\n')
    decreases |path|
  {
    var k, more := path[0], path[1..];
    var s, tail := PathText(path) + rest, PathText(more) + rest;
    var after := if more == [] then rest else "." + tail;
    PathTextSplits(path, rest);
    KeyReads(k, after);
    KeyStarts(k);
    if more != [] {
      PathReads(more, rest);
    }
    PathStep(s, k, KeyOk(k), more, PathOk(more), tail, rest);
    assert path == [k] + more;
    assert forall x :: x in path <==> x == k || x in more;
  }

  /** One key of a path and the rest, given how each of them reads. */
  lemma PathStep(s: string, k: string, okK: bool, more: seq<string>, okMore: bool, tail: string, rest: string)
    requires Inked(s) && Starts(rest, ']')
    requires if okK then ReadKey(s) == Got(k, if more == [] then rest else "." + tail) else Stuck(ReadKey(s))
    requires more != [] ==>
               var r := ReadPath(tail); if okMore then r == Got(more, rest) else r.Fail? || Starts(r.rest, '\n')
    ensures var r := ReadPath(s);
            if okK && (more == [] || okMore) then r == Got([k] + more, rest) else r.Fail? || Starts(r.rest, '\n')
  {
    SkipNothing(s);
    if okK {
      if more == [] {
        SkipNothing(rest);
        assert [k] + more == [k];
      } else {
        SkipNothing("." + tail);
        assert ("." + tail)[1..] == tail;
      }
    } else if ReadKey(s).Got? {
      SkipNothing(ReadKey(s).rest);
    }
  }

  lemma KeyValReads(k: string, v: Value, rest: string)
    requires Wf(v)
    ensures ReadStatement(LineText(KeyVal(k, v)) + ("\n" + rest)) ==
            if KeyOk(k) && ValueOk(v) then Got(KeyVal(k, v), "\n" + rest) else Fail
  {
    var after := "\n" + rest;
    KeyValText(k, v, after);
    PairHeadReads(Entry(k, v), after);
    KeyStarts(k);
    KeyIsNoNewline(k);
    KeyValStep(LineText(KeyVal(k, v)) + after, k, KeyOk(k), ValueText(v) + after, v, ValueOk(v), rest);
  }

  lemma KeyValText(k: string, v: Value, after: string)
    ensures LineText(KeyVal(k, v)) + after == KeyText(k) + (" = " + (ValueText(v) + after))
    ensures (LineText(KeyVal(k, v)) + after)[0] == KeyText(k)[0]
  {
    KeyStarts(k);
    FourParts(KeyText(k), " = ", ValueText(v), after);
  }

  lemma FourParts(a: string, b: string, c: string, d: string)
    requires a != ""
    ensures a + b + c + d == a + (b + (c + d)) && (a + b + c + d)[0] == a[0]
  {
  }

  lemma KeyValStep(s: string, k: string, okK: bool, value: string, v: Value, okV: bool, rest: string)
    requires Inked(s) && s[0] != '[' && s[0] != '\n'
    requires AtValue(s) == if okK then Some((k, value)) else None
    requires ReadValue(value) == if okV then Got(v, "\n" + rest) else Fail
    ensures ReadStatement(s) == if okK && okV then Got(KeyVal(k, v), "\n" + rest) else Fail
  {
    SkipNothing(s);
    SkipNothing("\n" + rest);
  }

  lemma KeyIsNoNewline(k: string)
    ensures KeyText(k)[0] != '\n'
  {
    KeyReads(k, "");
  }

  lemma HeaderReads(path: seq<string>, rest: string)
    requires path != []
    ensures ReadStatement(LineText(Header(path)) + ("\n" + rest)) == if PathOk(path)
              then Got(Header(path), "\n" + rest) else Fail
  {
    var after := "]" + ("\n" + rest);
    PathReads(path, after);
    KeyStarts(path[0]);
    PathTextSplits(path, after);
    Wrap3("[", PathText(path), "]", "\n" + rest);
    HeaderStep(LineText(Header(path)) + ("\n" + rest), PathText(path) + after, path, PathOk(path), rest);
  }

  lemma Wrap3(a: string, b: string, c: string, rest: string)
    ensures a + b + c + rest == a + (b + (c + rest))
  {
  }

  lemma HeaderStep(s: string, inner: string, path: seq<string>, ok: bool, rest: string)
    requires s == "[" + inner && inner != "" && inner[0] != '['
    requires var r := ReadPath(inner);
             if ok then r == Got(path, "]" + ("\n" + rest)) else r.Fail? || Starts(r.rest, '\n')
    ensures ReadStatement(s) == if ok then Got(Header(path), "\n" + rest) else Fail
  {
    assert s[1..] == inner && s[1] == inner[0];
    assert ("]" + ("\n" + rest))[1..] == "\n" + rest;
    SkipNothing(s);
    SkipNothing("\n" + rest);
  }

  lemma ArrayHeaderReads(path: seq<string>, rest: string)
    requires path != []
    ensures ReadStatement(LineText(ArrayHeader(path)) + ("\n" + rest)) ==
            if PathOk(path) then Got(ArrayHeader(path), "\n" + rest) else Fail
  {
    var after := "]]" + ("\n" + rest);
    PathReads(path, after);
    Wrap3("[[", PathText(path), "]]", "\n" + rest);
    ArrayHeaderStep(LineText(ArrayHeader(path)) + ("\n" + rest), PathText(path) + after, path, PathOk(path), rest);
  }

  lemma ArrayHeaderStep(s: string, inner: string, path: seq<string>, ok: bool, rest: string)
    requires s == "[[" + inner
    requires var r := ReadPath(inner);
             if ok then r == Got(path, "]]" + ("\n" + rest)) else r.Fail? || Starts(r.rest, '\n')
    ensures ReadStatement(s) == if ok then Got(ArrayHeader(path), "\n" + rest) else Fail
  {
    assert s[2..] == inner;
    assert ("]]" + ("\n" + rest))[2..] == "\n" + rest;
    SkipNothing(s);
    SkipNothing("\n" + rest);
  }

  predicate LineWf(line: Line) {
    match line
    case Blank => true
    case KeyVal(_, v) => Wf(v)
    case Header(path) => path != []
    case ArrayHeader(path) => path != []
  }

  /** A printed line reads back exactly when no string of it holds DEL and no key is a bare
      one followed by a newline; a line with either is refused. */
  lemma LineReads(line: Line, rest: string)
    requires LineWf(line)
    ensures ReadStatement(LineText(line) + ("\n" + rest)) == if LineOk(line) then Got(line, "\n" + rest) else Fail
  {
    match line {
      case Blank =>
        SkipNothing("\n" + rest);
        assert LineText(line) + ("\n" + rest) == "\n" + rest;
      case KeyVal(k, v) => KeyValReads(k, v, rest);
      case Header(path) => HeaderReads(path, rest);
      case ArrayHeader(path) => ArrayHeaderReads(path, rest);
    }
  }

  // ------------------------------------------------------------------------ whole texts

  /** Every line with its newline. */
  function TextOf(lines: seq<Line>): string {
    if lines == [] then "" else LineText(lines[0]) + ("\n" + TextOf(lines[1..]))
  }

  predicate AllLinesOk(lines: seq<Line>) {
    forall l :: l in lines ==> LineOk(l)
  }

  /** The text of any lines reads back as those lines and a last empty one, exactly when
      every line is good. */
  lemma {:induction false} TextReads(lines: seq<Line>)
    requires forall l :: l in lines ==> LineWf(l)
    ensures ReadText(TextOf(lines)) == if AllLinesOk(lines) then Some(lines + [Blank]) else None
  {
    if lines == [] {
      assert lines + [Blank] == [Blank];
    } else {
      var rest := TextOf(lines[1..]);
      assert lines[0] in lines;
      LineReads(lines[0], rest);
      TextReads(lines[1..]);
      TextStep(TextOf(lines), lines[0], LineOk(lines[0]), rest);
      FirstLineOk(lines);
    }
  }

  lemma FirstLineOk(lines: seq<Line>)
    requires lines != []
    ensures AllLinesOk(lines) <==> LineOk(lines[0]) && AllLinesOk(lines[1..])
    ensures lines + [Blank] == [lines[0]] + (lines[1..] + [Blank])
  {
    assert forall l :: l in lines <==> l == lines[0] || l in lines[1..];
  }

  lemma TextStep(s: string, line: Line, ok: bool, rest: string)
    requires ReadStatement(s) == if ok then Got(line, "\n" + rest) else Fail
    ensures ReadText(s) ==
            if !ok || ReadText(rest).None? then None else Some([line] + ReadText(rest).value)
  {
    assert ("\n" + rest)[1..] == rest;
  }

  /** `strip("\n")`, at the front and at the end. */
  function FrontStripped(s: string): string {
    if Starts(s, '\n') then FrontStripped(s[1..]) else s
  }

  function EndStripped(s: string): string {
    if s != "" && s[|s| - 1] == '\n' then EndStripped(s[..|s| - 1]) else s
  }

  function NewlineRun(s: string): (n: nat)
    ensures n <= |s| && forall i | 0 <= i < n :: s[i] == '\n'
  {
    if Starts(s, '\n') then 1 + NewlineRun(s[1..]) else 0
  }

  /** `re.sub(r"\n{3,}", "\n\n", s)`. */
  function Collapsed(s: string): string
    decreases |s|
  {
    if s == "" then ""
    else if s[0] != '\n' then [s[0]] + Collapsed(s[1..])
    else
      var n := NewlineRun(s);
      (if n >= 3 then "\n\n" else s[..n]) + Collapsed(s[n..])
  }

  /** After `n` newlines, no run in `s` gets to three. */
  predicate Calm(s: string, n: nat) {
    s == "" || if s[0] == '\n' then n < 2 && Calm(s[1..], n + 1) else Calm(s[1..], 0)
  }

  lemma {:induction false} CalmRun(s: string, n: nat)
    requires Calm(s, n) && n <= 2
    ensures NewlineRun(s) + n <= 2
    ensures Calm(s[NewlineRun(s)..], 0)
  {
    if Starts(s, '\n') {
      CalmRun(s[1..], n + 1);
      assert s[NewlineRun(s)..] == s[1..][NewlineRun(s[1..])..];
    } else {
      assert s[0..] == s;
    }
  }

  lemma {:induction false} CalmStays(s: string)
    requires Calm(s, 0)
    ensures Collapsed(s) == s
    decreases |s|
  {
    if s != "" {
      if s[0] != '\n' {
        CalmStays(s[1..]);
      } else {
        CalmRun(s, 0);
        CalmStays(s[NewlineRun(s)..]);
        assert s == s[..NewlineRun(s)] + s[NewlineRun(s)..];
      }
    }
  }

  /** Text that does not begin with a newline and has no two newlines in a row. */
  predicate Tame(s: string) {
    s != "" && s[0] != '\n' && forall i :: 0 <= i < |s| - 1 ==> !(s[i] == '\n' && s[i + 1] == '\n')
  }

  lemma TameJoin(a: string, b: string)
    requires Tame(a) && Tame(b)
    ensures Tame(a + b)
  {
    var s := a + b;
    forall i | 0 <= i < |s| - 1 ensures !(s[i] == '\n' && s[i + 1] == '\n') {
      if i + 1 < |a| {
        assert s[i] == a[i] && s[i + 1] == a[i + 1];
      } else if i + 1 == |a| {
        assert s[i + 1] == b[0];
      } else {
        assert s[i] == b[i - |a|] && s[i + 1] == b[i - |a| + 1];
      }
    }
  }

  lemma NoNewlineIsTame(s: string)
    requires s != "" && '\n' !in s
    ensures Tame(s)
  {
    assert s[0] in s;
    forall i | 0 <= i < |s| - 1 ensures !(s[i] == '\n' && s[i + 1] == '\n') { assert s[i] in s; }
  }

  lemma {:induction false} EscapedHasNoNewline(s: string)
    ensures '\n' !in Escaped(s)
  {
    if s != "" {
      EscapedHasNoNewline(s[1..]);
      assert '\n' !in Escape(s[0]);
    }
  }

  lemma QuotedIsTame(s: string)
    ensures Tame(Quoted(s)) && Quoted(s)[|Quoted(s)| - 1] == '"'
  {
    EscapedHasNoNewline(s);
    NoNewlineIsTame(Quoted(s));
  }

  lemma KeyIsTame(k: string)
    ensures Tame(KeyText(k))
  {
    if Bare(k) {
      assert k[0] in k;
      NoNewlineIsTame(k);
    } else if NewlineKey(k) {
      var b := k[..|k| - 1];
      assert b[0] in b && k[0] == b[0];
      forall i | 0 <= i < |k| - 1 ensures k[i] != '\n' { assert k[i] == b[i] && b[i] in b; }
    } else {
      QuotedIsTame(k);
    }
  }

  lemma ValueIsTame(v: Value)
    ensures Tame(ValueText(v))
    ensures ValueText(v)[|ValueText(v)| - 1] != '\n'
    decreases v, 0
  {
    match v {
      case Bool(_) => NoNewlineIsTame(ValueText(v));
      case Int(i) =>
        var d := Decimal(if i < 0 then -i else i);
        assert d[|d| - 1] in d && IntText(i) == if i < 0 then "-" + d else d;
        NoNewlineIsTame(IntText(i));
      case Str(s) => QuotedIsTame(s);
      case List(items) =>
        if items != [] {
          ItemsAreTame(items);
          TameJoin("[", ItemsText(items));
          TameJoin("[" + ItemsText(items), "]");
        }
      case Dict(es) =>
        if es != [] {
          PairsAreTame(es);
          TameJoin("{ ", PairsText(es));
          TameJoin("{ " + PairsText(es), " }");
        } else {
          assert ValueText(v) == "{  }";
        }
    }
  }

  lemma {:induction false} ItemsAreTame(vs: seq<Value>)
    requires vs != []
    ensures Tame(ItemsText(vs))
    decreases vs, 1
  {
    ValueIsTame(vs[0]);
    var first := ValueText(vs[0]);
    if |vs| == 1 {
      assert ItemsText(vs) == first + "" + "" && first + "" + "" == first;
    } else {
      ItemsAreTame(vs[1..]);
      TameJoin(first, ", ");
      TameJoin(first + ", ", ItemsText(vs[1..]));
    }
  }

  lemma {:induction false} PairsAreTame(es: seq<Entry>)
    requires es != []
    ensures Tame(PairsText(es))
    decreases es, 1
  {
    PairIsTame(es[0].key, es[0].value);
    var first := KeyText(es[0].key) + " = " + ValueText(es[0].value);
    if |es| == 1 {
      assert PairsText(es) == first + "" + "" && first + "" + "" == first;
    } else {
      PairsAreTame(es[1..]);
      TameJoin(first, ", ");
      TameJoin(first + ", ", PairsText(es[1..]));
    }
  }

  lemma PairIsTame(k: string, v: Value)
    ensures Tame(KeyText(k) + " = " + ValueText(v))
    decreases v, 1
  {
    KeyIsTame(k);
    ValueIsTame(v);
    TameJoin(KeyText(k), " = ");
    TameJoin(KeyText(k) + " = ", ValueText(v));
  }

  lemma {:induction false} PathIsTame(path: seq<string>)
    requires path != []
    ensures Tame(PathText(path))
  {
    KeyIsTame(path[0]);
    if |path| == 1 {
      assert PathText(path) == KeyText(path[0]) + "" + "" && KeyText(path[0]) + "" + "" == KeyText(path[0]);
    } else {
      PathIsTame(path[1..]);
      TameJoin(KeyText(path[0]), ".");
      TameJoin(KeyText(path[0]) + ".", PathText(path[1..]));
    }
  }

  lemma LineIsTame(line: Line)
    requires LineWf(line) && line != Blank
    ensures Tame(LineText(line)) && LineText(line)[|LineText(line)| - 1] != '\n'
  {
    match line {
      case KeyVal(k, v) =>
        PairIsTame(k, v);
        ValueIsTame(v);
      case Header(path) =>
        PathIsTame(path);
        TameJoin("[", PathText(path));
        TameJoin("[" + PathText(path), "]");
      case ArrayHeader(path) =>
        PathIsTame(path);
        TameJoin("[[", PathText(path));
        TameJoin("[[" + PathText(path), "]]");
    }
  }

  /** Tame text that ends in no newline calms everything before it. */
  lemma {:induction false} TameCalms(a: string, b: string, n: nat)
    requires a != "" && (forall i :: 0 <= i < |a| - 1 ==> !(a[i] == '\n' && a[i + 1] == '\n')) && a[|a| - 1] != '\n'
    requires Calm(b, 0) && (a[0] == '\n' ==> n == 0)
    ensures Calm(a + b, n)
    decreases |a|
  {
    if |a| == 1 {
      assert (a + b)[1..] == b;
    } else {
      var t := a[1..];
      assert (a + b)[1..] == t + b;
      forall i | 0 <= i < |t| - 1 ensures !(t[i] == '\n' && t[i + 1] == '\n') {
        assert t[i] == a[i + 1] && t[i + 1] == a[i + 2];
      }
      if a[0] == '\n' {
        assert t[0] == a[1] && a[1] != '\n';
        TameCalms(t, b, 1);
      } else {
        TameCalms(t, b, 0);
      }
    }
  }

  /** Every blank line is followed by a header. */
  predicate Spaced(lines: seq<Line>) {
    forall i :: 0 <= i < |lines| && lines[i] == Blank ==> i + 1 < |lines| && lines[i + 1] != Blank
  }

  lemma {:induction false} TextIsCalm(lines: seq<Line>, n: nat)
    requires Spaced(lines) && forall l :: l in lines ==> LineWf(l)
    requires n <= 1 || (n == 2 && (lines != [] ==> lines[0] != Blank))
    ensures Calm(TextOf(lines), n)
    decreases |lines|
  {
    if lines != [] {
      var rest := TextOf(lines[1..]);
      assert lines[0] in lines;
      assert Spaced(lines[1..]) by {
        forall i | 0 <= i < |lines[1..]| && lines[1..][i] == Blank
          ensures i + 1 < |lines[1..]| && lines[1..][i + 1] != Blank
        {
          assert lines[i + 1] == Blank;
        }
      }
      assert ("\n" + rest)[1..] == rest;
      if lines[0] == Blank {
        assert lines[1..] != [] && lines[1..][0] != Blank;
        TextIsCalm(lines[1..], n + 1);
        assert TextOf(lines) == "\n" + rest;
      } else {
        LineIsTame(lines[0]);
        TextIsCalm(lines[1..], 1);
        TameCalms(LineText(lines[0]), "\n" + rest, n);
      }
    }
  }
}
