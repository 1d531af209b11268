/** Five-field cron lines to systemd OnCalendar expressions, text to text. Both sides have a
    meaning of their own here: crontab's, and the one of systemd.time(7). How one comma part
    of a cron field is read (`StepsOf`) is shared by the meaning and the translation; it is
    tied to the documented forms by `ItemIsRead` and `ReadPartsAreItems`. Text is ASCII. */
module Cron {
  import opened Options
  import opened Text

  /** Minute 0-59, hour 0-23, day 1-31, month 1-12, weekday 0-6 from Sunday. */
  datatype Moment = Moment(minute: nat, hour: nat, day: nat, month: nat, weekday: nat)

  predicate Real(t: Moment) {
    t.minute < 60 && t.hour < 24 && 1 <= t.day <= 31 && 1 <= t.month <= 12 && t.weekday < 7
  }

  const MONTHS: seq<string> := ["jan", "feb", "mar", "apr", "may", "jun", "jul", "aug", "sep", "oct", "nov", "dec"]
  const DAYS: seq<string> := ["sun", "mon", "tue", "wed", "thu", "fri", "sat"]
  const DAY_NAMES: seq<string> := ["Sun", "Mon", "Tue", "Wed", "Thu", "Fri", "Sat"]

  function Low(field: nat): nat {
    if field == 2 || field == 3 then 1 else 0
  }

  function High(field: nat): (h: nat)
    ensures Low(field) < h < 60
  {
    if field == 0 then 59 else if field == 1 then 23 else if field == 2 then 31 else if field == 3 then 12 else 7
  }

  // ------------------------------------------------------------------ reading cron text

  function MonthNumber(word: string): (r: Option<nat>)
    ensures r.Some? ==> 1 <= r.value <= 12
  {
    var i := IndexIn(MONTHS, word);
    if i < |MONTHS| then Some(i + 1) else None
  }

  function DayNumber(word: string): (r: Option<nat>)
    ensures r.Some? ==> r.value <= 6
  {
    var i := IndexIn(DAYS, word);
    if i < |DAYS| then Some(i) else None
  }

  /** What follows the first `c`; "" when there is none. */
  function After(s: string, c: char): string {
    if |Before(s, c)| < |s| then s[|Before(s, c)| + 1..] else ""
  }

  function IndexIn(names: seq<string>, word: string): (i: nat)
    ensures i <= |names| && (i < |names| ==> names[i] == word)
    ensures i == |names| ==> word !in names
  {
    if names == [] || names[0] == word then 0 else 1 + IndexIn(names[1..], word)
  }

  /** `_number`: None is the ValueError. */
  function NumberIn(text: string, field: nat): Option<nat> {
    var word := Lower(text);
    if field == 3 && MonthNumber(word).Some? then MonthNumber(word)
    else if field == 4 && DayNumber(word).Some? then DayNumber(word)
    else if !IsDigits(text) then None
    else if Low(field) <= Number(text) <= High(field) then Some(Number(text)) else None
  }

  datatype Steps = Steps(start: nat, end: nat, step: nat)

  /** The range and the step of one comma part. */
  function StepsOf(part: string, field: nat): (r: Option<Steps>)
    ensures r.Some? ==> 1 <= r.value.step && r.value.start <= r.value.end
  {
    var base, slash, stepText := Before(part, '/'), ('/' in part), After(part, '/');
    if slash && (!IsDigits(stepText) || Number(stepText) < 1) then None
    else
      var step := if slash then Number(stepText) else 1;
      if base == "*" then Some(Steps(Low(field), High(field), step))
      else if '-' in base then
        var a, b := NumberIn(Before(base, '-'), field), NumberIn(After(base, '-'), field);
        if a.None? || b.None? || a.value > b.value then None else Some(Steps(a.value, b.value, step))
      else
        var a := NumberIn(base, field);
        if a.None? || a.value > High(field) then None
        else Some(Steps(a.value, if slash then High(field) else a.value, step))
  }

  // ------------------------------------------------------------------ what cron means

  predicate Hits(s: Steps, v: nat)
    requires 1 <= s.step
  {
    s.start <= v <= s.end && (v - s.start) % s.step == 0
  }

  /** Weekday 7 is Sunday, like 0. */
  predicate PartMatches(part: string, field: nat, v: nat) {
    var s := StepsOf(part, field);
    s.Some? && if field == 4 then v < 7 && (Hits(s.value, v) || (v == 0 && Hits(s.value, 7))) else Hits(s.value, v)
  }

  predicate FieldMatches(text: string, field: nat, v: nat) {
    exists p :: p in Split(text, ',') && PartMatches(p, field, v)
  }

  /** With both days restricted, cron runs when either matches. */
  predicate CronMatches(fields: seq<string>, t: Moment)
    requires |fields| == 5
  {
    var day, weekday := FieldMatches(fields[2], 2, t.day), FieldMatches(fields[4], 4, t.weekday);
    && FieldMatches(fields[0], 0, t.minute) && FieldMatches(fields[1], 1, t.hour) && FieldMatches(fields[3], 3, t.month)
    && if fields[2] == "*" || fields[4] == "*" then day && weekday else day || weekday
  }

  // -------------------------------------------------------------- what a timer means

  /** One item of a component: a number, or a start and a repetition. */
  predicate ItemMatches(item: string, v: nat) {
    var start := Before(item, '/');
    if '/' in item then
      && IsDigits(start) && IsDigits(After(item, '/')) && Number(After(item, '/')) >= 1
      && Number(start) <= v && (v - Number(start)) % Number(After(item, '/')) == 0
    else IsDigits(item) && Number(item) == v
  }

  predicate ComponentMatches(text: string, v: nat) {
    text == "*" || exists item :: item in Split(text, ',') && ItemMatches(item, v)
  }

  predicate WeekdaysMatch(text: string, v: nat)
    requires v < 7
  {
    DAY_NAMES[v] in Split(text, ',')
  }

  /** An OnCalendar text `[weekdays ]year-month-day hour:minute:second UTC`. */
  predicate TimerMatches(text: string, t: Moment)
    requires Real(t)
  {
    var words := Split(text, ' ');
    && 3 <= |words| <= 4 && words[|words| - 1] == "UTC"
    && (|words| == 4 ==> WeekdaysMatch(words[0], t.weekday))
    && var date, time := Split(words[|words| - 3], '-'), Split(words[|words| - 2], ':');
       && |date| == 3 && date[0] == "*" && ComponentMatches(date[1], t.month) && ComponentMatches(date[2], t.day)
       && |time| == 3 && ComponentMatches(time[0], t.hour) && ComponentMatches(time[1], t.minute) && time[2] == "00"
  }

  // ------------------------------------------------------------------- the translation

  /** `_values`. */
  function Values(part: string, field: nat): Option<set<nat>> {
    var s := StepsOf(part, field);
    if s.None? then None
    else
      var hits := Range(s.value.start, s.value.end, s.value.step);
      Some(if field == 4 then Weekdays(hits) else Elements(hits))
  }

  function Elements(hits: seq<nat>): set<nat> {
    set v | v in hits
  }

  function Weekdays(hits: seq<nat>): set<nat> {
    set v | v in hits :: v % 7
  }

  /** `range(start, end + 1, step)`. */
  function Range(start: nat, end: nat, step: nat): seq<nat>
    requires 1 <= step
    decreases end + step - start
  {
    if start > end then [] else [start] + Range(start + step, end, step)
  }

  lemma HitsFirst(s: Steps, v: nat)
    requires 1 <= s.step && s.start <= s.end
    ensures Hits(s, v) <==> v == s.start || Hits(s.(start := s.start + s.step), v)
  {
    if v >= s.start + s.step {
      ModShift(v - s.start, s.step);
    } else if s.start < v {
      SmallMod(v - s.start, s.step);
    }
  }

  lemma {:induction false} RangeHits(s: Steps, v: nat)
    requires 1 <= s.step
    ensures v in Range(s.start, s.end, s.step) <==> Hits(s, v)
    decreases s.end + s.step - s.start
  {
    if s.start <= s.end {
      HitsFirst(s, v);
      RangeHits(s.(start := s.start + s.step), v);
    }
  }

  lemma ModShift(x: nat, n: nat)
    requires 1 <= n <= x
    ensures x % n == (x - n) % n
  {
    var q, q' := x / n, (x - n) / n;
    assert q * n + x % n == q' * n + n + (x - n) % n;
    AtLeast(q - q' - 1, n);
    AtLeast(q' + 1 - q, n);
    assert (q - q' - 1) * n == q * n - q' * n - n;
    assert (q' + 1 - q) * n == q' * n + n - q * n;
  }

  lemma AtLeast(d: int, n: nat)
    ensures d >= 1 ==> d * n >= n
  {
    if d >= 1 {
      assert d * n == n + (d - 1) * n;
    }
  }

  lemma SmallMod(x: nat, n: nat)
    requires x < n
    ensures x % n == x
  {
  }

  /** `f"{n:02d}"`. */
  function TwoDigits(n: nat): (s: string)
    ensures IsDigits(s) && Number(s) == n
    ensures n < 100 ==> |s| == 2
  {
    if n < 10 then
      var s := "0" + Decimal(n);
      assert s[..|s| - 1] == "0";
      assert Number("0") == 0 by { assert "0"[..0] == ""; }
      assert Decimal(n) == [DigitOf(n)];
      s
    else
      assert n < 100 ==> |Decimal(n / 10)| == 1;
      Decimal(n)
  }

  /** `sorted(values)`, for values in a range. */
  function Ascending(values: set<nat>, lo: nat, hi: nat): (r: seq<nat>)
    ensures forall v :: v in r <==> v in values && lo <= v <= hi
    decreases hi + 1 - lo
  {
    if lo > hi then [] else (if lo in values then [lo] else []) + Ascending(values, lo + 1, hi)
  }

  predicate Sorted(s: seq<nat>) {
    forall i, j :: 0 <= i < j < |s| ==> s[i] < s[j]
  }

  lemma SortedBehind(lo: nat, rest: seq<nat>)
    requires Sorted(rest) && forall x :: x in rest ==> lo < x
    ensures Sorted([lo] + rest)
  {
    var all := [lo] + rest;
    forall i, j | 0 <= i < j < |all| ensures all[i] < all[j] {
      assert all[j] == rest[j - 1] && rest[j - 1] in rest;
      if i > 0 { assert all[i] == rest[i - 1]; }
    }
  }

  lemma {:induction false} AscendingIsSorted(values: set<nat>, lo: nat, hi: nat)
    ensures Sorted(Ascending(values, lo, hi))
    decreases hi + 1 - lo
  {
    if lo <= hi {
      AscendingIsSorted(values, lo + 1, hi);
      SortedBehind(lo, Ascending(values, lo + 1, hi));
      assert [] + Ascending(values, lo + 1, hi) == Ascending(values, lo + 1, hi);
    }
  }

  function Printed(values: seq<nat>, field: nat): (r: seq<string>)
    requires field == 4 ==> forall v :: v in values ==> v < 7
    ensures |r| == |values|
  {
    if values == [] then []
    else
      assert values[0] in values && forall v :: v in values[1..] ==> v in values;
      [if field == 4 then DAY_NAMES[values[0]] else TwoDigits(values[0])] + Printed(values[1..], field)
  }

  /** The union of the first `n` parts, if each has values. */
  function Gathered(parts: seq<string>, values: string -> Option<set<nat>>, n: nat): Option<set<nat>>
    requires n <= |parts|
  {
    if n == 0 then Some({})
    else
      var front, one := Gathered(parts, values, n - 1), values(parts[n - 1]);
      if front.None? || one.None? then None else Some(front.value + one.value)
  }

  /** The values of the first `n` comma parts; an empty part is refused. */
  function ValuesOf(parts: seq<string>, field: nat, n: nat): Option<set<nat>>
    requires n <= |parts|
  {
    Gathered(parts, PartValues(field), n)
  }

  function PartValues(field: nat): string -> Option<set<nat>> {
    p => if p == "" then None else Values(p, field)
  }

  predicate InField(values: set<nat>, field: nat) {
    forall v :: v in values ==> Low(field) <= v <= High(field) && (field == 4 ==> v < 7)
  }

  predicate SomePart(parts: seq<string>, field: nat, n: nat, v: nat)
    requires n <= |parts|
  {
    exists k :: 0 <= k < n && PartMatches(parts[k], field, v)
  }

  lemma ValuesGrow(parts: seq<string>, field: nat, n: nat)
    requires 0 < n <= |parts|
    ensures ValuesOf(parts, field, n).Some? ==>
              && ValuesOf(parts, field, n - 1).Some? && Values(parts[n - 1], field).Some?
              && ValuesOf(parts, field, n).value ==
                   ValuesOf(parts, field, n - 1).value + Values(parts[n - 1], field).value
  {
  }

  /** The union holds what some part holds. */
  lemma {:induction false} GatheredMeans(parts: seq<string>, values: string -> Option<set<nat>>, n: nat, v: nat)
    requires n <= |parts| && Gathered(parts, values, n).Some?
    ensures forall k | 0 <= k < n :: values(parts[k]).Some?
    ensures v in Gathered(parts, values, n).value <==>
              exists k :: 0 <= k < n && values(parts[k]).Some? && v in values(parts[k]).value
  {
    if n > 0 {
      GatheredMeans(parts, values, n - 1, v);
    }
  }

  lemma ValueOf(parts: seq<string>, field: nat, n: nat, v: nat)
    requires n <= |parts|
    ensures ValuesOf(parts, field, n).Some? ==>
              && (v in ValuesOf(parts, field, n).value <==> SomePart(parts, field, n, v))
              && (v in ValuesOf(parts, field, n).value ==> Low(field) <= v <= High(field) && (field == 4 ==> v < 7))
  {
    var one := PartValues(field);
    if Gathered(parts, one, n).Some? {
      GatheredMeans(parts, one, n, v);
      forall k | 0 <= k < n
        ensures v in one(parts[k]).value <==> PartMatches(parts[k], field, v)
        ensures v in one(parts[k]).value ==> Low(field) <= v <= High(field) && (field == 4 ==> v < 7)
      {
        ValuesMean(parts[k], field);
      }
    }
  }

  lemma ValuesInRange(parts: seq<string>, field: nat, n: nat)
    requires n <= |parts|
    ensures ValuesOf(parts, field, n).Some? ==>
              && (forall v :: v in ValuesOf(parts, field, n).value <==> SomePart(parts, field, n, v))
              && InField(ValuesOf(parts, field, n).value, field)
              && (n > 0 ==> ValuesOf(parts, field, n).value != {})
  {
    if ValuesOf(parts, field, n).Some? {
      var all := ValuesOf(parts, field, n).value;
      forall v: nat
        ensures v in all <==> SomePart(parts, field, n, v)
        ensures v in all ==> Low(field) <= v <= High(field) && (field == 4 ==> v < 7)
      {
        ValueOf(parts, field, n, v);
      }
      if n > 0 {
        ValuesGrow(parts, field, n);
        ValuesMean(parts[n - 1], field);
        var v :| v in Values(parts[n - 1], field).value;
        assert v in all;
      }
    }
  }

  lemma NumberInRange(text: string, field: nat)
    ensures NumberIn(text, field).Some? ==> Low(field) <= NumberIn(text, field).value <= High(field)
  {
  }

  lemma StepsInRange(part: string, field: nat)
    ensures StepsOf(part, field).Some? ==>
              Low(field) <= StepsOf(part, field).value.start && StepsOf(part, field).value.end <= High(field)
  {
    var base := Before(part, '/');
    NumberInRange(Before(base, '-'), field);
    NumberInRange(After(base, '-'), field);
    NumberInRange(base, field);
  }

  lemma ValuesMean(part: string, field: nat)
    requires Values(part, field).Some?
    ensures forall v :: v in Values(part, field).value <==> PartMatches(part, field, v)
    ensures InField(Values(part, field).value, field)
    ensures Values(part, field).value != {}
  {
    StepsInRange(part, field);
    var s := StepsOf(part, field).value;
    var hits := Range(s.start, s.end, s.step);
    forall v: nat ensures v in hits <==> Hits(s, v) { RangeHits(s, v); }
    assert s.start in hits;
    assert s.start in Elements(hits) && s.start % 7 in Weekdays(hits);
    if field == 4 {
      WeekdaysOf(s, hits);
    }
  }

  lemma WeekdaysOf(s: Steps, hits: seq<nat>)
    requires 1 <= s.step && s.end <= 7 && forall v: nat :: v in hits <==> Hits(s, v)
    ensures forall w: nat :: w in Weekdays(hits) <==> w < 7 && (Hits(s, w) || (w == 0 && Hits(s, 7)))
  {
    forall v | v in hits ensures v <= 7 { assert Hits(s, v); }
    SevenIsZero(hits);
    assert 7 in hits <==> Hits(s, 7);
  }

  lemma SevenIsZero(hits: seq<nat>)
    requires forall v | v in hits :: v <= 7
    ensures forall w: nat :: w in Weekdays(hits) <==> w < 7 && (w in hits || (w == 0 && 7 in hits))
  {
    forall w: nat ensures w in Weekdays(hits) <==> w < 7 && (w in hits || (w == 0 && 7 in hits)) {
      if w < 7 && w in hits { assert w % 7 == w; }
      if w == 0 && 7 in hits { assert 7 % 7 == w; }
    }
  }

  /** `_field`: one cron field as an OnCalendar component. */
  function FieldText(text: string, field: nat): Option<string>
    requires field < 5
  {
    if text == "*" then Some("*")
    else if "*/" <= text && field < 4 then
      var step := text[2..];
      if !IsDigits(step) || Number(step) < 1 then None
      else if Number(step) >= High(field) - Low(field) + 1 then Some(TwoDigits(Low(field)))
      else Some(TwoDigits(Low(field)) + "/" + Decimal(Number(step)))
    else ListText(Split(text, ','), field)
  }

  function ListText(parts: seq<string>, field: nat): Option<string>
    requires field < 5 && parts != []
  {
    var values := ValuesOf(parts, field, |parts|);
    if values.None? then None
    else
      ValuesInRange(parts, field, |parts|);
      Some(SetText(values.value, field))
  }

  function SetText(values: set<nat>, field: nat): string
    requires field < 5 && values != {}
    requires forall v :: v in values ==> Low(field) <= v <= High(field) && (field == 4 ==> v < 7)
  {
    var sorted := Ascending(values, Low(field), High(field));
    assert sorted != [] by { var v :| v in values; assert v in sorted; }
    Join(Printed(sorted, field), ',')
  }

  method Field(text: string, field: nat) returns (r: Option<string>)
    requires field < 5
    ensures r == FieldText(text, field)
  {
    if text == "*" {
      return Some("*");
    }
    if "*/" <= text && field < 4 {
      var step := text[2..];
      if !IsDigits(step) || Number(step) < 1 {
        return None;
      }
      if Number(step) >= High(field) - Low(field) + 1 {
        return Some(TwoDigits(Low(field)));
      }
      return Some(TwoDigits(Low(field)) + "/" + Decimal(Number(step)));
    }
    var values := UnionOf(Split(text, ','), PartValues(field));
    if values.None? {
      return None;
    }
    ValuesInRange(Split(text, ','), field, |Split(text, ',')|);
    return Some(SetText(values.value, field));
  }

  /** The loop over the comma parts, which stops at the first bad one. */
  method UnionOf(parts: seq<string>, valuesOf: string -> Option<set<nat>>) returns (r: Option<set<nat>>)
    ensures r == Gathered(parts, valuesOf, |parts|)
  {
    var values: set<nat> := {};
    for n := 0 to |parts|
      invariant Gathered(parts, valuesOf, n) == Some(values)
    {
      var part := valuesOf(parts[n]);
      if part.None? {
        NoneStays(parts, valuesOf, n + 1, |parts|);
        return None;
      }
      values := values + part.value;
    }
    return Some(values);
  }

  lemma {:induction false} NoneStays(parts: seq<string>, values: string -> Option<set<nat>>, n: nat, m: nat)
    requires n <= m <= |parts| && Gathered(parts, values, n).None?
    ensures Gathered(parts, values, m).None?
  {
    if n < m {
      NoneStays(parts, values, n, m - 1);
    }
  }

  function TimerText(minute: string, hour: string, day: string, month: string, weekday: string): string {
    (if weekday != "*" then weekday + " " else "") + "*-" + month + "-" + day + " " + hour + ":" + minute + ":00 UTC"
  }

  /** The fields of the line: the words between ASCII white space. */
  function Words(line: string): seq<string> {
    Kept(Split(Blanks(line), ' '))
  }

  function Blanks(line: string): string {
    seq(|line|, i requires 0 <= i < |line| => if Blank(line[i]) then ' ' else line[i])
  }

  function Kept(parts: seq<string>): seq<string> {
    if parts == [] then [] else (if parts[0] == "" then [] else [parts[0]]) + Kept(parts[1..])
  }

  /** How a line is cut into words: white space separates them, and no word is empty. */
  lemma WordsAre(w: string, c: char, rest: string)
    requires Blank(c) && forall x :: x in w ==> !Blank(x)
    ensures Words(w) == if w == "" then [] else [w]
    ensures Words(w + [c] + rest) == (if w == "" then [] else [w]) + Words(rest)
  {
    assert Blank(' ');
    assert Blanks(w) == w && Blanks(w + [c] + rest) == w + [' '] + Blanks(rest);
    SplitPiece(w, Blanks(rest), ' ');
    assert Split(Blanks(w), ' ') == [w] && Kept([w]) == if w == "" then [] else [w];
    assert ([w] + Split(Blanks(rest), ' '))[1..] == Split(Blanks(rest), ' ') && [w][1..] == [];
  }

  function Translated(fields: seq<string>): Option<string> {
    if !Accepted(fields) then None
    else Some(TimerText(FieldText(fields[0], 0).value, FieldText(fields[1], 1).value, FieldText(fields[2], 2).value,
                        FieldText(fields[3], 3).value, FieldText(fields[4], 4).value))
  }

  method ToOnCalendar(line: string) returns (r: Option<string>)
    ensures r == Translated(Words(line))
  {
    var parts := Words(line);
    if |parts| != 5 {
      return None;
    }
    var minute := Field(parts[0], 0);
    var hour := Field(parts[1], 1);
    var day := Field(parts[2], 2);
    var month := Field(parts[3], 3);
    var weekday := Field(parts[4], 4);
    if minute.None? || hour.None? || day.None? || month.None? || weekday.None? {
      return None;
    }
    if day.value != "*" && weekday.value != "*" {
      return None;
    }
    return Some(TimerText(minute.value, hour.value, day.value, month.value, weekday.value));
  }

  /** The lines that are translated: five good fields, of which the day of the month or
      the weekday is `*`. */
  predicate Accepted(fields: seq<string>) {
    && |fields| == 5
    && FieldText(fields[0], 0).Some? && FieldText(fields[1], 1).Some? && FieldText(fields[2], 2).Some?
    && FieldText(fields[3], 3).Some? && FieldText(fields[4], 4).Some?
    && (FieldText(fields[2], 2) == Some("*") || FieldText(fields[4], 4) == Some("*"))
  }

  // -------------------------------------------------------------- the meaning is kept

  lemma {:induction false} PartWithoutCut(s: string, c: char)
    requires c !in s
    ensures Before(s, c) == s
  {
    if s != "" {
      assert s[0] in s;
      PartWithoutCut(s[1..], c);
      assert s == [s[0]] + s[1..];
    }
  }

  lemma {:induction false} CutAt(a: string, c: char, b: string)
    requires c !in a
    ensures Before(a + [c] + b, c) == a && After(a + [c] + b, c) == b
  {
    var s := a + [c] + b;
    if a != "" {
      assert a[0] in a && s[1..] == a[1..] + [c] + b;
      CutAt(a[1..], c, b);
      assert a == [a[0]] + a[1..];
    }
  }

  /** The characters of a translated component. */
  predicate ComponentChars(s: string) {
    s != "" && forall c :: c in s ==> IsDigit(c) || c in ",/*" || 'a' <= c <= 'z' || 'A' <= c <= 'Z'
  }

  lemma {:induction false} PrintedMeans(values: seq<nat>, field: nat, v: nat)
    requires field < 5 && (field == 4 ==> v < 7 && forall x :: x in values ==> x < 7)
    ensures forall p :: p in Printed(values, field) ==> ComponentChars(p) && ',' !in p && p != "*"
    ensures field < 4 ==> ((exists p :: p in Printed(values, field) && ItemMatches(p, v)) <==> v in values)
    ensures field == 4 ==> (DAY_NAMES[v] in Printed(values, field) <==> v in values)
  {
    if values != [] {
      var rest := values[1..];
      assert values[0] in values && values == [values[0]] + rest;
      assert forall x :: x in rest ==> x in values;
      PrintedMeans(rest, field, v);
      var p := Printed(values, field)[0];
      assert Printed(values, field) == [p] + Printed(rest, field);
      if field == 4 {
        PrintedDay(values[0], v);
      } else {
        assert p == TwoDigits(values[0]);
        assert '/' !in p;
        assert ItemMatches(p, v) <==> v == values[0];
      }
    }
  }

  lemma PrintedDay(d: nat, v: nat)
    requires d < 7 && v < 7
    ensures ComponentChars(DAY_NAMES[d]) && ',' !in DAY_NAMES[d] && DAY_NAMES[d] != "*"
    ensures DAY_NAMES[d] == DAY_NAMES[v] <==> d == v
  {
    assert DAY_NAMES[0] == "Sun" && DAY_NAMES[1] == "Mon" && DAY_NAMES[2] == "Tue" && DAY_NAMES[3] == "Wed";
    assert DAY_NAMES[4] == "Thu" && DAY_NAMES[5] == "Fri" && DAY_NAMES[6] == "Sat";
    assert DAY_NAMES[d][0] == DAY_NAMES[v][0] && DAY_NAMES[d][1] == DAY_NAMES[v][1] ==> d == v;
  }

  predicate Translates(c: string, field: nat, v: nat)
    requires field < 5 && (field == 4 ==> v < 7)
  {
    if field == 4 then c == "*" || WeekdaysMatch(c, v) else ComponentMatches(c, v)
  }

  lemma SetMeans(values: set<nat>, field: nat, v: nat)
    requires field < 5 && values != {} && (field == 4 ==> v < 7) && Low(field) <= v <= High(field)
    requires forall x :: x in values ==> Low(field) <= x <= High(field) && (field == 4 ==> x < 7)
    ensures var c := SetText(values, field);
            ComponentChars(c) && c != "*" && (Translates(c, field, v) <==> v in values)
  {
    var sorted := Ascending(values, Low(field), High(field));
    var items := Printed(sorted, field);
    var x :| x in values;
    assert x in sorted;
    PrintedMeans(sorted, field, v);
    SplitJoin(items, ',');
    JoinChars(items);
  }

  /** A comma list: the union of its parts, printed in ascending order. */
  lemma ListMeans(parts: seq<string>, field: nat, v: nat)
    requires field < 5 && parts != [] && ListText(parts, field).Some?
    requires Low(field) <= v <= High(field) && (field == 4 ==> v < 7)
    ensures var c := ListText(parts, field).value;
            && ComponentChars(c) && c != "*"
            && (Translates(c, field, v) <==> exists p :: p in parts && PartMatches(p, field, v))
  {
    ValuesInRange(parts, field, |parts|);
    SetMeans(ValuesOf(parts, field, |parts|).value, field, v);
    if p :| p in parts && PartMatches(p, field, v) {
      var k :| 0 <= k < |parts| && parts[k] == p;
      assert SomePart(parts, field, |parts|, v);
    }
  }

  lemma {:induction false} JoinChars(items: seq<string>)
    requires items != [] && forall p :: p in items ==> ComponentChars(p) && p != "*"
    ensures ComponentChars(Join(items, ',')) && Join(items, ',') != "*"
  {
    assert items[0] in items;
    if |items| > 1 {
      JoinChars(items[1..]);
      assert Join(items, ',')[|items[0]|] == ',';
    }
  }

  lemma StarPart(text: string, field: nat, v: nat)
    requires field < 4 && "*/" <= text && IsDigits(text[2..]) && Number(text[2..]) >= 1
    requires Low(field) <= v <= High(field)
    ensures FieldMatches(text, field, v) <==> (v - Low(field)) % Number(text[2..]) == 0
  {
    var n := text[2..];
    assert text == "*" + ['/'] + n;
    CutAt("*", '/', n);
    assert ',' !in text;
    SplitPiece(text, "", ',');
    assert text in Split(text, ',');
    assert StepsOf(text, field) == Some(Steps(Low(field), High(field), Number(n)));
  }

  lemma OneNumber(n: nat, v: nat)
    ensures ComponentMatches(TwoDigits(n), v) <==> v == n
    ensures ComponentChars(TwoDigits(n)) && TwoDigits(n) != "*"
  {
    var c := TwoDigits(n);
    assert ',' !in c && '/' !in c;
    SplitPiece(c, "", ',');
    assert c in Split(c, ',');
  }

  lemma RepetitionText(a: string, b: string)
    requires IsDigits(a) && IsDigits(b)
    ensures var c := a + "/" + b;
            && ComponentChars(c) && c != "*" && ',' !in c && '/' in c
            && Before(c, '/') == a && After(c, '/') == b
  {
    var c := a + "/" + b;
    assert c == a + ['/'] + b;
    CutAt(a, '/', b);
    assert c[|a|] == '/' && IsDigit(c[0]) by { assert a[0] in a; }
  }

  lemma OneItem(c: string, v: nat)
    requires ',' !in c && c != "*"
    ensures ComponentMatches(c, v) <==> ItemMatches(c, v)
  {
    SplitPiece(c, "", ',');
    assert c in Split(c, ',');
  }

  lemma Repetition(start: nat, n: nat, v: nat)
    requires n >= 1
    ensures var c := TwoDigits(start) + "/" + Decimal(n);
            && ComponentChars(c) && c != "*"
            && (ComponentMatches(c, v) <==> start <= v && (v - start) % n == 0)
  {
    RepetitionText(TwoDigits(start), Decimal(n));
    OneItem(TwoDigits(start) + "/" + Decimal(n), v);
  }

  // `*/n`: cron's whole range in steps; an over-wide step leaves only the first value.
  lemma StarStepMeans(text: string, field: nat, v: nat)
    requires field < 4 && "*/" <= text && IsDigits(text[2..]) && Number(text[2..]) >= 1
    requires Low(field) <= v <= High(field)
    ensures var c := FieldText(text, field).value;
            ComponentChars(c) && c != "*" && (ComponentMatches(c, v) <==> FieldMatches(text, field, v))
  {
    var n, low := Number(text[2..]), Low(field);
    StarPart(text, field, v);
    if n >= High(field) - low + 1 {
      OneNumber(low, v);
      SmallMod(v - low, n);
    } else {
      Repetition(low, n, v);
    }
  }

  /** One field: its component matches a value exactly when the cron field does. */
  lemma FieldMeans(text: string, field: nat, v: nat)
    requires field < 5 && FieldText(text, field).Some?
    requires Low(field) <= v <= High(field) && (field == 4 ==> v < 7)
    ensures var c := FieldText(text, field).value;
            && ComponentChars(c) && (c == "*" <==> text == "*")
            && (Translates(c, field, v) <==> FieldMatches(text, field, v))
  {
    if text == "*" {
      SplitPiece(text, "", ',');
      PartWithoutCut("*", '/');
      assert StepsOf("*", field) == Some(Steps(Low(field), High(field), 1));
      assert "*" in Split(text, ',');
    } else if "*/" <= text && field < 4 {
      StarStepMeans(text, field, v);
    } else {
      ListMeans(Split(text, ','), field, v);
    }
  }

  lemma NoSeparators(c: string)
    requires ComponentChars(c)
    ensures ' ' !in c && '-' !in c && ':' !in c
  {
  }

  lemma ThreeSplit(a: string, b: string, c: string, sep: char)
    requires sep !in a && sep !in b && sep !in c
    ensures Split(a + [sep] + b + [sep] + c, sep) == [a, b, c]
  {
    ThreeJoined(a, b, c, sep);
    SplitJoin([a, b, c], sep);
  }

  lemma LongText(date: string, time: string, minute: string, hour: string, day: string, month: string)
    requires date == "*" + ['-'] + month + ['-'] + day && time == hour + [':'] + minute + [':'] + "00"
    ensures "*-" + month + "-" + day + " " + hour + ":" + minute + ":00 UTC" == date + [' '] + time + [' '] + "UTC"
  {
    assert "*-" == "*" + ['-'] && ":00 UTC" == [':'] + "00" + [' '] + "UTC";
  }

  lemma DateAndTime(a: string, b: string, c: string, sep: char, joined: string)
    requires ComponentChars(a) && ComponentChars(b) && ComponentChars(c) && sep in "-:"
    requires joined == a + [sep] + b + [sep] + c
    ensures Split(joined, sep) == [a, b, c] && ' ' !in joined
  {
    NoSeparators(a);
    NoSeparators(b);
    NoSeparators(c);
    ThreeSplit(a, b, c, sep);
  }

  lemma TailSplits(date: string, time: string)
    requires ' ' !in date && ' ' !in time
    ensures Split(date + [' '] + time + [' '] + "UTC", ' ') == [date, time, "UTC"]
  {
    ThreeSplit(date, time, "UTC", ' ');
  }

  /** The printed line splits back into its components. */
  lemma TimerParts(minute: string, hour: string, day: string, month: string, weekday: string, date: string,
                   time: string)
    requires ComponentChars(minute) && ComponentChars(hour) && ComponentChars(day) && ComponentChars(month) &&
               ComponentChars(weekday)
    requires date == "*" + ['-'] + month + ['-'] + day && time == hour + [':'] + minute + [':'] + "00"
    ensures Split(TimerText(minute, hour, day, month, weekday), ' ') ==
            if weekday != "*" then [weekday, date, time, "UTC"] else [date, time, "UTC"]
    ensures Split(date, '-') == ["*", month, day] && Split(time, ':') == [hour, minute, "00"]
  {
    DateAndTime("*", month, day, '-', date);
    DateAndTime(hour, minute, "00", ':', time);
    TailSplits(date, time);
    var tail := date + [' '] + time + [' '] + "UTC";
    LongText(date, time, minute, hour, day, month);
    NoSeparators(weekday);
    SplitPiece(weekday, tail, ' ');
    TimerTail(weekday, month, day, hour, minute, tail);
  }

  lemma TimerTail(weekday: string, month: string, day: string, hour: string, minute: string, tail: string)
    requires tail == "*-" + month + "-" + day + " " + hour + ":" + minute + ":00 UTC"
    ensures TimerText(minute, hour, day, month, weekday) == if weekday == "*" then tail else weekday + [' '] + tail
  {
    if weekday != "*" {
      WithWeekday(weekday, month, day, hour, minute, tail);
    } else {
      assert "" + tail == tail;
    }
  }

  lemma WithWeekday(weekday: string, month: string, day: string, hour: string, minute: string, tail: string)
    requires tail == "*-" + month + "-" + day + " " + hour + ":" + minute + ":00 UTC" && weekday != "*"
    ensures TimerText(minute, hour, day, month, weekday) == weekday + [' '] + tail
  {
    assert weekday + " " == weekday + [' '];
  }

  lemma ThreeJoined(a: string, b: string, c: string, sep: char)
    ensures Join([a, b, c], sep) == a + [sep] + b + [sep] + c
  {
    assert [a, b, c][1..] == [b, c] && [b, c][1..] == [c];
    assert Join([c], sep) == c && Join([b, c], sep) == b + [sep] + c;
  }

  /** For every accepted line the timer fires at exactly the moments cron would. */
  lemma TranslationKeepsMeaning(fields: seq<string>, t: Moment)
    requires Real(t)
    ensures Translated(fields).Some? ==> (TimerMatches(Translated(fields).value, t) <==> CronMatches(fields, t))
  {
    if Accepted(fields) {
      var minute, hour, day := FieldText(fields[0], 0).value, FieldText(fields[1], 1).value,
          FieldText(fields[2], 2).value;
      var month, weekday := FieldText(fields[3], 3).value, FieldText(fields[4], 4).value;
      FieldMeans(fields[0], 0, t.minute);
      FieldMeans(fields[1], 1, t.hour);
      FieldMeans(fields[2], 2, t.day);
      FieldMeans(fields[3], 3, t.month);
      FieldMeans(fields[4], 4, t.weekday);
      TimerMeans(minute, hour, day, month, weekday, t);
    }
  }

  lemma TimerMeans(minute: string, hour: string, day: string, month: string, weekday: string, t: Moment)
    requires ComponentChars(minute) && ComponentChars(hour) && ComponentChars(day) && ComponentChars(month) &&
               ComponentChars(weekday)
    requires Real(t)
    ensures TimerMatches(TimerText(minute, hour, day, month, weekday), t) <==>
              && ComponentMatches(minute, t.minute) && ComponentMatches(hour, t.hour)
              && ComponentMatches(day, t.day) && ComponentMatches(month, t.month)
              && (weekday == "*" || WeekdaysMatch(weekday, t.weekday))
  {
    TimerParts(minute, hour, day, month, weekday,
               "*" + ['-'] + month + ['-'] + day, hour + [':'] + minute + [':'] + "00");
  }

  // ---------------------------------------------------------------------- names

  /** The name of a weekday from Sunday, as cron and systemd write it in lower case. */
  function DayName(d: nat): string
    requires d < 7
  {
    if d == 0 then "sun" else if d == 1 then "mon" else if d == 2 then "tue" else if d == 3 then "wed"
    else if d == 4 then "thu" else if d == 5 then "fri" else "sat"
  }

  function MonthName(m: nat): string
    requires 1 <= m <= 12
  {
    if m == 1 then "jan" else if m == 2 then "feb" else if m == 3 then "mar" else if m == 4 then "apr"
    else if m == 5 then "may" else if m == 6 then "jun" else if m == 7 then "jul" else if m == 8 then "aug"
    else if m == 9 then "sep" else if m == 10 then "oct" else if m == 11 then "nov" else "dec"
  }

  lemma {:induction false} FoundAt(names: seq<string>, word: string, i: nat)
    requires i < |names| && names[i] == word && forall j | 0 <= j < i :: names[j] != word
    ensures IndexIn(names, word) == i
  {
    if i > 0 {
      FoundAt(names[1..], word, i - 1);
    }
  }

  lemma DayTable(d: nat)
    requires d < 7
    ensures DAYS[d] == DayName(d) && forall j | 0 <= j < d :: DAYS[j] != DAYS[d]
    ensures Lower(DAY_NAMES[d]) == DayName(d)
  {
    assert DAYS[0] == "sun" && DAYS[1] == "mon" && DAYS[2] == "tue" && DAYS[3] == "wed";
    assert DAYS[4] == "thu" && DAYS[5] == "fri" && DAYS[6] == "sat";
    assert DAYS[0][1] == 'u' && DAYS[1][0] == 'm' && DAYS[2][1] == 'u' && DAYS[3][0] == 'w';
    assert DAY_NAMES[0] == "Sun" && DAY_NAMES[1] == "Mon" && DAY_NAMES[2] == "Tue" && DAY_NAMES[3] == "Wed";
    assert DAY_NAMES[4] == "Thu" && DAY_NAMES[5] == "Fri" && DAY_NAMES[6] == "Sat";
  }

  lemma MonthTable(m: nat)
    requires 1 <= m <= 12
    ensures MONTHS[m - 1] == MonthName(m) && forall j | 0 <= j < m - 1 :: MONTHS[j] != MONTHS[m - 1]
  {
    assert MONTHS[0] == "jan" && MONTHS[1] == "feb" && MONTHS[2] == "mar" && MONTHS[3] == "apr" && MONTHS[4] == "may";
    assert MONTHS[5] == "jun" && MONTHS[6] == "jul" && MONTHS[7] == "aug" && MONTHS[8] == "sep" && MONTHS[9] == "oct";
    assert MONTHS[10] == "nov" && MONTHS[11] == "dec";
  }

  /** A weekday name in any letter case is read as its day, and the timer prints that day by
      the same name; a month name is read as its month. */
  lemma NamesAreRead(word: string, d: nat, m: nat)
    requires d < 7 && 1 <= m <= 12
    ensures Lower(word) == DayName(d) ==> NumberIn(word, 4) == Some(d)
    ensures Lower(word) == MonthName(m) ==> NumberIn(word, 3) == Some(m)
    ensures Lower(DAY_NAMES[d]) == DayName(d)
  {
    DayTable(d);
    DayIsRead(word, d);
    MonthIsRead(word, m);
  }

  lemma DayIsRead(word: string, d: nat)
    requires d < 7
    ensures Lower(word) == DayName(d) ==> NumberIn(word, 4) == Some(d)
  {
    DayTable(d);
    FoundAt(DAYS, DAYS[d], d);
  }

  lemma MonthIsRead(word: string, m: nat)
    requires 1 <= m <= 12
    ensures Lower(word) == MonthName(m) ==> NumberIn(word, 3) == Some(m)
  {
    MonthTable(m);
    FoundAt(MONTHS, MONTHS[m - 1], m - 1);
  }

  /** Everything else is read as a number in the range of its field, and names only in their
      own field. */
  lemma OtherWordsAreNumbers(word: string, field: nat)
    requires field < 5
    requires field == 3 ==> forall m | 1 <= m <= 12 :: Lower(word) != MonthName(m)
    requires field == 4 ==> forall d | 0 <= d < 7 :: Lower(word) != DayName(d)
    ensures var (low, high) := [(0, 59), (0, 23), (1, 31), (1, 12), (0, 7)][field];
            NumberIn(word, field) ==
            if IsDigits(word) && low <= Number(word) <= high then Some(Number(word)) else None
  {
    if field == 3 {
      forall i | 0 <= i < |MONTHS| ensures MONTHS[i] != Lower(word) { MonthTable(i + 1); }
    } else if field == 4 {
      forall i | 0 <= i < |DAYS| ensures DAYS[i] != Lower(word) { DayTable(i); }
    }
  }

  // ------------------------------------------------------- which lines are accepted

  /** The documented items of a field: `*`, `a` or `a-b`, each with or without `/n`. */
  datatype Base = Star | One(a: string) | Span(a: string, b: string)
  datatype Item = Item(base: Base, step: Option<string>)

  function BaseText(base: Base): string {
    match base
    case Star => "*"
    case One(a) => a
    case Span(a, b) => a + ['-'] + b
  }

  function ItemText(item: Item): string {
    if item.step.None? then BaseText(item.base) else BaseText(item.base) + ['/'] + item.step.value
  }

  /** Numbers and names in range, a range that does not run backwards, a step of 1 or more. */
  predicate GoodItem(item: Item, field: nat) {
    && (item.step.Some? ==> IsDigits(item.step.value) && Number(item.step.value) >= 1)
    && '/' !in BaseText(item.base)
    && match item.base
       case Star => true
       case One(a) => a != "*" && '-' !in a && NumberIn(a, field).Some?
       case Span(a, b) =>
         && '-' !in a && NumberIn(a, field).Some? && NumberIn(b, field).Some?
         && NumberIn(a, field).value <= NumberIn(b, field).value
  }

  function ItemSteps(item: Item, field: nat): Steps
    requires GoodItem(item, field)
  {
    var step := if item.step.Some? then Number(item.step.value) else 1;
    match item.base
    case Star => Steps(Low(field), High(field), step)
    case One(a) => var n := NumberIn(a, field).value; Steps(n, if item.step.Some? then High(field) else n, step)
    case Span(a, b) => Steps(NumberIn(a, field).value, NumberIn(b, field).value, step)
  }

  lemma NumbersAreInField(text: string, field: nat)
    ensures NumberIn(text, field).Some? ==> text != "" && NumberIn(text, field).value <= High(field)
  {
    if text == "" {
      assert Lower(text) == "";
      assert forall i :: 0 <= i < |MONTHS| ==> |MONTHS[i]| == 3;
      assert forall i :: 0 <= i < |DAYS| ==> |DAYS[i]| == 3;
    }
  }

  lemma ItemParts(item: Item)
    requires '/' !in BaseText(item.base)
    ensures var part := ItemText(item);
            && Before(part, '/') == BaseText(item.base) && ('/' in part <==> item.step.Some?)
            && (item.step.Some? ==> After(part, '/') == item.step.value)
  {
    var base := BaseText(item.base);
    if item.step.Some? {
      CutAt(base, '/', item.step.value);
      assert ItemText(item)[|base|] == '/';
    } else {
      PartWithoutCut(base, '/');
    }
  }

  lemma SpanParts(a: string, b: string)
    requires '-' !in a
    ensures var base := BaseText(Span(a, b));
            '-' in base && base != "*" && Before(base, '-') == a && After(base, '-') == b
  {
    CutAt(a, '-', b);
    assert BaseText(Span(a, b))[|a|] == '-';
  }

  /** A documented item is read as what it says. */
  lemma ItemIsRead(item: Item, field: nat)
    requires GoodItem(item, field)
    ensures StepsOf(ItemText(item), field) == Some(ItemSteps(item, field))
  {
    ItemParts(item);
    match item.base
    case Star =>
    case One(a) => NumbersAreInField(a, field);
    case Span(a, b) => SpanParts(a, b);
  }

  lemma {:induction false} StopsAt(s: string, c: char)
    requires c in s
    ensures |Before(s, c)| < |s| && s[|Before(s, c)|] == c
  {
    if s[0] != c {
      assert s == [s[0]] + s[1..];
      StopsAt(s[1..], c);
    }
  }

  lemma {:induction false} CutsApart(s: string, c: char)
    ensures c in s ==> s == Before(s, c) + [c] + After(s, c)
    ensures c !in s ==> s == Before(s, c)
  {
    if c in s {
      StopsAt(s, c);
      var k := |Before(s, c)|;
      assert s == s[..k] + [s[k]] + s[k + 1..];
    } else {
      PartWithoutCut(s, c);
    }
  }

  /** And every part that is read is a documented item. */
  lemma ReadPartsAreItems(part: string, field: nat) returns (item: Item)
    requires StepsOf(part, field).Some?
    ensures GoodItem(item, field) && ItemText(item) == part
  {
    var base := Before(part, '/');
    CutsApart(part, '/');
    CutsApart(base, '-');
    item := Item(if base == "*" then Star else if '-' in base then Span(Before(base, '-'), After(base, '-'))
        else One(base),
                 if '/' in part then Some(After(part, '/')) else None);
    assert BaseText(item.base) == base;
  }

  /** A field that the documentation promises: a comma list of items. */
  ghost predicate Documented(text: string, field: nat) {
    forall p :: p in Split(text, ',') ==> exists item: Item :: GoodItem(item, field) && ItemText(item) == p
  }

  // A list that starts with a star step `*/n`, outside the weekday field.
  predicate StarStepList(text: string, field: nat) {
    field < 4 && "*/" <= text && ',' in text
  }

  ghost predicate Supported(text: string, field: nat) {
    Documented(text, field) && !StarStepList(text, field)
  }

  lemma DocumentedIsReadable(text: string, field: nat)
    ensures Documented(text, field) <==> forall p :: p in Split(text, ',') ==> p != "" && StepsOf(p, field).Some?
  {
    forall p | p in Split(text, ',')
      ensures (exists item: Item :: GoodItem(item, field) && ItemText(item) == p) <==>
                p != "" && StepsOf(p, field).Some?
    {
      if item: Item :| GoodItem(item, field) && ItemText(item) == p {
        ItemIsRead(item, field);
        if item.base.One? { NumbersAreInField(item.base.a, field); }
      }
      if StepsOf(p, field).Some? {
        var item := ReadPartsAreItems(p, field);
      }
    }
  }

  lemma {:induction false} GatheredIff(parts: seq<string>, values: string -> Option<set<nat>>, n: nat)
    requires n <= |parts|
    ensures Gathered(parts, values, n).Some? <==> forall k :: 0 <= k < n ==> values(parts[k]).Some?
  {
    if n > 0 {
      GatheredIff(parts, values, n - 1);
    }
  }

  /** A field is accepted exactly when it is documented, but for the lists that start with
      a star step: those are refused outside the weekday field. */
  lemma FieldIsAccepted(text: string, field: nat)
    requires field < 5
    ensures FieldText(text, field).Some? <==> Supported(text, field)
  {
    DocumentedIsReadable(text, field);
    var parts := Split(text, ',');
    if ',' !in text { SplitPiece(text, "", ','); }
    if text == "*" {
      PartWithoutCut("*", '/');
    } else if "*/" <= text && field < 4 {
      var step := text[2..];
      assert text == "*" + ['/'] + step;
      CutAt("*", '/', step);
      assert text[1] == '/' && (',' in text <==> ',' in step);
      assert StepsOf(text, field).Some? <==> IsDigits(step) && Number(step) >= 1;
      assert ',' !in text ==> parts == [text];
      assert FieldText(text, field).Some? <==> IsDigits(step) && Number(step) >= 1;
    } else {
      GatheredIff(parts, PartValues(field), |parts|);
      assert FieldText(text, field).Some? <==> forall k :: 0 <= k < |parts| ==> PartValues(field)(parts[k]).Some?;
      assert forall p :: PartValues(field)(p).Some? <==> p != "" && StepsOf(p, field).Some?;
    }
  }

  lemma StarFieldOnly(text: string, field: nat)
    requires field < 5
    ensures FieldText(text, field) == Some("*") <==> text == "*"
  {
    if FieldText(text, field).Some? {
      FieldMeans(text, field, Low(field));
    }
  }

  /** A line is accepted exactly when it has five documented fields, none of them a star
      step list outside the weekday field, and the day of the month or the weekday is `*`. */
  lemma LineIsAccepted(fields: seq<string>)
    ensures Translated(fields).Some? <==>
              && |fields| == 5
              && Supported(fields[0], 0) && Supported(fields[1], 1) && Supported(fields[2], 2)
              && Supported(fields[3], 3) && Supported(fields[4], 4)
              && (fields[2] == "*" || fields[4] == "*")
  {
    if |fields| == 5 {
      FieldIsAccepted(fields[0], 0);
      FieldIsAccepted(fields[1], 1);
      FieldIsAccepted(fields[2], 2);
      FieldIsAccepted(fields[3], 3);
      FieldIsAccepted(fields[4], 4);
      StarFieldOnly(fields[2], 2);
      StarFieldOnly(fields[4], 4);
    }
  }

  // So a documented list such as `*/5,30` is refused outside the weekday field.
  lemma StarStepListIsRefused(n: string, rest: string, field: nat)
    requires field < 4 && IsDigits(n) && Number(n) >= 1 && Documented(rest, field)
    ensures var text := "*/" + n + "," + rest;
            Documented(text, field) && FieldText(text, field) == None
  {
    var text, item := "*/" + n + "," + rest, Item(Star, Some(n));
    assert text == ItemText(item) + [','] + rest && text[2 + |n|] == ',';
    ItemIsRead(item, field);
    assert ',' !in ItemText(item);
    SplitPiece(ItemText(item), rest, ',');
    DocumentedIsReadable(rest, field);
    DocumentedIsReadable(text, field);
    FieldIsAccepted(text, field);
  }
}
