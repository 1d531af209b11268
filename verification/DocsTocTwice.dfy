/** When rendering a contents list twice is rendering it once: exactly when no block starts
    ahead of the new one. */
module DocsTocTwice {
  import opened Options
  import opened Text
  import opened DocsToc

  // ------------------------------------------------- lines that change nothing around them

  /** A heading has a hash mark after its spaces. */
  ghost predicate HashMarks(md: Markdown) {
    forall s: string :: md.heading(s).Some? ==> RunOf(s, ' ') < |s| && s[RunOf(s, ' ')] == '#'
  }

  /** Neither a heading nor a fence. */
  predicate Inert(line: string, md: Markdown) {
    md.heading(line).None? && FenceOf(line).None?
  }

  predicate AllInert(lines: seq<string>, md: Markdown) {
    forall k | 0 <= k < |lines| :: Inert(lines[k], md)
  }

  lemma {:induction false} RunStops(s: string, n: nat)
    requires n < |s| && s[n] != ' ' && forall k | 0 <= k < n :: s[k] == ' '
    ensures RunOf(s, ' ') == n
  {
    if n > 0 {
      RunStops(s[1..], n - 1);
    }
  }

  lemma OpensInert(line: string, n: nat, md: Markdown)
    requires HashMarks(md) && n < |line| && line[n] !in " #`~" && forall k | 0 <= k < n :: line[k] == ' '
    ensures Inert(line, md)
  {
    assert line[n] != ' ' && line[n] != '#' && line[n] != '`' && line[n] != '~' by {
      assert ' ' in " #`~" && '#' in " #`~" && '`' in " #`~" && '~' in " #`~";
    }
    RunStops(line, n);
    assert line[n..][0] == line[n];
  }

  lemma EmptyIsInert(md: Markdown)
    requires HashMarks(md)
    ensures Inert("", md)
  {
  }

  lemma {:induction false} EntriesAreInert(heads: seq<Heading>, slugs: seq<string>, md: Markdown)
    requires |heads| == |slugs| && HashMarks(md)
    ensures AllInert(Listed(heads, slugs, md), md)
  {
    if heads != [] {
      EntriesAreInert(heads[1..], slugs[1..], md);
      var line := EntryLine(heads[0], slugs[0], md);
      OpensInert(line, if heads[0].level == 3 then 2 else 0, md);
    }
  }

  /** What the lines of a block look like, whatever its three marks are. */
  predicate Framed(block: seq<string>, open: string, title: string, close: string) {
    && |block| >= 4 && block[0] == open && block[1] == title && block[2] == "" && block[|block| - 1] == close
    && (forall k | 0 <= k < |block| - 1 :: block[k] != close)
    && (forall k | 0 < k < |block| :: block[k] != open)
    && !WhiteSpace(open) && !WhiteSpace(title)
  }

  predicate IsListing(block: seq<string>, md: Markdown) {
    Framed(block, START, "**Contents**", END) && AllInert(block, md)
  }

  lemma StartIsInert(md: Markdown)
    requires HashMarks(md)
    ensures Inert(START, md) && !WhiteSpace(START)
  {
    ConstantLines();
    OpensWithMark(START, md);
  }

  lemma OpensWithMark(line: string, md: Markdown)
    requires HashMarks(md) && line != "" && line[0] in "<*"
    ensures Inert(line, md) && !WhiteSpace(line)
  {
    assert line[0] == '<' || line[0] == '*' by { assert "<*"[0] == '<' && "<*"[1] == '*'; }
    assert line[0] in line && !Blank(line[0]);
    OpensInert(line, 0, md);
  }

  lemma Frames(open: string, title: string, entries: seq<string>, close: string, md: Markdown)
    requires open !in entries && close !in entries && open != title && open != close && title != close
    requires open != "" && close != "" && !WhiteSpace(open) && !WhiteSpace(title)
    requires AllInert(entries, md) && Inert(open, md) && Inert(title, md) && Inert("", md) && Inert(close, md)
    ensures var block := [open, title, ""] + entries + [close];
            Framed(block, open, title, close) && AllInert(block, md)
  {
    var block := [open, title, ""] + entries + [close];
    forall k | 3 <= k < |block| - 1 ensures block[k] in entries && block[k] == entries[k - 3] {
    }
  }

  lemma BlockIsListing(block: seq<string>, lines: seq<string>, md: Markdown)
    requires IsBlock(block, lines, md) && HashMarks(md)
    ensures IsListing(block, md)
  {
    var heads := Headings(lines, md);
    var slugs: seq<string> :| AreAnchors(slugs, heads, md) &&
      block == [START, "**Contents**", ""] + Listed(heads, slugs, md) + [END];
    EntriesAreNotStart(heads, slugs, md);
    EntriesAreNotEnd(heads, slugs, md);
    EntriesAreInert(heads, slugs, md);
    StartIsInert(md);
    OpensWithMark("**Contents**", md);
    OpensWithMark(END, md);
    EmptyIsInert(md);
    ConstantsDiffer();
    Frames(START, "**Contents**", Listed(heads, slugs, md), END, md);
  }

  // ---------------------------------------------------------------------- the anchor

  /** Is there a level 1 heading at line `i`? */
  predicate TopAt(lines: seq<string>, i: nat, md: Markdown) {
    i < |lines| && HeadingAt(lines, i, md).Some? && HeadingAt(lines, i, md).value.level == 1
  }

  /** `top` is the first of the level 1 headings among the first `n` lines. */
  predicate IsFirstTop(top: Option<nat>, lines: seq<string>, n: nat, md: Markdown) {
    && (top.Some? ==>
          top.value < n && TopAt(lines, top.value, md) && forall i | 0 <= i < top.value :: !TopAt(lines, i, md))
    && (top.None? ==> forall i | 0 <= i < n :: !TopAt(lines, i, md))
  }

  lemma {:induction false} TopIsFirst(lines: seq<string>, n: nat, md: Markdown)
    requires n <= |lines|
    ensures IsFirstTop(FirstTop(HeadingsUpTo(lines, n, md)), lines, n, md)
  {
    if n > 0 {
      TopIsFirst(lines, n - 1, md);
      TopOfOneMore(lines, n, md);
      TopGrows(FirstTop(HeadingsUpTo(lines, n - 1, md)), lines, n, md);
    }
  }

  lemma TopGrows(before: Option<nat>, lines: seq<string>, n: nat, md: Markdown)
    requires 0 < n <= |lines| && IsFirstTop(before, lines, n - 1, md)
    ensures var top := if before.Some? then before else if TopAt(lines, n - 1, md) then Some(n - 1) else None;
            IsFirstTop(top, lines, n, md)
  {
  }

  lemma TopOfOneMore(lines: seq<string>, n: nat, md: Markdown)
    requires 0 < n <= |lines|
    ensures var before, top := FirstTop(HeadingsUpTo(lines, n - 1, md)), FirstTop(HeadingsUpTo(lines, n, md));
            top == if before.Some? then before else if TopAt(lines, n - 1, md) then Some(n - 1) else None
  {
    var heads, last := HeadingsUpTo(lines, n - 1, md), HeadingAt(lines, n - 1, md);
    if last.Some? {
      FirstTopGrows(heads, last.value);
      assert HeadingsUpTo(lines, n, md) == heads + [last.value];
    } else {
      assert HeadingsUpTo(lines, n, md) == heads;
    }
  }

  lemma {:induction false} FirstTopGrows(heads: seq<Heading>, h: Heading)
    ensures FirstTop(heads + [h]) ==
            if FirstTop(heads).Some? then FirstTop(heads) else if h.level == 1 then Some(h.at) else None
  {
    if heads != [] {
      assert (heads + [h])[1..] == heads[1..] + [h];
      FirstTopGrows(heads[1..], h);
    }
  }

  lemma {:induction false} FenceInFront(front: seq<string>, rest: seq<string>, n: nat)
    requires n <= |front|
    ensures OpenFence(front + rest, n) == OpenFence(front, n)
  {
    if n > 0 { FenceInFront(front, rest, n - 1); }
  }

  lemma {:induction false} FenceInside(front: seq<string>, mid: seq<string>, rest: seq<string>, md: Markdown, n: nat)
    requires AllInert(mid, md) && n <= |mid|
    ensures OpenFence(front + mid + rest, |front| + n) == OpenFence(front, |front|)
  {
    assert front + mid + rest == front + (mid + rest);
    if n == 0 {
      FenceInFront(front, mid + rest, |front|);
    } else {
      FenceInside(front, mid, rest, md, n - 1);
      assert (front + mid + rest)[|front| + n - 1] == mid[n - 1];
    }
  }

  lemma {:induction false} FenceBehind(front: seq<string>, mid: seq<string>, rest: seq<string>, md: Markdown, n: nat)
    requires AllInert(mid, md) && n <= |rest|
    ensures OpenFence(front + mid + rest, |front| + |mid| + n) == OpenFence(front + rest, |front| + n)
  {
    if n == 0 {
      FenceInside(front, mid, rest, md, |mid|);
      FenceInFront(front, rest, |front|);
    } else {
      FenceBehind(front, mid, rest, md, n - 1);
      assert (front + mid + rest)[|front| + |mid| + n - 1] == rest[n - 1] == (front + rest)[|front| + n - 1];
    }
  }

  /** Lines that are neither headings nor fences move the headings behind them and change
      none. */
  lemma TopsAround(front: seq<string>, mid: seq<string>, rest: seq<string>, md: Markdown, i: nat)
    requires AllInert(mid, md)
    ensures var with, without := front + mid + rest, front + rest;
            && (i < |front| ==> (TopAt(with, i, md) <==> TopAt(without, i, md)))
            && (|front| <= i < |front| + |mid| ==> !TopAt(with, i, md))
            && (|front| + |mid| <= i ==> (TopAt(with, i, md) <==> TopAt(without, i - |mid|, md)))
  {
    var with, without := front + mid + rest, front + rest;
    if i < |front| {
      assert with == front + (mid + rest);
      FenceInFront(front, mid + rest, i);
      FenceInFront(front, rest, i);
    } else if i < |front| + |mid| {
      assert with[i] == mid[i - |front|];
    } else if i < |with| {
      FenceBehind(front, mid, rest, md, i - |front| - |mid|);
      assert with[i] == without[i - |mid|];
    }
  }

  lemma TopStays(front: seq<string>, mid: seq<string>, rest: seq<string>, md: Markdown)
    requires AllInert(mid, md)
    requires FirstTop(Headings(front + rest, md)).Some? ==> FirstTop(Headings(front + rest, md)).value < |front|
    ensures FirstTop(Headings(front + mid + rest, md)) == FirstTop(Headings(front + rest, md))
  {
    var with, without := front + mid + rest, front + rest;
    TopIsFirst(with, |with|, md);
    TopIsFirst(without, |without|, md);
    var top, was := FirstTop(Headings(with, md)), FirstTop(Headings(without, md));
    if top.Some? { TopsAround(front, mid, rest, md, top.value); }
    if was.Some? { TopsAround(front, mid, rest, md, was.value); }
  }

  lemma FenceStays(front: seq<string>, mid: seq<string>, rest: seq<string>)
    requires front != [] && FirstFence(front + rest, 1) < |front|
    ensures FirstFence(front + mid + rest, 1) == FirstFence(front + rest, 1)
  {
    var with, without := front + mid + rest, front + rest;
    forall i | 0 <= i < |front| ensures with[i] == without[i] {}
  }

  /** An inserted run of such lines behind the anchor keeps it. */
  lemma AnchorStays(front: seq<string>, mid: seq<string>, rest: seq<string>, md: Markdown)
    requires AllInert(mid, md) && AnchorOf(front + rest, md).Some? && AnchorOf(front + rest, md).value < |front|
    ensures AnchorOf(front + mid + rest, md) == AnchorOf(front + rest, md)
  {
    TopStays(front, mid, rest, md);
    assert (front + mid + rest)[0] == (front + rest)[0];
    if FirstTop(Headings(front + rest, md)).None? {
      FenceStays(front, mid, rest);
    }
  }

  /** And in front of everything it adds no level 1 heading. */
  lemma NoTopInFront(mid: seq<string>, lines: seq<string>, md: Markdown, i: nat)
    requires AllInert(mid, md) && AnchorOf(lines, md).None?
    ensures !TopAt(mid + lines, i, md)
  {
    TopIsFirst(lines, |lines|, md);
    TopsAround([], mid, lines, md, i);
    assert [] + mid + lines == mid + lines && [] + lines == lines;
  }

  // ------------------------------------------------------------------------ the place

  function IndexOf(lines: seq<string>, p: Place): nat
    requires p.At? ==> p.index <= |lines|
  {
    match p
    case Front => 0
    case Back => |lines|
    case At(b) => b
  }

  /** Behind the anchor `h`: blank lines up to `f`, then a paragraph up to `b`, then a blank
      line or the end. */
  predicate Paragraph(lines: seq<string>, h: nat, f: nat, b: nat) {
    && h < f <= b <= |lines|
    && (forall l | h < l < f :: WhiteSpace(lines[l])) && (forall l | f <= l < b :: !WhiteSpace(lines[l]))
    && (b < |lines| ==> f < b && WhiteSpace(lines[b]))
  }

  lemma PlaceIsParagraph(lines: seq<string>, md: Markdown) returns (f: nat)
    requires AnchorOf(lines, md).Some?
    ensures Paragraph(lines, AnchorOf(lines, md).value, f, IndexOf(lines, PlaceOf(lines, md)))
    ensures !PlaceOf(lines, md).Front?
  {
    f := FirstBlank(lines, false, AnchorOf(lines, md).value + 1);
  }

  /** `all` is `lines` with a blank line and the block put in at `b`. */
  predicate PutIn(all: seq<string>, lines: seq<string>, block: seq<string>, b: nat) {
    b <= |lines| && all == lines[..b] + ([""] + block) + lines[b..]
  }

  lemma InsertedIsPutIn(lines: seq<string>, block: seq<string>, md: Markdown)
    requires AnchorOf(lines, md).Some?
    ensures var p := PlaceOf(lines, md);
            && PutIn(InsertBlock(lines, block, md), lines, block, IndexOf(lines, p))
            && Ahead(lines, p) == lines[..IndexOf(lines, p)]
  {
    var f := PlaceIsParagraph(lines, md);
    var b := IndexOf(lines, PlaceOf(lines, md));
    assert lines[..b] + ([""] + block) + lines[b..] == lines[..b] + [""] + block + lines[b..];
    assert lines[..|lines|] == lines;
  }

  lemma PutInAt(all: seq<string>, lines: seq<string>, block: seq<string>, b: nat)
    requires PutIn(all, lines, block, b)
    ensures |all| == |lines| + 1 + |block| && all[b] == "" && all[..b] == lines[..b]
    ensures forall k | 0 <= k < b :: all[k] == lines[k]
    ensures forall k | 0 <= k < |block| :: all[b + 1 + k] == block[k]
    ensures forall k | b <= k < |lines| :: all[k + 1 + |block|] == lines[k]
    ensures block <= all[b + 1..]
  {
  }

  lemma PutInMarks(all: seq<string>, lines: seq<string>, block: seq<string>, b: nat, open: string, title: string,
                   close: string)
    requires PutIn(all, lines, block, b) && Framed(block, open, title, close)
    ensures b + 4 < |all| && b <= |lines|
    ensures all[b] == "" && all[b + 1] == open && all[b + 2] == title && all[b + 3] == "" && all[b + 4] != open
    ensures !WhiteSpace(open) && title != "" && WhiteSpace("")
    ensures forall k | 0 <= k < b :: all[k] == lines[k]
  {
    PutInAt(all, lines, block, b);
    assert all[b + 1 + 0] == block[0] && all[b + 1 + 1] == block[1] && all[b + 1 + 2] == block[2] &&
        all[b + 1 + 3] == block[3];
  }

  /** A blank line behind a line of the paragraph ends it. `all` has the same lines up to
      the place. */
  lemma EndsBy(all: seq<string>, lines: seq<string>, h: nat, f: nat, b: nat, x: nat, y: nat)
    requires Paragraph(lines, h, f, b) && b <= |all| && forall k | 0 <= k < b :: all[k] == lines[k]
    requires h < x < y < |all| && !WhiteSpace(all[x]) && WhiteSpace(all[y])
    ensures b <= y
  {
  }

  lemma BeforeTheAnchor(lines: seq<string>, h: nat, f: nat, b: nat, x: nat, y: nat)
    requires Paragraph(lines, h, f, b) && x < y < b && !WhiteSpace(lines[x]) && WhiteSpace(lines[y])
    ensures x <= h
  {
  }

  /** Of two places in one text neither is later: the lines ahead of it would have their
      first blank line after a paragraph at the other one. */
  lemma NotLater(all: seq<string>, lines: seq<string>, block: seq<string>, f: nat, b: nat,
                 other: seq<string>, block': seq<string>, f': nat, b': nat,
                 h: nat, open: string, title: string, close: string)
    requires PutIn(all, lines, block, b) && Paragraph(lines, h, f, b) && Framed(block, open, title, close)
    requires PutIn(all, other, block', b') && Paragraph(other, h, f', b') && Framed(block', open, title, close)
    ensures b' <= b
  {
    PutInMarks(all, lines, block, b, open, title, close);
    PutInMarks(all, other, block', b', open, title, close);
    if f < b {
      EndsBy(all, other, h, f', b', f, b);
    } else {
      EndsBy(all, other, h, f', b', b + 1, b + 3);
    }
  }

  /** A block ends at its first end line. */
  lemma OneEnd(tail: seq<string>, block: seq<string>, block': seq<string>, open: string, title: string, close: string)
    requires Framed(block, open, title, close) && Framed(block', open, title, close)
    requires block <= tail && block' <= tail
    ensures block == block'
  {
    assert forall k | 0 <= k < |block| :: tail[k] == block[k];
    assert forall k | 0 <= k < |block'| :: tail[k] == block'[k];
    assert tail[|block| - 1] == close == tail[|block'| - 1];
  }

  /** There is one way to see a text as lines with a block at their place. */
  lemma PutInOnce(all: seq<string>, lines: seq<string>, block: seq<string>, f: nat, b: nat,
                  other: seq<string>, block': seq<string>, f': nat, b': nat,
                  h: nat, open: string, title: string, close: string)
    requires PutIn(all, lines, block, b) && Paragraph(lines, h, f, b) && Framed(block, open, title, close)
    requires PutIn(all, other, block', b') && Paragraph(other, h, f', b') && Framed(block', open, title, close)
    ensures lines == other && b == b'
  {
    NotLater(all, lines, block, f, b, other, block', f', b', h, open, title, close);
    NotLater(all, other, block', f', b', lines, block, f, b, h, open, title, close);
    PutInAt(all, lines, block, b);
    PutInAt(all, other, block', b);
    OneEnd(all[b + 1..], block, block', open, title, close);
    LinesAround(all, lines, block, b);
    LinesAround(all, other, block, b);
  }

  lemma LinesAround(all: seq<string>, lines: seq<string>, block: seq<string>, b: nat)
    requires PutIn(all, lines, block, b)
    ensures b + 1 + |block| <= |all| && lines == all[..b] + all[b + 1 + |block|..]
  {
  }

  // -------------------------------------------------------------- copies of the block

  /** From `start` to `b` every line is that of one block and blank line further on. */
  predicate Repeats(all: seq<string>, start: nat, b: nat, n: nat) {
    start <= b && b + n <= |all| && forall k | start <= k < b :: all[k] == all[k + n]
  }

  lemma CutRepeats(all: seq<string>, start: nat, b: nat, n: nat)
    requires start <= b && b + n <= |all| && start + n <= |all|
    requires all[..start] + all[start + n..] == all[..b] + all[b + n..]
    ensures Repeats(all, start, b, n)
  {
    var cut, kept := all[..start] + all[start + n..], all[..b] + all[b + n..];
    forall k | start <= k < b ensures all[k] == all[k + n] {
      assert cut[k] == all[k + n] && kept[k] == all[k];
    }
  }

  lemma {:induction false} IsACopy(all: seq<string>, start: nat, b: nat, n: nat, k: nat)
    requires Repeats(all, start, b, n) && start <= k < b && n > 0
    ensures all[k] in all[b..b + n]
    decreases b - k
  {
    if k + n < b {
      IsACopy(all, start, b, n, k + n);
    } else {
      assert all[b..b + n][k + n - b] == all[k + n];
    }
  }

  /** Two lines behind the opening line of a copy there is a blank one. */
  lemma {:induction false} CopyHasABlank(all: seq<string>, start: nat, b: nat, n: nat, k: nat, open: string)
    requires Repeats(all, start, b, n) && start <= k < b && n >= 5 && all[k] == open
    requires all[b + 3] == "" && forall x | b <= x < b + n && all[x] == open :: x == b + 1
    ensures k + 2 < b && all[k + 2] == ""
    decreases b - k
  {
    if k + n < b {
      CopyHasABlank(all, start, b, n, k + n, open);
    } else {
      assert all[k + n] == open;
    }
  }

  lemma LeftIsACut(lines: seq<string>, start: nat, end: nat)
    requires start <= end <= |lines|
    ensures var left := Left(lines, start, end);
            && |left| <= |lines| && start + (|lines| - |left|) <= |lines|
            && left == lines[..start] + lines[start + (|lines| - |left|)..]
  {
    var rest := lines[end..];
    assert rest != [] ==> rest[1..] == lines[end + 1..];
  }

  /** When taking a block out gives the lines the block was put into, no block starts
      ahead of its place: the lines from there on would be copies of the block, the anchor
      would be a line of it, or the paragraph would end earlier. */
  lemma CutGivesLines(all: seq<string>, lines: seq<string>, block: seq<string>, f: nat, b: nat, h: nat, i: nat,
                      start: nat, end: nat,
                      open: string, title: string, close: string)
    requires PutIn(all, lines, block, b) && Paragraph(lines, h, f, b) && Framed(block, open, title, close)
    requires start <= i < b && all[i] == open && i < end <= |all|
    requires Left(all, start, end) == lines
    ensures start <= h < b && lines[h] in [""] + block
  {
    var n := 1 + |block|;
    CutRepeatsBlock(all, lines, block, b, start, end);
    PutInMarks(all, lines, block, b, open, title, close);
    OneOpening(all, lines, block, b, open, title, close);
    CopyHasABlank(all, start, b, n, i, open);
    BeforeTheAnchor(lines, h, f, b, i, i + 2);
    IsACopy(all, start, b, n, h);
  }

  lemma CutRepeatsBlock(all: seq<string>, lines: seq<string>, block: seq<string>, b: nat, start: nat, end: nat)
    requires PutIn(all, lines, block, b) && start <= b && start <= end <= |all| && Left(all, start, end) == lines
    ensures Repeats(all, start, b, 1 + |block|) && all[b..b + 1 + |block|] == [""] + block
  {
    LeftIsACut(all, start, end);
    LinesAround(all, lines, block, b);
    CutRepeats(all, start, b, 1 + |block|);
  }

  lemma OneOpening(all: seq<string>, lines: seq<string>, block: seq<string>, b: nat, open: string, title: string,
                   close: string)
    requires PutIn(all, lines, block, b) && Framed(block, open, title, close)
    ensures b + 1 + |block| <= |all| && forall x | b <= x < b + 1 + |block| && all[x] == open :: x == b + 1
  {
    PutInAt(all, lines, block, b);
    assert WhiteSpace("");
    forall x | b < x < b + 1 + |block| ensures all[x] == block[x - b - 1] {
      assert all[b + 1 + (x - b - 1)] == block[x - b - 1];
    }
  }

  // --------------------------------------------------------------------- the theorem

  lemma AnchorIsNotInert(lines: seq<string>, md: Markdown)
    requires AnchorOf(lines, md).Some?
    ensures !Inert(lines[AnchorOf(lines, md).value], md)
  {
    TopIsFirst(lines, |lines|, md);
  }

  /** Putting the block in keeps the anchor. */
  lemma InsertKeepsAnchor(lines: seq<string>, block: seq<string>, md: Markdown)
    requires AllInert(block, md) && HashMarks(md) && AnchorOf(lines, md).Some?
    ensures AnchorOf(InsertBlock(lines, block, md), md) == AnchorOf(lines, md)
  {
    var f := PlaceIsParagraph(lines, md);
    var b := IndexOf(lines, PlaceOf(lines, md));
    InsertedIsPutIn(lines, block, md);
    BlankAndBlock(block, md);
    KeepsAnchorAt(lines, [""] + block, b, md);
  }

  lemma BlankAndBlock(block: seq<string>, md: Markdown)
    requires AllInert(block, md) && HashMarks(md)
    ensures AllInert([""] + block, md) && AllInert(block + [""], md)
  {
    EmptyIsInert(md);
  }

  lemma KeepsAnchorAt(lines: seq<string>, mid: seq<string>, b: nat, md: Markdown)
    requires AllInert(mid, md) && AnchorOf(lines, md).Some? && AnchorOf(lines, md).value < b <= |lines|
    ensures AnchorOf(lines[..b] + mid + lines[b..], md) == AnchorOf(lines, md)
  {
    assert lines == lines[..b] + lines[b..];
    AnchorStays(lines[..b], mid, lines[b..], md);
  }

  /** A block in front of lines without an anchor makes none. */
  lemma FrontHasNoAnchor(lines: seq<string>, block: seq<string>, md: Markdown)
    requires AllInert(block, md) && block != [] && HashMarks(md) && AnchorOf(lines, md).None?
    ensures AnchorOf(InsertBlock(lines, block, md), md).None?
  {
    var all, mid := InsertBlock(lines, block, md), block + [""];
    BlankAndBlock(block, md);
    assert all == mid + lines;
    TopIsFirst(all, |all|, md);
    if FirstTop(Headings(all, md)).Some? {
      NoTopInFront(mid, lines, md, FirstTop(Headings(all, md)).value);
    }
    assert all[0] == block[0];
  }

  /** What the second rendering starts from has an anchor as well. */
  lemma OtherHasAnchor(lines: seq<string>, block: seq<string>, other: seq<string>, block': seq<string>, md: Markdown)
    requires AllInert(block, md) && AllInert(block', md) && block' != [] && HashMarks(md) && AnchorOf(lines, md).Some?
    requires InsertBlock(lines, block, md) == InsertBlock(other, block', md)
    ensures AnchorOf(other, md).Some?
  {
    InsertKeepsAnchor(lines, block, md);
    if AnchorOf(other, md).None? {
      FrontHasNoAnchor(other, block', md);
    }
  }

  /** The lines of the first rendering, when the second one gives its own text back. */
  lemma SecondGivesLines(lines: seq<string>, block: seq<string>, other: seq<string>, block': seq<string>, md: Markdown)
    requires IsListing(block, md) && IsListing(block', md) && HashMarks(md) && AnchorOf(lines, md).Some?
    requires InsertBlock(lines, block, md) == InsertBlock(other, block', md)
    ensures other == lines
  {
    var all := InsertBlock(lines, block, md);
    OtherHasAnchor(lines, block, other, block', md);
    InsertKeepsAnchor(lines, block, md);
    InsertKeepsAnchor(other, block', md);
    InsertedIsPutIn(lines, block, md);
    InsertedIsPutIn(other, block', md);
    var f := PlaceIsParagraph(lines, md);
    var f' := PlaceIsParagraph(other, md);
    PutInOnce(all, lines, block, f, IndexOf(lines, PlaceOf(lines, md)),
              other, block', f', IndexOf(other, PlaceOf(other, md)),
              AnchorOf(lines, md).value, START, "**Contents**", END);
  }

  /** What `strip_block` cuts: from the first start line, or the blank line before it. */
  lemma CutOf(all: seq<string>) returns (i: nat, start: nat, end: nat)
    requires START in all && StripBlock(all).Some?
    ensures start <= i < end <= |all| && all[i] == START && forall l | 0 <= l < i :: all[l] != START
    ensures StripBlock(all).value == Left(all, start, end)
  {
    i := IndexFrom(all, START, 0);
    start := if i > 0 && all[i - 1] == "" then i - 1 else i;
    end := IndexFrom(all, END, i) + 1;
  }

  /** A block that starts ahead is taken out instead of the new one, and what is left are
      not the lines of the first rendering. */
  lemma StrayBlockIsTaken(lines: seq<string>, block: seq<string>, md: Markdown)
    requires IsListing(block, md) && HashMarks(md) && START in Ahead(lines, PlaceOf(lines, md))
    ensures StripBlock(InsertBlock(lines, block, md)) != Some(lines)
  {
    var all, b := InsertBlock(lines, block, md), IndexOf(lines, PlaceOf(lines, md));
    var f := PlaceIsParagraph(lines, md);
    InsertedIsPutIn(lines, block, md);
    PutInAt(all, lines, block, b);
    SomethingAhead(all, lines[..b], START);
    if StripBlock(all).Some? {
      var i, start, end := CutOf(all);
      CutIsNotLines(all, lines, block, f, b, i, start, end, START, "**Contents**", END, md);
    }
  }

  lemma SomethingAhead(all: seq<string>, ahead: seq<string>, line: string)
    requires line in ahead && ahead <= all
    ensures line in all
    ensures forall i | 0 <= i < |all| && all[i] == line && (forall l | 0 <= l < i :: all[l] != line) :: i < |ahead|
  {
    var x :| 0 <= x < |ahead| && ahead[x] == line;
    assert all[x] == line;
  }

  lemma CutIsNotLines(all: seq<string>, lines: seq<string>, block: seq<string>, f: nat, b: nat, i: nat, start: nat,
                      end: nat,
                      open: string, title: string, close: string, md: Markdown)
    requires AnchorOf(lines, md).Some? && AllInert(block, md) && HashMarks(md)
    requires PutIn(all, lines, block, b) && Paragraph(lines, AnchorOf(lines, md).value, f, b) &&
               Framed(block, open, title, close)
    requires start <= i < b && i < end <= |all| && all[i] == open
    ensures Left(all, start, end) != lines
  {
    AnchorIsNotInert(lines, md);
    EmptyIsInert(md);
    if Left(all, start, end) == lines {
      CutGivesLines(all, lines, block, f, b, AnchorOf(lines, md).value, i, start, end, open, title, close);
    }
  }

  /** Rendering the result again gives it back exactly when no block starts ahead of the
      new one. */
  lemma RenderTwice(text: string, lines: seq<string>, new1: string, r: Rendered, md: Markdown)
    requires OneLine(md) && HashMarks(md) && StripBlock(Split(text, '\n')) == Some(lines)
    requires IsRendered(text, Text(new1), md) && IsRendered(new1, r, md)
    ensures r == Text(new1) <==> START !in Ahead(lines, PlaceOf(lines, md))
  {
    if START !in Ahead(lines, PlaceOf(lines, md)) {
      RenderIsIdempotent(text, lines, new1, r, md);
    } else if r == Text(new1) {
      var block: seq<string> :| IsBlock(block, lines, md) && block != [] &&
          new1 == Join(InsertBlock(lines, block, md), '\n');
      InsertedSplits(Split(text, '\n'), lines, block, md);
      var all := InsertBlock(lines, block, md);
      var left := StripBlock(all).value;
      var again := SecondBlock(new1, all, left, md);
      BlockIsListing(block, lines, md);
      BlockIsListing(again, left, md);
      SecondGivesLines(lines, block, left, again, md);
      StrayBlockIsTaken(lines, block, md);
      assert false;
    }
  }

  // -------------------------------------------------------- a text that changes again

  /** A title, two contents lists one behind the other, and a long paragraph. */
  function TwoLists(title: string): seq<string> {
    [title, START, END, START, END] + Filler()
  }

  function Filler(): (r: seq<string>)
    ensures |r| == 150 && forall l :: l in r ==> l == "x"
  {
    seq(150, i => "x")
  }

  /** After the cut of the first list. */
  function OneList(title: string): (r: seq<string>)
    ensures Long(r) && r[0] == title && r[1] == START
  {
    [title, START, END] + Filler()
  }

  lemma TwoListsSplit(title: string)
    requires '\n' !in title
    ensures Split(Join(TwoLists(title), '\n'), '\n') == TwoLists(title)
  {
    ConstantLines();
    assert forall l :: l in TwoLists(title) ==> l in {title, START, END, "x"};
    SplitJoin(TwoLists(title), '\n');
  }

  lemma FirstListIsCut(title: string)
    requires title != "" && title != START
    ensures StripBlock(TwoLists(title)) == Some(OneList(title))
  {
    ConstantsDiffer();
    CutsAt(TwoLists(title), 1, 2);
    TwoCut(title, START, END, Filler());
  }

  lemma TwoCut(title: string, open: string, close: string, rest: seq<string>)
    ensures Left([title, open, close, open, close] + rest, 1, 3) == [title, open, close] + rest
  {
    var all := [title, open, close, open, close] + rest;
    assert all[..1] == [title] && all[3..] == [open, close] + rest;
  }

  lemma TitleIsNoMark(title: string, open: string, md: Markdown)
    requires HashMarks(md) && Inert(open, md) && md.heading(title).Some?
    ensures title != "" && title != open
  {
    EmptyIsInert(md);
  }

  /** A title in the first line and text in the second: the block goes behind both. */
  lemma ListIsAhead(lines: seq<string>, second: string, md: Markdown)
    requires HashMarks(md) && |lines| > 1 && lines[1] == second && !WhiteSpace(second)
    requires md.heading(lines[0]).Some? && md.heading(lines[0]).value.0 == 1
    ensures second in Ahead(lines, PlaceOf(lines, md))
  {
    MarkIsNoFence(lines[0]);
    TopIsFirst(lines, |lines|, md);
    assert OpenFence(lines, 0).None? && TopAt(lines, 0, md);
    var f := PlaceIsParagraph(lines, md);
    InsertedIsPutIn(lines, [], md);
    var b := IndexOf(lines, PlaceOf(lines, md));
    assert lines[..b][1] == lines[1];
  }

  lemma MarkIsNoFence(line: string)
    requires RunOf(line, ' ') < |line| && line[RunOf(line, ' ')] == '#'
    ensures FenceOf(line).None?
  {
    assert "`~"[0] == '`' && "`~"[1] == '~';
  }

  lemma FirstListIsLeft(title: string, md: Markdown)
    requires HashMarks(md) && '\n' !in title && md.heading(title).Some?
    ensures StripBlock(Split(Join(TwoLists(title), '\n'), '\n')) == Some(OneList(title)) && !WhiteSpace(START)
  {
    StartIsInert(md);
    TitleIsNoMark(title, START, md);
    FirstListIsCut(title);
    TwoListsSplit(title);
  }

  /** The second rendering of a text with two contents lists is another text than the first. */
  lemma TwoListsChangeAgain(title: string, first: Rendered, second: Rendered, md: Markdown)
    requires OneLine(md) && HashMarks(md)
    requires '\n' !in title && md.heading(title).Some? && md.heading(title).value.0 == 1
    requires IsRendered(Join(TwoLists(title), '\n'), first, md)
    requires first.Text? ==> IsRendered(first.text, second, md)
    ensures first.Text? && second != first
  {
    FirstListIsLeft(title, md);
    ListIsAhead(OneList(title), START, md);
    RenderTwice(Join(TwoLists(title), '\n'), OneList(title), first.text, second, md);
  }
}
