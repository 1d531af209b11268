/** The generator of contents lists for Markdown files: unique anchors, and a block that is
    put in and taken out again. */
module DocsToc {
  import opened Options
  import opened Text

  /** The three readings of a line that are regular expressions in the script: an ATX
      heading (level and text), the slug of a text, and a text made safe for a link. */
  datatype Markdown = Markdown(
    heading: string -> Option<(nat, string)>, slug: string -> string, link: string -> string)

  const MIN_LINES := 150
  const START := "<!-- toc: generated by scripts/docs-toc.py, do not edit -->"
  const END := "<!-- /toc -->"

  // ------------------------------------------------------------------------ anchors

  function Suffixed(base: string, n: nat): string {
    base + "-" + Decimal(n)
  }

  /** The slug that a plain search gives: the base, else its least unused suffix. */
  ghost predicate PlainSlug(slug: string, base: string, seen: set<string>) {
    if base !in seen then slug == base
    else exists n: nat :: 1 <= n && IsLeast(slug, base, seen, n)
  }

  ghost predicate IsLeast(slug: string, base: string, seen: set<string>, n: nat) {
    slug == Suffixed(base, n) && slug !in seen && forall k: nat | 1 <= k < n :: Suffixed(base, k) in seen
  }

  lemma SuffixesDiffer(base: string, m: nat, n: nat)
    ensures Suffixed(base, m) == Suffixed(base, n) ==> m == n
    ensures Suffixed(base, n) != base
  {
    if Suffixed(base, m) == Suffixed(base, n) {
      assert Suffixed(base, m)[|base| + 1..] == Decimal(m);
      assert Suffixed(base, n)[|base| + 1..] == Decimal(n);
      DecimalIsInjective(m, n);
    }
    assert |Suffixed(base, n)| > |base|;
  }

  /** The plain search has one answer. */
  lemma PlainSlugIsUnique(a: string, b: string, base: string, seen: set<string>)
    requires PlainSlug(a, base, seen) && PlainSlug(b, base, seen)
    ensures a == b
  {
    if base in seen {
      var m: nat :| 1 <= m && IsLeast(a, base, seen, m);
      var n: nat :| 1 <= n && IsLeast(b, base, seen, n);
      assert m < n ==> Suffixed(base, m) in seen;
      assert n < m ==> Suffixed(base, n) in seen;
    }
  }

  function Members(s: seq<string>): set<string> {
    set x | x in s
  }

  /** The inner loop: from a counter below which every suffix is used, to the answer of
      the plain search. It ends because it never meets one used slug twice. */
  method NextSlug(base: string, start: nat, seen: set<string>) returns (slug: string, n: nat)
    requires start > 0 ==> base in seen
    requires forall k: nat | 1 <= k <= start :: Suffixed(base, k) in seen
    ensures PlainSlug(slug, base, seen) && slug !in seen
    ensures forall k: nat | 1 <= k <= n :: Suffixed(base, k) in seen + {slug}
  {
    slug, n := base, start;
    ghost var left := seen;
    while slug in seen
      invariant (slug == base && left == seen && n == start) || (base in seen && n >= 1 && slug == Suffixed(base, n))
      invariant forall k: nat | 1 <= k <= n && slug != Suffixed(base, k) :: Suffixed(base, k) in seen
      invariant left <= seen && (slug in seen ==> slug in left)
      invariant forall k: nat | k > n :: Suffixed(base, k) in seen ==> Suffixed(base, k) in left
      decreases left
    {
      forall k: nat ensures Suffixed(base, k) == slug ==> k == n && slug != base {
        SuffixesDiffer(base, k, n);
      }
      left := left - {slug};
      n := n + 1;
      slug := Suffixed(base, n);
      forall k: nat ensures Suffixed(base, k) == slug ==> k == n { SuffixesDiffer(base, k, n); }
    }
    if base in seen {
      forall k: nat | 1 <= k < n ensures Suffixed(base, k) in seen { SuffixesDiffer(base, k, n); }
      assert IsLeast(slug, base, seen, n);
    }
  }

  /** Every slug is what the plain search over the slugs before it gives. */
  ghost predicate AreSlugs(slugs: seq<string>, bases: seq<string>) {
    var n := |slugs|;
    n == 0 || (n <= |bases| && PlainSlug(slugs[n - 1], bases[n - 1], Members(slugs[..n - 1])) &&
        AreSlugs(slugs[..n - 1], bases))
  }

  lemma SlugsGrow(slugs: seq<string>, slug: string, bases: seq<string>)
    requires AreSlugs(slugs, bases) && |slugs| < |bases| && PlainSlug(slug, bases[|slugs|], Members(slugs))
    ensures AreSlugs(slugs + [slug], bases)
    ensures Members(slugs + [slug]) == Members(slugs) + {slug}
  {
    assert (slugs + [slug])[..|slugs|] == slugs;
    assert forall x :: x in slugs + [slug] <==> x in slugs || x == slug;
  }

  /** There is one answer for all the headings. */
  lemma {:induction false} SlugsAreUnique(a: seq<string>, b: seq<string>, bases: seq<string>)
    requires AreSlugs(a, bases) && AreSlugs(b, bases) && |a| == |b|
    ensures a == b
  {
    var n := |a|;
    if n > 0 {
      SlugsAreUnique(a[..n - 1], b[..n - 1], bases);
      PlainSlugIsUnique(a[n - 1], b[n - 1], bases[n - 1], Members(a[..n - 1]));
      assert a == a[..n - 1] + [a[n - 1]] && b == b[..n - 1] + [b[n - 1]];
    }
  }

  /** Every anchor is what the plain search gives, although the search starts at a cached
      counter; and no two anchors are equal. */
  method Anchors(bases: seq<string>) returns (result: seq<string>)
    ensures |result| == |bases| && AreSlugs(result, bases)
    ensures forall i, j | 0 <= i < j < |result| :: result[i] != result[j]
  {
    var seen: set<string>, counts: map<string, nat> := {}, map[];
    result := [];
    for i := 0 to |bases|
      invariant |result| == i && seen == Members(result) && AreSlugs(result, bases)
      invariant forall k, l | 0 <= k < l < i :: result[k] != result[l]
      invariant Cached(counts, seen)
    {
      var base := bases[i];
      var slug, n := NextSlug(base, if base in counts then counts[base] else 0, seen);
      SlugsGrow(result, slug, bases);
      forall k | 0 <= k < i ensures result[k] != slug { assert result[k] in seen; }
      CacheGrows(counts, seen, base, slug, n);
      counts := counts[base := n];
      seen := seen + {slug};
      result := result + [slug];
    }
  }

  lemma CacheGrows(counts: map<string, nat>, seen: set<string>, base: string, slug: string, n: nat)
    requires Cached(counts, seen) && PlainSlug(slug, base, seen)
    requires forall k: nat | 1 <= k <= n :: Suffixed(base, k) in seen + {slug}
    ensures Cached(counts[base := n], seen + {slug})
  {
  }

  ghost predicate Cached(counts: map<string, nat>, seen: set<string>) {
    forall b | b in counts :: b in seen && forall k: nat | 1 <= k <= counts[b] :: Suffixed(b, k) in seen
  }

  // ------------------------------------------------------------- fences and headings

  predicate WhiteSpace(s: string) {
    forall c :: c in s ==> Blank(c)
  }

  /** The length of the run of `c` that `s` starts with. */
  function RunOf(s: string, c: char): (n: nat)
    ensures n <= |s|
  {
    if s != "" && s[0] == c then 1 + RunOf(s[1..], c) else 0
  }

  datatype Fence = Fence(mark: char, width: nat, bare: bool)

  /** A fence marker after at most three spaces. */
  function FenceOf(line: string): Option<Fence> {
    var indent := RunOf(line, ' ');
    var rest := line[indent..];
    if indent > 3 || rest == "" || rest[0] !in "`~" then None
    else
      var width := RunOf(rest, rest[0]);
      if width < 3 then None else Some(Fence(rest[0], width, WhiteSpace(rest[width..])))
  }

  /** The fence that is open after a line. */
  function AfterLine(fence: Option<Fence>, line: string): Option<Fence> {
    var m := FenceOf(line);
    if m.None? then fence
    else if fence.None? then m
    else if m.value.mark == fence.value.mark && m.value.width >= fence.value.width && m.value.bare then None
    else fence
  }

  function OpenFence(lines: seq<string>, n: nat): Option<Fence>
    requires n <= |lines|
  {
    if n == 0 then None else AfterLine(OpenFence(lines, n - 1), lines[n - 1])
  }

  function Run(c: char, n: nat): string {
    seq(n, _ => c)
  }

  lemma {:induction false} RunIs(c: char, n: nat, rest: string)
    requires rest == "" || rest[0] != c
    ensures RunOf(Run(c, n) + rest, c) == n
  {
    if n > 0 {
      assert (Run(c, n) + rest)[1..] == Run(c, n - 1) + rest;
      RunIs(c, n - 1, rest);
    } else {
      assert Run(c, 0) + rest == rest;
    }
  }

  /** A line of `k` spaces, `w` times the character `c` and `rest`: it is a fence marker when
      `k` is at most three, `w` at least three and `c` a backquote or a tilde, and it is bare
      when only white space follows. */
  lemma FenceReads(k: nat, c: char, w: nat, rest: string)
    requires c != ' ' && w >= 1 && (rest == "" || rest[0] != c)
    ensures FenceOf(Run(' ', k) + (Run(c, w) + rest)) ==
            if k <= 3 && w >= 3 && (c == '`' || c == '~') then Some(Fence(c, w, WhiteSpace(rest))) else None
    ensures FenceOf(Run(' ', k)) == None
  {
    RunIs(' ', k, Run(c, w) + rest);
    RunIs(c, w, rest);
    RunIs(' ', k, "");
    assert Run(' ', k) + "" == Run(' ', k);
    assert (Run(' ', k) + (Run(c, w) + rest))[k..] == Run(c, w) + rest && (Run(c, w) + rest)[w..] == rest;
  }

  /** A bare marker of the same character that is at least as wide. */
  predicate Closes(line: string, fence: Fence) {
    var m := FenceOf(line);
    m.Some? && m.value.bare && m.value.mark == fence.mark && m.value.width >= fence.width
  }

  /** The fence was opened at line `o`, where none was open, and is not closed before `n`. */
  predicate OpenSince(lines: seq<string>, o: nat, n: nat, fence: Fence) {
    && o < n <= |lines| && FenceOf(lines[o]) == Some(fence) && OpenFence(lines, o) == None
    && forall k | o < k < n :: !Closes(lines[k], fence)
  }

  lemma OpenFenceIff(lines: seq<string>, n: nat, fence: Fence)
    requires n <= |lines|
    ensures OpenFence(lines, n) == Some(fence) <==> exists o: nat :: OpenSince(lines, o, n, fence)
  {
    if OpenFence(lines, n) == Some(fence) {
      var o := OpenedAt(lines, n, fence);
    }
    if o: nat :| OpenSince(lines, o, n, fence) {
      StaysOpen(lines, o, n, fence);
    }
  }

  lemma {:induction false} OpenedAt(lines: seq<string>, n: nat, fence: Fence) returns (o: nat)
    requires n <= |lines| && OpenFence(lines, n) == Some(fence)
    ensures OpenSince(lines, o, n, fence)
  {
    StillOpen(OpenFence(lines, n - 1), lines[n - 1], fence);
    if OpenFence(lines, n - 1) == None {
      o := n - 1;
    } else {
      o := OpenedAt(lines, n - 1, fence);
    }
  }

  lemma {:induction false} StaysOpen(lines: seq<string>, o: nat, n: nat, fence: Fence)
    requires OpenSince(lines, o, n, fence)
    ensures OpenFence(lines, n) == Some(fence)
  {
    StillOpen(OpenFence(lines, n - 1), lines[n - 1], fence);
    if o < n - 1 {
      StaysOpen(lines, o, n - 1, fence);
    }
  }

  lemma StillOpen(was: Option<Fence>, line: string, fence: Fence)
    ensures AfterLine(was, line) == Some(fence) <==>
              (was == Some(fence) && !Closes(line, fence)) || (was == None && FenceOf(line) == Some(fence))
  {
  }

  datatype Heading = Heading(at: nat, level: nat, text: string)

  /** The heading at a line, if it is one and no fence is open there. */
  function HeadingAt(lines: seq<string>, i: nat, md: Markdown): Option<Heading>
    requires i < |lines|
  {
    if FenceOf(lines[i]).Some? || OpenFence(lines, i).Some? || md.heading(lines[i]).None? then None
    else Some(Heading(i, md.heading(lines[i]).value.0, md.heading(lines[i]).value.1))
  }

  function HeadingsUpTo(lines: seq<string>, n: nat, md: Markdown): seq<Heading>
    requires n <= |lines|
  {
    if n == 0 then []
    else HeadingsUpTo(lines, n - 1, md) +
         (if HeadingAt(lines, n - 1, md).Some? then [HeadingAt(lines, n - 1, md).value] else [])
  }

  function Headings(lines: seq<string>, md: Markdown): seq<Heading> {
    HeadingsUpTo(lines, |lines|, md)
  }

  /** The headings are those of the lines that are neither a fence marker nor inside a fence,
      in the order of their lines. */
  lemma {:induction false} HeadingsAre(lines: seq<string>, n: nat, md: Markdown)
    requires n <= |lines|
    ensures var heads := HeadingsUpTo(lines, n, md);
            && (forall h :: h in heads <==> h.at < n && IsHeading(lines, h, md))
            && forall i, j | 0 <= i < j < |heads| :: heads[i].at < heads[j].at
  {
    if n > 0 {
      HeadingsAre(lines, n - 1, md);
      var front, one := HeadingsUpTo(lines, n - 1, md), HeadingAt(lines, n - 1, md);
      forall h: Heading ensures h.at == n - 1 ==> (IsHeading(lines, h, md) <==> one == Some(h)) {
        HeadingIff(lines, h, md);
      }
      OneMore(front, if one.Some? then [one.value] else [], n - 1);
    }
  }

  predicate IsHeading(lines: seq<string>, h: Heading, md: Markdown) {
    && h.at < |lines| && FenceOf(lines[h.at]) == None && OpenFence(lines, h.at) == None
    && md.heading(lines[h.at]) == Some((h.level, h.text))
  }

  lemma HeadingIff(lines: seq<string>, h: Heading, md: Markdown)
    ensures h.at < |lines| ==> (IsHeading(lines, h, md) <==> HeadingAt(lines, h.at, md) == Some(h))
  {
  }

  lemma OneMore(front: seq<Heading>, one: seq<Heading>, n: nat)
    requires (forall h :: h in front ==> h.at < n) && |one| <= 1 && (forall h :: h in one ==> h.at == n)
    requires forall i, j | 0 <= i < j < |front| :: front[i].at < front[j].at
    ensures forall i, j | 0 <= i < j < |front + one| :: (front + one)[i].at < (front + one)[j].at
    ensures forall h :: h in front + one <==> h in front || h in one
  {
    forall i, j | 0 <= i < j < |front + one| ensures (front + one)[i].at < (front + one)[j].at {
      assert (front + one)[i] == front[i] && front[i] in front;
      if j == |front| { assert (front + one)[j] == one[0]; }
    }
  }

  lemma OneMoreLine(lines: seq<string>, i: nat, md: Markdown)
    requires i < |lines|
    ensures OpenFence(lines, i + 1) == AfterLine(OpenFence(lines, i), lines[i])
    ensures var h := HeadingAt(lines, i, md);
            HeadingsUpTo(lines, i + 1, md) == HeadingsUpTo(lines, i, md) + if h.Some? then [h.value] else []
    ensures HeadingAt(lines, i, md).None? ==> HeadingsUpTo(lines, i + 1, md) == HeadingsUpTo(lines, i, md)
  {
  }

  /** Exactly the headings outside fenced code, in order. */
  method HeadingsIn(lines: seq<string>, md: Markdown) returns (found: seq<Heading>)
    ensures found == Headings(lines, md)
  {
    found := [];
    var fence: Option<Fence> := None;
    for i := 0 to |lines|
      invariant fence == OpenFence(lines, i) && found == HeadingsUpTo(lines, i, md)
    {
      OneMoreLine(lines, i, md);
      var m := FenceOf(lines[i]);
      if m.Some? {
        if fence.None? {
          fence := m;
        } else if m.value.mark == fence.value.mark && m.value.width >= fence.value.width && m.value.bare {
          fence := None;
        }
        continue;
      }
      if fence.Some? {
        continue;
      }
      var h := md.heading(lines[i]);
      if h.Some? {
        found := found + [Heading(i, h.value.0, h.value.1)];
      }
    }
  }

  // ---------------------------------------------------------------------- the block

  function EntryLine(h: Heading, slug: string, md: Markdown): string {
    (if h.level == 3 then "  " else "") + "- [" + md.link(h.text) + "](#" + slug + ")"
  }

  function Listed(heads: seq<Heading>, slugs: seq<string>, md: Markdown): seq<string>
    requires |heads| == |slugs|
  {
    if heads == [] then []
    else
      var entry := if heads[0].level in {2, 3} then [EntryLine(heads[0], slugs[0], md)] else [];
      entry + Listed(heads[1..], slugs[1..], md)
  }

  /** The list holds one line for each heading of level 2 or 3 and for no other, in order:
      the heading as the text of a link to its own anchor, indented at level 3. */
  lemma {:induction false} ListedAt(heads: seq<Heading>, slugs: seq<string>, md: Markdown, i: nat)
    requires |heads| == |slugs| && i < |heads|
    ensures var before, through := Listed(heads[..i], slugs[..i], md), Listed(heads[..i + 1], slugs[..i + 1], md);
            var h := heads[i];
            && Listed(heads, slugs, md) == through + Listed(heads[i + 1..], slugs[i + 1..], md)
            && through == before +
               if h.level == 2 then ["- [" + md.link(h.text) + "](#" + slugs[i] + ")"]
               else if h.level == 3 then ["  - [" + md.link(h.text) + "](#" + slugs[i] + ")"]
               else []
  {
    ListedSplits(heads, slugs, md, i + 1);
    ListedSplits(heads[..i + 1], slugs[..i + 1], md, i);
    assert heads[..i + 1][..i] == heads[..i] && slugs[..i + 1][..i] == slugs[..i];
    assert heads[..i + 1][i..] == [heads[i]] && slugs[..i + 1][i..] == [slugs[i]];
    OneListed(heads[i], slugs[i], md);
  }

  lemma OneListed(h: Heading, slug: string, md: Markdown)
    ensures Listed([h], [slug], md) ==
            if h.level == 2 then ["- [" + md.link(h.text) + "](#" + slug + ")"]
            else if h.level == 3 then ["  - [" + md.link(h.text) + "](#" + slug + ")"]
            else []
  {
    assert [h][1..] == [] && [slug][1..] == [];
    if h.level == 2 {
      assert "" + "- [" + md.link(h.text) == "- [" + md.link(h.text);
    } else if h.level == 3 {
      assert "  " + "- [" + md.link(h.text) == "  - [" + md.link(h.text);
    }
  }

  lemma {:induction false} ListedSplits(heads: seq<Heading>, slugs: seq<string>, md: Markdown, n: nat)
    requires |heads| == |slugs| && n <= |heads|
    ensures Listed(heads, slugs, md) == Listed(heads[..n], slugs[..n], md) + Listed(heads[n..], slugs[n..], md)
  {
    if n == 0 {
      assert heads[0..] == heads && slugs[0..] == slugs && heads[..0] == [];
    } else {
      ListedSplits(heads[1..], slugs[1..], md, n - 1);
      assert heads[..n][1..] == heads[1..][..n - 1] && slugs[..n][1..] == slugs[1..][..n - 1];
      assert heads[1..][n - 1..] == heads[n..] && slugs[1..][n - 1..] == slugs[n..];
      assert heads[..n][0] == heads[0] && slugs[..n][0] == slugs[0];
    }
  }

  function Bases(heads: seq<Heading>, md: Markdown): (r: seq<string>)
    ensures |r| == |heads|
  {
    seq(|heads|, i requires 0 <= i < |heads| => md.slug(heads[i].text))
  }

  ghost predicate AreAnchors(slugs: seq<string>, heads: seq<Heading>, md: Markdown) {
    |slugs| == |heads| && AreSlugs(slugs, Bases(heads, md))
  }

  /** `build_block` for these lines. */
  ghost predicate IsBlock(block: seq<string>, lines: seq<string>, md: Markdown) {
    exists slugs: seq<string> :: AreAnchors(slugs, Headings(lines, md), md) &&
      block == [START, "**Contents**", ""] + Listed(Headings(lines, md), slugs, md) + [END]
  }

  method BuildBlock(lines: seq<string>, md: Markdown) returns (block: seq<string>)
    ensures IsBlock(block, lines, md)
  {
    var heads := HeadingsIn(lines, md);
    var slugs := Anchors(Bases(heads, md));
    assert AreAnchors(slugs, heads, md);
    block := [START, "**Contents**", ""] + Listed(heads, slugs, md) + [END];
  }

  lemma BlockIsUnique(a: seq<string>, b: seq<string>, lines: seq<string>, md: Markdown)
    requires IsBlock(a, lines, md) && IsBlock(b, lines, md)
    ensures a == b
  {
    var heads := Headings(lines, md);
    var s: seq<string> :| AreAnchors(s, heads, md) && a == [START, "**Contents**", ""] + Listed(heads, s, md) + [END];
    var t: seq<string> :| AreAnchors(t, heads, md) && b == [START, "**Contents**", ""] + Listed(heads, t, md) + [END];
    SlugsAreUnique(s, t, Bases(heads, md));
  }

  /** The first index from `i` on that holds `line`, or |lines|. */
  function IndexFrom(lines: seq<string>, line: string, i: nat): (k: nat)
    requires i <= |lines|
    ensures i <= k <= |lines| && (k < |lines| ==> lines[k] == line)
    ensures forall l | i <= l < k :: lines[l] != line
    decreases |lines| - i
  {
    if i == |lines| || lines[i] == line then i else IndexFrom(lines, line, i + 1)
  }

  /** What `strip_block` keeps around a cut. */
  function Left(lines: seq<string>, start: nat, end: nat): seq<string>
    requires start <= |lines| && end <= |lines|
  {
    var rest := lines[end..];
    lines[..start] + if start == 0 && rest != [] && rest[0] == "" then rest[1..] else rest
  }

  /** None: a block starts and does not end, and the script stops with an error. */
  function StripBlock(lines: seq<string>): Option<seq<string>> {
    var i := IndexFrom(lines, START, 0);
    if i == |lines| then Some(lines)
    else
      var j := IndexFrom(lines, END, i);
      if j == |lines| then None
      else
        var start := if i > 0 && lines[i - 1] == "" then i - 1 else i;
        Some(Left(lines, start, j + 1))
  }

  /** The first line from `i` on that is blank (or not blank), or |lines|. */
  function FirstBlank(lines: seq<string>, blank: bool, i: nat): (k: nat)
    requires i <= |lines|
    ensures i <= k <= |lines| && (k < |lines| ==> WhiteSpace(lines[k]) == blank)
    ensures forall l | i <= l < k :: WhiteSpace(lines[l]) != blank
    decreases |lines| - i
  {
    if i == |lines| || WhiteSpace(lines[i]) == blank then i else FirstBlank(lines, blank, i + 1)
  }

  function FirstFence(lines: seq<string>, i: nat): (k: nat)
    requires i <= |lines|
    ensures i <= k <= |lines| && (k < |lines| ==> FenceOf(lines[k]).Some?)
    ensures forall l | i <= l < k :: FenceOf(lines[l]).None?
    decreases |lines| - i
  {
    if i == |lines| || FenceOf(lines[i]).Some? then i else FirstFence(lines, i + 1)
  }

  function FirstTop(heads: seq<Heading>): Option<nat> {
    if heads == [] then None else if heads[0].level == 1 then Some(heads[0].at) else FirstTop(heads[1..])
  }

  lemma {:induction false} FirstTopIsALine(lines: seq<string>, n: nat, heads: seq<Heading>)
    requires forall h :: h in heads ==> h.at < n
    ensures FirstTop(heads).Some? ==> FirstTop(heads).value < n
  {
    if heads != [] && heads[0].level != 1 {
      FirstTopIsALine(lines, n, heads[1..]);
    }
  }

  lemma {:induction false} HeadingsAreLines(lines: seq<string>, n: nat, md: Markdown)
    requires n <= |lines|
    ensures forall h :: h in HeadingsUpTo(lines, n, md) ==> h.at < n
  {
    if n > 0 {
      HeadingsAreLines(lines, n - 1, md);
    }
  }

  /** Where the block goes. */
  datatype Place = Front | Back | At(index: nat)

  /** After the paragraph that follows the line `h`, or at the end. */
  function PlaceAfter(lines: seq<string>, h: nat): Place
    requires h < |lines|
  {
    var first := FirstBlank(lines, false, h + 1);
    if first == |lines| then Back
    else
      var b := FirstBlank(lines, true, first + 1);
      if b == |lines| then Back else At(b)
  }

  /** The line that the block follows: the first level 1 heading, else the end of a fenced
      banner that the file starts with. */
  function AnchorOf(lines: seq<string>, md: Markdown): (h: Option<nat>)
    ensures h.Some? ==> h.value < |lines|
  {
    var top := FirstTop(Headings(lines, md));
    HeadingsAreLines(lines, |lines|, md);
    FirstTopIsALine(lines, |lines|, Headings(lines, md));
    if top.Some? then top
    else if lines != [] && FenceOf(lines[0]).Some? && FirstFence(lines, 1) < |lines| then Some(FirstFence(lines, 1))
    else None
  }

  function PlaceOf(lines: seq<string>, md: Markdown): (p: Place)
    ensures p.At? ==> 0 < p.index < |lines|
  {
    var h := AnchorOf(lines, md);
    if h.None? then Front else PlaceAfter(lines, h.value)
  }

  lemma {:induction false} FirstTopIs(heads: seq<Heading>)
    ensures FirstTop(heads) == None ==> forall g :: g in heads ==> g.level != 1
    ensures FirstTop(heads).Some? ==> exists i | 0 <= i < |heads| :: IsFirstTop(heads, i, FirstTop(heads).value)
  {
    if heads != [] && heads[0].level == 1 {
      assert IsFirstTop(heads, 0, heads[0].at);
    } else if heads != [] {
      var rest := heads[1..];
      FirstTopIs(rest);
      assert heads == [heads[0]] + rest;
      if FirstTop(rest).Some? {
        var i :| 0 <= i < |rest| && IsFirstTop(rest, i, FirstTop(rest).value);
        forall j | 0 <= j < i + 1 ensures heads[j].level != 1 {
          if j > 0 { assert rest[j - 1] == heads[j]; }
        }
        assert IsFirstTop(heads, i + 1, FirstTop(rest).value);
      }
    }
  }

  /** Heading `i` is the first of level 1, at line `h`. */
  predicate IsFirstTop(heads: seq<Heading>, i: nat, h: nat)
    requires i < |heads|
  {
    heads[i].level == 1 && heads[i].at == h && forall j | 0 <= j < i :: heads[j].level != 1
  }

  /** The block follows the first heading of level 1; in a file without one it follows the
      fenced banner at the top, if its end is there. */
  lemma AnchorIs(lines: seq<string>, md: Markdown)
    ensures var heads := Headings(lines, md);
            var noTop := forall g :: g in heads ==> g.level != 1;
            match AnchorOf(lines, md)
            case Some(h) =>
              || (exists i | 0 <= i < |heads| :: IsFirstTop(heads, i, h))
              || (noTop && 0 < h && FenceOf(lines[0]).Some? && FenceOf(lines[h]).Some? &&
                    forall l | 0 < l < h :: FenceOf(lines[l]) == None)
            case None =>
              noTop &&
              (lines == [] || FenceOf(lines[0]) == None || forall l | 0 < l < |lines| :: FenceOf(lines[l]) == None)
  {
    FirstTopIs(Headings(lines, md));
  }

  function Placed(lines: seq<string>, block: seq<string>, p: Place): seq<string>
    requires p.At? ==> p.index <= |lines|
  {
    match p
    case Front => block + [""] + lines
    case Back => lines + [""] + block
    case At(b) => lines[..b] + [""] + block + lines[b..]
  }

  function InsertBlock(lines: seq<string>, block: seq<string>, md: Markdown): seq<string> {
    Placed(lines, block, PlaceOf(lines, md))
  }

  /** The lines before the place. */
  function Ahead(lines: seq<string>, p: Place): seq<string>
    requires p.At? ==> p.index <= |lines|
  {
    match p
    case Front => []
    case Back => lines
    case At(b) => lines[..b]
  }

  lemma {:induction false} EntriesAreNotEnd(heads: seq<Heading>, slugs: seq<string>, md: Markdown)
    requires |heads| == |slugs|
    ensures END !in Listed(heads, slugs, md)
  {
    if heads != [] {
      EntriesAreNotEnd(heads[1..], slugs[1..], md);
      var line := EntryLine(heads[0], slugs[0], md);
      assert line[0] in "- " && END[0] == '<';
    }
  }

  lemma BlockShape(block: seq<string>, lines: seq<string>, md: Markdown)
    requires IsBlock(block, lines, md)
    ensures |block| >= 4 && block[0] == START && block[|block| - 1] == END
    ensures START == "<!-- toc: generated by scripts/docs-toc.py, do not edit -->" && END == "<!-- /toc -->"
    ensures forall k | 0 <= k < |block| - 1 :: block[k] != END
  {
    var heads := Headings(lines, md);
    var slugs: seq<string> :| AreAnchors(slugs, heads, md) &&
      block == [START, "**Contents**", ""] + Listed(heads, slugs, md) + [END];
    var entries := Listed(heads, slugs, md);
    EntriesAreNotEnd(heads, slugs, md);
    ConstantsDiffer();
    InFrame(START, "**Contents**", entries, END);
  }

  lemma ConstantsDiffer()
    ensures START != END && "**Contents**" != END && "" != END && "" != START
  {
    assert |START| != |END| && |"**Contents**"| != |END| && |START| > 0;
  }

  lemma InFrame(a: string, b: string, entries: seq<string>, c: string)
    requires c !in entries && a != c && b != c && "" != c
    ensures var block := [a, b, ""] + entries + [c];
            && |block| >= 4 && block[0] == a && block[|block| - 1] == c
            && forall k | 0 <= k < |block| - 1 :: block[k] != c
  {
    var block := [a, b, ""] + entries + [c];
    forall k | 0 <= k < |block| - 1 ensures block[k] != c {
      if 3 <= k { assert block[k] == entries[k - 3]; }
    }
  }

  lemma IndexIs(lines: seq<string>, line: string, i: nat, k: nat)
    requires i <= k < |lines| && lines[k] == line && forall l | i <= l < k :: lines[l] != line
    ensures IndexFrom(lines, line, i) == k
  {
  }

  predicate Blocky(block: seq<string>) {
    && |block| >= 2 && block[0] == START && block[|block| - 1] == END
    && forall k | 0 <= k < |block| - 1 :: block[k] != END
  }

  /** Where the block starts and ends decides what is cut. */
  lemma CutsAt(lines: seq<string>, i: nat, j: nat)
    requires i <= j < |lines| && lines[i] == START && lines[j] == END
    requires (forall l | 0 <= l < i :: lines[l] != START) && (forall l | i <= l < j :: lines[l] != END)
    ensures var start := if i > 0 && lines[i - 1] == "" then i - 1 else i;
            StripBlock(lines) == Some(Left(lines, start, j + 1))
  {
    IndexIs(lines, START, 0, i);
    IndexIs(lines, END, i, j);
  }

  /** Without a start line nothing is cut. The block is cut from the first start line to the
      first end line behind it, with one blank line before it, or with the one behind it when
      nothing stays before it; and only a block without an end is refused. */
  lemma StripIs(lines: seq<string>, i: nat)
    ensures START !in lines ==> StripBlock(lines) == Some(lines)
    ensures i < |lines| && lines[i] == START && START !in lines[..i] && END !in lines[i..] ==> StripBlock(lines) == None
    ensures forall j | i < j < |lines| && lines[i] == START && START !in lines[..i] &&
                       lines[j] == END && END !in lines[i..j] ::
              var ahead := if i > 0 && lines[i - 1] == "" then lines[..i - 1] else lines[..i];
              var behind := lines[j + 1..];
              StripBlock(lines) ==
              Some(ahead + if ahead == [] && behind != [] && behind[0] == "" then behind[1..] else behind)
  {
    if i < |lines| && lines[i] == START && START !in lines[..i] {
      forall l | 0 <= l < i ensures lines[l] != START { assert lines[..i][l] == lines[l]; }
      IndexIs(lines, START, 0, i);
      forall j | i < j < |lines| && lines[j] == END && END !in lines[i..j]
        ensures StripBlock(lines) == Some(Left(lines, if i > 0 && lines[i - 1] == "" then i - 1 else i, j + 1))
      {
        forall l | i <= l < j ensures lines[l] != END { assert lines[i..j][l - i] == lines[l]; }
        CutsAt(lines, i, j);
      }
    }
  }

  lemma StripFront(lines: seq<string>, block: seq<string>)
    requires Blocky(block)
    ensures StripBlock(block + [""] + lines) == Some(lines)
  {
    var all, m := block + [""] + lines, |block|;
    forall k | 0 <= k < m ensures all[k] == block[k] {}
    CutsAt(all, 0, m - 1);
    FrontLeft(block, lines);
  }

  lemma FrontLeft(block: seq<string>, lines: seq<string>)
    ensures Left(block + [""] + lines, 0, |block|) == lines
  {
    var all := block + [""] + lines;
    assert all[|block|..] == [""] + lines && ([""] + lines)[1..] == lines && all[..0] + lines == lines;
  }

  lemma StripBehind(ahead: seq<string>, block: seq<string>, behind: seq<string>)
    requires Blocky(block) && START !in ahead && (ahead == [] ==> behind == [])
    ensures StripBlock(ahead + [""] + block + behind) == Some(ahead + behind)
  {
    var all, m, i := ahead + [""] + block + behind, |block|, |ahead| + 1;
    assert forall k | 0 <= k < m :: all[i + k] == block[k];
    assert all[i - 1] == "" && |START| > 0;
    forall l | 0 <= l < i ensures all[l] != START {
      if l < |ahead| { assert all[l] == ahead[l]; }
    }
    forall l | i <= l < i + m - 1 ensures all[l] != END { assert all[l] == block[l - i]; }
    CutsAt(all, i, i + m - 1);
    assert all[i + m..] == behind && all[..i - 1] == ahead;
  }

  /** Taking the block out undoes putting it in, wherever it was put, as long as no other
      block starts before it. */
  lemma StripUndoesInsert(lines: seq<string>, block: seq<string>, md: Markdown)
    requires IsBlock(block, lines, md) && START !in Ahead(lines, PlaceOf(lines, md))
    ensures StripBlock(InsertBlock(lines, block, md)) == Some(lines)
  {
    BlockShape(block, lines, md);
    match PlaceOf(lines, md) {
      case Front => StripFront(lines, block);
      case Back =>
        StripBehind(lines, block, []);
        assert lines + [""] + block + [] == lines + [""] + block && lines + [] == lines;
      case At(b) =>
        StripBehind(lines[..b], block, lines[b..]);
        assert lines[..b] + lines[b..] == lines;
    }
  }

  // ------------------------------------------------------------------------- render

  predicate Long(lines: seq<string>) {
    |lines| - (if lines != [] && lines[|lines| - 1] == "" then 1 else 0) > MIN_LINES
  }

  /** A text is long when it has more than 150 lines; a final newline ends its last line. */
  lemma LongMeans(lines: seq<string>)
    ensures Long(lines + [""]) <==> |lines| > 150
    ensures lines == [] || lines[|lines| - 1] != "" ==> (Long(lines) <==> |lines| > 150)
  {
    assert (lines + [""])[|lines|] == "";
  }

  datatype Rendered = Failed | Short | Text(text: string)

  method Render(text: string, md: Markdown) returns (r: Rendered)
    ensures IsRendered(text, r, md)
  {
    var stripped := StripBlock(Split(text, '\n'));
    if stripped.None? {
      return Failed;
    }
    if !Long(stripped.value) {
      return Short;
    }
    var block := BuildBlock(stripped.value, md);
    BlockShape(block, stripped.value, md);
    return Text(Join(InsertBlock(stripped.value, block, md), '\n'));
  }

  ghost predicate IsRendered(text: string, r: Rendered, md: Markdown) {
    match StripBlock(Split(text, '\n'))
    case None => r == Failed
    case Some(lines) =>
      if !Long(lines) then r == Short
      else
        exists block: seq<string> ::
          IsBlock(block, lines, md) && block != [] && r == Text(Join(InsertBlock(lines, block, md), '\n'))
  }

  /** No reading of one line makes two. */
  ghost predicate OneLine(md: Markdown) {
    && (forall s: string :: '\n' !in s && md.heading(s).Some? ==> '\n' !in md.heading(s).value.1)
    && (forall s: string :: '\n' !in s ==> '\n' !in md.slug(s) && '\n' !in md.link(s))
  }

  lemma {:induction false} HeadingsAreOneLine(lines: seq<string>, n: nat, md: Markdown)
    requires OneLine(md) && n <= |lines| && forall l :: l in lines ==> '\n' !in l
    ensures forall h :: h in HeadingsUpTo(lines, n, md) ==> '\n' !in h.text
  {
    if n > 0 {
      HeadingsAreOneLine(lines, n - 1, md);
      assert lines[n - 1] in lines;
    }
  }

  lemma PlainSlugIsOneLine(slug: string, base: string, seen: set<string>)
    requires PlainSlug(slug, base, seen) && '\n' !in base
    ensures '\n' !in slug
  {
    if base in seen {
      var n: nat :| 1 <= n && IsLeast(slug, base, seen, n);
      assert '\n' !in Decimal(n);
    }
  }

  lemma {:induction false} SlugsAreOneLine(slugs: seq<string>, bases: seq<string>)
    requires AreSlugs(slugs, bases) && forall b :: b in bases ==> '\n' !in b
    ensures forall s :: s in slugs ==> '\n' !in s
  {
    var n := |slugs|;
    if n > 0 {
      SlugsAreOneLine(slugs[..n - 1], bases);
      assert bases[n - 1] in bases && slugs == slugs[..n - 1] + [slugs[n - 1]];
      PlainSlugIsOneLine(slugs[n - 1], bases[n - 1], Members(slugs[..n - 1]));
    }
  }

  lemma {:induction false} ListedIsOneLine(heads: seq<Heading>, slugs: seq<string>, md: Markdown)
    requires |heads| == |slugs| && OneLine(md)
    requires (forall h :: h in heads ==> '\n' !in h.text) && (forall s :: s in slugs ==> '\n' !in s)
    ensures forall l :: l in Listed(heads, slugs, md) ==> '\n' !in l
  {
    if heads != [] {
      assert heads[0] in heads && slugs[0] in slugs;
      ListedIsOneLine(heads[1..], slugs[1..], md);
      assert '\n' !in EntryLine(heads[0], slugs[0], md);
    }
  }

  lemma BlockIsLines(block: seq<string>, lines: seq<string>, md: Markdown)
    requires OneLine(md) && IsBlock(block, lines, md) && forall l :: l in lines ==> '\n' !in l
    ensures forall l :: l in block ==> '\n' !in l
  {
    var heads := Headings(lines, md);
    var slugs: seq<string> :| AreAnchors(slugs, heads, md) &&
      block == [START, "**Contents**", ""] + Listed(heads, slugs, md) + [END];
    HeadingsAreOneLine(lines, |lines|, md);
    forall s | s in slugs ensures '\n' !in s {
      SlugsAreOneLine(slugs, Bases(heads, md));
    }
    ListedIsOneLine(heads, slugs, md);
    ConstantLines();
    Wrapped(START, "**Contents**", Listed(heads, slugs, md), END);
  }

  lemma ConstantLines()
    ensures '\n' !in START && '\n' !in END && '\n' !in "**Contents**"
    ensures START[0] == '<'
  {
    var a, b, c := "<!-- toc: generated", " by scripts/docs-toc", ".py, do not edit -->";
    assert '\n' !in a && '\n' !in b && '\n' !in c && a[0] == '<';
    InPieces(a, b, c);
  }

  lemma InPieces(a: string, b: string, c: string)
    requires a != ""
    ensures (a + b + c)[0] == a[0] && forall x :: x in a + b + c ==> x in a || x in b || x in c
  {
  }

  lemma Wrapped(a: string, b: string, entries: seq<string>, c: string)
    requires '\n' !in a && '\n' !in b && '\n' !in c && forall l :: l in entries ==> '\n' !in l
    ensures forall l :: l in [a, b, ""] + entries + [c] ==> '\n' !in l
  {
  }

  /** A file that holds no further block ahead of the new one is rendered once and for all:
      rendering the result gives it back. */
  lemma RenderIsIdempotent(text: string, lines: seq<string>, new1: string, r: Rendered, md: Markdown)
    requires OneLine(md)
    requires StripBlock(Split(text, '\n')) == Some(lines) && START !in Ahead(lines, PlaceOf(lines, md))
    requires IsRendered(text, Text(new1), md) && IsRendered(new1, r, md)
    ensures r == Text(new1)
  {
    var block: seq<string> :| IsBlock(block, lines, md) && block != [] &&
        new1 == Join(InsertBlock(lines, block, md), '\n');
    InsertedSplits(Split(text, '\n'), lines, block, md);
    StripUndoesInsert(lines, block, md);
    var again: seq<string> :| IsBlock(again, lines, md) && again != [] &&
        r == Text(Join(InsertBlock(lines, again, md), '\n'));
    BlockIsUnique(block, again, lines, md);
  }

  /** When a start line ahead of the new block has no end line ahead of it, the second
      rendering takes out everything from there to the end of the new block, and the
      result is never the same. */
  lemma StrayStartIsSwallowed(text: string, lines: seq<string>, new1: string, r: Rendered, md: Markdown)
    requires OneLine(md) && StripBlock(Split(text, '\n')) == Some(lines)
    requires var ahead := Ahead(lines, PlaceOf(lines, md));
             START in ahead && END !in ahead[IndexFrom(ahead, START, 0)..]
    requires IsRendered(text, Text(new1), md) && IsRendered(new1, r, md)
    ensures r != Text(new1)
  {
    var block: seq<string> :| IsBlock(block, lines, md) && block != [] &&
        new1 == Join(InsertBlock(lines, block, md), '\n');
    InsertedSplits(Split(text, '\n'), lines, block, md);
    var left := LeftBySecond(lines, block, md);
    if r == Text(new1) {
      var again := SecondBlock(new1, InsertBlock(lines, block, md), left, md);
      OneStart(again, left, md);
      PlacedStarts(left, again, PlaceOf(left, md));
      assert false;
    }
  }

  /** A rendering that gives its own text back puts its block into those very lines. */
  lemma SecondBlock(text: string, all: seq<string>, left: seq<string>, md: Markdown) returns (again: seq<string>)
    requires OneLine(md) && Split(text, '\n') == all && StripBlock(all) == Some(left)
    requires IsRendered(text, Text(text), md)
    ensures IsBlock(again, left, md) && InsertBlock(left, again, md) == all
  {
    again :| IsBlock(again, left, md) && again != [] && text == Join(InsertBlock(left, again, md), '\n');
    InsertedSplits(all, left, again, md);
  }

  lemma LeftBySecond(lines: seq<string>, block: seq<string>, md: Markdown) returns (left: seq<string>)
    requires IsBlock(block, lines, md)
    requires var ahead := Ahead(lines, PlaceOf(lines, md));
             START in ahead && END !in ahead[IndexFrom(ahead, START, 0)..]
    ensures var all := InsertBlock(lines, block, md);
            StripBlock(all) == Some(left) && Starts(left) + 2 <= Starts(all)
  {
    var place := PlaceOf(lines, md);
    var ahead, behind := Ahead(lines, place), if place.At? then lines[place.index..] else [];
    BlockShape(block, lines, md);
    left := SwallowedBy(ahead, block, behind);
    assert Placed(lines, block, place) == ahead + [""] + block + behind;
  }

  function Starts(lines: seq<string>): nat {
    multiset(lines)[START]
  }

  /** The cut from a stray start line to the end of the block takes two start lines. */
  lemma SwallowedBy(ahead: seq<string>, block: seq<string>, behind: seq<string>) returns (left: seq<string>)
    requires Blocky(block) && START in ahead && END !in ahead[IndexFrom(ahead, START, 0)..]
    ensures StripBlock(ahead + [""] + block + behind) == Some(left)
    ensures Starts(left) + 2 <= Starts(ahead + [""] + block + behind)
  {
    var all, i, j := ahead + [""] + block + behind, IndexFrom(ahead, START, 0), |ahead| + |block|;
    forall l | i <= l < j ensures all[l] != END {
      if l < |ahead| {
        assert ahead[l] in ahead[i..] by { assert ahead[i..][l - i] == ahead[l]; }
      } else if l > |ahead| {
        assert all[l] == block[l - |ahead| - 1];
      } else {
        ConstantsDiffer();
      }
    }
    CutsAt(all, i, j);
    var start := if i > 0 && all[i - 1] == "" then i - 1 else i;
    left := Left(all, start, j + 1);
    TwoInside(all, i, |ahead| + 1, j + 1);
    CutLosesStarts(all, start, i, j + 1);
  }

  lemma CutLosesStarts(lines: seq<string>, start: nat, i: nat, end: nat)
    requires start <= i <= end <= |lines|
    ensures Starts(Left(lines, start, end)) + Starts(lines[i..end]) <= Starts(lines)
  {
    CutStarts(lines, start, end, i);
    TailStarts(lines[..start], lines[end..], start == 0);
  }

  lemma TailStarts(front: seq<string>, rest: seq<string>, top: bool)
    ensures Starts(front + if top && rest != [] && rest[0] == "" then rest[1..] else rest) <=
              Starts(front) + Starts(rest)
  {
    if rest != [] {
      assert rest == [rest[0]] + rest[1..];
    }
  }

  lemma TwoInside(lines: seq<string>, i: nat, k: nat, j: nat)
    requires i < k < j <= |lines| && lines[i] == START && lines[k] == START
    ensures Starts(lines[i..j]) >= 2
  {
    assert lines[i..j] == [lines[i]] + lines[i + 1..k] + [lines[k]] + lines[k + 1..j];
  }

  lemma CutStarts(lines: seq<string>, start: nat, j: nat, i: nat)
    requires start <= i <= j <= |lines|
    ensures Starts(lines) >= Starts(lines[..start]) + Starts(lines[i..j]) + Starts(lines[j..])
  {
    assert lines == lines[..start] + lines[start..i] + lines[i..j] + lines[j..];
  }

  lemma {:induction false} EntriesAreNotStart(heads: seq<Heading>, slugs: seq<string>, md: Markdown)
    requires |heads| == |slugs|
    ensures START !in Listed(heads, slugs, md)
  {
    if heads != [] {
      EntriesAreNotStart(heads[1..], slugs[1..], md);
      var line := EntryLine(heads[0], slugs[0], md);
      assert line[0] in "- ";
      ConstantLines();
    }
  }

  lemma OneStart(block: seq<string>, lines: seq<string>, md: Markdown)
    requires IsBlock(block, lines, md)
    ensures Starts(block) == 1
  {
    var heads := Headings(lines, md);
    var slugs: seq<string> :| AreAnchors(slugs, heads, md) &&
      block == [START, "**Contents**", ""] + Listed(heads, slugs, md) + [END];
    EntriesAreNotStart(heads, slugs, md);
    ConstantsDiffer();
    assert |START| != |"**Contents**"|;
  }

  lemma PlacedStarts(lines: seq<string>, block: seq<string>, p: Place)
    requires p.At? ==> p.index <= |lines|
    ensures Starts(Placed(lines, block, p)) == Starts(lines) + Starts(block)
  {
    ConstantsDiffer();
    if p.At? { assert lines == lines[..p.index] + lines[p.index..]; }
  }

  /** The printed file splits into the lines that were put together. */
  lemma InsertedSplits(before: seq<string>, lines: seq<string>, block: seq<string>, md: Markdown)
    requires OneLine(md) && (forall l :: l in before ==> '\n' !in l) && StripBlock(before) == Some(lines)
    requires IsBlock(block, lines, md)
    ensures Split(Join(InsertBlock(lines, block, md), '\n'), '\n') == InsertBlock(lines, block, md)
  {
    var all := InsertBlock(lines, block, md);
    StrippedIsPart(before);
    BlockIsLines(block, lines, md);
    forall l | l in all ensures '\n' !in l { PlacedIsPart(lines, block, PlaceOf(lines, md), l); }
    SplitJoin(all, '\n');
  }

  lemma StrippedIsPart(lines: seq<string>)
    requires StripBlock(lines).Some?
    ensures forall l :: l in StripBlock(lines).value ==> l in lines
  {
  }

  lemma PlacedIsPart(lines: seq<string>, block: seq<string>, p: Place, l: string)
    requires p.At? ==> p.index <= |lines|
    requires l in Placed(lines, block, p)
    ensures l in lines || l in block || l == ""
  {
  }
}
