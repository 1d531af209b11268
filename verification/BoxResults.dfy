/** The result of a deploy per box, judged from the receipts that the boxes wrote. */
module BoxResults {
  import opened Options
  import opened LockRecord

  /** A receipt as read: the box it names, the fleet commit it was written for, its word. */
  datatype Receipt = Receipt(box: Option<string>, fleetCommit: Option<string>, result: Option<string>)

  /** One row of a receipt read: its inventory host, and no receipt when there was none. */
  datatype Entry = Entry(host: Option<string>, receipt: Option<Receipt>)

  type Hosts = map<string, seq<string>>

  function HostOf(e: Entry): Option<string> {
    if e.host.Some? then e.host else if e.receipt.Some? then e.receipt.value.box else None
  }

  function BoxesOf(e: Entry, hosts: Hosts): seq<string> {
    var host := HostOf(e);
    if host.Some? && host.value in hosts then hosts[host.value] else []
  }

  predicate FromDeploy(e: Entry, commit: string) {
    e.receipt.Some? && e.receipt.value.fleetCommit == Some(commit)
  }

  predicate SaysOk(e: Entry) {
    e.receipt.Some? && e.receipt.value.result == Some("ok")
  }

  /** A receipt of this deploy on the box says something other than ok. */
  predicate SaysFailed(entries: seq<Entry>, commit: string, hosts: Hosts, box: string) {
    exists e :: e in entries && box in BoxesOf(e, hosts) && FromDeploy(e, commit) && !SaysOk(e)
  }

  /** There are entries of the box, and every one is from this deploy and ok. */
  predicate AllSayOk(entries: seq<Entry>, commit: string, hosts: Hosts, box: string) {
    && (exists e :: e in entries && box in BoxesOf(e, hosts))
    && forall e :: e in entries && box in BoxesOf(e, hosts) ==> FromDeploy(e, commit) && SaysOk(e)
  }

  function BoxWord(entries: seq<Entry>, commit: string, hosts: Hosts, box: string): Option<Word> {
    if SaysFailed(entries, commit, hosts, box) then Some(Failed)
    else if AllSayOk(entries, commit, hosts, box) then Some(Ok)
    else None
  }

  predicate Unmapped(entries: seq<Entry>, hosts: Hosts, host: string) {
    exists e :: e in entries && HostOf(e) == Some(host) && BoxesOf(e, hosts) == []
  }

  /** One entry, one box: the host of the row decides which box it is, and the host that the
      receipt names only when the row has none. The box is ok or failed only by a receipt of
      this deploy, and anything but "ok" in it is failed. */
  lemma OneEntry(host: Option<string>, named: Option<string>, made: Option<string>, word: Option<string>,
                 commit: string, hosts: Hosts, box: string)
    requires var h := if host.Some? then host else named;
             h.Some? && h.value in hosts && box in hosts[h.value]
    ensures var entries := [Entry(host, Some(Receipt(named, made, word)))];
            BoxWord(entries, commit, hosts, box) ==
            if made != Some(commit) then None else if word == Some("ok") then Some(Ok) else Some(Failed)
    ensures host.Some? ==> BoxWord([Entry(host, None)], commit, hosts, box) == None
  {
    var e := Entry(host, Some(Receipt(named, made, word)));
    assert e in [e] && box in BoxesOf(e, hosts);
    var none := Entry(host, None);
    if host.Some? { assert none in [none] && box in BoxesOf(none, hosts); }
  }

  /** A host is reported as unmapped exactly when a row is of it and it has no box. */
  lemma OneUnmapped(e: Entry, hosts: Hosts, h: string)
    ensures Unmapped([e], hosts, h) <==>
              && Some(h) == (if e.host.Some? then e.host else if e.receipt.Some? then e.receipt.value.box else None)
              && (h !in hosts || hosts[h] == [])
  {
    assert e in [e];
  }

  // ------------------------------------------------------------------ the two loops

  /** The state of the loops after some entries: what `words` and `missing` hold. */
  ghost predicate Judged(es: seq<Entry>, commit: string, hosts: Hosts, words: map<string, Word>, missing: set<string>) {
    forall b: string :: JudgedAt(es, commit, hosts, words, missing, b)
  }

  /** What one entry does to one box. */
  function WordAfter(words: map<string, Word>, e: Entry, commit: string, b: string): Option<Word> {
    if !FromDeploy(e, commit) then (if b in words then Some(words[b]) else None)
    else if !SaysOk(e) then Some(Failed)
    else if b in words then Some(words[b]) else Some(Ok)
  }

  ghost predicate JudgedAt(es: seq<Entry>, commit: string, hosts: Hosts, words: map<string, Word>,
                           missing: set<string>, b: string) {
    && (b in words <==> exists e :: e in es && b in BoxesOf(e, hosts) && FromDeploy(e, commit))
    && (b in words ==> words[b] == if SaysFailed(es, commit, hosts, b) then Failed else Ok)
    && (b in missing <==> exists e :: e in es && b in BoxesOf(e, hosts) && !FromDeploy(e, commit))
  }

  lemma JudgedAtGrows(es: seq<Entry>, e: Entry, commit: string, hosts: Hosts, words: map<string, Word>,
                      missing: set<string>,
                                         words': map<string, Word>, missing': set<string>, b: string)
    requires JudgedAt(es, commit, hosts, words, missing, b)
    requires b in BoxesOf(e, hosts) ==>
               (b in words' <==> WordAfter(words, e, commit, b).Some?) &&
                   (b in words' ==> Some(words'[b]) == WordAfter(words, e, commit, b))
    requires b !in BoxesOf(e, hosts) ==> (b in words' <==> b in words) && (b in words ==> words'[b] == words[b])
    requires b in missing' <==> b in missing || (b in BoxesOf(e, hosts) && !FromDeploy(e, commit))
    ensures JudgedAt(es + [e], commit, hosts, words', missing', b)
  {
    var all := es + [e];
    assert forall x :: x in all <==> x in es || x == e;
    assert SaysFailed(all, commit, hosts, b) <==>
           SaysFailed(es, commit, hosts, b) || (b in BoxesOf(e, hosts) && FromDeploy(e, commit) && !SaysOk(e));
  }

  lemma JudgedGrows(es: seq<Entry>, e: Entry, commit: string, hosts: Hosts, words: map<string, Word>,
                    missing: set<string>,
                    words': map<string, Word>, missing': set<string>)
    requires Judged(es, commit, hosts, words, missing)
    requires forall b: string :: b in BoxesOf(e, hosts) ==>
               (b in words' <==> WordAfter(words, e, commit, b).Some?) &&
                   (b in words' ==> Some(words'[b]) == WordAfter(words, e, commit, b))
    requires forall b: string :: b !in BoxesOf(e, hosts) ==>
               (b in words' <==> b in words) && (b in words ==> words'[b] == words[b])
    requires forall b: string :: b in missing' <==> b in missing || (b in BoxesOf(e, hosts) && !FromDeploy(e, commit))
    ensures Judged(es + [e], commit, hosts, words', missing')
  {
    forall b: string ensures JudgedAt(es + [e], commit, hosts, words', missing', b) {
      assert JudgedAt(es, commit, hosts, words, missing, b);
      JudgedAtGrows(es, e, commit, hosts, words, missing, words', missing', b);
    }
  }

  method BoxResultsOf(entries: seq<Entry>, commit: string, hosts: Hosts)
    returns (results: map<string, Word>, unmapped: set<string>)
    ensures forall b: string :: (b in results <==> BoxWord(entries, commit, hosts, b).Some?) &&
              (b in results ==> Some(results[b]) == BoxWord(entries, commit, hosts, b))
    ensures forall h: string :: h in unmapped <==> Unmapped(entries, hosts, h)
  {
    var words: map<string, Word>, missing: set<string> := map[], {};
    unmapped := {};
    for n := 0 to |entries|
      invariant Judged(entries[..n], commit, hosts, words, missing)
      invariant forall h: string :: h in unmapped <==> Unmapped(entries[..n], hosts, h)
    {
      var entry := entries[n];
      assert entries[..n + 1] == entries[..n] + [entry];
      var host := HostOf(entry);
      if host.None? {
        JudgedGrows(entries[..n], entry, commit, hosts, words, missing, words, missing);
        continue;
      }
      var names := if host.value in hosts then hosts[host.value] else [];
      if names == [] {
        JudgedGrows(entries[..n], entry, commit, hosts, words, missing, words, missing);
        assert entry in entries[..n + 1];
        unmapped := unmapped + {host.value};
        continue;
      }
      ghost var words0, missing0 := words, missing;
      words, missing := Mark(names, FromDeploy(entry, commit), SaysOk(entry), words, missing);
      JudgedGrows(entries[..n], entry, commit, hosts, words0, missing0, words, missing);
    }
    assert entries[..|entries|] == entries;
    results := map b | b in words && (words[b] == Failed || b !in missing) :: words[b];
    forall b: string
      ensures b in results <==> BoxWord(entries, commit, hosts, b).Some?
      ensures b in results ==> Some(results[b]) == BoxWord(entries, commit, hosts, b)
    {
      Settles(entries, commit, hosts, words, missing, b);
    }
  }

  lemma Settles(es: seq<Entry>, commit: string, hosts: Hosts, words: map<string, Word>, missing: set<string>, b: string)
    requires Judged(es, commit, hosts, words, missing)
    ensures BoxWord(es, commit, hosts, b) ==
            if b in words && (words[b] == Failed || b !in missing) then Some(words[b]) else None
  {
    assert JudgedAt(es, commit, hosts, words, missing, b);
  }

  /** The inner loop: one entry, on each box of its host. */
  method Mark(names: seq<string>, isFresh: bool, ok: bool, words0: map<string, Word>, missing0: set<string>)
    returns (words: map<string, Word>, missing: set<string>)
    ensures forall b: string :: b in missing <==> b in missing0 || (b in names && !isFresh)
    ensures forall b: string :: b in words <==> b in words0 || (b in names && isFresh)
    ensures forall b: string :: b in words ==>
              words[b] == if b in names && isFresh && !ok then Failed else if b in words0 then words0[b] else Ok
  {
    words, missing := words0, missing0;
    for i := 0 to |names|
      invariant forall b: string :: b in missing <==> b in missing0 || (b in names[..i] && !isFresh)
      invariant forall b: string :: b in words <==> b in words0 || (b in names[..i] && isFresh)
      invariant forall b: string :: b in words ==>
                  words[b] == if b in names[..i] && isFresh && !ok then Failed else if b in words0 then words0[b]
                      else Ok
    {
      var name := names[i];
      assert names[..i + 1] == names[..i] + [name];
      if !isFresh {
        missing := missing + {name};
      } else if !ok {
        words := words[name := Failed];
      } else if name !in words {
        words := words[name := Ok];
      }
    }
    assert names[..|names|] == names;
  }

  /** The order in which the receipts were read does not matter, nor do repeats. */
  lemma OrderDoesNotMatter(es: seq<Entry>, es': seq<Entry>, commit: string, hosts: Hosts, b: string)
    requires forall e :: e in es <==> e in es'
    ensures BoxWord(es, commit, hosts, b) == BoxWord(es', commit, hosts, b)
    ensures Unmapped(es, hosts, b) == Unmapped(es', hosts, b)
  {
    assert SaysFailed(es, commit, hosts, b) == SaysFailed(es', commit, hosts, b);
    assert AllSayOk(es, commit, hosts, b) == AllSayOk(es', commit, hosts, b);
    assert Unmapped(es, hosts, b) ==> Unmapped(es', hosts, b);
    assert Unmapped(es', hosts, b) ==> Unmapped(es, hosts, b);
  }

  // ----------------------------------------------------------- results without a map

  /** With no map of hosts to boxes every box of the environment has one result, as long
      as some receipt is of this deploy; the unread boxes have none. */
  method EnvWideResults(entries: seq<Entry>, commit: string, boxes: seq<string>, unread: set<string>, runFailed: bool)
    returns (results: map<string, Word>)
    ensures forall b: string :: b in results <==>
              b in boxes && b !in unread && exists e :: e in entries && FromDeploy(e, commit)
    ensures forall b: string :: b in results ==>
              (results[b] == Ok <==> !runFailed && forall e :: e in entries && FromDeploy(e, commit) ==> SaysOk(e)) &&
              (results[b] == Ok || results[b] == Failed)
  {
    var some, ok := false, !runFailed;
    for n := 0 to |entries|
      invariant some <==> exists e :: e in entries[..n] && FromDeploy(e, commit)
      invariant ok <==> !runFailed && forall e :: e in entries[..n] && FromDeploy(e, commit) ==> SaysOk(e)
    {
      assert forall e :: e in entries[..n + 1] <==> e in entries[..n] || e == entries[n];
      if FromDeploy(entries[n], commit) {
        some := true;
        if !SaysOk(entries[n]) { ok := false; }
      }
    }
    assert entries[..|entries|] == entries;
    if !some {
      return map[];
    }
    results := map b | b in boxes && b !in unread :: if ok then Ok else Failed;
  }

  // ------------------------------------------------------------- what the run records

  /** The words of the member records, and whether the run went well. */
  method Judge(entries: seq<Entry>, commit: string, hosts: Hosts, runFailed: bool, members: seq<Option<string>>)
    returns (words: seq<Word>, ok: bool)
    ensures |words| == |members|
    ensures forall i | 0 <= i < |members| ::
              words[i] == if !runFailed && members[i].Some? && AllSayOk(entries, commit, hosts, members[i].value)
                  then Ok else Failed
    ensures ok <==> && !runFailed
                    && (forall b: string :: !SaysFailed(entries, commit, hosts, b))
                    && (forall i | 0 <= i < |members| ::
                         members[i].Some? && AllSayOk(entries, commit, hosts, members[i].value))
  {
    var results, _ := BoxResultsOf(entries, commit, hosts);
    ok := !runFailed && Failed !in results.Values;
    assert Failed in results.Values <==> exists b: string :: SaysFailed(entries, commit, hosts, b) by {
      forall b: string | SaysFailed(entries, commit, hosts, b) ensures Failed in results.Values {
        assert b in results && results[b] == Failed;
      }
    }
    words := [];
    for i := 0 to |members|
      invariant |words| == i
      invariant forall k | 0 <= k < i ::
        words[k] == if !runFailed && members[k].Some? && AllSayOk(entries, commit, hosts, members[k].value) then Ok
            else Failed
      invariant ok <==> && !runFailed && Failed !in results.Values
                        && (forall k | 0 <= k < i ::
                             members[k].Some? && AllSayOk(entries, commit, hosts, members[k].value))
    {
      var box := members[i];
      var good := !runFailed && box.Some? && box.value in results && results[box.value] == Ok;
      if box.Some? {
        OkIsNotFailed(entries, commit, hosts, box.value);
      }
      words := words + [if good then Ok else Failed];
      ok := ok && good;
    }
  }

  lemma OkIsNotFailed(entries: seq<Entry>, commit: string, hosts: Hosts, b: string)
    ensures !(SaysFailed(entries, commit, hosts, b) && AllSayOk(entries, commit, hosts, b))
    ensures AllSayOk(entries, commit, hosts, b) <==> BoxWord(entries, commit, hosts, b) == Some(Ok)
  {
  }
}
