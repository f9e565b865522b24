/** Attaching vulnerability records to graph nodes. The report holds, per
    file name, a list of records, each with the source lines it concerns; a
    node receives the records whose lines meet its own. The generator script
    tests this with a set intersection, so a record is attached at most once;
    the older merge script compares every pair of lines in a nested loop and
    attaches a record once per equal pair. */
module Vulnerabilities {
  import opened Common
  import opened Analyzer

  // ---------------------------------------------------------------------------
  // Selecting a file's records: `get_vulnerabilities`

  /** The records of the last report entry named `name`, if any. */
  function LastEntryFor(name: string, entries: seq<VulEntry>): (r: Option<seq<VulRecord>>)
    ensures r.None? <==> forall i :: 0 <= i < |entries| ==> entries[i].name != name
    ensures r.Some? ==> exists i :: 0 <= i < |entries| && entries[i].name == name
                          && r.value == entries[i].vulnerabilities
                          && forall j :: i < j < |entries| ==> entries[j].name != name
  {
    if |entries| == 0 then None
    else if entries[|entries| - 1].name == name then Some(entries[|entries| - 1].vulnerabilities)
    else LastEntryFor(name, entries[..|entries| - 1])
  }

  /** What the generator's `get_vulnerabilities` returns, and what the merge
      script gets from its guarded call: nothing without a report. */
  function FileVulnerabilities(name: string, report: Option<seq<VulEntry>>): Option<seq<VulRecord>>
  {
    match report
    case None => None
    case Some(entries) => LastEntryFor(name, entries)
  }

  /** `get_vulnerabilities`: scan the whole report, overwriting the result on
      every entry whose name matches. */
  method GetVulnerabilities(name: string, report: Option<seq<VulEntry>>) returns (found: Option<seq<VulRecord>>)
    ensures found == FileVulnerabilities(name, report)
  {
    found := None;
    if report.Some? {
      var entries := report.value;
      var i := 0;
      while i < |entries|
        invariant 0 <= i <= |entries|
        invariant found == LastEntryFor(name, entries[..i])
      {
        if entries[i].name == name {
          found := Some(entries[i].vulnerabilities);
        }
        assert entries[..i + 1][..i] == entries[..i];
        i := i + 1;
      }
      assert entries[..i] == entries;
    }
  }

  // ---------------------------------------------------------------------------
  // The generator's matcher: set intersection

  /** `set(record_lines) & set(node_lines)` is not empty. */
  predicate SharesLine(lines: seq<int>, rec: VulRecord)
  {
    exists k :: k in rec.lines && k in lines
  }

  /** The intersection of the two line sets is empty exactly when no line
      is shared. */
  lemma CommonLines(rec: VulRecord, lines: seq<int>)
    ensures |set k | k in rec.lines && k in lines| > 0 <==> SharesLine(lines, rec)
  {
    var common := set k | k in rec.lines && k in lines;
    if SharesLine(lines, rec) {
      var k :| k in rec.lines && k in lines;
      assert k in common;
    } else {
      assert forall k :: k !in common;
      assert common == {};
    }
  }

  /** The records, in order, that share a line with the node. */
  function SharingRecords(lines: seq<int>, recs: seq<VulRecord>): (r: seq<VulRecord>)
    ensures |r| <= |recs|
  {
    if |recs| == 0 then []
    else
      var prefix := SharingRecords(lines, recs[..|recs| - 1]);
      if SharesLine(lines, recs[|recs| - 1]) then prefix + [recs[|recs| - 1]] else prefix
  }

  /** An empty list of matches becomes `None`. */
  function NoneIfEmpty(xs: seq<VulRecord>): Option<seq<VulRecord>>
  {
    if |xs| == 0 then None else Some(xs)
  }

  /** The generator's `get_vulnerabilities_of_node_by_source_code_line`. */
  function MatchBySet(lines: seq<int>, recs: Option<seq<VulRecord>>): Option<seq<VulRecord>>
  {
    match recs
    case None => None
    case Some(rs) => NoneIfEmpty(SharingRecords(lines, rs))
  }

  method VulnerabilitiesOfNodeBySet(lines: seq<int>, recs: Option<seq<VulRecord>>) returns (r: Option<seq<VulRecord>>)
    ensures r == MatchBySet(lines, recs)
  {
    if recs.None? {
      return None;
    }
    var rs := recs.value;
    var found: seq<VulRecord> := [];
    var i := 0;
    while i < |rs|
      invariant 0 <= i <= |rs|
      invariant found == SharingRecords(lines, rs[..i])
    {
      var common := set k | k in rs[i].lines && k in lines;
      CommonLines(rs[i], lines);
      if |common| > 0 {
        found := found + [rs[i]];
      }
      assert rs[..i + 1][..i] == rs[..i];
      i := i + 1;
    }
    assert rs[..i] == rs;
    r := if |found| == 0 then None else Some(found);
  }

  /** The set matcher keeps exactly the sharing records, each as often as it
      occurs in the report and never more. */
  lemma {:induction false} SharingRecordsCount(lines: seq<int>, recs: seq<VulRecord>, x: VulRecord)
    ensures multiset(SharingRecords(lines, recs))[x] == if SharesLine(lines, x) then multiset(recs)[x] else 0
  {
    if |recs| > 0 {
      var init, last := recs[..|recs| - 1], recs[|recs| - 1];
      SharingRecordsCount(lines, init, x);
      assert recs == init + [last];
    }
  }

  /** `None` exactly when there is no report for the file or no record
      meets the node's lines; otherwise every record that meets them is
      attached, once per occurrence in the report, and nothing else. */
  lemma MatchBySetCharacterization(lines: seq<int>, recs: Option<seq<VulRecord>>)
    ensures MatchBySet(lines, recs).None? <==>
              recs.None? || forall i :: 0 <= i < |recs.value| ==> !SharesLine(lines, recs.value[i])
    ensures MatchBySet(lines, recs).Some? ==>
              forall x :: multiset(MatchBySet(lines, recs).value)[x]
                       == if SharesLine(lines, x) then multiset(recs.value)[x] else 0
  {
    if recs.Some? {
      var rs := recs.value;
      forall x
        ensures multiset(SharingRecords(lines, rs))[x] == if SharesLine(lines, x) then multiset(rs)[x] else 0
      {
        SharingRecordsCount(lines, rs, x);
      }
      if |SharingRecords(lines, rs)| == 0 {
        forall i | 0 <= i < |rs|
          ensures !SharesLine(lines, rs[i])
        {
          assert rs[i] in multiset(rs);
        }
      } else {
        var x := SharingRecords(lines, rs)[0];
        assert x in multiset(SharingRecords(lines, rs));
        assert x in rs;
      }
    }
  }

  // ---------------------------------------------------------------------------
  // The merge script's matcher: every pair of equal lines

  /** How many positions of `xs` hold `v`. */
  function Occurrences(xs: seq<int>, v: int): nat
  {
    if |xs| == 0 then 0
    else Occurrences(xs[..|xs| - 1], v) + (if xs[|xs| - 1] == v then 1 else 0)
  }

  /** The count is at most the length, and zero exactly when `v` does not
      occur. */
  lemma {:induction false} OccurrencesFacts(xs: seq<int>, v: int)
    ensures Occurrences(xs, v) <= |xs|
    ensures Occurrences(xs, v) == 0 <==> v !in xs
  {
    if |xs| > 0 {
      var init := xs[..|xs| - 1];
      OccurrencesFacts(init, v);
      assert xs == init + [xs[|xs| - 1]];
    }
  }

  /** The number of pairs (node line, record line) with equal values. */
  function PairCount(lines: seq<int>, recLines: seq<int>): nat
  {
    if |lines| == 0 then 0
    else PairCount(lines[..|lines| - 1], recLines) + Occurrences(recLines, lines[|lines| - 1])
  }

  lemma OccurrencesStep(xs: seq<int>, b: nat, v: int)
    requires b < |xs|
    ensures Occurrences(xs[..b + 1], v) == Occurrences(xs[..b], v) + (if xs[b] == v then 1 else 0)
  {
    assert xs[..b + 1][..b] == xs[..b];
  }

  lemma PairCountStep(lines: seq<int>, a: nat, recLines: seq<int>)
    requires a < |lines|
    ensures PairCount(lines[..a + 1], recLines) == PairCount(lines[..a], recLines) + Occurrences(recLines, lines[a])
  {
    assert lines[..a + 1][..a] == lines[..a];
  }

  function Repeat(x: VulRecord, n: nat): (r: seq<VulRecord>)
    ensures |r| == n
  {
    if n == 0 then [] else Repeat(x, n - 1) + [x]
  }

  /** Every record, in order, once per equal pair of lines. */
  function PairRecords(lines: seq<int>, recs: seq<VulRecord>): seq<VulRecord>
  {
    if |recs| == 0 then []
    else
      var last := recs[|recs| - 1];
      PairRecords(lines, recs[..|recs| - 1]) + Repeat(last, PairCount(lines, last.lines))
  }

  /** The merge script's `get_vulnerabilities_of_node_by_source_code_line`. */
  function MatchByLinePairs(lines: seq<int>, recs: Option<seq<VulRecord>>): Option<seq<VulRecord>>
  {
    match recs
    case None => None
    case Some(rs) => NoneIfEmpty(PairRecords(lines, rs))
  }

  /** The inner loop for one node line `v`: one more copy of `rec` per
      record line equal to `v`. */
  method AppendPerEqualLine(r0: seq<VulRecord>, ghost found: seq<VulRecord>, ghost n0: nat, v: int, rec: VulRecord)
    returns (r: seq<VulRecord>, ghost n: nat)
    requires r0 == found + Repeat(rec, n0)
    ensures n == n0 + Occurrences(rec.lines, v)
    ensures r == found + Repeat(rec, n)
  {
    r, n := r0, n0;
    var b := 0;
    while b < |rec.lines|
      invariant 0 <= b <= |rec.lines|
      invariant n == n0 + Occurrences(rec.lines[..b], v)
      invariant r == found + Repeat(rec, n)
    {
      OccurrencesStep(rec.lines, b, v);
      if v == rec.lines[b] {
        RepeatStep(found, rec, n);
        r := r + [rec];
        n := n + 1;
      }
      b := b + 1;
    }
    assert rec.lines[..b] == rec.lines;
  }

  /** The two inner loops of the merge script's matcher: append `rec` once
      for every pair of a node line and a record line with equal values. */
  method AppendPerEqualPair(found: seq<VulRecord>, lines: seq<int>, rec: VulRecord) returns (r: seq<VulRecord>)
    ensures r == found + Repeat(rec, PairCount(lines, rec.lines))
  {
    r := found;
    ghost var n := 0;
    var a := 0;
    while a < |lines|
      invariant 0 <= a <= |lines|
      invariant n == PairCount(lines[..a], rec.lines)
      invariant r == found + Repeat(rec, n)
    {
      r, n := AppendPerEqualLine(r, found, n, lines[a], rec);
      PairCountStep(lines, a, rec.lines);
      a := a + 1;
    }
    assert lines[..a] == lines;
  }

  lemma RepeatStep(found: seq<VulRecord>, x: VulRecord, n: nat)
    ensures found + Repeat(x, n) + [x] == found + Repeat(x, n + 1)
  {
  }

  method VulnerabilitiesOfNodeByLinePairs(lines: seq<int>, recs: Option<seq<VulRecord>>) returns (r: Option<seq<VulRecord>>)
    ensures r == MatchByLinePairs(lines, recs)
  {
    if recs.None? {
      return None;
    }
    var rs := recs.value;
    var found: seq<VulRecord> := [];
    var i := 0;
    while i < |rs|
      invariant 0 <= i <= |rs|
      invariant found == PairRecords(lines, rs[..i])
    {
      found := AppendPerEqualPair(found, lines, rs[i]);
      assert rs[..i + 1][..i] == rs[..i];
      i := i + 1;
    }
    assert rs[..i] == rs;
    r := if |found| == 0 then None else Some(found);
  }

  lemma {:induction false} PairCountPositive(lines: seq<int>, recLines: seq<int>)
    ensures PairCount(lines, recLines) > 0 <==> exists k :: k in recLines && k in lines
  {
    if |lines| > 0 {
      var init, last := lines[..|lines| - 1], lines[|lines| - 1];
      PairCountPositive(init, recLines);
      OccurrencesFacts(recLines, last);
      assert lines == init + [last];
      if PairCount(lines, recLines) > 0 && PairCount(init, recLines) > 0 {
        var k :| k in recLines && k in init;
        assert k in lines;
      }
      if exists k :: k in recLines && k in lines {
        var k :| k in recLines && k in lines;
        if k !in init {
          assert k == last;
        }
      }
    }
  }

  lemma {:induction false} PairRecordsCount(lines: seq<int>, recs: seq<VulRecord>, x: VulRecord)
    ensures multiset(PairRecords(lines, recs))[x] == multiset(recs)[x] * PairCount(lines, x.lines)
  {
    if |recs| > 0 {
      var init, last := recs[..|recs| - 1], recs[|recs| - 1];
      var p := PairCount(lines, x.lines);
      var m := multiset(init)[x];
      PairRecordsCount(lines, init, x);
      PairRecordsSnoc(lines, recs, x);
      RepeatCount(last, PairCount(lines, last.lines), x);
      MultisetSnoc(recs, x);
      if last == x {
        MultiplySuccessor(m, p);
      }
    }
  }

  /** The count of `x` among the records grows with the last record. */
  lemma PairRecordsSnoc(lines: seq<int>, recs: seq<VulRecord>, x: VulRecord)
    requires |recs| > 0
    ensures var last := recs[|recs| - 1];
            multiset(PairRecords(lines, recs))[x]
              == multiset(PairRecords(lines, recs[..|recs| - 1]))[x]
                 + multiset(Repeat(last, PairCount(lines, last.lines)))[x]
  {
  }

  lemma MultisetSnoc(recs: seq<VulRecord>, x: VulRecord)
    requires |recs| > 0
    ensures multiset(recs)[x]
            == multiset(recs[..|recs| - 1])[x] + (if recs[|recs| - 1] == x then 1 else 0)
  {
    assert recs == recs[..|recs| - 1] + [recs[|recs| - 1]];
  }

  lemma ProductPositive(m: nat, p: nat)
    ensures m * p > 0 <==> m > 0 && p > 0
  {
    if m > 0 && p > 0 {
      assert m * p >= p;
    }
  }

  lemma MultiplySuccessor(m: nat, p: nat)
    ensures (m + 1) * p == m * p + p
  {
  }

  lemma {:induction false} RepeatCount(y: VulRecord, n: nat, x: VulRecord)
    ensures multiset(Repeat(y, n))[x] == if x == y then n else 0
  {
    if n > 0 {
      RepeatCount(y, n - 1, x);
    }
  }

  /** The nested-loop matcher attaches a record once for every equal pair of
      lines: a record sharing k pairs with the node appears k times. It is
      `None` exactly when there is no report or no record meets the node. */
  lemma MatchByLinePairsCharacterization(lines: seq<int>, recs: Option<seq<VulRecord>>)
    ensures MatchByLinePairs(lines, recs).None? <==>
              recs.None? || forall i :: 0 <= i < |recs.value| ==> !SharesLine(lines, recs.value[i])
    ensures MatchByLinePairs(lines, recs).Some? ==>
              forall x :: multiset(MatchByLinePairs(lines, recs).value)[x]
                       == multiset(recs.value)[x] * PairCount(lines, x.lines)
  {
    if recs.Some? {
      var rs := recs.value;
      forall x
        ensures multiset(PairRecords(lines, rs))[x] == multiset(rs)[x] * PairCount(lines, x.lines)
      {
        PairRecordsCount(lines, rs, x);
      }
      if |PairRecords(lines, rs)| == 0 {
        forall i | 0 <= i < |rs|
          ensures !SharesLine(lines, rs[i])
        {
          assert rs[i] in multiset(rs);
          assert multiset(PairRecords(lines, rs))[rs[i]] == 0;
          ProductPositive(multiset(rs)[rs[i]], PairCount(lines, rs[i].lines));
          PairCountPositive(lines, rs[i].lines);
        }
      } else {
        var x := PairRecords(lines, rs)[0];
        assert x in multiset(PairRecords(lines, rs));
        ProductPositive(multiset(rs)[x], PairCount(lines, x.lines));
        PairCountPositive(lines, x.lines);
        assert x in rs;
      }
    }
  }

  /** A record whose lines 11 and 12 both lie on a node spanning lines 10 to
      12 is attached twice by the merge script and once by the generator. */
  lemma DuplicateAttachment()
    ensures MatchByLinePairs([10, 11, 12], Some([VulRecord([11, 12], "reentrancy")]))
         == Some([VulRecord([11, 12], "reentrancy"), VulRecord([11, 12], "reentrancy")])
    ensures MatchBySet([10, 11, 12], Some([VulRecord([11, 12], "reentrancy")]))
         == Some([VulRecord([11, 12], "reentrancy")])
  {
    var rec := VulRecord([11, 12], "reentrancy");
    var l: seq<int> := [10, 11, 12];
    assert Occurrences(rec.lines, 10) == 0;
    assert Occurrences(rec.lines, 11) == 1 by { assert rec.lines[..1] == [11]; }
    assert Occurrences(rec.lines, 12) == 1 by { assert rec.lines[..1] == [11]; }
    assert PairCount(l[..1], rec.lines) == 0 by { assert l[..1][..0] == []; }
    assert PairCount(l[..2], rec.lines) == 1 by { assert l[..2][..1] == l[..1]; }
    assert PairCount(l, rec.lines) == 2 by { assert l[..2] == l[..|l| - 1]; }
    assert [rec][..0] == [];
    assert Repeat(rec, 2) == [rec, rec] by { assert Repeat(rec, 1) == [rec]; }
    assert PairRecords(l, [rec]) == [rec, rec];
    assert SharesLine(l, rec) by { assert 11 in rec.lines && 11 in l; }
    assert SharingRecords(l, [rec]) == [rec];
  }

  /** When no record shares more than one pair of lines with the node, the
      two matchers agree. */
  lemma {:induction false} MatchersAgree(lines: seq<int>, recs: seq<VulRecord>)
    requires forall i :: 0 <= i < |recs| ==> PairCount(lines, recs[i].lines) <= 1
    ensures PairRecords(lines, recs) == SharingRecords(lines, recs)
  {
    if |recs| > 0 {
      var init, last := recs[..|recs| - 1], recs[|recs| - 1];
      MatchersAgree(lines, init);
      PairCountPositive(lines, last.lines);
      assert SharesLine(lines, last) <==> PairCount(lines, last.lines) > 0;
      if PairCount(lines, last.lines) == 1 {
        assert Repeat(last, 1) == [last];
      }
    }
  }
}
