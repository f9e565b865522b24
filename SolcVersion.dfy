/** Picking the compiler version of a Solidity file from its `pragma
    solidity` line, with the pattern `\d.\d.\d+` and the fallback 0.4.25.
    The file is given as what successive `readline` calls return: each line
    with its newline, and the empty string once the file is exhausted. */
module SolcVersion {
  import opened Common

  const DefaultVersion := "0.4.25"
  const PragmaMarker := "pragma solidity"

  predicate IsPragmaLine(line: string)
  {
    Contains(line, PragmaMarker)
  }

  /** `.` in a regular expression: any character but a newline. */
  predicate AnyButNewline(c: char)
  {
    c != '\n'
  }

  /** The pattern's fixed part `\d.\d.\d` matches at position i. */
  predicate MatchAt(line: string, i: nat)
  {
    && i + 5 <= |line|
    && IsDigit(line[i]) && AnyButNewline(line[i + 1])
    && IsDigit(line[i + 2]) && AnyButNewline(line[i + 3])
    && IsDigit(line[i + 4])
  }

  /** Length of the run of digits starting at k: how far the greedy `\d+`
      extends. */
  function DigitRun(line: string, k: nat): (n: nat)
    requires k <= |line|
    ensures k + n <= |line|
    ensures forall j :: k <= j < k + n ==> IsDigit(line[j])
    ensures k + n < |line| ==> !IsDigit(line[k + n])
    decreases |line| - k
  {
    if k == |line| || !IsDigit(line[k]) then 0 else 1 + DigitRun(line, k + 1)
  }

  /** The text of the match that starts at i. */
  function MatchText(line: string, i: nat): string
    requires MatchAt(line, i)
  {
    line[i..i + 4 + DigitRun(line, i + 4)]
  }

  /** The leftmost position at or after `from` where the pattern matches. */
  function FindMatch(line: string, from: nat): (r: Option<nat>)
    requires from <= |line|
    ensures r.Some? ==> from <= r.value < |line| && MatchAt(line, r.value)
    ensures r.Some? ==> forall j :: from <= j < r.value ==> !MatchAt(line, j)
    ensures r.None? ==> forall i :: from <= i < |line| ==> !MatchAt(line, i)
    decreases |line| - from
  {
    if from == |line| then None
    else if MatchAt(line, from) then Some(from)
    else FindMatch(line, from + 1)
  }

  /** `pattern.findall(line)[0]` when there is a match: five characters
      digit, non-newline, digit, non-newline, digit, then every further digit
      the greedy `\d+` can take. */
  function FirstVersionMatch(line: string): (r: Option<string>)
    ensures r.None? <==> forall i :: 0 <= i < |line| ==> !MatchAt(line, i)
    ensures r.Some? ==> |r.value| >= 5 && IsDigit(r.value[0]) && r.value[1] != '\n'
                        && IsDigit(r.value[2]) && r.value[3] != '\n'
                        && forall j :: 4 <= j < |r.value| ==> IsDigit(r.value[j])
  {
    match FindMatch(line, 0)
    case None => None
    case Some(i) => Some(MatchText(line, i))
  }

  /** The version a single pragma line yields. */
  function VersionOfPragmaLine(line: string): string
  {
    match FirstVersionMatch(line)
    case Some(v) => v
    case None => DefaultVersion
  }

  /** What `get_solc_version` returns for the lines from position i on. */
  function SolcVersionFrom(text: seq<string>, i: nat): string
    requires i <= |text|
    decreases |text| - i
  {
    if i == |text| || text[i] == "" then DefaultVersion
    else if IsPragmaLine(text[i]) then VersionOfPragmaLine(text[i])
    else SolcVersionFrom(text, i + 1)
  }

  function SolcVersionOf(text: seq<string>): string
  {
    SolcVersionFrom(text, 0)
  }

  /** `get_solc_version`: read lines until the end of the file; the first
      line mentioning `pragma solidity` decides. */
  method GetSolcVersion(text: seq<string>) returns (version: string)
    ensures version == SolcVersionOf(text)
  {
    var i := 0;
    var line := if i < |text| then text[i] else "";
    while line != ""
      invariant 0 <= i <= |text|
      invariant line == (if i < |text| then text[i] else "")
      invariant SolcVersionFrom(text, i) == SolcVersionOf(text)
      decreases |text| - i
    {
      if IsPragmaLine(line) {
        var found := FirstVersionMatch(line);
        if found.Some? {
          return found.value;
        } else {
          return DefaultVersion;
        }
      }
      i := i + 1;
      line := if i < |text| then text[i] else "";
    }
    return DefaultVersion;
  }

  // ---------------------------------------------------------------------------
  // Properties

  /** Only the first pragma line before the end of the file matters: the
      result is its first match, or the default when it has none. */
  lemma {:induction false} FirstPragmaLineDecides(text: seq<string>, k: nat, from: nat)
    requires from <= k < |text|
    requires forall j :: from <= j < k ==> text[j] != "" && !IsPragmaLine(text[j])
    requires text[k] != "" && IsPragmaLine(text[k])
    ensures SolcVersionFrom(text, from) == VersionOfPragmaLine(text[k])
    decreases k - from
  {
    if from < k {
      assert text[from] != "" && !IsPragmaLine(text[from]);
      FirstPragmaLineDecides(text, k, from + 1);
    }
  }

  /** A file without a pragma line before its end yields 0.4.25. */
  lemma {:induction false} NoPragmaDefault(text: seq<string>, from: nat)
    requires from <= |text|
    requires forall j :: from <= j < |text| && (forall m :: from <= m < j ==> text[m] != "") ==> !IsPragmaLine(text[j])
    ensures SolcVersionFrom(text, from) == DefaultVersion
    decreases |text| - from
  {
    if from < |text| && text[from] != "" {
      NoPragmaDefault(text, from + 1);
    }
  }

  /** Lines after the first pragma line never change the result. */
  lemma LaterLinesIrrelevant(text: seq<string>, rest: seq<string>, k: nat)
    requires k < |text|
    requires forall j :: 0 <= j < k ==> text[j] != "" && !IsPragmaLine(text[j])
    requires text[k] != "" && IsPragmaLine(text[k])
    ensures SolcVersionOf(text[..k + 1] + rest) == SolcVersionOf(text)
  {
    var t := text[..k + 1] + rest;
    FirstPragmaLineDecides(text, k, 0);
    FirstPragmaLineDecides(t, k, 0);
  }

  /** The match is the leftmost one and takes the whole digit run; a line
      whose version has only two parts yields the default. */
  lemma ExamplePragma()
    ensures VersionOfPragmaLine("^0.4.24;") == "0.4.24"
    ensures VersionOfPragmaLine("^0.5;") == DefaultVersion
  {
    var l := "^0.4.24;";
    assert !MatchAt(l, 0);
    assert MatchAt(l, 1);
    assert DigitRun(l, 5) == 2;
    assert FindMatch(l, 0) == Some(1);
    var m := "^0.5;";
    assert forall i :: 0 <= i < |m| ==> !MatchAt(m, i);
  }
}
