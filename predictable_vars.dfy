/**
 * The predictable-variable detector: a call that sends Ether is reported when
 * its path constraints or its recipient mention a block variable a miner can
 * predict or influence (coinbase, gaslimit, timestamp, number), or when they
 * depend on a block hash. The texts the detector scans are the printed
 * constraints followed by the printed recipient.
 */
module PredictableVars {
  import opened Wrappers
  import opened Text
  import opened Smt
  import opened Report
  import opened EvmState
  import SwcData
  import Base

  /** The block variables of the first check, in the order they are scanned. */
  const Tracked: seq<string> := ["coinbase", "gaslimit", "timestamp", "number"]

  const Intro := "The contract sends Ether depending on the values of the following variables:\n"

  const PredictableNote :=
    "Note that the values of variables like coinbase, gaslimit, block number and timestamp "
    + "are predictable and/or can be manipulated by a malicious miner. "
    + "Don't use them for random number generation or to make critical decisions."

  const ZeroNote := ", this expression will always be equal to zero."

  const VariableTitle := "Dependence on predictable environment variable"
  const VariableHead := "Sending of Ether depends on a predictable variable."
  const BlockhashTitle := "Dependence on Predictable Variable"
  const BlockhashHead := "Sending of Ether depends on the blockhash."

  /** `call.node.constraints[:] + [call.to]`, each as `str()` prints it. */
  function ScannedTexts(cs: seq<Cond>, to: Word): (r: seq<string>)
    ensures |r| == |cs| + 1 && r[|cs|] == ShowWord(to)
    ensures forall k :: 0 <= k < |cs| ==> r[k] == ShowCond(cs[k])
  {
    seq(|cs|, k requires 0 <= k < |cs| => ShowCond(cs[k])) + [ShowWord(to)]
  }

  /** `v` once for every text that contains it, in text order. */
  function Occurrences(v: string, texts: seq<string>): (r: seq<string>)
    ensures |r| <= |texts|
    ensures forall k :: 0 <= k < |r| ==> r[k] == v
  {
    if texts == [] then []
    else Occurrences(v, texts[..|texts| - 1]) + if Contains(texts[|texts| - 1], v) then [v] else []
  }

  /** `found`: for each variable in turn, one entry per text that mentions it. */
  function FoundVars(vars: seq<string>, texts: seq<string>): seq<string>
  {
    if vars == [] then []
    else FoundVars(vars[..|vars| - 1], texts) + Occurrences(vars[|vars| - 1], texts)
  }

  /** The tracked variables are scanned in their fixed order, so `found` groups the occurrences of each. */
  lemma FoundTracked(texts: seq<string>)
    ensures FoundVars(Tracked, texts) ==
      Occurrences("coinbase", texts) + Occurrences("gaslimit", texts)
      + Occurrences("timestamp", texts) + Occurrences("number", texts)
  {
    var t3, t2, t1 := Tracked[..3], Tracked[..3][..2], Tracked[..3][..2][..1];
    assert t3 == ["coinbase", "gaslimit", "timestamp"] && t2 == ["coinbase", "gaslimit"] && t1 == ["coinbase"];
    assert t1[..0] == [];
    assert FoundVars(t1, texts) == Occurrences("coinbase", texts);
    assert FoundVars(t2, texts) == FoundVars(t1, texts) + Occurrences("gaslimit", texts);
    assert FoundVars(t3, texts) == FoundVars(t2, texts) + Occurrences("timestamp", texts);
    assert FoundVars(Tracked, texts) == FoundVars(t3, texts) + Occurrences("number", texts);
  }

  predicate Mentions(texts: seq<string>, v: string) {
    exists k :: 0 <= k < |texts| && Contains(texts[k], v)
  }

  /** Nothing is found exactly when no text mentions any of the tracked variables. */
  lemma FoundNothing(texts: seq<string>)
    ensures FoundVars(Tracked, texts) == [] <==>
      forall v :: v in Tracked ==> !Mentions(texts, v)
  {
    FoundTracked(texts);
    OccurrencesNone("coinbase", texts);
    OccurrencesNone("gaslimit", texts);
    OccurrencesNone("timestamp", texts);
    OccurrencesNone("number", texts);
  }

  /** `v` is found nowhere exactly when no text contains it. */
  lemma {:induction false} OccurrencesNone(v: string, texts: seq<string>)
    ensures Occurrences(v, texts) == [] <==> !Mentions(texts, v)
  {
    if texts != [] {
      var init := texts[..|texts| - 1];
      OccurrencesNone(v, init);
      if Mentions(init, v) {
        var k :| 0 <= k < |init| && Contains(init[k], v);
        assert texts[k] == init[k];
      }
      if Mentions(texts, v) && !Contains(texts[|texts| - 1], v) {
        var k :| 0 <= k < |texts| && Contains(texts[k], v);
        assert init[k] == texts[k];
      }
    }
  }

  /** The lines the description lists, one per entry of `found`. */
  function VarLines(found: seq<string>): (r: string)
    ensures found == [] ==> r == ""
  {
    if found == [] then "" else VarLines(found[..|found| - 1]) + "- block." + found[|found| - 1] + "\n"
  }

  /** The classification: timestamp dependence when the last variable found is "timestamp". */
  function Classify(found: seq<string>): string
    requires found != []
  {
    if found[|found| - 1] == "timestamp" then SwcData.TimestampDependence else SwcData.WeakRandomness
  }

  /**
   * The last entry of `found` is "timestamp" exactly when some text mentions
   * "timestamp" and none mentions "number"; that is when the issue is
   * classified as timestamp dependence.
   */
  lemma ClassifyTimestamp(texts: seq<string>)
    requires FoundVars(Tracked, texts) != []
    ensures Classify(FoundVars(Tracked, texts)) == SwcData.TimestampDependence <==>
      Mentions(texts, "timestamp") && !Mentions(texts, "number")
  {
    FoundTracked(texts);
    OccurrencesNone("number", texts);
    OccurrencesNone("timestamp", texts);
    var found := FoundVars(Tracked, texts);
    var n := Occurrences("number", texts);
    var t := Occurrences("timestamp", texts);
    if n != [] {
      assert found[|found| - 1] == n[|n| - 1] == "number";
    } else if t != [] {
      assert found[|found| - 1] == t[|t| - 1] == "timestamp";
    } else {
      var g := Occurrences("gaslimit", texts);
      var c := Occurrences("coinbase", texts);
      if g != [] {
        assert found[|found| - 1] == g[|g| - 1];
      } else {
        assert found == c;
        assert found[|found| - 1] == c[|c| - 1];
      }
    }
  }

  /** `solve(call)`: the model query on the node's own constraints. */
  function Solve(call: Call, model: ModelOracle): bool
    reads call.state.node.constraints
  {
    model(call.node().constraints.items)
  }

  /** The issue of the first check, when it is filed. */
  function VariableIssue(call: Call, found: seq<string>): (r: Issue)
    requires found != []
    ensures r.severity == Low && r.swcId == Classify(found)
    ensures r.descriptionTail == Intro + VarLines(found) + PredictableNote
  {
    IssueAt(call.state, Classify(found), VariableTitle, Low, VariableHead, Intro + VarLines(found) + PredictableNote, "")
  }

  function FirstCheck(call: Call, found: seq<string>, solvable: bool): (r: seq<Issue>)
    ensures |r| <= 1
    ensures r != [] <==> found != [] && solvable
  {
    if found != [] && solvable then [VariableIssue(call, found)] else []
  }

  // ----- regular expressions of the blockhash check -----

  /** Length of the longest prefix of `s` whose characters satisfy `\w`. */
  function WordRun(s: string): (n: nat)
    ensures n <= |s| && (n < |s| ==> !IsWordChar(s[n]))
    ensures forall k :: 0 <= k < n ==> IsWordChar(s[k])
  {
    if s != [] && IsWordChar(s[0]) then 1 + WordRun(s[1..]) else 0
  }

  /** The run of word characters is the maximal one: it ends at the first other character. */
  lemma {:induction false} WordRunIs(s: string, n: nat)
    requires n <= |s| && (n < |s| ==> !IsWordChar(s[n]))
    requires forall k :: 0 <= k < n ==> IsWordChar(s[k])
    ensures WordRun(s) == n
  {
    if n > 0 {
      WordRunIs(s[1..], n - 1);
    }
  }

  /** Length of the longest prefix of `s` whose characters satisfy `\d`. */
  function DigitRun(s: string): (n: nat)
    ensures n <= |s| && (n < |s| ==> !IsDigit(s[n]))
    ensures forall k :: 0 <= k < n ==> IsDigit(s[k])
  {
    if s != [] && IsDigit(s[0]) then 1 + DigitRun(s[1..]) else 0
  }

  /**
   * The groups of `(\s-\s(\d+))*` matched greedily at the start of `s`: the
   * digits of the last repetition, or `last` when there is no repetition.
   */
  function OffsetGroup(s: string, last: Option<string>): (r: Option<string>)
    requires last.Some? ==> last.value != [] && AllDigits(last.value)
    ensures r.Some? ==> r.value != [] && AllDigits(r.value)
    decreases |s|
  {
    if |s| >= 4 && IsSpace(s[0]) && s[1] == '-' && IsSpace(s[2]) && IsDigit(s[3]) then
      var n := DigitRun(s[3..]);
      OffsetGroup(s[3 + n..], Some(s[3..3 + n]))
    else last
  }

  /**
   * `re.search(r"blockhash\w+(\s-\s(\d+))*", s)`: `None` when there is no
   * match; otherwise `Some(g)` with `g` the second group (`None` when the
   * repetition matched nothing). The leftmost "blockhash" followed by a word
   * character starts the match.
   */
  function BlockhashSearch(s: string): (r: Option<Option<string>>)
    ensures r.Some? && r.value.Some? ==> r.value.value != [] && AllDigits(r.value.value)
    decreases |s|
  {
    if |s| >= 10 && StartsWith(s, "blockhash") && IsWordChar(s[9]) then
      var n := WordRun(s[9..]);
      Some(OffsetGroup(s[9 + n..], None))
    else if s == [] then None
    else BlockhashSearch(s[1..])
  }

  lemma {:induction false} DigitRunIs(s: string, n: nat)
    requires n <= |s| && (n < |s| ==> !IsDigit(s[n]))
    requires forall k :: 0 <= k < n ==> IsDigit(s[k])
    ensures DigitRun(s) == n
  {
    if n > 0 {
      DigitRunIs(s[1..], n - 1);
    }
  }

  /** Whether `\s-\s\d` starts `s`, so that one more repetition of the group matches. */
  predicate OffsetAhead(s: string) {
    |s| >= 4 && IsSpace(s[0]) && s[1] == '-' && IsSpace(s[2]) && IsDigit(s[3])
  }

  /** One repetition of `\s-\s(\d+)` and nothing more: the group is that number. */
  lemma OneOffset(s: string, n: nat)
    requires OffsetAhead(s) && n == DigitRun(s[3..]) && !OffsetAhead(s[3 + n..])
    ensures OffsetGroup(s, None) == Some(s[3..3 + n])
  {
  }

  /** A match starting at the first character: the word run, then the offset groups. */
  lemma MatchHere(s: string)
    requires |s| >= 10 && s[..9] == "blockhash" && IsWordChar(s[9])
    ensures BlockhashSearch(s) == Some(OffsetGroup(s[9 + WordRun(s[9..])..], None))
  {
    assert StartsWith(s, "blockhash");
  }

  /** " - " and a number, when no further " - N" follows: the number is the group. */
  lemma DashNumber(d: string, rest: string)
    requires d != [] && AllDigits(d)
    requires rest != [] ==> !IsDigit(rest[0])
    requires !OffsetAhead(rest)
    ensures OffsetGroup(" - " + d + rest, None) == Some(d)
  {
    var u := " - " + d + rest;
    assert u[0] == ' ' && u[1] == '-' && u[2] == ' ' && u[3] == d[0];
    assert u[3..] == d + rest;
    DigitRunIs(d + rest, |d|);
    assert u[3..3 + |d|] == d && u[3 + |d|..] == rest;
    OneOffset(u, |d|);
  }

  /** "blockhash", a run of word characters and then another character: the groups are read from there. */
  lemma WordThenRest(w: string, tail: string)
    requires w != [] && forall k :: 0 <= k < |w| ==> IsWordChar(w[k])
    requires tail != [] && !IsWordChar(tail[0])
    ensures BlockhashSearch("blockhash" + (w + tail)) == Some(OffsetGroup(tail, None))
  {
    var t := w + tail;
    var s := "blockhash" + t;
    assert s[..9] == "blockhash" && s[9..] == t && |s| >= 10;
    assert t[|w|] == tail[0];
    WordRunIs(t, |w|);
    assert t[|w|..] == tail;
    MatchHere(s);
  }

  /**
   * An offset is extracted from "blockhash", a run of word characters, " - "
   * and a number, when no further " - N" follows: the group is that number.
   */
  lemma OffsetMatch(w: string, d: string, rest: string)
    requires w != [] && forall k :: 0 <= k < |w| ==> IsWordChar(w[k])
    requires d != [] && AllDigits(d)
    requires rest != [] ==> !IsDigit(rest[0])
    requires !OffsetAhead(rest)
    ensures BlockhashSearch("blockhash" + w + " - " + d + rest) == Some(Some(d))
  {
    var tail := " - " + d + rest;
    Regroup(w, tail, d, rest);
    WordThenRest(w, tail);
    DashNumber(d, rest);
  }

  lemma Regroup(w: string, tail: string, d: string, rest: string)
    requires tail == " - " + d + rest
    ensures "blockhash" + w + " - " + d + rest == "blockhash" + (w + tail)
    ensures tail != [] && tail[0] == ' '
  {
  }

  /** "blockhash" followed by a character other than `\w` starts no match; the search goes on after it. */
  lemma NoMatchAtParen(s: string)
    requires StartsWith(s, "blockhash") && |s| >= 10 && !IsWordChar(s[9])
    ensures BlockhashSearch(s) == BlockhashSearch(s[1..])
  {
  }

  /** The characters of `[a-z0-9_&^]`. */
  predicate IsIndexChar(c: char) {
    ('a' <= c <= 'z') || IsDigit(c) || c == '_' || c == '&' || c == '^'
  }

  function IndexRun(s: string): (n: nat)
    ensures n <= |s|
  {
    if s != [] && IsIndexChar(s[0]) then 1 + IndexRun(s[1..]) else 0
  }

  /** `re.search(r"storage_([a-z0-9_&^]+)", s).group(1)`, when there is a match. */
  function StorageSearch(s: string): (r: Option<string>)
    ensures r.Some? ==> r.value != []
    decreases |s|
  {
    if |s| >= 9 && StartsWith(s, "storage_") && IsIndexChar(s[8]) then
      Some(s[8..8 + IndexRun(s[8..])])
    else if s == [] then None
    else StorageSearch(s[1..])
  }

  // ----- the blockhash check -----

  /**
   * The description of a blockhash issue whose constraint mentions "number":
   * with an offset N, the expression `number - N`, and the zero note exactly
   * when N > 255; with no offset, the storage variable when "storage" is
   * mentioned, otherwise `block.number` itself with the zero note.
   */
  function BlockhashNote(group: Option<string>, text: string): (r: string)
    requires group.Some? ==> group.value != [] && AllDigits(group.value)
  {
    match group
    case Some(d) =>
      "The predictable expression 'block.blockhash(block.number - " + d
      + ")' is used to determine Ether recipient" + (if ParseDecimal(d) > 255 then ZeroNote else "")
    case None =>
      if Contains(text, "storage") then
        "The predictable expression 'block.blockhash(block.number - "
        + "some_storage_var)' is used to determine Ether recipient"
      else
        "The predictable expression 'block.blockhash(block.number)'"
        + " is used to determine Ether recipient" + ZeroNote
  }

  predicate EndsWith(s: string, suffix: string) {
    |suffix| <= |s| && s[|s| - |suffix|..] == suffix
  }

  /** The zero note is added exactly for an offset above 255, or for no offset and no storage variable. */
  lemma BlockhashNoteZero(group: Option<string>, text: string)
    requires group.Some? ==> group.value != [] && AllDigits(group.value)
    ensures EndsWith(BlockhashNote(group, text), ZeroNote) <==>
      match group
      case Some(d) => ParseDecimal(d) > 255
      case None => !Contains(text, "storage")
  {
    var r := BlockhashNote(group, text);
    match group
    case Some(d) =>
      if ParseDecimal(d) <= 255 {
        assert r[|r| - 1] == 't';
      }
    case None =>
      if Contains(text, "storage") {
        assert r[|r| - 1] == 't';
      }
  }

  const StorageNote :=
    "A block hash is calculated using the block.blockhash(uint blockNumber) method. "
    + "The block number is obtained from storage index "

  function BlockhashIssue(call: Call, tail: string): (r: Issue)
    ensures r.severity == Low && r.swcId == SwcData.WeakRandomness
    ensures r.title == BlockhashTitle && r.descriptionTail == tail
  {
    IssueAt(call.state, SwcData.WeakRandomness, BlockhashTitle, Low, BlockhashHead, tail, "")
  }

  /** The issue one text gives in the blockhash check, if any. */
  function BlockhashIssueFor(call: Call, text: string, solvable: bool): (r: Option<Issue>)
    ensures r.Some? ==> solvable && Contains(text, "blockhash")
    ensures r.Some? ==> r.value.severity == Low && r.value.swcId == SwcData.WeakRandomness
  {
    if !Contains(text, "blockhash") then None
    else if Contains(text, "number") then
      match BlockhashSearch(text)
      case None => None
      case Some(g) => if solvable then Some(BlockhashIssue(call, BlockhashNote(g, text))) else None
    else
      match StorageSearch(text)
      case None => None
      case Some(index) => if solvable then Some(BlockhashIssue(call, StorageNote + index)) else None
  }

  /** Without "number", a blockhash constraint gives an issue exactly when a `storage_` token matches. */
  lemma BlockhashWithoutNumber(call: Call, text: string, solvable: bool)
    requires Contains(text, "blockhash") && !Contains(text, "number")
    ensures BlockhashIssueFor(call, text, solvable).Some? <==> StorageSearch(text).Some? && solvable
    ensures StorageSearch(text).Some? && solvable ==>
      BlockhashIssueFor(call, text, solvable).value.descriptionTail == StorageNote + StorageSearch(text).value
  {
  }

  /** The blockhash check: the issue of the first text that gives one, then stop. */
  function BlockhashScan(call: Call, texts: seq<string>, solvable: bool): (r: seq<Issue>)
    ensures |r| <= 1
    ensures r != [] ==> solvable
    ensures (forall k :: 0 <= k < |texts| ==> BlockhashIssueFor(call, texts[k], solvable).None?) <==> r == []
  {
    if texts == [] then []
    else
      match BlockhashIssueFor(call, texts[0], solvable)
      case Some(issue) => [issue]
      case None =>
        var rest := BlockhashScan(call, texts[1..], solvable);
        assert forall k :: 1 <= k < |texts| ==> texts[k] == texts[1..][k - 1];
        rest
  }

  /** The scan skips any prefix of texts that give no issue. */
  lemma {:induction false} BlockhashScanSkips(call: Call, texts: seq<string>, solvable: bool, j: nat)
    requires j <= |texts|
    requires forall k :: 0 <= k < j ==> BlockhashIssueFor(call, texts[k], solvable).None?
    ensures BlockhashScan(call, texts, solvable) == BlockhashScan(call, texts[j..], solvable)
  {
    if j > 0 {
      assert texts[1..][j - 1..] == texts[j..];
      BlockhashScanSkips(call, texts[1..], solvable, j - 1);
    }
  }

  /** What `_analyze_states` returns for a call after the guards, given the node's constraints. */
  function Predictable(call: Call, cs: seq<Cond>, solvable: bool): seq<Issue>
  {
    if Contains(ShowWord(call.value), "callvalue") || GetVariable(call.value) == Concrete(0) then []
    else
      var texts := ScannedTexts(cs, call.to);
      FirstCheck(call, FoundVars(Tracked, texts), solvable) + BlockhashScan(call, texts, solvable)
  }

  /** A call gives at most two issues, and none unless the model query succeeds. */
  lemma PredictableBounds(call: Call, cs: seq<Cond>, solvable: bool)
    ensures |Predictable(call, cs, solvable)| <= 2
    ensures !solvable ==> Predictable(call, cs, solvable) == []
  {
  }

  /** With no tracked variable mentioned anywhere, only the blockhash check can report. */
  lemma NoTrackedVariable(call: Call, cs: seq<Cond>, solvable: bool)
    requires forall v :: v in Tracked ==> !Mentions(ScannedTexts(cs, call.to), v)
    ensures Predictable(call, cs, solvable) == [] ||
      Predictable(call, cs, solvable) == BlockhashScan(call, ScannedTexts(cs, call.to), solvable)
  {
    FoundNothing(ScannedTexts(cs, call.to));
  }

  /** The first check's scan: `found`, built by the nested loops over variables and texts. */
  method ScanVariables(vars: seq<string>, texts: seq<string>) returns (found: seq<string>)
    ensures found == FoundVars(vars, texts)
  {
    found := [];
    for i := 0 to |vars|
      invariant found == FoundVars(vars[..i], texts)
    {
      found := AppendOccurrences(found, vars[i], texts);
      assert vars[..i + 1][..i] == vars[..i];
    }
    assert vars[..|vars|] == vars;
  }

  /** The inner loop of the first check: `var` appended once per text that contains it. */
  method AppendOccurrences(found: seq<string>, v: string, texts: seq<string>) returns (r: seq<string>)
    ensures r == found + Occurrences(v, texts)
  {
    r := found;
    for j := 0 to |texts|
      invariant r == found + Occurrences(v, texts[..j])
    {
      assert texts[..j + 1][..j] == texts[..j];
      if Contains(texts[j], v) {
        r := r + [v];
      }
    }
    assert texts[..|texts|] == texts;
  }

  /** The description of the first check: the introduction, then one line per entry of `found`. */
  method DescribeVariables(found: seq<string>) returns (description: string)
    ensures description == Intro + VarLines(found)
  {
    description := Intro;
    for k := 0 to |found|
      invariant description == Intro + VarLines(found[..k])
    {
      assert found[..k + 1][..k] == found[..k];
      description := description + "- block." + found[k] + "\n";
    }
    assert found[..|found|] == found;
  }

  /** The blockhash check: the texts in order, stopping at the first that gives an issue. */
  method ScanBlockhash(c: Call, texts: seq<string>, solvable: bool) returns (issues: seq<Issue>)
    ensures issues == BlockhashScan(c, texts, solvable)
  {
    issues := [];
    for j := 0 to |texts|
      invariant issues == []
      invariant forall k :: 0 <= k < j ==> BlockhashIssueFor(c, texts[k], solvable).None?
    {
      var t := texts[j];
      var hit: Option<Issue> := None;
      if Contains(t, "blockhash") {
        if Contains(t, "number") {
          var m := BlockhashSearch(t);
          if m.Some? && solvable {
            hit := Some(BlockhashIssue(c, BlockhashNote(m.value, t)));
          }
        } else {
          var r := StorageSearch(t);
          if r.Some? && solvable {
            hit := Some(BlockhashIssue(c, StorageNote + r.value));
          }
        }
      }
      assert hit == BlockhashIssueFor(c, t, solvable);
      if hit.Some? {
        BlockhashScanSkips(c, texts, solvable, j);
        issues := [hit.value];
        return;
      }
    }
    BlockhashScanSkips(c, texts, solvable, |texts|);
  }

  /** `_analyze_states(state)`, with `get_call_from_state(state)` given as `call`. */
  method AnalyzeStates(call: Option<Call>, model: ModelOracle) returns (issues: seq<Issue>)
    ensures call.None? ==> issues == []
    ensures call.Some? && Contains(ShowWord(call.value.value), "callvalue") ==> issues == []
    ensures call.Some? && GetVariable(call.value.value) == Concrete(0) ==> issues == []
    ensures call.Some? ==>
      issues == Predictable(call.value, call.value.node().constraints.items, Solve(call.value, model))
  {
    if call.None? {
      return [];
    }
    var c := call.value;
    if Contains(ShowWord(c.value), "callvalue") {
      return [];
    }
    var value := GetVariable(c.value);
    if value == Concrete(0) {
      return [];
    }
    var texts := ScannedTexts(c.node().constraints.items, c.to);
    var solvable := Solve(c, model);

    var first := ReportVariables(c, texts, solvable);
    var second := ScanBlockhash(c, texts, solvable);
    issues := first + second;
  }

  /** The first check of `_analyze_states`: the scan, then the issue when something was found and the path is solvable. */
  method ReportVariables(c: Call, texts: seq<string>, solvable: bool) returns (issues: seq<Issue>)
    ensures issues == FirstCheck(c, FoundVars(Tracked, texts), solvable)
  {
    issues := [];
    var found := ScanVariables(Tracked, texts);
    if |found| > 0 {
      var description := DescribeVariables(found);
      if solvable {
        var swcId := if found[|found| - 1] == "timestamp" then SwcData.TimestampDependence else SwcData.WeakRandomness;
        description := description + PredictableNote;
        issues := issues + [IssueAt(c.state, swcId, VariableTitle, Low, VariableHead, description, "")];
      }
    }
  }

  class PredictableDependenceModule {
    const base: Base.DetectionModule

    constructor ()
      ensures fresh(base) && base.issues == []
      ensures base.swcId == SwcData.TimestampDependence + " " + SwcData.WeakRandomness
      ensures base.entrypoint == "callback" && base.preHooks == ["CALL", "CALLCODE", "DELEGATECALL", "STATICCALL"]
    {
      base := new Base.DetectionModule(
        "Dependence of Predictable Variables",
        SwcData.TimestampDependence + " " + SwcData.WeakRandomness,
        "Check for CALLs that send >0 Ether as a result of computation "
        + "based on predictable variables such as block.coinbase, "
        + "block.gaslimit, block.timestamp, block.number",
        "callback", Some(["CALL", "CALLCODE", "DELEGATECALL", "STATICCALL"]), None);
    }

    /** `execute`: the issues of this call are added to the module's list, which is returned. */
    method Execute(call: Option<Call>, model: ModelOracle) returns (r: seq<Issue>)
      modifies base
      ensures call.None? ==> base.issues == old(base.issues)
      ensures call.Some? ==>
        base.issues == old(base.issues) + Predictable(call.value, call.value.node().constraints.items, Solve(call.value, model))
      ensures r == base.issues
    {
      var found := AnalyzeStates(call, model);
      r := base.Extend(found);
    }
  }
}
