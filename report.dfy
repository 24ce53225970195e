/**
 * Issues and the report that collects them: issue construction (description,
 * gas bounds, bytecode hash), the dictionary form, code information, the
 * de-duplicating report, its sorted view and the SWC standard format.
 */
module Report {
  import opened Wrappers
  import opened Text
  import Natives

  type Byte = Natives.Byte

  datatype Severity = Low | Medium | High

  /**
   * `bytecode_hash`: "0x" followed by the keccak digest of the decoded bytecode,
   * or "" when the bytecode is not valid hex. The digest itself is a foreign
   * function and is kept as the bytes it is taken of.
   */
  datatype BytecodeHash = NoHash | KeccakOf(code: seq<Byte>)

  /** `source_mapping`: unset, the issue's address, or a solc source mapping. */
  datatype SourceMapping = Unmapped | AddressMapping(address: int) | SolcMapping(mapping: string)

  datatype Issue = Issue(
    title: string,
    contract: string,
    functionName: string,
    address: int,
    descriptionHead: string,
    descriptionTail: string,
    description: string,
    severity: Severity,
    debug: string,
    swcId: string,
    minGasUsed: nat,
    maxGasUsed: nat,
    filename: Option<string>,
    code: Option<string>,
    lineno: Option<int>,
    sourceMapping: SourceMapping,
    bytecodeHash: BytecodeHash)

  function HexValue(c: char): (d: nat)
    requires IsHexDigit(c)
    ensures d < 16
  {
    if '0' <= c <= '9' then (c as int - '0' as int) as nat
    else if 'a' <= c <= 'f' then (c as int - 'a' as int + 10) as nat
    else (c as int - 'A' as int + 10) as nat
  }

  /**
   * Python's `bytes.fromhex(s)`: pairs of hex digits, with ASCII whitespace
   * allowed before each pair and at the end; anything else is a `ValueError`
   * (here `None`).
   */
  function FromHex(s: string): Option<seq<Byte>>
    decreases |s|
  {
    if s == [] then Some([])
    else if IsSpace(s[0]) then FromHex(s[1..])
    else if |s| >= 2 && IsHexDigit(s[0]) && IsHexDigit(s[1]) then
      match FromHex(s[2..])
      case None => None
      case Some(rest) => Some([(HexValue(s[0]) * 16 + HexValue(s[1])) as Byte] + rest)
    else None
  }

  /** Two lower-case hex digits per byte (Python's `bytes.hex()`). */
  function ToHex(b: seq<Byte>): (s: string)
    ensures |s| == 2 * |b|
    ensures forall k :: 0 <= k < |s| ==> IsHexDigit(s[k])
  {
    if b == [] then "" else [HexDigitChar(b[0] / 16), HexDigitChar(b[0] % 16)] + ToHex(b[1..])
  }

  lemma HexDigitRoundTrip(d: nat)
    requires d < 16
    ensures IsHexDigit(HexDigitChar(d)) && HexValue(HexDigitChar(d)) == d
  {
  }

  /** The two digits of a byte read back as the byte. */
  lemma ByteDigits(x: Byte)
    ensures var hi, lo := HexDigitChar(x / 16), HexDigitChar(x % 16);
      IsHexDigit(hi) && IsHexDigit(lo) && !IsSpace(hi) && HexValue(hi) * 16 + HexValue(lo) == x
  {
    HexDigitRoundTrip(x / 16);
    HexDigitRoundTrip(x % 16);
  }

  /** A leading pair of hex digits decodes to one byte before the rest. */
  lemma FromHexPair(hi: char, lo: char, rest: string)
    requires IsHexDigit(hi) && IsHexDigit(lo) && !IsSpace(hi)
    ensures FromHex([hi, lo] + rest) ==
      match FromHex(rest)
      case None => None
      case Some(r) => Some([(HexValue(hi) * 16 + HexValue(lo)) as Byte] + r)
  {
    var s := [hi, lo] + rest;
    assert s[0] == hi && s[1] == lo && s[2..] == rest;
  }

  /** Decoding the hex text of a byte string gives the byte string back. */
  lemma {:induction false} FromHexToHex(b: seq<Byte>)
    ensures FromHex(ToHex(b)) == Some(b)
  {
    if b != [] {
      var hi, lo := HexDigitChar(b[0] / 16), HexDigitChar(b[0] % 16);
      assert ToHex(b) == [hi, lo] + ToHex(b[1..]);
      ByteDigits(b[0]);
      FromHexToHex(b[1..]);
      FromHexPair(hi, lo, ToHex(b[1..]));
      assert b == [b[0]] + b[1..];
    }
  }

  /** The bytecode hash `Issue` computes: a leading "0x" is stripped before decoding. */
  function BytecodeHashOf(bytecode: string): BytecodeHash {
    var hex := if |bytecode| >= 2 && bytecode[..2] == "0x" then bytecode[2..] else bytecode;
    match FromHex(hex)
    case None => NoHash
    case Some(b) => KeccakOf(b)
  }

  /** With the "0x" prefix, the hash is that of the decoded bytes. */
  lemma BytecodeHashOfPrefixed(b: seq<Byte>)
    ensures BytecodeHashOf("0x" + ToHex(b)) == KeccakOf(b)
  {
    var s := ToHex(b);
    FromHexToHex(b);
    assert ("0x" + s)[..2] == "0x";
    assert ("0x" + s)[2..] == s;
  }

  /** Without the prefix, the hash is the same. */
  lemma BytecodeHashOfBare(b: seq<Byte>)
    ensures BytecodeHashOf(ToHex(b)) == KeccakOf(b)
  {
    var s := ToHex(b);
    FromHexToHex(b);
    if |s| >= 2 {
      assert IsHexDigit(s[1]);
      assert s[..2] != "0x" by { assert s[..2][1] == s[1]; }
    }
  }

  /** Text holding a character that is neither a hex digit nor whitespace does not decode. */
  lemma {:induction false} FromHexRejects(s: string, k: nat)
    requires k < |s| && !IsHexDigit(s[k]) && !IsSpace(s[k])
    ensures FromHex(s) == None
    decreases |s|
  {
    if IsSpace(s[0]) {
      FromHexRejects(s[1..], k - 1);
    } else if |s| >= 2 && IsHexDigit(s[0]) && IsHexDigit(s[1]) {
      FromHexRejects(s[2..], k - 2);
    }
  }

  /**
   * Bytecode holding, after the optional "0x", a character that is neither a
   * hex digit nor whitespace has no hash.
   */
  lemma BytecodeHashOfInvalid(bytecode: string, k: nat)
    requires k < |bytecode| && !IsHexDigit(bytecode[k]) && !IsSpace(bytecode[k])
    requires |bytecode| >= 2 && bytecode[..2] == "0x" ==> k >= 2
    ensures BytecodeHashOf(bytecode) == NoHash
  {
    if |bytecode| >= 2 && bytecode[..2] == "0x" {
      FromHexRejects(bytecode[2..], k - 2);
    } else {
      FromHexRejects(bytecode, k);
    }
  }

  /**
   * `Issue(...)`: the description is head, newline, tail; the gas pair is split
   * into its two bounds; the code information is not yet set; the bytecode is
   * hashed as `BytecodeHashOf` says.
   */
  function NewIssue(contract: string, functionName: string, address: int, swcId: string,
                    title: string, bytecode: string, gasUsed: (nat, nat), severity: Severity,
                    descriptionHead: string, descriptionTail: string, debug: string): (r: Issue)
    ensures r.description == descriptionHead + "\n" + descriptionTail
    ensures r.minGasUsed == gasUsed.0 && r.maxGasUsed == gasUsed.1
    ensures r.filename.None? && r.code.None? && r.lineno.None? && r.sourceMapping.Unmapped?
    ensures r.contract == contract && r.functionName == functionName && r.address == address
    ensures r.swcId == swcId && r.title == title && r.severity == severity && r.debug == debug
    ensures r.descriptionHead == descriptionHead && r.descriptionTail == descriptionTail
    ensures r.bytecodeHash == BytecodeHashOf(bytecode)
  {
    Issue(title, contract, functionName, address, descriptionHead, descriptionTail,
          descriptionHead + "\n" + descriptionTail, severity, debug, swcId,
          gasUsed.0, gasUsed.1, None, None, None, Unmapped, BytecodeHashOf(bytecode))
  }

  /** The dictionary `as_dict` builds; the optional keys are `location` and `code`. */
  datatype IssueDict = IssueDict(
    title: string,
    swcId: string,
    contract: string,
    description: string,
    functionName: string,
    severity: Severity,
    address: int,
    debug: string,
    minGasUsed: nat,
    maxGasUsed: nat,
    sourceMap: SourceMapping,
    location: Option<(string, int)>,   // "filename" and "lineno"
    code: Option<string>)

  predicate TruthyText(s: Option<string>) {
    s.Some? && s.value != ""
  }

  predicate TruthyNumber(n: Option<int>) {
    n.Some? && n.value != 0
  }

  /** `as_dict`: filename and line number only when both are truthy, code only when truthy. */
  function AsDict(issue: Issue): (d: IssueDict)
    ensures d.location.Some? <==> TruthyText(issue.filename) && TruthyNumber(issue.lineno)
    ensures d.location.Some? ==> d.location.value == (issue.filename.value, issue.lineno.value)
    ensures d.code.Some? <==> TruthyText(issue.code)
    ensures d.code.Some? ==> d.code.value == issue.code.value
    ensures d.title == issue.title && d.address == issue.address && d.description == issue.description
    ensures d.swcId == issue.swcId && d.contract == issue.contract && d.functionName == issue.functionName
    ensures d.severity == issue.severity && d.debug == issue.debug && d.sourceMap == issue.sourceMapping
    ensures d.minGasUsed == issue.minGasUsed && d.maxGasUsed == issue.maxGasUsed
  {
    IssueDict(
      issue.title, issue.swcId, issue.contract, issue.description, issue.functionName,
      issue.severity, issue.address, issue.debug, issue.minGasUsed, issue.maxGasUsed,
      issue.sourceMapping,
      if TruthyText(issue.filename) && TruthyNumber(issue.lineno)
      then Some((issue.filename.value, issue.lineno.value)) else None,
      if TruthyText(issue.code) then Some(issue.code.value) else None)
  }

  /** What the Solidity source lookup answers for an address. */
  datatype SourceCodeInfo = SourceCodeInfo(filename: string, lineno: int, code: string, solcMapping: string)

  /**
   * The contract an issue is reported against: a Solidity contract with its
   * source lookup `get_source_info(address, constructor)`, or any other contract.
   */
  datatype ContractInfo = SolidityContract(getSourceInfo: (int, bool) -> SourceCodeInfo) | OtherContract

  /**
   * `add_code_info`: for a non-zero address in a Solidity contract, the file,
   * code, line and solc mapping of that address (looked up as constructor code
   * when the function is "constructor"); otherwise the address itself becomes
   * the source mapping and nothing else changes.
   */
  function AddCodeInfo(issue: Issue, contract: ContractInfo): (r: Issue)
    ensures !(issue.address != 0 && contract.SolidityContract?) ==>
      r == issue.(sourceMapping := AddressMapping(issue.address))
    ensures issue.address != 0 && contract.SolidityContract? ==>
      var info := contract.getSourceInfo(issue.address, issue.functionName == "constructor");
      r == issue.(filename := Some(info.filename), code := Some(info.code),
                  lineno := Some(info.lineno), sourceMapping := SolcMapping(info.solcMapping))
  {
    if issue.address != 0 && contract.SolidityContract? then
      var info := contract.getSourceInfo(issue.address, issue.functionName == "constructor");
      issue.(filename := Some(info.filename), code := Some(info.code),
             lineno := Some(info.lineno), sourceMapping := SolcMapping(info.solcMapping))
    else
      issue.(sourceMapping := AddressMapping(issue.address))
  }

  /** The sort key of `sorted_issues`: address, then title. */
  predicate LocationLe(a: IssueDict, b: IssueDict) {
    a.address < b.address || (a.address == b.address && LexLe(a.title, b.title))
  }

  predicate SortedByLocation(s: seq<IssueDict>) {
    forall k :: 0 <= k < |s| - 1 ==> LocationLe(s[k], s[k + 1])
  }

  function Insert(x: IssueDict, s: seq<IssueDict>): seq<IssueDict> {
    if s == [] then [x]
    else if LocationLe(x, s[0]) then [x] + s
    else [s[0]] + Insert(x, s[1..])
  }

  /** Python's `sorted` by (address, title), as an insertion sort that keeps equal keys in order. */
  function SortByLocation(s: seq<IssueDict>): seq<IssueDict> {
    if s == [] then [] else Insert(s[0], SortByLocation(s[1..]))
  }

  lemma {:induction false} InsertKeepsOrder(x: IssueDict, s: seq<IssueDict>)
    requires SortedByLocation(s)
    ensures SortedByLocation(Insert(x, s))
    ensures |Insert(x, s)| == |s| + 1
    ensures s != [] ==> Insert(x, s)[0] == x || Insert(x, s)[0] == s[0]
  {
    if s != [] && !LocationLe(x, s[0]) {
      LexLeTotal(x.title, s[0].title);
      InsertKeepsOrder(x, s[1..]);
    }
  }

  lemma {:induction false} InsertAddsOne(x: IssueDict, s: seq<IssueDict>)
    ensures multiset(Insert(x, s)) == multiset(s) + multiset{x}
  {
    if s != [] && !LocationLe(x, s[0]) {
      InsertAddsOne(x, s[1..]);
      assert s == [s[0]] + s[1..];
    }
  }

  /** The sorted view is ordered by (address, title) and is a permutation of its input. */
  lemma {:induction false} SortByLocationCorrect(s: seq<IssueDict>)
    ensures SortedByLocation(SortByLocation(s))
    ensures multiset(SortByLocation(s)) == multiset(s)
  {
    if s != [] {
      SortByLocationCorrect(s[1..]);
      InsertKeepsOrder(s[0], SortByLocation(s[1..]));
      InsertAddsOne(s[0], SortByLocation(s[1..]));
      assert s == [s[0]] + s[1..];
    }
  }

  /** The entries with the given address and title, in their order. */
  function SameLocation(s: seq<IssueDict>, address: int, title: string): seq<IssueDict> {
    if s == [] then []
    else (if s[0].address == address && s[0].title == title then [s[0]] else [])
         + SameLocation(s[1..], address, title)
  }

  /** Inserting an entry puts it first among the entries of its location and leaves other locations alone. */
  lemma {:induction false} InsertSameLocation(x: IssueDict, s: seq<IssueDict>, address: int, title: string)
    ensures SameLocation(Insert(x, s), address, title) ==
      (if x.address == address && x.title == title then [x] else []) + SameLocation(s, address, title)
  {
    if s != [] {
      if LocationLe(x, s[0]) {
        SameLocationCons(x, s, address, title);
      } else {
        if s[0].address == x.address && s[0].title == x.title {
          LexLeReflexive(x.title);
        }
        InsertSameLocation(x, s[1..], address, title);
        SameLocationCons(s[0], Insert(x, s[1..]), address, title);
      }
    }
  }

  lemma SameLocationCons(y: IssueDict, s: seq<IssueDict>, address: int, title: string)
    ensures SameLocation([y] + s, address, title) ==
      (if y.address == address && y.title == title then [y] else []) + SameLocation(s, address, title)
  {
    assert ([y] + s)[0] == y && ([y] + s)[1..] == s;
  }

  /**
   * The sort is stable, as Python's `sorted` is: the entries of one
   * (address, title) keep their relative order.
   */
  lemma {:induction false} SortByLocationStable(s: seq<IssueDict>, address: int, title: string)
    ensures SameLocation(SortByLocation(s), address, title) == SameLocation(s, address, title)
  {
    if s != [] {
      SortByLocationStable(s[1..], address, title);
      InsertSameLocation(s[0], SortByLocation(s[1..]), address, title);
    }
  }

  function AsDicts(issues: seq<Issue>): (r: seq<IssueDict>)
    ensures |r| == |issues| && forall k :: 0 <= k < |issues| ==> r[k] == AsDict(issues[k])
  {
    seq(|issues|, k requires 0 <= k < |issues| => AsDict(issues[k]))
  }

  /** `source_list` of the SWC format: each hash once, in first-seen order. */
  function FirstSeen(hashes: seq<BytecodeHash>): (r: seq<BytecodeHash>)
    ensures forall h :: h in r <==> h in hashes
    ensures forall i, j :: 0 <= i < j < |r| ==> r[i] != r[j]
  {
    if hashes == [] then []
    else
      var d := FirstSeen(hashes[..|hashes| - 1]);
      var last := hashes[|hashes| - 1];
      assert forall h :: h in hashes <==> h in hashes[..|hashes| - 1] || h == last;
      if last in d then d else d + [last]
  }

  /** Python's `list.index`: the position of the first occurrence. */
  function IndexOf(s: seq<BytecodeHash>, h: BytecodeHash): (i: nat)
    requires h in s
    ensures i < |s| && s[i] == h && forall k :: 0 <= k < i ==> s[k] != h
  {
    if s[0] == h then 0 else 1 + IndexOf(s[1..], h)
  }

  lemma {:induction false} IndexOfExtended(s: seq<BytecodeHash>, more: seq<BytecodeHash>, h: BytecodeHash)
    requires h in s
    ensures h in s + more && IndexOf(s + more, h) == IndexOf(s, h)
  {
    if s[0] != h {
      assert (s + more)[1..] == s[1..] + more;
      IndexOfExtended(s[1..], more, h);
    }
  }

  lemma {:induction false} FirstSeenPrefix(hashes: seq<BytecodeHash>, k: nat)
    requires k <= |hashes|
    ensures exists more :: FirstSeen(hashes) == FirstSeen(hashes[..k]) + more
    decreases |hashes| - k
  {
    if k == |hashes| {
      assert hashes[..k] == hashes;
      assert FirstSeen(hashes) == FirstSeen(hashes[..k]) + [];
    } else {
      FirstSeenPrefix(hashes, k + 1);
      var more :| FirstSeen(hashes) == FirstSeen(hashes[..k + 1]) + more;
      assert hashes[..k + 1][..k] == hashes[..k];
      var d := FirstSeen(hashes[..k]);
      if hashes[k] in d {
        assert FirstSeen(hashes) == d + more;
      } else {
        assert FirstSeen(hashes) == d + ([hashes[k]] + more);
      }
    }
  }

  /** One entry of the `issues` list of the SWC standard format. */
  datatype SwcIssue = SwcIssue(
    swcID: string,
    swcTitle: string,
    head: string,
    tail: string,
    severity: Severity,
    sourceMap: string)

  datatype SwcReport = SwcReport(
    issues: seq<SwcIssue>,
    sourceType: string,
    sourceFormat: string,
    sourceList: seq<BytecodeHash>)

  /** The title registered for an SWC id, or "Unspecified Security Issue" for an unknown id. */
  function SwcTitle(swcTitles: map<string, string>, swcId: string): string {
    if swcId in swcTitles then swcTitles[swcId] else "Unspecified Security Issue"
  }

  function Hashes(issues: seq<Issue>): (r: seq<BytecodeHash>)
    ensures |r| == |issues| && forall k :: 0 <= k < |issues| ==> r[k] == issues[k].bytecodeHash
  {
    seq(|issues|, k requires 0 <= k < |issues| => issues[k].bytecodeHash)
  }

  /** The SWC entry for an issue whose bytecode hash sits at `idx` of the source list. */
  function SwcEntry(issue: Issue, swcTitles: map<string, string>, idx: nat): SwcIssue {
    SwcIssue("SWC-" + issue.swcId, SwcTitle(swcTitles, issue.swcId), issue.descriptionHead,
             issue.descriptionTail, issue.severity,
             IntToString(issue.address) + ":1:" + NatToString(idx))
  }

  /** The first `|entries|` issues each have their SWC entry, indexed into `sourceList`. */
  ghost predicate EntriesFor(values: seq<Issue>, entries: seq<SwcIssue>, sourceList: seq<BytecodeHash>,
                             swcTitles: map<string, string>)
  {
    |entries| <= |values| &&
    forall j :: 0 <= j < |entries| ==>
      values[j].bytecodeHash in sourceList &&
      entries[j] == SwcEntry(values[j], swcTitles, IndexOf(sourceList, values[j].bytecodeHash))
  }

  lemma EntriesForExtend(values: seq<Issue>, entries: seq<SwcIssue>, sourceList: seq<BytecodeHash>,
                         h: BytecodeHash, swcTitles: map<string, string>)
    requires EntriesFor(values, entries, sourceList, swcTitles)
    ensures EntriesFor(values, entries, sourceList + [h], swcTitles)
  {
    forall j | 0 <= j < |entries|
      ensures values[j].bytecodeHash in sourceList + [h]
      ensures IndexOf(sourceList + [h], values[j].bytecodeHash) == IndexOf(sourceList, values[j].bytecodeHash)
    {
      IndexOfExtended(sourceList, [h], values[j].bytecodeHash);
    }
  }

  lemma EntriesForAppend(values: seq<Issue>, entries: seq<SwcIssue>, sourceList: seq<BytecodeHash>,
                         swcTitles: map<string, string>, idx: nat)
    requires EntriesFor(values, entries, sourceList, swcTitles)
    requires |entries| < |values|
    requires values[|entries|].bytecodeHash in sourceList
    requires idx == IndexOf(sourceList, values[|entries|].bytecodeHash)
    ensures EntriesFor(values, entries + [SwcEntry(values[|entries|], swcTitles, idx)], sourceList, swcTitles)
  {
  }

  class Report {
    /** The keys of the `issues` dictionary, in insertion order. */
    var order: seq<string>
    /** `issues`: the dictionary from an issue's key to the issue. */
    var issues: map<string, Issue>
    const verbose: bool

    ghost predicate Valid()
      reads this
    {
      && (forall i, j :: 0 <= i < j < |order| ==> order[i] != order[j])
      && (forall k :: k in issues <==> k in order)
    }

    constructor (verbose: bool)
      ensures Valid() && order == [] && issues == map[] && this.verbose == verbose
    {
      order := [];
      issues := map[];
      this.verbose := verbose;
    }

    /** The key `append_issue` files an issue under (its md5 digest is taken as the key itself). */
    static function IssueKey(issue: Issue): string {
      issue.contract + IntToString(issue.address) + issue.title
    }

    /** The stored issues, in dictionary order. */
    function Values(): (r: seq<Issue>)
      reads this
      requires Valid()
      ensures |r| == |order| && forall k :: 0 <= k < |order| ==> r[k] == issues[order[k]]
    {
      seq(|order|, k requires 0 <= k < |order| && order[k] in issues reads this => issues[order[k]])
    }

    /**
     * `append_issue`: the issue replaces any earlier issue with the same key
     * (keeping that key's place in the order); every other entry is unchanged.
     */
    method AppendIssue(issue: Issue)
      requires Valid()
      modifies this
      ensures Valid()
      ensures issues == old(issues)[IssueKey(issue) := issue]
      ensures order == if IssueKey(issue) in old(issues) then old(order) else old(order) + [IssueKey(issue)]
      ensures forall k :: k in old(issues) && k != IssueKey(issue) ==> issues[k] == old(issues)[k]
    {
      var key := IssueKey(issue);
      if key !in issues {
        order := order + [key];
      }
      issues := issues[key := issue];
    }

    /** `sorted_issues`: the dictionaries of all stored issues, ordered by (address, title). */
    method SortedIssues() returns (r: seq<IssueDict>)
      requires Valid()
      ensures SortedByLocation(r)
      ensures multiset(r) == multiset(AsDicts(Values()))
      ensures |r| == |issues|
      ensures r == SortByLocation(AsDicts(Values()))
    {
      r := SortByLocation(AsDicts(Values()));
      SortByLocationCorrect(AsDicts(Values()));
      assert |r| == |multiset(r)|;
      assert |AsDicts(Values())| == |multiset(AsDicts(Values()))|;
      assert |issues| == |order| by { KeysCount(); }
    }

    lemma KeysCount()
      requires Valid()
      ensures |issues| == |order|
    {
      var keys := set k | k in order;
      assert issues.Keys == keys;
      DistinctCount(order);
    }

    static lemma {:induction false} DistinctCount(s: seq<string>)
      requires forall i, j :: 0 <= i < j < |s| ==> s[i] != s[j]
      ensures |set k | k in s| == |s|
    {
      if s != [] {
        DistinctCount(s[1..]);
        var rest := set k | k in s[1..];
        assert (set k | k in s) == rest + {s[0]};
        assert s[0] !in rest;
      }
    }

    /**
     * `as_swc_standard_format`: one entry per stored issue, in dictionary order,
     * whose source map is "address:1:idx" with idx the position of the issue's
     * bytecode hash in `sourceList`; `sourceList` holds each hash once, in
     * first-seen order.
     */
    method AsSwcStandardFormat(swcTitles: map<string, string>) returns (out: SwcReport)
      requires Valid()
      ensures out.sourceList == FirstSeen(Hashes(Values()))
      ensures |out.issues| == |order|
      ensures forall k :: 0 <= k < |order| ==>
        var issue := issues[order[k]];
        issue.bytecodeHash in out.sourceList &&
        out.issues[k] == SwcEntry(issue, swcTitles, IndexOf(out.sourceList, issue.bytecodeHash))
      ensures out.sourceType == "raw-bytecode" && out.sourceFormat == "evm-byzantium-bytecode"
    {
      var values := Values();
      var hashes := Hashes(values);
      var entries: seq<SwcIssue> := [];
      var sourceList: seq<BytecodeHash> := [];
      for k := 0 to |values|
        invariant sourceList == FirstSeen(hashes[..k])
        invariant |entries| == k
        invariant EntriesFor(values, entries, sourceList, swcTitles)
      {
        var issue := values[k];
        var idx: nat;
        assert hashes[..k + 1][..k] == hashes[..k];
        if issue.bytecodeHash !in sourceList {
          idx := |sourceList|;
          EntriesForExtend(values, entries, sourceList, issue.bytecodeHash, swcTitles);
          sourceList := sourceList + [issue.bytecodeHash];
        } else {
          idx := IndexOf(sourceList, issue.bytecodeHash);
        }
        EntriesForAppend(values, entries, sourceList, swcTitles, idx);
        entries := entries + [SwcEntry(issue, swcTitles, idx)];
      }
      assert hashes[..|values|] == hashes;
      out := SwcReport(entries, "raw-bytecode", "evm-byzantium-bytecode", sourceList);
    }

    /** `_file_name`: the file name of the first stored issue; `None` when there is none. */
    function FileName(): (r: Option<string>)
      reads this
      requires Valid()
      ensures |order| == 0 ==> r == None
      ensures |order| > 0 ==> r == Values()[0].filename
    {
      if |order| > 0 then issues[order[0]].filename else None
    }
  }
}
