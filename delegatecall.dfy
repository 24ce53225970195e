/**
 * The delegatecall-proxy detector: a DELEGATECALL in the fallback function
 * whose input, read from a concrete memory offset, is the received calldata
 * is reported as a proxy, with the call's target in the description.
 */
module Delegatecall {
  import opened Wrappers
  import opened Text
  import opened Smt
  import opened Report
  import opened EvmState
  import SwcData
  import Base

  const Calldata := "calldata"
  const Bracket := "[0"

  /**
   * The pattern `calldata.*\[0` matches from offset i: "calldata" at i, "[0"
   * at j, and no newline between them (`.` does not match a newline).
   */
  predicate MatchAt(s: string, i: nat, j: nat) {
    i + |Calldata| <= j && j + |Bracket| <= |s|
    && s[i..i + |Calldata|] == Calldata && s[j..j + |Bracket|] == Bracket
    && '\n' !in s[i + |Calldata|..j]
  }

  /** After a "calldata" already seen: "[0" at j with no newline before it. */
  predicate ArmedAt(s: string, j: nat) {
    j + |Bracket| <= |s| && s[j..j + |Bracket|] == Bracket && '\n' !in s[..j]
  }

  /**
   * The scanner: `armed` says a "calldata" has been seen on the current line.
   * "[0" while armed is a match; "calldata" arms it and is skipped; a newline
   * disarms it.
   */
  predicate Scan(s: string, armed: bool)
    decreases |s|
  {
    if s == [] then false
    else if armed && StartsWith(s, Bracket) then true
    else if StartsWith(s, Calldata) then Scan(s[|Calldata|..], true)
    else Scan(s[1..], armed && s[0] != '\n')
  }

  /** `re.search(r"calldata.*\[0", s)` finds a match. */
  predicate Search(s: string) {
    Scan(s, false)
  }

  /** "calldata" starts with no other "calldata" and holds no '['. */
  lemma CalldataShape(s: string, i: nat)
    requires |Calldata| <= |s| && s[..|Calldata|] == Calldata
    requires 0 < i < |Calldata|
    ensures s[i] != '[' && s[i] != 'c' && s[i] != '\n'
  {
    assert s[i] == Calldata[i];
  }

  /** A match in a suffix is a match in the whole text, shifted by the suffix's offset. */
  lemma LiftMatch(s: string, n: nat, i: nat, j: nat)
    requires n <= |s| && MatchAt(s[n..], i, j)
    ensures MatchAt(s, i + n, j + n)
  {
    var t := s[n..];
    assert s[i + n..i + n + 8] == t[i..i + 8];
    assert s[j + n..j + n + 2] == t[j..j + 2];
    assert s[i + n + 8..j + n] == t[i + 8..j];
  }

  /** An armed "[0" in a suffix is one in the whole text when the skipped prefix has no newline. */
  lemma LiftArmed(s: string, n: nat, j: nat)
    requires n <= |s| && '\n' !in s[..n] && ArmedAt(s[n..], j)
    ensures ArmedAt(s, j + n)
  {
    var t := s[n..];
    assert s[j + n..j + n + 2] == t[j..j + 2];
    assert s[..j + n] == s[..n] + t[..j];
  }

  /** Text that does not start with "[0" has an armed "[0" only further on, past a first non-newline. */
  lemma DropArmed(s: string, j: nat)
    requires !StartsWith(s, Bracket) && ArmedAt(s, j)
    ensures 0 < j && s[0] != '\n' && ArmedAt(s[1..], j - 1)
  {
    assert j != 0;
    assert s[0] == s[..j][0];
    var t := s[1..];
    assert s[j..j + 2] == t[j - 1..j + 1];
    assert t[..j - 1] == s[..j][1..];
  }

  /** Text that does not start with "calldata" has a match only further on. */
  lemma DropMatch(s: string, i: nat, j: nat)
    requires !StartsWith(s, Calldata) && MatchAt(s, i, j)
    ensures 0 < i && MatchAt(s[1..], i - 1, j - 1)
  {
    assert i != 0 && i + 8 <= j;
    var t := s[1..];
    assert s[i..i + 8] == t[i - 1..i + 7];
    assert s[j..j + 2] == t[j - 1..j + 1];
    var between, shifted := s[i + 8..j], t[i + 7..j - 1];
    assert |between| == |shifted|;
    forall m | 0 <= m < |between| ensures shifted[m] == between[m] {
      assert shifted[m] == t[i + 7 + m] == s[i + 8 + m];
    }
    assert shifted == between;
  }

  /** What the pattern finds in text (armed or not). */
  ghost predicate Found(s: string, armed: bool) {
    (armed && exists j: nat :: ArmedAt(s, j)) || exists i: nat, j: nat :: MatchAt(s, i, j)
  }

  /** Past a leading "calldata" (and no armed "[0" at the start), the text finds what the rest finds armed. */
  lemma FoundAfterCalldata(s: string, armed: bool)
    requires StartsWith(s, Calldata) && !(armed && StartsWith(s, Bracket))
    ensures Found(s, armed) <==> Found(s[|Calldata|..], true)
  {
    var t := s[|Calldata|..];
    if exists j: nat :: ArmedAt(t, j) {
      var j: nat :| ArmedAt(t, j);
      assert s[8..j + 8] == t[..j] && s[j + 8..j + 10] == t[j..j + 2];
      assert MatchAt(s, 0, j + 8);
    }
    if exists i: nat, j: nat :: MatchAt(t, i, j) {
      var i: nat, j: nat :| MatchAt(t, i, j);
      LiftMatch(s, 8, i, j);
    }
    if armed && exists j: nat :: ArmedAt(s, j) {
      var j: nat :| ArmedAt(s, j);
      SkipCalldataArmed(s, j);
    }
    if exists i: nat, j: nat :: MatchAt(s, i, j) {
      var i: nat, j: nat :| MatchAt(s, i, j);
      SkipCalldataMatch(s, i, j);
    }
  }

  /** Otherwise the text finds what its tail finds, armed only if the first character is not a newline. */
  lemma FoundAfterOne(s: string, armed: bool)
    requires s != [] && !StartsWith(s, Calldata) && !(armed && StartsWith(s, Bracket))
    ensures Found(s, armed) <==> Found(s[1..], armed && s[0] != '\n')
  {
    var t := s[1..];
    if armed && s[0] != '\n' && exists j: nat :: ArmedAt(t, j) {
      var j: nat :| ArmedAt(t, j);
      assert s[..1] == [s[0]];
      LiftArmed(s, 1, j);
    }
    if exists i: nat, j: nat :: MatchAt(t, i, j) {
      var i: nat, j: nat :| MatchAt(t, i, j);
      LiftMatch(s, 1, i, j);
    }
    if armed && exists j: nat :: ArmedAt(s, j) {
      var j: nat :| ArmedAt(s, j);
      DropArmed(s, j);
    }
    if exists i: nat, j: nat :: MatchAt(s, i, j) {
      var i: nat, j: nat :| MatchAt(s, i, j);
      DropMatch(s, i, j);
    }
  }

  /** The scanner finds a match exactly when the pattern matches somewhere (or, armed, "[0" follows on the line). */
  lemma {:induction false} ScanMeaning(s: string, armed: bool)
    ensures Scan(s, armed) <==> Found(s, armed)
    decreases |s|
  {
    if s == [] {
    } else if armed && StartsWith(s, Bracket) {
      assert ArmedAt(s, 0);
    } else if StartsWith(s, Calldata) {
      ScanMeaning(s[|Calldata|..], true);
      FoundAfterCalldata(s, armed);
    } else {
      ScanMeaning(s[1..], armed && s[0] != '\n');
      FoundAfterOne(s, armed);
    }
  }

  /** An armed "[0" cannot lie inside a leading "calldata", so it lies after it. */
  lemma SkipCalldataArmed(s: string, j: nat)
    requires StartsWith(s, Calldata) && ArmedAt(s, j) && !StartsWith(s, Bracket)
    ensures j >= |Calldata| && ArmedAt(s[|Calldata|..], j - |Calldata|)
  {
    if j < 8 {
      assert j != 0;
      assert s[j] == s[j..j + 2][0];
      CalldataShape(s, j);
      assert false;
    }
    var t := s[8..];
    assert t[j - 8..j - 6] == s[j..j + 2];
    assert t[..j - 8] == s[..j][8..];
  }

  /** A match of the pattern starts either at a leading "calldata" or after it. */
  lemma SkipCalldataMatch(s: string, i: nat, j: nat)
    requires StartsWith(s, Calldata) && MatchAt(s, i, j)
    ensures j >= |Calldata|
    ensures i == 0 ==> ArmedAt(s[|Calldata|..], j - |Calldata|)
    ensures i != 0 ==> i >= |Calldata| && MatchAt(s[|Calldata|..], i - |Calldata|, j - |Calldata|)
  {
    var t := s[8..];
    if 0 < i < 8 {
      assert s[i] == s[i..i + 8][0];
      CalldataShape(s, i);
      assert false;
    }
    assert t[j - 8..j - 6] == s[j..j + 2];
    if i == 0 {
      assert t[..j - 8] == s[8..j];
    } else {
      assert t[i - 8..i] == s[i..i + 8];
      assert t[i..j - 8] == s[i + 8..j];
    }
  }

  /** The regular-expression search matches exactly when "calldata" is followed, on its line, by "[0". */
  lemma SearchMeaning(s: string)
    ensures Search(s) <==> exists i: nat, j: nat :: MatchAt(s, i, j)
  {
    ScanMeaning(s, false);
  }

  const ProxyTitle := "Delegatecall Proxy"
  const ProxyHead := "The contract implements a delegatecall proxy."
  const ProxyTail :=
    "The smart contract forwards the received calldata via delegatecall. Note that callers"
    + "can execute arbitrary functions in the callee contract and that the callee contract "
    + "can access the storage of the calling contract. "
    + "Make sure that the callee contract is audited properly."
  const TargetLabel := "DELEGATECALL target: "

  /** The target as printed: `hex` of a concrete address, the expression's text otherwise. */
  function Target(to: Word): (r: string)
    ensures to.Lit? ==> r == Hex(to.value % Modulus)
    ensures !to.Lit? ==> r == ShowWord(to)
  {
    match GetVariable(to)
    case Concrete(val) => Hex(val)
    case Symbolic(_) => ShowWord(to)
  }

  /** The input word of the call: memory at the concrete offset. */
  function InputText(call: Call, meminstart: nat): string
    reads call.state.mstate
  {
    ShowWord(call.state.mstate.MemoryAt(meminstart))
  }

  /**
   * `_concrete_call`: when the memory word at the input offset reads as
   * forwarded calldata, one Low proxy issue at the call's instruction whose
   * description has the target appended; otherwise nothing.
   */
  function ConcreteCall(call: Call, meminstart: nat): (r: seq<Issue>)
    reads call.state.mstate
    ensures |r| <= 1 && (r != [] <==> exists i: nat, j: nat :: MatchAt(InputText(call, meminstart), i, j))
    ensures r != [] ==>
      r[0].title == ProxyTitle && r[0].severity == Low && r[0].swcId == SwcData.DelegatecallToUntrustedContract
      && r[0].address == call.state.instruction.address && r[0].contract == call.node().contractName
      && r[0].description == ProxyHead + "\n" + ProxyTail + TargetLabel + Target(call.to)
      && r[0].descriptionTail == ProxyTail
  {
    SearchMeaning(InputText(call, meminstart));
    if !Search(InputText(call, meminstart)) then []
    else
      var state := call.state;
      var issue := NewIssue(call.node().contractName, call.node().functionName, state.instruction.address,
                            SwcData.DelegatecallToUntrustedContract, ProxyTitle, state.environment.bytecode,
                            (state.mstate.minGasUsed, state.mstate.maxGasUsed), Low, ProxyHead, ProxyTail, "");
      [issue.(description := issue.description + TargetLabel + Target(call.to))]
  }

  /** The call's state has the stack `get_call_from_state` read its arguments from. */
  predicate WellFormed(call: Option<Call>)
    reads if call.Some? then {call.value.state.mstate} else {}
  {
    call.Some? ==> |call.value.state.mstate.stack| >= 3
  }

  /**
   * `_analyze_states`: nothing without a call, for a call that is not a
   * DELEGATECALL, outside the fallback function, or with a symbolic input
   * offset; otherwise what `ConcreteCall` gives.
   */
  function AnalyzeStates(call: Option<Call>): (r: seq<Issue>)
    requires WellFormed(call)
    reads if call.Some? then {call.value.state.mstate} else {}
    ensures |r| <= 1
    ensures r != [] ==>
      call.Some? && call.value.callType == "DELEGATECALL" && call.value.node().functionName == "fallback"
      && WordOf(Peek(call.value.state.mstate.stack, 3)).Lit?
    ensures (call.Some? && call.value.callType == "DELEGATECALL" && call.value.node().functionName == "fallback"
             && WordOf(Peek(call.value.state.mstate.stack, 3)).Lit?) ==>
      r == ConcreteCall(call.value, WordOf(Peek(call.value.state.mstate.stack, 3)).value % Modulus)
  {
    match call
    case None => []
    case Some(c) =>
      if c.callType != "DELEGATECALL" then []
      else if c.node().functionName != "fallback" then []
      else
        match GetVariable(WordOf(Peek(c.state.mstate.stack, 3)))
        case Concrete(val) => ConcreteCall(c, val)
        case Symbolic(_) => []
  }

  class DelegateCallModule {
    const base: Base.DetectionModule

    constructor ()
      ensures fresh(base) && base.issues == []
      ensures base.swcId == SwcData.DelegatecallToUntrustedContract && base.preHooks == ["DELEGATECALL"]
    {
      base := new Base.DetectionModule("DELEGATECALL Usage in Fallback Function",
        SwcData.DelegatecallToUntrustedContract,
        "Check for invocations of delegatecall(msg.data) in the fallback function.", "callback",
        Some(["DELEGATECALL"]), None);
    }

    /**
     * `execute`: the issues of the state's call, which `get_call_from_state`
     * supplies, are added to the module's list, which is returned.
     */
    method Execute(call: Option<Call>) returns (r: seq<Issue>)
      requires WellFormed(call)
      modifies base
      ensures base.issues == old(base.issues) + AnalyzeStates(call)
      ensures r == base.issues
    {
      r := base.Extend(AnalyzeStates(call));
    }
  }
}
