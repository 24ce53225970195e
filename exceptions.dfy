/**
 * The reachable-exception detector: at ASSERT_FAIL, report the state when
 * the path to it has a transaction sequence.
 */
module Exceptions {
  import opened Wrappers
  import opened Smt
  import opened Report
  import opened EvmState
  import SwcData
  import Base

  const ExceptionTitle := "Exception State"
  const ExceptionHead := "A reachable exception has been detected."
  const ExceptionTail :=
    "It is possible to trigger an exception (opcode 0xfe). Exceptions can be caused by type errors, "
    + "division by zero, out-of-bounds array access, or assert violations. Note that explicit `assert()` "
    + "should only be used to check invariants. Use `require()` for regular input checking."

  /**
   * `_analyze_state`: one Low assert-violation issue, whose debug is the
   * transaction sequence, exactly when the path has a transaction sequence.
   */
  function AnalyzeState(state: GlobalState, path: seq<Cond>, sequence: SequenceOracle): (r: seq<Issue>)
    ensures |r| <= 1 && (r != [] <==> sequence(path).Some?)
    ensures r != [] ==>
      r[0].title == ExceptionTitle && r[0].severity == Low && r[0].swcId == SwcData.AssertViolation
      && r[0].debug == sequence(path).value && r[0].address == state.instruction.address
  {
    match sequence(path)
    case None => []
    case Some(debug) =>
      [IssueAt(state, SwcData.AssertViolation, ExceptionTitle, Low, ExceptionHead, ExceptionTail, debug)]
  }

  class ReachableExceptionsModule {
    const base: Base.DetectionModule

    /** The module is hooked on ASSERT_FAIL only. */
    constructor ()
      ensures fresh(base) && base.issues == []
      ensures base.swcId == SwcData.AssertViolation && base.preHooks == ["ASSERT_FAIL"] && base.postHooks == []
    {
      base := new Base.DetectionModule("Reachable Exceptions", SwcData.AssertViolation,
        "Checks whether any exception states are reachable.", "callback", Some(["ASSERT_FAIL"]), None);
    }

    /** `execute`: the issues of this state are added to the module's list, which is returned. */
    method Execute(state: GlobalState, sequence: SequenceOracle) returns (r: seq<Issue>)
      modifies base
      ensures base.issues == old(base.issues) + AnalyzeState(state, state.node.constraints.items, sequence)
      ensures r == base.issues
    {
      r := base.Extend(AnalyzeState(state, state.node.constraints.items, sequence));
    }
  }
}
