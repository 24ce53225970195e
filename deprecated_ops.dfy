/**
 * The deprecated-operation detector: every ORIGIN or CALLCODE gives one
 * Medium issue, without any solver query.
 */
module DeprecatedOps {
  import opened Wrappers
  import opened Report
  import opened EvmState
  import SwcData
  import Base

  const OriginTitle := "Use of tx.origin"
  const OriginHead := "Use of tx.origin is deprecated."
  const OriginTail :=
    "The smart contract retrieves the transaction origin (tx.origin) using msg.origin. Use of msg.origin is "
    + "deprecated and the instruction may be removed in the  future. Use msg.sender instead.\nSee also: "
    + "https://solidity.readthedocs.io/en/develop/security-considerations.html#tx-origin"
  const CallcodeTitle := "Use of callcode"
  const CallcodeHead := "Use of callcode is deprecated."
  const CallcodeTail :=
    "The callcode method executes code of another contract in the context of the caller account. Due to a "
    + "bug in the implementation it does not persist sender and value over the call. It was therefore "
    + "deprecated and may be removed in the future. Use the delegatecall method instead."

  /** The module is hooked on these two opcodes; any other leaves the title unset. */
  predicate IsDeprecated(opcode: string) {
    opcode == "ORIGIN" || opcode == "CALLCODE"
  }

  /**
   * `_analyze_state`: exactly one Medium deprecated-function issue at the
   * current instruction, titled after the opcode.
   */
  function AnalyzeState(state: GlobalState): (r: seq<Issue>)
    requires IsDeprecated(state.instruction.opcode)
    ensures |r| == 1 && r[0].severity == Medium && r[0].swcId == SwcData.DeprecatedFunctionsUsage
    ensures r[0].address == state.instruction.address && r[0].debug == ""
    ensures r[0].title == OriginTitle <==> state.instruction.opcode == "ORIGIN"
    ensures r[0].title == CallcodeTitle <==> state.instruction.opcode == "CALLCODE"
  {
    var opcode := state.instruction.opcode;
    assert OriginTitle[7] != CallcodeTitle[7];
    var title := if opcode == "ORIGIN" then OriginTitle else CallcodeTitle;
    var head := if opcode == "ORIGIN" then OriginHead else CallcodeHead;
    var tail := if opcode == "ORIGIN" then OriginTail else CallcodeTail;
    [IssueAt(state, SwcData.DeprecatedFunctionsUsage, title, Medium, head, tail, "")]
  }

  class DeprecatedOperationsModule {
    const base: Base.DetectionModule

    constructor ()
      ensures fresh(base) && base.issues == []
      ensures base.swcId == SwcData.DeprecatedFunctionsUsage && base.preHooks == ["ORIGIN", "CALLCODE"]
    {
      base := new Base.DetectionModule("Deprecated Operations", SwcData.DeprecatedFunctionsUsage,
        "\nCheck for usage of deprecated opcodes\n", "callback", Some(["ORIGIN", "CALLCODE"]), None);
    }

    /** `execute`: the issue of this state is added to the module's list, which is returned. */
    method Execute(state: GlobalState) returns (r: seq<Issue>)
      requires IsDeprecated(state.instruction.opcode)
      modifies base
      ensures base.issues == old(base.issues) + AnalyzeState(state) && |base.issues| == |old(base.issues)| + 1
      ensures r == base.issues
    {
      r := base.Extend(AnalyzeState(state));
    }
  }
}
