/**
 * The external-call detector: at CALL, when the call can forward more than
 * the 2300-gas stipend, report it; as a Medium issue when the callee can also
 * be the attacker account, as a Low one otherwise. The callee condition is
 * added to the node's own constraint list, which the query shares.
 */
module ExternalCalls {
  import opened Wrappers
  import opened Smt
  import opened Report
  import opened EvmState
  import SwcData
  import Base

  /** The gas stipend a plain value transfer forwards. */
  const Stipend: nat := 2300

  const UserSuppliedTitle := "External Call To User-Supplied Address"
  const UserSuppliedHead := "A call to a user-supplied address is executed."
  const UserSuppliedTail :=
    "The callee address of an external message call can be set by the caller. Note that the callee can "
    + "contain arbitrary code and may re-enter any function in this contract. Review the business logic "
    + "carefully to prevent averse effects on thecontract state."
  const FixedTitle := "External Call To Fixed Address"
  const FixedHead := "The contract executes an external message call."
  const FixedTail :=
    "An external function call to a fixed contract address is executed. Make sure that the callee "
    + "contract has been reviewed carefully."

  function UserSuppliedIssue(state: GlobalState, debug: string): (r: Issue)
    ensures r.title == UserSuppliedTitle && r.severity == Medium && r.swcId == SwcData.Reentrancy
    ensures r.debug == debug && r.address == state.instruction.address
  {
    IssueAt(state, SwcData.Reentrancy, UserSuppliedTitle, Medium, UserSuppliedHead, UserSuppliedTail, debug)
  }

  function FixedAddressIssue(state: GlobalState, debug: string): (r: Issue)
    ensures r.title == FixedTitle && r.severity == Low && r.swcId == SwcData.Reentrancy
    ensures r.debug == debug && r.address == state.instruction.address
  {
    IssueAt(state, SwcData.Reentrancy, FixedTitle, Low, FixedHead, FixedTail, debug)
  }

  /** The first query: the path, and more gas than the stipend (a new list). */
  function GasQuery(path: seq<Cond>, stack: seq<StackItem>): seq<Cond>
    requires |stack| >= 1
  {
    path + [Ugt(WordOf(Peek(stack, 1)), Lit(Stipend))]
  }

  /** The callee condition the second query appends to the node's list. */
  function CalleeCondition(stack: seq<StackItem>): Cond
    requires |stack| >= 2
  {
    Equals(WordOf(Peek(stack, 2)), Lit(Attacker))
  }

  /**
   * What `_analyze_state` returns: nothing unless the gas query has a
   * transaction sequence; then the Medium issue with the debug of the callee
   * query when that one has a sequence too, and otherwise the Low issue with
   * the debug of the gas query. The callee query leaves out the gas condition.
   */
  function ExternalCallIssues(state: GlobalState, path: seq<Cond>, stack: seq<StackItem>,
                              sequence: SequenceOracle): (r: seq<Issue>)
    requires |stack| >= 2
    ensures |r| <= 1 && (r != [] <==> sequence(GasQuery(path, stack)).Some?)
    ensures forall k :: 0 <= k < |r| ==> r[k].swcId == SwcData.Reentrancy
    ensures r != [] ==>
      (r[0].title == UserSuppliedTitle <==> sequence(path + [CalleeCondition(stack)]).Some?)
    ensures r != [] && r[0].title == FixedTitle ==>
      r[0].severity == Low && r[0].debug == sequence(GasQuery(path, stack)).value
    ensures r != [] && r[0].title == UserSuppliedTitle ==>
      r[0] == UserSuppliedIssue(state, sequence(path + [CalleeCondition(stack)]).value)
      && r[0].severity == Medium
  {
    match sequence(GasQuery(path, stack))
    case None => []
    case Some(first) =>
      match sequence(path + [CalleeCondition(stack)])
      case Some(second) => [UserSuppliedIssue(state, second)]
      case None => [FixedAddressIssue(state, first)]
  }

  /**
   * `_analyze_state`: returns what `ExternalCallIssues` says. Once the gas query
   * succeeds, the callee condition is appended to the node's constraint list
   * in place (clearing its cached feasibility), whatever the callee query
   * answers; otherwise the list is untouched.
   */
  method AnalyzeState(state: GlobalState, sequence: SequenceOracle) returns (issues: seq<Issue>)
    requires |state.mstate.stack| >= 2
    modifies state.node.constraints
    ensures issues == ExternalCallIssues(state, old(state.node.constraints.items), state.mstate.stack, sequence)
    ensures var c := state.node.constraints;
      if sequence(GasQuery(old(c.items), state.mstate.stack)).Some?
      then c.items == old(c.items) + [CalleeCondition(state.mstate.stack)] && c.isPossibleCache == None
      else c.items == old(c.items) && c.isPossibleCache == old(c.isPossibleCache)
  {
    var stack := state.mstate.stack;
    var gas := WordOf(Peek(stack, 1));
    var to := WordOf(Peek(stack, 2));
    var constraints := state.node.constraints;
    var first := sequence(constraints.items + [Ugt(gas, Lit(Stipend))]);
    if first.None? {
      return [];
    }
    constraints := constraints.IAdd([Equals(to, Lit(Attacker))]);
    var second := sequence(constraints.items);
    if second.Some? {
      issues := [UserSuppliedIssue(state, second.value)];
    } else {
      issues := [FixedAddressIssue(state, first.value)];
    }
  }

  const ModuleDescription :=
    "\n\nSearch for low level calls (e.g. call.value()) that forward all gas to the callee.\nReport a "
    + "warning if the callee address can be set by the sender, otherwise create \nan informational issue.\n\n"

  class ExternalCalls {
    const base: Base.DetectionModule

    constructor ()
      ensures fresh(base) && base.issues == []
      ensures base.swcId == SwcData.Reentrancy && base.preHooks == ["CALL"]
    {
      base := new Base.DetectionModule("External calls", SwcData.Reentrancy, ModuleDescription,
        "callback", Some(["CALL"]), None);
    }

    /** `execute`: the issues of this state are added to the module's list, which is returned. */
    method Execute(state: GlobalState, sequence: SequenceOracle) returns (r: seq<Issue>)
      requires |state.mstate.stack| >= 2
      modifies base, state.node.constraints
      ensures base.issues ==
        old(base.issues) + ExternalCallIssues(state, old(state.node.constraints.items), state.mstate.stack, sequence)
      ensures var c := state.node.constraints;
        if sequence(GasQuery(old(c.items), state.mstate.stack)).Some?
        then c.items == old(c.items) + [CalleeCondition(state.mstate.stack)] && c.isPossibleCache == None
        else c.items == old(c.items) && c.isPossibleCache == old(c.isPossibleCache)
      ensures r == base.issues
    {
      var found := AnalyzeState(state, sequence);
      r := base.Extend(found);
    }
  }
}
