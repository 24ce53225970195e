/**
 * The unchecked-return-value detector. After each call instruction the
 * call's return value is recorded in an annotation of the state; at STOP or
 * RETURN every recorded value that can be zero on the path gives an issue.
 */
module UncheckedRetval {
  import opened Wrappers
  import opened Smt
  import opened Report
  import opened EvmState
  import SwcData
  import Base

  /** One record: the address of the call instruction and the value it left on the stack. */
  datatype Retval = Retval(address: int, retval: StackItem)

  /** `UncheckedRetvalAnnotation`: the records of the path so far, extended in place. */
  class UncheckedRetvalAnnotation {
    var retvals: seq<Retval>

    constructor ()
      ensures retvals == []
    {
      retvals := [];
    }

    /** `__copy__`: a new annotation with its own list holding the same records. */
    method Copy() returns (c: UncheckedRetvalAnnotation)
      ensures fresh(c) && c.retvals == retvals
    {
      c := new UncheckedRetvalAnnotation();
      c.retvals := retvals;
    }
  }

  const RetvalTitle := "Unchecked Call Return Value"
  const RetvalHead := "The return value of a message call is not checked."
  const RetvalTail :=
    "External calls return a boolean value. If the callee contract halts with an exception, 'false' is "
    + "returned and execution continues in the caller. It is usually recommended to wrap external calls "
    + "into a require statement to prevent unexpected states."

  /** The issue of one record: at the call's address, in the current node and with the current gas. */
  function RetvalIssue(state: GlobalState, record: Retval): (r: Issue)
    ensures r.title == RetvalTitle && r.severity == Low && r.swcId == SwcData.UncheckedRetVal
    ensures r.address == record.address && r.contract == state.node.contractName
  {
    NewIssue(state.node.contractName, state.node.functionName, record.address, SwcData.UncheckedRetVal,
             RetvalTitle, state.environment.bytecode, (state.mstate.minGasUsed, state.mstate.maxGasUsed),
             Low, RetvalHead, RetvalTail, "")
  }

  /** The query for one record: the path, and the return value being zero. */
  function ZeroQuery(path: seq<Cond>, record: Retval): seq<Cond> {
    path + [Equals(WordOf(record.retval), Lit(0))]
  }

  /** The STOP/RETURN loop: one issue per record whose value can be zero, in record order. */
  function RetvalIssues(state: GlobalState, path: seq<Cond>, retvals: seq<Retval>, model: ModelOracle): (r: seq<Issue>)
    ensures |r| <= |retvals|
    ensures forall k :: 0 <= k < |r| ==> r[k].title == RetvalTitle && r[k].severity == Low
  {
    if retvals == [] then []
    else
      var init, last := retvals[..|retvals| - 1], retvals[|retvals| - 1];
      RetvalIssues(state, path, init, model)
      + if model(ZeroQuery(path, last)) then [RetvalIssue(state, last)] else []
  }

  /** When every recorded value can be zero, there is one issue per record, at that record's address. */
  lemma {:induction false} RetvalIssuesAll(state: GlobalState, path: seq<Cond>, retvals: seq<Retval>, model: ModelOracle)
    requires forall k :: 0 <= k < |retvals| ==> model(ZeroQuery(path, retvals[k]))
    ensures var r := RetvalIssues(state, path, retvals, model);
      |r| == |retvals| && forall k :: 0 <= k < |r| ==> r[k] == RetvalIssue(state, retvals[k])
  {
    if retvals != [] {
      var init := retvals[..|retvals| - 1];
      RetvalIssuesAll(state, path, init, model);
    }
  }

  /** When no recorded value can be zero, there is no issue. */
  lemma {:induction false} RetvalIssuesNone(state: GlobalState, path: seq<Cond>, retvals: seq<Retval>, model: ModelOracle)
    requires forall k :: 0 <= k < |retvals| ==> !model(ZeroQuery(path, retvals[k]))
    ensures RetvalIssues(state, path, retvals, model) == []
  {
    if retvals != [] {
      RetvalIssuesNone(state, path, retvals[..|retvals| - 1], model);
    }
  }

  /** The records whose value can be zero on the path, in record order. */
  function Zeroable(path: seq<Cond>, retvals: seq<Retval>, model: ModelOracle): (z: seq<Retval>)
    ensures |z| <= |retvals|
  {
    if retvals == [] then []
    else (if model(ZeroQuery(path, retvals[0])) then [retvals[0]] else []) + Zeroable(path, retvals[1..], model)
  }

  /** A record is kept exactly when it is recorded and its value can be zero. */
  lemma {:induction false} ZeroableMembers(path: seq<Cond>, retvals: seq<Retval>, model: ModelOracle, x: Retval)
    ensures x in Zeroable(path, retvals, model) <==> x in retvals && model(ZeroQuery(path, x))
  {
    if retvals != [] {
      ZeroableMembers(path, retvals[1..], model, x);
      assert retvals == [retvals[0]] + retvals[1..];
    }
  }

  lemma {:induction false} ZeroableAppend(path: seq<Cond>, a: seq<Retval>, b: seq<Retval>, model: ModelOracle)
    ensures Zeroable(path, a + b, model) == Zeroable(path, a, model) + Zeroable(path, b, model)
  {
    if a != [] {
      assert (a + b)[0] == a[0] && (a + b)[1..] == a[1..] + b;
      ZeroableAppend(path, a[1..], b, model);
    } else {
      assert a + b == b;
    }
  }

  /**
   * The issues are exactly those of the records whose value can be zero, one
   * each and in record order.
   */
  lemma {:induction false} RetvalIssuesOfZeroable(state: GlobalState, path: seq<Cond>, retvals: seq<Retval>,
                                                  model: ModelOracle)
    ensures var r, z := RetvalIssues(state, path, retvals, model), Zeroable(path, retvals, model);
      |r| == |z| && forall k :: 0 <= k < |r| ==> r[k] == RetvalIssue(state, z[k])
  {
    if retvals != [] {
      var init, last := retvals[..|retvals| - 1], retvals[|retvals| - 1];
      RetvalIssuesOfZeroable(state, path, init, model);
      assert retvals == init + [last];
      ZeroableAppend(path, init, [last], model);
      assert Zeroable(path, [last], model) == if model(ZeroQuery(path, last)) then [last] else [];
    }
  }

  /** `instruction_list[pc - 1]`, with Python's wrap to the last entry when pc is 0. */
  function PreviousInstruction(list: seq<Instruction>, pc: nat): (i: Instruction)
    requires 1 <= |list| && pc <= |list|
    ensures i in list
  {
    if pc == 0 then list[|list| - 1] else list[pc - 1]
  }

  predicate IsEnd(opcode: string) {
    opcode == "STOP" || opcode == "RETURN"
  }

  /** The post-hook case asserts that the instruction before is a call and reads the stack top. */
  predicate AfterCall(state: GlobalState)
    reads state.mstate
  {
    var list := state.environment.instructionList;
    |state.mstate.stack| >= 1 && 1 <= |list| && state.mstate.pc <= |list|
    && IsCallOpcode(PreviousInstruction(list, state.mstate.pc).opcode)
  }

  /** The STOP/RETURN loop of `_analyze_state`, as `RetvalIssues` says. */
  method ReportRetvals(state: GlobalState, retvals: seq<Retval>, model: ModelOracle) returns (issues: seq<Issue>)
    ensures issues == RetvalIssues(state, state.node.constraints.items, retvals, model)
  {
    var path := state.node.constraints.items;
    issues := [];
    for k := 0 to |retvals|
      invariant issues == RetvalIssues(state, path, retvals[..k], model)
    {
      assert retvals[..k + 1][..k] == retvals[..k];
      if !model(path + [Equals(WordOf(retvals[k].retval), Lit(0))]) {
        continue;
      }
      issues := issues + [RetvalIssue(state, retvals[k])];
    }
    assert retvals[..|retvals|] == retvals;
  }

  /**
   * `_analyze_state`: a state without the annotation gets a fresh one first.
   * At STOP or RETURN the issues are those of the records, which stay; after
   * a call instruction one record (the instruction's address minus one, the
   * stack top) is appended and there is no issue.
   */
  method AnalyzeState(state: GlobalState, store: StateAnnotations<UncheckedRetvalAnnotation>, model: ModelOracle)
    returns (issues: seq<Issue>)
    requires !IsEnd(state.instruction.opcode) ==> AfterCall(state)
    modifies store, if store.items == [] then {} else {store.items[0]}
    ensures old(store.items) != [] ==> store.items == old(store.items)
    ensures old(store.items) == [] ==> |store.items| == 1 && fresh(store.items[0])
    ensures var before := if old(store.items) == [] then [] else old(store.items[0].retvals);
      if IsEnd(state.instruction.opcode) then
        store.items[0].retvals == before
        && issues == RetvalIssues(state, state.node.constraints.items, before, model)
      else
        store.items[0].retvals == before + [Retval(state.instruction.address - 1, Peek(state.mstate.stack, 1))]
        && issues == []
  {
    if store.items == [] {
      var created := new UncheckedRetvalAnnotation();
      store.Annotate(created);
    }
    var annotation := store.items[0];
    var retvals := annotation.retvals;
    if IsEnd(state.instruction.opcode) {
      issues := ReportRetvals(state, retvals, model);
      return;
    }
    var retval := Peek(state.mstate.stack, 1);
    annotation.retvals := annotation.retvals + [Retval(state.instruction.address - 1, retval)];
    issues := [];
  }

  const ModuleDescription :=
    "Test whether CALL return value is checked. For direct calls, the Solidity compiler auto-generates "
    + "this check. E.g.:\n    Alice c = Alice(address);\n    c.ping(42);\nHere the CALL will be followed "
    + "by IZSERO(retval), if retval = ZERO then state is reverted. For low-level-calls this check is "
    + "omitted. E.g.:\n    c.call.value(0)(bytes4(sha3(\"ping(uint256)\")),1);"

  class UncheckedRetvalModule {
    const base: Base.DetectionModule

    constructor ()
      ensures fresh(base) && base.issues == [] && base.swcId == SwcData.UncheckedRetVal
      ensures base.preHooks == ["STOP", "RETURN"]
      ensures base.postHooks == ["CALL", "DELEGATECALL", "STATICCALL", "CALLCODE"]
    {
      base := new Base.DetectionModule("Unchecked Return Value", SwcData.UncheckedRetVal, ModuleDescription,
        "callback", Some(["STOP", "RETURN"]), Some(["CALL", "DELEGATECALL", "STATICCALL", "CALLCODE"]));
    }

    /** `execute`: the issues of this state are added to the module's list, which is returned. */
    method Execute(state: GlobalState, store: StateAnnotations<UncheckedRetvalAnnotation>, model: ModelOracle)
      returns (r: seq<Issue>)
      requires !IsEnd(state.instruction.opcode) ==> AfterCall(state)
      modifies base, store, if store.items == [] then {} else {store.items[0]}
      ensures IsEnd(state.instruction.opcode) ==>
        base.issues == old(base.issues) + RetvalIssues(state, state.node.constraints.items,
                                                       if old(store.items) == [] then [] else old(store.items[0].retvals), model)
      ensures !IsEnd(state.instruction.opcode) ==> base.issues == old(base.issues)
      ensures old(store.items) != [] ==> store.items == old(store.items)
      ensures old(store.items) == [] ==> |store.items| == 1 && fresh(store.items[0])
      ensures var before := if old(store.items) == [] then [] else old(store.items[0].retvals);
        store.items[0].retvals == before
          + if IsEnd(state.instruction.opcode) then []
            else [Retval(state.instruction.address - 1, Peek(state.mstate.stack, 1))]
      ensures r == base.issues
    {
      var found := AnalyzeState(state, store, model);
      r := base.Extend(found);
    }
  }
}
