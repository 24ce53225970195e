/**
 * The multiple-sends detector. Each call instruction of a path is recorded in
 * an annotation of the state; at the end of the path (RETURN or STOP) more
 * than one recorded call gives an issue listing their offsets.
 */
module MultipleSends {
  import opened Wrappers
  import opened Text
  import opened Report
  import opened EvmState
  import SwcData
  import Base

  /** `MultipleSendsAnnotation`: the calls of the path so far, extended in place. */
  class MultipleSendsAnnotation {
    var calls: seq<Call>

    constructor ()
      ensures calls == []
    {
      calls := [];
    }

    /** `__copy__`: a new annotation with its own list holding the same calls. */
    method Copy() returns (c: MultipleSendsAnnotation)
      ensures fresh(c) && c.calls == calls
    {
      c := new MultipleSendsAnnotation();
      c.calls := calls;
    }
  }

  const SendsTitle := "Multiple Calls in a Single Transaction"
  const SendsHead := "Multiple sends are executed in one transaction."
  const SendsIntro := "Consecutive calls are executed at the following bytecode offsets:\n"
  const SendsAdvice :=
    "Try to isolate each external call into its own transaction, as external calls can fail accidentally"
    + " or deliberately.\n"

  /** The line of one call: `"Offset: {}\n"` with the address of its instruction. */
  function OffsetLine(c: Call): string {
    "Offset: " + NatToString(c.state.instruction.address) + "\n"
  }

  /** The lines of the calls, in recording order. */
  function OffsetLines(calls: seq<Call>): string {
    if calls == [] then "" else OffsetLines(calls[..|calls| - 1]) + OffsetLine(calls[|calls| - 1])
  }

  /** The lines of two runs of calls are the lines of the first followed by those of the second. */
  lemma {:induction false} OffsetLinesAppend(a: seq<Call>, b: seq<Call>)
    ensures OffsetLines(a + b) == OffsetLines(a) + OffsetLines(b)
    decreases |b|
  {
    if b == [] {
      assert a + b == a;
    } else {
      var init, last := b[..|b| - 1], b[|b| - 1];
      var ab := a + b;
      assert ab[..|ab| - 1] == a + init && ab[|ab| - 1] == last;
      var x, y, z := OffsetLines(a), OffsetLines(init), OffsetLine(last);
      calc {
        OffsetLines(ab);
        OffsetLines(a + init) + z;
        { OffsetLinesAppend(a, init); }
        x + y + z;
        x + (y + z);
      }
    }
  }

  /** Every recorded call's line is in the list, after the lines of the calls recorded before it. */
  lemma OffsetLinesMention(calls: seq<Call>, k: nat)
    requires k < |calls|
    ensures OffsetLines(calls) == OffsetLines(calls[..k]) + OffsetLine(calls[k]) + OffsetLines(calls[k + 1..])
    ensures Contains(OffsetLines(calls), OffsetLine(calls[k]))
  {
    assert calls == calls[..k] + ([calls[k]] + calls[k + 1..]);
    OffsetLinesAppend(calls[..k], [calls[k]] + calls[k + 1..]);
    OffsetLinesAppend([calls[k]], calls[k + 1..]);
    assert OffsetLines([calls[k]]) == OffsetLine(calls[k]) by {
      assert [calls[k]][..0] == [];
    }
    var before := OffsetLines(calls[..k]);
    var s := OffsetLines(calls);
    assert s == before + (OffsetLine(calls[k]) + OffsetLines(calls[k + 1..]));
    assert s[|before|..] == OffsetLine(calls[k]) + OffsetLines(calls[k + 1..]);
    ContainsAt(s, |before|, OffsetLine(calls[k]));
  }

  /** The description tail: the introduction, one line per call, and the advice. */
  function SendsTail(calls: seq<Call>): string {
    SendsIntro + OffsetLines(calls) + SendsAdvice
  }

  /** The issue at the end of a path with several calls: Medium, at the RETURN or STOP instruction. */
  function SendsIssue(state: GlobalState, calls: seq<Call>): (r: Issue)
    ensures r.title == SendsTitle && r.severity == Medium && r.swcId == SwcData.MultipleSends
    ensures r.address == state.instruction.address && r.descriptionTail == SendsTail(calls)
  {
    IssueAt(state, SwcData.MultipleSends, SendsTitle, Medium, SendsHead, SendsTail(calls), "")
  }

  /** The loop that builds the description tail. */
  method DescribeCalls(calls: seq<Call>) returns (tail: string)
    ensures tail == SendsTail(calls)
  {
    tail := SendsIntro;
    for k := 0 to |calls|
      invariant tail == SendsIntro + OffsetLines(calls[..k])
    {
      assert calls[..k + 1][..k] == calls[..k];
      tail := tail + "Offset: " + NatToString(calls[k].state.instruction.address) + "\n";
    }
    assert calls[..|calls|] == calls;
    tail := tail + SendsAdvice;
  }

  /**
   * `_analyze_state`: a state without the annotation gets a fresh one first.
   * At a call instruction the call, when there is one, is recorded and there
   * is no issue; at any other hooked instruction (RETURN or STOP) there is one
   * issue exactly when more than one call is recorded.
   */
  method AnalyzeState(state: GlobalState, store: StateAnnotations<MultipleSendsAnnotation>, call: Option<Call>)
    returns (issues: seq<Issue>)
    modifies store, if store.items == [] then {} else {store.items[0]}
    ensures old(store.items) != [] ==> store.items == old(store.items)
    ensures old(store.items) == [] ==> |store.items| == 1 && fresh(store.items[0])
    ensures var before := if old(store.items) == [] then [] else old(store.items[0].calls);
      if IsCallOpcode(state.instruction.opcode) then
        store.items[0].calls == before + (if call.Some? then [call.value] else []) && issues == []
      else
        store.items[0].calls == before
        && (issues != [] <==> |before| > 1)
        && (issues != [] ==> issues == [SendsIssue(state, before)])
  {
    if store.items == [] {
      var created := new MultipleSendsAnnotation();
      store.Annotate(created);
    }
    var annotation := store.items[0];
    if IsCallOpcode(state.instruction.opcode) {
      if call.Some? {
        annotation.calls := annotation.calls + [call.value];
      }
      return [];
    }
    var calls := annotation.calls;
    if |calls| > 1 {
      var tail := DescribeCalls(calls);
      return [IssueAt(state, SwcData.MultipleSends, SendsTitle, Medium, SendsHead, tail, "")];
    }
    return [];
  }

  class MultipleSendsModule {
    const base: Base.DetectionModule

    constructor ()
      ensures fresh(base) && base.issues == [] && base.swcId == SwcData.MultipleSends
      ensures base.preHooks == ["CALL", "DELEGATECALL", "STATICCALL", "CALLCODE", "RETURN", "STOP"]
    {
      base := new Base.DetectionModule("Multiple Sends", SwcData.MultipleSends,
        "Check for multiple sends in a single transaction", "callback",
        Some(["CALL", "DELEGATECALL", "STATICCALL", "CALLCODE", "RETURN", "STOP"]), None);
    }

    /** `execute`: the issues of this state are added to the module's list, which is returned. */
    method Execute(state: GlobalState, store: StateAnnotations<MultipleSendsAnnotation>, call: Option<Call>)
      returns (r: seq<Issue>)
      modifies base, store, if store.items == [] then {} else {store.items[0]}
      ensures old(store.items) != [] ==> store.items == old(store.items)
      ensures old(store.items) == [] ==> |store.items| == 1 && fresh(store.items[0])
      ensures var before := if old(store.items) == [] then [] else old(store.items[0].calls);
        store.items[0].calls ==
          before + (if IsCallOpcode(state.instruction.opcode) && call.Some? then [call.value] else [])
      ensures var before := if old(store.items) == [] then [] else old(store.items[0].calls);
        base.issues == old(base.issues)
          + if !IsCallOpcode(state.instruction.opcode) && |before| > 1 then [SendsIssue(state, before)] else []
      ensures r == base.issues
    {
      var found := AnalyzeState(state, store, call);
      r := base.Extend(found);
    }
  }
}
