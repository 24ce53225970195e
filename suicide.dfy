/**
 * The unprotected-selfdestruct detector: at SUICIDE, ask first whether the
 * beneficiary can be the attacker account and, failing that, whether the
 * instruction is reachable at all. Each reporting address is cached and is
 * not analysed again until the module is reset.
 */
module Suicide {
  import opened Wrappers
  import opened Smt
  import opened Report
  import opened EvmState
  import SwcData
  import Base

  const SuicideTitle := "Unprotected Selfdestruct"
  const SuicideHead := "The contract can be killed by anyone."
  const AnyoneTail := "Anyone can kill this contract and withdraw its balance to an arbitrary address."
  const ArbitraryTail := "Arbitrary senders can kill this contract."

  function SuicideIssue(state: GlobalState, tail: string, debug: string): (r: Issue)
    ensures r.title == SuicideTitle && r.severity == High && r.swcId == SwcData.UnprotectedSelfdestruct
    ensures r.descriptionHead == SuicideHead && r.descriptionTail == tail && r.debug == debug
    ensures r.address == state.instruction.address
  {
    IssueAt(state, SwcData.UnprotectedSelfdestruct, SuicideTitle, High, SuicideHead, tail, debug)
  }

  /** The first query: the path, and the beneficiary being the attacker account. */
  function AttackerQuery(path: seq<Cond>, to: StackItem): (q: seq<Cond>)
    ensures |q| == |path| + 1 && q[..|path|] == path && q[|path|] == Equals(WordOf(to), Lit(Attacker))
  {
    path + [Equals(WordOf(to), Lit(Attacker))]
  }

  /**
   * What `_analyze_state` returns and what the cache becomes: nothing for a
   * cached address; otherwise one High issue, and the address cached, when
   * either query has a transaction sequence, the first one deciding the tail
   * and the debug text; nothing, with the cache unchanged, when neither has.
   */
  function SuicideOutcome(state: GlobalState, path: seq<Cond>, stack: seq<StackItem>, cache: set<nat>,
                          sequence: SequenceOracle): (r: (seq<Issue>, set<nat>))
    requires state.instruction.address !in cache ==> |stack| >= 1
    ensures |r.0| <= 1 && (r.0 == [] <==> r.1 == cache)
    ensures state.instruction.address in cache ==> r == ([], cache)
    ensures r.0 != [] ==> r.1 == cache + {state.instruction.address} && state.instruction.address !in cache
    ensures state.instruction.address !in cache && sequence(AttackerQuery(path, Peek(stack, 1))).Some? ==>
      r.0 != []
    ensures r.0 != [] && sequence(AttackerQuery(path, Peek(stack, 1))).Some? ==>
      r.0[0].descriptionTail == AnyoneTail && r.0[0].debug == sequence(AttackerQuery(path, Peek(stack, 1))).value
    ensures state.instruction.address !in cache && sequence(AttackerQuery(path, Peek(stack, 1))).None? ==>
      (r.0 != [] <==> sequence(path).Some?)
      && (r.0 != [] ==> r.0[0].descriptionTail == ArbitraryTail && r.0[0].debug == sequence(path).value)
  {
    var address := state.instruction.address;
    if address in cache then ([], cache)
    else
      match sequence(AttackerQuery(path, Peek(stack, 1)))
      case Some(debug) => ([SuicideIssue(state, AnyoneTail, debug)], cache + {address})
      case None =>
        match sequence(path)
        case Some(debug) => ([SuicideIssue(state, ArbitraryTail, debug)], cache + {address})
        case None => ([], cache)
  }

  /** Once an address has given an issue, analysing it again gives nothing until a reset. */
  lemma ReportedOnce(state: GlobalState, path: seq<Cond>, stack: seq<StackItem>, cache: set<nat>,
                     sequence: SequenceOracle, later: seq<Cond>, laterStack: seq<StackItem>)
    requires state.instruction.address !in cache ==> |stack| >= 1
    requires SuicideOutcome(state, path, stack, cache, sequence).0 != []
    ensures var c := SuicideOutcome(state, path, stack, cache, sequence).1;
      SuicideOutcome(state, later, laterStack, c, sequence) == ([], c)
  {
  }

  class SuicideModule {
    const base: Base.DetectionModule
    /** `_cache_address`: the addresses that have given an issue. */
    var cacheAddress: set<nat>

    constructor ()
      ensures fresh(base) && base.issues == [] && cacheAddress == {}
      ensures base.swcId == SwcData.UnprotectedSelfdestruct && base.preHooks == ["SUICIDE"]
    {
      base := new Base.DetectionModule("Unprotected Selfdestruct", SwcData.UnprotectedSelfdestruct,
        "\nCheck if the contact can be 'accidentally' killed by anyone.\nFor kill-able contracts, also check "
        + "whether it is possible to direct the contract balance to the attacker.\n",
        "callback", Some(["SUICIDE"]), None);
      cacheAddress := {};
    }

    /** `reset_module`: clears the issues and the cache. */
    method ResetModule()
      modifies this, base
      ensures base.issues == [] && cacheAddress == {}
    {
      base.ResetModule();
      cacheAddress := {};
    }

    /** `_analyze_state`, as `SuicideOutcome` says. */
    method AnalyzeState(state: GlobalState, sequence: SequenceOracle) returns (issues: seq<Issue>)
      requires state.instruction.address !in cacheAddress ==> |state.mstate.stack| >= 1
      modifies this`cacheAddress
      ensures (issues, cacheAddress) ==
        SuicideOutcome(state, state.node.constraints.items, state.mstate.stack, old(cacheAddress), sequence)
    {
      var node := state.node;
      var address := state.instruction.address;
      if address in cacheAddress {
        return [];
      }
      var to := Peek(state.mstate.stack, 1);
      var tail := AnyoneTail;
      var answer := sequence(node.constraints.items + [Equals(WordOf(to), Lit(Attacker))]);
      if answer.None? {
        answer := sequence(node.constraints.items);
        tail := ArbitraryTail;
      }
      if answer.None? {
        return [];
      }
      cacheAddress := cacheAddress + {address};
      issues := [SuicideIssue(state, tail, answer.value)];
    }

    /** `execute`: the issues of this state are added to the module's list, which is returned. */
    method Execute(state: GlobalState, sequence: SequenceOracle) returns (r: seq<Issue>)
      requires state.instruction.address !in cacheAddress ==> |state.mstate.stack| >= 1
      modifies this, base
      ensures var outcome := SuicideOutcome(state, state.node.constraints.items, state.mstate.stack,
                                            old(cacheAddress), sequence);
        base.issues == old(base.issues) + outcome.0 && cacheAddress == outcome.1
      ensures r == base.issues
    {
      ghost var outcome := SuicideOutcome(state, state.node.constraints.items, state.mstate.stack, cacheAddress, sequence);
      var found := AnalyzeState(state, sequence);
      assert found == outcome.0;
      assert this as object != base as object;
      r := base.Extend(found);
    }
  }
}
