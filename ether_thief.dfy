/**
 * The unprotected-withdrawal detector: at a CALL, ask whether the attacker
 * account can receive more Ether than it has sent over all its transactions,
 * with the recipient being the sender. Each reporting address is cached and
 * is not analysed again until the module is reset.
 */
module EtherThief {
  import opened Wrappers
  import opened Smt
  import opened Report
  import opened EvmState
  import Constraints
  import SwcData
  import Base

  /** `eth_sent_total`: the 256-bit running sum of the attacker's call values, seeded at 0. */
  function AttackerTotal(txs: seq<Transaction>): Word
  {
    if txs == [] then Lit(0)
    else
      var t := AttackerTotal(txs[..|txs| - 1]);
      if IsAttacker(txs[|txs| - 1]) then Sum(t, txs[|txs| - 1].callValue) else t
  }

  /** The no-overflow constraints added along the way: one per attacker transaction, in order. */
  function OverflowGuards(txs: seq<Transaction>): (r: seq<Cond>)
    ensures forall k :: 0 <= k < |r| ==> r[k].NoAddOverflow?
  {
    if txs == [] then []
    else
      var init := txs[..|txs| - 1];
      OverflowGuards(init)
      + if IsAttacker(txs[|txs| - 1]) then [NoAddOverflow(AttackerTotal(init), txs[|txs| - 1].callValue)] else []
  }

  /** The number of transactions sent by the attacker. */
  function AttackerCount(txs: seq<Transaction>): nat
  {
    if txs == [] then 0
    else AttackerCount(txs[..|txs| - 1]) + if IsAttacker(txs[|txs| - 1]) then 1 else 0
  }

  /** What the attacker sent in total, as an unbounded number. */
  function AttackerSent(txs: seq<Transaction>, v: Valuation): nat
  {
    if txs == [] then 0
    else AttackerSent(txs[..|txs| - 1], v) + if IsAttacker(txs[|txs| - 1]) then Eval(txs[|txs| - 1].callValue, v) else 0
  }

  /** There is exactly one guard per attacker transaction. */
  lemma {:induction false} GuardCount(txs: seq<Transaction>)
    ensures |OverflowGuards(txs)| == AttackerCount(txs)
  {
    if txs != [] {
      GuardCount(txs[..|txs| - 1]);
    }
  }

  /**
   * Under any valuation that satisfies all the no-overflow guards, the 256-bit
   * running total equals the unbounded sum of the attacker's call values, and
   * that sum is below 2^256.
   */
  lemma {:induction false} TotalIsExact(txs: seq<Transaction>, v: Valuation)
    requires HoldsAll(OverflowGuards(txs), v)
    ensures Eval(AttackerTotal(txs), v) == AttackerSent(txs, v)
    ensures AttackerSent(txs, v) < Modulus
  {
    if txs != [] {
      var init := txs[..|txs| - 1];
      var last := txs[|txs| - 1];
      var g := OverflowGuards(init);
      var all := OverflowGuards(txs);
      assert all[0..|g|] == g;
      HoldsSlice(all, 0, |g|, v);
      TotalIsExact(init, v);
      if IsAttacker(last) {
        assert all[|g|] == NoAddOverflow(AttackerTotal(init), last.callValue);
        assert Holds(all[|g|], v);
      }
    }
  }

  /**
   * The query: the node's constraints, the guards, then "the call sends more
   * than the attacker's total" and "the recipient is the sender".
   */
  function ThiefQuery(cs: seq<Cond>, txs: seq<Transaction>, callValue: Word, target: Word, sender: Word): (r: seq<Cond>)
    ensures |r| == |cs| + |OverflowGuards(txs)| + 2
    ensures r[..|cs|] == cs
    ensures r[|cs|..|cs| + |OverflowGuards(txs)|] == OverflowGuards(txs)
    ensures r[|r| - 2] == Ugt(callValue, AttackerTotal(txs)) && r[|r| - 1] == Equals(target, sender)
  {
    cs + OverflowGuards(txs) + [Ugt(callValue, AttackerTotal(txs)), Equals(target, sender)]
  }

  /** A valuation satisfying a list satisfies each of its slices. */
  lemma HoldsSlice(q: seq<Cond>, lo: nat, hi: nat, v: Valuation)
    requires lo <= hi <= |q| && HoldsAll(q, v)
    ensures HoldsAll(q[lo..hi], v)
  {
    forall k | 0 <= k < hi - lo ensures Holds(q[lo..hi][k], v) {
      assert q[lo..hi][k] == q[lo + k];
    }
  }

  /** A valuation satisfies two lists joined exactly when it satisfies both. */
  lemma HoldsAppend(a: seq<Cond>, b: seq<Cond>, v: Valuation)
    requires HoldsAll(a + b, v)
    ensures HoldsAll(a, v) && HoldsAll(b, v)
  {
    forall k | 0 <= k < |a| ensures Holds(a[k], v) {
      assert a[k] == (a + b)[k];
    }
    forall k | 0 <= k < |b| ensures Holds(b[k], v) {
      assert b[k] == (a + b)[|a| + k];
    }
  }

  /**
   * Any valuation satisfying the query makes the call send more than the
   * attacker has sent in total, counted without wrap-around, to the sender.
   */
  lemma QueryMeaning(cs: seq<Cond>, txs: seq<Transaction>, callValue: Word, target: Word, sender: Word, v: Valuation)
    requires HoldsAll(ThiefQuery(cs, txs, callValue, target, sender), v)
    ensures HoldsAll(cs, v)
    ensures Eval(callValue, v) > AttackerSent(txs, v)
    ensures Eval(target, v) == Eval(sender, v)
  {
    var g := OverflowGuards(txs);
    var last := [Ugt(callValue, AttackerTotal(txs)), Equals(target, sender)];
    HoldsAppend(cs + g, last, v);
    HoldsAppend(cs, g, v);
    assert Holds(last[0], v) && Holds(last[1], v);
    TotalIsExact(txs, v);
  }

  const ThiefHead := "Anyone can withdraw ETH from the contract account."
  const ThiefTail :=
    "Arbitrary senders other than the contract creator can withdraw ETH from the contract"
    + " account without previously having sent an equivalent amount of ETH to it. This is likely to be"
    + " a vulnerability."

  function ThiefIssue(state: GlobalState, debug: string): (r: Issue)
    ensures r.severity == High && r.title == "Unprotected Ether Withdrawal"
    ensures r.swcId == SwcData.UnprotectedEtherWithdrawal && r.debug == debug
    ensures r.address == state.instruction.address
  {
    IssueAt(state, SwcData.UnprotectedEtherWithdrawal, "Unprotected Ether Withdrawal", High,
            ThiefHead, ThiefTail, debug)
  }

  /**
   * What `_analyze_state` returns and what the cache becomes: nothing for an
   * instruction other than CALL or for a cached address; otherwise one High
   * issue and the address cached when the query has a transaction sequence,
   * and nothing, with the cache unchanged, when it has none.
   */
  function ThiefOutcome(state: GlobalState, cs: seq<Cond>, stack: seq<StackItem>, cache: set<nat>,
                        sequence: SequenceOracle): (r: (seq<Issue>, set<nat>))
    requires state.instruction.opcode == "CALL" ==> |stack| >= 3
    ensures |r.0| <= 1 && cache <= r.1
    ensures r.0 == [] <==> r.1 == cache
    ensures r.0 != [] ==> r.1 == cache + {state.instruction.address} && state.instruction.address !in cache
    ensures r.0 != [] <==>
      state.instruction.opcode == "CALL" && state.instruction.address !in cache
      && sequence(ThiefQuery(cs, state.transactionSequence, WordOf(Peek(stack, 3)), WordOf(Peek(stack, 2)),
                             state.environment.sender)).Some?
    ensures r.0 != [] ==>
      r.0 == [ThiefIssue(state, sequence(ThiefQuery(cs, state.transactionSequence, WordOf(Peek(stack, 3)),
                                                    WordOf(Peek(stack, 2)), state.environment.sender)).value)]
  {
    if state.instruction.opcode != "CALL" || state.instruction.address in cache then ([], cache)
    else
      var query := ThiefQuery(cs, state.transactionSequence, WordOf(Peek(stack, 3)), WordOf(Peek(stack, 2)),
                              state.environment.sender);
      match sequence(query)
      case None => ([], cache)
      case Some(debug) => ([ThiefIssue(state, debug)], cache + {state.instruction.address})
  }

  /** The module's `DESCRIPTION`, blank lines and trailing space included. */
  const ThiefDescription :=
    "\n\nSearch for cases where Ether can be withdrawn to a user-specified address. \n\n"
    + "An issue is reported if:\n\n"
    + "- The transaction sender does not match contract creator;\n"
    + "- The sender address can be chosen arbitrarily;\n"
    + "- The receiver address is identical to the sender address;\n"
    + "- The sender can withdraw *more* than the total amount they sent over all transactions.\n\n"

  class EtherThief {
    const base: Base.DetectionModule
    /** `_cache_addresses`: the addresses that have given an issue. */
    var cacheAddresses: set<nat>

    constructor ()
      ensures fresh(base) && base.issues == [] && cacheAddresses == {}
      ensures base.swcId == SwcData.UnprotectedEtherWithdrawal && base.preHooks == ["CALL"]
      ensures base.description == ThiefDescription
    {
      base := new Base.DetectionModule("Ether Thief", SwcData.UnprotectedEtherWithdrawal,
        ThiefDescription, "callback", Some(["CALL"]), None);
      cacheAddresses := {};
    }

    /** `reset_module`: clears the issues and the cache. */
    method ResetModule()
      modifies this, base
      ensures base.issues == [] && cacheAddresses == {}
    {
      base.ResetModule();
      cacheAddresses := {};
    }

    /**
     * `_analyze_state`: nothing for an instruction other than CALL or for a
     * cached address; otherwise one High issue when the query has a transaction
     * sequence (and the address is cached), none when it has not. The node's
     * own constraints are not changed: the query is built on a copy.
     */
    method AnalyzeState(state: GlobalState, sequence: SequenceOracle) returns (issues: seq<Issue>)
      requires state.instruction.opcode == "CALL" ==> |state.mstate.stack| >= 3
      modifies this`cacheAddresses
      ensures (issues, cacheAddresses) ==
        ThiefOutcome(state, state.node.constraints.items, state.mstate.stack, old(cacheAddresses), sequence)
    {
      var instruction := state.instruction;
      var node := state.node;
      if instruction.opcode != "CALL" {
        return [];
      }
      var address := instruction.address;
      if address in cacheAddresses {
        return [];
      }
      var callValue := WordOf(Peek(state.mstate.stack, 3));
      var target := WordOf(Peek(state.mstate.stack, 2));
      var ethSentTotal := Lit(0);
      var constraints := node.constraints.Copy();
      var txs := state.transactionSequence;
      for k := 0 to |txs|
        invariant fresh(constraints) && cacheAddresses == old(cacheAddresses)
        invariant ethSentTotal == AttackerTotal(txs[..k])
        invariant constraints.items == node.constraints.items + OverflowGuards(txs[..k])
      {
        assert txs[..k + 1][..k] == txs[..k];
        if IsAttacker(txs[k]) {
          constraints := constraints.IAdd([NoAddOverflow(ethSentTotal, txs[k].callValue)]);
          ethSentTotal := Sum(ethSentTotal, txs[k].callValue);
        }
      }
      assert txs[..|txs|] == txs;
      constraints := constraints.IAdd([Ugt(callValue, ethSentTotal), Equals(target, state.environment.sender)]);
      assert constraints.items == ThiefQuery(node.constraints.items, txs, callValue, target, state.environment.sender);
      match sequence(constraints.items)
      case None =>
        return [];
      case Some(debug) =>
        var issue := ThiefIssue(state, debug);
        cacheAddresses := cacheAddresses + {address};
        return [issue];
    }

    /** `execute`: the issues of this state are added to the module's list, which is returned. */
    method Execute(state: GlobalState, sequence: SequenceOracle) returns (r: seq<Issue>)
      requires state.instruction.opcode == "CALL" ==> |state.mstate.stack| >= 3
      modifies this, base
      ensures var outcome := ThiefOutcome(state, state.node.constraints.items, state.mstate.stack,
                                          old(cacheAddresses), sequence);
        base.issues == old(base.issues) + outcome.0 && cacheAddresses == outcome.1
      ensures r == base.issues
    {
      ghost var outcome := ThiefOutcome(state, state.node.constraints.items, state.mstate.stack, cacheAddresses, sequence);
      var found := AnalyzeState(state, sequence);
      assert found == outcome.0;
      assert this as object != base as object;
      r := base.Extend(found);
    }
  }
}
