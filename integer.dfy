/**
 * The integer overflow and underflow detector. At ADD, MUL and SUB the top
 * operand is annotated with the state and the wrap condition when that
 * condition is satisfiable on the path. At SSTORE and JUMPI the annotations
 * carried by the stored value or the branch condition become issues, at most
 * one per address and kind until the module is reset.
 */
module Integer {
  import opened Wrappers
  import opened Text
  import opened Smt
  import opened Report
  import opened EvmState
  import SwcData
  import Base
  import Constraints

  predicate IsArithmeticOperator(operator: string) {
    operator == "addition" || operator == "multiplication" || operator == "subtraction"
  }

  /** `Not(BVAddNoOverflow(..))`, `Not(BVMulNoOverflow(..))` or `Not(BVSubNoUnderflow(..))` on op0, op1. */
  function WrapCondition(operator: string, op0: Word, op1: Word): Cond
    requires IsArithmeticOperator(operator)
  {
    if operator == "addition" then Not(NoAddOverflow(op0, op1))
    else if operator == "multiplication" then Not(NoMulOverflow(op0, op1))
    else Not(NoSubUnderflow(op0, op1))
  }

  /** The exact (unbounded) result of the operation on the operands' values. */
  function Exact(operator: string, a: nat, b: nat): int
    requires IsArithmeticOperator(operator)
  {
    if operator == "addition" then a + b
    else if operator == "multiplication" then a * b
    else a - b
  }

  /** The wrap condition holds exactly when the 256-bit result differs from the exact result. */
  lemma WrapConditionMeaning(operator: string, op0: Word, op1: Word, v: Valuation)
    requires IsArithmeticOperator(operator)
    ensures Holds(WrapCondition(operator, op0, op1), v) <==> Wraps(Exact(operator, Eval(op0, v), Eval(op1, v)))
  {
    if operator == "subtraction" {
      SubHolds(op0, op1, v);
    } else if operator == "addition" {
      AddHolds(op0, op1, v);
    } else {
      MulHolds(op0, op1, v);
    }
  }

  lemma AddHolds(op0: Word, op1: Word, v: Valuation)
    ensures Holds(WrapCondition("addition", op0, op1), v)
      <==> Wraps(Exact("addition", Eval(op0, v), Eval(op1, v)))
  {
    assert WrapCondition("addition", op0, op1) == Not(NoAddOverflow(op0, op1));
    AddWrap(Eval(op0, v), Eval(op1, v));
  }

  lemma AddWrap(a: nat, b: nat)
    ensures Wraps(Exact("addition", a, b)) <==> a + b >= Modulus
  {
    assert Exact("addition", a, b) == a + b;
    Wrap(a + b);
  }

  lemma MulHolds(op0: Word, op1: Word, v: Valuation)
    ensures Holds(WrapCondition("multiplication", op0, op1), v)
      <==> Wraps(Exact("multiplication", Eval(op0, v), Eval(op1, v)))
  {
    assert WrapCondition("multiplication", op0, op1) == Not(NoMulOverflow(op0, op1));
    MulWrap(Eval(op0, v), Eval(op1, v));
  }

  lemma MulWrap(a: nat, b: nat)
    ensures Wraps(Exact("multiplication", a, b)) <==> a * b >= Modulus
  {
    var m := a * b;
    assert Exact("multiplication", a, b) == m;
    Wrap(m);
  }

  lemma SubHolds(op0: Word, op1: Word, v: Valuation)
    ensures Holds(WrapCondition("subtraction", op0, op1), v)
      <==> Wraps(Exact("subtraction", Eval(op0, v), Eval(op1, v)))
  {
    assert WrapCondition("subtraction", op0, op1) == Not(NoSubUnderflow(op0, op1));
    SubWrap(Eval(op0, v), Eval(op1, v));
  }

  /** The 256-bit result of an operation differs from its exact result. */
  predicate Wraps(e: int) {
    e % Modulus != e
  }

  /** A non-negative exact result is kept exactly when it is below 2^256. */
  lemma Wrap(e: int)
    requires e >= 0
    ensures Wraps(e) <==> e >= Modulus
  {
    if e < Modulus {
      assert e == 0 * Modulus + e;
    }
  }

  /** A difference of two 256-bit values is kept exactly when it is not negative. */
  lemma SubWrap(a: nat, b: nat)
    requires a < Modulus && b < Modulus
    ensures Wraps(Exact("subtraction", a, b)) <==> a < b
  {
    assert Exact("subtraction", a, b) == a - b;
    if a < b {
      assert a - b + Modulus >= 0;
      assert (a - b) % Modulus == a - b + Modulus;
    } else {
      Wrap(a - b);
    }
  }

  /** `_make_bitvec_if_not` on one entry: a Python `int` becomes the 256-bit value of the same number. */
  function AsBitVec(item: StackItem): (r: StackItem)
    ensures r.BitVec? && WordOf(r) == WordOf(item)
    ensures item.BitVec? ==> r == item
    ensures item.Int? ==> r.annotations == []
  {
    match item
    case Int(n) => BitVec(Lit(n % Modulus), [])
    case BitVec(_, _) => item
  }

  /** `"Underflow" if annotation.operator == "subtraction" else "Overflow"`. */
  function Kind(operator: string): string {
    if operator == "subtraction" then "Underflow" else "Overflow"
  }

  const OverflowTitle := "Integer Overflow"
  const UnderflowTitle := "Integer Underflow"

  /** `_get_title`. */
  function Title(kind: string): string {
    "Integer " + kind
  }

  /** The title names an underflow exactly for a subtraction, and an overflow otherwise. */
  lemma TitleOfOperator(operator: string)
    ensures Title(Kind(operator)) == UnderflowTitle <==> operator == "subtraction"
    ensures Title(Kind(operator)) == OverflowTitle <==> operator != "subtraction"
  {
    assert UnderflowTitle[8] != OverflowTitle[8];
  }

  /** `_get_description_head`. */
  function DescriptionHead(operator: string, kind: string): (r: string)
    ensures StartsWith(r, "The binary " + operator)
    ensures kind == "Overflow" ==> r == "The binary " + operator + " can overflow."
    ensures kind == "Underflow" ==> r == "The binary " + operator + " can underflow."
  {
    "The binary " + operator + " can " + Lower(kind) + "."
  }

  /** `_get_description_tail`. */
  function DescriptionTail(operator: string, kind: string): string {
    var k := Lower(kind);
    "The operands of the " + operator + " operation are not sufficiently constrained. The "
    + operator + " could therefore result in an integer " + k + ". Prevent the " + k
    + " by checking inputs or ensure sure that the " + k + " is caught by an assertion."
  }

  /**
   * The issue an annotation gives at SSTORE or JUMPI: located where the
   * operation wraps (contract, function, address, bytecode of the annotated
   * state), with the gas bounds of the current state.
   */
  function IntegerIssue(a: Annotation, state: GlobalState, debug: string): (r: Issue)
    requires a.OverUnderflow?
    ensures r.title == Title(Kind(a.operator)) && r.severity == High
    ensures r.swcId == SwcData.IntegerOverflowAndUnderflow && r.debug == debug
    ensures r.address == a.overflowingState.instruction.address
    ensures r.contract == a.overflowingState.node.contractName
    ensures r.functionName == a.overflowingState.node.functionName
    ensures r.minGasUsed == state.mstate.minGasUsed && r.maxGasUsed == state.mstate.maxGasUsed
  {
    var o := a.overflowingState;
    var kind := Kind(a.operator);
    NewIssue(o.node.contractName, o.node.functionName, o.instruction.address,
             SwcData.IntegerOverflowAndUnderflow, Title(kind), o.environment.bytecode,
             (state.mstate.minGasUsed, state.mstate.maxGasUsed), High,
             DescriptionHead(a.operator, kind), DescriptionTail(a.operator, kind), debug)
  }

  /** `_overflow_cache` and `_underflow_cache`: the addresses that have given an issue of each kind. */
  datatype Caches = Caches(overflow: set<nat>, underflow: set<nat>)

  /** Whether the cache of the annotation's kind already marks its address. */
  predicate Cached(a: Annotation, c: Caches)
    requires a.OverUnderflow?
  {
    var address := a.overflowingState.instruction.address;
    if a.operator == "subtraction" then address in c.underflow else address in c.overflow
  }

  function Mark(a: Annotation, c: Caches): (r: Caches)
    requires a.OverUnderflow?
    ensures Cached(a, r)
  {
    var address := a.overflowingState.instruction.address;
    if a.operator == "subtraction" then c.(underflow := c.underflow + {address})
    else c.(overflow := c.overflow + {address})
  }

  /** The constraint lists of the nodes of the annotated states, which the report queries. */
  function Footprint(anns: seq<Annotation>): set<Constraints.Constraints> {
    set a | a in anns && a.OverUnderflow? :: a.overflowingState.node.constraints
  }

  /** None of the constraint lists is the given object. */
  ghost predicate Apart(s: set<Constraints.Constraints>, m: object) {
    forall o :: o in s ==> o as object != m
  }

  /** The constraint list one annotation's query reads. */
  function Footprint1(a: Annotation): set<Constraints.Constraints> {
    if a.OverUnderflow? then {a.overflowingState.node.constraints} else {}
  }

  /** The query of one annotation: its node's constraints, then the wrap condition. */
  function ReportQuery(a: Annotation): (q: seq<Cond>)
    requires a.OverUnderflow?
    reads a.overflowingState.node.constraints`items
    ensures |q| == |a.overflowingState.node.constraints.items| + 1 && q[|q| - 1] == a.constraint
  {
    a.overflowingState.node.constraints.items + [a.constraint]
  }

  /**
   * One step of the SSTORE/JUMPI loop: an annotation of another type or of a
   * cached address is skipped; otherwise the query is the annotated node's
   * constraints plus the wrap condition, and a transaction sequence marks the
   * address and adds one issue, while none changes nothing.
   */
  function ReportStep(a: Annotation, state: GlobalState, acc: (seq<Issue>, Caches),
                      sequence: SequenceOracle): (r: (seq<Issue>, Caches))
    reads Footprint1(a)`items
    ensures r == acc || (a.OverUnderflow? && !Cached(a, acc.1) && Cached(a, r.1))
    ensures acc.0 <= r.0 && |r.0| <= |acc.0| + 1
    ensures a.OverUnderflow? && !Cached(a, acc.1) && sequence(ReportQuery(a)).Some? ==>
      r == (acc.0 + [IntegerIssue(a, state, sequence(ReportQuery(a)).value)], Mark(a, acc.1))
    ensures !a.OverUnderflow? || Cached(a, acc.1) || sequence(ReportQuery(a)).None? ==> r == acc
  {
    if !a.OverUnderflow? || Cached(a, acc.1) then acc
    else
      match sequence(ReportQuery(a))
      case None => acc
      case Some(debug) => (acc.0 + [IntegerIssue(a, state, debug)], Mark(a, acc.1))
  }

  /** The SSTORE/JUMPI loop over the annotations, in order, from the issues and caches it starts with. */
  function ReportFold(anns: seq<Annotation>, state: GlobalState, acc: (seq<Issue>, Caches),
                      sequence: SequenceOracle): (r: (seq<Issue>, Caches))
    reads Footprint(anns)`items
    ensures acc.0 <= r.0 && |r.0| <= |acc.0| + |anns|
  {
    if anns == [] then acc
    else
      var init := anns[..|anns| - 1];
      assert Footprint(init) <= Footprint(anns);
      assert Footprint1(anns[|anns| - 1]) <= Footprint(anns);
      ReportStep(anns[|anns| - 1], state, ReportFold(init, state, acc, sequence), sequence)
  }

  /** The cache an issue's title belongs to marks the issue's address. */
  predicate CachedFor(issue: Issue, c: Caches) {
    if issue.title == UnderflowTitle then issue.address in c.underflow else issue.address in c.overflow
  }

  /**
   * The module's invariant between resets: every issue is an overflow or an
   * underflow, its address is marked in that kind's cache, and no two issues
   * share an address and a kind.
   */
  ghost predicate OnePerAddress(issues: seq<Issue>, c: Caches) {
    (forall k :: 0 <= k < |issues| ==>
      (issues[k].title == OverflowTitle || issues[k].title == UnderflowTitle) && CachedFor(issues[k], c))
    && (forall i, j :: 0 <= i < j < |issues| ==>
      issues[i].address != issues[j].address || issues[i].title != issues[j].title)
  }

  /** Caches only grow, so what they marked stays marked. */
  lemma OnePerAddressGrow(issues: seq<Issue>, c: Caches, d: Caches)
    requires OnePerAddress(issues, c)
    requires c.overflow <= d.overflow && c.underflow <= d.underflow
    ensures OnePerAddress(issues, d)
  {
    forall k | 0 <= k < |issues| ensures CachedFor(issues[k], d) {
      assert CachedFor(issues[k], c);
    }
  }

  /** Adding the issue of an unmarked annotation and marking it keeps the invariant. */
  lemma OnePerAddressStep(issues: seq<Issue>, c: Caches, a: Annotation, state: GlobalState, debug: string)
    requires a.OverUnderflow? && !Cached(a, c)
    requires OnePerAddress(issues, c)
    ensures OnePerAddress(issues + [IntegerIssue(a, state, debug)], Mark(a, c))
  {
    var issue := IntegerIssue(a, state, debug);
    var all := issues + [issue];
    var d := Mark(a, c);
    TitleOfOperator(a.operator);
    OnePerAddressGrow(issues, c, d);
    forall i | 0 <= i < |issues|
      ensures issues[i].address != issue.address || issues[i].title != issue.title
    {
      assert CachedFor(issues[i], c);
    }
    assert CachedFor(issue, d);
    forall k | 0 <= k < |all| ensures CachedFor(all[k], d) {
      if k < |issues| { assert all[k] == issues[k]; }
    }
  }

  /** The report loop keeps the invariant: at most one issue per address and kind. */
  lemma {:induction false} ReportFoldKeepsOnePerAddress(anns: seq<Annotation>, state: GlobalState,
                                                       acc: (seq<Issue>, Caches), sequence: SequenceOracle)
    requires OnePerAddress(acc.0, acc.1)
    ensures var r := ReportFold(anns, state, acc, sequence); OnePerAddress(r.0, r.1)
  {
    if anns != [] {
      var init := anns[..|anns| - 1];
      assert Footprint(init) <= Footprint(anns);
      assert Footprint1(anns[|anns| - 1]) <= Footprint(anns);
      var prev := ReportFold(init, state, acc, sequence);
      ReportFoldKeepsOnePerAddress(init, state, acc, sequence);
      var a := anns[|anns| - 1];
      if a.OverUnderflow? && !Cached(a, prev.1) {
        match sequence(a.overflowingState.node.constraints.items + [a.constraint])
        case None =>
        case Some(debug) =>
          OnePerAddressStep(prev.0, prev.1, a, state, debug);
      }
    }
  }

  /**
   * The stack after ADD, MUL or SUB: the two operands are made 256-bit values in
   * place, and the top one is annotated with the state, the operator and the
   * wrap condition when the path allows the wrap. Nothing else changes.
   */
  function ArithmeticStack(stack: seq<StackItem>, state: GlobalState, operator: string, path: seq<Cond>,
                           model: ModelOracle): (r: seq<StackItem>)
    requires |stack| >= 2 && IsArithmeticOperator(operator)
    ensures |r| == |stack| && r[..|r| - 2] == stack[..|stack| - 2]
    ensures r[|r| - 2] == AsBitVec(stack[|r| - 2])
    ensures r[|r| - 1].BitVec? && WordOf(r[|r| - 1]) == WordOf(stack[|r| - 1])
    ensures var c := WrapCondition(operator, WordOf(stack[|r| - 1]), WordOf(stack[|r| - 2]));
      r[|r| - 1].annotations ==
        AsBitVec(stack[|r| - 1]).annotations + if model(path + [c]) then [OverUnderflow(state, operator, c)] else []
  {
    var n := |stack|;
    var op0, op1 := AsBitVec(stack[n - 1]), AsBitVec(stack[n - 2]);
    var c := WrapCondition(operator, op0.word, op1.word);
    var top := if model(path + [c]) then op0.(annotations := op0.annotations + [OverUnderflow(state, operator, c)]) else op0;
    stack[..n - 2] + [op1, top]
  }

  const ModuleDescription :=
    "For every SUB instruction, check if there's a possible state where op1 > op0. For every ADD, MUL "
    + "instruction, check if there's a possible state where op1 + op0 > 2^32 - 1"

  class IntegerOverflowUnderflowModule {
    const base: Base.DetectionModule
    var overflowCache: set<nat>
    var underflowCache: set<nat>

    function CurrentCaches(): Caches
      reads this
    {
      Caches(overflowCache, underflowCache)
    }

    ghost predicate Valid()
      reads this, base
    {
      OnePerAddress(base.issues, CurrentCaches())
    }

    constructor ()
      ensures fresh(base) && base.issues == [] && overflowCache == {} && underflowCache == {}
      ensures base.swcId == SwcData.IntegerOverflowAndUnderflow && base.entrypoint == "callback"
      ensures base.preHooks == ["ADD", "MUL", "SUB", "SSTORE", "JUMPI"]
      ensures Valid()
    {
      base := new Base.DetectionModule("Integer Overflow and Underflow", SwcData.IntegerOverflowAndUnderflow,
        ModuleDescription,
        "callback", Some(["ADD", "MUL", "SUB", "SSTORE", "JUMPI"]), None);
      overflowCache := {};
      underflowCache := {};
    }

    /** `reset_module`: clears the issues and both caches. */
    method ResetModule()
      modifies this, base
      ensures base.issues == [] && overflowCache == {} && underflowCache == {}
      ensures Valid()
    {
      base.ResetModule();
      overflowCache := {};
      underflowCache := {};
    }

    /**
     * `_make_bitvec_if_not(stack, -k)`: a 256-bit entry is returned as it is;
     * a Python `int` is replaced in place by the 256-bit value of the same
     * number, which is returned. No other entry changes.
     */
    static method MakeBitvecIfNot(mstate: MachineState, k: nat) returns (r: StackItem)
      requires 1 <= k <= |mstate.stack|
      modifies mstate
      ensures |mstate.stack| == |old(mstate.stack)|
      ensures r == AsBitVec(old(mstate.stack)[|mstate.stack| - k])
      ensures old(mstate.stack)[|mstate.stack| - k].BitVec? ==> mstate.stack == old(mstate.stack)
      ensures mstate.stack == old(mstate.stack)[|mstate.stack| - k := r]
    {
      var index := |mstate.stack| - k;
      var value := mstate.stack[index];
      if value.BitVec? {
        return value;
      }
      mstate.stack := mstate.stack[index := BitVec(Lit(value.n % Modulus), [])];
      r := mstate.stack[index];
    }

    /**
     * `_handle_add`, `_handle_mul`, `_handle_sub`: both operands are made
     * 256-bit values; when the path together with the wrap condition has a
     * model, op0 is annotated with this state, the operator and the condition.
     */
    static method HandleArithmetic(state: GlobalState, operator: string, model: ModelOracle)
      requires |state.mstate.stack| >= 2 && IsArithmeticOperator(operator)
      modifies state.mstate
      ensures state.mstate.stack ==
        ArithmeticStack(old(state.mstate.stack), state, operator, state.node.constraints.items, model)
    {
      var mstate := state.mstate;
      ghost var s0 := mstate.stack;
      var op0 := MakeBitvecIfNot(mstate, 1);
      var op1 := MakeBitvecIfNot(mstate, 2);
      var c := WrapCondition(operator, op0.word, op1.word);
      var n := |mstate.stack|;
      assert mstate.stack == s0[..n - 2] + [op1, op0];
      ghost var path := state.node.constraints.items;
      if !model(state.node.constraints.items + [c]) {
        assert ArithmeticStack(s0, state, operator, path, model) == s0[..n - 2] + [op1, op0];
        return;
      }
      var top := op0.(annotations := op0.annotations + [OverUnderflow(state, operator, c)]);
      mstate.stack := mstate.stack[n - 1 := top];
      assert mstate.stack == s0[..n - 2] + [op1, top] == ArithmeticStack(s0, state, operator, path, model);
    }

    /** One pass of the loop of `_handle_sstore` and `_handle_jumpi`, as `ReportStep` says. */
    method ReportAnnotation(state: GlobalState, a: Annotation, sequence: SequenceOracle)
      modifies this`overflowCache, this`underflowCache, base`issues
      ensures (base.issues, CurrentCaches()) == ReportStep(a, state, (old(base.issues), old(CurrentCaches())), sequence)
    {
      assert this as object != base as object;
      if !a.OverUnderflow? {
        return;
      }
      var ostate := a.overflowingState;
      var address := ostate.instruction.address;
      if a.operator == "subtraction" && address in underflowCache {
        return;
      }
      if a.operator != "subtraction" && address in overflowCache {
        return;
      }
      var answer := sequence(ostate.node.constraints.items + [a.constraint]);
      if answer.None? {
        return;
      }
      var issue := IntegerIssue(a, state, answer.value);
      if a.operator == "subtraction" {
        underflowCache := underflowCache + {address};
      } else {
        overflowCache := overflowCache + {address};
      }
      base.issues := base.issues + [issue];
    }

    /**
     * The loop of `_handle_sstore` and `_handle_jumpi` over the annotations of
     * the value: the issues and caches become what `ReportFold` says.
     */
    method ReportAnnotations(state: GlobalState, anns: seq<Annotation>, sequence: SequenceOracle)
      modifies this`overflowCache, this`underflowCache, base`issues
      ensures (base.issues, CurrentCaches()) == ReportFold(anns, state, (old(base.issues), old(CurrentCaches())), sequence)
    {
      ghost var acc := (base.issues, CurrentCaches());
      for k := 0 to |anns|
        invariant (base.issues, CurrentCaches()) == ReportFold(anns[..k], state, acc, sequence)
      {
        assert anns[..k + 1][..k] == anns[..k] && anns[..k + 1][k] == anns[k];
        assert Apart(Footprint(anns[..k + 1]), base);
        ReportAnnotation(state, anns[k], sequence);
      }
      assert anns[..|anns|] == anns;
    }

    /**
     * `execute`: nothing when either cache marks the current address; ADD, MUL
     * and SUB annotate the stack; SSTORE and JUMPI report the annotations of
     * the value below the top (SSTORE ignores a Python `int` there, JUMPI raises
     * `AttributeError` on one); any other opcode does nothing. Between resets
     * there is at most one issue per address and kind.
     */
    method Execute(state: GlobalState, model: ModelOracle, sequence: SequenceOracle) returns (r: Outcome)
      requires state.instruction.opcode in ["ADD", "MUL", "SUB", "SSTORE", "JUMPI"] ==> |state.mstate.stack| >= 2
      modifies this, base, state.mstate
      ensures old(Valid()) ==> Valid()
      ensures r.Fail? ==> r.error == AttributeError
      ensures var address, opcode := state.instruction.address, state.instruction.opcode;
        address in old(overflowCache) || address in old(underflowCache)
          || !(opcode in ["ADD", "MUL", "SUB", "SSTORE", "JUMPI"])
        ==> r == Pass && base.issues == old(base.issues) && CurrentCaches() == old(CurrentCaches())
            && state.mstate.stack == old(state.mstate.stack)
      ensures var address, opcode := state.instruction.address, state.instruction.opcode;
        address !in old(overflowCache) && address !in old(underflowCache) && opcode in ["ADD", "MUL", "SUB"]
        ==> r == Pass && base.issues == old(base.issues) && CurrentCaches() == old(CurrentCaches())
            && state.mstate.stack == ArithmeticStack(old(state.mstate.stack), state, OperatorOf(opcode),
                                                     state.node.constraints.items, model)
      ensures var address, opcode := state.instruction.address, state.instruction.opcode;
        address !in old(overflowCache) && address !in old(underflowCache) && opcode in ["SSTORE", "JUMPI"]
        ==> state.mstate.stack == old(state.mstate.stack)
            && var value := Peek(old(state.mstate.stack), 2);
               if value.Int? then
                 r == (if opcode == "JUMPI" then Fail(AttributeError) else Pass)
                 && base.issues == old(base.issues) && CurrentCaches() == old(CurrentCaches())
               else
                 r == Pass && (base.issues, CurrentCaches()) ==
                   ReportFold(value.annotations, state, (old(base.issues), old(CurrentCaches())), sequence)
    {
      ghost var before := base.issues;
      ghost var caches := CurrentCaches();
      var address := state.instruction.address;
      var opcode := state.instruction.opcode;
      r := Pass;
      if address in overflowCache || address in underflowCache {
        return;
      }
      if opcode == "ADD" || opcode == "MUL" || opcode == "SUB" {
        HandleArithmetic(state, OperatorOf(opcode), model);
      } else if opcode == "SSTORE" || opcode == "JUMPI" {
        var value := Peek(state.mstate.stack, 2);
        if value.Int? {
          if opcode == "JUMPI" {
            r := Fail(AttributeError);
          }
          return;
        }
        ReportAnnotations(state, value.annotations, sequence);
        if OnePerAddress(before, caches) {
          ReportFoldKeepsOnePerAddress(value.annotations, state, (before, caches), sequence);
        }
      }
    }
  }

  /** The operator name the arithmetic handlers record for an opcode. */
  function OperatorOf(opcode: string): (operator: string)
    requires opcode in ["ADD", "MUL", "SUB"]
    ensures IsArithmeticOperator(operator)
    ensures operator == "subtraction" <==> opcode == "SUB"
  {
    if opcode == "ADD" then "addition" else if opcode == "MUL" then "multiplication" else "subtraction"
  }
}
