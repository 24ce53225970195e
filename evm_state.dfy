/**
 * The parts of the symbolic engine's state that the detectors read: the
 * current instruction, the machine stack, the CFG node with its path
 * constraints, the environment, the transaction sequence, and the call
 * description built from a call instruction. Only the fields the detectors
 * touch are kept.
 */
module EvmState {
  import opened Wrappers
  import opened Smt
  import opened Report
  import Constraints

  /** An entry of the instruction list: `{"opcode": ..., "address": ...}`. */
  datatype Instruction = Instruction(opcode: string, address: nat)

  /** `OverUnderflowAnnotation`: the state where an arithmetic operation may wrap, and the wrap condition. */
  datatype Annotation =
    | OverUnderflow(overflowingState: GlobalState, operator: string, constraint: Cond)
    | OtherAnnotation(kind: string)

  /** A machine-stack entry: a Python `int`, or a 256-bit expression with its annotations. */
  datatype StackItem = Int(n: int) | BitVec(word: Word, annotations: seq<Annotation>)

  /** The machine state: the stack is changed in place; the other fields are only read here. */
  class MachineState {
    var stack: seq<StackItem>
    /** Memory, known by the words stored at each offset; unwritten offsets hold zero. */
    const memory: map<nat, Word>
    const pc: nat
    const minGasUsed: nat
    const maxGasUsed: nat

    constructor (stack: seq<StackItem>, memory: map<nat, Word>, pc: nat, minGasUsed: nat, maxGasUsed: nat)
      ensures this.stack == stack && this.memory == memory && this.pc == pc
      ensures this.minGasUsed == minGasUsed && this.maxGasUsed == maxGasUsed
    {
      this.stack := stack;
      this.memory := memory;
      this.pc := pc;
      this.minGasUsed := minGasUsed;
      this.maxGasUsed := maxGasUsed;
    }

    /** `memory[offset]`. */
    function MemoryAt(offset: nat): (w: Word)
      ensures offset !in memory ==> w == Lit(0)
    {
      if offset in memory then memory[offset] else Lit(0)
    }
  }

  /** A CFG node: the contract and function it belongs to, and its path-constraint list. */
  datatype Node = Node(contractName: string, functionName: string, constraints: Constraints.Constraints)

  /** The environment: the code's bytecode and instruction list, and the message sender. */
  datatype Environment = Environment(bytecode: string, sender: Word, instructionList: seq<Instruction>)

  /** A transaction of the world state's transaction sequence. */
  datatype Transaction = Transaction(caller: Word, callValue: Word)

  /** A global state, as far as the detectors look at it. */
  datatype GlobalState = GlobalState(
    instruction: Instruction,
    node: Node,
    mstate: MachineState,
    environment: Environment,
    transactionSequence: seq<Transaction>)

  /** The call `get_call_from_state` builds from a call instruction's state. */
  datatype Call = Call(state: GlobalState, to: Word, value: Word, callType: string)
  {
    /** `call.node`: the node of the calling state. */
    function node(): Node {
      state.node
    }
  }

  /** `get_variable`: a value is concrete when it is a literal, read back as a 256-bit value. */
  datatype Variable = Concrete(val: nat) | Symbolic(expr: Word)

  function GetVariable(w: Word): (v: Variable)
    ensures v.Concrete? <==> w.Lit?
    ensures v.Concrete? ==> v.val < Modulus && v.val == w.value % Modulus
  {
    if w.Lit? then Concrete(w.value % Modulus) else Symbolic(w)
  }

  /** A concrete value is the one every valuation gives the expression. */
  lemma GetVariableEval(w: Word, env: Valuation)
    ensures GetVariable(w).Concrete? ==> GetVariable(w).val == Eval(w, env)
  {
  }

  /** A stack entry as an expression: a Python `int` compared with or wrapped into a 256-bit value. */
  function WordOf(item: StackItem): (w: Word)
    ensures item.BitVec? ==> w == item.word
    ensures item.Int? ==> w == Lit(item.n % Modulus)
  {
    match item
    case Int(n) => Lit(n % Modulus)
    case BitVec(word, _) => word
  }

  /** `stack[-k]` for a stack of at least k entries. */
  function Peek(stack: seq<StackItem>, k: nat): StackItem
    requires 1 <= k <= |stack|
  {
    stack[|stack| - k]
  }

  predicate IsCallOpcode(opcode: string) {
    opcode == "CALL" || opcode == "DELEGATECALL" || opcode == "STATICCALL" || opcode == "CALLCODE"
  }

  /** Whether a transaction was sent by the attacker account the engine uses. */
  predicate IsAttacker(tx: Transaction) {
    tx.caller == Lit(Attacker)
  }

  /**
   * The issue every detector files against a state: its node's contract and
   * function, the current instruction's address, the code's bytecode and the
   * machine state's gas bounds.
   */
  function IssueAt(state: GlobalState, swcId: string, title: string, severity: Severity,
                   head: string, tail: string, debug: string): (r: Issue)
    ensures r.contract == state.node.contractName && r.functionName == state.node.functionName
    ensures r.address == state.instruction.address && r.swcId == swcId && r.title == title
    ensures r.severity == severity && r.description == head + "\n" + tail && r.debug == debug
    ensures r.minGasUsed == state.mstate.minGasUsed && r.maxGasUsed == state.mstate.maxGasUsed
  {
    NewIssue(state.node.contractName, state.node.functionName, state.instruction.address, swcId,
             title, state.environment.bytecode, (state.mstate.minGasUsed, state.mstate.maxGasUsed),
             severity, head, tail, debug)
  }

  /**
   * `state.annotate` / `state.get_annotations(T)` for one annotation type: the
   * annotations of that type attached to a state, in the order they were added.
   */
  class StateAnnotations<A> {
    var items: seq<A>

    constructor ()
      ensures items == []
    {
      items := [];
    }

    method Annotate(a: A)
      modifies this
      ensures items == old(items) + [a]
    {
      items := items + [a];
    }
  }
}
