/**
 * Symbolic 256-bit expressions and constraints, reduced to what the detectors
 * build and inspect. An expression the detectors do not take apart is known by
 * its printed form (`str(expr)`), which is what their textual checks look at.
 * The SMT solver is not modelled: it is passed to each detector as an oracle.
 */
module Smt {
  import opened Wrappers
  import opened Text

  /** 2^256, the size of the EVM word domain. */
  const Modulus: nat := 0x1_0000_0000_0000_0000_0000_0000_0000_0000_0000_0000_0000_0000_0000_0000_0000_0000

  /** The attacker sentinel address used as a transaction sender by the engine. */
  const Attacker: nat := 0xDEAD_BEEF_DEAD_BEEF_DEAD_BEEF_DEAD_BEEF_DEAD_BEEF

  /** A 256-bit bit-vector expression. */
  datatype Word =
    | Lit(value: nat)              // `symbol_factory.BitVecVal(value, 256)`
    | Sym(text: string)            // any other expression, known by its printed form
    | Sum(lhs: Word, rhs: Word)    // wrap-around addition (`Sum`, `+`)

  /** A boolean constraint. */
  datatype Cond =
    | Atom(text: string)                       // a path constraint, known by its printed form
    | NoAddOverflow(a: Word, b: Word)          // `BVAddNoOverflow(a, b, False)`
    | NoMulOverflow(a: Word, b: Word)          // `BVMulNoOverflow(a, b, False)`
    | NoSubUnderflow(a: Word, b: Word)         // `BVSubNoUnderflow(a, b, False)`
    | Ugt(a: Word, b: Word)                    // `UGT(a, b)`
    | Equals(a: Word, b: Word)                 // `a == b`
    | Not(c: Cond)                             // `Not(c)`

  /** The printed form of an expression, as `str()` gives it. */
  function ShowWord(w: Word): string {
    match w
    case Lit(v) => NatToString(v % Modulus)
    case Sym(t) => t
    case Sum(a, b) => ShowWord(a) + " + " + ShowWord(b)
  }

  function ShowCond(c: Cond): string {
    match c
    case Atom(t) => t
    case NoAddOverflow(a, b) => "bvadd_noovfl(" + ShowWord(a) + ", " + ShowWord(b) + ")"
    case NoMulOverflow(a, b) => "bvmul_noovfl(" + ShowWord(a) + ", " + ShowWord(b) + ")"
    case NoSubUnderflow(a, b) => "bvsub_noudfl(" + ShowWord(a) + ", " + ShowWord(b) + ")"
    case Ugt(a, b) => "UGT(" + ShowWord(a) + ", " + ShowWord(b) + ")"
    case Equals(a, b) => ShowWord(a) + " == " + ShowWord(b)
    case Not(d) => "Not(" + ShowCond(d) + ")"
  }

  /** An assignment of values to the expressions known only by their printed form. */
  datatype Valuation = Valuation(words: string -> nat, atoms: string -> bool)

  /** The 256-bit value of an expression under a valuation. */
  function Eval(w: Word, v: Valuation): (r: nat)
    ensures r < Modulus
  {
    match w
    case Lit(n) => n % Modulus
    case Sym(t) => v.words(t) % Modulus
    case Sum(a, b) => (Eval(a, v) + Eval(b, v)) % Modulus
  }

  predicate Holds(c: Cond, v: Valuation) {
    match c
    case Atom(t) => v.atoms(t)
    case NoAddOverflow(a, b) => Eval(a, v) + Eval(b, v) < Modulus
    case NoMulOverflow(a, b) => Eval(a, v) * Eval(b, v) < Modulus
    case NoSubUnderflow(a, b) => Eval(b, v) <= Eval(a, v)
    case Ugt(a, b) => Eval(a, v) > Eval(b, v)
    case Equals(a, b) => Eval(a, v) == Eval(b, v)
    case Not(d) => !Holds(d, v)
  }

  predicate HoldsAll(cs: seq<Cond>, v: Valuation) {
    forall k :: 0 <= k < |cs| ==> Holds(cs[k], v)
  }

  /** `solver.get_model(constraints)`: true when a model is found, false on `UnsatError`. */
  type ModelOracle = seq<Cond> -> bool

  /**
   * `solver.get_transaction_sequence(state, constraints)` for the state at hand,
   * already serialised with `json.dumps`; `None` stands for `UnsatError`.
   */
  type SequenceOracle = seq<Cond> -> Option<string>

  /** The answer of `Solver.check()`. */
  datatype CheckResult = Sat | Unsat | Unknown

  type CheckOracle = seq<Cond> -> CheckResult
}
