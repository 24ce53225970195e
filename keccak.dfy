/**
 * The keccak function manager: a dictionary from the printed form of a keccak
 * result to the pair (result, argument) it was registered with.
 */
module Keccak {
  import opened Wrappers
  import opened Smt

  /** What `get_argument` answers for `expression` in `mapping`. */
  function ArgumentIn(mapping: map<string, (Word, Word)>, expression: Word): (r: Result<Word>)
    ensures r.Success? <==> ShowWord(expression) in mapping
    ensures r.Failure? ==> r.error == ValueError
  {
    var key := ShowWord(expression);
    if key in mapping then Success(mapping[key].1) else Failure(ValueError)
  }

  /** Registering `expression` answers `argument` for it, and for every other printed form as before. */
  lemma AddThenGet(mapping: map<string, (Word, Word)>, expression: Word, argument: Word, other: Word)
    ensures ArgumentIn(mapping[ShowWord(expression) := (expression, argument)], expression) == Success(argument)
    ensures ShowWord(other) != ShowWord(expression) ==>
      ArgumentIn(mapping[ShowWord(expression) := (expression, argument)], other) == ArgumentIn(mapping, other)
  {
  }

  class KeccakFunctionManager {
    /** `keccak_expression_mapping`. */
    var mapping: map<string, (Word, Word)>

    constructor ()
      ensures mapping == map[]
      ensures forall e :: !IsKeccak(e)
    {
      mapping := map[];
    }

    /** `is_keccak`: the printed form of the expression has been registered. */
    predicate IsKeccak(expression: Word)
      reads this
    {
      ShowWord(expression) in mapping
    }

    /** `get_argument`: the registered argument, or `ValueError` for an unregistered expression. */
    method GetArgument(expression: Word) returns (r: Result<Word>)
      ensures r == ArgumentIn(mapping, expression)
      ensures r.Success? <==> IsKeccak(expression)
    {
      if !IsKeccak(expression) {
        return Failure(ValueError);
      }
      r := Success(mapping[ShowWord(expression)].1);
    }

    /** `add_keccak`: registers (or overwrites) the entry under the printed form. */
    method AddKeccak(expression: Word, argument: Word)
      modifies this
      ensures mapping == old(mapping)[ShowWord(expression) := (expression, argument)]
      ensures ArgumentIn(mapping, expression) == Success(argument)
    {
      mapping := mapping[ShowWord(expression) := (expression, argument)];
      AddThenGet(old(mapping), expression, argument, expression);
    }
  }
}
