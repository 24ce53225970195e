# Mythril detection core in Dafny

This project models the vulnerability-detection layer of Mythril, a
symbolic-execution analyser for EVM bytecode, and the small data structures
that layer relies on. It also proves properties of the model.

The detectors covered are:

- dependence on predictable variables;
- unprotected Ether withdrawal ("ether thief");
- integer overflow and underflow;
- unprotected selfdestruct;
- external calls;
- unchecked call return values;
- multiple sends;
- reachable exceptions;
- deprecated operations;
- delegatecall proxy.

Each detector receives one explored state and returns zero or more issues.
Every detector module extends the issue list of its `DetectionModule` base
(modelled by composition), and several keep per-address caches or per-path
annotations that they update in place.

The supporting pieces are:

- the `Issue` record and the de-duplicating `Report`, with its sorted view and
  the SWC standard format;
- the path-constraint list `Constraints`, with its cached feasibility flag;
- account `Storage`, with read memoisation, and `Account` balances;
- the keccak expression map;
- the byte/word helpers of the precompiled contracts and their dispatch on
  addresses 1 to 4 (Ethereum Yellow Paper, Appendix E).

Symbolic expressions are a small term language (`Smt.Word`, `Smt.Cond`). It
has a printer (`ShowWord`, `ShowCond`), which stands for `str()`. It also has
a semantics (`Eval`, `Holds`) over a valuation of the symbols, with 256-bit
wrap-around written out. A literal `Lit(n)` stands for `BitVecVal(n, 256)`:
it evaluates, prints and reads back as n mod 2^256. The SMT solver is a
function-typed parameter, an oracle:

- `ModelOracle` stands for `get_model`;
- `SequenceOracle` stands for `get_transaction_sequence`: `Some(debug)` is the
  serialised transaction sequence and `None` is `UnsatError`;
- `CheckOracle` stands for `Solver.check`.

Python exceptions are values: `Result`/`Outcome` hold `NotImplementedError`,
`ValueError`, `AttributeError`, `IndexError` or `NativeContractException`.

The stateful parts are classes, and every field the source updates in place
is a field of the class:

- `Constraints`, `Storage`, `Account` and `KeccakFunctionManager`;
- `DetectionModule` and each detector module with its caches;
- the two annotation classes;
- `MachineState`, whose stack `_make_bitvec_if_not` rewrites;
- `Report`.

Each method states its new state exactly. Where the source computes by
looping, the model loops too, and each loop is proved against a function that
specifies it:

- `int_to_32bytes`;
- the `found` scan of the predictable-variable detector and its blockhash scan;
- the description loops;
- the retval loop;
- the SSTORE/JUMPI annotation loop;
- the SWC source list.

`extract32` has no loop (a slice padded with zeros): `Natives.Extract32` is
stated against the big-endian reader `Word32At`.

The blockhash check matches `blockhash\w+(\s-\s(\d+))*` exactly as the code
does. A constraint printed as `blockhash(blockNumber - 300)` is therefore not
reported with an offset:

- `\w` must follow "blockhash", and "(" is not a word character
  (`PredictableVars.NoMatchAtParen`);
- the test for "number" is case-sensitive, so "blockNumber" takes the
  storage-variable branch.

## Model

| member | source | states |
|---|---|---|
| Base.DetectionModule.constructor | mythril/analysis/modules/base.py:17-37 | missing hook lists become empty lists; the entry point is stored even when it is neither "post" nor "callback"; a new module has no issues |
| Base.DetectionModule.Issues | mythril/analysis/modules/base.py:39-44 | `issues` is the module's own list |
| Base.DetectionModule.ResetModule | mythril/analysis/modules/base.py:46-50 | after a reset the module has no issues |
| Base.DetectionModule.Execute | mythril/analysis/modules/base.py:52-58 | the base `execute` always fails with `NotImplementedError` |
| Base.DetectionModule.Extend | mythril/analysis/modules/exceptions.py:80-81 | `_issues.extend(found)` then `return self.issues`: the list grows by exactly `found` at its end, and the whole list is returned |
| Constraints.Constraints.constructor | mythril/laser/ethereum/state/constraints.py:17-29 | the list holds exactly the given constraints in order (empty when none is given); the cache is the given flag; the timeout is 100 |
| Constraints.Constraints.IsPossible | mythril/laser/ethereum/state/constraints.py:31-43 | a cached answer is returned unchanged; otherwise the answer is `check(items) != unsat` and it is cached; a sound cache stays sound; the list is unchanged |
| Constraints.Constraints.Append | mythril/laser/ethereum/state/constraints.py:45-51 | adds the constraint at the end and clears the cache |
| Constraints.Constraints.Pop | mythril/laser/ethereum/state/constraints.py:53-58 | always fails with `NotImplementedError` |
| Constraints.Constraints.AsList | mythril/laser/ethereum/state/constraints.py:60-65 | returns the elements in order |
| Constraints.Constraints.Copy | mythril/laser/ethereum/state/constraints.py:67-81 | a fresh list with equal elements and the same cached flag, so a sound cache stays sound in the copy |
| Constraints.Constraints.Add | mythril/laser/ethereum/state/constraints.py:83-90 | a fresh list that is the concatenation, with no cached flag; the original is unchanged |
| Constraints.Constraints.IAdd | mythril/laser/ethereum/state/constraints.py:92-100 | extends this list in place, clears the cache and returns this same object |
| Account.Storage.constructor | mythril/laser/ethereum/state/account.py:17-25 | empty storage with the given concreteness and address |
| Account.Storage.Get | mythril/laser/ethereum/state/account.py:27-52 | a stored key gives its value and changes nothing; a missing key with a truthy address that `int(address[2:], 16)` rejects raises `ValueError` and changes nothing; otherwise a missing key gives zero, concrete storage records nothing, and symbolic storage records the zero, after which `keys()` holds the key |
| Account.AddressRaisesExactly | mythril/laser/ethereum/state/account.py:31-33 | an address printed by `hex` never makes a read raise; "0x" does; no address or an empty one never does |
| Account.Storage.Set | mythril/laser/ethereum/state/account.py:54-55 | the key holds the new value; every other key is unchanged |
| Account.Account.constructor | mythril/laser/ethereum/state/account.py:68-100 | nonce 0, not deleted, empty code when none is given; the balance is the given one when truthy, otherwise the symbol `<address>_balance`; fresh storage for the address |
| Account.Account.SetBalance | mythril/laser/ethereum/state/account.py:105-110 | the balance is replaced |
| Account.Account.AddBalance | mythril/laser/ethereum/state/account.py:112-117 | the new balance is the 256-bit sum: under every valuation it evaluates to (old + added) mod 2^256 |
| Keccak.ArgumentIn | mythril/laser/ethereum/keccak.py:21-29 | succeeds exactly when the printed form is registered; otherwise the error is `ValueError` |
| Keccak.AddThenGet | mythril/laser/ethereum/keccak.py:31-38 | after registering e, its argument is the one given; an expression with another printed form gets the same answer as before |
| Keccak.KeccakFunctionManager.constructor | mythril/laser/ethereum/keccak.py:9-11 | the map is empty, so no expression is a keccak result |
| Keccak.KeccakFunctionManager.GetArgument | mythril/laser/ethereum/keccak.py:21-29 | succeeds exactly when `is_keccak` holds, with the registered argument; otherwise `ValueError` |
| Keccak.KeccakFunctionManager.AddKeccak | mythril/laser/ethereum/keccak.py:31-38 | only the entry under the printed form is overwritten, and `get_argument` then answers the argument |
| Natives.IntTo32Bytes | mythril/laser/ethereum/natives.py:25-37 | exactly 32 bytes whose big-endian value is i mod 2^256 |
| Natives.Extract32 | mythril/laser/ethereum/natives.py:40-51 | 0 when i is at or past the end; otherwise the big-endian value of the 32 bytes from i, zero-padded on the right; always below 2^256 |
| Natives.ZeroPadding | mythril/laser/ethereum/natives.py:49-50 | right-padding with n zero bytes multiplies the big-endian value by 256^n |
| Natives.Word32AtShort | mythril/laser/ethereum/natives.py:47-51 | a short tail reads as its own value shifted left by the missing bytes |
| Natives.Extract32OfIntTo32Bytes | mythril/laser/ethereum/natives.py:25-51 | `extract32(int_to_32bytes(x), 0) == x` for every 0 <= x < 2^256 |
| Natives.Ecrecover | mythril/laser/ethereum/natives.py:54-78 | empty when r or s is at least secp256k1n or v is not 27 or 28; otherwise empty when key recovery fails, and else 12 zero bytes followed by the last 20 bytes of the keccak of the recovered public key |
| Natives.Sha256 | mythril/laser/ethereum/natives.py:81-91 | the output is the SHA-256 digest of the input, 32 bytes long |
| Natives.Ripemd160 | mythril/laser/ethereum/natives.py:94-106 | 12 zero bytes followed by the 20-byte digest |
| Natives.Identity | mythril/laser/ethereum/natives.py:109-120 | returns its input unchanged |
| Natives.NativeContracts | mythril/laser/ethereum/natives.py:123-137 | symbolic calldata fails with `NativeContractException`; addresses 1 to 4 run ecrecover, sha256, ripemd160 and identity; by Python's negative indexing addresses -3 to 0 run them too; addresses outside -3..4 fail with `IndexError` |
| Report.NewIssue | mythril/analysis/report.py:20-75 | description is head + "\n" + tail; the gas pair splits into min and max; no code information yet; the bytecode hash is that of the hex-decoded bytecode |
| Report.FromHexToHex | mythril/analysis/report.py:63-70 | decoding the hex text of any byte string gives it back |
| Report.BytecodeHashOfPrefixed | mythril/analysis/report.py:63-70 | with a leading "0x", the hash is that of the decoded bytes |
| Report.BytecodeHashOfBare | mythril/analysis/report.py:63-70 | without the prefix, the hash is the same |
| Report.FromHexRejects | mythril/analysis/report.py:66-68 | `bytes.fromhex` fails on any text holding a character that is neither a hex digit nor whitespace |
| Report.BytecodeHashOfInvalid | mythril/analysis/report.py:63-75 | bytecode holding, after an optional "0x", a character that is neither a hex digit nor whitespace gets the empty hash |
| Report.AsDict | mythril/analysis/report.py:77-104 | filename and line only when both are truthy; code only when truthy; title, SWC id, contract, function, severity, address, description, debug, gas bounds and source mapping copied |
| Report.AddCodeInfo | mythril/analysis/report.py:106-120 | a non-zero address in a Solidity contract gets that address's file, code, line and solc mapping (constructor lookup when the function is "constructor"); otherwise the source mapping is the address and nothing else changes |
| Report.InsertKeepsOrder | mythril/analysis/report.py:147 | inserting into a list ordered by (address, title) keeps it ordered |
| Report.InsertAddsOne | mythril/analysis/report.py:147 | insertion adds exactly the one element |
| Report.SortByLocationCorrect | mythril/analysis/report.py:141-147 | the sorted view is ordered by (address, title) and is a permutation of the issues |
| Report.SortByLocationStable | mythril/analysis/report.py:141-147 | like Python's `sorted`, the sort is stable: the entries of each (address, title) keep their relative order |
| Report.FirstSeen | mythril/analysis/report.py:185-191 | the source list holds exactly the hashes seen, each once |
| Report.IndexOf | mythril/analysis/report.py:191 | the position of the first occurrence |
| Report.Report.constructor | mythril/analysis/report.py:130-139 | an empty report with the given verbosity |
| Report.Report.AppendIssue | mythril/analysis/report.py:149-156 | the issue is filed under contract + str(address) + title; an equal key replaces the earlier issue in its place; other entries are unchanged; keys stay distinct |
| Report.Report.SortedIssues | mythril/analysis/report.py:141-147 | ordered by (address, title), a permutation of the stored issues' dictionaries, one per stored issue, and exactly the stable sort `SortByLocation` of them |
| Report.Report.AsSwcStandardFormat | mythril/analysis/report.py:177-222 | one entry per stored issue in dictionary order; the source list holds each bytecode hash once in first-seen order; each sourceMap is "address:1:idx" with idx the hash's position in that list; an unknown SWC id gets "Unspecified Security Issue" |
| Report.Report.FileName | mythril/analysis/report.py:235-241 | the filename of the first stored issue, or none for an empty report |
| EvmState.IssueAt | mythril/analysis/modules/exceptions.py:40-52 | the issue a detector files at a state: its node's contract and function, the current address, and the state's gas bounds |
| EvmState.GetVariable | mythril/analysis/modules/delegatecall.py:58-60 | a value is concrete exactly when it is a literal, and then its value is the literal's value mod 2^256 |
| EvmState.GetVariableEval | mythril/analysis/modules/delegatecall.py:58-60 | a concrete value is the one every valuation gives the expression |
| PredictableVars.Occurrences | mythril/analysis/modules/dependence_on_predictable_vars.py:80-82 | one entry per text containing the variable, in text order |
| PredictableVars.FoundTracked | mythril/analysis/modules/dependence_on_predictable_vars.py:76-82 | `found` is the coinbase, gaslimit, timestamp and number occurrences, in that order |
| PredictableVars.FoundNothing | mythril/analysis/modules/dependence_on_predictable_vars.py:76-84 | nothing is found exactly when no constraint text and not the callee mentions a tracked variable |
| PredictableVars.OccurrencesNone | mythril/analysis/modules/dependence_on_predictable_vars.py:79-82 | a variable has no occurrence exactly when no text contains it |
| PredictableVars.VarLines | mythril/analysis/modules/dependence_on_predictable_vars.py:85-86 | no lines when nothing is found |
| PredictableVars.ClassifyTimestamp | mythril/analysis/modules/dependence_on_predictable_vars.py:85-88 | the SWC id is TIMESTAMP_DEPENDENCE exactly when the last variable found is "timestamp" |
| PredictableVars.VariableIssue | mythril/analysis/modules/dependence_on_predictable_vars.py:96-110 | a Low issue with the classified SWC id whose tail lists one "- block.X" line per entry of `found` |
| PredictableVars.FirstCheck | mythril/analysis/modules/dependence_on_predictable_vars.py:84-111 | at most one issue, present exactly when something is found and `solve` succeeds |
| PredictableVars.OffsetMatch | mythril/analysis/modules/dependence_on_predictable_vars.py:118-126 | "blockhash", word characters, then " - N" with no further " - M" give N as the offset group |
| PredictableVars.NoMatchAtParen | mythril/analysis/modules/dependence_on_predictable_vars.py:118 | "blockhash" followed by a non-word character starts no match, and the search goes on after it |
| PredictableVars.StorageSearch | mythril/analysis/modules/dependence_on_predictable_vars.py:166 | a match gives a non-empty index |
| PredictableVars.BlockhashNoteZero | mythril/analysis/modules/dependence_on_predictable_vars.py:123-145 | the "always be equal to zero" note is added exactly for an offset above 255, or for no offset and no "storage" in the text |
| PredictableVars.BlockhashIssue | mythril/analysis/modules/dependence_on_predictable_vars.py:147-161 | a Low WEAK_RANDOMNESS issue |
| PredictableVars.BlockhashIssueFor | mythril/analysis/modules/dependence_on_predictable_vars.py:115-204 | a text gives an issue only when it mentions "blockhash" and `solve` succeeds; the issue is Low WEAK_RANDOMNESS |
| PredictableVars.BlockhashWithoutNumber | mythril/analysis/modules/dependence_on_predictable_vars.py:164-204 | without "number", a text gives an issue exactly when a `storage_` token matches and `solve` succeeds, and the tail names that index |
| PredictableVars.BlockhashScan | mythril/analysis/modules/dependence_on_predictable_vars.py:115-204 | at most one issue; none unless `solve` succeeds; none exactly when no text gives one |
| PredictableVars.BlockhashScanSkips | mythril/analysis/modules/dependence_on_predictable_vars.py:115-204 | texts that give no issue do not stop the scan |
| PredictableVars.PredictableBounds | mythril/analysis/modules/dependence_on_predictable_vars.py:50-205 | at most two issues per call, and none unless `solve` succeeds |
| PredictableVars.NoTrackedVariable | mythril/analysis/modules/dependence_on_predictable_vars.py:76-111 | with no tracked variable mentioned, only the blockhash check can report |
| PredictableVars.ScanVariables | mythril/analysis/modules/dependence_on_predictable_vars.py:76-82 | the nested loops build `found` as `FoundVars` says |
| PredictableVars.AppendOccurrences | mythril/analysis/modules/dependence_on_predictable_vars.py:80-82 | the inner loop appends the variable once per text containing it |
| PredictableVars.DescribeVariables | mythril/analysis/modules/dependence_on_predictable_vars.py:70-86 | the introduction followed by one line per entry of `found` |
| PredictableVars.ScanBlockhash | mythril/analysis/modules/dependence_on_predictable_vars.py:115-204 | the loop with its `break`s returns what `BlockhashScan` says |
| PredictableVars.ReportVariables | mythril/analysis/modules/dependence_on_predictable_vars.py:74-111 | the first check returns what `FirstCheck` says for the scanned `found` |
| PredictableVars.AnalyzeStates | mythril/analysis/modules/dependence_on_predictable_vars.py:50-205 | no call, a value mentioning "callvalue", or a concrete zero value give nothing; otherwise the first check's issue followed by the blockhash check's issue |
| PredictableVars.PredictableDependenceModule.constructor | mythril/analysis/modules/dependence_on_predictable_vars.py:22-34 | the SWC id is "TIMESTAMP_DEPENDENCE WEAK_RANDOMNESS"; hooked on the four call opcodes |
| PredictableVars.PredictableDependenceModule.Execute | mythril/analysis/modules/dependence_on_predictable_vars.py:36-44 | the module's list grows by the analysis result, which is returned |
| EtherThief.OverflowGuards | mythril/analysis/modules/ether_thief.py:85-91 | every added constraint is a no-overflow guard |
| EtherThief.GuardCount | mythril/analysis/modules/ether_thief.py:85-91 | exactly one guard per transaction sent by the attacker |
| EtherThief.TotalIsExact | mythril/analysis/modules/ether_thief.py:85-91 | under any valuation satisfying the guards, the 256-bit running total equals the unbounded sum of the attacker's call values, which stays below 2^256 |
| EtherThief.ThiefQuery | mythril/analysis/modules/ether_thief.py:83-95 | the query is the node's constraints, then the guards, then `call_value >u total` and `target == sender` |
| EtherThief.QueryMeaning | mythril/analysis/modules/ether_thief.py:83-95 | a valuation satisfying the query satisfies the path, sends more than the attacker ever paid in, and pays the sender |
| EtherThief.ThiefIssue | mythril/analysis/modules/ether_thief.py:103-117 | a High "Unprotected Ether Withdrawal" issue at the current address with the given debug |
| EtherThief.ThiefOutcome | mythril/analysis/modules/ether_thief.py:63-124 | an issue exactly for a CALL at an uncached address whose `ThiefQuery` has a transaction sequence, and then exactly one High issue carrying that sequence; the cache grows by the address exactly when an issue is returned, and otherwise is unchanged |
| EtherThief.EtherThief.constructor | mythril/analysis/modules/ether_thief.py:35-44 | no issues, an empty cache, hooked on CALL, the module's multi-line description stored verbatim |
| EtherThief.EtherThief.ResetModule | mythril/analysis/modules/ether_thief.py:46-52 | empties both the issues and the cache |
| EtherThief.EtherThief.AnalyzeState | mythril/analysis/modules/ether_thief.py:63-124 | a non-CALL or a cached address gives nothing; otherwise the query decides, as `ThiefOutcome` says; the node's constraints are not modified |
| EtherThief.EtherThief.Execute | mythril/analysis/modules/ether_thief.py:54-61 | the module's list grows by the analysis result and the cache is updated as `ThiefOutcome` says |
| Integer.WrapConditionMeaning | mythril/analysis/modules/integer.py:88-135 | the negated no-overflow/no-underflow condition holds exactly when the 256-bit result differs from the exact result |
| Integer.AddWrap | mythril/analysis/modules/integer.py:94 | an addition wraps exactly when a + b >= 2^256 |
| Integer.MulWrap | mythril/analysis/modules/integer.py:111 | a multiplication wraps exactly when a * b >= 2^256 |
| Integer.SubWrap | mythril/analysis/modules/integer.py:127 | a subtraction wraps exactly when a < b |
| Integer.AsBitVec | mythril/analysis/modules/integer.py:137-143 | a 256-bit entry is kept; a Python int becomes the 256-bit value of the same number |
| Integer.TitleOfOperator | mythril/analysis/modules/integer.py:164-178 | the title is "Integer Underflow" exactly for a subtraction and "Integer Overflow" otherwise |
| Integer.DescriptionHead | mythril/analysis/modules/integer.py:145-147 | the head is "The binary {operator} can overflow." or "... can underflow.", the kind lower-cased |
| Integer.IntegerIssue | mythril/analysis/modules/integer.py:178-193 | a High issue at the overflowing state's address and node, with the title of its kind and the current gas bounds |
| Integer.Mark | mythril/analysis/modules/integer.py:216-219 | the cache of the annotation's kind marks its address |
| Integer.ReportStep | mythril/analysis/modules/integer.py:195-221 | an annotation of another type, a marked address or a query without a transaction sequence changes nothing; otherwise exactly one issue with that sequence is appended and the address is marked |
| Integer.ReportFold | mythril/analysis/modules/integer.py:174-221 | the loop only appends issues, at most one per annotation |
| Integer.OnePerAddressStep | mythril/analysis/modules/integer.py:197-221 | adding the issue of an unmarked annotation and marking it keeps one issue per address and kind |
| Integer.ReportFoldKeepsOnePerAddress | mythril/analysis/modules/integer.py:197-221 | the report loop keeps at most one issue per address and kind between resets |
| Integer.ArithmeticStack | mythril/analysis/modules/integer.py:88-135 | the two top entries become 256-bit values and nothing below them changes; the top carries the annotation exactly when the wrap condition is satisfiable with the path |
| Integer.OperatorOf | mythril/analysis/modules/integer.py:77-82 | ADD, MUL and SUB map to arithmetic operators, with "subtraction" exactly for SUB |
| Integer.IntegerOverflowUnderflowModule.constructor | mythril/analysis/modules/integer.py:41-55 | no issues, both caches empty, hooked on ADD, MUL, SUB, SSTORE and JUMPI |
| Integer.IntegerOverflowUnderflowModule.ResetModule | mythril/analysis/modules/integer.py:57-64 | clears the issues and both caches |
| Integer.IntegerOverflowUnderflowModule.MakeBitvecIfNot | mythril/analysis/modules/integer.py:137-143 | only the indexed stack slot can change, in place, to its 256-bit form; a 256-bit entry leaves the stack unchanged |
| Integer.IntegerOverflowUnderflowModule.HandleArithmetic | mythril/analysis/modules/integer.py:88-135 | the stack becomes what `ArithmeticStack` says |
| Integer.IntegerOverflowUnderflowModule.ReportAnnotation | mythril/analysis/modules/integer.py:174-221 | one pass changes the issues and caches as `ReportStep` says |
| Integer.IntegerOverflowUnderflowModule.ReportAnnotations | mythril/analysis/modules/integer.py:168-274 | the SSTORE/JUMPI loop changes the issues and caches as `ReportFold` says |
| Integer.IntegerOverflowUnderflowModule.Execute | mythril/analysis/modules/integer.py:66-86 | a marked address or another opcode changes nothing; ADD/MUL/SUB rewrite the stack; SSTORE ignores an int value and JUMPI fails on one with `AttributeError`; otherwise the annotations are reported; one issue per address and kind is kept |
| Suicide.SuicideIssue | mythril/analysis/modules/suicide.py:81-93 | a High "Unprotected Selfdestruct" issue at the current address |
| Suicide.AttackerQuery | mythril/analysis/modules/suicide.py:62-67 | the path followed by `to == attacker` |
| Suicide.SuicideOutcome | mythril/analysis/modules/suicide.py:49-98 | a cached address gives nothing; an uncached address whose attacker query has a transaction sequence gives an issue with the "Anyone can kill" tail; otherwise a satisfiable path gives the "Arbitrary senders" tail; neither gives nothing and leaves the cache; an issue caches the address |
| Suicide.ReportedOnce | mythril/analysis/modules/suicide.py:53-79 | once an address has given an issue, analysing it again gives nothing |
| Suicide.SuicideModule.constructor | mythril/analysis/modules/suicide.py:22-30 | no issues, an empty cache, hooked on SUICIDE |
| Suicide.SuicideModule.ResetModule | mythril/analysis/modules/suicide.py:32-38 | clears the issues and the cache |
| Suicide.SuicideModule.AnalyzeState | mythril/analysis/modules/suicide.py:49-98 | returns the issues and sets the cache as `SuicideOutcome` says |
| Suicide.SuicideModule.Execute | mythril/analysis/modules/suicide.py:40-47 | the module's list grows by the analysis result |
| ExternalCalls.UserSuppliedIssue | mythril/analysis/modules/external_calls.py:45-70 | a Medium REENTRANCY "External Call To User-Supplied Address" issue |
| ExternalCalls.FixedAddressIssue | mythril/analysis/modules/external_calls.py:72-97 | a Low REENTRANCY "External Call To Fixed Address" issue |
| ExternalCalls.ExternalCallIssues | mythril/analysis/modules/external_calls.py:25-103 | at most one REENTRANCY issue, present exactly when `gas >u 2300` is satisfiable with the path; the user-supplied title exactly when the callee query (without the gas condition) is satisfiable; a fixed-address issue is Low with the gas query's debug; a user-supplied one is the Medium `UserSuppliedIssue` with the callee query's debug |
| ExternalCalls.AnalyzeState | mythril/analysis/modules/external_calls.py:25-103 | returns `ExternalCallIssues`; once the gas query succeeds, `to == attacker` is appended in place to the node's constraint list, whose cache is cleared |
| ExternalCalls.ExternalCalls.constructor | mythril/analysis/modules/external_calls.py:110-118 | no issues, hooked on CALL |
| ExternalCalls.ExternalCalls.Execute | mythril/analysis/modules/external_calls.py:120-127 | the module's list grows by the analysis result; once the gas query succeeds the node's constraint list gains `to == attacker` in place and its cache is cleared, otherwise it is untouched |
| UncheckedRetval.UncheckedRetvalAnnotation.constructor | mythril/analysis/modules/unchecked_retval.py:22-23 | no records |
| UncheckedRetval.UncheckedRetvalAnnotation.Copy | mythril/analysis/modules/unchecked_retval.py:25-28 | a fresh annotation with the same records |
| UncheckedRetval.RetvalIssue | mythril/analysis/modules/unchecked_retval.py:93-104 | a Low issue at the record's address |
| UncheckedRetval.RetvalIssues | mythril/analysis/modules/unchecked_retval.py:79-108 | at most one issue per record, each Low "Unchecked Call Return Value" |
| UncheckedRetval.ZeroableMembers | mythril/analysis/modules/unchecked_retval.py:81-85 | a record is selected exactly when it is recorded and its value can be zero on the path |
| UncheckedRetval.RetvalIssuesOfZeroable | mythril/analysis/modules/unchecked_retval.py:79-108 | the issues are exactly one per record whose value can be zero, in record order |
| UncheckedRetval.RetvalIssuesAll | mythril/analysis/modules/unchecked_retval.py:79-108 | when every value can be zero, one issue per record, in record order, at each record's address |
| UncheckedRetval.RetvalIssuesNone | mythril/analysis/modules/unchecked_retval.py:79-108 | when no value can be zero, no issue |
| UncheckedRetval.PreviousInstruction | mythril/analysis/modules/unchecked_retval.py:111-113 | `instruction_list[pc - 1]` is an entry of the list, the last one when pc is 0 |
| UncheckedRetval.ReportRetvals | mythril/analysis/modules/unchecked_retval.py:79-108 | the loop returns what `RetvalIssues` says |
| UncheckedRetval.AnalyzeState | mythril/analysis/modules/unchecked_retval.py:62-123 | a state without the annotation gets exactly one fresh one; STOP/RETURN reports the records and keeps them; after a call exactly one record (address - 1, stack top) is appended and nothing is reported |
| UncheckedRetval.UncheckedRetvalModule.constructor | mythril/analysis/modules/unchecked_retval.py:34-50 | no issues; pre-hooks STOP and RETURN; post-hooks the four call opcodes |
| UncheckedRetval.UncheckedRetvalModule.Execute | mythril/analysis/modules/unchecked_retval.py:52-59 | the module's list grows by the records' issues at STOP/RETURN and is unchanged otherwise; the path's annotation (created when absent) keeps its records at STOP/RETURN and gains (address - 1, stack top) after a call |
| MultipleSends.MultipleSendsAnnotation.constructor | mythril/analysis/modules/multiple_sends.py:19-20 | no calls |
| MultipleSends.MultipleSendsAnnotation.Copy | mythril/analysis/modules/multiple_sends.py:22-25 | a fresh annotation with the same calls |
| MultipleSends.OffsetLinesAppend | mythril/analysis/modules/multiple_sends.py:87-90 | the lines of two runs of calls are the first run's lines followed by the second's |
| MultipleSends.OffsetLinesMention | mythril/analysis/modules/multiple_sends.py:87-90 | every recorded call's offset line is in the description, after the lines of the calls before it |
| MultipleSends.SendsIssue | mythril/analysis/modules/multiple_sends.py:97-108 | a Medium issue at the RETURN/STOP address whose tail lists the calls |
| MultipleSends.DescribeCalls | mythril/analysis/modules/multiple_sends.py:83-95 | the loop builds the introduction, one offset line per call in order, and the advice |
| MultipleSends.AnalyzeState | mythril/analysis/modules/multiple_sends.py:53-112 | a state without the annotation gets one; at a call opcode the call is recorded exactly when there is one, and nothing is reported; at RETURN/STOP an issue is reported exactly when more than one call is recorded |
| MultipleSends.MultipleSendsModule.constructor | mythril/analysis/modules/multiple_sends.py:31-46 | no issues, hooked on the four call opcodes, RETURN and STOP |
| MultipleSends.MultipleSendsModule.Execute | mythril/analysis/modules/multiple_sends.py:48-50 | the module's list grows by the issue reported at RETURN/STOP, if any; the path's annotation (created when absent) records the call at a call instruction and is unchanged otherwise |
| Exceptions.AnalyzeState | mythril/analysis/modules/exceptions.py:15-58 | one Low ASSERT_VIOLATION "Exception State" issue, with the sequence as debug, exactly when the path has a transaction sequence |
| Exceptions.ReachableExceptionsModule.constructor | mythril/analysis/modules/exceptions.py:64-72 | no issues, hooked on ASSERT_FAIL only |
| Exceptions.ReachableExceptionsModule.Execute | mythril/analysis/modules/exceptions.py:74-81 | the result is appended to the accumulated issues, and all of them are returned |
| DeprecatedOps.AnalyzeState | mythril/analysis/modules/deprecated_ops.py:15-61 | exactly one Medium DEPRICATED_FUNCTIONS_USAGE issue; "Use of tx.origin" exactly for ORIGIN and "Use of callcode" exactly for CALLCODE |
| DeprecatedOps.DeprecatedOperationsModule.constructor | mythril/analysis/modules/deprecated_ops.py:67-75 | no issues, hooked on ORIGIN and CALLCODE |
| DeprecatedOps.DeprecatedOperationsModule.Execute | mythril/analysis/modules/deprecated_ops.py:77-84 | the module's list grows by exactly one issue |
| Delegatecall.ScanMeaning | mythril/analysis/modules/delegatecall.py:76 | the scanner accepts exactly the texts with "calldata" and, later on the same line, "[0" |
| Delegatecall.SearchMeaning | mythril/analysis/modules/delegatecall.py:76 | `re.search(r"calldata.*\[0", s)` succeeds exactly when such positions exist |
| Delegatecall.Target | mythril/analysis/modules/delegatecall.py:95 | hex of the 256-bit value for a concrete target, the printed form otherwise |
| Delegatecall.ConcreteCall | mythril/analysis/modules/delegatecall.py:66-98 | at most one Low "Delegatecall Proxy" issue, present exactly when the memory word's text matches; its description ends with "DELEGATECALL target: " and the target |
| Delegatecall.AnalyzeStates | mythril/analysis/modules/delegatecall.py:41-63 | no call, a non-DELEGATECALL, a function other than "fallback" or a non-concrete memory start gives nothing; otherwise `ConcreteCall` decides |
| Delegatecall.DelegateCallModule.constructor | mythril/analysis/modules/delegatecall.py:20-28 | no issues, hooked on DELEGATECALL |
| Delegatecall.DelegateCallModule.Execute | mythril/analysis/modules/delegatecall.py:30-38 | the module's list grows by the analysis result |

## Left out

- The SMT solver is an oracle parameter. Z3 terms are the small `Smt` term language, and `str()` of a term is `ShowWord`/`ShowCond`, a printer of that language. It is not Z3's own printing, so the text matches of the predictable-variable and delegatecall detectors are stated over that printer.
- Hash functions are uninterpreted: keccak of the bytecode is kept as the bytes it is taken of; sha256, ripemd160, ecrecover_to_pub and the keccak in ecrecover are fields of a `Hashers` parameter; the md5 key of `append_issue` is the key string itself, so md5 collisions are not modelled.
- Rendering is not modelled: `as_text`, `as_markdown`, `as_json`, the JSON string of `as_swc_standard_format`, `json.dumps` of the transaction sequence (the oracle answers the debug text directly), `Account.as_dict` and `__str__`. These are output formatting over foreign libraries.
- Account.Storage.Get: the dynamic-loader branch (account.py:34-48) performs RPC reads and is left out, so every Storage here has no loader. The address test before it (account.py:31-33) is modelled: a non-empty address whose text after two characters is not accepted by `int(..., 16)` raises `ValueError`. That acceptance covers ASCII text only.
- `get_call_from_state` is a parameter (`Option<Call>`). `get_variable` is `EvmState.GetVariable` (concrete exactly for a literal), and `bytearray_to_int` is big-endian `FromBytes`. The source of these three is not part of this model.
- `Disassembly` and `SolidityContract` are not part of this model: an account's code is its bytecode text, and `add_code_info` receives the contract as a value with its source lookup as a function.
- The following are left out: logging, the module-level `detector` singletons, mythril/support/source_support.py (class dispatch over contract classes that are not shown), mythril/laser/ethereum/evm_exceptions.py (declarations only), and the tests (end-to-end runs of solc and the engine).
- `Issue` is a value, so `issue.debug = ...` and `issue.description += ...` are functional updates, and aliasing of issue objects is not modelled. Annotations on a stack entry are a list inside the entry's value, so an annotation added to `op0` is seen by that stack slot only, not by other references to the same expression object.
- Delegatecall.AnalyzeStates: the `is not` identity tests on strings are modelled as string inequality.
- The regular expressions use ASCII classes for `\w`, `\d` and `\s`. Python's classes also accept other Unicode letters, digits and spaces.
- DeprecatedOps.AnalyzeState: requires ORIGIN or CALLCODE, since any other opcode leaves `title` unbound in the source; the module is hooked on those two only.
- UncheckedRetval.AnalyzeState: the Python `assert` that the previous instruction is a call, and the stack read after it, are preconditions rather than an `AssertionError`.
- EtherThief.EtherThief.AnalyzeState: requires three stack entries at CALL rather than modelling Python's `IndexError` on a shorter stack.
- Suicide.SuicideModule.AnalyzeState: requires one stack entry for an uncached address rather than modelling `IndexError`.
- ExternalCalls.AnalyzeState: requires two stack entries rather than modelling `IndexError`.
- Integer.IntegerOverflowUnderflowModule.Execute: requires two stack entries for the hooked opcodes rather than modelling `IndexError`.
- Delegatecall.DelegateCallModule.Execute: requires at least three stack entries in the call's state rather than modelling `IndexError`.
- Natives.Ecrecover: whether key recovery fails (`ecrecover_to_pub` raising) is decided by the `Hashers` parameter.
- Natives.NativeContracts: the `TypeError` branches that turn non-integer data into `NativeContractException` cannot occur, since calldata here is a sequence of bytes.
- Constraints.Constraints.IsPossible: the solver timeout is stored but has no effect on the oracle, whose answer `Unknown` stands for a timeout.
