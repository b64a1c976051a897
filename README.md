# Symbolic bit-vectors and the execution-graph runner of the assembly simulator

This project models two parts of the x86 assembly simulator behind the AsmDude
Visual Studio extension, and proves properties of that model.

**The four-valued bit algebra** (`BitOperations`, module `BitOperations` in
`bit_operations.dfy`).

- A bit is `ZERO`, `ONE`, `UNDEFINED` (nothing is known about it) or `KNOWN`
  (its value is fixed but not known to the simulator).
- The scalar operations are modelled as their tables. These are neg, and, or,
  xor, eq, the half and full adder, the full subtractor and the overflow rule.
- The vector operations are methods over arrays, as the source writes them.
  These are not, and, or, xor, eq, eq_bitwise, the one-bit shifts, add, sub, neg
  and the in-place increment `add_one_bit`.
- Each vector method is proved against a specification function on sequences.
- What the algebra means is proved about those functions:
  - On concrete inputs the ripple adder computes the unsigned sum modulo 2^n,
    with CF as the carry out.
  - The subtractor computes the difference modulo 2^n, with CF as the borrow.
  - AF is the carry or borrow out of the low nibble.
  - OF after an addition is exactly two's-complement overflow.
  - A bit "covers" a concrete bit when it equals it or is `UNDEFINED` or
    `KNOWN`, which stand for both values. Soundness means: when every input bit
    covers a concrete input, the result covers the concrete result. It is proved
    for these operations:
    - neg, and, xor and eq (`ScalarOpsSound`);
    - the half and full adder (`AddersSound`);
    - vector add (`AddRippleSound`);
    - `add_one_bit` (`IncSound`).
  - Two operations are not sound, and the model proves each counterexample:
    - or at (`UNDEFINED`, `ZERO`) (`OrUnsoundAtUndefinedZero`);
    - the subtractor's borrow at (`KNOWN`, `KNOWN`, `ZERO`)
      (`SubFullBorrowUnsound`); its result bit is sound (`SubFullSound`).
  - There is no soundness lemma for vector sub or vector neg.

**The runner** (`Runner`, module `Runner` in `runner.dfy`, with `opcodes.dfy` and
`flow.dfy`).

- `Execute` creates the handler of one line with the given keys and runs it.
  A halted handler yields no update on either side. `HaltedLine` states what
  that means for a finished forward graph.
- `GetUsage` and `GetUsage_StateConfig` collect the 64-bit registers, the flags
  and the memory use of a range of lines.
- `InstantiateOpcode` is the mnemonic dispatch, modelled as a classification
  into handler kinds.
- The two constructions grow the execution graph (`DynamicFlow`) from a start
  line, forward and backward, with a worklist and a step bound.
- Each method of the constructions states its exact new graph and worklist,
  as a function of the old ones. Lemmas prove that this new state keeps the
  loop invariant. For the constructions, the model proves these things:
  - they terminate;
  - everything they add is a genuine executed step of the control-flow graph;
  - a vertex other than the root was discovered by an edge from a vertex
    exactly one step earlier, and stands at the line that edge's side leads
    to. So every vertex is reached from the root by a path of as many edges
    as its step, and its line is reached from the start line by a run of as
    many successors (or predecessors, going backward). This holds even when
    two lines share a key;
  - when the worklist empties, every vertex within the bound has been fully
    expanded, and the mismatches that were skipped or thrown are genuine;
  - a thrown mismatch is at a line reached from the start line by a run of
    at most the step bound's successors (`ThrownReached`).

The handlers themselves, which build SMT formulas, are an oracle. `Semantics`
in `opcodes.dfy` says whether a created handler is halted, what it yields when
executed, its static register, flag and memory usage, and the widening of a
register to its 64-bit parent. The control-flow graph (`StaticFlow`) is a value:
- a map from line numbers to the content, successors and predecessors of the line;
- the last line number;
- the naming of the state key of each line.

## Model

| member | source | states |
|---|---|---|
| BitOperations.Neg | VS/CSHARP/asm-tools/BitOperations.cs:13-22 | neg flips concrete bits (value 1 - v) and leaves UNDEFINED and KNOWN as they are |
| BitOperations.NegInvolution | VS/CSHARP/asm-tools/BitOperations.cs:13-22 | neg is its own inverse on all four values |
| BitOperations.And | VS/CSHARP/asm-tools/BitOperations.cs:45-70 | on concrete bits and is the product; ZERO absorbs everything; the result is UNDEFINED exactly when an input is UNDEFINED and none is ZERO, KNOWN exactly when an input is KNOWN and none is ZERO or UNDEFINED |
| BitOperations.Or | VS/CSHARP/asm-tools/BitOperations.cs:79-104 | on concrete bits or is ONE iff an input is ONE; ONE on the left gives ONE; ZERO on the left returns the right operand |
| BitOperations.Xor | VS/CSHARP/asm-tools/BitOperations.cs:114-133 | on concrete bits xor is the sum mod 2; UNDEFINED iff an input is UNDEFINED; KNOWN iff an input is KNOWN and none is UNDEFINED |
| BitOperations.Eq | VS/CSHARP/asm-tools/BitOperations.cs:143-160 | on concrete bits eq is ONE iff the bits are equal; UNDEFINED and KNOWN propagate as in xor |
| BitOperations.AndCommutative | VS/CSHARP/asm-tools/BitOperations.cs:45-70 | the and table is symmetric |
| BitOperations.XorCommutative | VS/CSHARP/asm-tools/BitOperations.cs:114-133 | the xor table is symmetric |
| BitOperations.AndXorIdentities | VS/CSHARP/asm-tools/BitOperations.cs:45-133 | ZERO and ONE are the annihilator and identity of and; xor with ZERO is the identity, with ONE it is neg, with UNDEFINED it is UNDEFINED |
| BitOperations.OrIdentities | VS/CSHARP/asm-tools/BitOperations.cs:79-104 | ONE or x is ONE, ZERO or x is x, KNOWN or ZERO is KNOWN |
| BitOperations.OrNotCommutative | VS/CSHARP/asm-tools/BitOperations.cs:79-104 | the or table is not symmetric: UNDEFINED or ZERO is ZERO while ZERO or UNDEFINED is UNDEFINED |
| BitOperations.OrUnsoundAtUndefinedZero | VS/CSHARP/asm-tools/BitOperations.cs:79-104 | the UNDEFINED row of or does not cover the concrete result: UNDEFINED covers ONE, yet or(UNDEFINED, ZERO) = ZERO does not cover or(ONE, ZERO) = ONE |
| BitOperations.EqIsNegXor | VS/CSHARP/asm-tools/BitOperations.cs:114-160 | eq equals neg of xor on all sixteen input pairs |
| BitOperations.ScalarOpsSound | VS/CSHARP/asm-tools/BitOperations.cs:13-160 | neg, and, xor and eq are sound abstractions: if the inputs cover concrete bits, the result covers the concrete result |
| BitOperations.AddHalf | VS/CSHARP/asm-tools/BitOperations.cs:233-262 | on concrete bits the half adder's bit + 2 * carry equals a + b; an UNDEFINED input makes the bit UNDEFINED; otherwise a KNOWN input makes it KNOWN |
| BitOperations.AddFull | VS/CSHARP/asm-tools/BitOperations.cs:265-294 | on concrete bits bit + 2 * carry equals x + b + carry; an UNDEFINED input makes the bit UNDEFINED; a KNOWN input makes bit and carry both UNDEFINED |
| BitOperations.SubFull | VS/CSHARP/asm-tools/BitOperations.cs:299-408 | on concrete bits bit - 2 * borrow-out equals x - y - borrow; an UNDEFINED input makes the bit UNDEFINED; otherwise a KNOWN input makes it KNOWN |
| BitOperations.CalcOverflow | VS/CSHARP/asm-tools/BitOperations.cs:411-425 | UNDEFINED iff an input is UNDEFINED, KNOWN iff an input is KNOWN and none UNDEFINED; on concrete bits ONE iff the two signs agree and the result sign differs |
| BitOperations.AddersSound | VS/CSHARP/asm-tools/BitOperations.cs:233-294 | the half and full adders cover the concrete adders' bit and carry |
| BitOperations.SubFullSound | VS/CSHARP/asm-tools/BitOperations.cs:299-408 | the subtractor's bit always covers the concrete one, and so does its borrow except at (KNOWN, KNOWN, ZERO) |
| BitOperations.SubFullBorrowUnsound | VS/CSHARP/asm-tools/BitOperations.cs:299-408 | at (KNOWN, KNOWN, ZERO) the table's borrow is ONE though KNOWN covers ZERO and the concrete borrow of (ZERO, ZERO, ZERO) is ZERO |
| BitOperations.Not | VS/CSHARP/asm-tools/BitOperations.cs:36-42 | the fresh result is neg applied position by position |
| BitOperations.NotInvolution | VS/CSHARP/asm-tools/BitOperations.cs:36-42 | not of not is the identity on vectors |
| BitOperations.AndVec | VS/CSHARP/asm-tools/BitOperations.cs:71-77 | the fresh result is and applied position by position |
| BitOperations.OrVec | VS/CSHARP/asm-tools/BitOperations.cs:105-112 | the fresh result is or applied position by position |
| BitOperations.XorVec | VS/CSHARP/asm-tools/BitOperations.cs:134-141 | the fresh result is xor applied position by position |
| BitOperations.EqBitwise | VS/CSHARP/asm-tools/BitOperations.cs:184-191 | the fresh result is eq applied position by position |
| BitOperations.BitwiseCommutative | VS/CSHARP/asm-tools/BitOperations.cs:71-191 | vector and, xor and eq_bitwise do not depend on the order of their operands |
| BitOperations.EqBitwiseIsNotXor | VS/CSHARP/asm-tools/BitOperations.cs:134-191 | eq_bitwise is not of xor |
| BitOperations.EqVec | VS/CSHARP/asm-tools/BitOperations.cs:161-182 | the loop with its early UNDEFINED exit returns the reduction of the positionwise eq: UNDEFINED if any position is, else KNOWN if any is, else ZERO if any is, else ONE |
| BitOperations.EqReduceConcrete | VS/CSHARP/asm-tools/BitOperations.cs:161-182 | on concrete vectors eq is ONE iff the vectors are equal and ZERO iff they differ |
| BitOperations.Shr1 | VS/CSHARP/asm-tools/BitOperations.cs:193-201 | the result is the input moved one position down with ZERO on top; the carry is bit 0 |
| BitOperations.Sar1 | VS/CSHARP/asm-tools/BitOperations.cs:203-211 | the result is the input moved one position down with the sign bit repeated on top; the carry is bit 0 |
| BitOperations.Shl1 | VS/CSHARP/asm-tools/BitOperations.cs:213-221 | the result is the input moved one position up with ZERO at bit 0; the carry is the top bit |
| BitOperations.Sal1 | VS/CSHARP/asm-tools/BitOperations.cs:223-225 | sal1 is shl1 |
| BitOperations.ShiftRoundTrip | VS/CSHARP/asm-tools/BitOperations.cs:193-221 | shr1 after shl1 clears the top bit, and shl1 after shr1 clears bit 0 |
| BitOperations.ShrValue | VS/CSHARP/asm-tools/BitOperations.cs:193-201 | on concrete vectors value(a) = 2 * value(shr1 a) + carry: a logical shift halves |
| BitOperations.ShlValue | VS/CSHARP/asm-tools/BitOperations.cs:213-221 | on concrete vectors value(shl1 a) + carry * 2^n = 2 * value(a): a left shift doubles modulo 2^n |
| BitOperations.SarValue | VS/CSHARP/asm-tools/BitOperations.cs:203-211 | on concrete vectors signed(a) = 2 * signed(sar1 a) + carry: an arithmetic shift halves the two's-complement value |
| BitOperations.RippleLoop | VS/CSHARP/asm-tools/BitOperations.cs:490-498 | the loop shared by add and sub fills a fresh array with the ripple of the cell over the operands; CF is the final carry, AF the carry after position 3 and OF the overflow rule on the sign bits |
| BitOperations.RippleFill | VS/CSHARP/asm-tools/BitOperations.cs:490-497 | the positions of that loop, first to last, fill a fresh array with the ripple of the cell; the carry is the final carry and AF the carry after position 3 |
| BitOperations.Add | VS/CSHARP/asm-tools/BitOperations.cs:482-500 | add returns the full-adder ripple of a and b from CF-in, its carry, the nibble carry and the overflow rule |
| BitOperations.Sub | VS/CSHARP/asm-tools/BitOperations.cs:502-520 | sub returns the full-subtractor ripple of a and b from CF-in, its borrow, the nibble borrow and the same overflow rule |
| BitOperations.NegVec | VS/CSHARP/asm-tools/BitOperations.cs:28-34 | vector neg is sub from a fresh all-ZERO vector with borrow ZERO |
| BitOperations.AddRippleValue | VS/CSHARP/asm-tools/BitOperations.cs:482-500 | on concrete inputs the sum bits plus carry * 2^n equal value(a) + value(b) + CF-in |
| BitOperations.SubRippleValue | VS/CSHARP/asm-tools/BitOperations.cs:502-520 | on concrete inputs the difference bits minus borrow * 2^n equal value(a) - value(b) - CF-in |
| BitOperations.AddUnsigned | VS/CSHARP/asm-tools/BitOperations.cs:482-500 | add computes (a + b + CF-in) mod 2^n, and CF is ONE iff that sum reaches 2^n |
| BitOperations.SubUnsigned | VS/CSHARP/asm-tools/BitOperations.cs:502-520 | sub computes (a - b - CF-in) mod 2^n, and CF is ONE iff that difference is negative |
| BitOperations.NegUnsigned | VS/CSHARP/asm-tools/BitOperations.cs:28-34 | vector neg computes -a mod 2^n, and CF is ONE iff a is not zero |
| BitOperations.AddNibbleCarry | VS/CSHARP/asm-tools/BitOperations.cs:490-497 | AF of add is UNDEFINED below 4 bits, otherwise ONE iff the low nibbles and CF-in sum to at least 16 |
| BitOperations.SubNibbleBorrow | VS/CSHARP/asm-tools/BitOperations.cs:510-517 | AF of sub is UNDEFINED below 4 bits, otherwise ONE iff the low nibble of a is below that of b plus CF-in |
| BitOperations.AddOverflowIsSignedOverflow | VS/CSHARP/asm-tools/BitOperations.cs:482-500 | on concrete inputs OF of add is ONE iff signed(a) + signed(b) + CF-in lies outside the n-bit two's-complement range |
| BitOperations.SubOverflowUsesAdditionRule | VS/CSHARP/asm-tools/BitOperations.cs:502-520 | sub applies the addition overflow rule to a, b and the result: OF = ONE only when signed(a) - signed(b) - CF-in is in range, and every out-of-range difference gets OF = ZERO |
| BitOperations.SubOverflowMissed | VS/CSHARP/asm-tools/BitOperations.cs:502-520 | the 4-bit input 0 - (-8) = 8 is out of range, yet the result is 1000 and OF is ZERO |
| BitOperations.AddRippleSound | VS/CSHARP/asm-tools/BitOperations.cs:482-500 | vector addition is a sound abstraction: covering inputs give a sum and carry that cover the concrete sum and carry |
| BitOperations.IncStep | VS/CSHARP/asm-tools/BitOperations.cs:435-468 | on concrete bits one position of add_one_bit keeps bit + 2 * still-to-add equal to x + to-add |
| BitOperations.IncStepSound | VS/CSHARP/asm-tools/BitOperations.cs:435-468 | one position of add_one_bit is a sound abstraction |
| BitOperations.AddOneBit | VS/CSHARP/asm-tools/BitOperations.cs:428-478 | adds b in place: the array becomes the increment ripple of its old contents; CF is what is still to add after the top, AF what is still to add after position 3, and OF the overflow rule on the old and new sign bit with ZERO |
| BitOperations.IncZero | VS/CSHARP/asm-tools/BitOperations.cs:428-478 | adding ZERO leaves the vector unchanged with nothing to carry |
| BitOperations.IncUndefined | VS/CSHARP/asm-tools/BitOperations.cs:428-478 | adding UNDEFINED makes every bit and the carry UNDEFINED |
| BitOperations.IncUndefinedFrom | VS/CSHARP/asm-tools/BitOperations.cs:434-475 | once what is still to add has become UNDEFINED after some position, every higher bit and the final carry are UNDEFINED |
| BitOperations.IncRippleValue | VS/CSHARP/asm-tools/BitOperations.cs:428-478 | on concrete inputs the new bits plus carry * 2^n equal value(a) + b |
| BitOperations.IncUnsigned | VS/CSHARP/asm-tools/BitOperations.cs:428-478 | add_one_bit computes (a + b) mod 2^n, and CF is ONE iff a + b = 2^n |
| BitOperations.IncSound | VS/CSHARP/asm-tools/BitOperations.cs:428-478 | add_one_bit is a sound abstraction of the concrete increment |
| Opcodes.InstantiateOpcode | VS/CSHARP/asm-sim-lib/Runner.cs:340-628 | the created handler carries exactly the operands and keys it was created with |
| Opcodes.DispatchIgnored | VS/CSHARP/asm-sim-lib/Runner.cs:349-350 | exactly NONE and UNKNOWN get the ignoring handler |
| Opcodes.DispatchDedicated | VS/CSHARP/asm-sim-lib/Runner.cs:340-628 | exactly the mnemonics the dispatch maps to a handler class of their own get one |
| Opcodes.DispatchConditional | VS/CSHARP/asm-sim-lib/Runner.cs:352-514 | exactly the conditional moves get Cmovcc, the conditional sets Setcc and the conditional jumps Jmpcc |
| Opcodes.DispatchNoEffect | VS/CSHARP/asm-sim-lib/Runner.cs:584-593 | exactly NOP, UD2, the prefetches and the cache flushes get the no-effect handler |
| Opcodes.DispatchNotImplemented | VS/CSHARP/asm-sim-lib/Runner.cs:340-628 | the not-implemented handler goes exactly to the unsupported mnemonics the dispatch names and to every mnemonic it does not name (the default case) |
| Opcodes.DispatchKeepsMnemonic | VS/CSHARP/asm-sim-lib/Runner.cs:340-628 | every handler but the shared no-effect one records the mnemonic it was created for |
| Runner.UsageOverMembers | VS/CSHARP/asm-sim-lib/Runner.cs:315-338 | a register, flag or memory use is in the usage of a range iff some line of the range has it |
| Runner.UsageOverSplit | VS/CSHARP/asm-sim-lib/Runner.cs:315-338 | the usage of a range is the join of the usages of its two halves |
| Runner.GetUsage | VS/CSHARP/asm-sim-lib/Runner.cs:315-338 | the loop collects exactly the usage of lines begin..end, with registers widened to 64 bits; an empty range collects nothing |
| Runner.GetUsageStateConfig | VS/CSHARP/asm-sim-lib/Runner.cs:300-313 | the configuration switches on exactly the flags, registers and memory used by lines 0 to the last line, whatever range is asked for |
| Runner.HandleBranch | VS/CSHARP/asm-sim-lib/Runner.cs:80-108 | the new graph and worklist are exactly the branch side handled: a branch update the graph has no branch for, or a graph branch with no update, is reported and changes nothing; otherwise, unless an edge with these end keys on the branch side is present, the target vertex is added at the next step (unless its key is present), with the edge and the key |
| Runner.HandleRegular | VS/CSHARP/asm-sim-lib/Runner.cs:109-137 | a regular-side disagreement in either direction throws the mismatch of the current line; otherwise the new graph and worklist are exactly the regular side handled as the branch side is |
| Runner.AddSide | VS/CSHARP/asm-sim-lib/Runner.cs:89-93 | adding the edge of an agreeing side, with its target vertex one step after the source, keeps the graph sound, every vertex still discovered from one a step earlier, and strictly shrinks the set of edge identities still missing |
| Runner.DiscoveredGrows | VS/CSHARP/asm-sim-lib/Runner.cs:89-93 | adding an edge and at most the vertex it discovers, one step after the edge's other end and at the line the edge's side leads to, keeps every vertex other than the root discovered |
| Runner.Reached | VS/CSHARP/asm-sim-lib/Runner.cs:72-75 | when every vertex other than the root was discovered from a vertex one step earlier, a vertex at step n ends a path of n edges from the root whose i-th key is a vertex at step i |
| Runner.ForwardReached | VS/CSHARP/asm-sim-lib/Runner.cs:59-78 | every vertex of a sound forward graph is reached from the start key by a path of graph edges, taken forward, as long as its step, each edge leading on its side from the line of one vertex to the line of the next |
| Runner.ForwardLineReached | VS/CSHARP/asm-sim-lib/Runner.cs:59-78 | the line of every vertex of a sound forward graph is reached from the start line by a run of as many successors as the vertex's step |
| Runner.ForwardSoundUnique | VS/CSHARP/asm-sim-lib/Runner.cs:89-93 | in a sound forward graph no two edges share end points and side, so the has-edge check keeps the graph a simple graph |
| Runner.BranchStep | VS/CSHARP/asm-sim-lib/Runner.cs:80-108 | handling the branch side keeps the loop invariant and reports exactly the branch mismatch |
| Runner.RegularStep | VS/CSHARP/asm-sim-lib/Runner.cs:109-137 | handling an agreeing regular side finishes the expansion of the vertex |
| Runner.Expand | VS/CSHARP/asm-sim-lib/Runner.cs:64-76 | the new graph, worklist and warnings are exactly the expansion of the vertex: its line executed with its own key and its successors' keys, the branch side handled, then the regular side, each adding its target at the vertex's step + 1; a throw happens iff the regular side disagrees, names that mismatch, and leaves only the branch side applied |
| Runner.ExpandStep | VS/CSHARP/asm-sim-lib/Runner.cs:64-76 | an expansion that does not throw keeps the loop invariant with the vertex done, and either changes neither edges nor worklist or adds a missing edge identity |
| Runner.ThrownStep | VS/CSHARP/asm-sim-lib/Runner.cs:109-137 | a regular-side disagreement at an expandable vertex of a sound graph is a genuine thrown mismatch (`ThrownAt`) of that vertex's line, which `ThrownReached` shows reached from the start line |
| Runner.ThrownReached | VS/CSHARP/asm-sim-lib/Runner.cs:109-137 | the line of a thrown mismatch is reached from the start line by a run of at most maxSteps successors |
| Runner.ForwardRound | VS/CSHARP/asm-sim-lib/Runner.cs:59-77 | one round pops the last key and keeps the loop invariant with that key done, shrinking the missing edges or the worklist; a throw is a genuine mismatch (`ThrownAt`) of a line reached from the start line |
| Runner.ForwardFinished | VS/CSHARP/asm-sim-lib/Runner.cs:59-78 | with the worklist empty, the sound graph is complete: every vertex is expanded |
| Runner.ConstructForward | VS/CSHARP/asm-sim-lib/Runner.cs:33-140 | no graph iff the start line is missing; a built graph is rooted at the start key, sound (every vertex discovered from one a step earlier), simple, with genuine warnings and every vertex expanded; every vertex stands at the line its discovering edge leads to; a throw is a genuine regular-side mismatch (`ThrownAt`) of a line reached from the start line |
| Runner.HaltedLine | VS/CSHARP/asm-sim-lib/Runner.cs:271-284 | in a finished forward graph no edge leaves the vertex of a line whose handler halts; if that vertex was expanded, the line has no regular successor and a branch successor of it was reported |
| Runner.BackSoundAdd | VS/CSHARP/asm-sim-lib/Runner.cs:184-191 | adding the edge of an existing predecessor with a new identity, and its vertex one step later unless its key is present, keeps the backward graph sound and adds exactly that identity |
| Runner.BackwardReached | VS/CSHARP/asm-sim-lib/Runner.cs:170-205 | every vertex of a sound backward graph reaches the start key by a path of graph edges, taken backward, as long as its step, each vertex's line preceding the line of the one before on that edge's side |
| Runner.BackwardLineReached | VS/CSHARP/asm-sim-lib/Runner.cs:170-205 | the line of every vertex of a sound backward graph reaches the start line by a run of as many predecessors as the vertex's step |
| Runner.BackAddStep | VS/CSHARP/asm-sim-lib/Runner.cs:180-194 | handling one predecessor keeps the stage of the expansion: the loop invariant with the vertex in expansion, and the vertex unchanged |
| Runner.BackFoldInv | VS/CSHARP/asm-sim-lib/Runner.cs:180-203 | handling the first n predecessors keeps the stage of the expansion |
| Runner.BackFoldAdds | VS/CSHARP/asm-sim-lib/Runner.cs:180-203 | handling predecessors keeps every old vertex; each new vertex is at the next step, scheduled, with an edge into the line's key; each new edge is that of an existing predecessor; every existing predecessor has an edge identity into the line |
| Runner.BackFoldProgress | VS/CSHARP/asm-sim-lib/Runner.cs:180-203 | handling predecessors either changes neither edges nor worklist or strictly shrinks the set of edge identities still missing |
| Runner.BackExpandStep | VS/CSHARP/asm-sim-lib/Runner.cs:175-203 | expanding a vertex within the bound keeps the loop invariant with the vertex done |
| Runner.AddPredecessor | VS/CSHARP/asm-sim-lib/Runner.cs:180-201 | the new graph and worklist are exactly one predecessor handled: when its line exists and no edge from its key into the vertex's key on its side is present, its edge gets the update of the predecessor executed with its own key and the vertex's key on both sides, its vertex is added at the next step unless its key is present, and its key is scheduled; otherwise nothing changes |
| Runner.ExpandBackward | VS/CSHARP/asm-sim-lib/Runner.cs:175-203 | the new graph and worklist are exactly the predecessors of the vertex's line handled first to last, each at the vertex's step + 1 |
| Runner.BackwardRound | VS/CSHARP/asm-sim-lib/Runner.cs:170-205 | one round pops the last key and keeps the loop invariant with that key done, shrinking the missing edges or the worklist |
| Runner.BackwardFinished | VS/CSHARP/asm-sim-lib/Runner.cs:170-205 | with the worklist empty, the sound backward graph is complete |
| Runner.ConstructBackward | VS/CSHARP/asm-sim-lib/Runner.cs:142-206 | no graph iff the start line has no predecessor; otherwise the graph is rooted at the start key, sound (every vertex discovered from one a step earlier, at a predecessor line of that one's line), simple, complete within the bound, and nothing is thrown or reported |
| Flow.DynamicFlow.HasEdge | VS/CSHARP/asm-sim-lib/Runner.cs:89 | true iff an edge with these end points and branch flag is present |
| Flow.DynamicFlow.AddVertex | VS/CSHARP/asm-sim-lib/Runner.cs:91 | a key already present keeps its vertex; otherwise the vertex is added; edges are unchanged |
| Flow.DynamicFlow.AddEdge | VS/CSHARP/asm-sim-lib/Runner.cs:92 | the edge is added and the vertices are unchanged |

## Left out

- Handler bodies (`Mov`, `Add`, `Cmovcc`, …) and the contents of `StateUpdate`, which are SMT formulas: they sit behind the `Semantics` oracle. Their halting, their updates and their static usage are uninterpreted functions.
- `RegisterTools.Get64BitsRegister` is the oracle's `to64`. `StaticFlow` and `DynamicFlow` are not part of this model beyond what the runner calls. The flow is a value with a key function, and the graph is a class with a vertex map and an edge set.
- Console output, `tools.Quiet` and the display regions: I/O.
- `SimpleStep_Forward`, `SimpleStep_Backward` and `Step_Forward` (Runner.cs:209-269): they draw fresh keys from a random generator and build solver states.
- `GetBranchCondition` (Runner.cs:287-298): after the dispatch it always throws not-implemented.
- `InstantiateOpcode`: the `null` checks in `Execute` and `GetUsage` are dead, because every path of the dispatch creates a handler. Mnemonics are ordinals of this model's own choosing; only which kind a mnemonic dispatches to is modelled.
- Runner.cs:69 reads both successor keys at once with `flow.Get_Key(nextLineNumber)`. The model applies `keyOf` to each successor instead (`ForwardKeys`).
- A line number the control-flow graph does not hold reads as an empty (`NONE`) line with no successors and no predecessors.
- Runner.ConstructForward: a thrown exception is modelled as a `Thrown` result naming the mismatch; the partial graph built before the throw is not returned.
- Runner.ConstructBackward: completeness is stated on edge identities (end keys and side). Line keys need not be injective, so two predecessors may share one edge.
- BitOperations.Sar1: requires at least two bits; on one bit the source reads index -1.
- BitOperations.Add: requires at least one bit, like the other vector operations that read the sign bit at `length - 1`; the source's `Debug.Assert` on equal lengths is a precondition.
- Runner.GetUsageStateConfig: ignores its range and scans the whole program, as written.
