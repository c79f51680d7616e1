# vector_expr evaluation engine in Dafny

This project models the evaluation engine of `vector_expr`, a library that
evaluates math expressions one column at a time. A caller hands it:

- a typed expression tree;
- a reusable register pool sized to the row count;
- one input column per variable.

It gets back one result per row. The model covers these parts:

- **`expression.dfy` (module `Expressions`).** The expression tree: `Expression`, `BoolExpression`,
  `RealExpression` and `StringExpression`. It also holds the binding-bound functions, which say when a
  tree's `Binding` indices fit the columns passed in.
- **`semantics.dfy` (module `Semantics`).** A pure, one-row-at-a-time reference interpreter: `RealAt`,
  `BoolAt` and `StringAt`.
  - The real element type is a type parameter `R`. Its scalar operations are passed as a `RealOps<R>` record.
  - `InternedTexts` is the sequence of texts the string-interning callback receives.
- **`accounting.dfy` (module `Accounting`).** The register pool's cold-allocation count in closed form.
  - Each evaluation has a `Footprint`: its peak number of registers held at once, per register kind.
  - `Settle` gives the pool after that evaluation: it allocates cold only as far as its peak exceeds the
    free-list, and every register except the output returns to the pool.
  - One lemma per operator proves that the operator's exact sequence of pops and pushes has this closed form.
  - Lemmas bound the peak by the number of nodes and by the tree height.
- **`evaluate.dfy` (module `Evaluate`).**
  - The `Registers` pool as a class: an allocation counter and three LIFO free-lists.
  - The interning callback as an `Interner` object that records its calls.
  - `ValidateBindings`, and the `extend` loops that fill an output register.
  - The recursive evaluator as methods that thread the pool. Each evaluator method promises three things:
    - row `i` of its result is the reference interpreter's value at row `i`;
    - the texts interned are `InternedTexts` of the tree, in order;
    - the pool's counts afterwards are `Settle` of its counts before.
- **`examples.dfy` (module `Examples`).** The library's tests (`src/lib.rs:60-181`) over an integer
  instance of the element type: exact results and exact cold-allocation counts. It also holds one added
  example of a string comparison (`NameIsFoo`, `NameIsFooFacts`, `StringLiteralTest`), since
  `src/lib.rs` has no test of `evaluate_string_comparison` (`src/evaluate.rs:349-408`).

Notes on the code that shape the model:

- **Output allocation order.** Each operator allocates its output register before it recycles its
  operands' registers (`src/evaluate.rs:231-259`, `src/evaluate.rs:432-456`). So `2 * (foo + bar) * -baz`
  holds three real registers at its peak, which agrees with the test's asserted count of 3
  (`src/lib.rs:80`).
- **Booleans.** A bool register is a `Vec<bool>`, one `bool` per row (`src/evaluate.rs:498`). `Not`
  takes a fresh output register and recycles its operand's (`src/evaluate.rs:474-487`).
- **Fixed row count.** `register_length` is set by `Registers::new` and never changes
  (`src/evaluate.rs:504-512`).
- **String variants.** `src/expression.rs` declares no string variants, but `src/evaluate.rs`
  evaluates `StrEqual`, `StrNotEqual` and `StringExpression::{Literal, Binding}`
  (`src/evaluate.rs:107-122`, `src/evaluate.rs:349-408`). The model adds them in the shape the
  evaluator uses.

Panics are modelled as preconditions: `validate_bindings`' length assertion and an out-of-range
`Binding` index. `ValidateBindings` itself returns whether the check passes.

## Model

| member | source | states |
|---|---|---|
| Evaluate.Registers.constructor | src/evaluate.rs:504-512 | a new pool has no allocations, three empty free-lists and the given register length |
| Evaluate.Registers.RecycleReal | src/evaluate.rs:514-517 | the buffer is cleared and pushed onto the real free-list only; the counter and the other lists are unchanged |
| Evaluate.Registers.RecycleBool | src/evaluate.rs:519-522 | the buffer is cleared and pushed onto the bool free-list only; the counter and the other lists are unchanged |
| Evaluate.Registers.RecycleString | src/evaluate.rs:524-527 | the buffer is cleared and pushed onto the string-id free-list only; the counter and the other lists are unchanged |
| Evaluate.Registers.AllocateReal | src/evaluate.rs:529-534 | a non-empty real free-list yields its most recently pushed buffer with the counter unchanged; an empty one yields a new empty buffer and adds exactly 1 to the counter; the other lists are untouched |
| Evaluate.Registers.AllocateBool | src/evaluate.rs:536-541 | as `AllocateReal`, for the bool free-list |
| Evaluate.Registers.AllocateString | src/evaluate.rs:543-548 | as `AllocateReal`, for the string-id free-list |
| Evaluate.Registers.NumAllocations | src/evaluate.rs:550-552 | returns the number of cold allocations so far |
| Evaluate.Interner.Intern | src/evaluate.rs:18 | the callback returns the caller's id for the text, and the call is appended to the record of calls |
| Evaluate.ValidateBindings | src/evaluate.rs:202-206 | the check passes exactly when every column has `register_length` rows |
| Evaluate.ExtendFromSlice | src/evaluate.rs:159 | the register keeps its old rows and gains a copy of the column |
| Evaluate.ExtendRepeat | src/evaluate.rs:171 | the register gains `register_length` copies of the value |
| Evaluate.ExtendMap | src/evaluate.rs:286 | appended row `i` is `op` of operand row `i` |
| Evaluate.ExtendZip | src/evaluate.rs:245-250 | appended row `i` is `op` of the two operands' rows `i`, for as many rows as the shorter operand has |
| Evaluate.EvaluateReal | src/evaluate.rs:133-140 | after the length check, the result has `register_length` rows and row `i` is `RealAt` of the tree at row `i`; the pool ends as `Settle` of its real footprint |
| Evaluate.EvaluateRealWithoutVars | src/evaluate.rs:128-130 | the same as `EvaluateReal` for a tree without variables, evaluated over no columns |
| Evaluate.EvaluateRealRecursive | src/evaluate.rs:142-199 | each variant computes its rows by `RealAt`: a literal broadcasts its value and a top-level binding copies its column; the pool ends as `Settle` of the real footprint |
| Evaluate.ResolveRealOperand | src/evaluate.rs:215-223 | a direct binding is read in place with no register and no pool change; any other operand is evaluated into a register |
| Evaluate.ResolveRealOperands | src/evaluate.rs:215-230 | the lhs is resolved, then the rhs, each as `ResolveRealOperand` |
| Evaluate.ReleaseRealOperands | src/evaluate.rs:253-258 | each operand register, if there is one, goes back to the real free-list, lhs first |
| Evaluate.EvaluateBinaryRealOp | src/evaluate.rs:208-260 | row `i` is the scalar op of both operands' rows `i`; the pool ends as `Settle` of the operator's peak: lhs, then rhs beside it, then the output beside both |
| Evaluate.EvaluateUnaryRealOp | src/evaluate.rs:262-293 | row `i` is the op of the operand's row `i`; the pool ends as `Settle` of the unary peak |
| Evaluate.EvaluateBool | src/evaluate.rs:14-29 | after both length checks, row `i` is `BoolAt` at row `i`; the interned texts are `InternedTexts` of the tree; the pool ends as `Settle` of its footprint |
| Evaluate.EvaluateBoolRecursive | src/evaluate.rs:31-124 | each variant computes its rows by `BoolAt` (`!=` is the negation of `==`); the interning calls and the pool end as in `EvaluateBool` |
| Evaluate.EvaluateRealComparison | src/evaluate.rs:295-347 | row `i` compares both operands' rows `i`; the output is a bool register, and the real operand registers go back to the pool |
| Evaluate.CompareValues | src/evaluate.rs:319-337 | takes one bool register and fills it with the row-wise comparison |
| Evaluate.EvaluateStringComparison | src/evaluate.rs:349-408 | row `i` compares the operands' string ids; the callback is called once per literal operand, lhs first; literal registers go back to the pool |
| Evaluate.ResolveStringOperand | src/evaluate.rs:357-367 | a binding is read in place; a literal takes one string register, interns its text exactly once and fills `register_length` rows with the id |
| Evaluate.EvaluateBinaryLogic | src/evaluate.rs:410-457 | both operands are always evaluated, lhs first; row `i` is the logic op of their rows `i`; the pool ends as `Settle` of `LogicFootprint` |
| Evaluate.CombineBools | src/evaluate.rs:433-455 | takes the output, fills it row by row, then returns both operand registers to the bool free-list |
| Evaluate.EvaluateUnaryLogic | src/evaluate.rs:459-488 | row `i` is the op of the operand's row `i`; the pool ends as `Settle` of `NotFootprint` |
| Evaluate.MapBools | src/evaluate.rs:475-486 | takes the output, fills it row by row, then returns the operand register to the bool free-list |
| Semantics.OperandTexts | src/evaluate.rs:358-378 | a string operand is interned at most once, and not at all exactly when it is a binding |
| Semantics.RealAtReadsOnlyItsRow | src/evaluate.rs:245-250 | row `i` of a real result depends on row `i` of the input columns only |
| Semantics.BoolAtReadsOnlyItsRow | src/evaluate.rs:332-337 | row `i` of a boolean result depends on row `i` of the input columns only |
| Accounting.RealPeak | src/evaluate.rs:232 | every real evaluation holds at least its own output register |
| Accounting.SettleConserves | src/evaluate.rs:495-553 | no register is lost: cold allocations never decrease, and each one is back in the pool afterwards or is the caller's output |
| Accounting.FromEmptyPool | src/evaluate.rs:504-512 | from a fresh pool, an evaluation allocates exactly its footprint summed over kinds |
| Accounting.TakeIsRun | src/evaluate.rs:529-548 | taking one register is a computation whose peak and remainder are that register |
| Accounting.GiveAfterRun | src/evaluate.rs:514-527 | recycling a held register lowers what the computation ends holding and leaves its cold allocations unchanged |
| Accounting.RunThenRun | src/evaluate.rs:217-232 | two computations in sequence, the second running while the first's result is held, are one computation whose peak is the larger of the first's peak and the held registers plus the second's peak |
| Accounting.LeafSteps | src/evaluate.rs:157-173 | a top-level literal or binding takes exactly one real register |
| Accounting.BinaryRealSteps | src/evaluate.rs:217-258 | the binary operator's pops and pushes have the closed form `Settle(BinaryRealPeak)` |
| Accounting.UnaryRealSteps | src/evaluate.rs:270-291 | the unary operator's pops and pushes have the closed form `Settle(UnaryRealPeak)` |
| Accounting.ComparisonSteps | src/evaluate.rs:304-345 | a real comparison's pops and pushes have the closed form `Settle(ComparisonFootprint)`: real operands, then one bool output |
| Accounting.StringComparisonSteps | src/evaluate.rs:357-406 | a string comparison's pops and pushes have the closed form: one string register per literal operand, then one bool output |
| Accounting.LogicSteps | src/evaluate.rs:419-455 | And/Or's pops and pushes have the closed form `Settle(LogicFootprint)`: at least three bool registers at the peak |
| Accounting.NotSteps | src/evaluate.rs:467-486 | Not's pops and pushes have the closed form `Settle(NotFootprint)`: at least two bool registers at the peak |
| Accounting.PeakWithinEvaluations | src/evaluate.rs:490-494 | recycling never needs more registers than an evaluator without a pool would allocate, one per evaluated node |
| Accounting.PeakWithinDepth | src/evaluate.rs:490-494 | the real registers held at once never exceed the tree height plus two |
| Accounting.LeftChainNeedsTwo | src/evaluate.rs:490-494 | a left-deep chain of binary operators over variables holds at most two registers however long it is, while it has one node to evaluate per operator |
| Accounting.RepeatedEvaluation | src/evaluate.rs:490-494 | re-evaluating with the same pool while the caller keeps the previous output allocates at most one register, and exactly one after a cold first run |
| Examples.EvaluateRealFresh | src/lib.rs:77-80 | a real evaluation on a new pool yields the `RealAt` rows and allocates exactly the real footprint |
| Examples.EvaluateBoolFresh | src/lib.rs:120-123 | a boolean evaluation on a new pool yields the `BoolAt` rows, interns `InternedTexts` and allocates exactly the summed footprint |
| Examples.NineTermSumIsThriceRowSum | src/lib.rs:136-149 | each row of the nine-term sum is three times the sum of that row's columns |
| Examples.NineTermSumRows | src/lib.rs:143-149 | the nine-term sum over the test columns is 36, 45, 54 |
| Examples.NineTermSumPeak | src/lib.rs:150 | the nine-term sum holds two real registers at its peak |
| Examples.NaiveAllocationsLimitedByRecycling | src/lib.rs:127-151 | the test yields `[36, 45, 54]` with exactly 2 cold allocations |
| Examples.ScaledProductRows | src/lib.rs:70-79 | `2 * (foo + bar) * -baz` over the test columns is -64, -100, -144 |
| Examples.ScaledProductPeak | src/lib.rs:80 | the scaled product holds three real registers at its peak |
| Examples.RealExpressionTest | src/lib.rs:61-81 | the test yields `[-64, -100, -144]` with exactly 3 cold allocations |
| Examples.NegatedConjunctionRows | src/lib.rs:113-122 | `!(bar < foo && bar < baz)` over the test columns is false, true, false |
| Examples.NegatedConjunctionPeak | src/lib.rs:123 | the negated conjunction holds three bool registers at its peak |
| Examples.BoolExpressionTest | src/lib.rs:104-124 | the test yields `[false, true, false]` with exactly 3 cold allocations |
| Examples.NameIsFooFacts | src/evaluate.rs:349-408 | added example, not a library test: `name == "foo"` interns `"foo"` once, holds one bool and one string register, and matches the rows holding that id |
| Examples.StringLiteralTest | src/evaluate.rs:349-408 | added example, not a library test: a string comparison yields `[true, false, true]`, one callback call and two cold allocations |
| Examples.PrecedenceFacts | src/lib.rs:87-100 | the grouped trees of `1 * 2 + 3 * 4`, `8 / 4 * 3` and `4 ^ 3 ^ 2` evaluate to 14, 6 and 262144 |
| Examples.RealOpPrecedence | src/lib.rs:84-101 | evaluating the three trees yields `[14]`, `[6]` and `[262144]` |
| Examples.RealBenchAllocations | src/lib.rs:163-180 | `(z + (z^2 - 4*x*y)^0.5) / (2*x)` holds three real registers at its peak whatever its constants, so a fresh pool allocates 3 |

## Left out

- Parsing (`src/parse.rs`, the `pest` grammar and its Pratt parser) is not part of this model. The
  example trees are written as the parser groups them: `*` and `/` bind tighter than `+` and `-`, and
  `^` associates to the right.
- The `rayon` branches (`par_extend`) are concurrency. Only the sequential `extend` branches are
  modelled; they compute the same rows.
- Floating-point semantics (`Real`, `powf`, NaN, division by zero) is abstract. It is a `RealOps`
  record of uninterpreted operations, with an integer instance for the examples. Lengths and
  allocation counts do not depend on it.
- `Vec::with_capacity` and capacity retention are not observable. A buffer is a sequence, and a
  cleared buffer is the empty sequence.
- `Evaluate.Registers.AllocateReal`: `num_allocations` is a `nat`, so the `usize` wrap-around after
  2^64 allocations is not modelled. The same holds for `AllocateBool` and `AllocateString`.
- `Evaluate.Interner.Intern`: the interning callback is a deterministic function of its text. A
  stateful `FnMut` whose answers change between calls is not modelled; the record of calls still
  shows how many calls there are and in what order.
- `Evaluate.ExtendZip`: `zip` stops at the shorter operand. Every register and column has
  `register_length` rows, so within an evaluation the operands always have the same length.
- `Evaluate.EvaluateBoolRecursive`: the real comparisons take `RealOps`' `eq`/`gt`/`ge`/`lt`/`le`.
  `!=` is the negation of `eq`, as Rust's `PartialEq` defines it for floating point.
- Panics are preconditions, not modelled outcomes:
  - `validate_bindings`' `assert_eq!` on a column length;
  - the out-of-bounds index of a `Binding` beyond the columns.
- `Examples.BoolExpressionTest`: the test at `src/lib.rs:121` calls `evaluate` with two arguments,
  which does not match the four-argument signature at `src/evaluate.rs:14-20`. The model passes no
  string columns and a callback that is never called.
- `Examples.RealOpPrecedence`: the test at `src/lib.rs:84-101` reuses one pool for its three
  evaluations, while the model uses a new pool for each. The results do not depend on the pool's
  state; allocation counts are not asserted there.
- `empty_binding_map` always panics, and the `unwrap_*` accessors are trivial. Neither is modelled.
