/** Column-at-a-time evaluation with a recycling register pool.

    Every evaluator threads one `Registers` pool. An operand that is directly
    a `Binding` is read in place from the caller's columns; any other operand
    is evaluated into a register. Each operator allocates its output register
    after its operands are resolved, fills it row by row, then returns its
    operands' registers to the pool. Only the sequential path is modelled:
    the data-parallel path computes the same rows. */
module Evaluate {
  import opened Expressions
  import opened Semantics
  import opened Accounting

  datatype Option<T> = None | Some(value: T)

  function Min(a: nat, b: nat): nat { if a < b then a else b }

  /** Scratch space for calculations: one LIFO free-list of registers per
      element kind and a count of the registers ever allocated cold. */
  class Registers<R> {
    var numAllocations: nat
    var realRegisters: seq<seq<R>>
    var boolRegisters: seq<seq<bool>>
    var stringRegisters: seq<seq<StringId>>
    const registerLength: nat

    /** Every pooled register is empty: it is cleared before it is pooled. */
    ghost predicate Valid()
      reads this
    {
      && (forall i :: 0 <= i < |realRegisters| ==> realRegisters[i] == [])
      && (forall i :: 0 <= i < |boolRegisters| ==> boolRegisters[i] == [])
      && (forall i :: 0 <= i < |stringRegisters| ==> stringRegisters[i] == [])
    }

    /** The allocation counter and the length of each free-list. */
    ghost function Counts(): PoolCounts
      reads this
    {
      PoolCounts(numAllocations, |realRegisters|, |boolRegisters|, |stringRegisters|)
    }

    constructor (registerLength: nat)
      ensures Valid() && this.registerLength == registerLength
      ensures numAllocations == 0
      ensures realRegisters == [] && boolRegisters == [] && stringRegisters == []
    {
      this.numAllocations := 0;
      this.realRegisters := [];
      this.boolRegisters := [];
      this.stringRegisters := [];
      this.registerLength := registerLength;
    }

    /** Clears `used` and pushes it onto the real free-list. */
    method RecycleReal(used: seq<R>)
      requires Valid()
      modifies this
      ensures Valid()
      ensures Counts() == Give(old(Counts()), RealKind)
      ensures realRegisters == old(realRegisters) + [[]]
      ensures numAllocations == old(numAllocations)
      ensures boolRegisters == old(boolRegisters) && stringRegisters == old(stringRegisters)
    {
      var cleared := used[..0];
      realRegisters := realRegisters + [cleared];
    }

    /** Clears `used` and pushes it onto the bool free-list. */
    method RecycleBool(used: seq<bool>)
      requires Valid()
      modifies this
      ensures Valid()
      ensures Counts() == Give(old(Counts()), BoolKind)
      ensures boolRegisters == old(boolRegisters) + [[]]
      ensures numAllocations == old(numAllocations)
      ensures realRegisters == old(realRegisters) && stringRegisters == old(stringRegisters)
    {
      var cleared := used[..0];
      boolRegisters := boolRegisters + [cleared];
    }

    /** Clears `used` and pushes it onto the string-id free-list. */
    method RecycleString(used: seq<StringId>)
      requires Valid()
      modifies this
      ensures Valid()
      ensures Counts() == Give(old(Counts()), StringKind)
      ensures stringRegisters == old(stringRegisters) + [[]]
      ensures numAllocations == old(numAllocations)
      ensures realRegisters == old(realRegisters) && boolRegisters == old(boolRegisters)
    {
      var cleared := used[..0];
      stringRegisters := stringRegisters + [cleared];
    }

    /** Pops the most recently recycled real register, or allocates a new one
        and counts it when the free-list is empty. */
    method AllocateReal() returns (register: seq<R>)
      requires Valid()
      modifies this
      ensures Valid() && register == []
      ensures Counts() == Take(old(Counts()), RealKind)
      ensures old(realRegisters) != [] ==>
                && register == old(realRegisters[|realRegisters| - 1])
                && realRegisters == old(realRegisters[..|realRegisters| - 1])
                && numAllocations == old(numAllocations)
      ensures old(realRegisters) == [] ==>
                realRegisters == [] && numAllocations == old(numAllocations) + 1
      ensures boolRegisters == old(boolRegisters) && stringRegisters == old(stringRegisters)
    {
      if realRegisters != [] {
        register := realRegisters[|realRegisters| - 1];
        realRegisters := realRegisters[..|realRegisters| - 1];
      } else {
        numAllocations := numAllocations + 1;
        register := [];
      }
    }

    /** Pops the most recently recycled bool register, or allocates a new one
        and counts it when the free-list is empty. */
    method AllocateBool() returns (register: seq<bool>)
      requires Valid()
      modifies this
      ensures Valid() && register == []
      ensures Counts() == Take(old(Counts()), BoolKind)
      ensures old(boolRegisters) != [] ==>
                && register == old(boolRegisters[|boolRegisters| - 1])
                && boolRegisters == old(boolRegisters[..|boolRegisters| - 1])
                && numAllocations == old(numAllocations)
      ensures old(boolRegisters) == [] ==>
                boolRegisters == [] && numAllocations == old(numAllocations) + 1
      ensures realRegisters == old(realRegisters) && stringRegisters == old(stringRegisters)
    {
      if boolRegisters != [] {
        register := boolRegisters[|boolRegisters| - 1];
        boolRegisters := boolRegisters[..|boolRegisters| - 1];
      } else {
        numAllocations := numAllocations + 1;
        register := [];
      }
    }

    /** Pops the most recently recycled string-id register, or allocates a
        new one and counts it when the free-list is empty. */
    method AllocateString() returns (register: seq<StringId>)
      requires Valid()
      modifies this
      ensures Valid() && register == []
      ensures Counts() == Take(old(Counts()), StringKind)
      ensures old(stringRegisters) != [] ==>
                && register == old(stringRegisters[|stringRegisters| - 1])
                && stringRegisters == old(stringRegisters[..|stringRegisters| - 1])
                && numAllocations == old(numAllocations)
      ensures old(stringRegisters) == [] ==>
                stringRegisters == [] && numAllocations == old(numAllocations) + 1
      ensures realRegisters == old(realRegisters) && boolRegisters == old(boolRegisters)
    {
      if stringRegisters != [] {
        register := stringRegisters[|stringRegisters| - 1];
        stringRegisters := stringRegisters[..|stringRegisters| - 1];
      } else {
        numAllocations := numAllocations + 1;
        register := [];
      }
    }

    /** Number of registers allocated cold over the pool's lifetime. */
    method NumAllocations() returns (n: nat)
      ensures n == numAllocations
    {
      n := numAllocations;
    }
  }

  /** The caller's string-interning callback, with the record of every text
      it has been called on. */
  class Interner {
    const lookup: string -> StringId
    var calls: seq<string>

    constructor (lookup: string -> StringId)
      ensures this.lookup == lookup && calls == []
    {
      this.lookup := lookup;
      this.calls := [];
    }

    method Intern(text: string) returns (id: StringId)
      modifies this
      ensures id == lookup(text)
      ensures calls == old(calls) + [text]
    {
      id := lookup(text);
      calls := calls + [text];
    }
  }

  /** Checks that every input column has exactly `expectedLength` rows,
      stopping at the first that does not. */
  method ValidateBindings<T>(inputBindings: seq<seq<T>>, expectedLength: nat) returns (ok: bool)
    ensures ok <==> ColumnsOfLength(inputBindings, expectedLength)
  {
    var i := 0;
    while i < |inputBindings|
      invariant 0 <= i <= |inputBindings|
      invariant forall b :: 0 <= b < i ==> |inputBindings[b]| == expectedLength
    {
      if |inputBindings[i]| != expectedLength {
        return false;
      }
      i := i + 1;
    }
    return true;
  }

  // ----- Filling an output register row by row -----

  /** Appends a copy of `source` to `output`. */
  method ExtendFromSlice<T>(output: seq<T>, source: seq<T>) returns (extended: seq<T>)
    ensures |extended| == |output| + |source|
    ensures extended[..|output|] == output
    ensures forall i :: 0 <= i < |source| ==> extended[|output| + i] == source[i]
  {
    extended := output;
    var i := 0;
    while i < |source|
      invariant 0 <= i <= |source|
      invariant |extended| == |output| + i
      invariant extended[..|output|] == output
      invariant forall k :: 0 <= k < i ==> extended[|output| + k] == source[k]
    {
      extended := extended + [source[i]];
      i := i + 1;
    }
  }

  /** Appends `count` copies of `value` to `output`. */
  method ExtendRepeat<T>(output: seq<T>, value: T, count: nat) returns (extended: seq<T>)
    ensures |extended| == |output| + count
    ensures extended[..|output|] == output
    ensures forall i :: |output| <= i < |extended| ==> extended[i] == value
  {
    extended := output;
    var i := 0;
    while i < count
      invariant 0 <= i <= count
      invariant |extended| == |output| + i
      invariant extended[..|output|] == output
      invariant forall k :: |output| <= k < |extended| ==> extended[k] == value
    {
      extended := extended + [value];
      i := i + 1;
    }
  }

  /** Appends `op` applied to each row of `only`. */
  method ExtendMap<A, T>(output: seq<T>, only: seq<A>, op: A -> T) returns (extended: seq<T>)
    ensures |extended| == |output| + |only|
    ensures extended[..|output|] == output
    ensures forall i :: 0 <= i < |only| ==> extended[|output| + i] == op(only[i])
  {
    extended := output;
    var i := 0;
    while i < |only|
      invariant 0 <= i <= |only|
      invariant |extended| == |output| + i
      invariant extended[..|output|] == output
      invariant forall k :: 0 <= k < i ==> extended[|output| + k] == op(only[k])
    {
      extended := extended + [op(only[i])];
      i := i + 1;
    }
  }

  /** Appends `op` applied to each pair of rows of `lhs` and `rhs`, up to the shorter of the two. */
  method ExtendZip<A, B, T>(output: seq<T>, lhs: seq<A>, rhs: seq<B>, op: (A, B) -> T) returns (extended: seq<T>)
    ensures |extended| == |output| + Min(|lhs|, |rhs|)
    ensures extended[..|output|] == output
    ensures forall i :: 0 <= i < Min(|lhs|, |rhs|) ==> extended[|output| + i] == op(lhs[i], rhs[i])
  {
    extended := output;
    var i := 0;
    while i < Min(|lhs|, |rhs|)
      invariant 0 <= i <= Min(|lhs|, |rhs|)
      invariant |extended| == |output| + i
      invariant extended[..|output|] == output
      invariant forall k :: 0 <= k < i ==> extended[|output| + k] == op(lhs[k], rhs[k])
    {
      extended := extended + [op(lhs[i], rhs[i])];
      i := i + 1;
    }
  }

  // ----- Real expressions -----

  /** A resolved real operand: a register of its values when it was
      evaluated, or the bound column itself when it is read in place. */
  ghost predicate ResolvedReal<R>(e: RealExpression<R>, reg: Option<seq<R>>, values: seq<R>,
                                  ops: RealOps<R>, bindings: seq<seq<R>>, length: nat)
    requires e.BindingsBelow(|bindings|) && ColumnsOfLength(bindings, length)
  {
    && (reg.Some? <==> !e.Binding?)
    && (reg.Some? ==> values == reg.value)
    && |values| == length
    && forall row :: 0 <= row < length ==> values[row] == RealAt(ops, e, bindings, row)
  }

  /** Real-valued results of `e`, one per row, with the binding lengths checked first. */
  method EvaluateReal<R>(e: RealExpression<R>, ops: RealOps<R>, bindings: seq<seq<R>>, registers: Registers<R>)
    returns (out: seq<R>)
    requires registers.Valid()
    requires ColumnsOfLength(bindings, registers.registerLength)
    requires e.BindingsBelow(|bindings|)
    modifies registers
    ensures registers.Valid()
    ensures |out| == registers.registerLength
    ensures forall row :: 0 <= row < |out| ==> out[row] == RealAt(ops, e, bindings, row)
    ensures registers.Counts() == Settle(old(registers.Counts()), RealFootprint(e), RealKind)
  {
    var ok := ValidateBindings(bindings, registers.registerLength);
    assert ok;
    out := EvaluateRealRecursive(e, ops, bindings, registers);
  }

  /** Evaluation of an expression that reads no input column. */
  method EvaluateRealWithoutVars<R>(e: RealExpression<R>, ops: RealOps<R>, registers: Registers<R>)
    returns (out: seq<R>)
    requires registers.Valid()
    requires e.BindingsBelow(0)
    modifies registers
    ensures registers.Valid()
    ensures |out| == registers.registerLength
    ensures forall row :: 0 <= row < |out| ==> out[row] == RealAt(ops, e, [], row)
    ensures registers.Counts() == Settle(old(registers.Counts()), RealFootprint(e), RealKind)
  {
    out := EvaluateReal(e, ops, [], registers);
  }

  method EvaluateRealRecursive<R>(e: RealExpression<R>, ops: RealOps<R>, bindings: seq<seq<R>>, registers: Registers<R>)
    returns (out: seq<R>)
    requires registers.Valid()
    requires ColumnsOfLength(bindings, registers.registerLength)
    requires e.BindingsBelow(|bindings|)
    modifies registers
    ensures registers.Valid()
    ensures |out| == registers.registerLength
    ensures forall row :: 0 <= row < |out| ==> out[row] == RealAt(ops, e, bindings, row)
    ensures registers.Counts() == Settle(old(registers.Counts()), RealFootprint(e), RealKind)
    decreases e.Size(), 3
  {
    match e
    case Add(lhs, rhs) =>
      out := EvaluateBinaryRealOp(ops.add, lhs, rhs, ops, bindings, registers);
    case Binding(binding) =>
      // Taken only when the whole expression is one binding.
      LeafSteps(registers.Counts());
      var output := registers.AllocateReal();
      out := ExtendFromSlice(output, bindings[binding]);
    case Div(lhs, rhs) =>
      out := EvaluateBinaryRealOp(ops.div, lhs, rhs, ops, bindings, registers);
    case Literal(value) =>
      LeafSteps(registers.Counts());
      var output := registers.AllocateReal();
      out := ExtendRepeat(output, value, registers.registerLength);
    case Mul(lhs, rhs) =>
      out := EvaluateBinaryRealOp(ops.mul, lhs, rhs, ops, bindings, registers);
    case Neg(only) =>
      out := EvaluateUnaryRealOp(ops.neg, only, ops, bindings, registers);
    case Pow(lhs, rhs) =>
      out := EvaluateBinaryRealOp(ops.pow, lhs, rhs, ops, bindings, registers);
    case Sub(lhs, rhs) =>
      out := EvaluateBinaryRealOp(ops.sub, lhs, rhs, ops, bindings, registers);
  }

  /** Resolves an operand of a real operator: a variable is read in place
      from its column, anything else is evaluated into a register. */
  method ResolveRealOperand<R>(operand: RealExpression<R>, ops: RealOps<R>, bindings: seq<seq<R>>, registers: Registers<R>)
    returns (reg: Option<seq<R>>, values: seq<R>)
    requires registers.Valid()
    requires ColumnsOfLength(bindings, registers.registerLength)
    requires operand.BindingsBelow(|bindings|)
    modifies registers
    ensures registers.Valid()
    ensures ResolvedReal(operand, reg, values, ops, bindings, registers.registerLength)
    ensures registers.Counts() == OperandStep(old(registers.Counts()), operand)
    decreases operand.Size(), 4
  {
    reg := None;
    if operand.Binding? {
      values := bindings[operand.binding];
    } else {
      var evaluated := EvaluateRealRecursive(operand, ops, bindings, registers);
      reg := Some(evaluated);
      values := evaluated;
    }
  }

  /** Resolves both operands of a binary real operator or comparison, lhs first. */
  method ResolveRealOperands<R>(lhs: RealExpression<R>, rhs: RealExpression<R>, ops: RealOps<R>,
                                bindings: seq<seq<R>>, registers: Registers<R>)
    returns (lhsReg: Option<seq<R>>, lhsValues: seq<R>, rhsReg: Option<seq<R>>, rhsValues: seq<R>)
    requires registers.Valid()
    requires ColumnsOfLength(bindings, registers.registerLength)
    requires lhs.BindingsBelow(|bindings|) && rhs.BindingsBelow(|bindings|)
    modifies registers
    ensures registers.Valid()
    ensures ResolvedReal(lhs, lhsReg, lhsValues, ops, bindings, registers.registerLength)
    ensures ResolvedReal(rhs, rhsReg, rhsValues, ops, bindings, registers.registerLength)
    ensures registers.Counts() == OperandStep(OperandStep(old(registers.Counts()), lhs), rhs)
    decreases lhs.Size() + rhs.Size() + 1, 1
  {
    lhsReg, lhsValues := ResolveRealOperand(lhs, ops, bindings, registers);
    rhsReg, rhsValues := ResolveRealOperand(rhs, ops, bindings, registers);
  }

  /** Returns the operands' registers, if they have any, to the pool: lhs first. */
  method ReleaseRealOperands<R>(lhs: RealExpression<R>, lhsReg: Option<seq<R>>,
                                rhs: RealExpression<R>, rhsReg: Option<seq<R>>, registers: Registers<R>)
    requires registers.Valid()
    requires lhsReg.Some? <==> !lhs.Binding?
    requires rhsReg.Some? <==> !rhs.Binding?
    modifies registers
    ensures registers.Valid()
    ensures registers.Counts() == OperandRelease(OperandRelease(old(registers.Counts()), lhs), rhs)
  {
    if lhsReg.Some? {
      registers.RecycleReal(lhsReg.value);
    }
    if rhsReg.Some? {
      registers.RecycleReal(rhsReg.value);
    }
  }

  method EvaluateBinaryRealOp<R>(op: (R, R) -> R, lhs: RealExpression<R>, rhs: RealExpression<R>,
                                 ops: RealOps<R>, bindings: seq<seq<R>>, registers: Registers<R>)
    returns (out: seq<R>)
    requires registers.Valid()
    requires ColumnsOfLength(bindings, registers.registerLength)
    requires lhs.BindingsBelow(|bindings|) && rhs.BindingsBelow(|bindings|)
    modifies registers
    ensures registers.Valid()
    ensures |out| == registers.registerLength
    ensures forall row :: 0 <= row < |out| ==>
              out[row] == op(RealAt(ops, lhs, bindings, row), RealAt(ops, rhs, bindings, row))
    ensures registers.Counts() == Settle(old(registers.Counts()), Footprint(BinaryRealPeak(lhs, rhs), 0, 0), RealKind)
    decreases lhs.Size() + rhs.Size() + 1, 2
  {
    ghost var c0 := registers.Counts();
    var lhsReg, lhsValues, rhsReg, rhsValues := ResolveRealOperands(lhs, rhs, ops, bindings, registers);
    // The output register is allocated as late as possible.
    var output := registers.AllocateReal();
    out := ExtendZip(output, lhsValues, rhsValues, op);
    ZippedRows(out, output, lhsValues, rhsValues, op, ops, lhs, rhs, bindings);
    ReleaseRealOperands(lhs, lhsReg, rhs, rhsReg, registers);
    BinaryRealSteps(c0, lhs, rhs);
  }

  /** The rows of a zip over two resolved real operands. */
  lemma ZippedRows<R, T>(out: seq<T>, output: seq<T>, lhsValues: seq<R>, rhsValues: seq<R>, op: (R, R) -> T,
                         ops: RealOps<R>, lhs: RealExpression<R>, rhs: RealExpression<R>, bindings: seq<seq<R>>)
    requires output == [] && |lhsValues| == |rhsValues|
    requires |out| == |output| + Min(|lhsValues|, |rhsValues|)
    requires forall i :: 0 <= i < Min(|lhsValues|, |rhsValues|) ==> out[|output| + i] == op(lhsValues[i], rhsValues[i])
    requires lhs.BindingsBelow(|bindings|) && rhs.BindingsBelow(|bindings|)
    requires ColumnsOfLength(bindings, |lhsValues|)
    requires forall row :: 0 <= row < |lhsValues| ==> lhsValues[row] == RealAt(ops, lhs, bindings, row)
    requires forall row :: 0 <= row < |rhsValues| ==> rhsValues[row] == RealAt(ops, rhs, bindings, row)
    ensures |out| == |lhsValues|
    ensures forall row :: 0 <= row < |out| ==>
              out[row] == op(RealAt(ops, lhs, bindings, row), RealAt(ops, rhs, bindings, row))
  {
    forall row | 0 <= row < |out|
      ensures out[row] == op(RealAt(ops, lhs, bindings, row), RealAt(ops, rhs, bindings, row))
    {
      assert out[|output| + row] == op(lhsValues[row], rhsValues[row]);
    }
  }

  /** The rows of a map over one resolved real operand. */
  lemma MappedRows<R>(out: seq<R>, output: seq<R>, onlyValues: seq<R>, op: R -> R,
                      ops: RealOps<R>, only: RealExpression<R>, bindings: seq<seq<R>>)
    requires output == []
    requires |out| == |output| + |onlyValues|
    requires forall i :: 0 <= i < |onlyValues| ==> out[|output| + i] == op(onlyValues[i])
    requires only.BindingsBelow(|bindings|) && ColumnsOfLength(bindings, |onlyValues|)
    requires forall row :: 0 <= row < |onlyValues| ==> onlyValues[row] == RealAt(ops, only, bindings, row)
    ensures |out| == |onlyValues|
    ensures forall row :: 0 <= row < |out| ==> out[row] == op(RealAt(ops, only, bindings, row))
  {
    forall row | 0 <= row < |out|
      ensures out[row] == op(RealAt(ops, only, bindings, row))
    {
      assert out[|output| + row] == op(onlyValues[row]);
    }
  }

  method EvaluateUnaryRealOp<R>(op: R -> R, only: RealExpression<R>,
                                ops: RealOps<R>, bindings: seq<seq<R>>, registers: Registers<R>)
    returns (out: seq<R>)
    requires registers.Valid()
    requires ColumnsOfLength(bindings, registers.registerLength)
    requires only.BindingsBelow(|bindings|)
    modifies registers
    ensures registers.Valid()
    ensures |out| == registers.registerLength
    ensures forall row :: 0 <= row < |out| ==> out[row] == op(RealAt(ops, only, bindings, row))
    ensures registers.Counts() == Settle(old(registers.Counts()), Footprint(UnaryRealPeak(only), 0, 0), RealKind)
    decreases only.Size() + 1, 2
  {
    ghost var c0 := registers.Counts();
    var onlyReg, onlyValues := ResolveRealOperand(only, ops, bindings, registers);
    var output := registers.AllocateReal();
    out := ExtendMap(output, onlyValues, op);
    MappedRows(out, output, onlyValues, op, ops, only, bindings);
    if onlyReg.Some? {
      registers.RecycleReal(onlyReg.value);
    }
    UnaryRealSteps(c0, only);
  }

  // ----- Boolean expressions -----

  /** Boolean results of `e`, one per row, with the binding lengths checked first. */
  method EvaluateBool<R>(e: BoolExpression<R>, ops: RealOps<R>, realBindings: seq<seq<R>>,
                         stringBindings: seq<seq<StringId>>, interner: Interner, registers: Registers<R>)
    returns (out: seq<bool>)
    requires registers.Valid()
    requires ColumnsOfLength(realBindings, registers.registerLength)
    requires ColumnsOfLength(stringBindings, registers.registerLength)
    requires e.BindingsBelow(|realBindings|, |stringBindings|)
    modifies registers, interner
    ensures registers.Valid()
    ensures |out| == registers.registerLength
    ensures forall row :: 0 <= row < |out| ==>
              out[row] == BoolAt(ops, interner.lookup, e, realBindings, stringBindings, row)
    ensures interner.calls == old(interner.calls) + InternedTexts(e)
    ensures registers.Counts() == Settle(old(registers.Counts()), BoolFootprint(e), BoolKind)
  {
    var realOk := ValidateBindings(realBindings, registers.registerLength);
    assert realOk;
    var stringOk := ValidateBindings(stringBindings, registers.registerLength);
    assert stringOk;
    out := EvaluateBoolRecursive(e, ops, realBindings, stringBindings, interner, registers);
  }

  method EvaluateBoolRecursive<R>(e: BoolExpression<R>, ops: RealOps<R>, realBindings: seq<seq<R>>,
                                  stringBindings: seq<seq<StringId>>, interner: Interner, registers: Registers<R>)
    returns (out: seq<bool>)
    requires registers.Valid()
    requires ColumnsOfLength(realBindings, registers.registerLength)
    requires ColumnsOfLength(stringBindings, registers.registerLength)
    requires e.BindingsBelow(|realBindings|, |stringBindings|)
    modifies registers, interner
    ensures registers.Valid()
    ensures |out| == registers.registerLength
    ensures forall row :: 0 <= row < |out| ==>
              out[row] == BoolAt(ops, interner.lookup, e, realBindings, stringBindings, row)
    ensures interner.calls == old(interner.calls) + InternedTexts(e)
    ensures registers.Counts() == Settle(old(registers.Counts()), BoolFootprint(e), BoolKind)
    decreases e.Size(), 1
  {
    match e
    case And(lhs, rhs) =>
      out := EvaluateBinaryLogic((a, b) => a && b, lhs, rhs, ops, realBindings, stringBindings, interner, registers);
    case Equal(lhs, rhs) =>
      out := EvaluateRealComparison(ops.eq, lhs, rhs, ops, realBindings, registers);
    case Greater(lhs, rhs) =>
      out := EvaluateRealComparison(ops.gt, lhs, rhs, ops, realBindings, registers);
    case GreaterEqual(lhs, rhs) =>
      out := EvaluateRealComparison(ops.ge, lhs, rhs, ops, realBindings, registers);
    case Less(lhs, rhs) =>
      out := EvaluateRealComparison(ops.lt, lhs, rhs, ops, realBindings, registers);
    case LessEqual(lhs, rhs) =>
      out := EvaluateRealComparison(ops.le, lhs, rhs, ops, realBindings, registers);
    case Not(only) =>
      out := EvaluateUnaryLogic(a => !a, only, ops, realBindings, stringBindings, interner, registers);
    case NotEqual(lhs, rhs) =>
      out := EvaluateRealComparison((a, b) => !ops.eq(a, b), lhs, rhs, ops, realBindings, registers);
    case Or(lhs, rhs) =>
      out := EvaluateBinaryLogic((a, b) => a || b, lhs, rhs, ops, realBindings, stringBindings, interner, registers);
    case StrEqual(lhs, rhs) =>
      out := EvaluateStringComparison((a, b) => a == b, lhs, rhs, stringBindings, interner, registers);
    case StrNotEqual(lhs, rhs) =>
      out := EvaluateStringComparison((a, b) => a != b, lhs, rhs, stringBindings, interner, registers);
  }

  method EvaluateRealComparison<R>(op: (R, R) -> bool, lhs: RealExpression<R>, rhs: RealExpression<R>,
                                   ops: RealOps<R>, bindings: seq<seq<R>>, registers: Registers<R>)
    returns (out: seq<bool>)
    requires registers.Valid()
    requires ColumnsOfLength(bindings, registers.registerLength)
    requires lhs.BindingsBelow(|bindings|) && rhs.BindingsBelow(|bindings|)
    modifies registers
    ensures registers.Valid()
    ensures |out| == registers.registerLength
    ensures forall row :: 0 <= row < |out| ==>
              out[row] == op(RealAt(ops, lhs, bindings, row), RealAt(ops, rhs, bindings, row))
    ensures registers.Counts() == Settle(old(registers.Counts()), ComparisonFootprint(lhs, rhs), BoolKind)
  {
    ghost var c0 := registers.Counts();
    var lhsReg, lhsValues, rhsReg, rhsValues := ResolveRealOperands(lhs, rhs, ops, bindings, registers);
    out := CompareValues(op, lhsValues, rhsValues, registers);
    ReleaseRealOperands(lhs, lhsReg, rhs, rhsReg, registers);
    ComparisonSteps(c0, lhs, rhs);
  }

  /** Allocates the output of a comparison and fills it from the operands' values. */
  method CompareValues<T, R>(op: (T, T) -> bool, lhsValues: seq<T>, rhsValues: seq<T>, registers: Registers<R>)
    returns (out: seq<bool>)
    requires registers.Valid()
    requires |lhsValues| == |rhsValues| == registers.registerLength
    modifies registers
    ensures registers.Valid()
    ensures |out| == registers.registerLength
    ensures forall row :: 0 <= row < |out| ==> out[row] == op(lhsValues[row], rhsValues[row])
    ensures registers.Counts() == Take(old(registers.Counts()), BoolKind)
  {
    var output := registers.AllocateBool();
    out := ExtendZip(output, lhsValues, rhsValues, op);
  }

  method EvaluateStringComparison<R>(op: (StringId, StringId) -> bool, lhs: StringExpression, rhs: StringExpression,
                                     bindings: seq<seq<StringId>>, interner: Interner, registers: Registers<R>)
    returns (out: seq<bool>)
    requires registers.Valid()
    requires ColumnsOfLength(bindings, registers.registerLength)
    requires lhs.BindingsBelow(|bindings|) && rhs.BindingsBelow(|bindings|)
    modifies registers, interner
    ensures registers.Valid()
    ensures |out| == registers.registerLength
    ensures forall row :: 0 <= row < |out| ==>
              out[row] == op(StringAt(interner.lookup, lhs, bindings, row), StringAt(interner.lookup, rhs, bindings, row))
    ensures interner.calls == old(interner.calls) + (OperandTexts(lhs) + OperandTexts(rhs))
    ensures registers.Counts() == Settle(old(registers.Counts()), StringComparisonFootprint(lhs, rhs), BoolKind)
  {
    ghost var c0, calls0 := registers.Counts(), interner.calls;
    var lhsReg, lhsValues := ResolveStringOperand(lhs, bindings, interner, registers);
    var rhsReg, rhsValues := ResolveStringOperand(rhs, bindings, interner, registers);
    // The output register is allocated as late as possible.
    out := CompareValues(op, lhsValues, rhsValues, registers);
    if lhsReg.Some? {
      registers.RecycleString(lhsReg.value);
    }
    if rhsReg.Some? {
      registers.RecycleString(rhsReg.value);
    }
    StringComparisonSteps(c0, lhs, rhs);
    AppendInTurn(calls0, OperandTexts(lhs), OperandTexts(rhs));
  }

  /** A log appended to twice holds both additions, in order. */
  lemma AppendInTurn<T>(log: seq<T>, first: seq<T>, second: seq<T>)
    ensures log + first + second == log + (first + second)
  {
  }

  /** Resolves an operand of a string comparison: a variable is read in place
      from its column; a literal is interned once and repeated into a string
      register. */
  method ResolveStringOperand<R>(operand: StringExpression, bindings: seq<seq<StringId>>,
                                 interner: Interner, registers: Registers<R>)
    returns (reg: Option<seq<StringId>>, values: seq<StringId>)
    requires registers.Valid()
    requires ColumnsOfLength(bindings, registers.registerLength)
    requires operand.BindingsBelow(|bindings|)
    modifies registers, interner
    ensures registers.Valid()
    ensures reg.Some? <==> operand.Literal?
    ensures |values| == registers.registerLength
    ensures forall row :: 0 <= row < |values| ==> values[row] == StringAt(interner.lookup, operand, bindings, row)
    ensures interner.calls == old(interner.calls) + OperandTexts(operand)
    ensures registers.Counts() == StringOperandStep(old(registers.Counts()), operand)
  {
    match operand {
      case Binding(binding) =>
        reg := None;
        values := bindings[binding];
      case Literal(literalValue) =>
        var register := registers.AllocateString();
        var literalId := interner.Intern(literalValue);
        register := ExtendRepeat(register, literalId, registers.registerLength);
        reg := Some(register);
        values := register;
    }
  }

  method EvaluateBinaryLogic<R>(op: (bool, bool) -> bool, lhs: BoolExpression<R>, rhs: BoolExpression<R>,
                                ops: RealOps<R>, realBindings: seq<seq<R>>, stringBindings: seq<seq<StringId>>,
                                interner: Interner, registers: Registers<R>)
    returns (out: seq<bool>)
    requires registers.Valid()
    requires ColumnsOfLength(realBindings, registers.registerLength)
    requires ColumnsOfLength(stringBindings, registers.registerLength)
    requires lhs.BindingsBelow(|realBindings|, |stringBindings|) && rhs.BindingsBelow(|realBindings|, |stringBindings|)
    modifies registers, interner
    ensures registers.Valid()
    ensures |out| == registers.registerLength
    ensures forall row :: 0 <= row < |out| ==>
              out[row] == op(BoolAt(ops, interner.lookup, lhs, realBindings, stringBindings, row),
                             BoolAt(ops, interner.lookup, rhs, realBindings, stringBindings, row))
    ensures interner.calls == old(interner.calls) + (InternedTexts(lhs) + InternedTexts(rhs))
    ensures registers.Counts() == Settle(old(registers.Counts()), LogicFootprint(lhs, rhs), BoolKind)
    decreases lhs.Size() + rhs.Size() + 1, 0
  {
    // Both operands are always evaluated into registers: there is no short circuit.
    ghost var c0, calls0 := registers.Counts(), interner.calls;
    var lhsValues := EvaluateBoolRecursive(lhs, ops, realBindings, stringBindings, interner, registers);
    var rhsValues := EvaluateBoolRecursive(rhs, ops, realBindings, stringBindings, interner, registers);
    out := CombineBools(op, lhsValues, rhsValues, registers);
    LogicSteps(c0, lhs, rhs);
    AppendInTurn(calls0, InternedTexts(lhs), InternedTexts(rhs));
  }

  /** Allocates the output of a binary logic operator, fills it from its
      operands' values, then returns both operands' registers to the pool. */
  method CombineBools<R>(op: (bool, bool) -> bool, lhsValues: seq<bool>, rhsValues: seq<bool>, registers: Registers<R>)
    returns (out: seq<bool>)
    requires registers.Valid()
    requires |lhsValues| == |rhsValues| == registers.registerLength
    modifies registers
    ensures registers.Valid()
    ensures |out| == registers.registerLength
    ensures forall row :: 0 <= row < |out| ==> out[row] == op(lhsValues[row], rhsValues[row])
    ensures registers.Counts() == Give(Give(Take(old(registers.Counts()), BoolKind), BoolKind), BoolKind)
  {
    var output := registers.AllocateBool();
    out := ExtendZip(output, lhsValues, rhsValues, op);
    registers.RecycleBool(lhsValues);
    registers.RecycleBool(rhsValues);
  }

  method EvaluateUnaryLogic<R>(op: bool -> bool, only: BoolExpression<R>,
                               ops: RealOps<R>, realBindings: seq<seq<R>>, stringBindings: seq<seq<StringId>>,
                               interner: Interner, registers: Registers<R>)
    returns (out: seq<bool>)
    requires registers.Valid()
    requires ColumnsOfLength(realBindings, registers.registerLength)
    requires ColumnsOfLength(stringBindings, registers.registerLength)
    requires only.BindingsBelow(|realBindings|, |stringBindings|)
    modifies registers, interner
    ensures registers.Valid()
    ensures |out| == registers.registerLength
    ensures forall row :: 0 <= row < |out| ==>
              out[row] == op(BoolAt(ops, interner.lookup, only, realBindings, stringBindings, row))
    ensures interner.calls == old(interner.calls) + InternedTexts(only)
    ensures registers.Counts() == Settle(old(registers.Counts()), NotFootprint(only), BoolKind)
    decreases only.Size() + 1, 0
  {
    ghost var c0 := registers.Counts();
    var onlyValues := EvaluateBoolRecursive(only, ops, realBindings, stringBindings, interner, registers);
    out := MapBools(op, onlyValues, registers);
    NotSteps(c0, only);
  }

  /** Allocates the output of a unary logic operator, fills it from its
      operand's values, then returns the operand's register to the pool. */
  method MapBools<R>(op: bool -> bool, onlyValues: seq<bool>, registers: Registers<R>)
    returns (out: seq<bool>)
    requires registers.Valid()
    requires |onlyValues| == registers.registerLength
    modifies registers
    ensures registers.Valid()
    ensures |out| == registers.registerLength
    ensures forall row :: 0 <= row < |out| ==> out[row] == op(onlyValues[row])
    ensures registers.Counts() == Give(Take(old(registers.Counts()), BoolKind), BoolKind)
  {
    var output := registers.AllocateBool();
    out := ExtendMap(output, onlyValues, op);
    registers.RecycleBool(onlyValues);
  }
}
