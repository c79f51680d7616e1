/** The library's tests, over an integer instance of the element type, and
    one added example of a string comparison (`NameIsFoo`), which the
    library's tests do not cover. Expressions are written as the trees the
    parser produces for the test's source text; parsing itself is not part
    of this model. */
module Examples {
  import opened Expressions
  import opened Semantics
  import opened Accounting
  import opened Evaluate

  /** `base` raised to a non-negative power; 1 for a negative one. */
  function IntPow(base: int, exponent: int): int
    decreases exponent
  {
    if exponent <= 0 then 1 else base * IntPow(base, exponent - 1)
  }

  /** Integer stand-ins for the floating-point operations (division by zero gives 0). */
  function IntOps(): RealOps<int> {
    RealOps(
      (a, b) => a + b,
      (a, b) => a - b,
      (a, b) => a * b,
      (a, b) => if b == 0 then 0 else a / b,
      IntPow,
      a => -a,
      (a, b) => a == b,
      (a, b) => a > b,
      (a, b) => a >= b,
      (a, b) => a < b,
      (a, b) => a <= b)
  }

  // Columns of the tests: `bar`, `baz`, `foo` are bindings 0, 1 and 2.
  const Bar := RealExpression<int>.Binding(0)
  const Baz := RealExpression<int>.Binding(1)
  const Foo := RealExpression<int>.Binding(2)

  /** The columns of the real-valued tests. */
  function RealColumns(): seq<seq<int>> { [[1, 2, 3], [4, 5, 6], [7, 8, 9]] }

  /** The columns of the boolean test. */
  function BoolColumns(): seq<seq<int>> { [[1, 6, 7], [2, 5, 8], [3, 4, 9]] }

  function Number(value: int): RealExpression<int> { RealExpression.Literal(value) }

  /** The counts of a pool fresh from its constructor. */
  const FreshPool := PoolCounts(0, 0, 0, 0)

  /** `Registers::new(length)`, one real evaluation, then `num_allocations()`. */
  method EvaluateRealFresh<R>(e: RealExpression<R>, ops: RealOps<R>, bindings: seq<seq<R>>, length: nat)
    returns (out: seq<R>, allocations: nat)
    requires ColumnsOfLength(bindings, length)
    requires e.BindingsBelow(|bindings|)
    ensures |out| == length
    ensures forall row :: 0 <= row < |out| ==> out[row] == RealAt(ops, e, bindings, row)
    ensures allocations == RealFootprint(e).reals
  {
    var registers := new Registers<R>(length);
    out := EvaluateReal(e, ops, bindings, registers);
    FromEmptyPool(FreshPool, RealFootprint(e), RealKind);
    allocations := registers.NumAllocations();
  }

  /** `Registers::new(length)`, one boolean evaluation, then `num_allocations()`;
      also returns the texts the interning callback was called on. */
  method EvaluateBoolFresh<R>(e: BoolExpression<R>, ops: RealOps<R>, realBindings: seq<seq<R>>,
                              stringBindings: seq<seq<StringId>>, lookup: string -> StringId, length: nat)
    returns (out: seq<bool>, calls: seq<string>, allocations: nat)
    requires ColumnsOfLength(realBindings, length) && ColumnsOfLength(stringBindings, length)
    requires e.BindingsBelow(|realBindings|, |stringBindings|)
    ensures |out| == length
    ensures forall row :: 0 <= row < |out| ==> out[row] == BoolAt(ops, lookup, e, realBindings, stringBindings, row)
    ensures calls == InternedTexts(e)
    ensures allocations == BoolFootprint(e).reals + BoolFootprint(e).bools + BoolFootprint(e).strings
  {
    var registers := new Registers<R>(length);
    var interner := new Interner(lookup);
    out := EvaluateBool(e, ops, realBindings, stringBindings, interner, registers);
    FromEmptyPool(FreshPool, BoolFootprint(e), BoolKind);
    calls := interner.calls;
    allocations := registers.NumAllocations();
  }

  /** `foo + bar + baz + foo + bar + baz + foo + bar + baz`, left-associated. */
  function NineTermSum(): RealExpression<int> {
    Add(Add(Add(Add(Add(Add(Add(Add(Foo, Bar), Baz), Foo), Bar), Baz), Foo), Bar), Baz)
  }

  /** Each row of the sum is three times the sum of that row's three columns. */
  lemma NineTermSumIsThriceRowSum(columns: seq<seq<int>>, row: nat)
    requires |columns| == 3 && HasRow(columns, row)
    ensures NineTermSum().BindingsBelow(3)
    ensures RealAt(IntOps(), NineTermSum(), columns, row) == 3 * (columns[0][row] + columns[1][row] + columns[2][row])
  {
    var sum := columns[0][row] + columns[1][row] + columns[2][row];
    var once := Add(Add(Foo, Bar), Baz);
    var twice := Add(Add(Add(once, Foo), Bar), Baz);
    assert RealAt(IntOps(), Foo, columns, row) == columns[2][row];
    assert RealAt(IntOps(), Bar, columns, row) == columns[0][row];
    assert RealAt(IntOps(), Baz, columns, row) == columns[1][row];
    assert RealAt(IntOps(), once, columns, row) == sum;
    assert RealAt(IntOps(), Add(Add(once, Foo), Bar), columns, row) == sum + columns[2][row] + columns[0][row];
    assert RealAt(IntOps(), twice, columns, row) == 2 * sum;
    assert RealAt(IntOps(), Add(Add(twice, Foo), Bar), columns, row) == 2 * sum + columns[2][row] + columns[0][row];
  }

  lemma NineTermSumRows()
    ensures NineTermSum().BindingsBelow(3)
    ensures RealAt(IntOps(), NineTermSum(), RealColumns(), 0) == 36
    ensures RealAt(IntOps(), NineTermSum(), RealColumns(), 1) == 45
    ensures RealAt(IntOps(), NineTermSum(), RealColumns(), 2) == 54
  {
    NineTermSumIsThriceRowSum(RealColumns(), 0);
    NineTermSumIsThriceRowSum(RealColumns(), 1);
    NineTermSumIsThriceRowSum(RealColumns(), 2);
  }

  /** Two registers at most: each intermediate sum is held only until the
      next addition's output is filled. */
  lemma NineTermSumPeak()
    ensures RealFootprint(NineTermSum()) == Footprint(2, 0, 0)
  {
  }

  method NaiveAllocationsLimitedByRecycling() returns (out: seq<int>, allocations: nat)
    ensures out == [36, 45, 54]
    ensures allocations == 2
  {
    NineTermSumRows();
    NineTermSumPeak();
    out, allocations := EvaluateRealFresh(NineTermSum(), IntOps(), RealColumns(), 3);
  }

  /** `2 * (foo + bar) * -baz`. */
  function ScaledProduct(): RealExpression<int> {
    Mul(Mul(Number(2), Add(Foo, Bar)), Neg(Baz))
  }

  lemma ScaledProductRows()
    ensures ScaledProduct().BindingsBelow(3)
    ensures RealAt(IntOps(), ScaledProduct(), RealColumns(), 0) == -64
    ensures RealAt(IntOps(), ScaledProduct(), RealColumns(), 1) == -100
    ensures RealAt(IntOps(), ScaledProduct(), RealColumns(), 2) == -144
  {
  }

  lemma ScaledProductPeak()
    ensures RealFootprint(ScaledProduct()) == Footprint(3, 0, 0)
  {
  }

  method RealExpressionTest() returns (out: seq<int>, allocations: nat)
    ensures out == [-64, -100, -144]
    ensures allocations == 3
  {
    ScaledProductRows();
    ScaledProductPeak();
    out, allocations := EvaluateRealFresh(ScaledProduct(), IntOps(), RealColumns(), 3);
  }

  /** The interning callback of a test without string literals. */
  function NoStrings(text: string): StringId { 0 }

  /** `!(bar < foo && bar < baz)`. */
  function NegatedConjunction(): BoolExpression<int> {
    Not(And(Less(Bar, Foo), Less(Bar, Baz)))
  }

  lemma NegatedConjunctionRows(intern: string -> StringId)
    ensures ColumnsOfLength(BoolColumns(), 3)
    ensures NegatedConjunction().BindingsBelow(3, 0)
    ensures !BoolAt(IntOps(), intern, NegatedConjunction(), BoolColumns(), [], 0)
    ensures BoolAt(IntOps(), intern, NegatedConjunction(), BoolColumns(), [], 1)
    ensures !BoolAt(IntOps(), intern, NegatedConjunction(), BoolColumns(), [], 2)
  {
  }

  /** Three boolean registers: both comparisons' outputs and the conjunction's;
      the negation's output reuses one of the comparisons'. */
  lemma NegatedConjunctionPeak()
    ensures BoolFootprint(NegatedConjunction()) == Footprint(0, 3, 0)
  {
  }

  method BoolExpressionTest() returns (out: seq<bool>, allocations: nat)
    ensures |out| == 3 && !out[0] && out[1] && !out[2]
    ensures allocations == 3
  {
    var calls;
    NegatedConjunctionRows(NoStrings);
    NegatedConjunctionPeak();
    out, calls, allocations := EvaluateBoolFresh(NegatedConjunction(), IntOps(), BoolColumns(), [], NoStrings, 3);
  }

  /** Added example, not one of the library's tests: `name == "foo"` where
      `name` is string binding 0. */
  function NameIsFoo(): BoolExpression<int> {
    StrEqual(StringExpression.Binding(0), StringExpression.Literal("foo"))
  }

  /** The interning callback of the string test. */
  function FooIsOne(text: string): StringId { if text == "foo" then 1 else 0 }

  /** The literal is interned once, into a string register that goes back to the pool. */
  lemma NameIsFooFacts()
    ensures NameIsFoo().BindingsBelow(0, 1)
    ensures BoolAt(IntOps(), FooIsOne, NameIsFoo(), [], [[1, 2, 1]], 0)
    ensures !BoolAt(IntOps(), FooIsOne, NameIsFoo(), [], [[1, 2, 1]], 1)
    ensures BoolAt(IntOps(), FooIsOne, NameIsFoo(), [], [[1, 2, 1]], 2)
    ensures InternedTexts(NameIsFoo()) == ["foo"]
    ensures BoolFootprint(NameIsFoo()) == Footprint(0, 1, 1)
  {
  }

  method StringLiteralTest() returns (out: seq<bool>, calls: seq<string>, allocations: nat)
    ensures out == [true, false, true]
    ensures calls == ["foo"]
    ensures allocations == 2
  {
    NameIsFooFacts();
    out, calls, allocations := EvaluateBoolFresh(NameIsFoo(), IntOps(), [], [[1, 2, 1]], FooIsOne, 3);
  }

  /** `1 * 2 + 3 * 4`, `8 / 4 * 3` and `4 ^ 3 ^ 2` as the parser groups them:
      multiplication binds tighter than addition, `*` and `/` associate to
      the left and `^` to the right. */
  lemma PrecedenceFacts()
    ensures RealAt(IntOps(), Add(Mul(Number(1), Number(2)), Mul(Number(3), Number(4))), [], 0) == 14
    ensures RealAt(IntOps(), Mul(Div(Number(8), Number(4)), Number(3)), [], 0) == 6
    ensures RealAt(IntOps(), Pow(Number(4), Pow(Number(3), Number(2))), [], 0) == 262144
  {
    assert IntPow(3, 2) == 9;
    assert IntPow(4, 9) == 262144;
  }

  /** The three expressions, each on a single-row pool. */
  method RealOpPrecedence() returns (first: seq<int>, second: seq<int>, third: seq<int>)
    ensures first == [14] && second == [6] && third == [262144]
  {
    PrecedenceFacts();
    var allocations;
    first, allocations := EvaluateRealFresh(Add(Mul(Number(1), Number(2)), Mul(Number(3), Number(4))), IntOps(), [], 1);
    second, allocations := EvaluateRealFresh(Mul(Div(Number(8), Number(4)), Number(3)), IntOps(), [], 1);
    third, allocations := EvaluateRealFresh(Pow(Number(4), Pow(Number(3), Number(2))), IntOps(), [], 1);
  }

  /** `(z + (z^2 - 4*x*y)^0.5) / (2*x)` needs three registers, so three
      cold allocations from a fresh pool, whatever its constants: register
      use does not depend on values. */
  lemma RealBenchAllocations<R>(two: R, four: R, half: R)
    ensures var x, y, z := RealExpression<R>.Binding(0), RealExpression<R>.Binding(1), RealExpression<R>.Binding(2);
            var e := Div(Add(z, Pow(Sub(Pow(z, RealExpression.Literal(two)), Mul(Mul(RealExpression.Literal(four), x), y)),
                                    RealExpression.Literal(half))),
                         Mul(RealExpression.Literal(two), x));
            RealFootprint(e) == Footprint(3, 0, 0)
  {
    var x, y, z := RealExpression<R>.Binding(0), RealExpression<R>.Binding(1), RealExpression<R>.Binding(2);
    var square := Pow(z, RealExpression.Literal(two));
    var product := Mul(Mul(RealExpression.Literal(four), x), y);
    var discriminant := Sub(square, product);
    var root := Pow(discriminant, RealExpression.Literal(half));
    var denominator := Mul(RealExpression.Literal(two), x);
    assert RealPeak(square) == 2;
    assert RealPeak(Mul(RealExpression.Literal(four), x)) == 2;
    assert RealPeak(product) == 2;
    assert RealPeak(discriminant) == 3;
    assert RealPeak(root) == 3;
    assert RealPeak(Add(z, root)) == 3;
    assert RealPeak(denominator) == 2;
  }
}
