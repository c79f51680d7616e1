/** Reference meaning of an expression, one row at a time.

    The evaluator works a whole column at a time; these functions say what
    each row of its result must be, independently of registers and of the
    order in which the evaluator visits the tree. */
module Semantics {
  import opened Expressions

  /** An interned string: the evaluator compares strings by these ids only. */
  newtype StringId = x: int | 0 <= x < 0x1_0000_0000

  /** The scalar operations of the real element type (a floating-point type
      in the library, abstract here). `!=` is the negation of `eq`, as it is
      for floating point, NaN included. */
  datatype RealOps<!R> = RealOps(
    add: (R, R) -> R,
    sub: (R, R) -> R,
    mul: (R, R) -> R,
    div: (R, R) -> R,
    pow: (R, R) -> R,
    neg: R -> R,
    eq: (R, R) -> bool,
    gt: (R, R) -> bool,
    ge: (R, R) -> bool,
    lt: (R, R) -> bool,
    le: (R, R) -> bool)

  /** Every column has exactly `length` rows. */
  predicate ColumnsOfLength<T>(columns: seq<seq<T>>, length: nat) {
    forall b :: 0 <= b < |columns| ==> |columns[b]| == length
  }

  /** Every column has a row `row`. */
  predicate HasRow<T>(columns: seq<seq<T>>, row: nat) {
    forall b :: 0 <= b < |columns| ==> row < |columns[b]|
  }

  /** Value of a real expression at one row. */
  function RealAt<R>(ops: RealOps<R>, e: RealExpression<R>, columns: seq<seq<R>>, row: nat): R
    requires e.BindingsBelow(|columns|) && HasRow(columns, row)
  {
    match e
    case Add(l, r) => ops.add(RealAt(ops, l, columns, row), RealAt(ops, r, columns, row))
    case Div(l, r) => ops.div(RealAt(ops, l, columns, row), RealAt(ops, r, columns, row))
    case Mul(l, r) => ops.mul(RealAt(ops, l, columns, row), RealAt(ops, r, columns, row))
    case Pow(l, r) => ops.pow(RealAt(ops, l, columns, row), RealAt(ops, r, columns, row))
    case Sub(l, r) => ops.sub(RealAt(ops, l, columns, row), RealAt(ops, r, columns, row))
    case Neg(o) => ops.neg(RealAt(ops, o, columns, row))
    case Literal(v) => v
    case Binding(b) => columns[b][row]
  }

  /** Value of a string operand at one row: a literal is its interned id. */
  function StringAt(intern: string -> StringId, e: StringExpression, columns: seq<seq<StringId>>, row: nat): StringId
    requires e.BindingsBelow(|columns|) && HasRow(columns, row)
  {
    match e
    case Literal(text) => intern(text)
    case Binding(b) => columns[b][row]
  }

  /** Value of a boolean expression at one row. */
  function BoolAt<R>(ops: RealOps<R>, intern: string -> StringId, e: BoolExpression<R>,
                     reals: seq<seq<R>>, strings: seq<seq<StringId>>, row: nat): bool
    requires e.BindingsBelow(|reals|, |strings|) && HasRow(reals, row) && HasRow(strings, row)
  {
    match e
    case And(l, r) => BoolAt(ops, intern, l, reals, strings, row) && BoolAt(ops, intern, r, reals, strings, row)
    case Or(l, r) => BoolAt(ops, intern, l, reals, strings, row) || BoolAt(ops, intern, r, reals, strings, row)
    case Not(o) => !BoolAt(ops, intern, o, reals, strings, row)
    case Equal(l, r) => ops.eq(RealAt(ops, l, reals, row), RealAt(ops, r, reals, row))
    case Greater(l, r) => ops.gt(RealAt(ops, l, reals, row), RealAt(ops, r, reals, row))
    case GreaterEqual(l, r) => ops.ge(RealAt(ops, l, reals, row), RealAt(ops, r, reals, row))
    case Less(l, r) => ops.lt(RealAt(ops, l, reals, row), RealAt(ops, r, reals, row))
    case LessEqual(l, r) => ops.le(RealAt(ops, l, reals, row), RealAt(ops, r, reals, row))
    case NotEqual(l, r) => !ops.eq(RealAt(ops, l, reals, row), RealAt(ops, r, reals, row))
    case StrEqual(l, r) => StringAt(intern, l, strings, row) == StringAt(intern, r, strings, row)
    case StrNotEqual(l, r) => StringAt(intern, l, strings, row) != StringAt(intern, r, strings, row)
  }

  /** The texts handed to the interning callback while evaluating one string
      comparison operand: a literal once, a binding never. */
  function OperandTexts(e: StringExpression): (texts: seq<string>)
    ensures |texts| <= 1
    ensures texts == [] <==> e.Binding?
  {
    match e
    case Literal(text) => [text]
    case Binding(_) => []
  }

  /** The texts handed to the interning callback while evaluating `e`, in
      call order: one call per string literal node, left operand first. */
  function InternedTexts<R>(e: BoolExpression<R>): seq<string> {
    match e
    case And(l, r) => InternedTexts(l) + InternedTexts(r)
    case Or(l, r) => InternedTexts(l) + InternedTexts(r)
    case Not(o) => InternedTexts(o)
    case StrEqual(l, r) => OperandTexts(l) + OperandTexts(r)
    case StrNotEqual(l, r) => OperandTexts(l) + OperandTexts(r)
    case _ => []
  }

  /** Two column arrays that agree at one row. */
  ghost predicate AgreeAt<T>(c1: seq<seq<T>>, c2: seq<seq<T>>, row: nat)
    requires HasRow(c1, row) && HasRow(c2, row)
  {
    |c1| == |c2| && forall b :: 0 <= b < |c1| ==> c1[b][row] == c2[b][row]
  }

  /** Row `row` of a real result depends on row `row` of the inputs only. */
  lemma {:induction false} RealAtReadsOnlyItsRow<R>(ops: RealOps<R>, e: RealExpression<R>,
                                                    c1: seq<seq<R>>, c2: seq<seq<R>>, row: nat)
    requires e.BindingsBelow(|c1|) && HasRow(c1, row) && HasRow(c2, row) && AgreeAt(c1, c2, row)
    ensures e.BindingsBelow(|c2|)
    ensures RealAt(ops, e, c1, row) == RealAt(ops, e, c2, row)
  {
    match e
    case Add(l, r) =>
      RealAtReadsOnlyItsRow(ops, l, c1, c2, row); RealAtReadsOnlyItsRow(ops, r, c1, c2, row);
    case Div(l, r) =>
      RealAtReadsOnlyItsRow(ops, l, c1, c2, row); RealAtReadsOnlyItsRow(ops, r, c1, c2, row);
    case Mul(l, r) =>
      RealAtReadsOnlyItsRow(ops, l, c1, c2, row); RealAtReadsOnlyItsRow(ops, r, c1, c2, row);
    case Pow(l, r) =>
      RealAtReadsOnlyItsRow(ops, l, c1, c2, row); RealAtReadsOnlyItsRow(ops, r, c1, c2, row);
    case Sub(l, r) =>
      RealAtReadsOnlyItsRow(ops, l, c1, c2, row); RealAtReadsOnlyItsRow(ops, r, c1, c2, row);
    case Neg(o) =>
      RealAtReadsOnlyItsRow(ops, o, c1, c2, row);
    case Literal(_) =>
    case Binding(_) =>
  }

  /** Row `row` of a boolean result depends on row `row` of the inputs only. */
  lemma {:induction false} BoolAtReadsOnlyItsRow<R>(ops: RealOps<R>, intern: string -> StringId, e: BoolExpression<R>,
                                                    reals1: seq<seq<R>>, strings1: seq<seq<StringId>>,
                                                    reals2: seq<seq<R>>, strings2: seq<seq<StringId>>, row: nat)
    requires e.BindingsBelow(|reals1|, |strings1|)
    requires HasRow(reals1, row) && HasRow(strings1, row) && HasRow(reals2, row) && HasRow(strings2, row)
    requires AgreeAt(reals1, reals2, row) && AgreeAt(strings1, strings2, row)
    ensures e.BindingsBelow(|reals2|, |strings2|)
    ensures BoolAt(ops, intern, e, reals1, strings1, row) == BoolAt(ops, intern, e, reals2, strings2, row)
  {
    match e
    case And(l, r) =>
      BoolAtReadsOnlyItsRow(ops, intern, l, reals1, strings1, reals2, strings2, row);
      BoolAtReadsOnlyItsRow(ops, intern, r, reals1, strings1, reals2, strings2, row);
    case Or(l, r) =>
      BoolAtReadsOnlyItsRow(ops, intern, l, reals1, strings1, reals2, strings2, row);
      BoolAtReadsOnlyItsRow(ops, intern, r, reals1, strings1, reals2, strings2, row);
    case Not(o) =>
      BoolAtReadsOnlyItsRow(ops, intern, o, reals1, strings1, reals2, strings2, row);
    case Equal(l, r) =>
      RealAtReadsOnlyItsRow(ops, l, reals1, reals2, row); RealAtReadsOnlyItsRow(ops, r, reals1, reals2, row);
    case Greater(l, r) =>
      RealAtReadsOnlyItsRow(ops, l, reals1, reals2, row); RealAtReadsOnlyItsRow(ops, r, reals1, reals2, row);
    case GreaterEqual(l, r) =>
      RealAtReadsOnlyItsRow(ops, l, reals1, reals2, row); RealAtReadsOnlyItsRow(ops, r, reals1, reals2, row);
    case Less(l, r) =>
      RealAtReadsOnlyItsRow(ops, l, reals1, reals2, row); RealAtReadsOnlyItsRow(ops, r, reals1, reals2, row);
    case LessEqual(l, r) =>
      RealAtReadsOnlyItsRow(ops, l, reals1, reals2, row); RealAtReadsOnlyItsRow(ops, r, reals1, reals2, row);
    case NotEqual(l, r) =>
      RealAtReadsOnlyItsRow(ops, l, reals1, reals2, row); RealAtReadsOnlyItsRow(ops, r, reals1, reals2, row);
    case StrEqual(_, _) =>
    case StrNotEqual(_, _) =>
  }
}
