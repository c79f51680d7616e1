/** The typed expression tree that evaluation walks.

    A tree is a value: children are owned by their parent, so every tree is
    finite and acyclic and structural recursion over it terminates. Operand
    kinds are fixed by the constructors themselves: a logic operator can only
    hold boolean subtrees, a real comparison only real subtrees, a string
    comparison only string operands. */
module Expressions {

  /** Index into the columns passed to an evaluation. */
  type BindingId = nat

  function Max(a: nat, b: nat): nat { if a < b then b else a }

  /** A top-level calculation: either boolean-valued or real-valued. */
  datatype Expression<R> =
    | Boolean(BoolExpression<R>)
    | Real(RealExpression<R>)

  /** A boolean-valued expression. */
  datatype BoolExpression<R> =
    // Binary logic.
    | And(lhs: BoolExpression<R>, rhs: BoolExpression<R>)
    | Or(lhs: BoolExpression<R>, rhs: BoolExpression<R>)
    // Unary logic.
    | Not(only: BoolExpression<R>)
    // Real comparisons.
    | Equal(RealExpression<R>, RealExpression<R>)
    | Greater(RealExpression<R>, RealExpression<R>)
    | GreaterEqual(RealExpression<R>, RealExpression<R>)
    | Less(RealExpression<R>, RealExpression<R>)
    | LessEqual(RealExpression<R>, RealExpression<R>)
    | NotEqual(RealExpression<R>, RealExpression<R>)
    // String comparisons (over interned string ids).
    | StrEqual(StringExpression, StringExpression)
    | StrNotEqual(StringExpression, StringExpression)
  {
    /** Every real binding is below `realCount` and every string binding below `stringCount`. */
    predicate BindingsBelow(realCount: nat, stringCount: nat) {
      RealBindingBound() <= realCount && StringBindingBound() <= stringCount
    }

    /** One more than the largest real binding in the tree, 0 when there is none. */
    function RealBindingBound(): nat {
      match this
      case And(l, r) => Max(l.RealBindingBound(), r.RealBindingBound())
      case Or(l, r) => Max(l.RealBindingBound(), r.RealBindingBound())
      case Not(o) => o.RealBindingBound()
      case Equal(l, r) => Max(l.BindingBound(), r.BindingBound())
      case Greater(l, r) => Max(l.BindingBound(), r.BindingBound())
      case GreaterEqual(l, r) => Max(l.BindingBound(), r.BindingBound())
      case Less(l, r) => Max(l.BindingBound(), r.BindingBound())
      case LessEqual(l, r) => Max(l.BindingBound(), r.BindingBound())
      case NotEqual(l, r) => Max(l.BindingBound(), r.BindingBound())
      case StrEqual(_, _) => 0
      case StrNotEqual(_, _) => 0
    }

    /** One more than the largest string binding in the tree, 0 when there is none. */
    function StringBindingBound(): nat {
      match this
      case And(l, r) => Max(l.StringBindingBound(), r.StringBindingBound())
      case Or(l, r) => Max(l.StringBindingBound(), r.StringBindingBound())
      case Not(o) => o.StringBindingBound()
      case StrEqual(l, r) => Max(l.BindingBound(), r.BindingBound())
      case StrNotEqual(l, r) => Max(l.BindingBound(), r.BindingBound())
      case _ => 0
    }

    /** Number of boolean nodes; a termination measure for the boolean walk. */
    function Size(): nat {
      match this
      case And(l, r) => 1 + l.Size() + r.Size()
      case Or(l, r) => 1 + l.Size() + r.Size()
      case Not(o) => 1 + o.Size()
      case _ => 1
    }
  }

  /** A real-valued expression. */
  datatype RealExpression<R> =
    // Binary real ops.
    | Add(lhs: RealExpression<R>, rhs: RealExpression<R>)
    | Div(lhs: RealExpression<R>, rhs: RealExpression<R>)
    | Mul(lhs: RealExpression<R>, rhs: RealExpression<R>)
    | Pow(lhs: RealExpression<R>, rhs: RealExpression<R>)
    | Sub(lhs: RealExpression<R>, rhs: RealExpression<R>)
    // Unary real op.
    | Neg(only: RealExpression<R>)
    // Constant.
    | Literal(value: R)
    // Input variable.
    | Binding(binding: BindingId)
  {
    /** Every binding of the tree indexes into an array of `count` columns. */
    predicate BindingsBelow(count: nat) {
      BindingBound() <= count
    }

    /** One more than the largest binding in the tree, 0 when there is none. */
    function BindingBound(): nat {
      match this
      case Add(l, r) => Max(l.BindingBound(), r.BindingBound())
      case Div(l, r) => Max(l.BindingBound(), r.BindingBound())
      case Mul(l, r) => Max(l.BindingBound(), r.BindingBound())
      case Pow(l, r) => Max(l.BindingBound(), r.BindingBound())
      case Sub(l, r) => Max(l.BindingBound(), r.BindingBound())
      case Neg(o) => o.BindingBound()
      case Literal(_) => 0
      case Binding(b) => b + 1
    }

    /** Number of nodes; a termination measure for the real walk. */
    function Size(): nat {
      match this
      case Add(l, r) => 1 + l.Size() + r.Size()
      case Div(l, r) => 1 + l.Size() + r.Size()
      case Mul(l, r) => 1 + l.Size() + r.Size()
      case Pow(l, r) => 1 + l.Size() + r.Size()
      case Sub(l, r) => 1 + l.Size() + r.Size()
      case Neg(o) => 1 + o.Size()
      case Literal(_) => 1
      case Binding(_) => 1
    }
  }

  /** A string-valued operand of a string comparison. */
  datatype StringExpression =
    | Literal(text: string)
    | Binding(binding: BindingId)
  {
    predicate BindingsBelow(count: nat) {
      BindingBound() <= count
    }

    /** One more than the binding read, 0 for a literal. */
    function BindingBound(): nat {
      match this
      case Literal(_) => 0
      case Binding(b) => b + 1
    }
  }
}
