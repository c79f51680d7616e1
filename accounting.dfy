/** How many registers an evaluation draws from the pool, in closed form.

    A register of each kind is either idle in the pool, held by an evaluation
    step, or owned by the caller. The pool allocates a fresh register only
    when its free-list for that kind is empty, so one evaluation allocates
    exactly as many registers of a kind as its peak number of simultaneously
    held registers of that kind exceeds the free-list it started from. The
    peak is the tree's dataflow width, not its node count. */
module Accounting {
  import opened Expressions

  /** Element kind of a register. */
  datatype Kind = RealKind | BoolKind | StringKind

  /** What the pool holds: its cold-allocation counter and the length of each free-list. */
  datatype PoolCounts = PoolCounts(allocations: nat, reals: nat, bools: nat, strings: nat)

  /** A number of registers of each kind: the peak an evaluation holds at
      once, or the number it still holds when it ends. */
  datatype Footprint = Footprint(reals: nat, bools: nat, strings: nat) {
    function Of(k: Kind): nat {
      match k
      case RealKind => reals
      case BoolKind => bools
      case StringKind => strings
    }

    /** A peak of `this` can leave `held` registers still held. */
    predicate Covers(held: Footprint) {
      held.reals <= reals && held.bools <= bools && held.strings <= strings
    }

    function Plus(other: Footprint): Footprint {
      Footprint(reals + other.reals, bools + other.bools, strings + other.strings)
    }

    function Join(other: Footprint): Footprint {
      Footprint(Max(reals, other.reals), Max(bools, other.bools), Max(strings, other.strings))
    }
  }

  const NoRegisters := Footprint(0, 0, 0)

  /** One register of kind `k`. */
  function One(k: Kind): (f: Footprint)
    ensures f.Of(k) == 1
  {
    match k
    case RealKind => Footprint(1, 0, 0)
    case BoolKind => Footprint(0, 1, 0)
    case StringKind => Footprint(0, 0, 1)
  }

  /** Registers that must be allocated cold when `peak` are needed and `free` are pooled. */
  function Shortfall(free: nat, peak: nat): nat { if free < peak then peak - free else 0 }

  /** The pool after a computation that holds at most `peak` registers at
      once and ends still holding `held` of them; all others are back in the pool. */
  function Run(c: PoolCounts, peak: Footprint, held: Footprint): PoolCounts
    requires peak.Covers(held)
  {
    PoolCounts(
      c.allocations + Shortfall(c.reals, peak.reals) + Shortfall(c.bools, peak.bools) + Shortfall(c.strings, peak.strings),
      Max(c.reals, peak.reals) - held.reals,
      Max(c.bools, peak.bools) - held.bools,
      Max(c.strings, peak.strings) - held.strings)
  }

  /** The pool after an evaluation with footprint `f` whose output, of kind
      `out`, goes to the caller: every other register it used is back in the pool. */
  function Settle(c: PoolCounts, f: Footprint, out: Kind): PoolCounts
    requires f.Of(out) >= 1
  {
    Run(c, f, One(out))
  }

  /** No register is lost: every register allocated cold by an evaluation is
      either back in the pool afterwards or is the output the caller holds. */
  lemma SettleConserves(c: PoolCounts, f: Footprint, out: Kind)
    requires f.Of(out) >= 1
    ensures Settle(c, f, out).allocations >= c.allocations
    ensures var d := Settle(c, f, out);
            d.reals + d.bools + d.strings + 1 == c.reals + c.bools + c.strings + (d.allocations - c.allocations)
  {
  }

  /** From an empty pool an evaluation allocates exactly its footprint: one
      register per register it ever holds at once, of each kind. */
  lemma FromEmptyPool(c: PoolCounts, f: Footprint, out: Kind)
    requires f.Of(out) >= 1
    requires c.reals == c.bools == c.strings == 0
    ensures Settle(c, f, out).allocations == c.allocations + f.reals + f.bools + f.strings
  {
  }

  /** The pool after one register of kind `k` is taken from it: popped from
      its free-list, or allocated cold when that list is empty. */
  function Take(c: PoolCounts, k: Kind): PoolCounts {
    match k
    case RealKind =>
      if c.reals > 0 then c.(reals := c.reals - 1) else c.(allocations := c.allocations + 1)
    case BoolKind =>
      if c.bools > 0 then c.(bools := c.bools - 1) else c.(allocations := c.allocations + 1)
    case StringKind =>
      if c.strings > 0 then c.(strings := c.strings - 1) else c.(allocations := c.allocations + 1)
  }

  /** The pool after one register of kind `k` is recycled into it. */
  function Give(c: PoolCounts, k: Kind): PoolCounts {
    match k
    case RealKind => c.(reals := c.reals + 1)
    case BoolKind => c.(bools := c.bools + 1)
    case StringKind => c.(strings := c.strings + 1)
  }

  // ----- Laws of Run -----

  /** Doing nothing leaves the pool as it is. */
  lemma RunNothing(c: PoolCounts)
    ensures Run(c, NoRegisters, NoRegisters) == c
  {
  }

  /** Taking one register is a computation whose peak and end are that register. */
  lemma TakeIsRun(c: PoolCounts, k: Kind)
    ensures Take(c, k) == Run(c, One(k), One(k))
  {
  }

  /** Returning a held register to the pool lowers what the computation ends holding. */
  lemma GiveAfterRun(c: PoolCounts, peak: Footprint, held: Footprint, k: Kind)
    requires peak.Covers(held.Plus(One(k)))
    ensures Give(Run(c, peak, held.Plus(One(k))), k) == Run(c, peak, held)
  {
  }

  /** Free-list and cold allocations of one kind after two computations in sequence. */
  lemma KindThenKind(free: nat, peak1: nat, held1: nat, peak2: nat, held2: nat)
    requires held1 <= peak1 && held2 <= peak2
    ensures Max(Max(free, peak1) - held1, peak2) - held2 == Max(free, Max(peak1, held1 + peak2)) - (held1 + held2)
    ensures Shortfall(free, peak1) + Shortfall(Max(free, peak1) - held1, peak2) == Shortfall(free, Max(peak1, held1 + peak2))
  {
  }

  /** Two computations in sequence, the second running while the first's
      remaining registers are held: their peaks add to what is held. */
  lemma RunThenRun(c: PoolCounts, peak1: Footprint, held1: Footprint, peak2: Footprint, held2: Footprint)
    requires peak1.Covers(held1) && peak2.Covers(held2)
    ensures peak1.Join(held1.Plus(peak2)).Covers(held1.Plus(held2))
    ensures Run(Run(c, peak1, held1), peak2, held2) == Run(c, peak1.Join(held1.Plus(peak2)), held1.Plus(held2))
  {
    var peak, held := peak1.Join(held1.Plus(peak2)), held1.Plus(held2);
    var c1 := Run(c, peak1, held1);
    var d, e := Run(c1, peak2, held2), Run(c, peak, held);
    var sr := Shortfall(c.reals, peak1.reals) + Shortfall(c1.reals, peak2.reals);
    var sb := Shortfall(c.bools, peak1.bools) + Shortfall(c1.bools, peak2.bools);
    var ss := Shortfall(c.strings, peak1.strings) + Shortfall(c1.strings, peak2.strings);
    assert d.reals == e.reals && sr == Shortfall(c.reals, peak.reals) by {
      KindThenKind(c.reals, peak1.reals, held1.reals, peak2.reals, held2.reals);
    }
    assert d.bools == e.bools && sb == Shortfall(c.bools, peak.bools) by {
      KindThenKind(c.bools, peak1.bools, held1.bools, peak2.bools, held2.bools);
    }
    assert d.strings == e.strings && ss == Shortfall(c.strings, peak.strings) by {
      KindThenKind(c.strings, peak1.strings, held1.strings, peak2.strings, held2.strings);
    }
  }

  // ----- Footprints of the tree -----

  /** Real registers an operand holds once evaluated: none when it is read in place. */
  function Held<R>(operand: RealExpression<R>): nat {
    if operand.Binding? then 0 else 1
  }

  /** Peak registers of one kind while resolving the lhs (peak `a`, after
      which it holds `h1`), then the rhs (peak `b`, then `h2`) while the lhs
      is held, then `u` output registers while both are held. */
  function StepsPeak(a: nat, h1: nat, b: nat, h2: nat, u: nat): nat {
    Max(a, Max(h1 + b, h1 + h2 + u))
  }

  /** Peak real registers while evaluating a real expression into a register.
      An operand that is a variable is read in place and costs nothing. */
  function RealPeak<R>(e: RealExpression<R>): (peak: nat)
    ensures peak >= 1
  {
    match e
    case Add(l, r) => StepsPeak(if l.Binding? then 0 else RealPeak(l), Held(l), if r.Binding? then 0 else RealPeak(r), Held(r), 1)
    case Div(l, r) => StepsPeak(if l.Binding? then 0 else RealPeak(l), Held(l), if r.Binding? then 0 else RealPeak(r), Held(r), 1)
    case Mul(l, r) => StepsPeak(if l.Binding? then 0 else RealPeak(l), Held(l), if r.Binding? then 0 else RealPeak(r), Held(r), 1)
    case Pow(l, r) => StepsPeak(if l.Binding? then 0 else RealPeak(l), Held(l), if r.Binding? then 0 else RealPeak(r), Held(r), 1)
    case Sub(l, r) => StepsPeak(if l.Binding? then 0 else RealPeak(l), Held(l), if r.Binding? then 0 else RealPeak(r), Held(r), 1)
    case Neg(o) => Max(if o.Binding? then 0 else RealPeak(o), Held(o) + 1)
    case Literal(_) => 1
    case Binding(_) => 1
  }

  /** Peak real registers while resolving an operand: none when it is read in place. */
  function OperandPeak<R>(operand: RealExpression<R>): nat {
    if operand.Binding? then 0 else RealPeak(operand)
  }

  /** Peak real registers of a binary real operator: the lhs, then the rhs
      while the lhs is held, then the output while both are held. */
  function BinaryRealPeak<R>(lhs: RealExpression<R>, rhs: RealExpression<R>): nat {
    StepsPeak(OperandPeak(lhs), Held(lhs), OperandPeak(rhs), Held(rhs), 1)
  }

  /** Peak real registers of a unary real operator. */
  function UnaryRealPeak<R>(only: RealExpression<R>): nat {
    Max(OperandPeak(only), Held(only) + 1)
  }

  function RealFootprint<R>(e: RealExpression<R>): (f: Footprint)
    ensures f.reals >= 1
  {
    Footprint(RealPeak(e), 0, 0)
  }

  /** Peak real registers of a real comparison: as for a binary real
      operator, but its output is a boolean register. */
  function ComparisonRealPeak<R>(lhs: RealExpression<R>, rhs: RealExpression<R>): nat {
    StepsPeak(OperandPeak(lhs), Held(lhs), OperandPeak(rhs), Held(rhs), 0)
  }

  function ComparisonFootprint<R>(lhs: RealExpression<R>, rhs: RealExpression<R>): Footprint {
    Footprint(ComparisonRealPeak(lhs, rhs), 1, 0)
  }

  /** String registers a string operand holds: one for a literal, none for a binding. */
  function StringHeld(operand: StringExpression): nat {
    if operand.Literal? then 1 else 0
  }

  function StringComparisonFootprint(lhs: StringExpression, rhs: StringExpression): Footprint {
    Footprint(0, 1, StringHeld(lhs) + StringHeld(rhs))
  }

  /** And/Or over operands with footprints `l` and `r`: the lhs, then the rhs
      while the lhs output is held, then the output while both are held. */
  function LogicPeak(l: Footprint, r: Footprint): (f: Footprint)
    ensures f.bools >= 3
  {
    Footprint(Max(l.reals, r.reals), Max(Max(l.bools, 1 + r.bools), 3), Max(l.strings, r.strings))
  }

  /** Not over an operand with footprint `o`: the operand, then the output
      while the operand's output is held. */
  function NotPeak(o: Footprint): (f: Footprint)
    ensures f.bools >= 2
  {
    Footprint(o.reals, Max(o.bools, 2), o.strings)
  }

  /** Peak registers of each kind while evaluating a boolean expression. */
  function BoolFootprint<R>(e: BoolExpression<R>): (f: Footprint)
    ensures f.bools >= 1
  {
    match e
    case And(l, r) => LogicPeak(BoolFootprint(l), BoolFootprint(r))
    case Or(l, r) => LogicPeak(BoolFootprint(l), BoolFootprint(r))
    case Not(o) => NotPeak(BoolFootprint(o))
    case Equal(l, r) => ComparisonFootprint(l, r)
    case Greater(l, r) => ComparisonFootprint(l, r)
    case GreaterEqual(l, r) => ComparisonFootprint(l, r)
    case Less(l, r) => ComparisonFootprint(l, r)
    case LessEqual(l, r) => ComparisonFootprint(l, r)
    case NotEqual(l, r) => ComparisonFootprint(l, r)
    case StrEqual(l, r) => StringComparisonFootprint(l, r)
    case StrNotEqual(l, r) => StringComparisonFootprint(l, r)
  }

  function LogicFootprint<R>(lhs: BoolExpression<R>, rhs: BoolExpression<R>): (f: Footprint)
    ensures f.bools >= 3
  {
    LogicPeak(BoolFootprint(lhs), BoolFootprint(rhs))
  }

  function NotFootprint<R>(only: BoolExpression<R>): (f: Footprint)
    ensures f.bools >= 2
  {
    NotPeak(BoolFootprint(only))
  }

  // ----- Each operator's sequence of pool steps has the closed form above -----

  /** The pool after resolving a real operand: unchanged for a binding read in
      place, otherwise the operand's own evaluation, its output still held. */
  function OperandStep<R>(c: PoolCounts, operand: RealExpression<R>): PoolCounts {
    if operand.Binding? then c else Settle(c, RealFootprint(operand), RealKind)
  }

  /** The pool after recycling the register of a real operand, if it has one. */
  function OperandRelease<R>(c: PoolCounts, operand: RealExpression<R>): PoolCounts {
    if operand.Binding? then c else Give(c, RealKind)
  }

  function OperandPeakFootprint<R>(operand: RealExpression<R>): Footprint {
    Footprint(OperandPeak(operand), 0, 0)
  }

  function HeldFootprint<R>(operand: RealExpression<R>): Footprint {
    Footprint(Held(operand), 0, 0)
  }

  lemma OperandStepIsRun<R>(c: PoolCounts, operand: RealExpression<R>)
    ensures OperandPeakFootprint(operand).Covers(HeldFootprint(operand))
    ensures OperandStep(c, operand) == Run(c, OperandPeakFootprint(operand), HeldFootprint(operand))
  {
    if operand.Binding? { RunNothing(c); } else { assert OperandPeak(operand) == RealPeak(operand); }
  }

  lemma OperandReleaseAfterRun<R>(c: PoolCounts, peak: Footprint, held: Footprint, operand: RealExpression<R>)
    requires peak.Covers(held.Plus(HeldFootprint(operand)))
    ensures OperandRelease(Run(c, peak, held.Plus(HeldFootprint(operand))), operand) == Run(c, peak, held)
  {
    if operand.Binding? {
      assert held.Plus(HeldFootprint(operand)) == held;
    } else {
      GiveAfterRun(c, peak, held, RealKind);
    }
  }

  /** A leaf evaluated into a register takes exactly one real register. */
  lemma LeafSteps(c: PoolCounts)
    ensures Take(c, RealKind) == Settle(c, Footprint(1, 0, 0), RealKind)
  {
    TakeIsRun(c, RealKind);
  }

  /** Peak registers while resolving lhs, then rhs with lhs held, then
      taking an output of kind `out` with both held. */
  function OperandsPeak<R>(lhs: RealExpression<R>, rhs: RealExpression<R>, out: Kind): Footprint {
    var u := One(out);
    Footprint(StepsPeak(OperandPeak(lhs), Held(lhs), OperandPeak(rhs), Held(rhs), u.reals), u.bools, u.strings)
  }

  /** Three computations in sequence, each holding its result while the next runs. */
  lemma ThreeRuns(c: PoolCounts, l: Footprint, hl: Footprint, r: Footprint, hr: Footprint, u: Footprint)
    requires l.Covers(hl) && r.Covers(hr)
    ensures l.Join(hl.Plus(r)).Join(hl.Plus(hr).Plus(u)).Covers(hl.Plus(hr).Plus(u))
    ensures Run(Run(Run(c, l, hl), r, hr), u, u) == Run(c, l.Join(hl.Plus(r)).Join(hl.Plus(hr).Plus(u)), hl.Plus(hr).Plus(u))
  {
    RunThenRun(c, l, hl, r, hr);
    RunThenRun(c, l.Join(hl.Plus(r)), hl.Plus(hr), u, u);
  }

  /** The joined peak of three steps over real-only operands, in closed form. */
  lemma ThreeRunsPeak(l: Footprint, hl: Footprint, r: Footprint, hr: Footprint, u: Footprint)
    requires l.bools == hl.bools == r.bools == hr.bools == 0
    requires l.strings == hl.strings == r.strings == hr.strings == 0
    ensures l.Join(hl.Plus(r)).Join(hl.Plus(hr).Plus(u))
            == Footprint(StepsPeak(l.reals, hl.reals, r.reals, hr.reals, u.reals), u.bools, u.strings)
  {
  }

  /** Resolving lhs then rhs, then taking an output of kind `out`. */
  lemma OperandsThenOutput<R>(c: PoolCounts, lhs: RealExpression<R>, rhs: RealExpression<R>, out: Kind)
    ensures OperandsPeak(lhs, rhs, out).Covers(HeldFootprint(lhs).Plus(HeldFootprint(rhs)).Plus(One(out)))
    ensures Take(OperandStep(OperandStep(c, lhs), rhs), out)
            == Run(c, OperandsPeak(lhs, rhs, out), HeldFootprint(lhs).Plus(HeldFootprint(rhs)).Plus(One(out)))
  {
    var L, HL := OperandPeakFootprint(lhs), HeldFootprint(lhs);
    var R, HR := OperandPeakFootprint(rhs), HeldFootprint(rhs);
    var U := One(out);
    OperandStepIsRun(c, lhs);
    OperandStepIsRun(Run(c, L, HL), rhs);
    TakeIsRun(Run(Run(c, L, HL), R, HR), out);
    ThreeRuns(c, L, HL, R, HR, U);
    ThreeRunsPeak(L, HL, R, HR, U);
  }

  /** The registers still held, counted in either order. */
  lemma HeldInAnyOrder(a: Footprint, b: Footprint, u: Footprint)
    ensures a.Plus(b).Plus(u) == b.Plus(u).Plus(a)
    ensures b.Plus(u) == u.Plus(b)
  {
  }

  /** A peak that covers some registers covers any part of them. */
  lemma CoversPart(peak: Footprint, a: Footprint, b: Footprint)
    requires peak.Covers(a.Plus(b))
    ensures peak.Covers(a)
  {
  }

  /** Recycling the lhs register leaves the rhs register and the output held. */
  lemma ReleaseLhs<R>(c: PoolCounts, peak: Footprint, lhs: RealExpression<R>, rhs: RealExpression<R>, u: Footprint)
    requires peak.Covers(HeldFootprint(lhs).Plus(HeldFootprint(rhs)).Plus(u))
    ensures peak.Covers(u.Plus(HeldFootprint(rhs)))
    ensures OperandRelease(Run(c, peak, HeldFootprint(lhs).Plus(HeldFootprint(rhs)).Plus(u)), lhs)
            == Run(c, peak, u.Plus(HeldFootprint(rhs)))
  {
    var HL, HR := HeldFootprint(lhs), HeldFootprint(rhs);
    HeldInAnyOrder(HL, HR, u);
    CoversPart(peak, HR.Plus(u), HL);
    OperandReleaseAfterRun(c, peak, HR.Plus(u), lhs);
  }

  /** ... and then both operands' registers back: only the output stays held. */
  lemma OperandsThenOutputThenRelease<R>(c: PoolCounts, lhs: RealExpression<R>, rhs: RealExpression<R>, out: Kind)
    ensures OperandsPeak(lhs, rhs, out).Covers(One(out))
    ensures OperandRelease(OperandRelease(Take(OperandStep(OperandStep(c, lhs), rhs), out), lhs), rhs)
            == Run(c, OperandsPeak(lhs, rhs, out), One(out))
  {
    var peak, U := OperandsPeak(lhs, rhs, out), One(out);
    OperandsThenOutput(c, lhs, rhs, out);
    ReleaseLhs(c, peak, lhs, rhs, U);
    CoversPart(peak, U, HeldFootprint(rhs));
    OperandReleaseAfterRun(c, peak, U, rhs);
  }

  lemma BinaryPeakIsOperandsPeak<R>(lhs: RealExpression<R>, rhs: RealExpression<R>)
    ensures OperandsPeak(lhs, rhs, RealKind) == Footprint(BinaryRealPeak(lhs, rhs), 0, 0)
  {
  }

  lemma ComparisonPeakIsOperandsPeak<R>(lhs: RealExpression<R>, rhs: RealExpression<R>)
    ensures OperandsPeak(lhs, rhs, BoolKind) == ComparisonFootprint(lhs, rhs)
  {
  }

  /** lhs, rhs, output, then the operands' registers back: the binary real operator's footprint. */
  lemma BinaryRealSteps<R>(c: PoolCounts, lhs: RealExpression<R>, rhs: RealExpression<R>)
    ensures OperandRelease(OperandRelease(Take(OperandStep(OperandStep(c, lhs), rhs), RealKind), lhs), rhs)
            == Settle(c, Footprint(BinaryRealPeak(lhs, rhs), 0, 0), RealKind)
  {
    OperandsThenOutputThenRelease(c, lhs, rhs, RealKind);
    BinaryPeakIsOperandsPeak(lhs, rhs);
  }

  /** lhs, rhs, a boolean output, then the real operands' registers back. */
  lemma ComparisonSteps<R>(c: PoolCounts, lhs: RealExpression<R>, rhs: RealExpression<R>)
    ensures OperandRelease(OperandRelease(Take(OperandStep(OperandStep(c, lhs), rhs), BoolKind), lhs), rhs)
            == Settle(c, ComparisonFootprint(lhs, rhs), BoolKind)
  {
    OperandsThenOutputThenRelease(c, lhs, rhs, BoolKind);
    ComparisonPeakIsOperandsPeak(lhs, rhs);
  }

  /** operand, output, then the operand's register back: the unary real operator's footprint. */
  lemma UnaryRealSteps<R>(c: PoolCounts, only: RealExpression<R>)
    ensures OperandRelease(Take(OperandStep(c, only), RealKind), only)
            == Settle(c, Footprint(UnaryRealPeak(only), 0, 0), RealKind)
  {
    var O, HO, U := OperandPeakFootprint(only), HeldFootprint(only), One(RealKind);
    OperandStepIsRun(c, only);
    var c1 := Run(c, O, HO);
    TakeIsRun(c1, RealKind);
    RunThenRun(c, O, HO, U, U);
    var peak := O.Join(HO.Plus(U));
    assert HO.Plus(U) == U.Plus(HO);
    OperandReleaseAfterRun(c, peak, U, only);
    UnaryPeakIsJoin(O, HO);
  }

  /** The joined peak of an operand then an output held beside it, in closed form. */
  lemma UnaryPeakIsJoin(o: Footprint, ho: Footprint)
    requires o.bools == ho.bools == o.strings == ho.strings == 0
    ensures o.Join(ho.Plus(One(RealKind))) == Footprint(Max(o.reals, ho.reals + 1), 0, 0)
  {
  }

  /** The pool after resolving a string operand: a literal takes a string register. */
  function StringOperandStep(c: PoolCounts, operand: StringExpression): PoolCounts {
    if operand.Literal? then Take(c, StringKind) else c
  }

  function StringOperandRelease(c: PoolCounts, operand: StringExpression): PoolCounts {
    if operand.Literal? then Give(c, StringKind) else c
  }

  /** lhs, rhs, a boolean output, then the literal operands' registers back. */
  lemma StringComparisonSteps(c: PoolCounts, lhs: StringExpression, rhs: StringExpression)
    ensures StringOperandRelease(StringOperandRelease(Take(StringOperandStep(StringOperandStep(c, lhs), rhs), BoolKind), lhs), rhs)
            == Settle(c, StringComparisonFootprint(lhs, rhs), BoolKind)
  {
  }

  /** lhs, rhs, output, then both operands' registers back: And and Or. */
  lemma LogicSteps<R>(c: PoolCounts, lhs: BoolExpression<R>, rhs: BoolExpression<R>)
    ensures Give(Give(Take(Settle(Settle(c, BoolFootprint(lhs), BoolKind), BoolFootprint(rhs), BoolKind), BoolKind), BoolKind), BoolKind)
            == Settle(c, LogicFootprint(lhs, rhs), BoolKind)
  {
    var L, R, U := BoolFootprint(lhs), BoolFootprint(rhs), One(BoolKind);
    assert U == Footprint(0, 1, 0);
    RunThenRun(c, L, U, R, U);
    var p2, h2 := L.Join(U.Plus(R)), U.Plus(U);
    TakeIsRun(Run(c, p2, h2), BoolKind);
    RunThenRun(c, p2, h2, U, U);
    var peak := p2.Join(h2.Plus(U));
    GiveAfterRun(c, peak, U.Plus(U), BoolKind);
    GiveAfterRun(c, peak, U, BoolKind);
    LogicPeakIsJoin(L, R);
  }

  /** The joined peak of lhs, rhs beside the lhs output, then the output
      beside both, is `LogicPeak`. */
  lemma LogicPeakIsJoin(l: Footprint, r: Footprint)
    ensures var u := One(BoolKind);
            l.Join(u.Plus(r)).Join(u.Plus(u).Plus(u)) == LogicPeak(l, r)
  {
    var u := One(BoolKind);
    assert u == Footprint(0, 1, 0);
    assert u.Plus(u).Plus(u) == Footprint(0, 3, 0);
  }

  /** operand, output, then the operand's register back: Not. */
  lemma NotSteps<R>(c: PoolCounts, only: BoolExpression<R>)
    ensures Give(Take(Settle(c, BoolFootprint(only), BoolKind), BoolKind), BoolKind)
            == Settle(c, NotFootprint(only), BoolKind)
  {
    var O, U := BoolFootprint(only), One(BoolKind);
    assert U == Footprint(0, 1, 0);
    TakeIsRun(Run(c, O, U), BoolKind);
    RunThenRun(c, O, U, U, U);
    GiveAfterRun(c, O.Join(U.Plus(U)), U, BoolKind);
    NotPeakIsJoin(O);
  }

  /** The joined peak of the operand then the output beside its output is `NotPeak`. */
  lemma NotPeakIsJoin(o: Footprint)
    ensures var u := One(BoolKind);
            o.Join(u.Plus(u)) == NotPeak(o)
  {
    assert One(BoolKind).Plus(One(BoolKind)) == Footprint(0, 2, 0);
  }

  // ----- What the footprint bounds -----

  /** Registers an evaluator without a pool would allocate: one per node it
      evaluates into a register (an operand read in place costs none). */
  function Evaluations<R>(e: RealExpression<R>): (n: nat)
    ensures n >= 1
    decreases e.Size(), 1
  {
    match e
    case Add(l, r) => 1 + OperandEvaluations(l) + OperandEvaluations(r)
    case Div(l, r) => 1 + OperandEvaluations(l) + OperandEvaluations(r)
    case Mul(l, r) => 1 + OperandEvaluations(l) + OperandEvaluations(r)
    case Pow(l, r) => 1 + OperandEvaluations(l) + OperandEvaluations(r)
    case Sub(l, r) => 1 + OperandEvaluations(l) + OperandEvaluations(r)
    case Neg(o) => 1 + OperandEvaluations(o)
    case Literal(_) => 1
    case Binding(_) => 1
  }

  function OperandEvaluations<R>(operand: RealExpression<R>): nat
    decreases operand.Size(), 2
  {
    if operand.Binding? then 0 else Evaluations(operand)
  }

  /** Height of the tree: a leaf has depth 0. */
  function Depth<R>(e: RealExpression<R>): nat {
    match e
    case Add(l, r) => 1 + Max(Depth(l), Depth(r))
    case Div(l, r) => 1 + Max(Depth(l), Depth(r))
    case Mul(l, r) => 1 + Max(Depth(l), Depth(r))
    case Pow(l, r) => 1 + Max(Depth(l), Depth(r))
    case Sub(l, r) => 1 + Max(Depth(l), Depth(r))
    case Neg(o) => 1 + Depth(o)
    case Literal(_) => 0
    case Binding(_) => 0
  }

  /** Recycling never needs more registers than evaluating without a pool. */
  lemma {:induction false} PeakWithinEvaluations<R>(e: RealExpression<R>)
    ensures RealPeak(e) <= Evaluations(e)
    decreases e.Size(), 1
  {
    match e
    case Add(l, r) => BinaryPeakWithinEvaluations(l, r);
    case Div(l, r) => BinaryPeakWithinEvaluations(l, r);
    case Mul(l, r) => BinaryPeakWithinEvaluations(l, r);
    case Pow(l, r) => BinaryPeakWithinEvaluations(l, r);
    case Sub(l, r) => BinaryPeakWithinEvaluations(l, r);
    case Neg(o) =>
      if !o.Binding? {
        PeakWithinEvaluations(o);
        assert OperandPeak(o) == RealPeak(o) && OperandEvaluations(o) == Evaluations(o);
        assert UnaryRealPeak(o) <= 1 + OperandEvaluations(o);
      } else {
        assert UnaryRealPeak(o) == 1;
        assert OperandEvaluations(o) == 0;
      }
      assert RealPeak(e) == UnaryRealPeak(o) && Evaluations(e) == 1 + OperandEvaluations(o);
    case Literal(_) =>
    case Binding(_) =>
  }

  lemma {:induction false} BinaryPeakWithinEvaluations<R>(l: RealExpression<R>, r: RealExpression<R>)
    ensures BinaryRealPeak(l, r) <= 1 + OperandEvaluations(l) + OperandEvaluations(r)
    decreases l.Size() + r.Size() + 1, 0
  {
    if !l.Binding? { PeakWithinEvaluations(l); }
    if !r.Binding? { PeakWithinEvaluations(r); }
  }

  /** The registers in flight never exceed the height of the tree plus two. */
  lemma {:induction false} PeakWithinDepth<R>(e: RealExpression<R>)
    ensures RealPeak(e) <= Depth(e) + 2
    decreases e.Size(), 1
  {
    match e
    case Add(l, r) => BinaryPeakWithinDepth(l, r);
    case Div(l, r) => BinaryPeakWithinDepth(l, r);
    case Mul(l, r) => BinaryPeakWithinDepth(l, r);
    case Pow(l, r) => BinaryPeakWithinDepth(l, r);
    case Sub(l, r) => BinaryPeakWithinDepth(l, r);
    case Neg(o) =>
      if !o.Binding? { PeakWithinDepth(o); }
      assert RealPeak(e) == UnaryRealPeak(o);
    case Literal(_) =>
    case Binding(_) =>
  }

  lemma {:induction false} BinaryPeakWithinDepth<R>(l: RealExpression<R>, r: RealExpression<R>)
    ensures BinaryRealPeak(l, r) <= Max(Depth(l), Depth(r)) + 3
    decreases l.Size() + r.Size() + 1, 0
  {
    if !l.Binding? { PeakWithinDepth(l); }
    if !r.Binding? { PeakWithinDepth(r); }
  }

  /** A left-deep chain of binary operators whose right operands are all
      variables, such as `a + b + c + a + b + c`. */
  predicate LeftChain<R>(e: RealExpression<R>) {
    match e
    case Add(l, r) => r.Binding? && (l.Binding? || LeftChain(l))
    case Div(l, r) => r.Binding? && (l.Binding? || LeftChain(l))
    case Mul(l, r) => r.Binding? && (l.Binding? || LeftChain(l))
    case Pow(l, r) => r.Binding? && (l.Binding? || LeftChain(l))
    case Sub(l, r) => r.Binding? && (l.Binding? || LeftChain(l))
    case _ => false
  }

  /** However long the chain, evaluating it holds at most two real registers
      (the running result and the next one), while an evaluator without a
      pool would allocate one per operator. */
  lemma {:induction false} LeftChainNeedsTwo<R>(e: RealExpression<R>)
    requires LeftChain(e)
    ensures RealPeak(e) <= 2
    ensures 2 * Evaluations(e) + 1 == e.Size()
    decreases e.Size(), 1
  {
    match e
    case Add(l, r) => LeftChainStep(l, r);
    case Div(l, r) => LeftChainStep(l, r);
    case Mul(l, r) => LeftChainStep(l, r);
    case Pow(l, r) => LeftChainStep(l, r);
    case Sub(l, r) => LeftChainStep(l, r);
  }

  lemma {:induction false} LeftChainStep<R>(l: RealExpression<R>, r: RealExpression<R>)
    requires r.Binding? && (l.Binding? || LeftChain(l))
    ensures BinaryRealPeak(l, r) <= 2
    ensures 2 * (1 + OperandEvaluations(l)) + 1 == l.Size() + r.Size() + 1
    decreases l.Size() + r.Size() + 1, 0
  {
    if !l.Binding? { LeftChainNeedsTwo(l); }
  }

  /** With the pool reused and the previous output kept by the caller, a
      repeated evaluation allocates at most one register (its new output),
      and exactly one when the first evaluation started from a cold pool. */
  lemma RepeatedEvaluation(c: PoolCounts, f: Footprint, out: Kind)
    requires f.Of(out) >= 1
    ensures Settle(Settle(c, f, out), f, out).allocations <= Settle(c, f, out).allocations + 1
    ensures c.reals == c.bools == c.strings == 0 ==>
              Settle(Settle(c, f, out), f, out).allocations == Settle(c, f, out).allocations + 1
  {
  }
}
