/** The form's two pieces of arithmetic: the parental deduction recomputed
    from the child count, and the coercion of submitted entries to numbers. */
module Form {
  import opened Wrappers

  /** A value held by a form field before submission. `NotANumber` is what a
      number input holds after text that does not parse as a number. */
  datatype Value = Num(x: real) | Flag(b: bool) | Text(s: string) | NotANumber | Undefined

  /** JavaScript's `Number(s)` on a string, which this model does not
      define: `None` stands for NaN. */
  type NumberParser = string -> Option<real>

  /** `Number(v) || 0`: the numeric value of a field, with NaN and every
      falsy result becoming 0. */
  function Coerce(v: Value, parse: NumberParser): (r: real)
    ensures v.Num? ==> r == v.x
    ensures v.Flag? ==> r == (if v.b then 1.0 else 0.0)
    ensures v.NotANumber? || v.Undefined? ==> r == 0.0
    ensures v.Text? ==> r == parse(v.s).GetOr(0.0)
  {
    match v
    case Num(x) => x
    case Flag(b) => if b then 1.0 else 0.0
    case Text(s) => parse(s).GetOr(0.0)
    case NotANumber => 0.0
    case Undefined => 0.0
  }

  /** `Number(v) || 0` is non-zero exactly for a non-zero number, `true`,
      or text that parses to a non-zero number: every falsy or
      non-numeric value becomes 0. */
  lemma CoerceNonZeroIff(v: Value, parse: NumberParser)
    ensures Coerce(v, parse) != 0.0 <==>
      || (v.Num? && v.x != 0.0)
      || v == Flag(true)
      || (v.Text? && parse(v.s).Some? && parse(v.s).value != 0.0)
  {
  }

  /** Coercing a coerced value again changes nothing. */
  lemma CoerceIdempotent(v: Value, parse: NumberParser)
    ensures Coerce(Num(Coerce(v, parse)), parse) == Coerce(v, parse)
  {
  }

  const FirstChildDeduction: real := 25000.0
  const FurtherChildDeduction: real := 15000.0

  /** The parental deduction for a child count, which the form accepts as any
      number: nothing without children, 25 000 for a count in (0, 1], and
      15 000 more per child beyond the first. */
  function ParentalDeduction(hasChildren: bool, children: real): (r: real)
    ensures !hasChildren || children <= 0.0 ==> r == 0.0
    ensures hasChildren && 0.0 < children <= 1.0 ==> r == FirstChildDeduction
    ensures hasChildren && children > 1.0 ==> r - FirstChildDeduction == (children - 1.0) * FurtherChildDeduction
    ensures r >= 0.0
    ensures r == 0.0 <==> !(hasChildren && children > 0.0)
  {
    if hasChildren && children > 0.0 then
      FirstChildDeduction + (if children > 1.0 then (children - 1.0) * FurtherChildDeduction else 0.0)
    else 0.0
  }

  /** The effect that recomputes the deduction from the raw child-count
      field. */
  function ParentalDeductionOfField(hasChildren: bool, numberOfChildren: Value, parse: NumberParser): (r: real)
    ensures !hasChildren ==> r == 0.0
    ensures Coerce(numberOfChildren, parse) <= 0.0 ==> r == 0.0
    ensures numberOfChildren.NotANumber? || numberOfChildren.Undefined? ==> r == 0.0
  {
    ParentalDeduction(hasChildren, Coerce(numberOfChildren, parse))
  }

  /** The deduction is non-decreasing in the child count. */
  lemma ParentalDeductionMonotone(hasChildren: bool, m: real, n: real)
    requires m <= n
    ensures ParentalDeduction(hasChildren, m) <= ParentalDeduction(hasChildren, n)
  {
  }

  /** What the k-th child adds (k counted from 1). */
  function ChildAllowance(k: nat): real
  {
    if k == 1 then FirstChildDeduction else FurtherChildDeduction
  }

  /** The deduction as a sum of per-child allowances. */
  function AllowanceSum(n: nat): (r: real)
    ensures r >= 0.0
  {
    if n == 0 then 0.0 else AllowanceSum(n - 1) + ChildAllowance(n)
  }

  /** For a whole number of children the staircase is the sum of the
      per-child allowances. */
  lemma {:induction false} ParentalDeductionIsAllowanceSum(n: nat)
    ensures ParentalDeduction(true, n as real) == AllowanceSum(n)
  {
    if n > 1 {
      ParentalDeductionIsAllowanceSum(n - 1);
    }
  }

  /** Three children give 25 000 + 2 * 15 000. */
  lemma ThreeChildren()
    ensures ParentalDeduction(true, 3.0) == 55000.0
    ensures ParentalDeduction(false, 3.0) == 0.0
  {
  }

  /** The form values at submission: the `income` and `financial` groups
      (entry name to value) and every other field, keyed by its path. */
  datatype FormData = FormData(income: map<string, Value>, financial: map<string, Value>, rest: map<string, Value>)

  /** The `reduce` over one group's entries. */
  function CoerceGroup(g: map<string, Value>, parse: NumberParser): (r: map<string, Value>)
    ensures r.Keys == g.Keys
    ensures forall k :: k in r ==> r[k] == Num(Coerce(g[k], parse))
  {
    map k | k in g :: Num(Coerce(g[k], parse))
  }

  /** `onSubmit`: every `income` and `financial` entry becomes a number and
      the other fields pass through unchanged. */
  function Submit(d: FormData, parse: NumberParser): (r: FormData)
    ensures r.rest == d.rest
    ensures r.income.Keys == d.income.Keys && r.financial.Keys == d.financial.Keys
    ensures forall k :: k in r.income ==> r.income[k].Num?
    ensures forall k :: k in r.financial ==> r.financial[k].Num?
    ensures forall k :: k in d.income && d.income[k].Num? ==> r.income[k] == d.income[k]
    ensures forall k :: k in d.financial && d.financial[k].Num? ==> r.financial[k] == d.financial[k]
  {
    FormData(CoerceGroup(d.income, parse), CoerceGroup(d.financial, parse), d.rest)
  }

  /** Submitting already-submitted data changes nothing. */
  lemma SubmitIdempotent(d: FormData, parse: NumberParser)
    ensures Submit(Submit(d, parse), parse) == Submit(d, parse)
  {
    var once := Submit(d, parse);
    var twice := Submit(once, parse);
    assert twice.income == once.income;
    assert twice.financial == once.financial;
  }

  /** A number input's change handler: empty text is stored as 0, any other
      text as `Number(text)`, which may be NaN. */
  function InputValue(text: string, parse: NumberParser): (r: Value)
    ensures text == "" ==> r == Num(0.0)
    ensures text != "" && parse(text).Some? ==> r == Num(parse(text).value)
    ensures text != "" && parse(text).None? ==> r == NotANumber
  {
    if text == "" then Num(0.0)
    else match parse(text)
      case Some(x) => Num(x)
      case None => NotANumber
  }

  /** Whatever is typed into a number input reaches the submitted data as a
      number: 0 for empty or unparsable text, otherwise the parsed value. */
  lemma InputThenSubmit(text: string, parse: NumberParser, key: string, d: FormData)
    ensures var r := Submit(d.(income := d.income[key := InputValue(text, parse)]), parse);
      && key in r.income
      && r.income[key] == Num(if text == "" then 0.0 else parse(text).GetOr(0.0))
  {
  }
}
