/** The withholding summary's figures, lifted out of the component into
    functions of the scalar amounts they read. */
module Summary {

  /** One row of a marginal-rate table: the rate applies to incomes up to
      and including `limit` that no earlier row covers. */
  datatype Bracket = Bracket(limit: real, rate: real)

  /** The income limits and marginal rates (in percent) the summary uses. */
  const Brackets: seq<Bracket> := [
    Bracket(217400.0, 0.0),
    Bracket(306050.0, 1.7),
    Bracket(697150.0, 4.0),
    Bracket(942400.0, 13.7),
    Bracket(1410750.0, 16.7)]

  /** The rate above the last limit. */
  const TopRate: real := 17.7

  /** Limits strictly ascending and rates non-decreasing, each rate at most
      `top`. */
  predicate WellFormed(table: seq<Bracket>, top: real)
  {
    && (forall i, j :: 0 <= i < j < |table| ==> table[i].limit < table[j].limit && table[i].rate <= table[j].rate)
    && (forall i :: 0 <= i < |table| ==> table[i].rate <= top)
  }

  /** The rate of the first row whose limit is at least `income`, or `top`
      when income is above every limit. */
  function RateIn(table: seq<Bracket>, top: real, income: real): (r: real)
    ensures r == top || exists i :: 0 <= i < |table| && table[i].rate == r
    ensures (forall i :: 0 <= i < |table| ==> table[i].rate <= top) ==> r <= top
  {
    if |table| == 0 then top
    else if income <= table[0].limit then table[0].rate
    else
      var r := RateIn(table[1..], top, income);
      assert r == top || exists i :: 0 <= i < |table| && table[i].rate == r by {
        if r != top {
          var k :| 0 <= k < |table[1..]| && table[1..][k].rate == r;
          assert table[k + 1].rate == r;
        }
      }
      r
  }

  /** Looking a rate up in a well-formed table never yields less than its
      first rate. */
  lemma {:induction false} RateInAtLeastFirst(table: seq<Bracket>, top: real, income: real)
    requires |table| > 0 && WellFormed(table, top)
    ensures RateIn(table, top, income) >= table[0].rate
  {
    if income > table[0].limit {
      var r := RateIn(table[1..], top, income);
      if r != top {
        var k :| 0 <= k < |table[1..]| && table[1..][k].rate == r;
        assert table[0].rate <= table[k + 1].rate;
      }
    }
  }

  /** In a well-formed table the looked-up rate is non-decreasing in income. */
  lemma {:induction false} RateInMonotone(table: seq<Bracket>, top: real, x: real, y: real)
    requires WellFormed(table, top) && x <= y
    ensures RateIn(table, top, x) <= RateIn(table, top, y)
  {
    if |table| > 0 {
      assert WellFormed(table[1..], top);
      if x > table[0].limit {
        RateInMonotone(table[1..], top, x, y);
      } else if y > table[0].limit && |table| > 1 {
        RateInAtLeastFirst(table[1..], top, y);
        assert table[0].rate <= table[1].rate;
      }
    }
  }

  /** `calculateMarginalRate`: the marginal rate, in percent, for an income. */
  function MarginalRate(income: real): (r: real)
    ensures r == 0.0 <==> income <= 217400.0
    ensures r == TopRate <==> income > 1410750.0
    ensures 0.0 <= r <= TopRate
    ensures r in {0.0, 1.7, 4.0, 13.7, 16.7, 17.7}
  {
    if income <= 217400.0 then 0.0
    else if income <= 306050.0 then 1.7
    else if income <= 697150.0 then 4.0
    else if income <= 942400.0 then 13.7
    else if income <= 1410750.0 then 16.7
    else 17.7
  }

  /** The chain of comparisons is the table lookup over `Brackets`. */
  lemma MarginalRateIsTableLookup(income: real)
    ensures MarginalRate(income) == RateIn(Brackets, TopRate, income)
  {
    var t1 := Brackets[1..];
    var t2 := t1[1..];
    var t3 := t2[1..];
    var t4 := t3[1..];
    var t5 := t4[1..];
    assert t1 == [Bracket(306050.0, 1.7), Bracket(697150.0, 4.0), Bracket(942400.0, 13.7), Bracket(1410750.0, 16.7)];
    assert t2 == [Bracket(697150.0, 4.0), Bracket(942400.0, 13.7), Bracket(1410750.0, 16.7)];
    assert t3 == [Bracket(942400.0, 13.7), Bracket(1410750.0, 16.7)];
    assert t4 == [Bracket(1410750.0, 16.7)];
    assert t5 == [];
    assert RateIn(t4, TopRate, income) == (if income <= 1410750.0 then 16.7 else TopRate);
    assert RateIn(t3, TopRate, income) == (if income <= 942400.0 then 13.7 else RateIn(t4, TopRate, income));
    assert RateIn(t2, TopRate, income) == (if income <= 697150.0 then 4.0 else RateIn(t3, TopRate, income));
    assert RateIn(t1, TopRate, income) == (if income <= 306050.0 then 1.7 else RateIn(t2, TopRate, income));
  }

  lemma BracketsWellFormed()
    ensures WellFormed(Brackets, TopRate)
  {
  }

  /** The marginal rate never falls as income rises. */
  lemma MarginalRateMonotone(x: real, y: real)
    requires x <= y
    ensures MarginalRate(x) <= MarginalRate(y)
  {
    BracketsWellFormed();
    MarginalRateIsTableLookup(x);
    MarginalRateIsTableLookup(y);
    RateInMonotone(Brackets, TopRate, x, y);
  }

  /** `calculateAverageRate`: 0 for a zero income, otherwise the tax as a
      percentage of income. */
  function AverageRate(totalIncome: real, totalTax: real): (r: real)
    ensures totalIncome == 0.0 ==> r == 0.0
    ensures totalIncome != 0.0 ==> r * totalIncome == totalTax * 100.0
  {
    if totalIncome == 0.0 then 0.0 else totalTax / totalIncome * 100.0
  }

  /** The net income the summary displays: it exceeds the income exactly
      when the tax is negative, and equals it exactly when the tax is 0. */
  function NetIncome(totalIncome: real, totalTax: real): (r: real)
    ensures r > totalIncome <==> totalTax < 0.0
    ensures r == totalIncome <==> totalTax == 0.0
  {
    totalIncome - totalTax
  }

  /** A tax no larger than a positive income gives an average rate of at
      most 100, and a non-negative tax one of at least 0. */
  lemma AverageRateBounds(totalIncome: real, totalTax: real)
    requires totalIncome > 0.0 && 0.0 <= totalTax <= totalIncome
    ensures 0.0 <= AverageRate(totalIncome, totalTax) <= 100.0
  {
  }
}
