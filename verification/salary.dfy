/**
  The salary arithmetic run when the calculator form is submitted.

  A submission carries four numbers: the cost to company (CTC) and three
  percentages, the employee provident fund rate (EPF), the employee trust
  fund rate (ETF) and the tax rate. Both contribution rates are charged on
  the CTC; the tax rate is charged on what remains (the gross salary).

  Arithmetic is over exact reals: the floating-point behaviour of the
  source's numbers is not part of this model.
 */
module Salary {

  /** The numbers one submission works on (all percentages, except the CTC). */
  datatype Inputs = Inputs(ctc: real, epf: real, etf: real, tax: real)

  /** The two figures the calculator shows. */
  datatype Results = Results(gross: real, net: real)

  /** Combined contribution rate, in percent. */
  function Rate(i: Inputs): real
  {
    i.epf + i.etf
  }

  /** Total deductions: both contribution rates applied to the CTC. */
  function Deductions(i: Inputs): real
  {
    (i.ctc * Rate(i)) / 100.0
  }

  /** Gross salary: the CTC less the total deductions, so that the two
      together account for the whole CTC. */
  function Gross(i: Inputs): (g: real)
    ensures g + Deductions(i) == i.ctc
    ensures g <= i.ctc <==> 0.0 <= Deductions(i)
  {
    i.ctc - Deductions(i)
  }

  /** Tax charged on the gross salary. */
  function TaxOn(i: Inputs): real
  {
    (Gross(i) * i.tax) / 100.0
  }

  /** Net salary: the gross salary less the tax charged on it. */
  function Net(i: Inputs): (n: real)
    ensures n + TaxOn(i) == Gross(i)
    ensures n + TaxOn(i) + Deductions(i) == i.ctc
  {
    Gross(i) - TaxOn(i)
  }

  /** The result record of one submission. */
  function Calculate(i: Inputs): (r: Results)
    ensures r.gross + Deductions(i) == i.ctc
    ensures r.net + TaxOn(i) == r.gross
  {
    Results(Gross(i), Net(i))
  }

  /** With no contributions the gross salary is the whole CTC, and for a
      non-zero CTC that is the only way to keep it whole. */
  lemma GrossIsCtcWithoutContributions(i: Inputs)
    ensures i.epf == 0.0 && i.etf == 0.0 ==> Gross(i) == i.ctc
    ensures i.ctc != 0.0 ==> (Gross(i) == i.ctc <==> Rate(i) == 0.0)
  {
    if i.ctc != 0.0 && Gross(i) == i.ctc {
      assert i.ctc * Rate(i) == 0.0;
      ZeroProduct(i.ctc, Rate(i));
    }
  }

  /** With no tax the net salary is the gross salary; otherwise they agree
      only when there is nothing to tax. */
  lemma NetIsGrossWithoutTax(i: Inputs)
    ensures i.tax == 0.0 ==> Net(i) == Gross(i)
    ensures Net(i) == Gross(i) <==> i.tax == 0.0 || Gross(i) == 0.0
  {
    if Net(i) == Gross(i) {
      assert Gross(i) * i.tax == 0.0;
      ZeroProduct(Gross(i), i.tax);
    }
  }

  /** The net salary in closed form: the CTC scaled by what the contributions
      leave and then by what the tax leaves. */
  lemma NetClosedForm(i: Inputs)
    ensures Net(i) == i.ctc * (1.0 - (i.epf + i.etf) / 100.0) * (1.0 - i.tax / 100.0)
  {
    var keep := 1.0 - (i.epf + i.etf) / 100.0;
    assert Gross(i) == i.ctc * keep;
    calc {
      Net(i);
      Gross(i) - (Gross(i) * i.tax) / 100.0;
      Gross(i) * (1.0 - i.tax / 100.0);
      i.ctc * keep * (1.0 - i.tax / 100.0);
    }
  }

  /** For a positive CTC, the gross salary stays within [0, CTC] exactly when
      the combined contribution rate stays within [0, 100]. */
  lemma GrossBounds(i: Inputs)
    requires i.ctc > 0.0
    ensures 0.0 <= Gross(i) <==> Rate(i) <= 100.0
    ensures Gross(i) <= i.ctc <==> 0.0 <= Rate(i)
  {
    assert Gross(i) == i.ctc * (100.0 - Rate(i)) / 100.0;
    SignOfProduct(i.ctc, 100.0 - Rate(i));
    SignOfProduct(i.ctc, Rate(i));
  }

  /** For a non-negative gross salary and a tax rate in [0, 100], the net
      salary lies in [0, gross]; for a positive gross salary the converse
      holds too. */
  lemma NetBounds(i: Inputs)
    requires Gross(i) >= 0.0
    ensures 0.0 <= i.tax <= 100.0 ==> 0.0 <= Net(i) <= Gross(i)
    ensures Gross(i) > 0.0 ==> (0.0 <= Net(i) <==> i.tax <= 100.0)
    ensures Gross(i) > 0.0 ==> (Net(i) <= Gross(i) <==> 0.0 <= i.tax)
  {
    var g := Gross(i);
    assert Net(i) == g * (100.0 - i.tax) / 100.0;
    if g > 0.0 {
      SignOfProduct(g, 100.0 - i.tax);
      SignOfProduct(g, i.tax);
    } else {
      assert g == 0.0;
    }
  }

  /** For a positive CTC, raising the combined contribution rate never raises
      the gross salary, and strictly lowers it when the rise is strict. */
  lemma GrossAntitone(i: Inputs, j: Inputs)
    requires i.ctc == j.ctc && i.ctc > 0.0
    ensures Rate(i) <= Rate(j) ==> Gross(j) <= Gross(i)
    ensures Rate(i) < Rate(j) ==> Gross(j) < Gross(i)
  {
    assert Gross(i) - Gross(j) == i.ctc * (Rate(j) - Rate(i)) / 100.0;
    SignOfProduct(i.ctc, Rate(j) - Rate(i));
  }

  /** For a non-negative gross salary, raising the tax rate never raises the
      net salary; for a positive gross salary a strict rise strictly lowers it. */
  lemma NetAntitone(i: Inputs, j: Inputs)
    requires i.ctc == j.ctc && i.epf == j.epf && i.etf == j.etf
    requires Gross(i) >= 0.0
    ensures i.tax <= j.tax ==> Net(j) <= Net(i)
    ensures Gross(i) > 0.0 && i.tax < j.tax ==> Net(j) < Net(i)
  {
    var g := Gross(i);
    assert Gross(j) == g;
    assert Net(i) - Net(j) == g * (j.tax - i.tax) / 100.0;
    if g > 0.0 {
      SignOfProduct(g, j.tax - i.tax);
    } else {
      assert g == 0.0;
    }
  }

  /** Both results scale with the CTC: doubling the CTC doubles gross and net. */
  lemma ScalesWithCtc(i: Inputs, k: real)
    ensures Calculate(i.(ctc := k * i.ctc)) == Results(k * Gross(i), k * Net(i))
  {
    var j := i.(ctc := k * i.ctc);
    assert Gross(j) == k * Gross(i) by {
      assert Deductions(j) == k * Deductions(i);
    }
    assert TaxOn(j) == k * TaxOn(i);
  }

  /** A product of reals is zero only when a factor is. */
  lemma ZeroProduct(x: real, y: real)
    requires x * y == 0.0
    ensures x == 0.0 || y == 0.0
  {
  }

  /** For a positive factor, a product has the sign of the other factor. */
  lemma SignOfProduct(x: real, y: real)
    requires x > 0.0
    ensures x * y > 0.0 <==> y > 0.0
    ensures x * y >= 0.0 <==> y >= 0.0
  {
  }
}
