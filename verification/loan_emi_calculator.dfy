/**
 * The loan EMI calculator: a loan amount, an annual interest rate and a term in years give
 * the equated monthly instalment, the total paid, the total interest and a two-slice chart
 * of principal against interest; the "Show Schedule" button only reports whether the inputs
 * are usable.
 */
module LoanEmiCalculator {
  import opened JsNumbers
  import opened Amortization
  import MortgageCalculator

  const Zero: Num := Finite(0.0)
  const One: Num := Finite(1.0)
  const Hundred: Num := Finite(100.0)
  const Twelve: Num := Finite(12.0)

  /** One slice of the pie chart. */
  datatype Slice = Slice(name: string, value: Num)

  /** emi, totalInterest, totalPayment and chartData. */
  datatype Results = Results(emi: Num, totalInterest: Num, totalPayment: Num, chart: seq<Slice>)

  const NoResults: Results := Results(Zero, Zero, Zero, [])

  /** The principal, the monthly rate and the number of months, read with the fallback 0. */
  function Read(fmt: Format, loanAmount: string, interestRate: string, loanTerm: string): (Num, Num, Num) {
    (Or(fmt.parseFloat(loanAmount), Zero),
     Div(Div(Or(fmt.parseFloat(interestRate), Zero), Hundred), Twelve),
     Mul(Or(fmt.parseFloat(loanTerm), Zero), Twelve))
  }

  /** The guard shared by calculateEMI and generateAmortizationSchedule. */
  predicate Refused(principal: Num, rate: Num, time: Num) {
    AtMost(principal, Zero) || AtMost(rate, Zero) || AtMost(time, Zero)
  }

  /** calculateEMI on the values read. */
  function ResultsOf(math: MathLib, principal: Num, rate: Num, time: Num): Results {
    if Refused(principal, rate, time) then NoResults
    else
      var emi := Div(Mul(Mul(principal, rate), math.pow(Add(One, rate), time)),
                     Sub(math.pow(Add(One, rate), time), One));
      var total := Mul(emi, time);
      var interest := Sub(total, principal);
      Results(emi, interest, total, [Slice("Principal", principal), Slice("Interest", interest)])
  }

  function ResultsFor(fmt: Format, math: MathLib, loanAmount: string, interestRate: string, loanTerm: string)
    : Results
  {
    var v := Read(fmt, loanAmount, interestRate, loanTerm);
    ResultsOf(math, v.0, v.1, v.2)
  }

  /** The two toasts of the "Show Schedule" button. */
  datatype Toast = Error(message: string) | Success(message: string)

  const InvalidDetails: string := "Please enter valid loan details"
  const ScheduleReady: string :=
    "Amortization schedule calculated. In a complete app, this would show a detailed payment schedule."

  /** generateAmortizationSchedule: the same reading and guard, and a toast. */
  function Schedule(fmt: Format, loanAmount: string, interestRate: string, loanTerm: string): Toast {
    var v := Read(fmt, loanAmount, interestRate, loanTerm);
    if Refused(v.0, v.1, v.2) then Error(InvalidDetails) else Success(ScheduleReady)
  }

  /** The schedule button reports an error exactly when calculateEMI zeroes the results and
      empties the chart. */
  lemma ScheduleAgreesWithChart(fmt: Format, math: MathLib, loanAmount: string, interestRate: string, loanTerm: string)
    ensures Schedule(fmt, loanAmount, interestRate, loanTerm).Error?
      <==> ResultsFor(fmt, math, loanAmount, interestRate, loanTerm).chart == []
    ensures Schedule(fmt, loanAmount, interestRate, loanTerm).Error?
      ==> ResultsFor(fmt, math, loanAmount, interestRate, loanTerm) == NoResults
  {
  }

  /** A usable loan always charts the principal and the interest, and with a finite principal
      the two slices add up to the total payment, whatever Math.pow returns. */
  lemma ChartAddsUp(math: MathLib, principal: real, rate: Num, time: Num)
    requires !Refused(Finite(principal), rate, time)
    ensures var r := ResultsOf(math, Finite(principal), rate, time);
      && |r.chart| == 2
      && r.chart[0] == Slice("Principal", Finite(principal))
      && r.chart[1] == Slice("Interest", r.totalInterest)
      && Add(r.chart[0].value, r.chart[1].value) == r.totalPayment
  {
  }

  /** On numbers with a positive principal P, rate and term, n = 12 · term whole months, and
      Math.pow agreeing with the natural power: the instalment is the level payment, which
      leaves a balance of 0 after n months; the total is n instalments and the interest, the
      total less P, is positive. */
  lemma EmiOnNumbers(fmt: Format, math: MathLib, loanAmount: string, interestRate: string, loanTerm: string,
                     p: real, annual: real, years: real, n: nat)
    requires fmt.parseFloat(loanAmount) == Finite(p) && fmt.parseFloat(interestRate) == Finite(annual)
    requires fmt.parseFloat(loanTerm) == Finite(years)
    requires p > 0.0 && annual > 0.0 && years > 0.0 && years * 12.0 == n as real
    requires math.pow(Finite(1.0 + annual / 100.0 / 12.0), Finite(n as real))
      == Finite(Power(1.0 + annual / 100.0 / 12.0, n))
    ensures var r := ResultsFor(fmt, math, loanAmount, interestRate, loanTerm);
      && n >= 1
      && r.emi == Finite(Instalment(p, annual / 100.0 / 12.0, n))
      && r.totalPayment == Finite(r.emi.value * (n as real))
      && r.totalInterest == Finite(r.totalPayment.value - p)
      && r.totalInterest.value > 0.0
      && Balance(p, annual / 100.0 / 12.0, r.emi.value, n) == 0.0
  {
    assert Read(fmt, loanAmount, interestRate, loanTerm)
      == (Finite(p), Finite(annual / 100.0 / 12.0), Finite(n as real));
    assert ResultsFor(fmt, math, loanAmount, interestRate, loanTerm)
      == ResultsOf(math, Finite(p), Finite(annual / 100.0 / 12.0), Finite(n as real));
    EmiSteps(math, p, annual / 100.0 / 12.0, n);
  }

  lemma EmiSteps(math: MathLib, p: real, r: real, n: nat)
    requires p > 0.0 && r > 0.0 && n >= 1
    requires math.pow(Finite(1.0 + r), Finite(n as real)) == Finite(Power(1.0 + r, n))
    ensures var res := ResultsOf(math, Finite(p), Finite(r), Finite(n as real));
      && res.emi == Finite(Instalment(p, r, n))
      && res.totalPayment == Finite(res.emi.value * (n as real))
      && res.totalInterest == Finite(res.totalPayment.value - p)
      && res.totalInterest.value > 0.0
      && Balance(p, r, res.emi.value, n) == 0.0
  {
    EmiValues(math, p, r, n);
    InstalmentCoversPrincipal(p, r, n);
    InstalmentRepaysLoan(p, r, n);
  }

  /** calculateEMI past the guard on numbers: the level payment, n of them, and their excess
      over the principal. */
  lemma EmiValues(math: MathLib, p: real, r: real, n: nat)
    requires p > 0.0 && r > 0.0 && n >= 1
    requires math.pow(Finite(1.0 + r), Finite(n as real)) == Finite(Power(1.0 + r, n))
    ensures ResultsOf(math, Finite(p), Finite(r), Finite(n as real)).emi == Finite(Instalment(p, r, n))
    ensures ResultsOf(math, Finite(p), Finite(r), Finite(n as real)).totalPayment
      == Finite(Instalment(p, r, n) * (n as real))
    ensures ResultsOf(math, Finite(p), Finite(r), Finite(n as real)).totalInterest
      == Finite(Instalment(p, r, n) * (n as real) - p)
  {
    PowerAboveOne(r, n);
    EmiWritten(math, p, r, n as real, Power(1.0 + r, n));
    assert Instalment(p, r, n) == p * r * Power(1.0 + r, n) / (Power(1.0 + r, n) - 1.0);
  }

  /** The Num steps of calculateEMI past the guard, when Math.pow returns a finite g ≠ 1. */
  lemma EmiWritten(math: MathLib, p: real, r: real, t: real, g: real)
    requires p > 0.0 && r > 0.0 && t > 0.0
    requires math.pow(Finite(1.0 + r), Finite(t)) == Finite(g) && g != 1.0
    ensures ResultsOf(math, Finite(p), Finite(r), Finite(t)).emi == Finite(p * r * g / (g - 1.0))
    ensures ResultsOf(math, Finite(p), Finite(r), Finite(t)).totalPayment == Finite(p * r * g / (g - 1.0) * t)
    ensures ResultsOf(math, Finite(p), Finite(r), Finite(t)).totalInterest == Finite(p * r * g / (g - 1.0) * t - p)
  {
    assert Add(One, Finite(r)) == Finite(1.0 + r);
    assert Sub(Finite(g), One) == Finite(g - 1.0);
    assert Mul(Mul(Finite(p), Finite(r)), Finite(g)) == Finite(p * r * g);
    assert Div(Finite(p * r * g), Finite(g - 1.0)) == Finite(p * r * g / (g - 1.0));
  }

  /** The two widgets write the payment differently, P · r · g / (g − 1) here and
      P · (r · g / (g − 1)) in the mortgage calculator; for a loan with no down payment and
      any finite growth g ≠ 1 returned by Math.pow they show the same monthly amount. */
  lemma SameAsMortgage(fmt: Format, math: MathLib, amount: string, interestRate: string, loanTerm: string,
                       p: real, annual: real, years: real, g: real)
    requires fmt.parseFloat(amount) == Finite(p) && fmt.parseFloat(interestRate) == Finite(annual)
    requires fmt.parseFloat(loanTerm) == Finite(years)
    requires p > 0.0 && annual > 0.0 && years > 0.0
    requires math.pow(Finite(1.0 + annual / 100.0 / 12.0), Finite(years * 12.0)) == Finite(g) && g != 1.0
    ensures ResultsFor(fmt, math, amount, interestRate, loanTerm).emi
      == MortgageCalculator.PaymentsOf(math, Finite(p), Zero, Finite(years), Finite(annual)).monthly
  {
    ReadNumbers(fmt, amount, interestRate, loanTerm, p, annual, years);
    EmiWritten(math, p, annual / 100.0 / 12.0, years * 12.0, g);
    MortgageWritten(math, p, annual, years, g);
    MortgageCalculator.MonthlyFormula(p, annual / 100.0 / 12.0, g);
  }

  /** Three numbers read from the inputs: the principal, the monthly rate and the months. */
  lemma ReadNumbers(fmt: Format, amount: string, interestRate: string, loanTerm: string,
                    p: real, annual: real, years: real)
    requires fmt.parseFloat(amount) == Finite(p) && fmt.parseFloat(interestRate) == Finite(annual)
    requires fmt.parseFloat(loanTerm) == Finite(years)
    requires p > 0.0 && annual > 0.0 && years > 0.0
    ensures Read(fmt, amount, interestRate, loanTerm)
      == (Finite(p), Finite(annual / 100.0 / 12.0), Finite(years * 12.0))
  {
  }

  /** The Num steps of the mortgage's monthly payment with no down payment. */
  lemma MortgageWritten(math: MathLib, p: real, annual: real, years: real, g: real)
    requires p > 0.0 && annual > 0.0 && years > 0.0
    requires math.pow(Finite(1.0 + annual / 100.0 / 12.0), Finite(years * 12.0)) == Finite(g) && g != 1.0
    ensures MortgageCalculator.PaymentsOf(math, Finite(p), Zero, Finite(years), Finite(annual)).monthly
      == Finite(p * (annual / 100.0 / 12.0 * g / (g - 1.0)))
  {
    assert Sub(Finite(p), Zero) == Finite(p);
    assert Div(Div(Finite(annual), Hundred), Twelve) == Finite(annual / 100.0 / 12.0);
    assert Mul(Finite(years), Twelve) == Finite(years * 12.0);
    assert Add(One, Finite(annual / 100.0 / 12.0)) == Finite(1.0 + annual / 100.0 / 12.0);
    assert Sub(Finite(g), One) == Finite(g - 1.0);
    assert Mul(Finite(annual / 100.0 / 12.0), Finite(g)) == Finite(annual / 100.0 / 12.0 * g);
    assert Div(Finite(annual / 100.0 / 12.0 * g), Finite(g - 1.0)) == Finite(annual / 100.0 / 12.0 * g / (g - 1.0));
  }

  /** The inputs and the results on screen. */
  datatype Screen = Screen(
    loanAmount: string, interestRate: string, loanTerm: string,
    emi: Num, totalInterest: Num, totalPayment: Num, chartData: seq<Slice>)

  function Shown(s: Screen): Results {
    Results(s.emi, s.totalInterest, s.totalPayment, s.chartData)
  }

  /** The results agree with the inputs. */
  predicate Settled(fmt: Format, math: MathLib, s: Screen) {
    Shown(s) == ResultsFor(fmt, math, s.loanAmount, s.interestRate, s.loanTerm)
  }

  /** calculateEMI. */
  function Recalculated(fmt: Format, math: MathLib, s: Screen): Screen {
    var r := ResultsFor(fmt, math, s.loanAmount, s.interestRate, s.loanTerm);
    s.(emi := r.emi, totalInterest := r.totalInterest, totalPayment := r.totalPayment, chartData := r.chart)
  }

  /** The effect on [loanAmount, interestRate, loanTerm]. */
  function AfterInputs(fmt: Format, math: MathLib, before: Screen, s: Screen): Screen {
    if s.loanAmount == before.loanAmount && s.interestRate == before.interestRate
       && s.loanTerm == before.loanTerm
    then s
    else Recalculated(fmt, math, s)
  }

  /** Every input change leaves the results settled, and the "Calculate EMI" button on a
      settled screen changes nothing. */
  lemma InputChangeSettles(fmt: Format, math: MathLib, before: Screen, amount: string, rate: string, term: string)
    requires Settled(fmt, math, before)
    ensures var s := before.(loanAmount := amount, interestRate := rate, loanTerm := term);
      && Settled(fmt, math, AfterInputs(fmt, math, before, s))
      && AfterInputs(fmt, math, before, s).loanAmount == amount
      && AfterInputs(fmt, math, before, s).interestRate == rate
      && AfterInputs(fmt, math, before, s).loanTerm == term
    ensures Recalculated(fmt, math, before) == before
  {
  }

  /** The component. */
  class Calculator {
    const fmt: Format
    const math: MathLib
    var loanAmount: string
    var interestRate: string
    var loanTerm: string
    var emi: Num
    var totalInterest: Num
    var totalPayment: Num
    var chartData: seq<Slice>

    function State(): Screen
      reads this
    {
      Screen(loanAmount, interestRate, loanTerm, emi, totalInterest, totalPayment, chartData)
    }

    ghost predicate Valid()
      reads this
    {
      Settled(fmt, math, State())
    }

    /** Mount: the initial inputs, then the effect. */
    constructor (fmt: Format, math: MathLib)
      ensures this.fmt == fmt && this.math == math && Valid()
      ensures loanAmount == "500000" && interestRate == "8.5" && loanTerm == "5"
    {
      this.fmt := fmt;
      this.math := math;
      loanAmount := "500000";
      interestRate := "8.5";
      loanTerm := "5";
      emi := Zero;
      totalInterest := Zero;
      totalPayment := Zero;
      chartData := [];
      new;
      CalculateEmi();
    }

    /** calculateEMI, run by the effect and by the "Calculate EMI" button. */
    method CalculateEmi()
      modifies this
      ensures State() == Recalculated(fmt, math, old(State())) && Valid()
    {
      var principal := Or(fmt.parseFloat(loanAmount), Zero);
      var rate := Div(Div(Or(fmt.parseFloat(interestRate), Zero), Hundred), Twelve);
      var time := Mul(Or(fmt.parseFloat(loanTerm), Zero), Twelve);
      assert Read(fmt, loanAmount, interestRate, loanTerm) == (principal, rate, time);
      if AtMost(principal, Zero) || AtMost(rate, Zero) || AtMost(time, Zero) {
        emi := Zero;
        totalInterest := Zero;
        totalPayment := Zero;
        chartData := [];
        return;
      }
      var growth := math.pow(Add(One, rate), time);
      var emiValue := Div(Mul(Mul(principal, rate), growth), Sub(growth, One));
      var totalPaymentValue := Mul(emiValue, time);
      var totalInterestValue := Sub(totalPaymentValue, principal);
      emi := emiValue;
      totalInterest := totalInterestValue;
      totalPayment := totalPaymentValue;
      chartData := [Slice("Principal", principal), Slice("Interest", totalInterestValue)];
    }

    /** generateAmortizationSchedule: changes nothing and returns the toast it shows, an
        error exactly when the chart is empty. */
    method GenerateAmortizationSchedule() returns (t: Toast)
      ensures t == Schedule(fmt, loanAmount, interestRate, loanTerm)
      ensures Valid() ==> (t.Error? <==> chartData == [])
      ensures t.Error? ==> t.message == InvalidDetails
    {
      var principal := Or(fmt.parseFloat(loanAmount), Zero);
      var monthlyRate := Div(Div(Or(fmt.parseFloat(interestRate), Zero), Hundred), Twelve);
      var totalMonths := Mul(Or(fmt.parseFloat(loanTerm), Zero), Twelve);
      if AtMost(principal, Zero) || AtMost(monthlyRate, Zero) || AtMost(totalMonths, Zero) {
        return Error(InvalidDetails);
      }
      ScheduleAgreesWithChart(fmt, math, loanAmount, interestRate, loanTerm);
      return Success(ScheduleReady);
    }

    /** The effect, run after a render in which an input changed. */
    method InputsChanged(before: Screen)
      requires before.loanAmount != loanAmount || before.interestRate != interestRate
               || before.loanTerm != loanTerm || Valid()
      modifies this
      ensures Valid() && State() == AfterInputs(fmt, math, before, old(State()))
    {
      if before.loanAmount != loanAmount || before.interestRate != interestRate || before.loanTerm != loanTerm {
        CalculateEmi();
      }
    }

    method SetLoanAmount(text: string)
      requires Valid()
      modifies this
      ensures Valid() && State() == AfterInputs(fmt, math, old(State()), old(State()).(loanAmount := text))
    {
      var before := State();
      loanAmount := text;
      InputsChanged(before);
    }

    method SetInterestRate(text: string)
      requires Valid()
      modifies this
      ensures Valid() && State() == AfterInputs(fmt, math, old(State()), old(State()).(interestRate := text))
    {
      var before := State();
      interestRate := text;
      InputsChanged(before);
    }

    method SetLoanTerm(text: string)
      requires Valid()
      modifies this
      ensures Valid() && State() == AfterInputs(fmt, math, old(State()), old(State()).(loanTerm := text))
    {
      var before := State();
      loanTerm := text;
      InputsChanged(before);
    }

    /** handleAmountSlider: the amount written with toString. */
    method HandleAmountSlider(values: seq<real>)
      requires Valid() && |values| > 0
      modifies this
      ensures Valid()
      ensures State() == AfterInputs(fmt, math, old(State()), old(State()).(loanAmount := fmt.toString(values[0])))
    {
      var before := State();
      loanAmount := fmt.toString(values[0]);
      InputsChanged(before);
    }

    /** handleRateSlider: the rate written with two decimals. */
    method HandleRateSlider(values: seq<real>)
      requires Valid() && |values| > 0
      modifies this
      ensures Valid()
      ensures State() == AfterInputs(fmt, math, old(State()), old(State()).(interestRate := fmt.toFixed(values[0], 2)))
    {
      var before := State();
      interestRate := ToFixed(fmt, Finite(values[0]), 2);
      InputsChanged(before);
    }

    /** handleTermSlider: the term written with toString. */
    method HandleTermSlider(values: seq<real>)
      requires Valid() && |values| > 0
      modifies this
      ensures Valid()
      ensures State() == AfterInputs(fmt, math, old(State()), old(State()).(loanTerm := fmt.toString(values[0])))
    {
      var before := State();
      loanTerm := fmt.toString(values[0]);
      InputsChanged(before);
    }
  }
}
