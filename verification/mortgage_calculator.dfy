/**
 * The mortgage calculator: a home price, a down payment, a term in years and an annual
 * interest rate give the monthly payment, the total paid and the total interest; an effect
 * keeps the down-payment percentage in step with the down payment, and a slider sets the
 * down payment from a percentage.
 */
module MortgageCalculator {
  import opened Wrappers
  import opened JsNumbers
  import opened Amortization

  const Zero: Num := Finite(0.0)
  const One: Num := Finite(1.0)
  const Hundred: Num := Finite(100.0)
  const Twelve: Num := Finite(12.0)

  /** monthlyPayment, totalPayment and totalInterest. */
  datatype Payments = Payments(monthly: Num, total: Num, interest: Num)

  const NoPayments: Payments := Payments(Zero, Zero, Zero)

  /** calculateMortgage on the values read from the four inputs. */
  function PaymentsOf(math: MathLib, price: Num, payment: Num, term: Num, rate: Num): Payments {
    var loanAmount := Sub(price, payment);
    if AtMost(loanAmount, Zero) || AtMost(rate, Zero) || AtMost(term, Zero) then NoPayments
    else
      var monthlyRate := Div(Div(rate, Hundred), Twelve);
      var numberOfPayments := Mul(term, Twelve);
      var growth := math.pow(Add(One, monthlyRate), numberOfPayments);
      var monthly := Mul(loanAmount, Div(Mul(monthlyRate, growth), Sub(growth, One)));
      var total := Mul(monthly, numberOfPayments);
      Payments(monthly, total, Sub(total, loanAmount))
  }

  /** The four inputs read with their fallbacks: price, down payment and rate 0, term 30. */
  function Read(fmt: Format, homePrice: string, downPayment: string, loanTerm: string, interestRate: string)
    : (r: (Num, Num, Num, Num))
    ensures !r.0.NaN? && !r.1.NaN? && !r.2.NaN? && !r.3.NaN?
    ensures !Truthy(fmt.parseFloat(loanTerm)) ==> r.2 == Finite(30.0)
    ensures !Truthy(fmt.parseFloat(homePrice)) ==> r.0 == Zero
    ensures !Truthy(fmt.parseFloat(downPayment)) ==> r.1 == Zero
    ensures !Truthy(fmt.parseFloat(interestRate)) ==> r.3 == Zero
  {
    (Or(fmt.parseFloat(homePrice), Zero), Or(fmt.parseFloat(downPayment), Zero),
     Or(fmt.parseFloat(loanTerm), Finite(30.0)), Or(fmt.parseFloat(interestRate), Zero))
  }

  function PaymentsFor(fmt: Format, math: MathLib, homePrice: string, downPayment: string,
                       loanTerm: string, interestRate: string): Payments {
    var v := Read(fmt, homePrice, downPayment, loanTerm, interestRate);
    PaymentsOf(math, v.0, v.1, v.2, v.3)
  }

  /** A loan that is not positive, a rate that is not positive or a term that is not positive
      gives zero payments. */
  lemma GuardZeroes(math: MathLib, price: real, payment: real, term: real, rate: real)
    requires price - payment <= 0.0 || rate <= 0.0 || term <= 0.0
    ensures PaymentsOf(math, Finite(price), Finite(payment), Finite(term), Finite(rate)) == NoPayments
  {
    assert Sub(Finite(price), Finite(payment)) == Finite(price - payment);
  }

  /** The monthly payment as the mortgage writes it is the level payment of the formula. */
  lemma MonthlyFormula(l: real, r: real, g: real)
    requires g != 1.0
    ensures l * (r * g / (g - 1.0)) == l * r * g / (g - 1.0)
  {
    var d := g - 1.0;
    var q := r * g / d;
    assert q * d == r * g;
    assert (l * q) * d == l * (q * d);
    assert l * r * g == l * (r * g);
    assert (l * r * g) / d * d == l * r * g;
    CancelFactor(l * q, l * r * g / d, d);
  }

  lemma CancelFactor(x: real, y: real, d: real)
    requires d != 0.0 && x * d == y * d
    ensures x == y
  {
    assert (x - y) * d == 0.0;
  }

  /** With a loan L = price − down payment > 0, a rate > 0 and a term of whole months n = 12 ·
      term, and Math.pow agreeing with the natural power there, the monthly payment is the
      level payment, which leaves a balance of 0 after n months; the total is n payments, and
      the interest is the total less L, which is positive. */
  lemma PaymentsOnNumbers(math: MathLib, price: real, payment: real, term: real, rate: real, n: nat)
    requires price - payment > 0.0 && rate > 0.0 && term > 0.0
    requires term * 12.0 == n as real
    requires math.pow(Finite(1.0 + rate / 100.0 / 12.0), Finite(n as real))
      == Finite(Power(1.0 + rate / 100.0 / 12.0, n))
    ensures var p := PaymentsOf(math, Finite(price), Finite(payment), Finite(term), Finite(rate));
      && n >= 1
      && p.monthly == Finite(Instalment(price - payment, rate / 100.0 / 12.0, n))
      && p.total == Finite(p.monthly.value * (n as real))
      && p.interest == Finite(p.total.value - (price - payment))
      && p.interest.value > 0.0
      && Balance(price - payment, rate / 100.0 / 12.0, p.monthly.value, n) == 0.0
  {
    assert n >= 1;
    PaymentsSteps(math, price, payment, term, rate, n);
    InstalmentCoversPrincipal(price - payment, rate / 100.0 / 12.0, n);
    InstalmentRepaysLoan(price - payment, rate / 100.0 / 12.0, n);
  }

  /** The Num steps of calculateMortgage on finite inputs past the guard. */
  lemma PaymentsSteps(math: MathLib, price: real, payment: real, term: real, rate: real, n: nat)
    requires price - payment > 0.0 && rate > 0.0 && term > 0.0
    requires term * 12.0 == n as real
    requires math.pow(Finite(1.0 + rate / 100.0 / 12.0), Finite(n as real))
      == Finite(Power(1.0 + rate / 100.0 / 12.0, n))
    ensures n >= 1
    ensures PaymentsOf(math, Finite(price), Finite(payment), Finite(term), Finite(rate))
      == Payments(Finite(Instalment(price - payment, rate / 100.0 / 12.0, n)),
                  Finite(Instalment(price - payment, rate / 100.0 / 12.0, n) * (n as real)),
                  Finite(Instalment(price - payment, rate / 100.0 / 12.0, n) * (n as real) - (price - payment)))
  {
    assert n >= 1;
    var r := rate / 100.0 / 12.0;
    assert r > 0.0;
    PowerAboveOne(r, n);
    assert Sub(Finite(price), Finite(payment)) == Finite(price - payment);
    assert Div(Div(Finite(rate), Hundred), Twelve) == Finite(r);
    assert Mul(Finite(term), Twelve) == Finite(n as real);
    assert Add(One, Finite(r)) == Finite(1.0 + r);
    Level(price - payment, r, n);
  }

  /** The Num steps of the monthly payment on a loan l, a monthly rate r and n payments. */
  lemma Level(l: real, r: real, n: nat)
    requires l > 0.0 && r > 0.0 && n >= 1
    ensures Mul(Finite(l), Div(Mul(Finite(r), Finite(Power(1.0 + r, n))), Sub(Finite(Power(1.0 + r, n)), One)))
      == Finite(Instalment(l, r, n))
  {
    PowerAboveOne(r, n);
    assert Sub(Finite(Power(1.0 + r, n)), One) == Finite(Power(1.0 + r, n) - 1.0);
    assert Mul(Finite(r), Finite(Power(1.0 + r, n))) == Finite(r * Power(1.0 + r, n));
    assert Div(Finite(r * Power(1.0 + r, n)), Finite(Power(1.0 + r, n) - 1.0))
      == Finite(r * Power(1.0 + r, n) / (Power(1.0 + r, n) - 1.0));
    MonthlyFormula(l, r, Power(1.0 + r, n));
  }

  /** homePrice, downPayment, downPaymentPercent, loanTerm, interestRate and the payments. */
  datatype Screen = Screen(
    homePrice: string, downPayment: string, downPaymentPercent: Num,
    loanTerm: string, interestRate: string,
    monthlyPayment: Num, totalPayment: Num, totalInterest: Num)

  const Initial: Screen := Screen("300000", "60000", Finite(20.0), "30", "4.5", Zero, Zero, Zero)

  /** The payments shown agree with the inputs. */
  predicate Settled(fmt: Format, math: MathLib, s: Screen) {
    Payments(s.monthlyPayment, s.totalPayment, s.totalInterest)
      == PaymentsFor(fmt, math, s.homePrice, s.downPayment, s.loanTerm, s.interestRate)
  }

  /** calculateMortgage. */
  function Recalculated(fmt: Format, math: MathLib, s: Screen): Screen {
    var p := PaymentsFor(fmt, math, s.homePrice, s.downPayment, s.loanTerm, s.interestRate);
    s.(monthlyPayment := p.monthly, totalPayment := p.total, totalInterest := p.interest)
  }

  /** The effect on [downPayment, homePrice]: the percentage payment / price · 100, set only
      when the price is positive. */
  function PercentEffect(fmt: Format, s: Screen): Screen {
    var price := Or(fmt.parseFloat(s.homePrice), Zero);
    var payment := Or(fmt.parseFloat(s.downPayment), Zero);
    if Less(Zero, price) then s.(downPaymentPercent := Mul(Div(payment, price), Hundred)) else s
  }

  /** The two effects after a render, each run when one of its dependencies changed. */
  function Effects(fmt: Format, math: MathLib, before: Screen, s: Screen): Screen {
    var t := if s.downPayment != before.downPayment || s.homePrice != before.homePrice
             then PercentEffect(fmt, s) else s;
    if t.homePrice != before.homePrice || t.downPayment != before.downPayment
       || t.loanTerm != before.loanTerm || t.interestRate != before.interestRate
    then Recalculated(fmt, math, t) else t
  }

  /** Mount runs both effects. */
  function Mounted(fmt: Format, math: MathLib): Screen {
    Recalculated(fmt, math, PercentEffect(fmt, Initial))
  }

  /** At mount the percentage is recomputed from the initial texts: 60000 of 300000 is 20 %. */
  lemma MountedPercent(fmt: Format, math: MathLib)
    requires fmt.parseFloat("300000") == Finite(300000.0) && fmt.parseFloat("60000") == Finite(60000.0)
    ensures Mounted(fmt, math).downPaymentPercent == Finite(20.0)
  {
    PercentOfPrice(fmt, Initial, 300000.0, 60000.0);
    assert 60000.0 / 300000.0 * 100.0 == 20.0;
  }

  /** handleDownPaymentSlider: the new percentage, and the down payment price · pct / 100
      written with no decimals; then the effects. */
  function Slider(fmt: Format, math: MathLib, s: Screen, newPercent: real): Screen {
    var price := Or(fmt.parseFloat(s.homePrice), Zero);
    Effects(fmt, math, s, s.(downPaymentPercent := Finite(newPercent),
                             downPayment := ToFixed(fmt, Div(Mul(price, Finite(newPercent)), Hundred), 0)))
  }

  /** From a settled screen, any change of the inputs followed by the effects is settled. */
  lemma EffectsSettle(fmt: Format, math: MathLib, before: Screen, s: Screen)
    requires Settled(fmt, math, before)
    requires s.monthlyPayment == before.monthlyPayment && s.totalPayment == before.totalPayment
    requires s.totalInterest == before.totalInterest
    ensures Settled(fmt, math, Effects(fmt, math, before, s))
  {
  }

  /** The percentage is the share of the price paid down, updated only for a positive price. */
  lemma PercentOfPrice(fmt: Format, s: Screen, price: real, payment: real)
    requires fmt.parseFloat(s.homePrice) == Finite(price) && fmt.parseFloat(s.downPayment) == Finite(payment)
    ensures price > 0.0 ==> PercentEffect(fmt, s).downPaymentPercent == Finite(payment / price * 100.0)
    ensures price <= 0.0 ==> PercentEffect(fmt, s) == s
  {
    if price > 0.0 {
      assert Div(Finite(payment), Finite(price)) == Finite(payment / price);
    }
  }

  /** When the slider's amount is a whole number that toFixed writes and parseFloat reads
      back, and it changes the down-payment text, the effect recomputes exactly the slider's
      percentage. */
  lemma SliderRoundTrip(fmt: Format, math: MathLib, s: Screen, price: real, pct: real)
    requires fmt.parseFloat(s.homePrice) == Finite(price) && price > 0.0
    requires fmt.parseFloat(fmt.toFixed(price * pct / 100.0, 0)) == Finite(price * pct / 100.0)
    requires fmt.toFixed(price * pct / 100.0, 0) != s.downPayment
    ensures Slider(fmt, math, s, pct).downPaymentPercent == Finite(pct)
    ensures Slider(fmt, math, s, pct).downPayment == fmt.toFixed(price * pct / 100.0, 0)
  {
    assert Mul(Finite(price), Finite(pct)) == Finite(price * pct);
    assert Div(Finite(price * pct), Hundred) == Finite(price * pct / 100.0);
    var t := s.(downPaymentPercent := Finite(pct), downPayment := fmt.toFixed(price * pct / 100.0, 0));
    assert ToFixed(fmt, Finite(price * pct / 100.0), 0) == fmt.toFixed(price * pct / 100.0, 0);
    assert Slider(fmt, math, s, pct) == Effects(fmt, math, s, t);
    PercentOfPrice(fmt, t, price, price * pct / 100.0);
    ShareBack(price, pct);
    RecalculatedKeepsInputs(fmt, math, PercentEffect(fmt, t));
  }

  /** Recalculating changes only the payments. */
  lemma RecalculatedKeepsInputs(fmt: Format, math: MathLib, s: Screen)
    ensures Recalculated(fmt, math, s).downPaymentPercent == s.downPaymentPercent
    ensures Recalculated(fmt, math, s).downPayment == s.downPayment
  {
  }

  lemma ShareBack(price: real, pct: real)
    requires price > 0.0
    ensures price * pct / 100.0 / price * 100.0 == pct
  {
  }

  /** The component. */
  class Calculator {
    const fmt: Format
    const math: MathLib
    var homePrice: string
    var downPayment: string
    var downPaymentPercent: Num
    var loanTerm: string
    var interestRate: string
    var monthlyPayment: Num
    var totalPayment: Num
    var totalInterest: Num

    function State(): Screen
      reads this
    {
      Screen(homePrice, downPayment, downPaymentPercent, loanTerm, interestRate,
             monthlyPayment, totalPayment, totalInterest)
    }

    ghost predicate Valid()
      reads this
    {
      Settled(fmt, math, State())
    }

    /** Mount: the initial state, then both effects. */
    constructor (fmt: Format, math: MathLib)
      ensures this.fmt == fmt && this.math == math && Valid() && State() == Mounted(fmt, math)
    {
      this.fmt := fmt;
      this.math := math;
      homePrice := "300000";
      downPayment := "60000";
      downPaymentPercent := Finite(20.0);
      loanTerm := "30";
      interestRate := "4.5";
      monthlyPayment := Zero;
      totalPayment := Zero;
      totalInterest := Zero;
      new;
      UpdatePercent();
      CalculateMortgage();
    }

    /** calculateMortgage. */
    method CalculateMortgage()
      modifies this
      ensures State() == Recalculated(fmt, math, old(State())) && Valid()
    {
      var price := Or(fmt.parseFloat(homePrice), Zero);
      var payment := Or(fmt.parseFloat(downPayment), Zero);
      var term := Or(fmt.parseFloat(loanTerm), Finite(30.0));
      var rate := Or(fmt.parseFloat(interestRate), Zero);
      assert Read(fmt, homePrice, downPayment, loanTerm, interestRate) == (price, payment, term, rate);
      ghost var expected := PaymentsOf(math, price, payment, term, rate);
      var loanAmount := Sub(price, payment);
      if AtMost(loanAmount, Zero) || AtMost(rate, Zero) || AtMost(term, Zero) {
        assert expected == NoPayments;
        monthlyPayment := Zero;
        totalPayment := Zero;
        totalInterest := Zero;
        return;
      }
      var monthlyRate := Div(Div(rate, Hundred), Twelve);
      var numberOfPayments := Mul(term, Twelve);
      var growth := math.pow(Add(One, monthlyRate), numberOfPayments);
      var monthlyPaymentValue := Mul(loanAmount, Div(Mul(monthlyRate, growth), Sub(growth, One)));
      var totalPaymentValue := Mul(monthlyPaymentValue, numberOfPayments);
      assert expected == Payments(monthlyPaymentValue, totalPaymentValue, Sub(totalPaymentValue, loanAmount));
      monthlyPayment := monthlyPaymentValue;
      totalPayment := totalPaymentValue;
      totalInterest := Sub(totalPaymentValue, loanAmount);
    }

    /** The effect on [downPayment, homePrice]. */
    method UpdatePercent()
      modifies this
      ensures State() == PercentEffect(fmt, old(State()))
    {
      var price := Or(fmt.parseFloat(homePrice), Zero);
      var payment := Or(fmt.parseFloat(downPayment), Zero);
      if Less(Zero, price) {
        downPaymentPercent := Mul(Div(payment, price), Hundred);
      }
    }

    /** The effects after a render whose previous inputs were `before`. */
    method RunEffects(before: Screen)
      requires Valid() || before.homePrice != homePrice || before.downPayment != downPayment
               || before.loanTerm != loanTerm || before.interestRate != interestRate
      modifies this
      ensures State() == Effects(fmt, math, before, old(State())) && Valid()
    {
      if downPayment != before.downPayment || homePrice != before.homePrice {
        UpdatePercent();
      }
      if homePrice != before.homePrice || downPayment != before.downPayment
         || loanTerm != before.loanTerm || interestRate != before.interestRate {
        CalculateMortgage();
      }
    }

    method SetHomePrice(text: string)
      requires Valid()
      modifies this
      ensures Valid() && State() == Effects(fmt, math, old(State()), old(State()).(homePrice := text))
    {
      var before := State();
      homePrice := text;
      RunEffects(before);
    }

    method SetDownPayment(text: string)
      requires Valid()
      modifies this
      ensures Valid() && State() == Effects(fmt, math, old(State()), old(State()).(downPayment := text))
    {
      var before := State();
      downPayment := text;
      RunEffects(before);
    }

    method SetLoanTerm(text: string)
      requires Valid()
      modifies this
      ensures Valid() && State() == Effects(fmt, math, old(State()), old(State()).(loanTerm := text))
    {
      var before := State();
      loanTerm := text;
      RunEffects(before);
    }

    method SetInterestRate(text: string)
      requires Valid()
      modifies this
      ensures Valid() && State() == Effects(fmt, math, old(State()), old(State()).(interestRate := text))
    {
      var before := State();
      interestRate := text;
      RunEffects(before);
    }

    /** handleDownPaymentSlider with the slider's values, then the effects. */
    method HandleDownPaymentSlider(values: seq<real>)
      requires Valid() && |values| > 0
      modifies this
      ensures Valid() && State() == Slider(fmt, math, old(State()), values[0])
    {
      var before := State();
      var newPercent := values[0];
      downPaymentPercent := Finite(newPercent);
      var price := Or(fmt.parseFloat(homePrice), Zero);
      downPayment := ToFixed(fmt, Div(Mul(price, Finite(newPercent)), Hundred), 0);
      RunEffects(before);
    }
  }
}
