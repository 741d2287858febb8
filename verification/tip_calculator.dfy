/**
 * The tip calculator: a bill, a tip percentage and a number of people give the tip, the
 * total and each person's share, recomputed by an effect whenever an input changes.
 */
module TipCalculator {
  import opened Wrappers
  import opened JsNumbers
  import opened JsParseInt

  /** The preset buttons. */
  const TipPresets: seq<real> := [10.0, 15.0, 18.0, 20.0, 25.0]

  /** `parseFloat(billAmount) || 0`. */
  function Bill(fmt: Format, billAmount: string): (b: Num)
    ensures !b.NaN?
  {
    Or(fmt.parseFloat(billAmount), Finite(0.0))
  }

  /** `parseInt(numberOfPeople) || 1`: the parsed count, or 1 when it does not parse or is 0. */
  function People(numberOfPeople: string): int {
    OrOne(ParseInt(numberOfPeople))
  }

  /** `parsed || 1` on the result of parseInt, None standing for NaN. */
  function OrOne(parsed: Option<int>): (n: int)
    ensures n != 0
    ensures parsed.Some? && parsed.value != 0 ==> n == parsed.value
    ensures parsed.None? || parsed == Some(0) ==> n == 1
  {
    match parsed
    case Some(v) => if v != 0 then v else 1
    case None => 1
  }

  /** tipAmount, totalAmount and perPersonAmount. */
  datatype Amounts = Amounts(tip: Num, total: Num, perPerson: Num)

  const Zero: Num := Finite(0.0)

  /** calculateTip. */
  function Split(fmt: Format, billAmount: string, tipPercent: real, numberOfPeople: string): Amounts {
    SplitOf(Bill(fmt, billAmount), tipPercent, People(numberOfPeople))
  }

  /** The same on the bill and the count once read. */
  function SplitOf(bill: Num, tipPercent: real, people: int): Amounts {
    if AtMost(bill, Zero) then Amounts(Zero, Zero, Zero)
    else
      var tip := Mul(bill, Finite(tipPercent / 100.0));
      var total := Add(bill, tip);
      Amounts(tip, total, Div(total, Finite(people as real)))
  }

  /** A bill that is not positive, or that does not parse, zeroes every output. */
  lemma NoPositiveBill(fmt: Format, billAmount: string, tipPercent: real, numberOfPeople: string)
    requires fmt.parseFloat(billAmount).NaN? ||
             (fmt.parseFloat(billAmount).Finite? && fmt.parseFloat(billAmount).value <= 0.0)
    ensures Split(fmt, billAmount, tipPercent, numberOfPeople) == Amounts(Zero, Zero, Zero)
  {
  }

  /** On a positive bill b and p percent: the tip is b · p / 100, the total b plus the tip, and
      the shares of the (never zero) people count add back up to the total. */
  lemma SplitOfPositiveBill(fmt: Format, billAmount: string, b: real, tipPercent: real, numberOfPeople: string)
    requires fmt.parseFloat(billAmount) == Finite(b) && b > 0.0
    ensures var a := Split(fmt, billAmount, tipPercent, numberOfPeople);
      && a.tip == Finite(b * (tipPercent / 100.0))
      && a.total == Finite(b + b * (tipPercent / 100.0))
      && a.perPerson == Finite((b + b * (tipPercent / 100.0)) / (People(numberOfPeople) as real))
  {
    SplitReads(fmt, billAmount, b, tipPercent, numberOfPeople);
    SplitOfNumber(b, tipPercent, People(numberOfPeople));
  }

  /** On a positive bill the shares of the (never zero) people count add back up to the total. */
  lemma SharesAddUp(fmt: Format, billAmount: string, b: real, tipPercent: real, numberOfPeople: string, n: int)
    requires fmt.parseFloat(billAmount) == Finite(b) && b > 0.0
    requires People(numberOfPeople) == n
    ensures SharesCover(Split(fmt, billAmount, tipPercent, numberOfPeople), n)
  {
    SplitReads(fmt, billAmount, b, tipPercent, numberOfPeople);
    SplitOfNumber(b, tipPercent, n);
    assert Split(fmt, billAmount, tipPercent, numberOfPeople) == SplitOf(Finite(b), tipPercent, n);
  }

  /** n shares of the per-person amount make up the total. */
  predicate SharesCover(a: Amounts, n: int) {
    a.total.Finite? && a.perPerson.Finite? && a.perPerson.value * (n as real) == a.total.value
  }

  lemma SplitReads(fmt: Format, billAmount: string, b: real, tipPercent: real, numberOfPeople: string)
    requires fmt.parseFloat(billAmount) == Finite(b) && b > 0.0
    ensures Split(fmt, billAmount, tipPercent, numberOfPeople) == SplitOf(Finite(b), tipPercent, People(numberOfPeople))
  {
  }

  lemma SplitOfNumber(b: real, tipPercent: real, people: int)
    requires b > 0.0 && people != 0
    ensures var a := SplitOf(Finite(b), tipPercent, people);
      && a.tip == Finite(b * (tipPercent / 100.0))
      && a.total == Finite(b + b * (tipPercent / 100.0))
      && a.perPerson == Finite((b + b * (tipPercent / 100.0)) / (people as real))
      && SharesCover(a, people)
  {
    assert !AtMost(Finite(b), Zero);
    assert Mul(Finite(b), Finite(tipPercent / 100.0)) == Finite(b * (tipPercent / 100.0));
    assert Add(Finite(b), Finite(b * (tipPercent / 100.0))) == Finite(b + b * (tipPercent / 100.0));
    ShareOf(b + b * (tipPercent / 100.0), people);
  }

  /** Dividing a total among n people, n not 0: the shares add back up to the total. */
  lemma ShareOf(total: real, n: int)
    requires n != 0
    ensures Div(Finite(total), Finite(n as real)) == Finite(total / (n as real))
    ensures total / (n as real) * (n as real) == total
  {
    DivThenMul(total, n as real);
  }

  /** A negative count is not refused: "-2" people gives a negative share. */
  lemma NegativePeoplePassThrough()
    ensures People("-2") == -2
  {
    ParseNegative("-2");
    assert "-2"[1..] == "2";
    TwoDigits();
  }

  /** The width of the service-quality bar: min(pct · 3, 100), capped at exactly 100. */
  function QualityBarWidth(tipPercent: real): (w: real)
    ensures w <= 100.0
    ensures tipPercent * 3.0 <= 100.0 ==> w == tipPercent * 3.0
    ensures tipPercent * 3.0 >= 100.0 ==> w == 100.0
  {
    if tipPercent * 3.0 < 100.0 then tipPercent * 3.0 else 100.0
  }

  /** The inputs and the outputs. */
  datatype Screen = Screen(
    billAmount: string, tipPercent: real, numberOfPeople: string,
    tipAmount: Num, totalAmount: Num, perPersonAmount: Num)

  function Outputs(s: Screen): Amounts {
    Amounts(s.tipAmount, s.totalAmount, s.perPersonAmount)
  }

  /** The effect on [billAmount, tipPercent, numberOfPeople] has settled. */
  predicate Settled(fmt: Format, s: Screen) {
    Outputs(s) == Split(fmt, s.billAmount, s.tipPercent, s.numberOfPeople)
  }

  /** An input change followed by the effect, when one of its dependencies changed. */
  function AfterInputs(fmt: Format, before: Screen, s: Screen): Screen {
    if s.billAmount == before.billAmount && s.tipPercent == before.tipPercent
       && s.numberOfPeople == before.numberOfPeople
    then s
    else
      var a := Split(fmt, s.billAmount, s.tipPercent, s.numberOfPeople);
      s.(tipAmount := a.tip, totalAmount := a.total, perPersonAmount := a.perPerson)
  }

  /** From a settled screen, every input change leaves the outputs settled for the new
      inputs, whether the effect ran or not. */
  lemma InputChangeSettles(fmt: Format, before: Screen, bill: string, pct: real, people: string)
    requires Settled(fmt, before)
    ensures var s := before.(billAmount := bill, tipPercent := pct, numberOfPeople := people);
      && Settled(fmt, AfterInputs(fmt, before, s))
      && AfterInputs(fmt, before, s).billAmount == bill
      && AfterInputs(fmt, before, s).tipPercent == pct
      && AfterInputs(fmt, before, s).numberOfPeople == people
  {
  }

  /** Two people are two. */
  lemma TwoPeople()
    ensures People("2") == 2
  {
    ParseFromDigit("2");
    TwoDigits();
  }

  /** The digit text "2" has the single digit 2, of value 2. */
  lemma TwoDigits()
    ensures DigitPrefix("2", 10) == [2] && Digits.Value(DigitPrefix("2", 10), 10) == 2
  {
    assert DigitPrefix("2", 10) == [2] by { assert "2"[1..] == ""; }
    assert Digits.Value([2], 10) == 2 by { assert [2][..0] == []; }
  }

  /** resetCalculator restores "50", 15 % and "2"; with those, the tip is 7.5, the total 57.5
      and each share 28.75. */
  lemma ResetValues(fmt: Format)
    requires fmt.parseFloat("50") == Finite(50.0)
    ensures Split(fmt, "50", 15.0, "2") == Amounts(Finite(7.5), Finite(57.5), Finite(28.75))
  {
    TwoPeople();
    SplitOfPositiveBill(fmt, "50", 50.0, 15.0, "2");
    assert 50.0 * (15.0 / 100.0) == 7.5;
    assert 50.0 + 50.0 * (15.0 / 100.0) == 57.5;
    assert 57.5 / 2.0 == 28.75;
  }

  /** The component. */
  class Calculator {
    const fmt: Format
    var billAmount: string
    var tipPercent: real
    var numberOfPeople: string
    var tipAmount: Num
    var totalAmount: Num
    var perPersonAmount: Num

    function State(): Screen
      reads this
    {
      Screen(billAmount, tipPercent, numberOfPeople, tipAmount, totalAmount, perPersonAmount)
    }

    ghost predicate Valid()
      reads this
    {
      Settled(fmt, State())
    }

    /** Mount: the initial inputs, then the effect. */
    constructor (fmt: Format)
      ensures this.fmt == fmt && Valid()
      ensures billAmount == "50" && tipPercent == 15.0 && numberOfPeople == "2"
    {
      this.fmt := fmt;
      billAmount := "50";
      tipPercent := 15.0;
      numberOfPeople := "2";
      tipAmount := Zero;
      totalAmount := Zero;
      perPersonAmount := Zero;
      new;
      CalculateTip();
    }

    /** calculateTip. */
    method CalculateTip()
      modifies this
      ensures Valid()
      ensures billAmount == old(billAmount) && tipPercent == old(tipPercent)
      ensures numberOfPeople == old(numberOfPeople)
    {
      var bill := Or(fmt.parseFloat(billAmount), Finite(0.0));
      var parsed := ParseInt(numberOfPeople);
      var people := if parsed.Some? && parsed.value != 0 then parsed.value else 1;
      ghost var expected := Split(fmt, billAmount, tipPercent, numberOfPeople);
      assert expected == SplitOf(bill, tipPercent, people);
      if AtMost(bill, Zero) {
        assert expected == Amounts(Zero, Zero, Zero);
        tipAmount := Zero;
        totalAmount := Zero;
        perPersonAmount := Zero;
        return;
      }
      var tip := Mul(bill, Finite(tipPercent / 100.0));
      var total := Add(bill, tip);
      var perPerson := Div(total, Finite(people as real));
      assert Amounts(tip, total, perPerson) == expected;
      tipAmount := tip;
      totalAmount := total;
      perPersonAmount := perPerson;
    }

    /** The effect, run after a render in which an input changed. */
    method InputsChanged(before: Screen)
      requires before.billAmount != billAmount || before.tipPercent != tipPercent
               || before.numberOfPeople != numberOfPeople || Valid()
      modifies this
      ensures Valid() && State() == AfterInputs(fmt, before, old(State()))
      ensures billAmount == old(billAmount) && tipPercent == old(tipPercent)
      ensures numberOfPeople == old(numberOfPeople)
    {
      if before.billAmount != billAmount || before.tipPercent != tipPercent
         || before.numberOfPeople != numberOfPeople {
        CalculateTip();
      }
    }

    method SetBillAmount(text: string)
      requires Valid()
      modifies this
      ensures Valid() && State() == AfterInputs(fmt, old(State()), old(State()).(billAmount := text))
    {
      var before := State();
      billAmount := text;
      InputsChanged(before);
    }

    method SetNumberOfPeople(text: string)
      requires Valid()
      modifies this
      ensures Valid() && State() == AfterInputs(fmt, old(State()), old(State()).(numberOfPeople := text))
    {
      var before := State();
      numberOfPeople := text;
      InputsChanged(before);
    }

    /** handleTipPresetClick, from the button of preset i. */
    method HandleTipPresetClick(i: nat)
      requires Valid() && i < |TipPresets|
      modifies this
      ensures Valid() && tipPercent == TipPresets[i]
      ensures State() == AfterInputs(fmt, old(State()), old(State()).(tipPercent := TipPresets[i]))
    {
      var before := State();
      tipPercent := TipPresets[i];
      InputsChanged(before);
    }

    /** handleTipSlider with the slider's values. */
    method HandleTipSlider(values: seq<real>)
      requires Valid() && |values| > 0
      modifies this
      ensures Valid() && State() == AfterInputs(fmt, old(State()), old(State()).(tipPercent := values[0]))
    {
      var before := State();
      tipPercent := values[0];
      InputsChanged(before);
    }

    /** resetCalculator, then the effect. */
    method ResetCalculator()
      requires Valid()
      modifies this
      ensures Valid() && billAmount == "50" && tipPercent == 15.0 && numberOfPeople == "2"
      ensures State() == AfterInputs(fmt, old(State()),
        old(State()).(billAmount := "50", tipPercent := 15.0, numberOfPeople := "2"))
    {
      var before := State();
      billAmount := "50";
      tipPercent := 15.0;
      numberOfPeople := "2";
      assert State() == before.(billAmount := "50", tipPercent := 15.0, numberOfPeople := "2");
      InputsChanged(before);
    }
  }
}
