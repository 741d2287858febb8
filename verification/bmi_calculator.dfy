/**
 * The BMI calculator: the body-mass index from a weight and a height in metric or imperial
 * units, rounded to two decimals, and the category an effect derives from it with the
 * thresholds 18.5, 25 and 30.
 */
module BmiCalculator {
  import opened Wrappers
  import opened JsNumbers

  const Metric: string := "metric"

  const Underweight: string := "Underweight"
  const NormalWeight: string := "Normal weight"
  const Overweight: string := "Overweight"
  const Obesity: string := "Obesity"

  /** The categories in increasing order of bmi. */
  const Categories: seq<string> := [Underweight, NormalWeight, Overweight, Obesity]

  /** The category effect's chain of tests bmi < 18.5, bmi < 25, bmi < 30. */
  function Classify(bmi: Num): (c: string)
    ensures c in Categories
  {
    if Less(bmi, Finite(18.5)) then Underweight
    else if Less(bmi, Finite(25.0)) then NormalWeight
    else if Less(bmi, Finite(30.0)) then Overweight
    else Obesity
  }

  /** The position of a category in `Categories`. */
  function Rank(c: string): nat {
    if c == Underweight then 0
    else if c == NormalWeight then 1
    else if c == Overweight then 2
    else 3
  }

  /** Each category is exactly one band of the number line: lower bound included, upper
      bound excluded. */
  lemma ClassifyBands(x: real)
    ensures Classify(Finite(x)) == Underweight <==> x < 18.5
    ensures Classify(Finite(x)) == NormalWeight <==> 18.5 <= x < 25.0
    ensures Classify(Finite(x)) == Overweight <==> 25.0 <= x < 30.0
    ensures Classify(Finite(x)) == Obesity <==> 30.0 <= x
  {
  }

  /** A larger bmi never gets an earlier category. */
  lemma ClassifyMonotone(x: real, y: real)
    requires x <= y
    ensures Rank(Classify(Finite(x))) <= Rank(Classify(Finite(y)))
  {
  }

  /** The values that are not numbers: NaN fails every test and lands in the last category,
      as does +Infinity; −Infinity is underweight. */
  lemma NonFiniteCategories()
    ensures Classify(NaN) == Obesity
    ensures Classify(Infinity(false)) == Obesity
    ensures Classify(Infinity(true)) == Underweight
  {
  }

  const Gray: string := "bg-gray-100"

  /** The colour class of each category. */
  function CategoryColour(c: string): string {
    if c == Underweight then "bg-blue-100 border-blue-300"
    else if c == NormalWeight then "bg-green-100 border-green-300"
    else if c == Overweight then "bg-yellow-100 border-yellow-300"
    else "bg-red-100 border-red-300"
  }

  /** getBMICategoryColor. */
  function Colour(bmi: Option<Num>): string {
    match bmi
    case None => Gray
    case Some(b) =>
      if Less(b, Finite(18.5)) then "bg-blue-100 border-blue-300"
      else if Less(b, Finite(25.0)) then "bg-green-100 border-green-300"
      else if Less(b, Finite(30.0)) then "bg-yellow-100 border-yellow-300"
      else "bg-red-100 border-red-300"
  }

  /** The colour and the category use the same thresholds: a bmi's colour is its category's
      colour, every category has its own colour, and no bmi gives gray. */
  lemma ColourAgreesWithCategory(b: Num)
    ensures Colour(Some(b)) == CategoryColour(Classify(b))
    ensures Colour(Some(b)) != Gray
    ensures Colour(None) == Gray
    ensures forall c, d :: c in Categories && d in Categories && c != d ==> CategoryColour(c) != CategoryColour(d)
  {
  }

  /** The bmi before rounding: w / (h/100)² in kilograms and centimetres, and
      (w / h²) · 703 in pounds and inches. */
  function RawBmi(fmt: Format, unit: string, weight: string, height: string): Num {
    RawBmiOf(unit, fmt.parseFloat(weight), fmt.parseFloat(height))
  }

  /** The same on the parsed weight and height. */
  function RawBmiOf(unit: string, w: Num, h: Num): Num {
    if unit == Metric then
      var heightInM := Div(h, Finite(100.0));
      Div(w, Mul(heightInM, heightInM))
    else
      Mul(Div(w, Mul(h, h)), Finite(703.0))
  }

  /** On numbers with a non-zero height both formulas are finite and exact: w / (h/100)² and
      (w / h²) · 703, with no rounding before the final toFixed. */
  lemma Formulas(w: real, h: real)
    requires h != 0.0
    ensures RawBmiOf(Metric, Finite(w), Finite(h)) == Finite(w / ((h / 100.0) * (h / 100.0)))
    ensures RawBmiOf("imperial", Finite(w), Finite(h)) == Finite(w / (h * h) * 703.0)
  {
    SquareNotZero(h);
  }

  lemma SquareNotZero(h: real)
    requires h != 0.0
    ensures h * h != 0.0 && (h / 100.0) * (h / 100.0) != 0.0
  {
    if h > 0.0 {
      assert h * h > 0.0;
      assert (h / 100.0) * (h / 100.0) > 0.0;
    } else {
      assert (-h) * (-h) > 0.0;
      assert (-h / 100.0) * (-h / 100.0) > 0.0;
    }
  }

  /** A height of 0 is not refused: a positive weight gives an infinite bmi. */
  lemma ZeroHeight(w: real)
    requires w > 0.0
    ensures RawBmiOf(Metric, Finite(w), Finite(0.0)) == Infinity(false)
  {
    assert Div(Finite(0.0), Finite(100.0)) == Finite(0.0);
    assert Mul(Finite(0.0), Finite(0.0)) == Finite(0.0);
  }

  /** `parseFloat(x.toFixed(2))`. */
  function Rounded(fmt: Format, x: Num): Num {
    fmt.parseFloat(ToFixed(fmt, x, 2))
  }

  /** unit, weight, height, bmi and category. */
  datatype Screen = Screen(unit: string, weight: string, height: string, bmi: Option<Num>, category: string)

  const Initial: Screen := Screen(Metric, "", "", None, "")

  /** The category is empty while there is no bmi, and is the bmi's category once there is. */
  predicate Consistent(s: Screen) {
    && (s.bmi.None? ==> s.category == "")
    && (s.bmi.Some? ==> s.category == Classify(s.bmi.value))
  }

  /** The effect on [bmi], run after a render in which bmi changed. */
  function CategoryEffect(before: Option<Num>, s: Screen): Screen {
    if s.bmi == before || s.bmi.None? then s else s.(category := Classify(s.bmi.value))
  }

  /** calculateBMI, followed by the category effect. */
  function Calculate(fmt: Format, s: Screen): Screen {
    if s.weight == "" || s.height == "" then s
    else CategoryEffect(s.bmi, s.(bmi := Some(Rounded(fmt, RawBmi(fmt, s.unit, s.weight, s.height)))))
  }

  /** handleReset; the effect then sees a null bmi and stops. */
  function Reset(s: Screen): Screen {
    s.(weight := "", height := "", bmi := None, category := "")
  }

  /** A missing weight or height changes nothing; otherwise the rounded bmi is shown with its
      category, whether or not the effect had to run. */
  lemma CalculateResult(fmt: Format, s: Screen)
    requires Consistent(s)
    ensures s.weight == "" || s.height == "" ==> Calculate(fmt, s) == s
    ensures s.weight != "" && s.height != "" ==>
      var t := Calculate(fmt, s);
      && t.bmi == Some(Rounded(fmt, RawBmi(fmt, s.unit, s.weight, s.height)))
      && t.category == Classify(t.bmi.value)
      && t.unit == s.unit && t.weight == s.weight && t.height == s.height
  {
  }

  /** Every handler keeps the category consistent with the bmi. */
  lemma HandlersKeepConsistent(fmt: Format, s: Screen, text: string)
    requires Consistent(s)
    ensures Consistent(Calculate(fmt, s))
    ensures Consistent(Reset(s))
    ensures Consistent(s.(unit := text)) && Consistent(s.(weight := text)) && Consistent(s.(height := text))
  {
    CalculateResult(fmt, s);
  }

  /** Reset clears the inputs, the bmi and the category, and keeps the unit. */
  lemma ResetClears(s: Screen)
    ensures Reset(s) == Initial.(unit := s.unit)
    ensures Colour(Reset(s).bmi) == Gray
  {
  }

  /** The component. */
  class Calculator {
    const fmt: Format
    var unit: string
    var weight: string
    var height: string
    var bmi: Option<Num>
    var category: string

    function State(): Screen
      reads this
    {
      Screen(unit, weight, height, bmi, category)
    }

    ghost predicate Valid()
      reads this
    {
      Consistent(State())
    }

    constructor (fmt: Format)
      ensures this.fmt == fmt && State() == Initial && Valid()
    {
      this.fmt := fmt;
      unit := Metric;
      weight := "";
      height := "";
      bmi := None;
      category := "";
    }

    method SetUnit(text: string)
      requires Valid()
      modifies this
      ensures Valid() && State() == old(State()).(unit := text)
    {
      unit := text;
    }

    method SetWeight(text: string)
      requires Valid()
      modifies this
      ensures Valid() && State() == old(State()).(weight := text)
    {
      weight := text;
    }

    method SetHeight(text: string)
      requires Valid()
      modifies this
      ensures Valid() && State() == old(State()).(height := text)
    {
      height := text;
    }

    /** calculateBMI, then the category effect when bmi changed. */
    method CalculateBmi()
      requires Valid()
      modifies this
      ensures Valid() && State() == Calculate(fmt, old(State()))
    {
      if weight == "" || height == "" {
        return;
      }
      var bmiValue: Num;
      if unit == Metric {
        var heightInM := Div(fmt.parseFloat(height), Finite(100.0));
        bmiValue := Div(fmt.parseFloat(weight), Mul(heightInM, heightInM));
      } else {
        bmiValue := Mul(Div(fmt.parseFloat(weight), Mul(fmt.parseFloat(height), fmt.parseFloat(height))), Finite(703.0));
      }
      var before := bmi;
      bmi := Some(fmt.parseFloat(ToFixed(fmt, bmiValue, 2)));
      if bmi != before {
        CategoryEffect();
      }
    }

    /** The effect on [bmi]. */
    method CategoryEffect()
      modifies this
      ensures bmi.None? ==> State() == old(State())
      ensures bmi.Some? ==> State() == old(State()).(category := Classify(bmi.value))
    {
      if bmi.None? {
        return;
      }
      var b := bmi.value;
      if Less(b, Finite(18.5)) {
        category := Underweight;
      } else if Less(b, Finite(25.0)) {
        category := NormalWeight;
      } else if Less(b, Finite(30.0)) {
        category := Overweight;
      } else {
        category := Obesity;
      }
    }

    method HandleReset()
      requires Valid()
      modifies this
      ensures Valid() && State() == Reset(old(State()))
    {
      weight := "";
      height := "";
      bmi := None;
      category := "";
    }
  }
}
