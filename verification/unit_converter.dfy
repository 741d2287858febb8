/**
 * The unit converter: four categories of units, each unit a factor relative to the
 * category's base unit, six affine temperature formulas, and the component whose output
 * text always shows the conversion of its input text between its two selected units.
 */
module UnitConverter {
  import opened Wrappers
  import opened JsNumbers
  import opened TrimZeros

  datatype Unit = Unit(id: string, name: string, factor: real)

  datatype Category = Category(name: string, units: seq<Unit>)

  /** conversionCategories. */
  const Categories: seq<Category> := [
    Category("Length", [
      Unit("mm", "Millimeter (mm)", 0.001),
      Unit("cm", "Centimeter (cm)", 0.01),
      Unit("m", "Meter (m)", 1.0),
      Unit("km", "Kilometer (km)", 1000.0),
      Unit("in", "Inch (in)", 0.0254),
      Unit("ft", "Foot (ft)", 0.3048),
      Unit("yd", "Yard (yd)", 0.9144),
      Unit("mi", "Mile (mi)", 1609.344)]),
    Category("Weight", [
      Unit("mg", "Milligram (mg)", 0.001),
      Unit("g", "Gram (g)", 1.0),
      Unit("kg", "Kilogram (kg)", 1000.0),
      Unit("oz", "Ounce (oz)", 28.3495),
      Unit("lb", "Pound (lb)", 453.592),
      Unit("st", "Stone (st)", 6350.29),
      Unit("ton", "Metric Ton (t)", 1000000.0)]),
    Category("Temperature", [
      Unit("c", "Celsius (°C)", 1.0),
      Unit("f", "Fahrenheit (°F)", 1.0),
      Unit("k", "Kelvin (K)", 1.0)]),
    Category("Volume", [
      Unit("ml", "Milliliter (ml)", 1.0),
      Unit("l", "Liter (l)", 1000.0),
      Unit("floz", "Fluid Ounce (fl oz)", 29.5735),
      Unit("cup", "Cup", 236.588),
      Unit("pt", "Pint (pt)", 473.176),
      Unit("qt", "Quart (qt)", 946.353),
      Unit("gal", "Gallon (gal)", 3785.41)])
  ]

  predicate WellFormed(c: Category) {
    |c.units| >= 2 && forall i :: 0 <= i < |c.units| ==> c.units[i].factor > 0.0
  }

  /** Every category has a second unit for the initial "to" unit, and no factor is 0. */
  lemma CategoriesWellFormed()
    ensures forall i :: 0 <= i < |Categories| ==> WellFormed(Categories[i])
    ensures Categories[2].name == "Temperature"
    ensures Categories[2].units[0].id == "c" && Categories[2].units[1].id == "f"
      && Categories[2].units[2].id == "k"
  {
    assert WellFormed(Categories[0]);
    assert WellFormed(Categories[1]);
    assert WellFormed(Categories[2]);
    assert WellFormed(Categories[3]);
  }

  /** `units.find(u => u.id === id)`. */
  function FindUnit(units: seq<Unit>, id: string): (r: Option<Unit>)
    ensures r.Some? ==> r.value in units && r.value.id == id
    ensures r.None? <==> forall i :: 0 <= i < |units| ==> units[i].id != id
  {
    if units == [] then None
    else if units[0].id == id then Some(units[0])
    else FindUnit(units[1..], id)
  }

  /** `conversionCategories.find(c => c.name === name)`. */
  function FindCategory(name: string): (r: Option<Category>)
    ensures r.Some? ==> r.value in Categories && r.value.name == name
    ensures r.None? <==> forall c :: c in Categories ==> c.name != name
  {
    FindCategoryIn(Categories, name)
  }

  function FindCategoryIn(cs: seq<Category>, name: string): (r: Option<Category>)
    ensures r.Some? ==> r.value in cs && r.value.name == name
    ensures r.None? <==> forall i :: 0 <= i < |cs| ==> cs[i].name != name
  {
    if cs == [] then None
    else if cs[0].name == name then Some(cs[0])
    else FindCategoryIn(cs[1..], name)
  }

  /** The temperature branch of convert, as the chain of id tests runs. */
  function Temperature(from: string, to: string, v: Num): Num {
    if from == "c" && to == "f" then Add(Div(Mul(v, Finite(9.0)), Finite(5.0)), Finite(32.0))
    else if from == "c" && to == "k" then Add(v, Finite(273.15))
    else if from == "f" && to == "c" then Div(Mul(Sub(v, Finite(32.0)), Finite(5.0)), Finite(9.0))
    else if from == "f" && to == "k" then
      Add(Div(Mul(Sub(v, Finite(32.0)), Finite(5.0)), Finite(9.0)), Finite(273.15))
    else if from == "k" && to == "c" then Sub(v, Finite(273.15))
    else if from == "k" && to == "f" then
      Add(Div(Mul(Sub(v, Finite(273.15)), Finite(9.0)), Finite(5.0)), Finite(32.0))
    else v
  }

  /** The factor branch: through the base unit. */
  function Linear(from: Unit, to: Unit, v: Num): Num {
    Div(Mul(v, Finite(from.factor)), Finite(to.factor))
  }

  /** The text convert writes into toValue. */
  function Conversion(fmt: Format, category: string, value: string, from: Unit, to: Unit): string {
    var v := fmt.parseFloat(value);
    if value == "" || v.NaN? then ""
    else if category == "Temperature" then TrimTrailingZeros(ToFixed(fmt, Temperature(from.id, to.id, v), 4))
    else TrimTrailingZeros(ToFixed(fmt, Linear(from, to, v), 6))
  }

  /** Empty and non-numeric input clear the output; otherwise temperatures are written with
      four decimals and the other categories with six, trailing zeros trimmed. */
  lemma ConversionCases(fmt: Format, category: string, value: string, from: Unit, to: Unit)
    ensures value == "" || fmt.parseFloat(value).NaN? ==> Conversion(fmt, category, value, from, to) == ""
    ensures value != "" && !fmt.parseFloat(value).NaN? && category == "Temperature" ==>
      Conversion(fmt, category, value, from, to)
        == TrimTrailingZeros(ToFixed(fmt, Temperature(from.id, to.id, fmt.parseFloat(value)), 4))
    ensures value != "" && !fmt.parseFloat(value).NaN? && category != "Temperature" ==>
      Conversion(fmt, category, value, from, to)
        == TrimTrailingZeros(ToFixed(fmt, Linear(from, to, fmt.parseFloat(value)), 6))
  {
  }

  /** A unit converted to itself is the identity. */
  lemma LinearIdentity(u: Unit, x: real)
    requires u.factor > 0.0
    ensures Linear(u, u, Finite(x)) == Finite(x)
  {
  }

  /** Converting there and back returns the value. */
  lemma LinearRoundTrip(a: Unit, b: Unit, x: real)
    requires a.factor > 0.0 && b.factor > 0.0
    ensures Linear(b, a, Linear(a, b, Finite(x))) == Finite(x)
  {
    var y := x * a.factor / b.factor;
    assert y * b.factor == x * a.factor;
    assert y * b.factor / a.factor == x;
  }

  /** Conversions compose: A to B then B to C is A to C. */
  lemma LinearCompose(a: Unit, b: Unit, c: Unit, x: real)
    requires a.factor > 0.0 && b.factor > 0.0 && c.factor > 0.0
    ensures Linear(b, c, Linear(a, b, Finite(x))) == Linear(a, c, Finite(x))
  {
    var y := x * a.factor / b.factor;
    assert y * b.factor == x * a.factor;
  }

  /** On a finite reading the six formulas are exact real arithmetic. */
  lemma TemperatureFormulas(x: real)
    ensures Temperature("c", "f", Finite(x)) == Finite(x * 9.0 / 5.0 + 32.0)
    ensures Temperature("c", "k", Finite(x)) == Finite(x + 273.15)
    ensures Temperature("f", "c", Finite(x)) == Finite((x - 32.0) * 5.0 / 9.0)
    ensures Temperature("f", "k", Finite(x)) == Finite((x - 32.0) * 5.0 / 9.0 + 273.15)
    ensures Temperature("k", "c", Finite(x)) == Finite(x - 273.15)
    ensures Temperature("k", "f", Finite(x)) == Finite((x - 273.15) * 9.0 / 5.0 + 32.0)
  {
  }

  /** The temperature formulas come in inverse pairs, and the same unit is the identity. */
  lemma TemperatureRoundTrip(p: string, q: string, x: real)
    requires p in {"c", "f", "k"} && q in {"c", "f", "k"}
    ensures Temperature(q, p, Temperature(p, q, Finite(x))) == Finite(x)
    ensures Temperature(p, p, Finite(x)) == Finite(x)
  {
  }

  /** 0 °C is 32 °F, 32 °F is 0 °C, and 0 K is -273.15 °C. */
  lemma FreezingPoint()
    ensures Temperature("c", "f", Finite(0.0)) == Finite(32.0)
    ensures Temperature("f", "c", Finite(32.0)) == Finite(0.0)
    ensures Temperature("k", "c", Finite(0.0)) == Finite(-273.15)
  {
    CelsiusFreezing();
    FahrenheitFreezing();
    AbsoluteZero();
  }

  lemma CelsiusFreezing()
    ensures Temperature("c", "f", Finite(0.0)) == Finite(32.0)
  {
    assert Mul(Finite(0.0), Finite(9.0)) == Finite(0.0);
    assert Div(Finite(0.0), Finite(5.0)) == Finite(0.0);
    assert Add(Finite(0.0), Finite(32.0)) == Finite(32.0);
  }

  lemma FahrenheitFreezing()
    ensures Temperature("f", "c", Finite(32.0)) == Finite(0.0)
  {
    TemperatureFormulas(32.0);
  }

  lemma AbsoluteZero()
    ensures Temperature("k", "c", Finite(0.0)) == Finite(-273.15)
  {
    assert Temperature("k", "c", Finite(0.0)) == Finite(0.0 - 273.15);
  }

  /** Kelvin to Fahrenheit is Celsius to Fahrenheit after Kelvin to Celsius; Fahrenheit to
      Kelvin is Celsius to Kelvin after Fahrenheit to Celsius. */
  lemma TemperatureCompose(x: real)
    ensures Temperature("k", "f", Finite(x)) == Temperature("c", "f", Temperature("k", "c", Finite(x)))
    ensures Temperature("f", "k", Finite(x)) == Temperature("c", "k", Temperature("f", "c", Finite(x)))
  {
  }

  /** The component. */
  class Converter {
    const fmt: Format
    var category: Category
    var fromUnit: Unit
    var toUnit: Unit
    var fromValue: string
    var toValue: string

    /** The selected units belong to the selected category, and the output is the conversion
        of the input. */
    ghost predicate Valid()
      reads this
    {
      && category in Categories
      && fromUnit in category.units && toUnit in category.units
      && toValue == Conversion(fmt, category.name, fromValue, fromUnit, toUnit)
    }

    /** Mount, with the category effect run once. */
    constructor (fmt: Format)
      ensures this.fmt == fmt && Valid()
      ensures category == Categories[0] && fromUnit == category.units[0] && toUnit == category.units[1]
      ensures fromValue == "1"
    {
      CategoriesWellFormed();
      this.fmt := fmt;
      category := Categories[0];
      fromUnit := Categories[0].units[0];
      toUnit := Categories[0].units[1];
      fromValue := "1";
      toValue := Conversion(fmt, Categories[0].name, "1", Categories[0].units[0], Categories[0].units[1]);
    }

    /** convert: sets toValue only. */
    method Convert(value: string, from: Unit, to: Unit)
      modifies this
      ensures toValue == Conversion(fmt, category.name, value, from, to)
      ensures category == old(category) && fromUnit == old(fromUnit) && toUnit == old(toUnit)
      ensures fromValue == old(fromValue)
    {
      var v := fmt.parseFloat(value);
      if value == "" || v.NaN? {
        toValue := "";
        return;
      }
      if category.name == "Temperature" {
        var result := Temperature(from.id, to.id, v);
        toValue := TrimTrailingZeros(ToFixed(fmt, result, 4));
      } else {
        var baseValue := Mul(v, Finite(from.factor));
        var result := Div(baseValue, Finite(to.factor));
        toValue := TrimTrailingZeros(ToFixed(fmt, result, 6));
      }
    }

    method HandleFromValueChange(value: string)
      requires Valid()
      modifies this
      ensures Valid() && fromValue == value
      ensures category == old(category) && fromUnit == old(fromUnit) && toUnit == old(toUnit)
    {
      fromValue := value;
      Convert(value, fromUnit, toUnit);
    }

    /** The unit must be one of the category's: the source asserts the lookup succeeds. */
    method HandleFromUnitChange(unitId: string)
      requires Valid() && FindUnit(category.units, unitId).Some?
      modifies this
      ensures category == old(category) && toUnit == old(toUnit) && fromValue == old(fromValue)
      ensures Valid() && fromUnit == FindUnit(category.units, unitId).value
    {
      var unit := FindUnit(category.units, unitId).value;
      fromUnit := unit;
      Convert(fromValue, unit, toUnit);
    }

    method HandleToUnitChange(unitId: string)
      requires Valid() && FindUnit(category.units, unitId).Some?
      modifies this
      ensures category == old(category) && fromUnit == old(fromUnit) && fromValue == old(fromValue)
      ensures Valid() && toUnit == FindUnit(category.units, unitId).value
    {
      var unit := FindUnit(category.units, unitId).value;
      toUnit := unit;
      Convert(fromValue, fromUnit, unit);
    }

    /** Selecting a category, then the effect on [category]: the first two units and "1". */
    method HandleCategoryChange(categoryName: string)
      requires Valid() && FindCategory(categoryName).Some?
      modifies this
      ensures Valid() && category == FindCategory(categoryName).value
      ensures fromUnit == category.units[0] && toUnit == category.units[1] && fromValue == "1"
    {
      CategoriesWellFormed();
      var cat := FindCategory(categoryName).value;
      category := cat;
      fromUnit := cat.units[0];
      toUnit := cat.units[1];
      fromValue := "1";
      Convert("1", cat.units[0], cat.units[1]);
    }
  }
}
