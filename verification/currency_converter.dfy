/**
 * The currency converter: a hard-coded table of exchange rates for three base currencies,
 * the set-up pass that derives tables for the other currencies through the US dollar,
 * the rate chosen for a pair, and the component's conversion.
 *
 * A rate table maps a base currency to a map from target currency to rate. A JavaScript
 * lookup `table[a][b]` is truthy when the entry exists and is not 0.
 */
module CurrencyConverter {
  import opened Wrappers
  import opened JsNumbers

  type Rates = map<string, map<string, real>>

  /** The currency every derived rate goes through. */
  const Dollar: string := "USD"

  /** The codes of `currencies`, in order. */
  const Currencies: seq<string> := [
    "USD", "EUR", "GBP", "JPY", "CAD", "AUD", "CHF", "CNY",
    "INR", "MXN", "SGD", "NZD", "BRL", "KRW", "RUB"]

  /** mockExchangeRates as written: the dollar, euro and pound tables. */
  const MockRates: Rates := map["USD" := UsdRates, "EUR" := EurRates, "GBP" := GbpRates]

  const UsdRates: map<string, real> := map[
    "EUR" := 0.91, "GBP" := 0.78, "JPY" := 151.12, "CAD" := 1.35, "AUD" := 1.51,
    "CHF" := 0.89, "CNY" := 7.23, "INR" := 83.45, "MXN" := 16.82, "SGD" := 1.34,
    "NZD" := 1.63, "BRL" := 5.05, "KRW" := 1347.26, "RUB" := 92.30]

  const EurRates: map<string, real> := map[
    "USD" := 1.10, "GBP" := 0.85, "JPY" := 166.07, "CAD" := 1.48, "AUD" := 1.66,
    "CHF" := 0.97, "CNY" := 7.94, "INR" := 91.70, "MXN" := 18.48, "SGD" := 1.47,
    "NZD" := 1.79, "BRL" := 5.55, "KRW" := 1480.99, "RUB" := 101.53]

  const GbpRates: map<string, real> := map[
    "USD" := 1.29, "EUR" := 1.17, "JPY" := 194.57, "CAD" := 1.73, "AUD" := 1.94,
    "CHF" := 1.14, "CNY" := 9.30, "INR" := 107.41, "MXN" := 21.65, "SGD" := 1.73,
    "NZD" := 2.10, "BRL" := 6.50, "KRW" := 1735.52, "RUB" := 118.97]

  /** `m[k]` is truthy: the entry is present and not 0. */
  predicate Quoted(m: map<string, real>, k: string) {
    k in m && m[k] != 0.0
  }

  // ---- setupMockExchangeRates ----

  /** baseToUSD: 1 for the dollar, 1 / USD[base] when that is truthy, 1 otherwise. */
  function BaseToUSD(usd: map<string, real>, base: string): real {
    if base == Dollar then 1.0
    else if Quoted(usd, base) then 1.0 / usd[base]
    else 1.0
  }

  /** The cross rate the set-up derives: baseToUSD · usdToTarget. */
  function CrossRate(usd: map<string, real>, base: string, target: string): real
    requires target in usd
  {
    BaseToUSD(usd, base) * usd[target]
  }

  /** One pass of the inner loop, for `target`, on the table being filled for `base`. */
  function StepTarget(t: Rates, base: string, target: string): (r: Rates)
    requires base in t
    ensures r.Keys == t.Keys
  {
    if base == target then t[base := t[base][target := 1.0]]
    else if Dollar in t && Quoted(t[Dollar], target) then
      t[base := t[base][target := CrossRate(t[Dollar], base, target)]]
    else t
  }

  /** The inner loop over the first |targets| currencies. */
  function FillTargets(t: Rates, base: string, targets: seq<string>): (r: Rates)
    requires base in t
    ensures r.Keys == t.Keys
  {
    if targets == [] then t
    else StepTarget(FillTargets(t, base, targets[..|targets| - 1]), base, targets[|targets| - 1])
  }

  /** One pass of the outer loop: a base without a table gets one, filled over all currencies. */
  function StepBase(t: Rates, base: string): Rates {
    if base in t then t else FillTargets(t[base := map[]], base, Currencies)
  }

  /** The outer loop over the first |bases| currencies. */
  function SetupRates(t: Rates, bases: seq<string>): Rates {
    if bases == [] then t else StepBase(SetupRates(t, bases[..|bases| - 1]), bases[|bases| - 1])
  }

  /** The table set-up derives for a base currency from the dollar table: 1 to itself, and
      baseToUSD · USD[k] to every other listed currency k the dollar table quotes. */
  ghost predicate DerivedTable(usd: map<string, real>, base: string, m: map<string, real>, targets: seq<string>) {
    && (forall k :: k in m <==> k in targets && (k == base || Quoted(usd, k)))
    && (forall k :: k in m ==> m[k] == if k == base then 1.0 else CrossRate(usd, base, k))
  }

  /** The inner loop only writes the table of `base`, and writes exactly the derived entries. */
  lemma {:induction false} FillTargetsSpec(t: Rates, base: string, targets: seq<string>)
    requires base in t && Dollar in t && base != Dollar && t[base] == map[]
    ensures var r := FillTargets(t, base, targets);
      && (forall c :: c in t && c != base ==> r[c] == t[c])
      && DerivedTable(t[Dollar], base, r[base], targets)
  {
    if targets != [] {
      var n := |targets| - 1;
      FillTargetsSpec(t, base, targets[..n]);
      var prev := FillTargets(t, base, targets[..n]);
      var r := FillTargets(t, base, targets);
      assert r == StepTarget(prev, base, targets[n]);
      assert prev[Dollar] == t[Dollar];
      assert targets == targets[..n] + [targets[n]];
      StepDerives(t[Dollar], base, prev[base], targets[..n], targets[n], r[base]);
    }
  }

  /** One pass of the inner loop extends a derived table to one more target. */
  lemma StepDerives(usd: map<string, real>, base: string, m: map<string, real>, targets: seq<string>,
                    target: string, next: map<string, real>)
    requires DerivedTable(usd, base, m, targets)
    requires next == if base == target then m[target := 1.0]
      else if Quoted(usd, target) then m[target := CrossRate(usd, base, target)]
      else m
    ensures DerivedTable(usd, base, next, targets + [target])
  {
    forall k ensures k in targets + [target] <==> k in targets || k == target {
    }
  }

  /** Set-up leaves every existing table alone and gives each listed currency that had no
      table the derived one. */
  lemma {:induction false} SetupRatesSpec(t: Rates, bases: seq<string>)
    requires Dollar in t
    ensures var r := SetupRates(t, bases);
      && (forall c :: c in t ==> c in r && r[c] == t[c])
      && (forall b :: b in r <==> b in t || b in bases)
      && (forall b :: b in bases && b !in t ==> DerivedTable(t[Dollar], b, r[b], Currencies))
  {
    if bases != [] {
      var n := |bases| - 1;
      var b := bases[n];
      SetupRatesSpec(t, bases[..n]);
      var prev := SetupRates(t, bases[..n]);
      assert forall x :: x in bases <==> x in bases[..n] || x == b by {
        assert bases == bases[..n] + [b];
      }
      if b !in prev {
        assert b != Dollar;
        FillTargetsSpec(prev[b := map[]], b, Currencies);
      }
    }
  }

  /** The set-up pass run at mount on the hard-coded table. */
  function MountRates(): Rates {
    SetupRates(MockRates, Currencies)
  }

  /** At mount the dollar, euro and pound tables stay as written. */
  lemma MountKeepsWrittenTables()
    ensures forall c :: c in MockRates ==> c in MountRates() && MountRates()[c] == MockRates[c]
  {
    SetupRatesSpec(MockRates, Currencies);
  }

  /** After mount exactly the listed currencies have a table. */
  lemma MountTables()
    ensures forall b :: b in MountRates() <==> b in Currencies
  {
    SetupRatesSpec(MockRates, Currencies);
    assert MockRates.Keys == {"USD", "EUR", "GBP"};
  }

  /** Every other listed currency gets the table derived from the dollar table. */
  lemma MountDerivesTables()
    ensures forall b :: b in Currencies && b !in MockRates ==>
      b in MountRates() && DerivedTable(MockRates[Dollar], b, MountRates()[b], Currencies)
  {
    SetupRatesSpec(MockRates, Currencies);
    assert MockRates.Keys == {"USD", "EUR", "GBP"};
  }

  /** A derived table has no dollar entry, because the dollar table has none for itself. */
  lemma DerivedTablesMissDollar()
    ensures forall b :: b in Currencies && b !in MockRates ==> b in MountRates() && Dollar !in MountRates()[b]
  {
    MountDerivesTables();
    assert Dollar !in MockRates[Dollar];
  }

  // ---- Rate choice and conversion ----

  /** The rate calculateConversion picks: same currency, direct entry, inverse entry, 1. */
  function SelectRate(t: Rates, from: string, to: string): real {
    if from == to then 1.0
    else if from in t && Quoted(t[from], to) then t[from][to]
    else if to in t && Quoted(t[to], from) then 1.0 / t[to][from]
    else 1.0
  }

  /** The rate's preference order, in both directions of each case. */
  lemma SelectRateCases(t: Rates, from: string, to: string)
    ensures from == to ==> SelectRate(t, from, to) == 1.0
    ensures from != to && from in t && Quoted(t[from], to) ==> SelectRate(t, from, to) == t[from][to]
    ensures from != to && !(from in t && Quoted(t[from], to)) && to in t && Quoted(t[to], from) ==>
      SelectRate(t, from, to) == 1.0 / t[to][from]
    ensures from != to && !(from in t && Quoted(t[from], to)) && !(to in t && Quoted(t[to], from)) ==>
      SelectRate(t, from, to) == 1.0
    ensures SelectRate(t, from, to) != 0.0
  {
  }

  /** The direct and the reverse quote are independent: dollar to euro is 0.91, euro to
      dollar 1.10, and 0.91 · 1.10 is not 1. */
  lemma NoInverseLaw()
    ensures SelectRate(MockRates, "USD", "EUR") == 0.91
    ensures SelectRate(MockRates, "EUR", "USD") == 1.10
    ensures SelectRate(MockRates, "USD", "EUR") * SelectRate(MockRates, "EUR", "USD") != 1.0
  {
  }

  /** A listed pair the hard-coded table does not quote in either direction is converted
      through the dollar once the set-up pass has run. */
  lemma CrossRateSelected(t: Rates, usd: map<string, real>, from: string, to: string, targets: seq<string>)
    requires from in t && DerivedTable(usd, from, t[from], targets)
    requires from != to && from != Dollar && to in targets && Quoted(usd, to) && Quoted(usd, from)
    ensures SelectRate(t, from, to) == (1.0 / usd[from]) * usd[to]
  {
    assert to in t[from];
    assert t[from][to] == CrossRate(usd, from, to);
    assert BaseToUSD(usd, from) == 1.0 / usd[from];
    ProductNonZero(1.0 / usd[from], usd[to]);
    assert Quoted(t[from], to);
  }

  lemma ProductNonZero(x: real, y: real)
    requires x != 0.0 && y != 0.0
    ensures x * y != 0.0
  {
  }

  lemma MountedCrossRate()
    ensures SelectRate(MountRates(), "JPY", "INR") == (1.0 / 151.12) * 83.45
  {
    YenTableDerived();
    assert UsdRates["JPY"] == 151.12 && UsdRates["INR"] == 83.45;
    assert "INR" in Currencies by { assert Currencies[8] == "INR"; }
    CrossRateSelected(MountRates(), UsdRates, "JPY", "INR", Currencies);
  }

  /** At mount the yen gets the table derived from the dollar table. */
  lemma YenTableDerived()
    ensures "JPY" in MountRates() && DerivedTable(UsdRates, "JPY", MountRates()["JPY"], Currencies)
  {
    MountDerivesTables();
    assert "JPY" in Currencies by { assert Currencies[3] == "JPY"; }
    assert "JPY" !in MockRates;
  }

  /** What calculateConversion shows: convertedAmount and exchangeRate. */
  datatype Shown = Shown(convertedAmount: string, exchangeRate: Option<real>)

  function Conversion(fmt: Format, t: Rates, amount: string, from: string, to: string): Shown {
    var inputAmount := fmt.parseFloat(amount);
    if inputAmount.NaN? then Shown("Invalid amount", None)
    else
      var rate := SelectRate(t, from, to);
      Shown(ToFixed(fmt, Mul(inputAmount, Finite(rate)), 2), Some(rate))
  }

  /** A non-numeric amount shows "Invalid amount" and no rate; a number shows the rate, which
      is 1 for a currency to itself. */
  lemma ConversionCases(fmt: Format, t: Rates, amount: string, from: string, to: string)
    ensures fmt.parseFloat(amount).NaN? <==> Conversion(fmt, t, amount, from, to).exchangeRate.None?
    ensures fmt.parseFloat(amount).NaN? ==> Conversion(fmt, t, amount, from, to).convertedAmount == "Invalid amount"
    ensures !fmt.parseFloat(amount).NaN? ==>
      Conversion(fmt, t, amount, from, to).exchangeRate == Some(SelectRate(t, from, to))
    ensures Conversion(fmt, t, amount, from, from).exchangeRate.Some? ==>
      Conversion(fmt, t, amount, from, from).exchangeRate == Some(1.0)
  {
  }

  /** A finite amount is converted to amount · rate, written with two decimals. */
  lemma ConversionOfNumber(fmt: Format, t: Rates, amount: string, from: string, to: string)
    requires fmt.parseFloat(amount).Finite?
    ensures Conversion(fmt, t, amount, from, to).convertedAmount
      == fmt.toFixed(fmt.parseFloat(amount).value * SelectRate(t, from, to), 2)
  {
    assert Mul(fmt.parseFloat(amount), Finite(SelectRate(t, from, to)))
      == Finite(fmt.parseFloat(amount).value * SelectRate(t, from, to));
  }

  // ---- The component ----

  /** amount, fromCurrency, toCurrency, convertedAmount and exchangeRate. */
  datatype Screen = Screen(
    amount: string, fromCurrency: string, toCurrency: string,
    convertedAmount: string, exchangeRate: Option<real>)

  function Recalculated(fmt: Format, t: Rates, s: Screen): Screen {
    var shown := Conversion(fmt, t, s.amount, s.fromCurrency, s.toCurrency);
    s.(convertedAmount := shown.convertedAmount, exchangeRate := shown.exchangeRate)
  }

  /** swapCurrencies with the conversion recomputed for the swapped pair. */
  function Swap(fmt: Format, t: Rates, s: Screen): Screen {
    Recalculated(fmt, t, s.(fromCurrency := s.toCurrency, toCurrency := s.fromCurrency))
  }

  /** Swapping twice restores the pair and shows the conversion of the original pair. */
  lemma SwapTwice(fmt: Format, t: Rates, s: Screen)
    ensures var u := Swap(fmt, t, Swap(fmt, t, s));
      && u.fromCurrency == s.fromCurrency && u.toCurrency == s.toCurrency && u.amount == s.amount
      && u == Recalculated(fmt, t, s)
  {
  }

  /** After a swap the rate shown is the rate of the new pair. */
  lemma SwapShowsNewPair(fmt: Format, t: Rates, s: Screen)
    requires !fmt.parseFloat(s.amount).NaN?
    ensures Swap(fmt, t, s).exchangeRate == Some(SelectRate(t, s.toCurrency, s.fromCurrency))
  {
  }

  // ---- The component as written ----

  /** The table a render after mount reads: `mockExchangeRates` is rebuilt on every render and
      only the mount render's copy is filled in, so later conversions read the bare table. */
  function RenderedRatesAsWritten(render: nat): Rates {
    if render == 0 then MountRates() else MockRates
  }

  /** Pressing Convert after mount on a pair the bare table does not quote shows rate 1. */
  lemma ConvertAfterMountAsWritten()
    ensures SelectRate(RenderedRatesAsWritten(1), "JPY", "INR") == 1.0
    ensures SelectRate(MountRates(), "JPY", "INR") != 1.0
  {
    MountedCrossRate();
  }

  /** swapCurrencies as written: the scheduled calculateConversion is the one of the render
      the click happened in, so it converts the pre-swap pair with that render's bare table. */
  function SwapAsWritten(fmt: Format, s: Screen): Screen {
    var shown := Conversion(fmt, MockRates, s.amount, s.fromCurrency, s.toCurrency);
    s.(fromCurrency := s.toCurrency, toCurrency := s.fromCurrency,
       convertedAmount := shown.convertedAmount, exchangeRate := shown.exchangeRate)
  }

  /** From dollars to euros, a swap shows euros to dollars while the rate is still 0.91, the
      dollar-to-euro rate, instead of 1.10. */
  lemma SwapShowsOldPairAsWritten(fmt: Format, s: Screen)
    requires s.fromCurrency == "USD" && s.toCurrency == "EUR" && fmt.parseFloat(s.amount).Finite?
    ensures var u := SwapAsWritten(fmt, s);
      u.fromCurrency == "EUR" && u.toCurrency == "USD" && u.exchangeRate == Some(0.91)
    ensures Swap(fmt, MountRates(), s).exchangeRate == Some(1.10)
  {
    NoInverseLaw();
    ConversionCases(fmt, MockRates, s.amount, "USD", "EUR");
    MountedEuroToDollar();
    SwapShowsNewPair(fmt, MountRates(), s);
  }

  /** After mount the euro-to-dollar rate is still the written 1.10. */
  lemma MountedEuroToDollar()
    ensures SelectRate(MountRates(), "EUR", "USD") == 1.10
  {
    MountKeepsWrittenTables();
    assert MountRates()["EUR"] == EurRates;
    assert EurRates["USD"] == 1.10;
  }

  /** The component, with one persistent rate table filled at mount. */
  class Converter {
    const fmt: Format
    var amount: string
    var fromCurrency: string
    var toCurrency: string
    var convertedAmount: string
    var exchangeRate: Option<real>
    var rates: Rates

    function State(): Screen
      reads this
    {
      Screen(amount, fromCurrency, toCurrency, convertedAmount, exchangeRate)
    }

    /** Mount: the initial fields, then the mount effect (set-up, then a conversion). */
    constructor (fmt: Format)
      ensures this.fmt == fmt && rates == MountRates()
      ensures State() == Recalculated(fmt, MountRates(), Screen("100", "USD", "EUR", "", None))
    {
      this.fmt := fmt;
      amount := "100";
      fromCurrency := "USD";
      toCurrency := "EUR";
      convertedAmount := "";
      exchangeRate := None;
      rates := MockRates;
      new;
      SetupMockExchangeRates();
      CalculateConversion();
    }

    /** setupMockExchangeRates: the outer forEach over the currency list. */
    method SetupMockExchangeRates()
      modifies this
      ensures rates == SetupRates(old(rates), Currencies)
      ensures State() == old(State())
    {
      SetupTables(Currencies);
    }

    /** The outer forEach over the currencies `bases`: each base without a table gets one,
        filled over the whole currency list. */
    method SetupTables(bases: seq<string>)
      modifies this
      ensures rates == SetupRates(old(rates), bases)
      ensures State() == old(State())
    {
      ghost var start := rates;
      var i := 0;
      while i < |bases|
        invariant 0 <= i <= |bases|
        invariant rates == SetupRates(start, bases[..i])
        invariant State() == old(State())
      {
        var base := bases[i];
        assert bases[..i + 1][..i] == bases[..i];
        if base !in rates {
          rates := rates[base := map[]];
          FillTable(base, Currencies);
        }
        i := i + 1;
      }
      assert bases[..i] == bases;
    }

    /** The inner forEach: fills the table of `base` over the currencies `targets`. */
    method FillTable(base: string, targets: seq<string>)
      requires base in rates
      modifies this
      ensures rates == FillTargets(old(rates), base, targets)
      ensures State() == old(State())
    {
      ghost var start := rates;
      var j := 0;
      while j < |targets|
        invariant 0 <= j <= |targets|
        invariant base in rates
        invariant rates == FillTargets(start, base, targets[..j])
        invariant State() == old(State())
      {
        var target := targets[j];
        assert targets[..j + 1][..j] == targets[..j] && targets[..j + 1][j] == target;
        ghost var next := StepTarget(rates, base, target);
        assert next == FillTargets(start, base, targets[..j + 1]);
        if base == target {
          rates := rates[base := rates[base][target := 1.0]];
        } else if Dollar in rates && Quoted(rates[Dollar], target) {
          rates := rates[base := rates[base][target := CrossRate(rates[Dollar], base, target)]];
        }
        j := j + 1;
      }
      assert targets[..j] == targets;
    }

    /** calculateConversion, against the persistent table. */
    method CalculateConversion()
      modifies this
      ensures State() == Recalculated(fmt, old(rates), old(State())) && rates == old(rates)
    {
      var inputAmount := fmt.parseFloat(amount);
      if inputAmount.NaN? {
        convertedAmount := "Invalid amount";
        exchangeRate := None;
        return;
      }
      var rate := 1.0;
      if fromCurrency == toCurrency {
        rate := 1.0;
      } else if fromCurrency in rates && Quoted(rates[fromCurrency], toCurrency) {
        rate := rates[fromCurrency][toCurrency];
      } else if toCurrency in rates && Quoted(rates[toCurrency], fromCurrency) {
        rate := 1.0 / rates[toCurrency][fromCurrency];
      }
      exchangeRate := Some(rate);
      var result := Mul(inputAmount, Finite(rate));
      convertedAmount := ToFixed(fmt, result, 2);
    }

    method SetAmount(text: string)
      modifies this
      ensures State() == old(State()).(amount := text) && rates == old(rates)
    {
      amount := text;
    }

    method SetFromCurrency(code: string)
      modifies this
      ensures State() == old(State()).(fromCurrency := code) && rates == old(rates)
    {
      fromCurrency := code;
    }

    method SetToCurrency(code: string)
      modifies this
      ensures State() == old(State()).(toCurrency := code) && rates == old(rates)
    {
      toCurrency := code;
    }

    /** swapCurrencies, recomputing for the swapped pair. */
    method SwapCurrencies()
      modifies this
      ensures State() == Swap(fmt, old(rates), old(State())) && rates == old(rates)
    {
      var from := fromCurrency;
      fromCurrency := toCurrency;
      toCurrency := from;
      CalculateConversion();
    }
  }
}
