/**
 * The percentage calculator: three independent forms, each a guard on empty input text
 * followed by one expression whose value is written with two decimals and trimmed.
 */
module PercentageCalculator {
  import opened Wrappers
  import opened JsNumbers
  import opened TrimZeros

  const Hundred: Num := Finite(100.0)

  /** `x.toFixed(2).replace(/\.?0+$/, "")`. */
  function Written(fmt: Format, x: Num): string {
    TrimTrailingZeros(ToFixed(fmt, x, 2))
  }

  /** (percent / 100) · total. */
  function PercentOfValue(percent: Num, total: Num): Num {
    Mul(Div(percent, Hundred), total)
  }

  /** (part / whole) · 100. */
  function WhatPercentValue(part: Num, whole: Num): Num {
    Mul(Div(part, whole), Hundred)
  }

  /** value / (percent / 100). */
  function OfWhatValue(value: Num, percent: Num): Num {
    Div(value, Div(percent, Hundred))
  }

  /** One form: null when either text is empty, otherwise the written value of `f` applied to
      the two parsed texts. Only the empty text is refused; "0" and non-numbers pass. */
  function Form(fmt: Format, f: (Num, Num) -> Num, first: string, second: string): (r: Option<string>)
    ensures r.None? <==> first == "" || second == ""
  {
    if first == "" || second == "" then None
    else Some(Written(fmt, f(fmt.parseFloat(first), fmt.parseFloat(second))))
  }

  /** calculatePercentOf. */
  function PercentOf(fmt: Format, percentValue: string, ofValue: string): Option<string> {
    Form(fmt, PercentOfValue, percentValue, ofValue)
  }

  /** calculateWhatPercent. */
  function WhatPercent(fmt: Format, whatValue: string, ofWhatValue: string): Option<string> {
    Form(fmt, WhatPercentValue, whatValue, ofWhatValue)
  }

  /** calculateOfWhat. */
  function OfWhat(fmt: Format, isValue: string, percentOfValue: string): Option<string> {
    Form(fmt, OfWhatValue, isValue, percentOfValue)
  }

  /** Every form is null exactly when one of its texts is empty, and otherwise shows the
      written value of its expression on the parsed texts. */
  lemma Guards(fmt: Format, a: string, b: string)
    ensures PercentOf(fmt, a, b).None? <==> a == "" || b == ""
    ensures WhatPercent(fmt, a, b).None? <==> a == "" || b == ""
    ensures OfWhat(fmt, a, b).None? <==> a == "" || b == ""
    ensures a != "" && b != "" ==>
      PercentOf(fmt, a, b) == Some(Written(fmt, PercentOfValue(fmt.parseFloat(a), fmt.parseFloat(b))))
    ensures a != "" && b != "" ==>
      WhatPercent(fmt, a, b) == Some(Written(fmt, WhatPercentValue(fmt.parseFloat(a), fmt.parseFloat(b))))
    ensures a != "" && b != "" ==>
      OfWhat(fmt, a, b) == Some(Written(fmt, OfWhatValue(fmt.parseFloat(a), fmt.parseFloat(b))))
  {
  }

  /** The text "0" passes the guard: 0 % of anything is written, not refused. */
  lemma ZeroIsAccepted(fmt: Format, total: string)
    requires total != ""
    ensures PercentOf(fmt, "0", total).Some?
  {
  }

  /** On numbers p % of t is exact: (p / 100) · t. */
  lemma PercentOfNumbers(p: real, t: real)
    ensures PercentOfValue(Finite(p), Finite(t)) == Finite(p / 100.0 * t)
  {
    assert Div(Finite(p), Hundred) == Finite(p / 100.0);
  }

  /** On numbers the share is (part / whole) · 100; a whole of 0 gives a non-finite value
      instead of an error. */
  lemma WhatPercentNumbers(part: real, whole: real)
    ensures whole != 0.0 ==> WhatPercentValue(Finite(part), Finite(whole)) == Finite(part / whole * 100.0)
    ensures !WhatPercentValue(Finite(part), Finite(0.0)).Finite?
  {
    if whole != 0.0 {
      assert Div(Finite(part), Finite(whole)) == Finite(part / whole);
    }
    assert !Div(Finite(part), Finite(0.0)).Finite?;
  }

  /** On numbers the base is value / (p / 100); a percentage of 0 gives a non-finite value. */
  lemma OfWhatNumbers(v: real, p: real)
    ensures p != 0.0 ==> OfWhatValue(Finite(v), Finite(p)) == Finite(v / (p / 100.0))
    ensures !OfWhatValue(Finite(v), Finite(0.0)).Finite?
  {
    assert Div(Finite(p), Hundred) == Finite(p / 100.0);
    assert Div(Finite(0.0), Hundred) == Finite(0.0);
  }

  /** A value that does not parse gives NaN, which is written as "NaN". */
  lemma NotANumber(fmt: Format, a: string, b: string)
    requires a != "" && b != "" && fmt.parseFloat(a).NaN?
    ensures PercentOf(fmt, a, b) == Some("NaN")
    ensures WhatPercent(fmt, a, b) == Some("NaN")
    ensures OfWhat(fmt, a, b) == Some("NaN")
  {
  }

  /** "What is X of p %" inverts "p % of t": X = t whenever p is not 0. */
  lemma OfWhatInvertsPercentOf(p: real, t: real)
    requires p != 0.0
    ensures OfWhatValue(PercentOfValue(Finite(p), Finite(t)), Finite(p)) == Finite(t)
  {
    var q := p / 100.0;
    assert q != 0.0;
    assert PercentOfValue(Finite(p), Finite(t)) == Finite(q * t);
    assert Div(Finite(p), Hundred) == Finite(q);
    assert q * t / q == t;
  }

  /** "What percent is (p % of t) of t" gives back p whenever t is not 0. */
  lemma WhatPercentInvertsPercentOf(p: real, t: real)
    requires t != 0.0
    ensures WhatPercentValue(PercentOfValue(Finite(p), Finite(t)), Finite(t)) == Finite(p)
  {
    var q := p / 100.0;
    assert PercentOfValue(Finite(p), Finite(t)) == Finite(q * t);
    assert q * t / t == q;
    assert q * 100.0 == p;
  }
}
