/**
 * The scientific calculator: the accumulator with `^` as a fifth binary operator, the
 * '.' key routed through digit entry, and eight unary function keys.
 */
module ScientificCalculator {
  import opened Wrappers
  import opened JsNumbers
  import opened Accumulator

  /** calculate(a, b, op) with `^` as Math.pow, and b for anything else. */
  function Calculate(math: MathLib, a: Num, b: Num, op: string): Num {
    match op
    case "+" => Add(a, b)
    case "-" => Sub(a, b)
    case "×" => Mul(a, b)
    case "÷" => Div(a, b)
    case "^" => math.pow(a, b)
    case _ => b
  }

  function ScientificEngine(fmt: Format, math: MathLib): Engine {
    Engine(fmt, (a, b, op) => Calculate(math, a, b, op))
  }

  /** `^` is Math.pow of the pending value and the display; any unknown operator gives b. */
  lemma CalculateMeaning(math: MathLib, a: Num, b: Num, op: string)
    ensures Calculate(math, a, b, "^") == math.pow(a, b)
    ensures a.Finite? && b.Finite? ==> Calculate(math, a, b, "×") == Finite(a.value * b.value)
    ensures op !in {"+", "-", "×", "÷", "^"} ==> Calculate(math, a, b, op) == b
  {
  }

  /** The names of the unary keys. */
  const UnaryNames: set<string> := {"sin", "cos", "tan", "log", "ln", "sqrt", "1/x", "x^2"}

  /** The value of unary key `name` at x, or None for a name the switch does not know. */
  function UnaryValue(math: MathLib, name: string, x: Num): (r: Option<Num>)
    ensures r.Some? <==> name in UnaryNames
  {
    match name
    case "sin" => Some(math.sin(x))
    case "cos" => Some(math.cos(x))
    case "tan" => Some(math.tan(x))
    case "log" => Some(math.log10(x))
    case "ln" => Some(math.ln(x))
    case "sqrt" => Some(math.sqrt(x))
    case "1/x" => Some(Div(Finite(1.0), x))
    case "x^2" => Some(math.pow(x, Finite(2.0)))
    case _ => None
  }

  /** handleScientificOperation. */
  function ScientificOperation(fmt: Format, math: MathLib, s: State, name: string): State {
    match UnaryValue(math, name, fmt.parseFloat(s.display))
    case Some(result) => s.(display := Show(fmt, result), resetDisplay := true)
    case None => s
  }

  /** A known unary key shows String(f(display)) and marks the display for replacement, with no
      domain check and without touching the pending operation; an unknown one changes nothing. */
  lemma ScientificOperationEffect(fmt: Format, math: MathLib, s: State, name: string)
    ensures name !in UnaryNames ==> ScientificOperation(fmt, math, s, name) == s
    ensures name in UnaryNames ==> var t := ScientificOperation(fmt, math, s, name);
      && t.display == Show(fmt, UnaryValue(math, name, fmt.parseFloat(s.display)).value)
      && t.resetDisplay
      && t.previousValue == s.previousValue && t.operation == s.operation
  {
  }

  /** 1/x is exact on a non-zero display and not finite at 0; x^2 is pow(x, 2); log is log10. */
  lemma UnaryMeaning(math: MathLib, x: real)
    ensures x != 0.0 ==> UnaryValue(math, "1/x", Finite(x)) == Some(Finite(1.0 / x))
    ensures !UnaryValue(math, "1/x", Finite(0.0)).value.Finite?
    ensures UnaryValue(math, "x^2", Finite(x)) == Some(math.pow(Finite(x), Finite(2.0)))
    ensures UnaryValue(math, "log", Finite(x)) == Some(math.log10(Finite(x)))
    ensures UnaryValue(math, "ln", Finite(x)) == Some(math.ln(Finite(x)))
  {
  }

  /** The '.' key is a digit key: on "0" it shows "." and it appends a second '.' freely. */
  lemma PointIsADigit(s: State)
    ensures s.display == "0" ==> NumberClick(s, ".").display == "."
    ensures s.display == "1.2" && !s.resetDisplay ==> NumberClick(s, ".").display == "1.2."
  {
  }

  datatype ScientificKey = Common(key: Key) | Unary(name: string)

  function ScientificStep(fmt: Format, math: MathLib, s: State, k: ScientificKey): State {
    match k
    case Common(c) => Step(ScientificEngine(fmt, math), s, c)
    case Unary(name) => ScientificOperation(fmt, math, s, name)
  }

  function ScientificRun(fmt: Format, math: MathLib, s: State, keys: seq<ScientificKey>): State
    decreases |keys|
  {
    if keys == [] then s else ScientificRun(fmt, math, ScientificStep(fmt, math, s, keys[0]), keys[1..])
  }

  lemma {:induction false} KeysKeepPendingTogether(fmt: Format, math: MathLib, s: State, keys: seq<ScientificKey>)
    requires PendingTogether(s)
    ensures PendingTogether(ScientificRun(fmt, math, s, keys))
    decreases |keys|
  {
    if keys != [] {
      match keys[0] {
        case Common(c) => StepKeepsPendingTogether(ScientificEngine(fmt, math), s, c);
        case Unary(_) =>
      }
      KeysKeepPendingTogether(fmt, math, ScientificStep(fmt, math, s, keys[0]), keys[1..]);
    }
  }

  /** In every state reachable from mount, previousValue is null exactly when operation is. */
  lemma {:induction false} ReachableStatesKeepPendingTogether(fmt: Format, math: MathLib, keys: seq<ScientificKey>)
    ensures PendingTogether(ScientificRun(fmt, math, Initial, keys))
  {
    KeysKeepPendingTogether(fmt, math, Initial, keys);
  }

  /** "2" "^" "3" "=" shows String(Math.pow(2, 3)). */
  lemma TwoToTheThird(fmt: Format, math: MathLib)
    requires fmt.parseFloat("2") == Finite(2.0) && fmt.parseFloat("3") == Finite(3.0)
    ensures Run(ScientificEngine(fmt, math), Initial, [Digit("2"), Operator("^"), Digit("3"), Equals]).display
            == Show(fmt, math.pow(Finite(2.0), Finite(3.0)))
  {
    var e := ScientificEngine(fmt, math);
    var rest := [("^", ["3"])];
    assert Concat(["2"]) == "2";
    assert Concat(["3"]) == "3";
    assert WellTypedChain(["2"], rest);
    LeftToRight(e, ["2"], rest);
    assert ChainKeys(rest) == ChainKeys([]) + [Operator("^")] + TypeKeys(["3"]);
    assert TypeKeys(["2"]) + ChainKeys(rest) + [Equals] == [Digit("2"), Operator("^"), Digit("3"), Equals];
    assert Fold(e, Finite(2.0), rest) == Calculate(math, Fold(e, Finite(2.0), []), Finite(3.0), "^");
  }

  /** The component: four state fields updated by the button handlers. */
  class Calculator {
    const fmt: Format
    const math: MathLib
    var display: string
    var previousValue: Option<Num>
    var operation: Option<string>
    var resetDisplay: bool

    function State(): State
      reads this
    {
      Accumulator.State(display, previousValue, operation, resetDisplay)
    }

    ghost predicate Valid()
      reads this
    {
      PendingTogether(State())
    }

    constructor (fmt: Format, math: MathLib)
      ensures this.fmt == fmt && this.math == math && State() == Initial && Valid()
    {
      this.fmt := fmt;
      this.math := math;
      display := "0";
      previousValue := None;
      operation := None;
      resetDisplay := false;
    }

    method HandleNumberClick(num: string)
      requires Valid()
      modifies this
      ensures Valid() && State() == NumberClick(old(State()), num)
    {
      if display == "0" || resetDisplay {
        display := num;
        resetDisplay := false;
      } else {
        display := display + num;
      }
    }

    method HandleOperationClick(op: string)
      requires Valid()
      modifies this
      ensures Valid() && State() == OperationClick(ScientificEngine(fmt, math), old(State()), op)
    {
      var current := fmt.parseFloat(display);
      if previousValue.None? {
        previousValue := Some(current);
      } else if operation.Some? && operation.value != "" {
        var result := Calculate(math, previousValue.value, current, operation.value);
        previousValue := Some(result);
        display := Show(fmt, result);
      }
      operation := Some(op);
      resetDisplay := true;
    }

    method HandleEquals()
      requires Valid()
      modifies this
      ensures Valid() && State() == EqualsClick(ScientificEngine(fmt, math), old(State()))
    {
      if previousValue.Some? && operation.Some? && operation.value != "" {
        var current := fmt.parseFloat(display);
        var result := Calculate(math, previousValue.value, current, operation.value);
        display := Show(fmt, result);
        previousValue := None;
        operation := None;
        resetDisplay := true;
      }
    }

    method HandleClear()
      modifies this
      ensures Valid() && State() == Initial
    {
      display := "0";
      previousValue := None;
      operation := None;
      resetDisplay := false;
    }

    method HandleScientificOperation(name: string)
      requires Valid()
      modifies this
      ensures Valid() && State() == ScientificOperation(fmt, math, old(State()), name)
    {
      var current := fmt.parseFloat(display);
      var result: Num;
      match name {
        case "sin" => result := math.sin(current);
        case "cos" => result := math.cos(current);
        case "tan" => result := math.tan(current);
        case "log" => result := math.log10(current);
        case "ln" => result := math.ln(current);
        case "sqrt" => result := math.sqrt(current);
        case "1/x" => result := Div(Finite(1.0), current);
        case "x^2" => result := math.pow(current, Finite(2.0));
        case _ => return;
      }
      display := Show(fmt, result);
      resetDisplay := true;
    }
  }
}
