/**
 * The standard calculator: + − × ÷ chained strictly left to right, decimal entry and
 * backspace on top of the shared accumulator.
 */
module StandardCalculator {
  import opened Wrappers
  import opened JsNumbers
  import opened Accumulator

  /** calculate(a, b, op): the four operators, and b for anything else. ÷ has no zero check. */
  function Calculate(a: Num, b: Num, op: string): Num {
    match op
    case "+" => Add(a, b)
    case "-" => Sub(a, b)
    case "×" => Mul(a, b)
    case "÷" => Div(a, b)
    case _ => b
  }

  function StandardEngine(fmt: Format): Engine {
    Engine(fmt, (a, b, op) => Calculate(a, b, op))
  }

  /** On finite operands calculate is exact real arithmetic; a ÷ 0 is not an error but a
      non-finite value; an unknown operator (such as "^" here) returns the right operand. */
  lemma CalculateMeaning(x: real, y: real, op: string)
    ensures Calculate(Finite(x), Finite(y), "+") == Finite(x + y)
    ensures Calculate(Finite(x), Finite(y), "-") == Finite(x - y)
    ensures Calculate(Finite(x), Finite(y), "×") == Finite(x * y)
    ensures y != 0.0 ==> Calculate(Finite(x), Finite(y), "÷") == Finite(x / y)
    ensures !Calculate(Finite(x), Finite(0.0), "÷").Finite?
    ensures op !in {"+", "-", "×", "÷"} ==> Calculate(Finite(x), Finite(y), op) == Finite(y)
  {
  }

  /** handleDecimal. */
  function Decimal(s: State): State {
    if s.resetDisplay then s.(display := "0.", resetDisplay := false)
    else if '.' !in s.display then s.(display := s.display + ".")
    else s
  }

  /** The backspace button: drop the last character, falling back to "0". */
  function Backspace(s: State): State {
    s.(display := if |s.display| <= 1 then "0" else s.display[..|s.display| - 1])
  }

  function Dots(t: string): nat {
    if t == [] then 0 else Dots(t[..|t| - 1]) + (if t[|t| - 1] == '.' then 1 else 0)
  }

  lemma {:induction false} DotsZero(t: string)
    ensures Dots(t) == 0 <==> '.' !in t
  {
    if t != [] {
      DotsZero(t[..|t| - 1]);
      assert t == t[..|t| - 1] + [t[|t| - 1]];
    }
  }

  /** Decimal entry always leaves exactly one '.' in a display that had at most one, starts
      from "0." after a result, and never touches the pending operation. */
  lemma DecimalEntry(s: State)
    requires Dots(s.display) <= 1
    ensures var t := Decimal(s);
      && Dots(t.display) == 1 && !t.resetDisplay
      && (s.resetDisplay ==> t.display == "0.")
      && (!s.resetDisplay && '.' in s.display ==> t == s)
      && t.previousValue == s.previousValue && t.operation == s.operation
  {
    DotsZero(s.display);
    var t := Decimal(s);
    if s.resetDisplay {
      assert "0."[..1] == "0";
      assert "0"[..0] == "";
    } else if '.' !in s.display {
      assert (s.display + ".")[..|s.display|] == s.display;
    }
  }

  /** Backspace removes exactly the last character, never leaves the display empty and
      keeps the pending state. */
  lemma BackspaceEffect(s: State)
    ensures var t := Backspace(s);
      && t.display != ""
      && (|s.display| >= 2 ==> t.display + [s.display[|s.display| - 1]] == s.display)
      && (|s.display| <= 1 ==> t.display == "0")
      && t.previousValue == s.previousValue && t.operation == s.operation
      && t.resetDisplay == s.resetDisplay
  {
  }

  datatype StandardKey = Common(key: Key) | DecimalPoint | BackspaceKey

  function StandardStep(fmt: Format, s: State, k: StandardKey): State {
    match k
    case Common(c) => Step(StandardEngine(fmt), s, c)
    case DecimalPoint => Decimal(s)
    case BackspaceKey => Backspace(s)
  }

  function StandardRun(fmt: Format, s: State, keys: seq<StandardKey>): State
    decreases |keys|
  {
    if keys == [] then s else StandardRun(fmt, StandardStep(fmt, s, keys[0]), keys[1..])
  }

  /** In every state reachable from mount, previousValue is null exactly when operation is. */
  lemma {:induction false} ReachableStatesKeepPendingTogether(fmt: Format, keys: seq<StandardKey>)
    ensures PendingTogether(StandardRun(fmt, Initial, keys))
  {
    KeysKeepPendingTogether(fmt, Initial, keys);
  }

  lemma {:induction false} KeysKeepPendingTogether(fmt: Format, s: State, keys: seq<StandardKey>)
    requires PendingTogether(s)
    ensures PendingTogether(StandardRun(fmt, s, keys))
    decreases |keys|
  {
    if keys != [] {
      match keys[0] {
        case Common(c) => StepKeepsPendingTogether(StandardEngine(fmt), s, c);
        case DecimalPoint =>
        case BackspaceKey =>
      }
      KeysKeepPendingTogether(fmt, StandardStep(fmt, s, keys[0]), keys[1..]);
    }
  }

  /** "1" "2" "+" "3" "=" shows String(12 + 3), when parseFloat reads "12" and "3" as 12 and 3. */
  lemma TwelvePlusThree(fmt: Format)
    requires fmt.parseFloat("12") == Finite(12.0) && fmt.parseFloat("3") == Finite(3.0)
    ensures Run(StandardEngine(fmt), Initial,
                [Digit("1"), Digit("2"), Operator("+"), Digit("3"), Equals]).display
            == fmt.toString(15.0)
  {
    var e := StandardEngine(fmt);
    assert Concat(["1", "2"]) == "12" by {
      assert Concat(["2"]) == "2" + Concat([]);
    }
    assert Concat(["3"]) == "3";
    var rest := [("+", ["3"])];
    assert WellTypedChain(["1", "2"], rest);
    LeftToRight(e, ["1", "2"], rest);
    assert ChainKeys(rest) == ChainKeys([]) + [Operator("+")] + TypeKeys(["3"]);
    assert TypeKeys(["1", "2"]) + ChainKeys(rest) + [Equals]
      == [Digit("1"), Digit("2"), Operator("+"), Digit("3"), Equals];
    assert Fold(e, Finite(12.0), rest) == Calculate(Fold(e, Finite(12.0), []), Finite(3.0), "+");
  }

  /** "5" "÷" "0" "=" is accepted like any other expression and shows "Infinity", when parseFloat
      reads "5" and "0" as 5 and 0. */
  lemma FiveDividedByZero(fmt: Format)
    requires fmt.parseFloat("5") == Finite(5.0) && fmt.parseFloat("0") == Finite(0.0)
    ensures Run(StandardEngine(fmt), Initial, [Digit("5"), Operator("÷"), Digit("0"), Equals]).display
            == "Infinity"
  {
    var e := StandardEngine(fmt);
    assert Concat(["5"]) == "5";
    assert Concat(["0"]) == "0";
    var rest := [("÷", ["0"])];
    assert WellTypedChain(["5"], rest);
    LeftToRight(e, ["5"], rest);
    assert ChainKeys(rest) == ChainKeys([]) + [Operator("÷")] + TypeKeys(["0"]);
    assert TypeKeys(["5"]) + ChainKeys(rest) + [Equals]
      == [Digit("5"), Operator("÷"), Digit("0"), Equals];
    assert Fold(e, Finite(5.0), rest) == Calculate(Fold(e, Finite(5.0), []), Finite(0.0), "÷");
  }

  /** The component: four state fields updated by the button handlers. */
  class Calculator {
    const fmt: Format
    var display: string
    var previousValue: Option<Num>
    var operation: Option<string>
    var resetDisplay: bool

    function State(): State
      reads this
    {
      Accumulator.State(display, previousValue, operation, resetDisplay)
    }

    ghost predicate Valid()
      reads this
    {
      PendingTogether(State())
    }

    constructor (fmt: Format)
      ensures this.fmt == fmt && State() == Initial && Valid()
    {
      this.fmt := fmt;
      display := "0";
      previousValue := None;
      operation := None;
      resetDisplay := false;
    }

    method HandleNumberClick(num: string)
      requires Valid()
      modifies this
      ensures Valid() && State() == NumberClick(old(State()), num)
    {
      if display == "0" || resetDisplay {
        display := num;
        resetDisplay := false;
      } else {
        display := display + num;
      }
    }

    method HandleOperationClick(op: string)
      requires Valid()
      modifies this
      ensures Valid() && State() == OperationClick(StandardEngine(fmt), old(State()), op)
    {
      var current := fmt.parseFloat(display);
      if previousValue.None? {
        previousValue := Some(current);
      } else if operation.Some? && operation.value != "" {
        var result := Calculate(previousValue.value, current, operation.value);
        previousValue := Some(result);
        display := Show(fmt, result);
      }
      operation := Some(op);
      resetDisplay := true;
    }

    method HandleEquals()
      requires Valid()
      modifies this
      ensures Valid() && State() == EqualsClick(StandardEngine(fmt), old(State()))
    {
      if previousValue.Some? && operation.Some? && operation.value != "" {
        var current := fmt.parseFloat(display);
        var result := Calculate(previousValue.value, current, operation.value);
        display := Show(fmt, result);
        previousValue := None;
        operation := None;
        resetDisplay := true;
      }
    }

    method HandleClear()
      modifies this
      ensures Valid() && State() == Initial
    {
      display := "0";
      previousValue := None;
      operation := None;
      resetDisplay := false;
    }

    method HandleDecimal()
      requires Valid()
      modifies this
      ensures Valid() && State() == Decimal(old(State()))
    {
      if resetDisplay {
        display := "0.";
        resetDisplay := false;
      } else if '.' !in display {
        display := display + ".";
      }
    }

    method HandleBackspace()
      requires Valid()
      modifies this
      ensures Valid() && State() == Backspace(old(State()))
    {
      var rest := if |display| == 0 then "" else display[..|display| - 1];
      display := if rest == "" then "0" else rest;
    }
  }
}
