/**
 * The two-operand accumulator shared by the standard and the scientific calculator:
 * the four state fields, the handlers the two components have in common, and the
 * properties of the key sequences they accept.
 *
 * Each handler is a pure transition on `State`; the calculator classes update their
 * fields step by step and are proved to follow these transitions.
 */
module Accumulator {
  import opened Wrappers
  import opened JsNumbers

  /** display, previousValue, operation and resetDisplay. */
  datatype State = State(
    display: string,
    previousValue: Option<Num>,
    operation: Option<string>,
    resetDisplay: bool)

  /** The state at mount, and after Clear. */
  const Initial: State := State("0", None, None, false)

  /** The runtime the calculator runs against: parseFloat / String, and its `calculate`. */
  datatype Engine = Engine(fmt: Format, combine: (Num, Num, string) -> Num)

  /** previousValue is null exactly when operation is null. */
  predicate PendingTogether(s: State) {
    s.previousValue.None? <==> s.operation.None?
  }

  /** `if (operation)`: an operation is set and is not the empty string. */
  predicate HasOperation(s: State) {
    s.operation.Some? && s.operation.value != ""
  }

  /** Something is pending for `=`: `previousValue !== null && operation`. */
  predicate Pending(s: State) {
    s.previousValue.Some? && HasOperation(s)
  }

  /** handleNumberClick. */
  function NumberClick(s: State, num: string): State {
    if s.display == "0" || s.resetDisplay then s.(display := num, resetDisplay := false)
    else s.(display := s.display + num)
  }

  /** handleOperationClick. */
  function OperationClick(e: Engine, s: State, op: string): State {
    var current := e.fmt.parseFloat(s.display);
    if s.previousValue.None? then
      s.(previousValue := Some(current), operation := Some(op), resetDisplay := true)
    else if HasOperation(s) then
      var result := e.combine(s.previousValue.value, current, s.operation.value);
      s.(previousValue := Some(result), display := Show(e.fmt, result),
         operation := Some(op), resetDisplay := true)
    else
      s.(operation := Some(op), resetDisplay := true)
  }

  /** handleEquals. */
  function EqualsClick(e: Engine, s: State): State {
    if Pending(s) then
      var result := e.combine(s.previousValue.value, e.fmt.parseFloat(s.display), s.operation.value);
      State(Show(e.fmt, result), None, None, true)
    else s
  }

  /** The keys both calculators have. */
  datatype Key = Digit(token: string) | Operator(op: string) | Equals | Clear

  function Step(e: Engine, s: State, k: Key): State {
    match k
    case Digit(t) => NumberClick(s, t)
    case Operator(op) => OperationClick(e, s, op)
    case Equals => EqualsClick(e, s)
    case Clear => Initial
  }

  function Run(e: Engine, s: State, keys: seq<Key>): State
    decreases |keys|
  {
    if keys == [] then s else Run(e, Step(e, s, keys[0]), keys[1..])
  }

  lemma {:induction false} RunAppend(e: Engine, s: State, a: seq<Key>, b: seq<Key>)
    ensures Run(e, s, a + b) == Run(e, Run(e, s, a), b)
    decreases |a|
  {
    if a == [] {
      assert a + b == b;
    } else {
      assert (a + b)[1..] == a[1..] + b;
      RunAppend(e, Step(e, s, a[0]), a[1..], b);
    }
  }

  /** Every key keeps previousValue and operation both set or both null. */
  lemma StepKeepsPendingTogether(e: Engine, s: State, k: Key)
    requires PendingTogether(s)
    ensures PendingTogether(Step(e, s, k))
  {
  }

  /** So does every sequence of keys. */
  lemma {:induction false} RunKeepsPendingTogether(e: Engine, s: State, keys: seq<Key>)
    requires PendingTogether(s)
    ensures PendingTogether(Run(e, s, keys))
    decreases |keys|
  {
    if keys != [] {
      StepKeepsPendingTogether(e, s, keys[0]);
      RunKeepsPendingTogether(e, Step(e, s, keys[0]), keys[1..]);
    }
  }

  /** A digit replaces the display when it shows "0" or a result, and appends otherwise;
      either way the next digit appends, and the pending operation is untouched. */
  lemma DigitEntry(s: State, num: string)
    ensures var t := NumberClick(s, num);
      && t.display == (if s.display == "0" || s.resetDisplay then num else s.display + num)
      && !t.resetDisplay
      && t.previousValue == s.previousValue && t.operation == s.operation
  {
  }

  /** The first operator press stores the parsed display and keeps the display. */
  lemma FirstOperator(e: Engine, s: State, op: string)
    requires s.previousValue.None?
    ensures var t := OperationClick(e, s, op);
      && t.previousValue == Some(e.fmt.parseFloat(s.display))
      && t.display == s.display
      && t.operation == Some(op) && t.resetDisplay
  {
  }

  /** A later operator press folds the pending operation into previousValue and shows it,
      also when two operators are pressed in a row. */
  lemma ChainedOperator(e: Engine, s: State, op: string)
    requires Pending(s)
    ensures var t := OperationClick(e, s, op);
      var r := e.combine(s.previousValue.value, e.fmt.parseFloat(s.display), s.operation.value);
      && t.previousValue == Some(r) && t.display == Show(e.fmt, r)
      && t.operation == Some(op) && t.resetDisplay
  {
  }

  /** `=` with nothing pending changes nothing; with something pending it shows the result
      and clears both pending fields. Pressing `=` twice is pressing it once. */
  lemma EqualsBehaviour(e: Engine, s: State)
    ensures !Pending(s) ==> EqualsClick(e, s) == s
    ensures Pending(s) ==> var t := EqualsClick(e, s);
      && t.previousValue.None? && t.operation.None? && t.resetDisplay
      && t.display == Show(e.fmt, e.combine(s.previousValue.value, e.fmt.parseFloat(s.display), s.operation.value))
    ensures EqualsClick(e, EqualsClick(e, s)) == EqualsClick(e, s)
  {
  }

  // ---- Left-to-right chaining of typed expressions ----

  /** The keys that type the tokens of one operand. */
  function TypeKeys(tokens: seq<string>): (keys: seq<Key>)
    ensures |keys| == |tokens|
    ensures forall i :: 0 <= i < |tokens| ==> keys[i] == Digit(tokens[i])
  {
    if tokens == [] then [] else [Digit(tokens[0])] + TypeKeys(tokens[1..])
  }

  function Concat(tokens: seq<string>): string {
    if tokens == [] then "" else tokens[0] + Concat(tokens[1..])
  }

  /** An operand typed with number buttons: at least one non-empty token, and either a lone "0"
      or not starting with "0" (a leading "0" followed by more would be replaced). */
  predicate WellTyped(tokens: seq<string>) {
    && tokens != []
    && (tokens[0] != "0" || |tokens| == 1)
    && forall i :: 0 <= i < |tokens| ==> tokens[i] != ""
  }

  /** Typing non-empty tokens onto a display that is neither empty nor "0" appends them. */
  lemma {:induction false} TypingAppends(e: Engine, s: State, tokens: seq<string>)
    requires s.display != "" && s.display != "0" && !s.resetDisplay
    requires forall i :: 0 <= i < |tokens| ==> tokens[i] != ""
    ensures Run(e, s, TypeKeys(tokens)) == s.(display := s.display + Concat(tokens))
    decreases |tokens|
  {
    if tokens == [] {
      assert s.display + "" == s.display;
    } else {
      var t := NumberClick(s, tokens[0]);
      assert t.display == s.display + tokens[0];
      assert |t.display| >= 2;
      assert TypeKeys(tokens)[1..] == TypeKeys(tokens[1..]);
      TypingAppends(e, t, tokens[1..]);
      assert s.display + tokens[0] + Concat(tokens[1..]) == s.display + Concat(tokens);
    }
  }

  /** Typing an operand after "0" or a result makes the display exactly that operand. */
  lemma TypingOperand(e: Engine, s: State, tokens: seq<string>)
    requires s.display == "0" || s.resetDisplay
    requires WellTyped(tokens)
    ensures Run(e, s, TypeKeys(tokens)) == s.(display := Concat(tokens), resetDisplay := false)
  {
    var t := NumberClick(s, tokens[0]);
    assert TypeKeys(tokens)[1..] == TypeKeys(tokens[1..]);
    if tokens[0] == "0" {
      assert tokens == ["0"] && Concat(tokens) == "0";
    } else {
      TypingAppends(e, t, tokens[1..]);
    }
  }

  /** The keys of "x0 op1 x1 op2 x2 ... opn xn" (without the final `=`). */
  function ChainKeys(rest: seq<(string, seq<string>)>): seq<Key> {
    if rest == [] then []
    else ChainKeys(rest[..|rest| - 1]) + [Operator(rest[|rest| - 1].0)] + TypeKeys(rest[|rest| - 1].1)
  }

  /** Strict left-to-right evaluation, with no precedence. */
  function Fold(e: Engine, acc: Num, rest: seq<(string, seq<string>)>): Num {
    if rest == [] then acc
    else
      var (op, x) := rest[|rest| - 1];
      e.combine(Fold(e, acc, rest[..|rest| - 1]), e.fmt.parseFloat(Concat(x)), op)
  }

  predicate WellTypedChain(first: seq<string>, rest: seq<(string, seq<string>)>) {
    && WellTyped(first)
    && forall i :: 0 <= i < |rest| ==> rest[i].0 != "" && WellTyped(rest[i].1)
  }

  /** After "x0 op1 x1 ... opn xn" the last operand is shown and the fold of the earlier
      ones waits with opn. */
  lemma {:induction false} ChainPending(e: Engine, first: seq<string>, rest: seq<(string, seq<string>)>)
    requires rest != [] && WellTypedChain(first, rest)
    ensures Run(e, Initial, TypeKeys(first) + ChainKeys(rest)) == State(
      Concat(rest[|rest| - 1].1),
      Some(Fold(e, e.fmt.parseFloat(Concat(first)), rest[..|rest| - 1])),
      Some(rest[|rest| - 1].0),
      false)
    decreases |rest|
  {
    var n := |rest| - 1;
    var (op, x) := rest[n];
    var init := rest[..n];
    var acc := e.fmt.parseFloat(Concat(first));
    assert ChainKeys(rest) == ChainKeys(init) + [Operator(op)] + TypeKeys(x);
    assert TypeKeys(first) + ChainKeys(rest)
      == (TypeKeys(first) + ChainKeys(init)) + [Operator(op)] + TypeKeys(x);
    RunAppend(e, Initial, TypeKeys(first) + ChainKeys(init) + [Operator(op)], TypeKeys(x));
    RunAppend(e, Initial, TypeKeys(first) + ChainKeys(init), [Operator(op)]);
    var before := Run(e, Initial, TypeKeys(first) + ChainKeys(init));
    if init == [] {
      TypingOperand(e, Initial, first);
      assert TypeKeys(first) + ChainKeys(init) == TypeKeys(first);
      assert before == State(Concat(first), None, None, false);
    } else {
      assert WellTypedChain(first, init) by {
        forall i | 0 <= i < |init| ensures init[i].0 != "" && WellTyped(init[i].1) {
          assert init[i] == rest[i];
        }
      }
      ChainPending(e, first, init);
      assert init[..|init| - 1] == rest[..n - 1];
      assert init[|init| - 1] == rest[n - 1];
      assert rest[n - 1].0 != "";
    }
    var pressed := OperationClick(e, before, op);
    assert Run(e, before, [Operator(op)]) == pressed;
    assert pressed.resetDisplay;
    assert WellTyped(x) by { assert rest[n] == (op, x); }
    TypingOperand(e, pressed, x);
  }

  /** The whole expression, then `=`, shows the strict left-to-right fold of its operands and
      leaves nothing pending. */
  lemma LeftToRight(e: Engine, first: seq<string>, rest: seq<(string, seq<string>)>)
    requires rest != [] && WellTypedChain(first, rest)
    ensures var s := Run(e, Initial, TypeKeys(first) + ChainKeys(rest) + [Equals]);
      && s.display == Show(e.fmt, Fold(e, e.fmt.parseFloat(Concat(first)), rest))
      && s.previousValue.None? && s.operation.None? && s.resetDisplay
  {
    ChainPending(e, first, rest);
    RunAppend(e, Initial, TypeKeys(first) + ChainKeys(rest), [Equals]);
    assert rest[|rest| - 1].0 != "";
  }
}
