/**
 * The "Vedic mathematics" calculator: four handlers, each a guard on `parseInt` of an
 * input text followed by one closed-form integer expression, and the digit tricks the
 * page explains next to them.
 *
 * Values are exact integers: the model does not round results beyond 2^53.
 */
module VedicCalculator {
  import opened Wrappers
  import opened JsParseInt
  import Digits

  /** What a handler does: show an error toast and return, or set its result. */
  datatype Outcome = Rejected(message: string) | Accepted(value: int)

  /** The result field after the handler ran: a rejection returns before any setter. */
  function Shown(previous: Option<int>, o: Outcome): Option<int> {
    match o
    case Rejected(_) => previous
    case Accepted(v) => Some(v)
  }

  /** JavaScript's `n % d` for d > 0: the remainder takes the sign of n. */
  function JsRem(n: int, d: int): (r: int)
    requires d > 0
    ensures -d < r < d
    ensures n >= 0 ==> r == n % d
    ensures n < 0 ==> r <= 0
  {
    if n >= 0 then n % d else -((-n) % d)
  }

  const EndingWith5Message := "Please enter a number ending with 5"
  const EnterNumberMessage := "Please enter a number"
  const ValidNumberMessage := "Please enter a valid number"
  const TwoDigitMessage := "Please enter a valid two-digit number"

  /** calculateSquareEndingWith5. Math.floor(num / 10) is Dafny's `/` for a positive divisor. */
  function SquareEndingWith5(text: string): Outcome {
    var num := ParseInt(text);
    if num.None? || JsRem(num.value, 10) != 5 then Rejected(EndingWith5Message)
    else
      var tensDigit := num.value / 10;
      Accepted(tensDigit * (tensDigit + 1) * 100 + 25)
  }

  /** calculateMultiplyBy11. */
  function MultiplyBy11(text: string): Outcome {
    if IsBlank(text) then Rejected(EnterNumberMessage)
    else
      var num := ParseInt(text);
      if num.None? then Rejected(ValidNumberMessage)
      else Accepted(num.value * 11)
  }

  /** calculateGeneralSquare: the square through the base 100. */
  function GeneralSquare(text: string): Outcome {
    var num := ParseInt(text);
    if num.None? || num.value < 10 || num.value > 99 then Rejected(TwoDigitMessage)
    else
      var base := 100;
      var difference := num.value - base;
      Accepted(base * base + 2 * base * difference + difference * difference)
  }

  /** The alternative through the base 50, which the handler computes and does not show. */
  function SquareFrom50(n: int): int {
    var diffFrom50 := n - 50;
    2500 + diffFrom50 * 100 + diffFrom50 * diffFrom50
  }

  /** calculateSubtractFromPower10: the power is 10 to the length of the raw text. */
  function SubtractFromPower10(text: string): Outcome {
    var num := ParseInt(text);
    if num.None? then Rejected(ValidNumberMessage)
    else Accepted(Digits.Pow(10, |text|) - num.value)
  }

  /** A JavaScript remainder of 5 by 10 only happens for positive numbers ending in 5. */
  lemma EndsWith5(n: int)
    requires JsRem(n, 10) == 5
    ensures n > 0 && n % 10 == 5 && n == 10 * (n / 10) + 5
  {
  }

  /** (10 t + 5)^2 = t (t + 1) 100 + 25. */
  lemma FiveSquare(t: int)
    ensures t * (t + 1) * 100 + 25 == (10 * t + 5) * (10 * t + 5)
  {
    assert (10 * t + 5) * (10 * t + 5) == 100 * (t * t) + 100 * t + 25;
    assert t * (t + 1) * 100 == 100 * (t * t) + 100 * t;
  }

  /** The square-ending-in-5 handler accepts exactly the texts parsing to a number whose
      JavaScript remainder by 10 is 5, which are positive, and shows their square. */
  lemma SquareEndingWith5Correct(text: string)
    ensures SquareEndingWith5(text).Accepted?
      <==> ParseInt(text).Some? && JsRem(ParseInt(text).value, 10) == 5
    ensures SquareEndingWith5(text).Rejected? ==> SquareEndingWith5(text).message == EndingWith5Message
    ensures SquareEndingWith5(text).Accepted? ==> var n := ParseInt(text).value;
      n > 0 && n % 10 == 5 && SquareEndingWith5(text).value == n * n
  {
    var num := ParseInt(text);
    if num.Some? && JsRem(num.value, 10) == 5 {
      var n := num.value;
      EndsWith5(n);
      FiveSquare(n / 10);
    }
  }

  /** Negative numbers never pass the guard: -25 % 10 is -5 in JavaScript. */
  lemma NegativeFiveRejected()
    ensures SquareEndingWith5("-25") == Rejected(EndingWith5Message)
  {
    MinusTwentyFive();
    assert JsRem(-25, 10) == -5;
  }

  lemma MinusTwentyFive()
    ensures ParseInt("-25") == Some(-25)
  {
    ParseNegative("-25");
    assert "-25"[1..] == "25";
    TwentyFiveDigits();
  }

  lemma TwentyFiveDigits()
    ensures Digits.Value(DigitPrefix("25", 10), 10) == 25
  {
    assert DigitPrefix("25", 10) == [2, 5] by {
      assert "25"[1..] == "5";
      assert DigitPrefix("5", 10) == [5] by { assert "5"[1..] == ""; }
    }
    assert Digits.Value([2, 5], 10) == 25 by { assert [2, 5][..1] == [2]; }
  }

  /** Multiply-by-11 rejects blank text first, then text with no digits, and otherwise shows
      eleven times the parsed number. */
  lemma MultiplyBy11Correct(text: string)
    ensures IsBlank(text) ==> MultiplyBy11(text) == Rejected(EnterNumberMessage)
    ensures !IsBlank(text) && ParseInt(text).None? ==> MultiplyBy11(text) == Rejected(ValidNumberMessage)
    ensures MultiplyBy11(text).Accepted? <==> ParseInt(text).Some?
    ensures MultiplyBy11(text).Accepted? ==> MultiplyBy11(text).value == 11 * ParseInt(text).value
  {
    if IsBlank(text) {
      BlankHasNoNumber(text);
    }
  }

  /** parseInt of blank text is NaN. */
  lemma BlankHasNoNumber(text: string)
    requires IsBlank(text)
    ensures ParseInt(text).None?
  {
  }

  /** The general square accepts exactly 10 <= n <= 99 and shows n^2. */
  lemma GeneralSquareCorrect(text: string)
    ensures GeneralSquare(text).Accepted?
      <==> ParseInt(text).Some? && 10 <= ParseInt(text).value <= 99
    ensures GeneralSquare(text).Rejected? ==> GeneralSquare(text).message == TwoDigitMessage
    ensures GeneralSquare(text).Accepted? ==> var n := ParseInt(text).value;
      GeneralSquare(text).value == n * n
  {
    var num := ParseInt(text);
    if num.Some? && 10 <= num.value <= 99 {
      SquareFrom100(num.value);
    }
  }

  /** (100 + d)^2 = 100^2 + 2 100 d + d^2 with d = n - 100. */
  lemma SquareFrom100(n: int)
    ensures 100 * 100 + 2 * 100 * (n - 100) + (n - 100) * (n - 100) == n * n
  {
    var d := n - 100;
    assert n == 100 + d;
    assert (100 + d) * (100 + d) == 100 * 100 + 2 * 100 * d + d * d;
  }

  /** The unused base-50 formula is also n^2, for every n. */
  lemma SquareFrom50Correct(n: int)
    ensures SquareFrom50(n) == n * n
  {
    var d := n - 50;
    assert n == 50 + d;
    assert (50 + d) * (50 + d) == 2500 + d * 100 + d * d;
  }

  /** Subtracting from a power of 10 accepts any text with a number and shows
      10^(length of the text) - n; on plain digit text of length k the result lies in 1..10^k. */
  lemma SubtractFromPower10Correct(text: string)
    ensures SubtractFromPower10(text).Accepted? <==> ParseInt(text).Some?
    ensures SubtractFromPower10(text).Rejected? ==> SubtractFromPower10(text).message == ValidNumberMessage
    ensures SubtractFromPower10(text).Accepted? ==>
      SubtractFromPower10(text).value == Digits.Pow(10, |text|) - ParseInt(text).value
    ensures IsDigitText(text) ==>
      1 <= SubtractFromPower10(text).value <= Digits.Pow(10, |text|)
  {
    if IsDigitText(text) {
      ParseDigitText(text);
    }
  }

  /** Every rejection keeps the result shown before. */
  lemma RejectionKeepsResult(previous: Option<int>, text: string)
    ensures SquareEndingWith5(text).Rejected? ==> Shown(previous, SquareEndingWith5(text)) == previous
    ensures MultiplyBy11(text).Rejected? ==> Shown(previous, MultiplyBy11(text)) == previous
    ensures GeneralSquare(text).Rejected? ==> Shown(previous, GeneralSquare(text)) == previous
    ensures SubtractFromPower10(text).Rejected? ==> Shown(previous, SubtractFromPower10(text)) == previous
  {
  }

  // ---- The digit tricks shown on the page ----

  /** The columns of the multiply-by-11 trick: each digit plus its left neighbour,
      A | A+B | B+C | C for ABC. */
  function ElevenColumns(ds: seq<int>): (cs: seq<int>)
    ensures |cs| == |ds| + 1
  {
    Digits.AddColumns([0] + ds, ds + [0])
  }

  /** The columns, read positionally (before carrying), are eleven times the number. */
  lemma ElevenColumnsValue(ds: seq<int>)
    ensures Digits.Value(ElevenColumns(ds), 10) == 11 * Digits.Value(ds, 10)
  {
    Digits.ValueAddColumns([0] + ds, ds + [0], 10);
    Digits.ValueLeadingZero(ds, 10);
    Digits.ValueShift(ds, 10);
  }

  /** For ABC the columns are A, A+B, B+C, C, and 1000A + 100(A+B) + 10(B+C) + C = 11 ABC. */
  lemma ElevenThreeDigits(a: int, b: int, c: int)
    ensures ElevenColumns([a, b, c]) == [a, a + b, b + c, c]
    ensures 1000 * a + 100 * (a + b) + 10 * (b + c) + c == 11 * (100 * a + 10 * b + c)
  {
  }

  /** 53 × 11 = 5 | 5+3 | 3 = 583. */
  lemma FiftyThreeTimesEleven()
    ensures ElevenColumns([5, 3]) == [5, 8, 3]
    ensures Digits.Value([5, 8, 3], 10) == 583 == 53 * 11
  {
    assert [5, 8, 3][..2] == [5, 8];
    assert [5, 8][..1] == [5];
  }

  /** Each digit subtracted from 9. */
  function Nines(ds: seq<int>): (cs: seq<int>)
    ensures |cs| == |ds| && forall i :: 0 <= i < |ds| ==> cs[i] == 9 - ds[i]
  {
    seq(|ds|, i requires 0 <= i < |ds| => 9 - ds[i])
  }

  /** The subtraction trick: every digit from 9, the last one from 10. */
  function Complement(ds: seq<int>): (cs: seq<int>)
    requires ds != []
    ensures |cs| == |ds|
  {
    Nines(ds[..|ds| - 1]) + [10 - ds[|ds| - 1]]
  }

  lemma {:induction false} NinesValue(ds: seq<int>)
    ensures Digits.Value(Nines(ds), 10) == Digits.Pow(10, |ds|) - 1 - Digits.Value(ds, 10)
  {
    if ds != [] {
      var n := |ds| - 1;
      assert Nines(ds)[..n] == Nines(ds[..n]);
      NinesValue(ds[..n]);
    }
  }

  /** The complement of an n-digit number is 10^n minus it, and it is a row of digits when
      the last digit is not 0. */
  lemma ComplementValue(ds: seq<int>)
    requires ds != []
    ensures Digits.Value(Complement(ds), 10) == Digits.Pow(10, |ds|) - Digits.Value(ds, 10)
    ensures Digits.IsDigits(ds, 10) && ds[|ds| - 1] != 0 ==> Digits.IsDigits(Complement(ds), 10)
  {
    var n := |ds| - 1;
    var cs := Complement(ds);
    assert cs[..n] == Nines(ds[..n]);
    NinesValue(ds[..n]);
    if Digits.IsDigits(ds, 10) && ds[n] != 0 {
      forall i | 0 <= i < |cs| ensures 0 <= cs[i] < 10 {
        if i < n {
          assert cs[i] == 9 - ds[i];
        }
      }
    }
  }

  /** 1000 - 463 = 537: 9-4, 9-6, 10-3. */
  lemma ThousandMinus463()
    ensures Complement([4, 6, 3]) == [5, 3, 7]
    ensures Digits.Value([5, 3, 7], 10) == 537 == 1000 - 463
  {
    assert [4, 6, 3][..2] == [4, 6];
    assert [5, 3, 7][..2] == [5, 3];
    assert [5, 3][..1] == [5];
  }
}
