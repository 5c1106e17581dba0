/** The decimal accumulator of the Integer scanner state. */
module IntegerState {
  import Int32

  predicate IsDigit(c: char) {
    '0' <= c <= '9'
  }

  predicate AllDigits(ds: string) {
    forall i :: 0 <= i < |ds| ==> IsDigit(ds[i])
  }

  function DigitValue(c: char): (v: int)
    requires IsDigit(c)
    ensures 0 <= v <= 9
  {
    c as int - '0' as int
  }

  /** The accumulator after consuming digit `c`: `_currentInteger * 10 + c - '0'`
      evaluated in unchecked 32-bit arithmetic, written as a single wrap-around
      at the end (UncheckedStep shows that this equals wrapping after each of
      the three operations). */
  function NextAccumulator(acc: int, c: char): (r: int)
    requires IsDigit(c)
    ensures Int32.Min <= r <= Int32.Max
    ensures Int32.Min <= acc * 10 + DigitValue(c) <= Int32.Max ==> r == acc * 10 + DigitValue(c)
  {
    Int32.Wrap(acc * 10 + DigitValue(c))
  }

  /** The source's `_currentInteger * 10 + lookahead - '0'` wraps after the
      product, after the addition of the character code and after the
      subtraction of the code of '0'; the result is the single wrap. */
  lemma UncheckedStep(acc: int, c: char)
    requires IsDigit(c)
    ensures Int32.Wrap(Int32.Wrap(Int32.Wrap(acc * 10) + c as int) - '0' as int) == NextAccumulator(acc, c)
  {
    Int32.WrapPlus(Int32.Wrap(acc * 10) + c as int, -('0' as int));
    Int32.WrapPlus(acc * 10, c as int - '0' as int);
  }

  /** The mathematical value of a string of decimal digits. */
  function DecimalValue(ds: string): nat
    requires AllDigits(ds)
  {
    if ds == [] then 0 else DecimalValue(ds[..|ds| - 1]) * 10 + DigitValue(ds[|ds| - 1])
  }

  /** The accumulator of a state that started at `acc` after it consumed `ds`
      one digit at a time. */
  function Accumulated(acc: int, ds: string): int
    requires AllDigits(ds)
  {
    if ds == [] then acc else NextAccumulator(Accumulated(acc, ds[..|ds| - 1]), ds[|ds| - 1])
  }

  /** One more digit is one more accumulator step: a state holding
      `Accumulated(acc, ds)` that consumes `c` holds `Accumulated(acc, ds + [c])`. */
  lemma AccumulatedStep(acc: int, ds: string, c: char)
    requires AllDigits(ds) && IsDigit(c)
    ensures AllDigits(ds + [c])
    ensures Accumulated(acc, ds + [c]) == NextAccumulator(Accumulated(acc, ds), c)
  {
    assert (ds + [c])[..|ds|] == ds;
  }

  /** A fresh Integer state (accumulator 0) that consumed the digits `ds`
      holds their decimal value truncated to 32 bits. */
  lemma {:induction false} AccumulatedIsWrappedDecimal(ds: string)
    requires AllDigits(ds)
    ensures Accumulated(0, ds) == Int32.Wrap(DecimalValue(ds))
  {
    if ds != [] {
      var init := ds[..|ds| - 1];
      assert AllDigits(init);
      AccumulatedIsWrappedDecimal(init);
      Int32.WrapTimesTenPlus(DecimalValue(init), DigitValue(ds[|ds| - 1]));
    }
  }

  /** Below the 32-bit limit the accumulator is exactly the decimal value. */
  lemma AccumulatedIsDecimal(ds: string)
    requires AllDigits(ds) && DecimalValue(ds) <= Int32.Max
    ensures Accumulated(0, ds) == DecimalValue(ds)
  {
    AccumulatedIsWrappedDecimal(ds);
  }

  /** One more digit at the end multiplies the decimal value by ten and
      adds the digit. */
  lemma DecimalValueSnoc(ds: string, c: char)
    requires AllDigits(ds) && IsDigit(c)
    ensures AllDigits(ds + [c])
    ensures DecimalValue(ds + [c]) == DecimalValue(ds) * 10 + DigitValue(c)
  {
    assert (ds + [c])[..|ds|] == ds;
  }

  /** One past the 32-bit limit the accumulator wraps to the most negative value. */
  lemma OverflowWraps()
    ensures AllDigits("2147483648")
    ensures DecimalValue("2147483648") == Int32.Max + 1
    ensures Accumulated(0, "2147483648") == Int32.Min
  {
    var ds: string := [];
    DecimalValueSnoc(ds, '2'); ds := ds + ['2'];
    DecimalValueSnoc(ds, '1'); ds := ds + ['1'];
    DecimalValueSnoc(ds, '4'); ds := ds + ['4'];
    DecimalValueSnoc(ds, '7'); ds := ds + ['7'];
    DecimalValueSnoc(ds, '4'); ds := ds + ['4'];
    DecimalValueSnoc(ds, '8'); ds := ds + ['8'];
    DecimalValueSnoc(ds, '3'); ds := ds + ['3'];
    DecimalValueSnoc(ds, '6'); ds := ds + ['6'];
    DecimalValueSnoc(ds, '4'); ds := ds + ['4'];
    DecimalValueSnoc(ds, '8'); ds := ds + ['8'];
    assert DecimalValue(ds) == 2147483648;
    assert ds == "2147483648";
    AccumulatedIsWrappedDecimal(ds);
  }
}
