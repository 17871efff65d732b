/**
 * `useCounter`: an integer state slot whose every update is clamped to
 * optional bounds. An absent lower bound stands for negative infinity and
 * an absent upper bound for positive infinity, the hook's defaults.
 */
module Counter {
  import opened Wrappers
  import opened StateUpdate

  /** The hook's clamp: the larger of `lo` and the smaller of `hi` and `x`. */
  function Clamp(x: int, lo: Option<int>, hi: Option<int>): (r: int)
    ensures lo.Some? ==> r >= lo.value
    ensures hi.Some? && (lo.None? || lo.value <= hi.value) ==> r <= hi.value
    ensures (lo.None? || lo.value <= x) && (hi.None? || x <= hi.value) ==> r == x
    ensures lo.Some? && hi.Some? && lo.value > hi.value ==> r == lo.value
    ensures r == x || (lo.Some? && r == lo.value) || (hi.Some? && r == hi.value)
    ensures lo.Some? && x < lo.value ==> r == lo.value
    ensures hi.Some? && hi.value < x && (lo.None? || lo.value <= hi.value) ==> r == hi.value
  {
    var below := match hi case None => x case Some(b) => if b < x then b else x;
    match lo case None => below case Some(a) => if a > below then a else below
  }

  /** With both bounds present and ordered, the clamped value lies between them. */
  lemma ClampInRange(x: int, a: int, b: int)
    requires a <= b
    ensures a <= Clamp(x, Some(a), Some(b)) <= b
  {
  }

  /** Clamping an already clamped value changes nothing. */
  lemma ClampIdempotent(x: int, lo: Option<int>, hi: Option<int>)
    ensures Clamp(Clamp(x, lo, hi), lo, hi) == Clamp(x, lo, hi)
  {
  }

  /** With the default bounds the clamp is the identity. */
  lemma ClampUnbounded(x: int)
    ensures Clamp(x, None, None) == x
  {
  }

  /**
   * The hook's state slot together with its bounds. The initial value is
   * stored as given: it comes from the caller's slot and is not clamped.
   */
  class Counter {
    var value: int
    const minValue: Option<int>
    const maxValue: Option<int>

    constructor (initial: int, minValue: Option<int>, maxValue: Option<int>)
      ensures value == initial && this.minValue == minValue && this.maxValue == maxValue
    {
      value := initial;
      this.minValue := minValue;
      this.maxValue := maxValue;
    }

    /** newSetValue: resolve the update against the value held, then clamp it. */
    method SetValue(u: Update<int>)
      modifies this
      ensures value == Clamp(Resolve(u, old(value)), minValue, maxValue)
    {
      var next := Resolve(u, value);
      value := Clamp(next, minValue, maxValue);
    }

    /** incrementValue: add `amount` (1 by default) through the clamped setter. */
    method Increment(amount: int := 1)
      modifies this
      ensures value == Clamp(old(value) + amount, minValue, maxValue)
    {
      SetValue(Fn((prev: int) => prev + amount));
    }

    /** decrementValue: exactly `Increment(-amount)`. */
    method Decrement(amount: int := 1)
      modifies this
      ensures value == Clamp(old(value) + -amount, minValue, maxValue)
    {
      Increment(-amount);
    }
  }
}
