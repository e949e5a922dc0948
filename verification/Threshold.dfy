/** The escalation controller's state (internal/threshold/threshold.go). */
module Threshold {
  import opened Common

  datatype Tuning = Tuning(targetRate: real, windowSize: nat)

  /** What the constructor guarantees of the tuning, whatever it was given. */
  predicate Sane(t: Tuning) {
    t.targetRate > 0.0 && t.windowSize >= 1
  }

  datatype Control = Control(threshold: real, window: seq<bool>)

  function StrongCount(window: seq<bool>): (n: nat)
    ensures n <= |window|
  {
    if window == [] then 0
    else StrongCount(window[..|window| - 1]) + (if window[|window| - 1] then 1 else 0)
  }

  /** The share of strong decisions; an empty window has none. */
  function Rate(window: seq<bool>): real {
    if window == [] then 0.0 else StrongCount(window) as real / |window| as real
  }

  predicate Strict(c: Control, t: Tuning) {
    |c.window| >= t.windowSize && Rate(c.window) > t.targetRate
  }

  /** Append and, once the window is full, drop the oldest decision. */
  function Push(window: seq<bool>, strong: bool, t: Tuning): seq<bool> {
    if |window| == t.windowSize && window != [] then window[1..] + [strong] else window + [strong]
  }

  function Adjusted(c: Control, t: Tuning): real {
    if |c.window| < t.windowSize then c.threshold
    else if Rate(c.window) > t.targetRate then
      (if 0.99 < c.threshold + 0.01 then 0.99 else c.threshold + 0.01)
    else if Rate(c.window) < t.targetRate - 0.02 then
      (if 0.0 > c.threshold - 0.02 then 0.0 else c.threshold - 0.02)
    else c.threshold
  }

  lemma QuotientAbove(a: real, n: real, target: real)
    requires n > 0.0
    ensures a / n > target <==> a > target * n
  {
    var r := a / n;
    assert a == r * n;
    if r > target {
      assert (r - target) * n > 0.0;
    } else {
      assert (target - r) * n >= 0.0;
    }
  }

  /** The rate exceeds the target exactly when the strong decisions outnumber their share:
      the comparison without the division. */
  lemma RateAbove(window: seq<bool>, target: real)
    requires window != []
    ensures Rate(window) > target <==> StrongCount(window) as real > target * (|window| as real)
  {
    QuotientAbove(StrongCount(window) as real, |window| as real, target);
  }

  lemma QuotientBelow(a: real, n: real, target: real)
    requires n > 0.0
    ensures a / n < target <==> a < target * n
  {
    var r := a / n;
    assert a == r * n;
    if r < target {
      assert (target - r) * n > 0.0;
    } else {
      assert (r - target) * n >= 0.0;
    }
  }

  /** Strict mode in terms of counts: a full window in which the strong decisions outnumber
      their share. */
  lemma StrictInCounts(c: Control, t: Tuning)
    requires Sane(t)
    ensures Strict(c, t) <==>
      |c.window| >= t.windowSize && StrongCount(c.window) as real > t.targetRate * (|c.window| as real)
  {
    if |c.window| >= t.windowSize {
      RateAbove(c.window, t.targetRate);
    }
  }

  /** The feedback in terms of counts. A window that is not full changes nothing. A full one
      raises the threshold by 0.01, up to 0.99, exactly when the strong decisions outnumber their
      share, lowers it by 0.02, down to zero, exactly when they are fewer than two hundredths of the
      window below it, and otherwise leaves it alone. */
  lemma AdjustedInCounts(c: Control, t: Tuning)
    requires Sane(t)
    ensures var size, strong, after := |c.window| as real, StrongCount(c.window) as real, Adjusted(c, t);
      after ==
        if |c.window| < t.windowSize then c.threshold
        else if strong > t.targetRate * size then (if c.threshold > 0.98 then 0.99 else c.threshold + 0.01)
        else if strong < (t.targetRate - 0.02) * size then (if c.threshold < 0.02 then 0.0 else c.threshold - 0.02)
        else c.threshold
  {
    if |c.window| >= t.windowSize {
      var size, strong := |c.window| as real, StrongCount(c.window) as real;
      QuotientAbove(strong, size, t.targetRate);
      QuotientBelow(strong, size, t.targetRate - 0.02);
    }
  }

  /** When it moves, and which way. */
  lemma AdjustedMoves(c: Control, t: Tuning)
    requires Sane(t) && |c.window| >= t.windowSize && 0.0 < c.threshold < 0.99
    ensures var size, strong := |c.window| as real, StrongCount(c.window) as real;
      && (Adjusted(c, t) > c.threshold <==> strong > t.targetRate * size)
      && (Adjusted(c, t) < c.threshold <==> strong < (t.targetRate - 0.02) * size)
  {
    AdjustedInCounts(c, t);
    SharesApart(t.targetRate, |c.window| as real);
  }

  lemma SharesApart(rate: real, size: real)
    requires size > 0.0
    ensures (rate - 0.02) * size < rate * size
  {
    assert (rate - 0.02) * size == rate * size - 0.02 * size;
  }

  /** Outside the first calls the threshold lives in [0, 0.99], and a value given above
      that is only ever lowered. */
  lemma AdjustedRange(c: Control, t: Tuning)
    requires c.threshold >= 0.0
    ensures 0.0 <= Adjusted(c, t) && (Adjusted(c, t) <= 0.99 || Adjusted(c, t) <= c.threshold)
    ensures Strict(c, t) ==> Adjusted(c, t) == 0.99 || Adjusted(c, t) == c.threshold + 0.01
    ensures Adjusted(c, t) > c.threshold ==> Strict(c, t)
  {
  }

  class Dynamic {
    const targetRate: real
    const windowSize: nat
    var threshold: real
    var window: seq<bool>
    /** Every decision since the last reset. */
    ghost var decisions: seq<bool>

    ghost function Setting(): Tuning {
      Tuning(targetRate, windowSize)
    }

    /** The window is the newest `windowSize` decisions. */
    ghost predicate Valid()
      reads this
    {
      Sane(Setting()) && window == LastN(decisions, windowSize)
    }

    constructor (targetRate: real, windowSize: int, initialThreshold: real)
      ensures Valid() && window == [] && decisions == [] && threshold > 0.0
      ensures this.targetRate == if targetRate <= 0.0 then 0.05 else targetRate
      ensures this.windowSize == if windowSize <= 0 then 20 else windowSize
      ensures threshold == if initialThreshold <= 0.0 then 0.7 else initialThreshold
    {
      this.targetRate := if targetRate <= 0.0 then 0.05 else targetRate;
      this.windowSize := if windowSize <= 0 then 20 else windowSize;
      threshold := if initialThreshold <= 0.0 then 0.7 else initialThreshold;
      window, decisions := [], [];
    }

    method AddDecision(strong: bool)
      requires Valid()
      modifies this
      ensures Valid() && decisions == old(decisions) + [strong] && threshold == old(threshold)
      ensures window == Push(old(window), strong, Setting())
    {
      LastNSnoc(decisions, strong, windowSize);
      decisions := decisions + [strong];
      if |window| == windowSize {
        window := window[1..] + [strong];
        return;
      }
      window := window + [strong];
    }

    method CurrentRate() returns (rate: real)
      ensures rate == Rate(window)
    {
      if |window| == 0 {
        return 0.0;
      }
      var strong := 0;
      for i := 0 to |window|
        invariant strong == StrongCount(window[..i])
      {
        assert window[..i + 1][..i] == window[..i];
        if window[i] {
          strong := strong + 1;
        }
      }
      assert window[..|window|] == window;
      rate := strong as real / |window| as real;
    }

    method IsStrictMode() returns (strict: bool)
      ensures strict == Strict(Control(threshold, window), Setting())
    {
      var rate := CurrentRate();
      strict := |window| >= windowSize && rate > targetRate;
    }

    method Adjust() returns (after: real, changed: bool)
      requires Valid()
      modifies this
      ensures Valid() && window == old(window) && decisions == old(decisions)
      ensures threshold == after == Adjusted(Control(old(threshold), window), Setting())
      ensures changed <==> threshold != old(threshold)
    {
      if |window| < windowSize {
        return threshold, false;
      }
      var rate := CurrentRate();
      var before := threshold;
      if rate > targetRate {
        threshold := if 0.99 < threshold + 0.01 then 0.99 else threshold + 0.01;
      } else if rate < targetRate - 0.02 {
        threshold := if 0.0 > threshold - 0.02 then 0.0 else threshold - 0.02;
      }
      return threshold, before != threshold;
    }

    method Reset(newThreshold: Option<real>)
      requires Valid()
      modifies this
      ensures Valid() && window == [] && decisions == []
      ensures threshold == if newThreshold.Some? then newThreshold.value else old(threshold)
    {
      window, decisions := [], [];
      if newThreshold.Some? {
        threshold := newThreshold.value;
      }
    }
  }
}
