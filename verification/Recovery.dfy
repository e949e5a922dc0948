/**
 How strong routing comes back (internal/threshold/threshold.go, internal/router/router.go): weak
 decisions lower the threshold, so that a stretch of them cannot go on for ever.
 */
module Recovery {
  import opened Common
  import opened Threshold
  import opened Escalation
  import Routing

  lemma {:induction false} NoneStrong(window: seq<bool>)
    requires forall i :: 0 <= i < |window| ==> !window[i]
    ensures StrongCount(window) == 0 && Rate(window) == 0.0
  {
    if window == [] {
    } else {
      NoneStrong(window[..|window| - 1]);
    }
  }

  /** A full window without any strong decision. */
  ghost predicate FullWeak(c: Control, t: Tuning) {
    |c.window| == t.windowSize && forall i :: 0 <= i < |c.window| ==> !c.window[i]
  }

  function Lowered(threshold: real, n: nat): real {
    if threshold > 0.02 * (n as real) then threshold - 0.02 * (n as real) else 0.0
  }

  lemma WeakLowers(c: Control, t: Tuning)
    requires Sane(t) && t.targetRate > 0.02 && FullWeak(c.(window := Push(c.window, false, t)), t)
    ensures Recorded(c, false, t).threshold == if c.threshold > 0.02 then c.threshold - 0.02 else 0.0
    ensures FullWeak(Recorded(c, false, t), t)
  {
    NoneStrong(Push(c.window, false, t));
  }

  lemma LoweredOnce(threshold: real, n: nat)
    requires n > 0
    ensures Lowered(if threshold > 0.02 then threshold - 0.02 else 0.0, n - 1) == Lowered(threshold, n)
  {
  }

  /** All of these requests are routed weak. */
  ghost predicate AllWeak(c: Control, qs: seq<Request>, t: Tuning)
    decreases |qs|
  {
    qs == [] || (Decision(c, qs[0], t) == Weak && AllWeak(Handle(c, qs[0], t), qs[1..], t))
  }

  lemma FullWeakStays(c: Control, t: Tuning)
    requires Sane(t) && FullWeak(c, t)
    ensures FullWeak(c.(window := Push(c.window, false, t)), t) && !Strict(c, t)
  {
    NoneStrong(c.window);
  }

  /** From a full window of weak decisions, n more of them lower the threshold by 0.02 each, down to
      zero. */
  lemma {:induction false} WeakRunLowers(c: Control, qs: seq<Request>, t: Tuning)
    requires Sane(t) && t.targetRate > 0.02 && FullWeak(c, t) && c.threshold >= 0.0 && AllWeak(c, qs, t)
    ensures var d := HandleAll(c, qs, t);
      FullWeak(d, t) && d.threshold == Lowered(c.threshold, |qs|)
    decreases |qs|
  {
    if qs == [] {
    } else {
      FullWeakStays(c, t);
      WeakLowers(c, t);
      WeakRunLowers(Handle(c, qs[0], t), qs[1..], t);
      LoweredOnce(c.threshold, |qs|);
    }
  }

  lemma WeakIsBelow(c: Control, q: Request, t: Tuning)
    requires Sane(t) && FullWeak(c, t) && q.score >= 0.0 && Decision(c, q, t) == Weak
    ensures c.threshold > 0.0
  {
    FullWeakStays(c, t);
  }

  lemma WeakStep(c: Control, q: Request, t: Tuning)
    requires Sane(t) && t.targetRate > 0.02 && FullWeak(c, t) && Decision(c, q, t) == Weak
    ensures var next := Handle(c, q, t);
      FullWeak(next, t) && next.threshold == if c.threshold > 0.02 then c.threshold - 0.02 else 0.0
  {
    FullWeakStays(c, t);
    WeakLowers(c, t);
  }

  lemma OneStepHigher(threshold: real, n: nat)
    requires n >= 1 && 0.02 * ((n - 1) as real) < if threshold > 0.02 then threshold - 0.02 else 0.0
    ensures 0.02 * (n as real) < threshold
  {
  }

  ghost predicate NoNegativeScore(qs: seq<Request>) {
    forall i :: 0 <= i < |qs| ==> qs[i].score >= 0.0
  }

  /** As long as they are all weak the threshold has not come down to zero. */
  lemma {:induction false} FullWindowBound(c: Control, qs: seq<Request>, t: Tuning)
    requires Sane(t) && t.targetRate > 0.02 && FullWeak(c, t)
    requires qs != [] && AllWeak(c, qs, t) && NoNegativeScore(qs)
    ensures 0.02 * ((|qs| - 1) as real) < c.threshold
    decreases |qs|
  {
    var next, rest := Handle(c, qs[0], t), qs[1..];
    WeakIsBelow(c, qs[0], t);
    if rest == [] {
    } else {
      WeakStep(c, qs[0], t);
      FullWindowBound(next, rest, t);
      OneStepHigher(c.threshold, |rest|);
    }
  }

  /** The newest `k` decisions are weak. */
  ghost predicate EndsWeak(c: Control, k: nat, t: Tuning) {
    k <= |c.window| <= t.windowSize && forall i :: |c.window| - k <= i < |c.window| ==> !c.window[i]
  }

  lemma PushedEndsWeak(window: seq<bool>, k: nat, t: Tuning)
    requires k < t.windowSize && k <= |window| <= t.windowSize
    requires forall i :: |window| - k <= i < |window| ==> !window[i]
    ensures var next := Push(window, false, t);
      k + 1 <= |next| <= t.windowSize && forall i :: |next| - (k + 1) <= i < |next| ==> !next[i]
  {
  }

  lemma OneMoreWeak(c: Control, k: nat, t: Tuning)
    requires Sane(t) && EndsWeak(c, k, t) && k < t.windowSize && 0.0 <= c.threshold <= 1.0
    ensures var next := Recorded(c, false, t);
      EndsWeak(next, k + 1, t) && 0.0 <= next.threshold <= 1.0
  {
    PushedEndsWeak(c.window, k, t);
    AdjustedRange(c.(window := Push(c.window, false, t)), t);
  }

  lemma {:induction false} StretchBound(c: Control, qs: seq<Request>, k: nat, t: Tuning)
    requires Sane(t) && t.targetRate > 0.02 && EndsWeak(c, k, t) && k < t.windowSize && 0.0 <= c.threshold <= 1.0
    requires AllWeak(c, qs, t) && NoNegativeScore(qs)
    ensures |qs| <= t.windowSize - k + 49
    decreases |qs|
  {
    if qs == [] {
    } else {
      var next := Recorded(c, false, t);
      OneMoreWeak(c, k, t);
      if k + 1 < t.windowSize {
        StretchBound(next, qs[1..], k + 1, t);
      } else {
        WeakLowers(c, t);
        if |qs| > 1 {
          FullWindowBound(next, qs[1..], t);
        }
      }
    }
  }

  /** Strong routing always comes back: with a target rate above 0.02, whatever has happened before,
      at most windowSize + 49 requests in a row with scores of zero or more are routed weak. */
  lemma WeakStretchEnds(c: Control, qs: seq<Request>, t: Tuning)
    requires Sane(t) && t.targetRate > 0.02 && |c.window| <= t.windowSize && 0.0 <= c.threshold <= 1.0
    requires AllWeak(c, qs, t) && NoNegativeScore(qs)
    ensures |qs| <= t.windowSize + 49
  {
    StretchBound(c, qs, 0, t);
  }

  /** The target rate decides: at 0.02 or below the threshold never reaches zero again, and requests
      without any score are weak for as long as they come. */
  lemma {:induction false} LowTargetStaysWeak(c: Control, qs: seq<Request>, t: Tuning)
    requires Sane(t) && t.targetRate <= 0.02 && c.threshold > 0.0
    requires forall i :: 0 <= i < |qs| ==> qs[i].score <= 0.0 && !qs[i].cycle
    ensures AllWeak(c, qs, t)
    decreases |qs|
  {
    if qs == [] {
    } else {
      PositiveStays(c, t);
      LowTargetStaysWeak(Handle(c, qs[0], t), qs[1..], t);
    }
  }

  lemma RateNotNegative(window: seq<bool>)
    ensures Rate(window) >= 0.0
  {
    if window != [] {
      QuotientBelow(StrongCount(window) as real, |window| as real, 0.0);
    }
  }

  lemma PositiveStays(c: Control, t: Tuning)
    requires Sane(t) && t.targetRate <= 0.02 && c.threshold > 0.0
    ensures Recorded(c, false, t).threshold > 0.0
  {
    RateNotNegative(Push(c.window, false, t));
  }

  // ---- Runs of the router -------------------------------------------------

  lemma {:induction false} RangeKept(c: Control, qs: seq<Request>, t: Tuning)
    requires Sane(t) && |c.window| <= t.windowSize && 0.0 <= c.threshold <= 1.0
    ensures var d := HandleAll(c, qs, t);
      |d.window| <= t.windowSize && 0.0 <= d.threshold <= 1.0
    decreases |qs|
  {
    if qs == [] {
    } else {
      RangeKept(Handle(c, qs[0], t), qs[1..], t);
    }
  }

  /** The same in any run of the router: no stretch of weak lessons is longer. */
  lemma RouterWeakStretchEnds(s: Routing.State, steps: seq<Routing.Step>, e: Routing.Env, i: nat, j: nat)
    requires var t := e.settings.tuning; Sane(t) && t.targetRate > 0.02 && |s.control.window| <= t.windowSize
    requires 0.0 <= s.control.threshold <= 1.0
    ensures var t, qs := e.settings.tuning, Routing.Lessons(s, steps, e);
      && Routing.Run(s, steps, e).control == HandleAll(s.control, qs, t)
      && (i <= j <= |qs| && AllWeak(HandleAll(s.control, qs[..i], t), qs[i..j], t) && NoNegativeScore(qs[i..j]) ==>
            j - i <= t.windowSize + 49)
  {
    var t, qs := e.settings.tuning, Routing.Lessons(s, steps, e);
    Routing.RunControl(s, steps, e);
    if i <= j <= |qs| && AllWeak(HandleAll(s.control, qs[..i], t), qs[i..j], t) && NoNegativeScore(qs[i..j]) {
      RangeKept(s.control, qs[..i], t);
      WeakStretchEnds(HandleAll(s.control, qs[..i], t), qs[i..j], t);
    }
  }
}
