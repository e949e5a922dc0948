/**
 The feedback loop between the routing decision (internal/router/router.go) and the
 threshold controller: every recorded request feeds its own decision back into the window
 that decides whether the next one is judged strictly.
 */
module Escalation {
  import opened Common
  import opened Threshold

  datatype Impact = Low | Medium | High

  datatype Route = Weak | Strong

  const STRICT_PENALTY: real := 0.15

  function DecideRoute(score: real, impact: Impact, threshold: real, strict: bool, cycle: bool): Route {
    if cycle then Strong
    else if (if strict then score - STRICT_PENALTY else score) < threshold then Weak
    else if strict && impact != High then Weak
    else Strong
  }

  datatype Request = Request(score: real, impact: Impact, cycle: bool)

  /** One request from decision to adjustment, as it runs when nobody interferes. */
  function Decision(c: Control, q: Request, t: Tuning): Route {
    DecideRoute(q.score, q.impact, c.threshold, Strict(c, t), q.cycle)
  }

  function Recorded(c: Control, strong: bool, t: Tuning): Control {
    var pushed := c.(window := Push(c.window, strong, t));
    pushed.(threshold := Adjusted(pushed, t))
  }

  function Handle(c: Control, q: Request, t: Tuning): Control {
    Recorded(c, Decision(c, q, t) == Strong, t)
  }

  function HandleAll(c: Control, qs: seq<Request>, t: Tuning): Control
    decreases |qs|
  {
    if qs == [] then c else HandleAll(Handle(c, qs[0], t), qs[1..], t)
  }

  /** The same request against the controller object. */
  method HandleRequest(d: Dynamic, q: Request) returns (route: Route)
    requires d.Valid()
    modifies d
    ensures d.Valid()
    ensures var before := Control(old(d.threshold), old(d.window));
      && route == Decision(before, q, d.Setting())
      && Control(d.threshold, d.window) == Handle(before, q, d.Setting())
  {
    var strict := d.IsStrictMode();
    route := DecideRoute(q.score, q.impact, d.threshold, strict, q.cycle);
    d.AddDecision(route == Strong);
    var after, changed := d.Adjust();
  }

  /** Judges and heuristics cap the score at 1, and no cycle is involved. */
  predicate Ordinary(q: Request) {
    q.score <= 1.0 && !q.cycle
  }

  /** How many requests may be strong whatever the threshold. */
  function Forced(qs: seq<Request>): (n: nat)
    ensures n <= |qs|
  {
    if qs == [] then 0 else (if Ordinary(qs[0]) then 0 else 1) + Forced(qs[1..])
  }

  /** Every one of these requests is decided in strict mode. */
  predicate AllStrict(c: Control, qs: seq<Request>, t: Tuning)
    decreases |qs|
  {
    qs == [] || (Strict(c, t) && AllStrict(Handle(c, qs[0], t), qs[1..], t))
  }

  /** How many weak decisions are at the end of the window. */
  function TrailingWeak(window: seq<bool>): (n: nat)
    ensures n <= |window|
  {
    if window == [] || window[|window| - 1] then 0 else 1 + TrailingWeak(window[..|window| - 1])
  }

  lemma {:induction false} TrailingWeakDropFirst(window: seq<bool>)
    requires window != []
    ensures TrailingWeak(window[1..]) >= TrailingWeak(window) - 1
    ensures TrailingWeak(window) < |window| ==> TrailingWeak(window[1..]) == TrailingWeak(window)
  {
    if |window| == 1 || window[|window| - 1] {
    } else {
      var front := window[..|window| - 1];
      TrailingWeakDropFirst(front);
      assert window[1..][..|window| - 2] == front[1..];
    }
  }

  lemma {:induction false} AllWeak(window: seq<bool>)
    requires TrailingWeak(window) == |window|
    ensures StrongCount(window) == 0 && Rate(window) == 0.0
  {
    if window == [] {
    } else {
      AllWeak(window[..|window| - 1]);
    }
  }

  // ---- How long a window can stay above the target -------------------------

  /** The target share of a full window. */
  function Share(t: Tuning): (s: real)
    requires Sane(t)
    ensures s >= 0.0 && (t.targetRate < 1.0 ==> s < t.windowSize as real)
  {
    PartOf(t.targetRate, t.windowSize as real);
    t.targetRate * (t.windowSize as real)
  }

  lemma PartOf(rate: real, size: real)
    requires rate > 0.0 && size > 0.0
    ensures rate * size >= 0.0 && (rate < 1.0 ==> rate * size < size)
  {
    if rate < 1.0 {
      assert (1.0 - rate) * size > 0.0;
    }
  }

  /** How many strong decisions a full window can hold without being strict. */
  function Tolerated(t: Tuning): (a: nat)
    requires Sane(t)
    ensures a <= t.windowSize && (t.targetRate < 1.0 ==> a < t.windowSize)
  {
    if Share(t).Floor < t.windowSize then Share(t).Floor else t.windowSize
  }

  /** The default setting tolerates one strong decision in its window of twenty. */
  lemma DefaultTolerates()
    ensures Tolerated(Tuning(0.05, 20)) == 1
  {
    assert Share(Tuning(0.05, 20)) == 1.0;
  }

  lemma CountAbove(n: nat, size: nat, share: real)
    requires n <= size
    ensures n as real > share <==> n > if share.Floor < size then share.Floor else size
  {
  }

  lemma RateAboveShare(window: seq<bool>, t: Tuning)
    requires Sane(t) && |window| == t.windowSize
    ensures Rate(window) > t.targetRate <==> StrongCount(window) as real > Share(t)
  {
    QuotientAgainst(StrongCount(window) as real, t.windowSize as real, t.targetRate, Rate(window), Share(t));
  }

  lemma QuotientAgainst(a: real, n: real, target: real, quotient: real, share: real)
    requires n > 0.0 && quotient == a / n && share == target * n
    ensures quotient > target <==> a > share
  {
    QuotientAbove(a, n, target);
  }

  /** Strict mode in terms of counts. */
  lemma StrictMeansMore(c: Control, t: Tuning)
    requires Sane(t) && |c.window| <= t.windowSize
    ensures Strict(c, t) <==> |c.window| == t.windowSize && StrongCount(c.window) > Tolerated(t)
  {
    if |c.window| == t.windowSize {
      RateAboveShare(c.window, t);
      CountAbove(StrongCount(c.window), t.windowSize, Share(t));
    }
  }

  lemma {:induction false} StrongCountAppend(x: seq<bool>, y: seq<bool>)
    ensures StrongCount(x + y) == StrongCount(x) + StrongCount(y)
  {
    if y == [] {
      assert x + y == x;
    } else {
      StrongCountAppend(x, y[..|y| - 1]);
      assert (x + y)[..|x + y| - 1] == x + y[..|y| - 1];
    }
  }

  /** What is left of a window that ends in weak decisions has few strong ones. */
  lemma {:induction false} StrongBeforeTail(window: seq<bool>, k: nat)
    requires k <= |window|
    ensures var left := |window| - k - TrailingWeak(window);
      StrongCount(window[k..]) <= if left > 0 then left else 0
    decreases |window|
  {
    if k == |window| {
    } else if window[|window| - 1] {
    } else {
      var n := |window| - 1;
      StrongBeforeTail(window[..n], k);
      assert window[k..][..n - k] == window[..n][k..];
    }
  }

  /** By how many decisions `m` strong ones can prolong the flushing of a window: every a + 1 of
      them fill it anew, and those left over count for themselves. */
  function Prolonged(m: nat, a: nat, w: nat): nat {
    if m <= a then m else w + Prolonged(m - (a + 1), a, w)
  }

  lemma {:induction false} ProlongedIs(q: nat, s: nat, a: nat, w: nat)
    requires s <= a
    ensures Prolonged(q * (a + 1) + s, a, w) == q * w + s
  {
    if q == 0 {
    } else {
      ProlongedIs(q - 1, s, a, w);
      assert q * (a + 1) == (q - 1) * (a + 1) + (a + 1);
      assert q * w == (q - 1) * w + w;
    }
  }

  lemma {:induction false} ProlongedMonotone(m: nat, n: nat, a: nat, w: nat)
    requires m <= n && a <= w
    ensures Prolonged(m, a, w) <= Prolonged(n, a, w)
    decreases n
  {
    if n <= a {
    } else if m <= a {
    } else {
      ProlongedMonotone(m - (a + 1), n - (a + 1), a, w);
    }
  }

  /** The window after `k` of the decisions. */
  function Slid(window: seq<bool>, ds: seq<bool>, k: nat): (s: seq<bool>)
    requires k <= |ds|
    ensures |s| == |window|
  {
    (window + ds)[k..k + |window|]
  }

  lemma SlidInit(window: seq<bool>, ds: seq<bool>, n: nat, k: nat)
    requires k <= n <= |ds|
    ensures Slid(window, ds[..n], k) == Slid(window, ds, k)
  {
    var all, part := window + ds, window + ds[..n];
    assert part == all[..|window| + n];
  }

  lemma SlidParts(window: seq<bool>, ds: seq<bool>, k: nat)
    requires k <= |ds|
    ensures k < |window| ==> Slid(window, ds, k) == window[k..] + ds[..k]
    ensures k >= |window| ==> Slid(window, ds, k) == ds[k - |window|..k]
  {
  }

  lemma SlidNext(window: seq<bool>, ds: seq<bool>, next: seq<bool>, k: nat)
    requires window != [] && 1 <= k <= |ds| && next == window[1..] + [ds[0]]
    ensures Slid(window, ds, k) == Slid(next, ds[1..], k - 1)
  {
    assert next + ds[1..] == (window + ds)[1..];
  }

  /** As long as there is a next decision, the window holds more than `a` strong ones. */
  ghost predicate Over(window: seq<bool>, ds: seq<bool>, a: nat) {
    forall k :: 0 <= k < |ds| ==> StrongCount(Slid(window, ds, k)) > a
  }

  lemma OverInit(window: seq<bool>, ds: seq<bool>, n: nat, a: nat)
    requires Over(window, ds, a) && n <= |ds|
    ensures Over(window, ds[..n], a)
  {
    forall k | 0 <= k < n ensures StrongCount(Slid(window, ds[..n], k)) > a {
      SlidInit(window, ds, n, k);
    }
  }

  lemma LastWindow(window: seq<bool>, ds: seq<bool>, a: nat)
    requires Over(window, ds, a) && ds != []
    ensures var n, w := |ds| - 1, |window|;
      if n < w then StrongCount(window[n..]) + StrongCount(ds[..n]) > a
      else StrongCount(ds[n - w..n]) > a
  {
    var n := |ds| - 1;
    assert StrongCount(Slid(window, ds, n)) > a;
    SlidParts(window, ds, n);
    if n < |window| {
      StrongCountAppend(window[n..], ds[..n]);
    }
  }

  lemma FirstWindow(window: seq<bool>, ds: seq<bool>, a: nat)
    requires Over(window, ds, a) && ds != []
    ensures StrongCount(window) > a && TrailingWeak(window) + a < |window|
  {
    assert StrongCount(Slid(window, ds, 0)) > a;
    assert Slid(window, ds, 0) == window;
    EnoughStrong(window, a);
  }

  lemma EnoughStrong(window: seq<bool>, a: nat)
    requires StrongCount(window) > a
    ensures TrailingWeak(window) + a < |window|
  {
    StrongBeforeTail(window, 0);
    assert window[0..] == window;
  }

  /** A stretch no longer than the window. */
  lemma ShortSlide(window: seq<bool>, ds: seq<bool>, m: nat, a: nat)
    requires Over(window, ds, a) && 0 < |ds| <= |window| && m == StrongCount(ds[..|ds| - 1])
    ensures |ds| <= |window| - TrailingWeak(window) - a + Prolonged(m, a, |window|)
  {
    LastWindow(window, ds, a);
    FirstWindow(window, ds, a);
    StrongBeforeTail(window, |ds| - 1);
  }

  /** In a longer one the newest window's worth of decisions has more than `a` strong ones. */
  lemma LongSlide(window: seq<bool>, ds: seq<bool>, m: nat, a: nat) returns (n: nat)
    requires Over(window, ds, a) && |ds| > |window| && m == StrongCount(ds[..|ds| - 1])
    ensures n == |ds| - |window| && Over(window, ds[..n], a)
    ensures StrongCount(ds[..n - 1]) + a + 1 <= m && ds[..n][..n - 1] == ds[..n - 1]
  {
    n := |ds| - |window|;
    LastWindow(window, ds, a);
    OverInit(window, ds, n, a);
    SplitCount(ds, n - 1, |ds| - 1);
  }

  /** The sliding window bound: so many decisions can follow each other before the window is
      back at `a` strong ones, when `m` of them are strong. */
  lemma {:induction false} SlidingBound(window: seq<bool>, ds: seq<bool>, m: nat, a: nat)
    requires Over(window, ds, a) && ds != [] && m == StrongCount(ds[..|ds| - 1])
    ensures |ds| <= |window| - TrailingWeak(window) - a + Prolonged(m, a, |window|)
    decreases |ds|
  {
    FirstWindow(window, ds, a);
    if |ds| <= |window| {
      ShortSlide(window, ds, m, a);
    } else {
      var n := LongSlide(window, ds, m, a);
      var before := StrongCount(ds[..n - 1]);
      SlidingBound(window, ds[..n], before, a);
      ProlongedMonotone(before + (a + 1), m, a, |window|);
    }
  }

  lemma SplitCount(ds: seq<bool>, i: nat, j: nat)
    requires i <= j <= |ds|
    ensures StrongCount(ds[..j]) == StrongCount(ds[..i]) + StrongCount(ds[i..j])
  {
    assert ds[..j] == ds[..i] + ds[i..j];
    StrongCountAppend(ds[..i], ds[i..j]);
  }

  lemma SlidingAtMost(window: seq<bool>, ds: seq<bool>, m: nat, a: nat)
    requires Over(window, ds, a) && ds != [] && StrongCount(ds) <= m
    ensures |ds| <= |window| - TrailingWeak(window) - a + Prolonged(m, a, |window|)
  {
    var early := StrongCount(ds[..|ds| - 1]);
    SlidingBound(window, ds, early, a);
    FirstWindow(window, ds, a);
    ProlongedMonotone(early, m, a, |window|);
  }

  // ---- Strict mode over requests -------------------------------------------

  /** What a run of requests records. */
  function Decisions(c: Control, qs: seq<Request>, t: Tuning): (ds: seq<bool>)
    ensures |ds| == |qs|
    decreases |qs|
  {
    if qs == [] then [] else [Decision(c, qs[0], t) == Strong] + Decisions(Handle(c, qs[0], t), qs[1..], t)
  }

  lemma {:induction false} StrictIsOver(c: Control, qs: seq<Request>, t: Tuning)
    requires Sane(t) && |c.window| == t.windowSize && AllStrict(c, qs, t)
    ensures Over(c.window, Decisions(c, qs, t), Tolerated(t))
    decreases |qs|
  {
    if qs == [] {
    } else {
      var next, ds := Handle(c, qs[0], t), Decisions(c, qs, t);
      StrictMeansMore(c, t);
      StrictIsOver(next, qs[1..], t);
      OneMoreOver(c.window, ds, next.window, Tolerated(t));
    }
  }

  lemma OneMoreOver(window: seq<bool>, ds: seq<bool>, next: seq<bool>, a: nat)
    requires window != [] && ds != [] && next == window[1..] + [ds[0]]
    requires StrongCount(window) > a && Over(next, ds[1..], a)
    ensures Over(window, ds, a)
  {
    forall k | 0 <= k < |ds| ensures StrongCount(Slid(window, ds, k)) > a {
      if k == 0 {
        assert Slid(window, ds, 0) == window;
      } else {
        SlidNext(window, ds, next, k);
      }
    }
  }

  /** The threshold never falls back into reach while strict mode lasts. */
  lemma OutOfReach(c: Control, strong: bool, t: Tuning)
    requires c.threshold > 0.85 && Strict(Recorded(c, strong, t), t)
    ensures Recorded(c, strong, t).threshold > 0.85
  {
  }

  /** With the threshold out of reach only forced requests are strong in strict mode. */
  lemma {:induction false} FlushDecisions(c: Control, qs: seq<Request>, t: Tuning)
    requires c.threshold > 0.85 && AllStrict(c, qs, t)
    ensures StrongCount(Decisions(c, qs, t)) <= Forced(qs)
    decreases |qs|
  {
    if qs == [] {
    } else {
      var next, first := Handle(c, qs[0], t), [Decision(c, qs[0], t) == Strong];
      if |qs| > 1 {
        assert Strict(next, t);
        OutOfReach(c, first[0], t);
        FlushDecisions(next, qs[1..], t);
      }
      StrongCountAppend(first, Decisions(next, qs[1..], t));
      assert first[..0] == [];
    }
  }

  /** With the threshold out of reach strict decisions are weak and flush the window, down to
      the strong decisions it tolerates, and forced ones fill it again. */
  lemma FlushBound(c: Control, qs: seq<Request>, t: Tuning)
    requires Sane(t) && |c.window| <= t.windowSize && c.threshold > 0.85 && AllStrict(c, qs, t)
    ensures var w, a := t.windowSize, Tolerated(t);
      qs != [] ==> |qs| <= w - TrailingWeak(c.window) - a + Prolonged(Forced(qs), a, w)
  {
    if qs != [] {
      StrictMeansMore(c, t);
      StrictIsOver(c, qs, t);
      FlushDecisions(c, qs, t);
      SlidingAtMost(c.window, Decisions(c, qs, t), Forced(qs), Tolerated(t));
    }
  }

  /** How many strict steps of 0.01 until the threshold passes 0.85. */
  function StepsToCeiling(threshold: real): nat {
    if threshold > 0.85 then 0 else ((0.85 - threshold) * 100.0).Floor + 1
  }

  lemma CeilingStep(threshold: real)
    requires threshold <= 0.85
    ensures StepsToCeiling(threshold + 0.01) == StepsToCeiling(threshold) - 1
  {
    var x := (0.85 - threshold) * 100.0;
    assert (0.85 - (threshold + 0.01)) * 100.0 == x - 1.0;
    assert (x - 1.0).Floor == x.Floor - 1;
  }

  lemma RaisedStep(c: Control, strong: bool, t: Tuning)
    requires |c.window| == t.windowSize >= 1 && c.threshold <= 0.85
    requires Strict(Recorded(c, strong, t), t)
    ensures Recorded(c, strong, t).threshold == c.threshold + 0.01
    ensures |Recorded(c, strong, t).window| == t.windowSize
  {
  }

  /** A strict request followed by another one raises the threshold. */
  lemma StrictHead(c: Control, qs: seq<Request>, t: Tuning)
    requires Sane(t) && |c.window| <= t.windowSize && c.threshold <= 0.85
    requires |qs| > 1 && AllStrict(c, qs, t)
    ensures var next := Handle(c, qs[0], t);
      AllStrict(next, qs[1..], t) && |next.window| == t.windowSize && next.threshold == c.threshold + 0.01
  {
    assert AllStrict(Handle(c, qs[0], t), qs[1..], t);
    RaisedStep(c, Decision(c, qs[0], t) == Strong, t);
  }

  /** The ranking argument: each strict step brings the threshold nearer to where no score can
      reach it, and from then on the window is flushed. */
  lemma {:induction false} StrictBound(c: Control, qs: seq<Request>, t: Tuning)
    requires Sane(t) && |c.window| <= t.windowSize && AllStrict(c, qs, t)
    ensures var w, a := t.windowSize, Tolerated(t);
      |qs| <= StepsToCeiling(c.threshold) + (w - a) + Prolonged(Forced(qs), a, w)
    decreases |qs|
  {
    if qs == [] {
    } else if c.threshold > 0.85 {
      FlushBound(c, qs, t);
    } else {
      StrictMeansMore(c, t);
      if |qs| > 1 {
        StrictHead(c, qs, t);
        StrictBound(Handle(c, qs[0], t), qs[1..], t);
        CeilingStep(c.threshold);
        ProlongedMonotone(Forced(qs[1..]), Forced(qs), Tolerated(t), t.windowSize);
      }
    }
  }

  // ---- Whole runs ---------------------------------------------------------

  lemma {:induction false} HandleAllSplit(c: Control, qs: seq<Request>, i: nat, t: Tuning)
    requires i < |qs|
    ensures HandleAll(c, qs[..i + 1], t) == Handle(HandleAll(c, qs[..i], t), qs[i], t)
    decreases |qs|
  {
    if i == 0 {
      assert qs[..1] == [qs[0]] && qs[..0] == [];
      assert [qs[0]][1..] == [];
    } else {
      HandleAllSplit(Handle(c, qs[0], t), qs[1..], i - 1, t);
      assert qs[..i + 1][1..] == qs[1..][..i];
      assert qs[..i][1..] == qs[1..][..i - 1];
    }
  }

  ghost predicate StrictBetween(c: Control, qs: seq<Request>, i: nat, j: nat, t: Tuning)
    requires i <= j <= |qs|
  {
    forall k :: i <= k < j ==> Strict(HandleAll(c, qs[..k], t), t)
  }

  lemma {:induction false} BetweenIsAll(c: Control, qs: seq<Request>, i: nat, j: nat, t: Tuning)
    requires i <= j <= |qs| && StrictBetween(c, qs, i, j, t)
    ensures AllStrict(HandleAll(c, qs[..i], t), qs[i..j], t)
    decreases j - i
  {
    if i == j {
    } else {
      BetweenIsAll(c, qs, i + 1, j, t);
      HandleAllSplit(c, qs, i, t);
      assert qs[i..j][1..] == qs[i + 1..j];
      assert Strict(HandleAll(c, qs[..i], t), t);
    }
  }

  lemma {:induction false} HandleAllShape(c: Control, qs: seq<Request>, i: nat, t: Tuning)
    requires i <= |qs| && Sane(t) && |c.window| <= t.windowSize && c.threshold >= 0.0
    ensures var d := HandleAll(c, qs[..i], t); |d.window| <= t.windowSize && d.threshold >= 0.0
  {
    if i == 0 {
      assert qs[..0] == [];
    } else {
      HandleAllShape(c, qs, i - 1, t);
      HandleAllSplit(c, qs, i - 1, t);
    }
  }

  /** Whoever is in strict mode after at least one request has a raised threshold. */
  lemma RaisedInStrict(c: Control, strong: bool, t: Tuning)
    requires c.threshold >= 0.0 && Strict(Recorded(c, strong, t), t)
    ensures StepsToCeiling(Recorded(c, strong, t).threshold) <= 85
  {
    var x := Recorded(c, strong, t).threshold;
    assert x >= 0.01;
    if x <= 0.85 {
      assert (0.85 - x) * 100.0 <= 84.0;
    }
  }

  /**
   Strict mode always ends: in any run of requests handled one after the other, starting
   outside strict mode, at most 85 + windowSize - a consecutive requests are decided strictly,
   where `a` strong decisions are the most a full window tolerates. Forced requests among them,
   by a cycle or a score above 1, prolong this by windowSize for every a + 1 of them.
   */
  lemma StrictModeEnds(c: Control, qs: seq<Request>, i: nat, j: nat, t: Tuning)
    requires Sane(t) && |c.window| <= t.windowSize && c.threshold >= 0.0 && !Strict(c, t)
    requires i <= j <= |qs| && StrictBetween(c, qs, i, j, t)
    ensures var w, a := t.windowSize, Tolerated(t);
      j - i <= 85 + (w - a) + Prolonged(Forced(qs[i..j]), a, w)
  {
    if i < j {
      assert Strict(HandleAll(c, qs[..i], t), t);
      assert qs[..0] == [];
      HandleAllShape(c, qs, i - 1, t);
      HandleAllShape(c, qs, i, t);
      HandleAllSplit(c, qs, i - 1, t);
      var before := HandleAll(c, qs[..i - 1], t);
      RaisedInStrict(before, Decision(before, qs[i - 1], t) == Strong, t);
      BetweenIsAll(c, qs, i, j, t);
      StrictBound(HandleAll(c, qs[..i], t), qs[i..j], t);
    }
  }

  // ---- Forced requests prolong strict mode, and the bound is reached -------

  function Copies(b: bool, n: nat): (s: seq<bool>)
    ensures |s| == n && forall i :: 0 <= i < n ==> s[i] == b
  {
    seq(n, _ => b)
  }

  lemma {:induction false} CountMixed(strong: nat, weak: nat)
    ensures StrongCount(Copies(true, strong) + Copies(false, weak)) == strong
    decreases strong + weak
  {
    var w := Copies(true, strong) + Copies(false, weak);
    if weak > 0 {
      CountMixed(strong, weak - 1);
      assert w[..|w| - 1] == Copies(true, strong) + Copies(false, weak - 1);
    } else if strong > 0 {
      CountMixed(strong - 1, 0);
      assert w[..|w| - 1] == Copies(true, strong - 1) + Copies(false, 0);
    } else {
      assert w == [];
    }
  }

  /** No bound holds without counting the forced requests: those of cycle detection keep strict
      mode on for as long as they come. */
  lemma {:induction false} CyclesKeepStrict(c: Control, qs: seq<Request>, t: Tuning)
    requires Sane(t) && t.targetRate < 1.0 && c.window == Copies(true, t.windowSize)
    requires forall i :: 0 <= i < |qs| ==> qs[i].cycle
    ensures AllStrict(c, qs, t)
    decreases |qs|
  {
    if qs == [] {
    } else {
      CountMixed(t.windowSize, 0);
      assert Copies(true, t.windowSize) + Copies(false, 0) == c.window;
      RateAbove(c.window, t.targetRate);
      assert StrongCount(c.window) as real > t.targetRate * (t.windowSize as real);
      var next := Handle(c, qs[0], t);
      assert next.window == Copies(true, t.windowSize);
      CyclesKeepStrict(next, qs[1..], t);
    }
  }

  const DEMANDING: Request := Request(1.0, High, false)

  const REPEATED: Request := Request(1.0, High, true)

  /** When to force a strong decision while the window is flushed: at the last a + 1 places of
      each window's length, the latest at which there is still one too many. */
  predicate Kick(k: nat, a: nat, w: nat)
    requires a < w
  {
    if k < w then k + a + 1 >= w else Kick(k - w, a, w)
  }

  function Kicks(n: nat, a: nat, w: nat): (qs: seq<Request>)
    requires a < w
    ensures |qs| == n
  {
    seq(n, k requires 0 <= k < n => if Kick(k, a, w) then REPEATED else DEMANDING)
  }

  /** The run that stays strict as long as `m` forced requests can make it: the window fills, 85
      strict steps raise the threshold past every score, and then the strong decisions leave. */
  function LongRun(m: nat, a: nat, w: nat): seq<Request>
    requires a < w
  {
    seq(w + 85, _ => DEMANDING) + Kicks(w - a - 1 + Prolonged(m, a, w), a, w) + [DEMANDING]
  }

  /** The i-th decision of the run. */
  predicate Marked(i: nat, a: nat, w: nat)
    requires a < w
  {
    i < w + 85 || Kick(i - w - 85, a, w)
  }

  function MarkedWindow(n: nat, a: nat, w: nat): (s: seq<bool>)
    requires a < w
  {
    var size := if n < w then n else w;
    seq(size, j requires 0 <= j < size => Marked(n - size + j, a, w))
  }

  function LongThreshold(n: nat, w: nat): real {
    var raised := 0.01 * ((n - w + 1) as real);
    if n < w then 0.0 else if raised > 0.99 then 0.99 else raised
  }

  lemma {:induction false} ForcedAppend(x: seq<Request>, y: seq<Request>)
    ensures Forced(x + y) == Forced(x) + Forced(y)
    decreases |x|
  {
    if x == [] {
      assert x + y == y;
    } else {
      assert (x + y)[0] == x[0] && (x + y)[1..] == x[1..] + y;
      ForcedAppend(x[1..], y);
    }
  }

  lemma {:induction false} KicksInWindow(n: nat, a: nat, w: nat)
    requires a < w && n <= w
    ensures Forced(Kicks(n, a, w)) == if n + a + 1 <= w then 0 else n + a + 1 - w
  {
    if n == 0 {
    } else {
      KicksInWindow(n - 1, a, w);
      var last := if Kick(n - 1, a, w) then REPEATED else DEMANDING;
      assert Kicks(n, a, w) == Kicks(n - 1, a, w) + [last];
      ForcedAppend(Kicks(n - 1, a, w), [last]);
      assert [last][1..] == [];
    }
  }

  lemma {:induction false} KicksCount(m: nat, a: nat, w: nat)
    requires a < w
    ensures Forced(Kicks(w - a - 1 + Prolonged(m, a, w), a, w)) == m
  {
    if m <= a {
      KicksInWindow(w - a - 1 + m, a, w);
    } else {
      var rest := w - a - 1 + Prolonged(m - (a + 1), a, w);
      KicksCount(m - (a + 1), a, w);
      KicksInWindow(w, a, w);
      KicksRepeat(rest, a, w);
    }
  }

  lemma KicksRepeat(n: nat, a: nat, w: nat)
    requires a < w
    ensures Forced(Kicks(w + n, a, w)) == Forced(Kicks(w, a, w)) + Forced(Kicks(n, a, w))
  {
    assert Kicks(w + n, a, w) == Kicks(w, a, w) + Kicks(n, a, w);
    ForcedAppend(Kicks(w, a, w), Kicks(n, a, w));
  }

  lemma WindowMoves(n: nat, a: nat, w: nat)
    requires a < w
    ensures MarkedWindow(n + 1, a, w)
         == (if n < w then MarkedWindow(n, a, w) else MarkedWindow(n, a, w)[1..]) + [Marked(n, a, w)]
  {
  }

  lemma CountMoves(window: seq<bool>, next: seq<bool>, d: bool)
    requires window != [] && next == window[1..] + [d]
    ensures StrongCount(next) == StrongCount(window) - (if window[0] then 1 else 0) + (if d then 1 else 0)
  {
    assert window == [window[0]] + window[1..];
    StrongCountAppend([window[0]], window[1..]);
    StrongCountAppend(window[1..], [d]);
    assert [window[0]][..0] == [] && [d][..0] == [];
  }

  /** Filling and raising keep the window strong; then it falls to a + 1 and stays there. */
  lemma {:induction false} MarkedCount(n: nat, a: nat, w: nat)
    requires a < w
    ensures StrongCount(MarkedWindow(n, a, w)) ==
      if n < w then n else if n <= w + 85 then w else if n - 85 + a < 2 * w then 2 * w + 85 - n else a + 1
  {
    if n == 0 {
    } else {
      MarkedCount(n - 1, a, w);
      MarkedCountMoves(n - 1, a, w);
    }
  }

  lemma MarkedCountMoves(n: nat, a: nat, w: nat)
    requires a < w
    ensures StrongCount(MarkedWindow(n + 1, a, w)) == StrongCount(MarkedWindow(n, a, w))
      + (if Marked(n, a, w) then 1 else 0) - (if n >= w && Marked(n - w, a, w) then 1 else 0)
  {
    var before, d := MarkedWindow(n, a, w), Marked(n, a, w);
    WindowMoves(n, a, w);
    if n < w {
      StrongCountAppend(before, [d]);
      assert [d][..0] == [];
    } else {
      CountMoves(before, MarkedWindow(n + 1, a, w), d);
      assert before[0] == Marked(n - w, a, w);
    }
  }

  function LongState(n: nat, a: nat, w: nat): Control
    requires a < w
  {
    Control(LongThreshold(n, w), MarkedWindow(n, a, w))
  }

  lemma LongStrict(n: nat, t: Tuning)
    requires Sane(t) && t.targetRate < 1.0
    ensures Strict(LongState(n, Tolerated(t), t.windowSize), t) <==> n >= t.windowSize
  {
    MarkedCount(n, Tolerated(t), t.windowSize);
    StrictMeansMore(LongState(n, Tolerated(t), t.windowSize), t);
  }

  lemma LongDecision(n: nat, q: Request, t: Tuning)
    requires Sane(t) && t.targetRate < 1.0
    requires var a, w := Tolerated(t), t.windowSize;
      q == if n >= w + 85 && Kick(n - w - 85, a, w) then REPEATED else DEMANDING
    ensures Decision(LongState(n, Tolerated(t), t.windowSize), q, t) == Strong
            <==> Marked(n, Tolerated(t), t.windowSize)
  {
    LongStrict(n, t);
  }

  lemma LongStep(n: nat, q: Request, t: Tuning)
    requires Sane(t) && t.targetRate < 1.0
    requires var a, w := Tolerated(t), t.windowSize;
      q == if n >= w + 85 && Kick(n - w - 85, a, w) then REPEATED else DEMANDING
    ensures var a, w := Tolerated(t), t.windowSize; Handle(LongState(n, a, w), q, t) == LongState(n + 1, a, w)
  {
    var a, w := Tolerated(t), t.windowSize;
    LongDecision(n, q, t);
    WindowMoves(n, a, w);
    var pushed := Control(LongThreshold(n, w), MarkedWindow(n + 1, a, w));
    assert Push(MarkedWindow(n, a, w), Marked(n, a, w), t) == pushed.window;
    LongStrict(n + 1, t);
    LongAdjusted(n, pushed, t);
  }

  lemma LongAdjusted(n: nat, pushed: Control, t: Tuning)
    requires Sane(t) && pushed.threshold == LongThreshold(n, t.windowSize)
    requires |pushed.window| == if n + 1 < t.windowSize then n + 1 else t.windowSize
    requires n + 1 >= t.windowSize ==> Rate(pushed.window) > t.targetRate
    ensures Adjusted(pushed, t) == LongThreshold(n + 1, t.windowSize)
  {
    assert 0.01 * ((n + 1 - t.windowSize + 1) as real) == 0.01 * ((n - t.windowSize + 1) as real) + 0.01;
  }

  lemma {:induction false} LongStates(m: nat, n: nat, t: Tuning)
    requires Sane(t) && t.targetRate < 1.0
    requires n < |LongRun(m, Tolerated(t), t.windowSize)|
    ensures var a, w := Tolerated(t), t.windowSize;
      HandleAll(Control(0.0, []), LongRun(m, a, w)[..n], t) == LongState(n, a, w)
  {
    var qs := LongRun(m, Tolerated(t), t.windowSize);
    if n == 0 {
      assert qs[..0] == [];
    } else {
      LongStates(m, n - 1, t);
      HandleAllSplit(Control(0.0, []), qs, n - 1, t);
      LongStep(n - 1, qs[n - 1], t);
    }
  }

  /** The bound is exact for every target below one and every number of forced requests: a
      controller reset at threshold 0 handles that many requests in a row in strict mode. */
  lemma StrictBoundReached(m: nat, t: Tuning)
    requires Sane(t) && t.targetRate < 1.0
    ensures var w, a := t.windowSize, Tolerated(t);
      var qs := LongRun(m, a, w);
      && StrictBetween(Control(0.0, []), qs, w, |qs|, t)
      && |qs| - w == 85 + (w - a) + Prolonged(m, a, w) && Forced(qs[w..]) == m
  {
    var w, a := t.windowSize, Tolerated(t);
    var qs := LongRun(m, a, w);
    forall k | w <= k < |qs| ensures Strict(HandleAll(Control(0.0, []), qs[..k], t), t) {
      LongStates(m, k, t);
      LongStrict(k, t);
    }
    LongRunForced(m, a, w);
  }

  lemma LongRunForced(m: nat, a: nat, w: nat)
    requires a < w
    ensures Forced(LongRun(m, a, w)[w..]) == m
  {
    var kicks := Kicks(w - a - 1 + Prolonged(m, a, w), a, w);
    assert LongRun(m, a, w)[w..] == seq(85, _ => DEMANDING) + kicks + [DEMANDING];
    ForcedAppend(seq(85, _ => DEMANDING) + kicks, [DEMANDING]);
    ForcedAppend(seq(85, _ => DEMANDING), kicks);
    NoneForced(seq(85, _ => DEMANDING));
    NoneForced([DEMANDING]);
    KicksCount(m, a, w);
  }

  lemma {:induction false} NoneForced(qs: seq<Request>)
    requires forall i :: 0 <= i < |qs| ==> qs[i] == DEMANDING
    ensures Forced(qs) == 0
  {
    if qs == [] {
    } else {
      NoneForced(qs[1..]);
    }
  }
}
