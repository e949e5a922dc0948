/**
 How recorded routes move the cache's answer (internal/semantic/cache.go) and how the router
 feeds the answer back (internal/router/router.go): a confident answer is the majority of the
 calls, it takes many contrary calls to turn it, and a confident "weak" confirms itself.
 */
module RouteMemory {
  import opened Common
  import opened Escalation
  import opened SemanticCache

  // ---- Confidence ---------------------------------------------------------

  lemma QuotientAtLeast(a: real, n: real, c: real)
    requires n > 0.0
    ensures a / n >= c <==> a >= c * n
  {
    var r := a / n;
    assert a == r * n;
    if r >= c {
      assert (r - c) * n >= 0.0;
    } else {
      assert (c - r) * n > 0.0;
    }
  }

  /** A confidence is zero only without calls, and otherwise between a half and one. */
  lemma ConfidenceRange(weak: nat, strong: nat)
    ensures weak + strong == 0 ==> Confidence(weak, strong) == 0.0
    ensures weak + strong > 0 ==> 0.5 <= Confidence(weak, strong) <= 1.0
    ensures Confidence(weak, strong) == 1.0 <==> weak + strong > 0 && (weak == 0 || strong == 0)
  {
    if weak + strong > 0 {
      var top := (if strong > weak then strong else weak) as real;
      var n := (weak + strong) as real;
      QuotientAtLeast(top, n, 0.5);
      QuotientAtLeast(top, n, 1.0);
      QuotientAtMost(top, n, 1.0);
    }
  }

  /** When exactly the cache answers with a route: enough samples, and that route's share of
      the calls both a strict majority and at least the configured confidence. */
  lemma AnswerMeansShare(s: Stats, p: Policy)
    requires s.weak + s.strong > 0
    ensures var n := (s.weak + s.strong) as real;
      && (AnswerOf(s, p).route == Some(Weak) <==>
            s.total >= p.minSamples && s.weak > s.strong && s.weak as real >= p.confidence * n)
      && (AnswerOf(s, p).route == Some(Strong) <==>
            s.total >= p.minSamples && s.strong > s.weak && s.strong as real >= p.confidence * n)
  {
    var top := (if s.strong > s.weak then s.strong else s.weak) as real;
    QuotientAtLeast(top, (s.weak + s.strong) as real, p.confidence);
  }

  // ---- Flip distance ------------------------------------------------------

  /** The calls recorded on one entry between two questions, with their times. */
  function BumpAll(s: Stats, calls: seq<(Call, int)>): Stats
    decreases |calls|
  {
    if calls == [] then s else BumpAll(Bump(s, calls[0].0, calls[0].1), calls[1..])
  }

  function CallsTo(route: Route, calls: seq<(Call, int)>): nat {
    if calls == [] then 0 else (if calls[0].0.route == route then 1 else 0) + CallsTo(route, calls[1..])
  }

  lemma {:induction false} BumpAllCounts(s: Stats, calls: seq<(Call, int)>)
    ensures BumpAll(s, calls).strong == s.strong + CallsTo(Strong, calls)
    ensures BumpAll(s, calls).weak == s.weak + CallsTo(Weak, calls)
    ensures BumpAll(s, calls).total == s.total + |calls|
    ensures |calls| == CallsTo(Strong, calls) + CallsTo(Weak, calls)
    decreases |calls|
  {
    if calls == [] {
    } else {
      BumpAllCounts(Bump(s, calls[0].0, calls[0].1), calls[1..]);
    }
  }

  lemma ProductDifference(x: real, y: real, c: real, d: real)
    ensures c * (d * x) - d * (c * y) == (x - y) * (c * d)
  {
  }

  lemma SquareDifference(a: real, c: real, d: real)
    requires c + d == 1.0
    ensures c * (c * a) - d * (d * a) == a * (2.0 * c - 1.0)
  {
    assert d * a == a - c * a;
    assert d * (d * a) == d * a - c * (d * a);
    assert c * (d * a) == c * a - c * (c * a);
  }

  /** `a` of `a + b` reaches the share: in terms of the two counts. */
  lemma ShareSplit(a: real, b: real, c: real, d: real)
    requires c + d == 1.0 && a >= c * (a + b)
    ensures d * a >= c * b
  {
    assert c * (a + b) == c * a + c * b;
    assert d * a == a - c * a;
  }

  lemma ScaledShares(a: real, b: real, a': real, b': real, c: real, d: real)
    requires 0.0 <= a <= a' && 0.0 < c && 0.0 < d && c + d == 1.0
    requires a >= c * (a + b) && b' >= c * (b' + a')
    ensures c * (d * b') >= c * (c * a)
    ensures d * (d * a) >= d * (c * b)
  {
    ShareSplit(a, b, c, d);
    ShareSplit(b', a', c, d);
    Scale(a', a, c);
    Scale(d * b', c * a, c);
    Scale(d * a, c * b, d);
  }

  lemma Compare(u: real, v: real, w: real, x: real, left: real, right: real)
    requires u >= v && w >= x && u - x == left && v - w == right
    ensures left >= right
  {
  }

  /** The nonlinear heart: `a` of `a + b` and later `b'` of `a' + b'` both reach the share. */
  lemma TurnOver(a: real, b: real, a': real, b': real, c: real, d: real)
    requires 0.0 <= a <= a' && 0.0 < c && 0.0 < d && c + d == 1.0
    requires a >= c * (a + b) && b' >= c * (b' + a')
    ensures (b' - b) * (c * d) >= a * (2.0 * c - 1.0)
  {
    ScaledShares(a, b, a', b', c, d);
    ProductDifference(b', b, c, d);
    SquareDifference(a, c, d);
    Compare(c * (d * b'), c * (c * a), d * (d * a), d * (c * b), (b' - b) * (c * d), a * (2.0 * c - 1.0));
  }

  lemma Scale(x: real, y: real, k: real)
    requires x >= y && k >= 0.0
    ensures k * x >= k * y
  {
    assert k * (x - y) >= 0.0;
  }

  /** Two shares of the same calls, first in favour of one side and then of the other. */
  lemma FlipCost(a: nat, b: nat, a': nat, b': nat, n: nat, c: real)
    requires a <= a' && b' == b + n && 0.0 < c < 1.0
    requires a as real >= c * (a as real + b as real)
    requires b' as real >= c * (b' as real + a' as real)
    ensures n as real * (c * (1.0 - c)) >= a as real * (2.0 * c - 1.0)
  {
    TurnOver(a as real, b as real, a' as real, b' as real, c, 1.0 - c);
    assert b' as real - b as real == n as real;
  }

  lemma WeakShare(s: Stats, p: Policy)
    requires AnswerOf(s, p).route == Some(Weak)
    ensures s.weak as real >= p.confidence * (s.weak as real + s.strong as real)
  {
    AnswerMeansShare(s, p);
  }

  lemma StrongShare(s: Stats, p: Policy)
    requires AnswerOf(s, p).route == Some(Strong)
    ensures s.strong as real >= p.confidence * (s.strong as real + s.weak as real)
  {
    AnswerMeansShare(s, p);
  }

  lemma WeakToStrong(s: Stats, t: Stats, n: nat, p: Policy)
    requires 0.0 < p.confidence < 1.0 && s.weak <= t.weak && t.strong == s.strong + n
    requires AnswerOf(s, p).route == Some(Weak) && AnswerOf(t, p).route == Some(Strong)
    ensures n as real * (p.confidence * (1.0 - p.confidence)) >= s.weak as real * (2.0 * p.confidence - 1.0)
  {
    WeakShare(s, p);
    StrongShare(t, p);
    FlipCost(s.weak, s.strong, t.weak, t.strong, n, p.confidence);
  }

  lemma StrongToWeak(s: Stats, t: Stats, n: nat, p: Policy)
    requires 0.0 < p.confidence < 1.0 && s.strong <= t.strong && t.weak == s.weak + n
    requires AnswerOf(s, p).route == Some(Strong) && AnswerOf(t, p).route == Some(Weak)
    ensures n as real * (p.confidence * (1.0 - p.confidence)) >= s.strong as real * (2.0 * p.confidence - 1.0)
  {
    StrongShare(s, p);
    WeakShare(t, p);
    FlipCost(s.strong, s.weak, t.strong, t.weak, n, p.confidence);
  }

  /** Turning a confident "weak" into a confident "strong" takes at least
      w(2c - 1) / (c(1 - c)) strong calls, w being the weak calls seen at the first answer;
      stated multiplied out. */
  lemma FlipWeakToStrong(s: Stats, calls: seq<(Call, int)>, p: Policy) returns (n: nat)
    requires 0.0 < p.confidence < 1.0
    requires AnswerOf(s, p).route == Some(Weak) && AnswerOf(BumpAll(s, calls), p).route == Some(Strong)
    ensures n == CallsTo(Strong, calls)
    ensures n as real * (p.confidence * (1.0 - p.confidence)) >= s.weak as real * (2.0 * p.confidence - 1.0)
  {
    n := CallsTo(Strong, calls);
    BumpAllCounts(s, calls);
    WeakToStrong(s, BumpAll(s, calls), n, p);
  }

  /** And the other way round. */
  lemma FlipStrongToWeak(s: Stats, calls: seq<(Call, int)>, p: Policy) returns (n: nat)
    requires 0.0 < p.confidence < 1.0
    requires AnswerOf(s, p).route == Some(Strong) && AnswerOf(BumpAll(s, calls), p).route == Some(Weak)
    ensures n == CallsTo(Weak, calls)
    ensures n as real * (p.confidence * (1.0 - p.confidence)) >= s.strong as real * (2.0 * p.confidence - 1.0)
  {
    n := CallsTo(Weak, calls);
    BumpAllCounts(s, calls);
    StrongToWeak(s, BumpAll(s, calls), n, p);
  }

  lemma QuotientAtMost(a: real, n: real, c: real)
    requires n > 0.0 && c * n >= a
    ensures c >= a / n
  {
    var r := a / n;
    assert a == r * n;
    if r > c {
      assert (r - c) * n > 0.0;
    }
  }

  function Contrary(route: Route): Route {
    if route == Weak then Strong else Weak
  }

  /** With a confidence of one or more, a single contrary call silences the cache for good:
      whatever it answered, it never answers the contrary. */
  lemma NoFlipAtFullConfidence(s: Stats, calls: seq<(Call, int)>, route: Route, p: Policy)
    requires p.confidence >= 1.0 && AnswerOf(s, p).route == Some(route)
    ensures (if route == Weak then s.strong else s.weak) == 0
    ensures AnswerOf(BumpAll(s, calls), p).route ==
      if CallsTo(Contrary(route), calls) > 0 then None else Some(route)
  {
    var t := BumpAll(s, calls);
    BumpAllCounts(s, calls);
    ConfidenceRange(s.weak, s.strong);
    ConfidenceRange(t.weak, t.strong);
  }

  // ---- Weak lock-in -------------------------------------------------------

  /** A request as the cache sees it: who asks, what the router would decide without the
      cache, and how the request ends. Only a successful request without a cycle records. */
  datatype Served = Served(
    judged: Route, threshold: real, strict: bool, cycle: bool, succeeded: bool,
    model: string, latency: real, cost: real, tokens: int, delay: nat, duration: nat)

  const CACHED_STRONG_SCORE: real := 0.95

  /** A confident cache replaces the judge by a fixed score and impact. */
  function RouteServed(a: Answer, r: Served): Route {
    match a.route
    case Some(Strong) => DecideRoute(CACHED_STRONG_SCORE, High, r.threshold, r.strict, r.cycle)
    case Some(Weak) => DecideRoute(0.0, Low, r.threshold, r.strict, r.cycle)
    case None => if r.cycle then Strong else r.judged
  }

  /** An entry and the clock, across requests under its own key. */
  datatype Entry = Entry(stats: Stats, clock: int)

  function AskedAt(e: Entry, r: Served): int {
    e.clock + r.delay
  }

  /** One request under the entry's key that finds the entry alive. */
  function Serve(e: Entry, r: Served, p: Policy): Entry {
    var done := AskedAt(e, r) + r.duration;
    if r.succeeded && !r.cycle
    then
      var route := RouteServed(AnswerOf(e.stats, p), r);
      Entry(Bump(e.stats, Call(route, r.model, r.latency, false, r.cost, r.tokens), done), done)
    else Entry(e.stats, done)
  }

  function ServeAll(e: Entry, rs: seq<Served>, p: Policy): Entry
    decreases |rs|
  {
    if rs == [] then e else ServeAll(Serve(e, rs[0], p), rs[1..], p)
  }

  /** No request finds the entry expired. */
  predicate NeverExpires(e: Entry, rs: seq<Served>, p: Policy)
    decreases |rs|
  {
    rs == [] || (!Expired(e.stats.lastCalled, AskedAt(e, rs[0]), p) && NeverExpires(Serve(e, rs[0], p), rs[1..], p))
  }

  /** With a cached "weak", the route is weak exactly without a cycle and with a positive
      threshold or strict mode; a threshold at zero sends a zero score to the strong tier. */
  lemma CachedWeakRoute(r: Served, confidence: real)
    ensures RouteServed(Answer(Some(Weak), confidence), r) == Weak <==> !r.cycle && (r.threshold > 0.0 || r.strict)
  {
  }

  /** With a cached "strong", the route is strong exactly when a cycle forces it or a score of 0.95,
      less the 0.15 of strict mode, reaches the threshold. */
  lemma CachedStrongRoute(r: Served, confidence: real)
    ensures RouteServed(Answer(Some(Strong), confidence), r) == Strong
            <==> r.cycle || (if r.strict then 0.80 else 0.95) >= r.threshold
  {
  }

  lemma MoreOfTheSame(weak: nat, strong: nat)
    requires weak > strong
    ensures Confidence(weak + 1, strong) >= Confidence(weak, strong)
  {
    var a, n := weak as real, (weak + strong) as real;
    var r := a / n;
    QuotientAtLeast(a, n, r);
    assert r <= 1.0 by {
      ConfidenceRange(weak, strong);
    }
    assert r * (n + 1.0) == r * n + r;
    QuotientAtLeast(a + 1.0, n + 1.0, r);
  }

  lemma ServeKeepsWeak(e: Entry, r: Served, p: Policy)
    requires AnswerOf(e.stats, p).route == Some(Weak) && (r.threshold > 0.0 || r.strict)
    ensures AnswerOf(Serve(e, r, p).stats, p).route == Some(Weak)
    ensures AnswerOf(Serve(e, r, p).stats, p).confidence >= AnswerOf(e.stats, p).confidence
    ensures Serve(e, r, p).stats.strong == e.stats.strong
    ensures RouteServed(AnswerOf(e.stats, p), r) == Weak || r.cycle
  {
    MoreOfTheSame(e.stats.weak, e.stats.strong);
  }

  /** Weak lock-in: once the cache answers "weak", every later request under that key is
      routed weak or forced strong by a cycle (and then not recorded), so no strong call is
      ever recorded again, confidence never falls and the answer stays "weak" until the
      entry expires or is reset. */
  lemma {:induction false} WeakLockIn(e: Entry, rs: seq<Served>, p: Policy)
    requires AnswerOf(e.stats, p).route == Some(Weak) && NeverExpires(e, rs, p)
    requires forall i :: 0 <= i < |rs| ==> rs[i].threshold > 0.0 || rs[i].strict
    ensures var f := ServeAll(e, rs, p);
      && AnswerOf(f.stats, p).route == Some(Weak)
      && AnswerOf(f.stats, p).confidence >= AnswerOf(e.stats, p).confidence
      && f.stats.strong == e.stats.strong
    ensures forall i :: 0 <= i < |rs| ==>
      RouteServed(AnswerOf(ServeAll(e, rs[..i], p).stats, p), rs[i]) == (if rs[i].cycle then Strong else Weak)
    decreases |rs|
  {
    if rs == [] {
    } else {
      ServeKeepsWeak(e, rs[0], p);
      var next := Serve(e, rs[0], p);
      WeakLockIn(next, rs[1..], p);
      forall i | 0 <= i < |rs|
        ensures RouteServed(AnswerOf(ServeAll(e, rs[..i], p).stats, p), rs[i]) == (if rs[i].cycle then Strong else Weak)
      {
        if i == 0 {
          assert ServeAll(e, rs[..0], p) == e;
        } else {
          assert rs[..i][0] == rs[0] && rs[..i][1..] == rs[1..][..i - 1];
          assert rs[i] == rs[1..][i - 1];
        }
      }
    }
  }

  /** Serving a request is asking the cache and recording the outcome: the entry evolves
      here as it does in the cache's memory. */
  lemma ServeIsAskThenRecord(mem: Memory, key: string, clock: int, r: Served, p: Policy)
    requires key in mem && !Expired(mem[key].lastCalled, clock + r.delay, p)
    ensures var e := Entry(mem[key], clock);
      var (asked, a) := AskWorld(World(mem, true, map[]), key, clock + r.delay, p);
      && a == AnswerOf(mem[key], p) && asked.mem == mem
      && Serve(e, r, p).stats ==
           (if r.succeeded && !r.cycle
            then Noted(asked.mem, key, Call(RouteServed(a, r), r.model, r.latency, false, r.cost, r.tokens),
                       clock + r.delay + r.duration)[key]
            else mem[key])
  {
  }
}
