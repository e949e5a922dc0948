/**
 Requests that overlap at the threshold controller (internal/router/router.go): each reads the
 threshold, then the mode, decides, and much later adds its decision to the window and adjusts
 the threshold, in four critical sections with other requests in between.
 */
module OverlappingDecisions {
  import opened Common
  import opened Threshold
  import opened Escalation

  /** Where a request stands: it has read the threshold, it has decided, or its decision is in
      the window and the threshold not yet adjusted. */
  datatype Pc =
    | Judged(q: Request, threshold: real)
    | Decided(q: Request, strong: bool)
    | Noted
    | Gone

  datatype State = State(control: Control, reqs: seq<Pc>)

  /** `Again` is the second judgement after a conditional timeout, `Drop` a request that fails
      before its decision counts. */
  datatype Event =
    | Arrive(q: Request)
    | Decide(req: nat)
    | Again(req: nat, q: Request)
    | Add(req: nat)
    | Adjust(req: nat)
    | Drop(req: nat)

  datatype Setup = Setup(tuning: Tuning, atOnce: nat)

  predicate IsLive(pc: Pc) {
    !pc.Gone?
  }

  predicate IsNoted(pc: Pc) {
    pc.Noted?
  }

  /** A request that may still be strong without being forced, although no score reaches the
      threshold any more: it has seen a lower one, or another mode. */
  predicate IsStale(pc: Pc) {
    match pc
    case Judged(q, threshold) => Ordinary(q) && threshold <= 0.85
    case Decided(q, strong) => Ordinary(q) && strong
    case _ => false
  }

  function Tally(reqs: seq<Pc>, f: Pc -> bool): nat {
    if reqs == [] then 0 else Tally(reqs[..|reqs| - 1], f) + (if f(reqs[|reqs| - 1]) then 1 else 0)
  }

  function At(s: State, i: nat): Pc {
    if i < |s.reqs| then s.reqs[i] else Gone
  }

  function Moved(s: State, i: nat, pc: Pc): State {
    if i < |s.reqs| then s.(reqs := s.reqs[i := pc]) else s
  }

  /** An event that does not fit where the request stands does nothing, and nobody arrives when
      `atOnce` requests are under way. */
  function Step(s: State, e: Event, p: Setup): State {
    match e
    case Arrive(q) =>
      if Tally(s.reqs, IsLive) < p.atOnce then s.(reqs := s.reqs + [Judged(q, s.control.threshold)]) else s
    case Decide(i) =>
      var pc := At(s, i);
      if !pc.Judged? then s
      else
        var strict := Strict(s.control, p.tuning);
        Moved(s, i, Decided(pc.q, DecideRoute(pc.q.score, pc.q.impact, pc.threshold, strict, pc.q.cycle) == Strong))
    case Again(i, q) =>
      if At(s, i).Decided? then Moved(s, i, Judged(q, s.control.threshold)) else s
    case Add(i) =>
      var pc := At(s, i);
      if !pc.Decided? then s
      else Moved(s, i, Noted).(control := s.control.(window := Push(s.control.window, pc.strong, p.tuning)))
    case Adjust(i) =>
      if !At(s, i).Noted? then s
      else Moved(s, i, Gone).(control := s.control.(threshold := Adjusted(s.control, p.tuning)))
    case Drop(i) =>
      if At(s, i).Judged? || At(s, i).Decided? then Moved(s, i, Gone) else s
  }

  function Run(s: State, es: seq<Event>, p: Setup): State
    decreases |es|
  {
    if es == [] then s else Run(Step(s, es[0], p), es[1..], p)
  }

  /** What an event adds to the window. */
  function Added(s: State, e: Event): seq<Pc> {
    if e.Add? && At(s, e.req).Decided? then [At(s, e.req)] else []
  }

  /** The requests whose decisions a run adds, in order. */
  function Records(s: State, es: seq<Event>, p: Setup): seq<Pc>
    decreases |es|
  {
    if es == [] then [] else Added(s, es[0]) + Records(Step(s, es[0], p), es[1..], p)
  }

  predicate IsForced(pc: Pc) {
    pc.Decided? && !Ordinary(pc.q)
  }

  function Strongs(records: seq<Pc>): (ds: seq<bool>)
    ensures |ds| == |records|
  {
    seq(|records|, i requires 0 <= i < |records| => records[i].Decided? && records[i].strong)
  }

  /** Strict mode is on before every one of the events. */
  predicate StrictAll(s: State, es: seq<Event>, p: Setup)
    decreases |es|
  {
    es == [] || (Strict(s.control, p.tuning) && StrictAll(Step(s, es[0], p), es[1..], p))
  }

  // ---- What a single request does -----------------------------------------

  lemma RunFour(s: State, a: Event, b: Event, c: Event, d: Event, p: Setup)
    ensures Run(s, [a, b, c, d], p) == Step(Step(Step(Step(s, a, p), b, p), c, p), d, p)
  {
    var one, two, three := Step(s, a, p), Step(Step(s, a, p), b, p), Step(Step(Step(s, a, p), b, p), c, p);
    assert [a, b, c, d][1..] == [b, c, d] && [b, c, d][1..] == [c, d] && [c, d][1..] == [d] && [d][1..] == [];
    assert Run(three, [d], p) == Step(three, d, p);
    assert Run(two, [c, d], p) == Run(three, [d], p);
    assert Run(one, [b, c, d], p) == Run(two, [c, d], p);
  }

  lemma LastMoves(c: Control, others: seq<Pc>, pc: Pc, next: Pc)
    ensures var s := State(c, others + [pc]);
      At(s, |others|) == pc && Moved(s, |others|, next) == State(c, others + [next])
  {
    assert (others + [pc])[|others| := next] == others + [next];
  }

  lemma LastDecides(c: Control, others: seq<Pc>, q: Request, p: Setup)
    ensures Step(State(c, others + [Judged(q, c.threshold)]), Decide(|others|), p)
         == State(c, others + [Decided(q, Decision(c, q, p.tuning) == Strong)])
  {
    LastMoves(c, others, Judged(q, c.threshold), Decided(q, Decision(c, q, p.tuning) == Strong));
  }

  lemma LastAdds(c: Control, others: seq<Pc>, q: Request, strong: bool, p: Setup)
    ensures Step(State(c, others + [Decided(q, strong)]), Add(|others|), p)
         == State(c.(window := Push(c.window, strong, p.tuning)), others + [Noted])
  {
    LastMoves(c, others, Decided(q, strong), Noted);
  }

  lemma LastAdjusts(c: Control, others: seq<Pc>, p: Setup)
    ensures Step(State(c, others + [Noted]), Adjust(|others|), p)
         == State(c.(threshold := Adjusted(c, p.tuning)), others + [Gone])
  {
    LastMoves(c, others, Noted, Gone);
  }

  /** Nobody in between: a request that arrives, decides, adds and adjusts is one turn of the
      feedback loop. */
  lemma AloneIsHandle(s: State, q: Request, p: Setup)
    requires Tally(s.reqs, IsLive) < p.atOnce
    ensures var n := |s.reqs|;
      Run(s, [Arrive(q), Decide(n), Add(n), Adjust(n)], p) == State(Handle(s.control, q, p.tuning), s.reqs + [Gone])
  {
    var n, c := |s.reqs|, s.control;
    var strong := Decision(c, q, p.tuning) == Strong;
    RunFour(s, Arrive(q), Decide(n), Add(n), Adjust(n), p);
    LastDecides(c, s.reqs, q, p);
    LastAdds(c, s.reqs, q, strong, p);
    LastAdjusts(c.(window := Push(c.window, strong, p.tuning)), s.reqs, p);
  }

  /** A request judged again decides anew, on its second verdict. */
  lemma JudgedAgain(c: Control, others: seq<Pc>, first: Request, strong: bool, q: Request, p: Setup)
    ensures var s := State(c, others + [Decided(first, strong)]);
      Run(s, [Again(|others|, q), Decide(|others|), Add(|others|), Adjust(|others|)], p)
      == State(Handle(c, q, p.tuning), others + [Gone])
  {
    var n, again := |others|, Decision(c, q, p.tuning) == Strong;
    RunFour(State(c, others + [Decided(first, strong)]), Again(n, q), Decide(n), Add(n), Adjust(n), p);
    LastMoves(c, others, Decided(first, strong), Judged(q, c.threshold));
    LastDecides(c, others, q, p);
    LastAdds(c, others, q, again, p);
    LastAdjusts(c.(window := Push(c.window, again, p.tuning)), others, p);
  }

  lemma PlaceFreed(others: seq<Pc>, pc: Pc)
    requires !pc.Gone?
    ensures Tally(others + [Gone], IsLive) == Tally(others + [pc], IsLive) - 1
  {
    TallySnoc(others, pc, IsLive);
    TallySnoc(others, Gone, IsLive);
  }

  lemma LastDrops(c: Control, others: seq<Pc>, pc: Pc, p: Setup)
    requires pc.Judged? || pc.Decided?
    ensures Step(State(c, others + [pc]), Drop(|others|), p) == State(c, others + [Gone])
  {
    LastMoves(c, others, pc, Gone);
    assert At(State(c, others + [pc]), |others|) == pc;
  }

  /** A request that fails before its decision is added leaves the controller as it is and its place to
      the next one. */
  lemma DroppedLeavesNothing(c: Control, others: seq<Pc>, pc: Pc, p: Setup)
    requires pc.Judged? || pc.Decided?
    ensures var s := Step(State(c, others + [pc]), Drop(|others|), p);
      s.control == c && Tally(s.reqs, IsLive) == Tally(others + [pc], IsLive) - 1
  {
    LastDrops(c, others, pc, p);
    PlaceFreed(others, pc);
  }

  /** None of the events is of this request. */
  ghost predicate Others(es: seq<Event>, n: nat) {
    forall i :: 0 <= i < |es| ==> es[i].Arrive? || es[i].req != n
  }

  lemma {:induction false} LeftAlone(s: State, es: seq<Event>, n: nat, p: Setup)
    requires n < |s.reqs| && Others(es, n)
    ensures n < |Run(s, es, p).reqs| && Run(s, es, p).reqs[n] == s.reqs[n]
    decreases |es|
  {
    if es == [] {
    } else {
      var next := Step(s, es[0], p);
      assert n < |next.reqs| && next.reqs[n] == s.reqs[n];
      LeftAlone(next, es[1..], n, p);
    }
  }

  /** Others in between: a request decides on the threshold it read when it arrived, and in the mode
      it finds when it decides. */
  lemma DecidesOnWhatItRead(s: State, q: Request, es: seq<Event>, p: Setup)
    requires Tally(s.reqs, IsLive) < p.atOnce && Others(es, |s.reqs|)
    ensures var n, later := |s.reqs|, Run(Step(s, Arrive(q), p), es, p);
      At(Step(later, Decide(n), p), n)
      == Decided(q, DecideRoute(q.score, q.impact, s.control.threshold, Strict(later.control, p.tuning), q.cycle) == Strong)
  {
    LeftAlone(Step(s, Arrive(q), p), es, |s.reqs|, p);
  }

  // ---- Counting requests --------------------------------------------------

  lemma {:induction false} TallyUpdate(reqs: seq<Pc>, i: nat, pc: Pc, f: Pc -> bool)
    requires i < |reqs|
    ensures Tally(reqs[i := pc], f) == Tally(reqs, f) - (if f(reqs[i]) then 1 else 0) + (if f(pc) then 1 else 0)
  {
    var n := |reqs| - 1;
    if i == n {
      assert reqs[i := pc][..n] == reqs[..n];
    } else {
      TallyUpdate(reqs[..n], i, pc, f);
      assert reqs[i := pc][..n] == reqs[..n][i := pc];
    }
  }

  lemma TallySnoc(reqs: seq<Pc>, pc: Pc, f: Pc -> bool)
    ensures Tally(reqs + [pc], f) == Tally(reqs, f) + (if f(pc) then 1 else 0)
  {
    assert (reqs + [pc])[..|reqs|] == reqs;
  }

  lemma {:induction false} TallyAppend(x: seq<Pc>, y: seq<Pc>, f: Pc -> bool)
    ensures Tally(x + y, f) == Tally(x, f) + Tally(y, f)
  {
    if y == [] {
      assert x + y == x;
    } else {
      TallyAppend(x, y[..|y| - 1], f);
      assert (x + y)[..|x + y| - 1] == x + y[..|y| - 1];
    }
  }

  /** Noted and stale requests are different ones, and all of them are under way. */
  lemma {:induction false} NotedAndStale(reqs: seq<Pc>)
    ensures Tally(reqs, IsNoted) + Tally(reqs, IsStale) <= Tally(reqs, IsLive)
  {
    if reqs == [] {
    } else {
      NotedAndStale(reqs[..|reqs| - 1]);
    }
  }

  /** How one event moves a count. */
  lemma StepTally(s: State, e: Event, p: Setup, f: Pc -> bool)
    requires !f(Gone)
    ensures var t := Step(s, e, p);
      Tally(t.reqs, f) - Tally(s.reqs, f) ==
        if e.Arrive? then (if |t.reqs| > |s.reqs| && f(Judged(e.q, s.control.threshold)) then 1 else 0)
        else (if f(At(t, e.req)) then 1 else 0) - (if f(At(s, e.req)) then 1 else 0)
  {
    var t := Step(s, e, p);
    if e.Arrive? {
      if |t.reqs| > |s.reqs| {
        TallySnoc(s.reqs, Judged(e.q, s.control.threshold), f);
      }
    } else if e.req < |s.reqs| {
      TallyUpdate(s.reqs, e.req, At(t, e.req), f);
      assert t.reqs == s.reqs[e.req := At(t, e.req)];
    }
  }

  // ---- The window ---------------------------------------------------------

  lemma {:induction false} RecordsAreOver(s: State, es: seq<Event>, p: Setup)
    requires Sane(p.tuning) && |s.control.window| == p.tuning.windowSize && StrictAll(s, es, p)
    ensures Over(s.control.window, Strongs(Records(s, es, p)), Tolerated(p.tuning))
    decreases |es|
  {
    if es == [] {
    } else {
      StrictMeansMore(s.control, p.tuning);
      RecordsAreOver(Step(s, es[0], p), es[1..], p);
      OverOneEvent(s, es[0], p, Records(Step(s, es[0], p), es[1..], p));
    }
  }

  lemma OverOneEvent(s: State, e: Event, p: Setup, rest: seq<Pc>)
    requires Sane(p.tuning) && |s.control.window| == p.tuning.windowSize
    requires StrongCount(s.control.window) > Tolerated(p.tuning)
    requires Over(Step(s, e, p).control.window, Strongs(rest), Tolerated(p.tuning))
    ensures Over(s.control.window, Strongs(Added(s, e) + rest), Tolerated(p.tuning))
  {
    if Added(s, e) == [] {
      assert [] + rest == rest;
    } else {
      var all := Strongs(Added(s, e) + rest);
      assert all[1..] == Strongs(rest);
      OneMoreOver(s.control.window, all, Step(s, e, p).control.window, Tolerated(p.tuning));
    }
  }

  // ---- Above the ceiling --------------------------------------------------

  lemma AboveStays(s: State, e: Event, p: Setup)
    requires Strict(s.control, p.tuning) && s.control.threshold > 0.85
    ensures Step(s, e, p).control.threshold > 0.85
  {
  }

  /** In strict mode above the ceiling only the stale ones can be strong without being forced. */
  lemma StaleStep(s: State, e: Event, p: Setup)
    requires Strict(s.control, p.tuning) && s.control.threshold > 0.85
    ensures Tally(Step(s, e, p).reqs, IsStale) + StrongCount(Strongs(Added(s, e)))
         <= Tally(s.reqs, IsStale) + Tally(Added(s, e), IsForced)
  {
    StepTally(s, e, p, IsStale);
    if Added(s, e) != [] {
      var pc := At(s, e.req);
      assert [pc][..0] == [];
      assert Strongs([pc]) == [pc.strong] && [pc.strong][..0] == [];
    }
  }

  lemma StrongsAppend(x: seq<Pc>, y: seq<Pc>)
    ensures StrongCount(Strongs(x + y)) == StrongCount(Strongs(x)) + StrongCount(Strongs(y))
  {
    assert Strongs(x + y) == Strongs(x) + Strongs(y);
    StrongCountAppend(Strongs(x), Strongs(y));
  }

  lemma {:induction false} StrongRecords(s: State, es: seq<Event>, p: Setup)
    requires s.control.threshold > 0.85 && StrictAll(s, es, p)
    ensures StrongCount(Strongs(Records(s, es, p))) <= Tally(Records(s, es, p), IsForced) + Tally(s.reqs, IsStale)
    decreases |es|
  {
    if es == [] {
    } else {
      var next, first := Step(s, es[0], p), Added(s, es[0]);
      AboveStays(s, es[0], p);
      StrongRecords(next, es[1..], p);
      StaleStep(s, es[0], p);
      StrongsAppend(first, Records(next, es[1..], p));
      TallyAppend(first, Records(next, es[1..], p), IsForced);
    }
  }

  lemma FlushOverlap(s: State, es: seq<Event>, p: Setup, stale: nat)
    requires Sane(p.tuning) && |s.control.window| <= p.tuning.windowSize
    requires s.control.threshold > 0.85 && StrictAll(s, es, p) && Tally(s.reqs, IsStale) <= stale
    ensures var w, a := p.tuning.windowSize, Tolerated(p.tuning);
      |Records(s, es, p)| <= (w - a) + Prolonged(Tally(Records(s, es, p), IsForced) + stale, a, w)
  {
    if Records(s, es, p) != [] {
      StrictMeansMore(s.control, p.tuning);
      RecordsAreOver(s, es, p);
      StrongRecords(s, es, p);
      SlidingAtMost(s.control.window, Strongs(Records(s, es, p)), Tally(Records(s, es, p), IsForced) + stale,
                    Tolerated(p.tuning));
    }
  }

  // ---- Up to the ceiling --------------------------------------------------

  lemma {:induction false} ProlongedSum(m: nat, n: nat, a: nat, w: nat)
    requires a < w
    ensures Prolonged(m, a, w) + n <= Prolonged(m + n, a, w)
    decreases m + n
  {
    if m + n <= a {
    } else if m > a {
      ProlongedSum(m - (a + 1), n, a, w);
    } else {
      ProlongedSum(0, m + n - (a + 1), a, w);
    }
  }

  /** The window fits, and no more requests are under way than are let in. */
  ghost predicate Sound(s: State, p: Setup) {
    && Sane(p.tuning) && |s.control.window| <= p.tuning.windowSize && s.control.threshold >= 0.0
    && Tally(s.reqs, IsLive) <= p.atOnce
  }

  lemma StepKeepsSound(s: State, e: Event, p: Setup)
    requires Sound(s, p)
    ensures Sound(Step(s, e, p), p)
  {
    StepTally(s, e, p, IsLive);
    AdjustedRange(s.control, p.tuning);
  }

  /** An adjustment in strict mode. */
  lemma Raised(s: State, e: Event, p: Setup)
    requires Sound(s, p) && Strict(s.control, p.tuning) && s.control.threshold <= 0.85
    requires e.Adjust? && At(s, e.req).Noted?
    ensures var t := Step(s, e, p);
      && t.control.threshold == s.control.threshold + 0.01
      && StepsToCeiling(t.control.threshold) == StepsToCeiling(s.control.threshold) - 1
      && Tally(t.reqs, IsNoted) == Tally(s.reqs, IsNoted) - 1
      && Tally(t.reqs, IsNoted) + Tally(t.reqs, IsStale) <= p.atOnce - 1
  {
    StepTally(s, e, p, IsNoted);
    StepTally(s, e, p, IsLive);
    NotedAndStale(Step(s, e, p).reqs);
    CeilingStep(s.control.threshold);
  }

  /** So many records are within the bound, when so many are still to be adjusted. */
  predicate Within(records: nat, noted: nat, steps: nat, forced: nat, k: nat, a: nat, w: nat)
    requires k >= 1
  {
    records + noted <= steps + (w - a) + Prolonged(forced + (k - 1), a, w)
  }

  /** The bound from a state in strict mode with the threshold in reach. */
  ghost predicate Bounded(s: State, es: seq<Event>, p: Setup)
    requires Sane(p.tuning) && p.atOnce >= 1
  {
    Within(|Records(s, es, p)|, Tally(s.reqs, IsNoted), StepsToCeiling(s.control.threshold),
           Tally(Records(s, es, p), IsForced), p.atOnce, Tolerated(p.tuning), p.tuning.windowSize)
  }

  lemma CrossingSum(records: nat, noted: nat, left: nat, stale: nat, steps: nat, forced: nat, k: nat, a: nat, w: nat)
    requires a < w && k >= 1 && noted == left + 1 && left + stale <= k - 1 && steps >= 1
    requires records <= (w - a) + Prolonged(forced + stale, a, w)
    ensures Within(records, noted, steps, forced, k, a, w)
  {
    ProlongedSum(forced + stale, left, a, w);
    ProlongedMonotone(forced + stale + left, forced + (k - 1), a, w);
  }

  /** The event that brings the threshold out of reach, and what is recorded after it. */
  lemma AfterCrossing(s: State, e: Event, p: Setup, next: State, more: seq<Event>)
    requires Sound(s, p) && p.atOnce >= 1 && Tolerated(p.tuning) < p.tuning.windowSize
    requires e.Adjust? && At(s, e.req).Noted? && s.control.threshold <= 0.85 && Strict(s.control, p.tuning)
    requires next == Step(s, e, p) && next.control.threshold > 0.85 && StrictAll(next, more, p)
    ensures Within(|Records(next, more, p)|, Tally(s.reqs, IsNoted), StepsToCeiling(s.control.threshold),
                   Tally(Records(next, more, p), IsForced), p.atOnce, Tolerated(p.tuning), p.tuning.windowSize)
  {
    Raised(s, e, p);
    StepKeepsSound(s, e, p);
    var stale, records := Tally(next.reqs, IsStale), Records(next, more, p);
    FlushOverlap(next, more, p, stale);
    CrossingSum(|records|, Tally(s.reqs, IsNoted), Tally(next.reqs, IsNoted), stale,
                StepsToCeiling(s.control.threshold), Tally(records, IsForced), p.atOnce,
                Tolerated(p.tuning), p.tuning.windowSize);
  }

  lemma CrossingBound(s: State, es: seq<Event>, p: Setup)
    requires Sound(s, p) && p.atOnce >= 1 && Tolerated(p.tuning) < p.tuning.windowSize
    requires es != [] && es[0].Adjust? && At(s, es[0].req).Noted? && s.control.threshold <= 0.85
    requires StrictAll(s, es, p) && Step(s, es[0], p).control.threshold > 0.85
    ensures Bounded(s, es, p)
  {
    AfterCrossing(s, es[0], p, Step(s, es[0], p), es[1..]);
    NothingAdded(s, es, p);
  }

  lemma NothingAdded(s: State, es: seq<Event>, p: Setup)
    requires es != [] && !es[0].Add?
    ensures Records(s, es, p) == Records(Step(s, es[0], p), es[1..], p)
  {
    assert [] + Records(Step(s, es[0], p), es[1..], p) == Records(Step(s, es[0], p), es[1..], p);
  }

  lemma RecordsOfOne(s: State, es: seq<Event>, p: Setup)
    requires es != []
    ensures var rest := Records(Step(s, es[0], p), es[1..], p);
      && |Records(s, es, p)| == |Added(s, es[0])| + |rest|
      && Tally(Records(s, es, p), IsForced) == Tally(Added(s, es[0]), IsForced) + Tally(rest, IsForced)
  {
    TallyAppend(Added(s, es[0]), Records(Step(s, es[0], p), es[1..], p), IsForced);
  }

  lemma WithinStep(records: nat, noted: nat, steps: nat, forced: nat, all: nat, allForced: nat, left: nat, fewer: nat,
                   k: nat, a: nat, w: nat)
    requires a <= w && k >= 1 && Within(records, left, fewer, forced, k, a, w)
    requires forced <= allForced && all - records + noted - left <= steps - fewer
    ensures Within(all, noted, steps, allForced, k, a, w)
  {
    ProlongedMonotone(forced + (k - 1), allForced + (k - 1), a, w);
  }

  /** What an event in strict mode adds is to be adjusted, and an adjustment is a step. */
  lemma NotedAdded(s: State, e: Event, p: Setup)
    requires Sound(s, p) && Strict(s.control, p.tuning) && s.control.threshold <= 0.85
    ensures var t := Step(s, e, p);
      |Added(s, e)| + Tally(s.reqs, IsNoted) - Tally(t.reqs, IsNoted)
        <= StepsToCeiling(s.control.threshold) - StepsToCeiling(t.control.threshold)
  {
    StepTally(s, e, p, IsNoted);
    if e.Adjust? && At(s, e.req).Noted? {
      Raised(s, e, p);
    }
  }

  lemma OtherStep(s: State, es: seq<Event>, p: Setup)
    requires Sound(s, p) && p.atOnce >= 1 && es != [] && Strict(s.control, p.tuning) && s.control.threshold <= 0.85
    requires Bounded(Step(s, es[0], p), es[1..], p)
    ensures Bounded(s, es, p)
  {
    var next := Step(s, es[0], p);
    var all, rest := Records(s, es, p), Records(next, es[1..], p);
    NotedAdded(s, es[0], p);
    RecordsOfOne(s, es, p);
    WithinStep(|rest|, Tally(s.reqs, IsNoted), StepsToCeiling(s.control.threshold), Tally(rest, IsForced),
               |all|, Tally(all, IsForced), Tally(next.reqs, IsNoted), StepsToCeiling(next.control.threshold),
               p.atOnce, Tolerated(p.tuning), p.tuning.windowSize);
  }

  lemma {:induction false} OverlapBound(s: State, es: seq<Event>, p: Setup)
    requires Sound(s, p) && p.atOnce >= 1 && Tolerated(p.tuning) < p.tuning.windowSize
    requires s.control.threshold <= 0.85 && StrictAll(s, es, p)
    ensures Bounded(s, es, p)
    decreases |es|
  {
    if es == [] {
      NotedAndStale(s.reqs);
      ProlongedSum(0, p.atOnce - 1, Tolerated(p.tuning), p.tuning.windowSize);
    } else {
      var next := Step(s, es[0], p);
      StepKeepsSound(s, es[0], p);
      if next.control.threshold > 0.85 {
        CrossingBound(s, es, p);
      } else {
        OverlapBound(next, es[1..], p);
        OtherStep(s, es, p);
      }
    }
  }

  // ---- Whole runs ---------------------------------------------------------

  /** In strict mode the threshold has been raised or whoever brought the mode about has yet to
      do so, and above the ceiling not everybody is stale. */
  ghost predicate Entered(s: State, p: Setup) {
    && Sound(s, p)
    && (Strict(s.control, p.tuning) ==>
          && (Tally(s.reqs, IsNoted) >= 1 || s.control.threshold >= 0.01)
          && (s.control.threshold > 0.85 ==> Tally(s.reqs, IsStale) <= p.atOnce - 1))
  }

  lemma EntryByAdding(s: State, e: Event, p: Setup)
    requires Sound(s, p) && !Strict(s.control, p.tuning) && Strict(Step(s, e, p).control, p.tuning)
    ensures Entered(Step(s, e, p), p)
  {
    var t := Step(s, e, p);
    assert e.Add? && At(s, e.req).Decided?;
    StepKeepsSound(s, e, p);
    StepTally(s, e, p, IsNoted);
    NotedAndStale(t.reqs);
  }

  lemma StaysEntered(s: State, e: Event, p: Setup)
    requires Entered(s, p) && Strict(s.control, p.tuning)
    ensures Entered(Step(s, e, p), p)
  {
    var t := Step(s, e, p);
    StepKeepsSound(s, e, p);
    StepTally(s, e, p, IsNoted);
    if s.control.threshold > 0.85 {
      AboveStays(s, e, p);
      StepTally(s, e, p, IsStale);
    } else if t.control.threshold > 0.85 {
      Raised(s, e, p);
    }
  }

  lemma {:induction false} RunEntered(s: State, es: seq<Event>, p: Setup)
    requires Entered(s, p)
    ensures Entered(Run(s, es, p), p)
    decreases |es|
  {
    if es == [] {
    } else {
      if Strict(s.control, p.tuning) {
        StaysEntered(s, es[0], p);
      } else if Strict(Step(s, es[0], p).control, p.tuning) {
        EntryByAdding(s, es[0], p);
      } else {
        StepKeepsSound(s, es[0], p);
      }
      RunEntered(Step(s, es[0], p), es[1..], p);
    }
  }

  /** The bound on what a stretch in strict mode adds. */
  ghost predicate EndsInTime(s: State, es: seq<Event>, p: Setup)
    requires Sane(p.tuning) && p.atOnce >= 1
  {
    var w, a, records := p.tuning.windowSize, Tolerated(p.tuning), Records(s, es, p);
    |records| <= 85 + (w - a) + Prolonged(Tally(records, IsForced) + (p.atOnce - 1), a, w)
  }

  /**
     Strict mode ends when requests overlap, too: with at most k of them between reading the
     threshold and adjusting it, no more decisions are added while it lasts than if k - 1 more of
     them were forced. One at a time, this is the bound for requests that do not overlap.
   */
  lemma OverlappingModeEnds(s: State, before: seq<Event>, es: seq<Event>, p: Setup)
    requires Sound(s, p) && p.atOnce >= 1 && !Strict(s.control, p.tuning)
    requires StrictAll(Run(s, before, p), es, p)
    ensures EndsInTime(Run(s, before, p), es, p)
  {
    RunEntered(s, before, p);
    BoundOnceEntered(Run(s, before, p), es, p);
  }

  lemma AtEntry(records: nat, noted: nat, steps: nat, forced: nat, k: nat, a: nat, w: nat)
    requires k >= 1 && a <= w && Within(records, noted, steps, forced, k, a, w) && steps <= 85 + noted
    ensures records <= 85 + (w - a) + Prolonged(forced + (k - 1), a, w)
  {
  }

  lemma BoundOnceEntered(s: State, es: seq<Event>, p: Setup)
    requires Entered(s, p) && p.atOnce >= 1 && StrictAll(s, es, p)
    ensures EndsInTime(s, es, p)
  {
    if es == [] {
    } else if s.control.threshold > 0.85 {
      BoundFromAbove(s, es, p);
    } else {
      BoundFromBelow(s, es, p);
    }
  }

  lemma BoundFromAbove(s: State, es: seq<Event>, p: Setup)
    requires Entered(s, p) && p.atOnce >= 1 && StrictAll(s, es, p) && es != [] && s.control.threshold > 0.85
    ensures EndsInTime(s, es, p)
  {
    FlushOverlap(s, es, p, p.atOnce - 1);
  }

  lemma BoundFromBelow(s: State, es: seq<Event>, p: Setup)
    requires Entered(s, p) && p.atOnce >= 1 && StrictAll(s, es, p) && es != [] && s.control.threshold <= 0.85
    ensures EndsInTime(s, es, p)
  {
    StrictMeansMore(s.control, p.tuning);
    OverlapBound(s, es, p);
    StepsLeft(s.control.threshold);
    AtEntry(|Records(s, es, p)|, Tally(s.reqs, IsNoted), StepsToCeiling(s.control.threshold),
            Tally(Records(s, es, p), IsForced), p.atOnce, Tolerated(p.tuning), p.tuning.windowSize);
  }

  lemma StepsLeft(threshold: real)
    requires 0.0 <= threshold <= 0.85
    ensures StepsToCeiling(threshold) <= 86 && (threshold >= 0.01 ==> StepsToCeiling(threshold) <= 85)
  {
    assert (0.85 - threshold) * 100.0 <= 85.0;
  }
}
