/**
 Runs of the router in which the semantic cache is restarted between requests, as a new process
 over the same table would: no request notices.
 */
module RestartedRuns {
  import opened Common
  import opened Escalation
  import opened Routing
  import BudgetProtocol
  import Cache = SemanticCache
  import CacheRuns
  import Failover

  datatype Move = Serve(step: Step) | RestartCache

  ghost function Moved(s: State, m: Move, e: Env): State {
    match m
    case Serve(step) => RouteRequest(s, step.query, step.luck, e).0
    case RestartCache => s.(cache := CacheRuns.Restarted(s.cache))
  }

  ghost function RunMoves(s: State, moves: seq<Move>, e: Env): State {
    if moves == [] then s else Moved(RunMoves(s, moves[..|moves| - 1], e), moves[|moves| - 1], e)
  }

  ghost function ResultAt(s: State, step: Step, e: Env): Result {
    RouteRequest(s, step.query, step.luck, e).1
  }

  /** What the requests of a run are answered, restarts or not. */
  ghost function MoveResults(s: State, moves: seq<Move>, e: Env): seq<Result> {
    if moves == [] then []
    else
      var init, last := moves[..|moves| - 1], moves[|moves| - 1];
      MoveResults(s, init, e) + (if last.Serve? then [ResultAt(RunMoves(s, init, e), last.step, e)] else [])
  }

  ghost function Results(s: State, steps: seq<Step>, e: Env): seq<Result> {
    if steps == [] then []
    else
      var init, last := steps[..|steps| - 1], steps[|steps| - 1];
      Results(s, init, e) + [ResultAt(Run(s, init, e), last, e)]
  }

  /** The requests of a run without its restarts. */
  function StepsOf(moves: seq<Move>): seq<Step> {
    if moves == [] then []
    else
      var last := moves[|moves| - 1];
      StepsOf(moves[..|moves| - 1]) + (if last.Serve? then [last.step] else [])
  }

  // ---- Requests do not see more of the cache than its answer ---------------

  ghost predicate SameButCache(s: State, t: State) {
    s.(cache := t.cache) == t
  }

  lemma AdmittedBlind(s: State, t: State, q: Query, x: Luck, e: Env)
    requires SameButCache(s, t) && Looked(s, q, x, e).1 == Looked(t, q, x, e).1
    ensures var a, b := Admitted(s, q, x, e), Admitted(t, q, x, e);
      SameButCache(a.0, b.0) && a.1 == b.1 && a.2 == b.2
  {
  }

  lemma TurnBlind(s: State, t: State, q: Query, x: Luck, a: Cache.Answer, cycle: bool, e: Env)
    requires SameButCache(s, t)
    ensures TakeTurn(s, q, x, a, cycle, e) == TakeTurn(t, q, x, a, cycle, e)
  {
    assert s.usage == t.usage && s.control == t.control;
  }

  lemma RecalledBlind(s: State, t: State, q: Query, turn: Turn, e: Env)
    requires SameButCache(s, t)
    ensures SameButCache(Recalled(s, q, turn, e), Recalled(t, q, turn, e))
  {
  }

  lemma SettledBlind(s: State, t: State, q: Query, cost: real, x: Luck, e: Env)
    requires SameButCache(s, t) && q.session in s.sessions
    ensures SameButCache(Settled(s, q, cost, x, e).0, Settled(t, q, cost, x, e).0)
    ensures Settled(s, q, cost, x, e).1 == Settled(t, q, cost, x, e).1
  {
  }

  lemma FinishedBlind(s: State, t: State, q: Query, x: Luck, cycle: bool, turn: Turn, e: Env)
    requires SameButCache(s, t) && q.session in s.sessions && turn.outcome.Served?
    ensures SameButCache(Finished(s, q, x, cycle, turn, e).0, Finished(t, q, x, cycle, turn, e).0)
    ensures Finished(s, q, x, cycle, turn, e).1 == Finished(t, q, x, cycle, turn, e).1
  {
  }

  lemma ConcludedBlind(s: State, t: State, q: Query, x: Luck, cycle: bool, turn: Turn, e: Env)
    requires SameButCache(s, t) && q.session in s.sessions
    ensures SameButCache(Concluded(s, q, x, cycle, turn, e).0, Concluded(t, q, x, cycle, turn, e).0)
    ensures Concluded(s, q, x, cycle, turn, e).1 == Concluded(t, q, x, cycle, turn, e).1
  {
    RecalledBlind(s, t, q, turn, e);
    if turn.outcome.Served? {
      var a, b := Recalled(s, q, turn, e), Recalled(t, q, turn, e);
      var cost := BudgetProtocol.FinalCost(turn.outcome.cost);
      SettledBlind(a, b, q, cost, x, e);
      FinishedBlind(Settled(a, q, cost, x, e).0, Settled(b, q, cost, x, e).0, q, x, cycle, turn, e);
    }
  }

  lemma CallsBlind(s: State, t: State, q: Query, x: Luck, e: Env)
    requires SameButCache(s, t) && Looked(s, q, x, e).1 == Looked(t, q, x, e).1
    ensures TurnOf(s, q, x, e) == TurnOf(t, q, x, e)
    ensures CycleSeen(Admitted(s, q, x, e).0, q, e) == CycleSeen(Admitted(t, q, x, e).0, q, e)
  {
    AdmittedBlind(s, t, q, x, e);
    var a, b := Admitted(s, q, x, e), Admitted(t, q, x, e);
    TurnBlind(a.0, b.0, q, x, a.1, CycleSeen(a.0, q, e), e);
  }

  lemma WithBlind(s: State, t: State, q: Query, x: Luck, turn: Turn, e: Env)
    requires SameButCache(s, t) && Looked(s, q, x, e).1 == Looked(t, q, x, e).1
    ensures SameButCache(RouteWith(s, q, x, turn, e).0, RouteWith(t, q, x, turn, e).0)
    ensures RouteWith(s, q, x, turn, e).1 == RouteWith(t, q, x, turn, e).1
  {
    AdmittedBlind(s, t, q, x, e);
    var a, b := Admitted(s, q, x, e), Admitted(t, q, x, e);
    if a.2 {
      ConcludedBlind(a.0, b.0, q, x, CycleSeen(a.0, q, e), turn, e);
    }
  }

  /** With the same answer from the cache, two requests end alike and tell it the same. */
  lemma RequestBlind(s: State, t: State, q: Query, x: Luck, e: Env)
    requires SameButCache(s, t) && Looked(s, q, x, e).1 == Looked(t, q, x, e).1
    ensures SameButCache(RouteRequest(s, q, x, e).0, RouteRequest(t, q, x, e).0)
    ensures RouteRequest(s, q, x, e).1 == RouteRequest(t, q, x, e).1
    ensures NoteOf(s, q, x, e) == NoteOf(t, q, x, e)
  {
    CallsBlind(s, t, q, x, e);
    WithBlind(s, t, q, x, TurnOf(s, q, x, e), e);
  }

  // ---- One step of both runs ----------------------------------------------

  ghost function CacheOf(s: State, clock: int): CacheRuns.State {
    CacheRuns.State(s.cache, clock)
  }

  /** The run with restarts beside the one without: they differ in what no question can tell. */
  ghost predicate Beside(s: State, t: State, clock: int, e: Env) {
    && SameButCache(s, t)
    && CacheRuns.Sound(CacheOf(t, clock), e.settings.policy)
    && CacheRuns.Twins(CacheOf(s, clock), CacheOf(t, clock), {}, e.settings.policy)
  }

  lemma TwinsAnswerAlike(s: State, t: State, q: Query, x: Luck, e: Env, clock: int)
    requires Beside(s, t, clock, e) && Timed(x, clock)
    ensures Looked(s, q, x, e).1 == Looked(t, q, x, e).1
  {
    var p, a, b := e.settings.policy, CacheOf(s, clock), CacheOf(t, clock);
    CacheRuns.AskKeepsTwins(a, b, CacheRuns.Ask(q.key, Gap(clock, x.askedAt)), {}, p);
    assert Cache.AskWorld(s.cache, q.key, x.askedAt, p).1 == Cache.AskWorld(t.cache, q.key, x.askedAt, p).1 by {
      var ask := CacheRuns.Ask(q.key, Gap(clock, x.askedAt));
      assert CacheRuns.StepAnswers(a, ask, p)[0] == CacheRuns.StepAnswers(b, ask, p)[0];
    }
  }

  /** An ask, and perhaps a recording under the same key: the twins stay twins. */
  lemma TwinsThroughOps(a: CacheRuns.State, b: CacheRuns.State, ask: CacheRuns.Op, note: Option<CacheRuns.Op>, p: Cache.Policy)
    requires CacheRuns.Sound(b, p) && CacheRuns.Twins(a, b, {}, p) && ask.Ask?
    requires note.Some? ==> note.value.Note? && note.value.key == ask.key
    ensures var ops := OpsFor(ask, note);
      && CacheRuns.Sound(CacheRuns.Run(b, ops, p), p)
      && CacheRuns.Twins(CacheRuns.Run(a, ops, p), CacheRuns.Run(b, ops, p), {}, p)
  {
    var asked := {} + {ask.key};
    CacheRuns.StepKeepsTwins(a, b, ask, {}, p);
    CacheRuns.StepKeepsSound(b, ask, p);
    var a1, b1 := CacheRuns.Step(a, ask, p), CacheRuns.Step(b, ask, p);
    if note.Some? {
      CacheRuns.StepKeepsTwins(a1, b1, note.value, asked, p);
      CacheRuns.StepKeepsSound(b1, note.value, p);
      RunTwo(a, ask, note.value, p);
      RunTwo(b, ask, note.value, p);
      assert [ask] + [note.value] == [ask, note.value];
    } else {
      RunOne(a, ask, p);
      RunOne(b, ask, p);
      assert [ask] + [] == [ask];
    }
  }

  /** What a request does to the cache of either run. */
  function OpsFor(ask: CacheRuns.Op, note: Option<CacheRuns.Op>): seq<CacheRuns.Op> {
    [ask] + (if note.Some? then [note.value] else [])
  }

  lemma OpsAre(s: State, q: Query, x: Luck, e: Env, clock: int)
    requires e.settings.semanticCache
    ensures CacheOps(s, q, x, e, clock).0 == OpsFor(CacheRuns.Ask(q.key, Gap(clock, x.askedAt)), NoteOf(s, q, x, e))
  {
    var ask, note := CacheRuns.Ask(q.key, Gap(clock, x.askedAt)), NoteOf(s, q, x, e);
    if note.Some? {
      assert [ask] + [note.value] == [ask, note.value];
    }
  }

  lemma SameOps(s: State, t: State, q: Query, x: Luck, e: Env, clock: int)
    requires NoteOf(s, q, x, e) == NoteOf(t, q, x, e)
    ensures CacheOps(s, q, x, e, clock) == CacheOps(t, q, x, e, clock)
  {
  }

  lemma TwinsMoved(a: CacheRuns.State, b: CacheRuns.State, q: Query, x: Luck, e: Env, clock: int,
                   ops: seq<CacheRuns.Op>, note: Option<CacheRuns.Op>)
    requires CacheRuns.Sound(b, e.settings.policy) && CacheRuns.Twins(a, b, {}, e.settings.policy)
    requires ops == if e.settings.semanticCache then OpsFor(CacheRuns.Ask(q.key, Gap(clock, x.askedAt)), note) else []
    requires note.Some? ==> note.value.Note? && note.value.key == q.key
    ensures var p := e.settings.policy;
      && CacheRuns.Sound(CacheRuns.Run(b, ops, p), p)
      && CacheRuns.Twins(CacheRuns.Run(a, ops, p), CacheRuns.Run(b, ops, p), {}, p)
  {
    if e.settings.semanticCache {
      TwinsThroughOps(a, b, CacheRuns.Ask(q.key, Gap(clock, x.askedAt)), note, e.settings.policy);
    }
  }

  lemma RequestTwins(s: State, t: State, q: Query, x: Luck, e: Env, clock: int)
    requires Beside(s, t, clock, e) && Timed(x, clock) && q.key == q.logKey
    requires NoteOf(s, q, x, e) == NoteOf(t, q, x, e)
    ensures var s', t', after := RouteRequest(s, q, x, e).0, RouteRequest(t, q, x, e).0, CacheOps(s, q, x, e, clock).1;
      && CacheRuns.Sound(CacheOf(t', after), e.settings.policy)
      && CacheRuns.Twins(CacheOf(s', after), CacheOf(t', after), {}, e.settings.policy)
      && after <= x.recordedAt
  {
    RequestCache(s, q, x, e, clock);
    RequestCache(t, q, x, e, clock);
    SameOps(s, t, q, x, e, clock);
    if e.settings.semanticCache {
      OpsAre(s, q, x, e, clock);
    }
    TwinsMoved(CacheOf(s, clock), CacheOf(t, clock), q, x, e, clock, CacheOps(s, q, x, e, clock).0, NoteOf(s, q, x, e));
  }

  lemma RequestKeepsBeside(s: State, t: State, q: Query, x: Luck, e: Env, clock: int)
    requires Beside(s, t, clock, e) && Timed(x, clock) && q.key == q.logKey
    ensures Beside(RouteRequest(s, q, x, e).0, RouteRequest(t, q, x, e).0, CacheOps(s, q, x, e, clock).1, e)
    ensures RouteRequest(s, q, x, e).1 == RouteRequest(t, q, x, e).1
    ensures CacheOps(s, q, x, e, clock).1 <= x.recordedAt
  {
    TwinsAnswerAlike(s, t, q, x, e, clock);
    RequestBlind(s, t, q, x, e);
    RequestTwins(s, t, q, x, e, clock);
  }

  lemma RestartKeepsBeside(s: State, t: State, clock: int, e: Env)
    requires Beside(s, t, clock, e)
    ensures Beside(s, Moved(t, RestartCache, e), clock, e)
  {
    CacheRuns.TwinsAcrossRestart(CacheOf(s, clock), CacheOf(t, clock), {}, e.settings.policy);
    CacheRuns.StepKeepsSound(CacheOf(t, clock), CacheRuns.Restart, e.settings.policy);
  }

  // ---- Whole runs ---------------------------------------------------------

  ghost predicate Plainly(moves: seq<Move>) {
    forall k :: 0 <= k < |moves| && moves[k].Serve? ==> moves[k].step.query.key == moves[k].step.query.logKey
  }

  lemma PlainlyInit(moves: seq<Move>)
    requires moves != [] && Plainly(moves)
    ensures Plainly(moves[..|moves| - 1])
    ensures moves[|moves| - 1].Serve? ==>
              moves[|moves| - 1].step.query.key == moves[|moves| - 1].step.query.logKey
  {
    var init := moves[..|moves| - 1];
    assert forall k :: 0 <= k < |init| ==> init[k] == moves[k];
  }

  lemma InTimeInit(steps: seq<Step>, step: Step, start: int)
    requires InTime(steps + [step], start)
    ensures InTime(steps, start) && Timed(step.luck, ClockAfter(steps, start))
  {
    var all := steps + [step];
    assert all[..|steps|] == steps && all[|steps|] == step;
    forall k | 0 <= k < |steps| ensures Timed(steps[k].luck, ClockAfter(steps[..k], start)) {
      assert all[k] == steps[k] && all[..k] == steps[..k];
    }
  }

  lemma OneStepMore(s: State, steps: seq<Step>, step: Step, e: Env, start: int)
    ensures Run(s, steps + [step], e) == RouteRequest(Run(s, steps, e), step.query, step.luck, e).0
    ensures Results(s, steps + [step], e) == Results(s, steps, e) + [ResultAt(Run(s, steps, e), step, e)]
    ensures CacheRun(s, steps + [step], e, start).1
         == CacheOps(Run(s, steps, e), step.query, step.luck, e, CacheRun(s, steps, e, start).1).1
  {
    assert (steps + [step])[..|steps|] == steps;
  }

  /** The run with restarts is always beside the run without them. */
  ghost predicate Along(s: State, moves: seq<Move>, e: Env, start: int) {
    var steps := StepsOf(moves);
    && Beside(Run(s, steps, e), RunMoves(s, moves, e), CacheRun(s, steps, e, start).1, e)
    && CacheRun(s, steps, e, start).1 <= ClockAfter(steps, start)
    && MoveResults(s, moves, e) == Results(s, steps, e)
  }

  lemma ServeAlong(s: State, init: seq<Move>, step: Step, e: Env, start: int)
    requires Along(s, init, e, start) && step.query.key == step.query.logKey
    requires Timed(step.luck, ClockAfter(StepsOf(init), start))
    ensures Along(s, init + [Serve(step)], e, start)
  {
    var moves, steps := init + [Serve(step)], StepsOf(init);
    assert moves[..|init|] == init;
    assert StepsOf(moves) == steps + [step];
    OneStepMore(s, steps, step, e, start);
    TimedLater(step.luck, CacheRun(s, steps, e, start).1, ClockAfter(steps, start));
    RequestKeepsBeside(Run(s, steps, e), RunMoves(s, init, e), step.query, step.luck, e, CacheRun(s, steps, e, start).1);
  }

  lemma TimedLater(x: Luck, early: int, after: int)
    requires Timed(x, after) && early <= after
    ensures Timed(x, early)
  {
  }

  lemma RestartAlong(s: State, init: seq<Move>, e: Env, start: int)
    requires Along(s, init, e, start)
    ensures Along(s, init + [RestartCache], e, start)
  {
    var moves, steps := init + [RestartCache], StepsOf(init);
    assert moves[..|init|] == init;
    assert StepsOf(moves) == steps + [] == steps;
    RestartKeepsBeside(Run(s, steps, e), RunMoves(s, init, e), CacheRun(s, steps, e, start).1, e);
  }

  ghost predicate Fair(moves: seq<Move>, start: int) {
    InTime(StepsOf(moves), start) && Plainly(moves)
  }

  lemma FairInit(init: seq<Move>, last: Move, start: int)
    requires Fair(init + [last], start)
    ensures Fair(init, start)
    ensures last.Serve? ==>
      last.step.query.key == last.step.query.logKey && Timed(last.step.luck, ClockAfter(StepsOf(init), start))
  {
    var moves := init + [last];
    assert moves[..|init|] == init;
    PlainlyInit(moves);
    if last.Serve? {
      InTimeInit(StepsOf(init), last.step, start);
    } else {
      assert StepsOf(moves) == StepsOf(init) + [] == StepsOf(init);
    }
  }

  lemma {:induction false} RunsBeside(s: State, moves: seq<Move>, e: Env, start: int)
    requires CacheRuns.Sound(CacheOf(s, start), e.settings.policy) && Fair(moves, start)
    ensures Along(s, moves, e, start)
  {
    if moves == [] {
    } else {
      var init, last := moves[..|moves| - 1], moves[|moves| - 1];
      assert moves == init + [last];
      FairInit(init, last, start);
      RunsBeside(s, init, e, start);
      MoveAlong(s, init, last, e, start);
    }
  }

  lemma MoveAlong(s: State, init: seq<Move>, last: Move, e: Env, start: int)
    requires Along(s, init, e, start)
    requires last.Serve? ==>
      last.step.query.key == last.step.query.logKey && Timed(last.step.luck, ClockAfter(StepsOf(init), start))
    ensures Along(s, init + [last], e, start)
  {
    if last.Serve? {
      ServeAlong(s, init, last.step, e, start);
    } else {
      RestartAlong(s, init, e, start);
    }
  }

  /**
     Restarting the cache between requests, any number of times and anywhere in a run, changes
     no result, as long as logs are redacted no more than prompts. The states differ at most in
     the cache, and there only in what no later question can tell: when an entry was first seen,
     and entries that have expired.
   */
  lemma RestartsGoUnnoticed(s: State, moves: seq<Move>, e: Env, start: int)
    requires CacheRuns.Sound(CacheOf(s, start), e.settings.policy)
    requires Fair(moves, start)
    ensures MoveResults(s, moves, e) == Results(s, StepsOf(moves), e)
    ensures var plain, restarted := Run(s, StepsOf(moves), e), RunMoves(s, moves, e);
      var clock := CacheRun(s, StepsOf(moves), e, start).1;
      && SameButCache(plain, restarted)
      && CacheRuns.Twins(CacheOf(plain, clock), CacheOf(restarted, clock), {}, e.settings.policy)
  {
    RunsBeside(s, moves, e, start);
  }
}
