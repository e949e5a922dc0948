/**
 What the route of a request depends on (internal/router/router.go, Route): the cache if it knows,
 the judge if one is asked for, otherwise nothing but the threshold, and the judge again when the
 weak tier takes too long.
 */
module RouteDecided {
  import opened Common
  import opened Threshold
  import opened Escalation
  import opened Routing
  import Cache = SemanticCache
  import Cycles = CycleDetector
  import Failover
  import RouteMemory
  import RouterLockIn
  import SimHash

  /** The cache has an entry for the request that is not too old, and its calls speak for the
      route: enough of them, more than for the other one, and at least the configured share. */
  predicate Knows(s: State, q: Query, x: Luck, route: Route, e: Env) {
    var mem, p := RouterLockIn.MemoryNow(s.cache), e.settings.policy;
    && e.settings.semanticCache && q.key in mem && x.askedAt - mem[q.key].lastCalled <= p.ttl
    && var n := mem[q.key];
       var mine, other := if route == Strong then n.strong else n.weak, if route == Strong then n.weak else n.strong;
       n.total >= p.minSamples && mine > other && mine as real >= p.confidence * ((n.weak + n.strong) as real)
  }

  lemma AnswerKnows(s: State, q: Query, x: Luck, e: Env)
    ensures Looked(s, q, x, e).1.route
         == if Knows(s, q, x, Strong, e) then Some(Strong) else if Knows(s, q, x, Weak, e) then Some(Weak) else None
  {
    var mem := RouterLockIn.MemoryNow(s.cache);
    if q.key in mem && mem[q.key].weak + mem[q.key].strong > 0 {
      RouteMemory.AnswerMeansShare(mem[q.key], e.settings.policy);
    }
  }

  /** The confidence told with the answer: the share of the more frequent route, and zero where the
      cache has no calls to go by. */
  lemma ConfidenceTold(s: State, q: Query, x: Luck, e: Env)
    requires e.settings.semanticCache
    ensures var mem, conf := RouterLockIn.MemoryNow(s.cache), Looked(s, q, x, e).1.confidence;
      if q.key !in mem || x.askedAt - mem[q.key].lastCalled > e.settings.policy.ttl || mem[q.key].weak + mem[q.key].strong == 0
      then conf == 0.0
      else
        var n := mem[q.key];
        conf * ((n.weak + n.strong) as real) == (if n.weak < n.strong then n.strong else n.weak) as real
  {
  }

  /** Every decision is made at the threshold and in the mode the request finds. */
  predicate StrictNow(s: State, e: Env) {
    e.settings.dynamicThreshold && Strict(s.control, e.settings.tuning)
  }

  /** Strict mode takes 0.15 off the score and lets only a high impact pass. */
  predicate Reaches(score: real, impact: Impact, s: State, e: Env) {
    if StrictNow(s, e) then score - 0.15 >= s.control.threshold && impact == High else score >= s.control.threshold
  }

  /** The request went through one round of calls, on this verdict. */
  ghost predicate OneRound(
    turn: Turn, score: real, impact: Impact, judged: bool, s: State, q: Query, x: Luck, cycle: bool, e: Env)
  {
    && turn.route == (if cycle || Reaches(score, impact, s, e) then Strong else Weak)
    && turn.verdict == Judged(score, impact) && turn.judged == judged
    && turn.outcome == Call(s, turn.route, q.estimate, x.reply, x.checkedAt, e)
  }

  /** The request went through a second one, on the judge's verdict. */
  ghost predicate SecondRound(turn: Turn, s: State, q: Query, x: Luck, cycle: bool, e: Env) {
    && turn.route == (if cycle || Reaches(x.judged.score, x.judged.impact, s, e) then Strong else Weak)
    && turn.verdict == x.judged && turn.judged
    && turn.outcome == Call(s, turn.route, q.estimate, x.retry, x.recheckedAt, e)
  }

  /** The first call is left to a timeout: nobody has said whether to ask a judge, the cache knows
      nothing, and the route is weak. */
  predicate Conditional(s: State, q: Query, x: Luck, cycle: bool, e: Env) {
    && q.useJudge == None && !Knows(s, q, x, Strong, e) && !Knows(s, q, x, Weak, e)
    && !cycle && !Reaches(0.0, Low, s, e)
  }

  lemma SameCall(s: State, ready: State, route: Route, estimate: int,
                 reply: (nat, Failover.Attempt) -> Failover.Reply, at: nat -> int, e: Env)
    requires s.usage == ready.usage
    ensures Call(s, route, estimate, reply, at, e) == Call(ready, route, estimate, reply, at, e)
  {
  }

  lemma FirstRound(s: State, ready: State, q: Query, x: Luck, a: Cache.Answer, cycle: bool, e: Env)
    requires ready.usage == s.usage && ready.control == s.control
    ensures var turn := TakeTurn(ready, q, x, a, cycle, e);
      && (a.route == Some(Strong) ==> OneRound(turn, 0.95, High, false, s, q, x, cycle, e))
      && (a.route == Some(Weak) ==> OneRound(turn, 0.0, Low, false, s, q, x, cycle, e))
      && (a.route == None && q.useJudge == Some(true) ==>
            OneRound(turn, x.judged.score, x.judged.impact, true, s, q, x, cycle, e))
      && (a.route == None && q.useJudge == Some(false) ==> OneRound(turn, 0.0, Low, false, s, q, x, cycle, e))
  {
    var turn := TakeTurn(ready, q, x, a, cycle, e);
    SameCall(s, ready, turn.route, q.estimate, x.reply, x.checkedAt, e);
  }

  lemma UnaskedRound(s: State, ready: State, q: Query, x: Luck, a: Cache.Answer, cycle: bool, e: Env)
    requires ready.usage == s.usage && ready.control == s.control && a.route == None && q.useJudge == None
    ensures var turn := TakeTurn(ready, q, x, a, cycle, e);
      var weak := !cycle && !Reaches(0.0, Low, s, e);
      if weak && x.timedOut && !Call(s, Weak, q.estimate, x.reply, x.checkedAt, e).Served?
      then SecondRound(turn, s, q, x, cycle, e)
      else OneRound(turn, 0.0, Low, false, s, q, x, cycle, e)
  {
    var turn := TakeTurn(ready, q, x, a, cycle, e);
    var first := RouteFor(Judged(0.0, Low), ready, cycle, e);
    SameCall(s, ready, first, q.estimate, x.reply, x.checkedAt, e);
    SameCall(s, ready, turn.route, q.estimate, x.retry, x.recheckedAt, e);
  }

  /** The whole decision, for every state, request and luck. A cached "strong" counts as a score of
      0.95 with high impact, a cached "weak" as zero and low; without either the judge's verdict
      counts if one was asked for, and zero and low if not. A second round, on the judge's verdict,
      happens exactly when the first call was left to a timeout, timed out, and nobody answered. */
  lemma TurnIs(s: State, q: Query, x: Luck, e: Env)
    ensures var turn, cycle := TurnOf(s, q, x, e), CycleSeen(Admitted(s, q, x, e).0, q, e);
      if Conditional(s, q, x, cycle, e) && x.timedOut && !Call(s, Weak, q.estimate, x.reply, x.checkedAt, e).Served?
      then SecondRound(turn, s, q, x, cycle, e)
      else if Knows(s, q, x, Strong, e) then OneRound(turn, 0.95, High, false, s, q, x, cycle, e)
      else if Knows(s, q, x, Weak, e) then OneRound(turn, 0.0, Low, false, s, q, x, cycle, e)
      else if q.useJudge == Some(true) then OneRound(turn, x.judged.score, x.judged.impact, true, s, q, x, cycle, e)
      else OneRound(turn, 0.0, Low, false, s, q, x, cycle, e)
  {
    var (ready, a, _) := Admitted(s, q, x, e);
    var cycle := CycleSeen(ready, q, e);
    AdmissionTeachesNothing(s, q, x, e);
    AskedAnswer(s, q, x, e);
    FirstRound(s, ready, q, x, a, cycle, e);
    if a.route == None && q.useJudge == None {
      UnaskedRound(s, ready, q, x, a, cycle, e);
    }
  }

  lemma AskedAnswer(s: State, q: Query, x: Luck, e: Env)
    ensures Admitted(s, q, x, e).1.route
         == if Knows(s, q, x, Strong, e) then Some(Strong) else if Knows(s, q, x, Weak, e) then Some(Weak) else None
    ensures !(Knows(s, q, x, Strong, e) && Knows(s, q, x, Weak, e))
  {
    AnswerKnows(s, q, x, e);
  }

  // ---- Results ------------------------------------------------------------

  /** With a cached "strong" the request goes to the strong tier exactly when a cycle is seen or
      0.95, 0.80 in strict mode, reaches the threshold. */
  lemma CachedStrongDecides(s: State, q: Query, x: Luck, e: Env)
    requires Knows(s, q, x, Strong, e)
    ensures var r := RouteRequest(s, q, x, e).1;
      !r.OverBudget? ==>
        (r.route == Strong <==>
           CycleSeen(Admitted(s, q, x, e).0, q, e) || (if StrictNow(s, e) then 0.80 else 0.95) >= s.control.threshold)
  {
    AskedAnswer(s, q, x, e);
    TurnIs(s, q, x, e);
    RouterLockIn.ResultFollowsTurn(s, q, x, e);
  }

  /** With a cached "weak", exactly when a cycle is seen or, outside strict mode, the threshold is
      down at zero. */
  lemma CachedWeakDecides(s: State, q: Query, x: Luck, e: Env)
    requires Knows(s, q, x, Weak, e)
    ensures var r := RouteRequest(s, q, x, e).1;
      !r.OverBudget? ==>
        (r.route == Strong <==>
           CycleSeen(Admitted(s, q, x, e).0, q, e) || (!StrictNow(s, e) && s.control.threshold <= 0.0))
  {
    AskedAnswer(s, q, x, e);
    TurnIs(s, q, x, e);
    RouterLockIn.ResultFollowsTurn(s, q, x, e);
  }

  /** When the cache knows nothing and a judge is asked for, its score and impact decide. */
  lemma JudgeDecides(s: State, q: Query, x: Luck, e: Env)
    requires !Knows(s, q, x, Strong, e) && !Knows(s, q, x, Weak, e) && q.useJudge == Some(true)
    ensures var r := RouteRequest(s, q, x, e).1;
      !r.OverBudget? ==>
        (r.route == Strong <==>
           || CycleSeen(Admitted(s, q, x, e).0, q, e)
           || (if StrictNow(s, e) then x.judged.score - 0.15 >= s.control.threshold && x.judged.impact == High
               else x.judged.score >= s.control.threshold))
  {
    TurnIs(s, q, x, e);
    RouterLockIn.ResultFollowsTurn(s, q, x, e);
  }

  /** When it is asked not to judge, only a threshold at zero makes a request strong; when nobody
      has said anything, so does the judge's verdict after the weak round timed out unanswered. */
  lemma NobodyDecides(s: State, q: Query, x: Luck, e: Env)
    requires !Knows(s, q, x, Strong, e) && !Knows(s, q, x, Weak, e) && q.useJudge != Some(true)
    ensures var r, cycle := RouteRequest(s, q, x, e).1, CycleSeen(Admitted(s, q, x, e).0, q, e);
      var again := q.useJudge == None && x.timedOut && !Call(s, Weak, q.estimate, x.reply, x.checkedAt, e).Served?;
      !r.OverBudget? ==>
        (r.route == Strong <==>
           cycle || (!StrictNow(s, e) && s.control.threshold <= 0.0)
           || (again && Reaches(x.judged.score, x.judged.impact, s, e)))
  {
    TurnIs(s, q, x, e);
    RouterLockIn.ResultFollowsTurn(s, q, x, e);
  }

  /** The route memory of RouteMemory decides the same way as the router, where `judged` is what the
      verdict that counts comes to without a cycle. */
  lemma RouteMemoryAgrees(s: State, q: Query, x: Luck, e: Env, r: RouteMemory.Served)
    requires r.threshold == s.control.threshold && r.strict == StrictNow(s, e)
    requires r.cycle == CycleSeen(Admitted(s, q, x, e).0, q, e)
    requires var v := TurnOf(s, q, x, e).verdict; r.judged == if Reaches(v.score, v.impact, s, e) then Strong else Weak
    ensures TurnOf(s, q, x, e).route == RouteMemory.RouteServed(Admitted(s, q, x, e).1, r)
  {
    AskedAnswer(s, q, x, e);
    TurnIs(s, q, x, e);
  }

  /** A cycle is seen exactly when detection is on and the hash of the prompt, taken together with
      the session's last response, is near enough to one the session's detector has kept. */
  lemma CycleIs(s: State, q: Query, x: Luck, e: Env)
    requires e.settings.maxSessions >= 1 && Admitted(s, q, x, e).2
    ensures var m := if q.session in s.memories then s.memories[q.session] else Cycles.Memory([], "");
      var hash := SimHash.Vote(e.tokens(q.prompt + "\n" + m.lastResponse));
      CycleSeen(Admitted(s, q, x, e).0, q, e) <==>
        && e.settings.cycleDetection
        && exists i :: 0 <= i < |m.recent| && SimHash.HammingDistance(hash, m.recent[i]) <= e.settings.cycleThreshold
  {
    LatestIsLive(s.fetched, q.session, e);
  }
}
