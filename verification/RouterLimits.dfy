/**
 What the rate limits mean for runs of the whole router, in the configured numbers
 (internal/rate/limiter.go, internal/router/router.go).
 */
module RouterLimits {
  import opened Common
  import opened Routing
  import opened TokenBound
  import Cache = SemanticCache
  import Escalation
  import Failover
  import Rate = RateLimiter

  /** Requests handled one after the other: from a limiter that has recorded nothing yet, no closed
      minute of any run holds more answers of a model than 0.95 times its limit per minute, and no
      closed day more than 0.95 times its limit per day. */
  lemma AnswersWithinLimits(s: State, steps: seq<Step>, e: Env, start: int, model: string, a: int)
    requires s.usage == map[] && InTime(steps, start) && model in e.config.models
    ensures var limits, h := e.config.models[model].limits, Used(Run(s, steps, e), model);
      Rate.Within(h, a, 60_000_000_000, limits.rpm, 0.95, 1) && Rate.Within(h, a, 86_400_000_000_000, limits.rpd, 0.95, 1)
  {
    var limits, h := e.config.models[model].limits, Used(Run(s, steps, e), model);
    SequentialRateBound(s, steps, e, start, model, a);
    Rate.ScaledBound(h, a, Rate.MINUTE, limits.rpm, MARGIN, 1);
    Rate.ScaledBound(h, a, Rate.DAY, limits.rpd, MARGIN, 1);
  }

  // ---- Tokens -------------------------------------------------------------

  /** No provider reports a negative token count. */
  ghost predicate TokensReported(x: Luck) {
    forall n: nat, c: Failover.Attempt ::
      && (x.reply(n, c).Answer? ==> x.reply(n, c).tokens >= 0)
      && (x.retry(n, c).Answer? ==> x.retry(n, c).tokens >= 0)
  }

  lemma ServingReply(
    s: State, route: Escalation.Route, estimate: int, reply: (nat, Failover.Attempt) -> Failover.Reply, at: nat -> int,
    e: Env)
    returns (n: nat, c: Failover.Attempt)
    requires Call(s, route, estimate, reply, at, e).Served?
    ensures Carries(Call(s, route, estimate, reply, at, e), reply(n, c))
  {
    var w := WorldFor(s, route, estimate, reply, at, e);
    var calls := Failover.OutcomeIsFirstSuccess(TierOrder(route, e.config), e.config, e.status, w);
    n := calls - 1;
    c := Failover.Plan(Failover.Candidates(TierOrder(route, e.config), e.config.models, e.status), w, e.config)[n];
  }

  lemma TurnTokens(s: State, q: Query, x: Luck, a: Cache.Answer, cycle: bool, e: Env)
    requires TokensReported(x) && TakeTurn(s, q, x, a, cycle, e).outcome.Served?
    ensures TakeTurn(s, q, x, a, cycle, e).outcome.tokens >= 0
  {
    var turn := TakeTurn(s, q, x, a, cycle, e);
    if turn.outcome == Call(s, turn.route, q.estimate, x.reply, x.checkedAt, e) {
      var n, c := ServingReply(s, turn.route, q.estimate, x.reply, x.checkedAt, e);
    } else {
      var n, c := ServingReply(s, turn.route, q.estimate, x.retry, x.recheckedAt, e);
    }
  }

  /** What holds of the records of a model at a time, with nothing in flight. */
  ghost predicate Metered(h: seq<Rate.Event>, clock: int, span: int, cap: int) {
    exists pass :: Charged(Rate.Flow(h, 0, clock, pass), span, cap, 1)
  }

  ghost predicate HasTokenCap(limits: Rate.Limits, span: int, cap: int) {
    TokenCap(Rate.Setup(Rate.CapsOf(limits, MARGIN), 1), span, cap)
  }

  lemma MeteredLater(h: seq<Rate.Event>, clock: int, later: int, span: int, cap: int)
    requires Metered(h, clock, span, cap) && clock <= later
    ensures Metered(h, later, span, cap)
  {
    var pass :| Charged(Rate.Flow(h, 0, clock, pass), span, cap, 1);
    assert Charged(Rate.Flow(h, 0, later, pass), span, cap, 1);
  }

  lemma MeteredGrown(h: seq<Rate.Event>, clock: int, at: int, event: Rate.Event, limits: Rate.Limits, estimate: int,
                     span: int, cap: int)
    requires Metered(h, clock, span, cap) && HasTokenCap(limits, span, cap) && clock <= at <= event.at
    requires Rate.Decide(Rate.UsageAt(h, at), Rate.CapsOf(limits, MARGIN), estimate).Allowed? && event.tokens >= 0
    ensures Metered(h + [event], event.at, span, cap)
  {
    var pass :| Charged(Rate.Flow(h, 0, clock, pass), span, cap, 1);
    var setup := Rate.Setup(Rate.CapsOf(limits, MARGIN), 1);
    var before, asked, done := Rate.Flow(h, 0, clock, pass), Rate.Flow(h, 1, at, at), Rate.Flow(h + [event], 0, event.at, at);
    var ask, finish := Rate.Ask(at, estimate), Rate.Finish(event.at, event.tokens);
    assert Rate.Step(before, ask, setup) == asked && Rate.Step(asked, finish, setup) == done;
    assert Charged(asked, span, cap, 1) by {
      StepCharges(before, ask, setup, span, cap);
    }
    assert Charged(done, span, cap, 1) by {
      StepCharges(asked, finish, setup, span, cap);
    }
  }

  lemma RequestKeepsMetered(s: State, q: Query, x: Luck, e: Env, clock: int, model: string, span: int, cap: int)
    requires model in e.config.models && HasTokenCap(e.config.models[model].limits, span, cap)
    requires Metered(Used(s, model), clock, span, cap) && Timed(x, clock) && TokensReported(x)
    ensures Metered(Used(RouteRequest(s, q, x, e).0, model), x.recordedAt, span, cap)
  {
    var turn := TurnOf(s, q, x, e);
    var (t, r) := RouteWith(s, q, x, turn, e);
    UsageChange(s, q, x, turn, e, model);
    if r.Answered? && r.id == model {
      var (ready, a, _) := Admitted(s, q, x, e);
      var cycle := CycleSeen(ready, q, e);
      AdmissionTeachesNothing(s, q, x, e);
      var at := TurnWasAllowed(ready, q, x, a, cycle, e, clock);
      TurnTokens(ready, q, x, a, cycle, e);
      MeteredGrown(Used(s, model), clock, at, Rate.Event(x.recordedAt, turn.outcome.tokens),
                   e.config.models[model].limits, q.estimate, span, cap);
    } else {
      MeteredLater(Used(s, model), clock, x.recordedAt, span, cap);
    }
  }

  ghost predicate AllReported(steps: seq<Step>) {
    forall k :: 0 <= k < |steps| ==> TokensReported(steps[k].luck)
  }

  lemma Shorter(steps: seq<Step>, start: int)
    requires steps != [] && InTime(steps, start) && AllReported(steps)
    ensures var init, last := steps[..|steps| - 1], steps[|steps| - 1];
      && InTime(init, start) && AllReported(init)
      && Timed(last.luck, ClockAfter(init, start)) && TokensReported(last.luck)
  {
    var init := steps[..|steps| - 1];
    assert forall k :: 0 <= k < |init| ==> init[..k] == steps[..k] && init[k] == steps[k];
  }

  lemma {:induction false} RunKeepsMetered(
    s: State, steps: seq<Step>, e: Env, start: int, model: string, span: int, cap: int)
    requires model in e.config.models && HasTokenCap(e.config.models[model].limits, span, cap)
    requires Metered(Used(s, model), start, span, cap) && InTime(steps, start) && AllReported(steps)
    ensures Metered(Used(Run(s, steps, e), model), ClockAfter(steps, start), span, cap)
  {
    if steps == [] {
    } else {
      var init, last := steps[..|steps| - 1], steps[|steps| - 1];
      Shorter(steps, start);
      RunKeepsMetered(s, init, e, start, model, span, cap);
      RequestKeepsMetered(Run(s, init, e), last.query, last.luck, e, ClockAfter(init, start), model, span, cap);
    }
  }

  lemma MeteredRun(s: State, steps: seq<Step>, e: Env, start: int, model: string, span: int, cap: int, a: int)
    requires s.usage == map[] && InTime(steps, start) && AllReported(steps)
    requires model in e.config.models && HasTokenCap(e.config.models[model].limits, span, cap)
    ensures Spent(Closed(Used(Run(s, steps, e), model), a, span), cap, 1)
  {
    assert Charged(Rate.Flow([], 0, start, start), span, cap, 1);
    RunKeepsMetered(s, steps, e, start, model, span, cap);
  }

  /** And for tokens: without its newest record, no closed minute or day of any run holds as many
      tokens of a model as 0.95 times its limit. */
  lemma TokensWithinLimits(s: State, steps: seq<Step>, e: Env, start: int, model: string, a: int)
    requires s.usage == map[] && InTime(steps, start) && model in e.config.models && AllReported(steps)
    ensures var limits, h := e.config.models[model].limits, Used(Run(s, steps, e), model);
      && TokensWithin(h, a, 60_000_000_000, limits.tpm, 0.95, 1)
      && TokensWithin(h, a, 86_400_000_000_000, limits.tpd, 0.95, 1)
  {
    var limits, h := e.config.models[model].limits, Used(Run(s, steps, e), model);
    if limits.tpm > 0 {
      MeteredRun(s, steps, e, start, model, Rate.MINUTE, Rate.Cap(limits.tpm, MARGIN), a);
    }
    if limits.tpd > 0 {
      MeteredRun(s, steps, e, start, model, Rate.DAY, Rate.Cap(limits.tpd, MARGIN), a);
    }
    SpentMeaning(h, a, Rate.MINUTE, limits.tpm, MARGIN, 1);
    SpentMeaning(h, a, Rate.DAY, limits.tpd, MARGIN, 1);
  }
}
