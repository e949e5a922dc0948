/**
 Which models the router calls in a round (internal/router/router.go, callCandidates and
 candidates): those of the tier that are on, not taken out by an operator and let through by the
 limiter, one after the other until one answers.
 */
module RouterCalls {
  import opened Common
  import opened Escalation
  import opened Routing
  import Cache = SemanticCache
  import Config
  import Failover
  import Rate = RateLimiter

  /** The model is configured, on, and no operator has taken it out. */
  predicate Routable(id: string, e: Env) {
    && id in e.config.models && e.config.models[id].enabled
    && (id !in e.status || e.status[id] == "" || e.status[id] == "active")
  }

  /** The limiter has room for this request, at 0.95 of each of the model's limits. */
  predicate LetThrough(id: string, s: State, at: int, estimate: int, e: Env)
    requires id in e.config.models
  {
    Rate.Admits(if id in s.usage then s.usage[id] else [], at, e.config.models[id].limits, 0.95, estimate)
  }

  ghost function Tier(route: Route, e: Env): (tier: seq<string>)
    ensures Failover.Known(tier, e.config)
  {
    var order := TierOrder(route, e.config);
    Failover.CandidatesKnown(order, e.config, e.status);
    Failover.Candidates(order, e.config.models, e.status)
  }

  /** The calls of a round, as far as all of them fail. */
  ghost function Planned(
    s: State, route: Route, estimate: int, reply: (nat, Failover.Attempt) -> Failover.Reply, at: nat -> int, e: Env)
    : seq<Failover.Attempt>
  {
    Failover.Plan(Tier(route, e), WorldFor(s, route, estimate, reply, at, e), e.config)
  }

  lemma AllowedMeans(s: State, id: string, at: int, estimate: int, e: Env)
    ensures Failover.AllowsAt(s.usage, id, at, estimate, MARGIN, e.config)
            <==> id in e.config.models && LetThrough(id, s, at, estimate, e)
  {
    if id in e.config.models {
      Rate.VerdictMeaning(Rate.Recorded(s.usage, id), at, e.config.models[id].limits, MARGIN, estimate);
    }
  }

  /** No call is ever planned for a model outside the tier, a disabled one, one an operator took out,
      or one the limiter has no room for, nor with a key its instances do not offer. */
  lemma PlannedCall(
    s: State, route: Route, estimate: int, reply: (nat, Failover.Attempt) -> Failover.Reply, at: nat -> int, e: Env, k: nat)
    returns (place: nat)
    requires k < |Planned(s, route, estimate, reply, at, e)|
    ensures var c, tier := Planned(s, route, estimate, reply, at, e)[k], Tier(route, e);
      && c.model in (if route == Strong then e.config.strongOrder else e.config.weakOrder) && Routable(c.model, e)
      && place < |tier| && tier[place] == c.model && LetThrough(c.model, s, at(place), estimate, e)
      && exists i, p :: i in Config.InstancesOf(e.config.models[c.model]) && Failover.Offers(i, p, c.key, e.config)
  {
    var w, tier := WorldFor(s, route, estimate, reply, at, e), Tier(route, e);
    var c := Planned(s, route, estimate, reply, at, e)[k];
    place := Failover.PlannedModel(tier, w, e.config, k);
    Failover.CandidatesMeaning(TierOrder(route, e.config), e.config.models, e.status, c.model);
    AllowedMeans(s, c.model, at(place), estimate, e);
    var m := e.config.models[c.model];
    Failover.KeysAreOffered(m, e.config);
    var items := Failover.ExchangeSort(Failover.UsableItems(Config.InstancesOf(m), e.config));
    var l :| 0 <= l < |items| && items[l].value == c.key;
    assert Failover.KeyItem(items[l].priority, c.key) in items;
  }

  /** The calls that are made are the first of the plan, each one heard as it ends; the first
      answer is the last call, and without an answer the whole plan is called. */
  lemma CallsHeard(
    s: State, route: Route, estimate: int, reply: (nat, Failover.Attempt) -> Failover.Reply, at: nat -> int, e: Env)
    ensures var plan, heard := Planned(s, route, estimate, reply, at, e), Heard(s, route, estimate, reply, at, e);
      && |heard| <= |plan| && (forall k :: 0 <= k < |heard| ==> heard[k] == reply(k, plan[k]))
      && (forall k :: 0 <= k < |heard| - 1 ==> heard[k].Failure?)
      && (|heard| < |plan| ==> heard != [] && heard[|heard| - 1].Answer?)
  {
    Failover.CallsMade(TierOrder(route, e.config), e.config, e.status, WorldFor(s, route, estimate, reply, at, e));
  }

  /** What comes of a round: the answer of its last call, with the model called and the name it
      reported or is configured with, or the error of the last call, or that there was no model or
      none to call. */
  lemma RoundEnds(
    s: State, route: Route, estimate: int, reply: (nat, Failover.Attempt) -> Failover.Reply, at: nat -> int, e: Env)
    ensures var o, plan := Call(s, route, estimate, reply, at, e), Planned(s, route, estimate, reply, at, e);
      var heard := Heard(s, route, estimate, reply, at, e);
      && |heard| <= |plan|
      && (o.NoActiveModels? <==> Tier(route, e) == [])
      && (o.NobodyCouldHandle? <==> Tier(route, e) != [] && plan == [])
      && (o.LastError? <==> heard != [] && heard[|heard| - 1].Failure?)
      && (o.LastError? ==> o.error == heard[|heard| - 1].error)
      && (o.Served? <==> heard != [] && heard[|heard| - 1].Answer?)
      && (o.Served? ==>
            var last, id := heard[|heard| - 1], plan[|heard| - 1].model;
            && o.id == id && id in e.config.models && Carries(o, last)
            && o.model == if last.model == "" then e.config.models[id].modelId else last.model)
  {
    var order, w := TierOrder(route, e.config), WorldFor(s, route, estimate, reply, at, e);
    Failover.CallsMade(order, e.config, e.status, w);
    Failover.PlanKnown(Tier(route, e), w, e.config);
  }

  /** Where a model that can take requests stands among the candidates. */
  lemma PlaceOf(order: seq<string>, p: nat, e: Env) returns (i: nat)
    requires p < |order| && Routable(order[p], e)
    ensures var tier := Failover.Candidates(order, e.config.models, e.status);
      i == |Failover.Candidates(order[..p], e.config.models, e.status)| < |tier| && tier[i] == order[p]
  {
    var models, status := e.config.models, e.status;
    i := |Failover.Candidates(order[..p], models, status)|;
    var front, rest := order[..p + 1], order[p + 1..];
    assert order == front + rest && front == order[..p] + [order[p]];
    Failover.CandidatesKeepOrder(front, rest, models, status);
    Failover.CandidatesKeepOrder(order[..p], [order[p]], models, status);
    Failover.CandidatesOfOne(order[p], models, status);
  }

  lemma KeyPlace(m: Config.Model, c: Config.Configuration, key: string) returns (j: nat)
    requires exists i, p :: i in Config.InstancesOf(m) && Failover.Offers(i, p, key, c)
    ensures j < |Failover.KeyOrder(m, c)| && Failover.KeyOrder(m, c)[j] == key
  {
    Failover.KeysAreOffered(m, c);
    var items := Failover.ExchangeSort(Failover.UsableItems(Config.InstancesOf(m), c));
    var i, p :| i in Config.InstancesOf(m) && Failover.Offers(i, p, key, c);
    assert Failover.KeyItem(p, key) in items;
    j :| 0 <= j < |items| && items[j] == Failover.KeyItem(p, key);
  }

  /** A planned call is made unless one before it is answered. */
  ghost predicate MadeUnlessAnswered(
    n: nat, s: State, route: Route, estimate: int, reply: (nat, Failover.Attempt) -> Failover.Reply, at: nat -> int, e: Env)
  {
    var plan, heard := Planned(s, route, estimate, reply, at, e), Heard(s, route, estimate, reply, at, e);
    n < |plan| &&
    ((forall k :: 0 <= k < n ==> reply(k, plan[k]).Failure?) ==> n < |heard| && heard[n] == reply(n, plan[n]))
  }

  lemma PlannedIsMade(
    n: nat, s: State, route: Route, estimate: int, reply: (nat, Failover.Attempt) -> Failover.Reply, at: nat -> int, e: Env)
    requires n < |Planned(s, route, estimate, reply, at, e)|
    ensures MadeUnlessAnswered(n, s, route, estimate, reply, at, e)
  {
    CallsHeard(s, route, estimate, reply, at, e);
  }

  /** A model of the tier that can take the request has a place at which it is let through. */
  lemma PlaceAllowed(
    s: State, route: Route, estimate: int, reply: (nat, Failover.Attempt) -> Failover.Reply, at: nat -> int, e: Env,
    order: seq<string>, p: nat) returns (i: nat)
    requires order == TierOrder(route, e.config) && p < |order| && Routable(order[p], e)
    requires LetThrough(order[p], s, at(|Failover.Candidates(order[..p], e.config.models, e.status)|), estimate, e)
    ensures i < |Tier(route, e)| && Tier(route, e)[i] == order[p]
    ensures WorldFor(s, route, estimate, reply, at, e).allowed(i)
  {
    i := PlaceOf(order, p, e);
    AllowedMeans(s, order[p], at(i), estimate, e);
  }

  lemma PlannedAt(
    s: State, route: Route, estimate: int, reply: (nat, Failover.Attempt) -> Failover.Reply, at: nat -> int, e: Env,
    i: nat, key: string) returns (n: nat)
    requires i < |Tier(route, e)| && WorldFor(s, route, estimate, reply, at, e).allowed(i)
    requires exists k, p :: k in Config.InstancesOf(e.config.models[Tier(route, e)[i]]) && Failover.Offers(k, p, key, e.config)
    ensures var plan := Planned(s, route, estimate, reply, at, e);
      n < |plan| && plan[n] == Failover.Attempt(Tier(route, e)[i], key)
  {
    var w, tier := WorldFor(s, route, estimate, reply, at, e), Tier(route, e);
    var j := KeyPlace(e.config.models[tier[i]], e.config, key);
    Failover.PlanAt(tier, i, j, w, e.config);
    n := Failover.CallsBefore(tier, i, w, e.config) + j;
  }

  /** And every model of the tier that is on, not taken out and let through is called with every key
      its instances offer, unless a call planned before is answered. */
  lemma ModelIsCalled(
    s: State, route: Route, estimate: int, reply: (nat, Failover.Attempt) -> Failover.Reply, at: nat -> int, e: Env,
    p: nat, key: string) returns (n: nat)
    requires var order := if route == Strong then e.config.strongOrder else e.config.weakOrder;
      && p < |order| && Routable(order[p], e)
      && LetThrough(order[p], s, at(|Failover.Candidates(order[..p], e.config.models, e.status)|), estimate, e)
      && exists i, priority :: i in Config.InstancesOf(e.config.models[order[p]])
                               && Failover.Offers(i, priority, key, e.config)
    ensures var order := if route == Strong then e.config.strongOrder else e.config.weakOrder;
      && MadeUnlessAnswered(n, s, route, estimate, reply, at, e)
      && Planned(s, route, estimate, reply, at, e)[n] == Failover.Attempt(order[p], key)
  {
    var i := PlaceAllowed(s, route, estimate, reply, at, e, TierOrder(route, e.config), p);
    n := PlannedAt(s, route, estimate, reply, at, e, i, key);
    PlannedIsMade(n, s, route, estimate, reply, at, e);
  }

  lemma RoundIsRoutable(
    s: State, route: Route, estimate: int, reply: (nat, Failover.Attempt) -> Failover.Reply, at: nat -> int, e: Env)
    returns (place: nat)
    requires Call(s, route, estimate, reply, at, e).Served?
    ensures var id := Call(s, route, estimate, reply, at, e).id;
      && id in (if route == Strong then e.config.strongOrder else e.config.weakOrder)
      && Routable(id, e) && LetThrough(id, s, at(place), estimate, e)
  {
    RoundEnds(s, route, estimate, reply, at, e);
    place := PlannedCall(s, route, estimate, reply, at, e, |Heard(s, route, estimate, reply, at, e)| - 1);
  }

  lemma TurnIsRoutable(s: State, q: Query, x: Luck, a: Cache.Answer, cycle: bool, e: Env) returns (at: int)
    requires TakeTurn(s, q, x, a, cycle, e).outcome.Served?
    ensures var turn := TakeTurn(s, q, x, a, cycle, e);
      && turn.outcome.id in (if turn.route == Strong then e.config.strongOrder else e.config.weakOrder)
      && Routable(turn.outcome.id, e) && LetThrough(turn.outcome.id, s, at, q.estimate, e)
  {
    var turn := TakeTurn(s, q, x, a, cycle, e);
    if turn.outcome == Call(s, turn.route, q.estimate, x.reply, x.checkedAt, e) {
      var place := RoundIsRoutable(s, turn.route, q.estimate, x.reply, x.checkedAt, e);
      at := x.checkedAt(place);
    } else {
      var place := RoundIsRoutable(s, turn.route, q.estimate, x.retry, x.recheckedAt, e);
      at := x.recheckedAt(place);
    }
  }

  lemma ConclusionNames(s: State, q: Query, x: Luck, cycle: bool, turn: Turn, e: Env)
    requires q.session in s.sessions
    ensures var r := Concluded(s, q, x, cycle, turn, e).1;
      r.Answered? ==> turn.outcome.Served? && r.id == turn.outcome.id && r.route == turn.route
  {
  }

  /** An answer only ever comes from a model of the tier the request was routed to, and never from a
      disabled one, one an operator took out, or one at its limit. */
  lemma AnswerIsRoutable(s: State, q: Query, x: Luck, e: Env) returns (at: int)
    requires RouteRequest(s, q, x, e).1.Answered?
    ensures var r := RouteRequest(s, q, x, e).1;
      && r.id in (if r.route == Strong then e.config.strongOrder else e.config.weakOrder)
      && Routable(r.id, e) && LetThrough(r.id, s, at, q.estimate, e)
  {
    var (ready, a, _) := Admitted(s, q, x, e);
    var cycle := CycleSeen(ready, q, e);
    AdmissionTeachesNothing(s, q, x, e);
    ConclusionNames(ready, q, x, cycle, TakeTurn(ready, q, x, a, cycle, e), e);
    at := TurnIsRoutable(ready, q, x, a, cycle, e);
  }
}
