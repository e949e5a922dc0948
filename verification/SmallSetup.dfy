/**
 The smallest valid configuration (internal/config/sentinel.go): one provider, one key, and one
 model in either tier. Concrete runs of the router are built on it.
 */
module SmallSetup {
  import opened Common
  import opened Escalation
  import opened Routing
  import Cache = SemanticCache
  import Config
  import Failover
  import Rate = RateLimiter

  function NewModel(name: string): Config.Model {
    Config.Model(true, "p", name, "", ["i"], Config.Pricing(0.0, 0.0), Rate.Limits(0, 0, 0, 0), name)
  }

  const CONFIG: Config.Configuration := Config.Configuration(
    map["k" := Config.Key("p", "v")], map["i" := Config.KeyInstance("k", 0, true)],
    map["weak" := NewModel("w"), "strong" := NewModel("s")], ["weak"], ["strong"], false, [])

  /** The model of a tier. */
  function Only(route: Route): string {
    if route == Strong then "strong" else "weak"
  }

  /** The one call a tier can make. */
  function OnlyCall(route: Route): Failover.Attempt {
    Failover.Attempt(Only(route), "v")
  }

  lemma ModelIsGood(name: string)
    ensures Config.GoodModel(NewModel(name), CONFIG.keys, CONFIG.instances)
  {
    var used := Config.InstancesOf(NewModel(name));
    assert used[0] == "i" && CONFIG.instances["i"].enabled;
  }

  /** Validation accepts it. */
  lemma Valid()
    ensures Config.WellFormed(CONFIG)
  {
    assert "k" in CONFIG.keys && "i" in CONFIG.instances && "weak" in CONFIG.models;
    forall id | id in CONFIG.models ensures Config.GoodModel(CONFIG.models[id], CONFIG.keys, CONFIG.instances) {
      ModelIsGood("w");
      ModelIsGood("s");
    }
  }

  lemma OneCandidate(id: string)
    requires id in CONFIG.models
    ensures Failover.Candidates([id], CONFIG.models, map[]) == [id]
  {
    assert [id][..0] == [];
  }

  lemma OneKey(name: string)
    ensures Failover.KeyOrder(NewModel(name), CONFIG) == ["v"]
  {
    var item := Failover.KeyItem(0, "v");
    assert ["i"][..0] == [];
    assert Failover.Usable("i", CONFIG) == Some(item);
    assert Failover.UsableItems(["i"], CONFIG) == [item];
    assert Failover.Rows([item], 0) == [item];
    assert Failover.Rows([item], 1) == Failover.Row([item], 0, 1) == [item];
  }

  lemma OnePlan(route: Route, w: Failover.World)
    requires w.allowed(0)
    ensures Failover.Known([Only(route)], CONFIG) && Failover.Plan([Only(route)], w, CONFIG) == [OnlyCall(route)]
  {
    OneKey("w");
    OneKey("s");
    assert [Only(route)][..0] == [];
  }

  /** How a call of the only model ends. */
  function EndOf(route: Route, r: Failover.Reply): Failover.Outcome {
    match r
    case Answer(_, content, _, cost, tokens) =>
      Failover.Served(Only(route), content, Failover.NameOf(Only(route), r, CONFIG), cost, tokens)
    case Failure(_, error) => Failover.LastError(error)
  }

  lemma OneResolved(route: Route, w: Failover.World)
    requires w.allowed(0)
    ensures var r := w.reply(0, OnlyCall(route));
      Failover.Resolve([OnlyCall(route)], 0, [Only(route)], w, CONFIG) == (EndOf(route, r), 1)
  {
  }

  lemma OneReply(route: Route, w: Failover.World)
    requires w.allowed(0)
    ensures Failover.RepliesOf([Only(route)], CONFIG, map[], w) == [w.reply(0, OnlyCall(route))]
    ensures Failover.OutcomeOf([Only(route)], CONFIG, map[], w) == EndOf(route, w.reply(0, OnlyCall(route)))
  {
    OneCandidate(Only(route));
    OnePlan(route, w);
    OneResolved(route, w);
    assert Failover.Made([OnlyCall(route)], 1, w) == [w.reply(0, OnlyCall(route))];
  }

  lemma NoCaps(name: string, history: seq<Rate.Event>, at: int, estimate: int)
    ensures Rate.Decide(Rate.UsageAt(history, at), Rate.CapsOf(NewModel(name).limits, MARGIN), estimate).Allowed?
  {
    assert Rate.CapsOf(NewModel(name).limits, MARGIN) == Rate.Caps(None, None, None, None);
  }

  lemma AlwaysAllowed(route: Route, usage: Rate.Log, at: int, estimate: int)
    ensures Failover.AllowsAt(usage, Only(route), at, estimate, MARGIN, CONFIG)
  {
    NoCaps("w", Rate.Recorded(usage, Only(route)), at, estimate);
    NoCaps("s", Rate.Recorded(usage, Only(route)), at, estimate);
  }

  lemma FirstAllowed(route: Route, usage: Rate.Log, tier: seq<string>, at: nat -> int, estimate: int)
    requires tier == [Only(route)]
    ensures Failover.Allows(usage, tier, at, estimate, MARGIN, CONFIG)(0)
  {
    assert tier[0] == Only(route);
    AlwaysAllowed(route, usage, at(0), estimate);
  }

  /** A round of calls is a single call. */
  lemma OneCall(s: State, route: Route, estimate: int, reply: (nat, Failover.Attempt) -> Failover.Reply, at: nat -> int, e: Env)
    requires e.config == CONFIG && e.status == map[]
    ensures Heard(s, route, estimate, reply, at, e) == [reply(0, OnlyCall(route))]
    ensures Call(s, route, estimate, reply, at, e) == EndOf(route, reply(0, OnlyCall(route)))
  {
    var w := WorldFor(s, route, estimate, reply, at, e);
    OneCandidate(Only(route));
    assert TierOrder(route, CONFIG) == [Only(route)];
    FirstAllowed(route, s.usage, Failover.Candidates([Only(route)], CONFIG.models, map[]), at, estimate);
    OneReply(route, w);
  }

  lemma OneText(r: Failover.Reply)
    ensures Failover.Text([r]) == r.streamed
  {
    assert [r][..0] == [];
    assert "" + r.streamed == r.streamed;
  }

  /** The turn of a request that is not judged a second time. */
  lemma OneTurn(s: State, q: Query, x: Luck, a: Cache.Answer, cycle: bool, e: Env)
    requires e.config == CONFIG && e.status == map[] && !x.timedOut
    ensures var turn := TakeTurn(s, q, x, a, cycle, e);
      && turn.route == RouteFor(FirstVerdict(a, q, x).0, s, cycle, e) && turn.judged == FirstVerdict(a, q, x).1
      && turn.outcome == EndOf(turn.route, x.reply(0, OnlyCall(turn.route)))
  {
    OneCall(s, RouteFor(FirstVerdict(a, q, x).0, s, cycle, e), q.estimate, x.reply, x.checkedAt, e);
  }

  // ---- Requests in which nothing goes wrong but perhaps the call -----------

  /** Every call ends alike, nothing times out, and the clock stands still. */
  function LuckOf(reply: Failover.Reply, judged: Judged, at: int): Luck {
    Luck(judged, (n, a) => reply, (n, a) => reply, false, false, false, false,
         at, i => at, at, i => at, at, at, at, 0.0)
  }

  /** Without the kill switch every request is admitted, and its result is that of its call. */
  lemma OneResult(s: State, q: Query, reply: Failover.Reply, judged: Judged, at: int, e: Env)
    requires e.config == CONFIG && e.status == map[] && !e.settings.killSwitch
    ensures var x := LuckOf(reply, judged, at);
      var (ready, a, admitted) := Admitted(s, q, x, e);
      var turn, r := TurnOf(s, q, x, e), RouteRequest(s, q, x, e).1;
      && admitted && turn.route == RouteFor(FirstVerdict(a, q, x).0, ready, CycleSeen(ready, q, e), e)
      && turn.judged == FirstVerdict(a, q, x).1 && turn.outcome == EndOf(turn.route, reply)
      && (reply.Answer? ==> r.Answered? && r.route == turn.route && r.content == reply.content)
      && (reply.Failure? ==> r.CallError?)
  {
    var x := LuckOf(reply, judged, at);
    var (ready, a, _) := Admitted(s, q, x, e);
    OneTurn(ready, q, x, a, CycleSeen(ready, q, e), e);
  }
}
