/**
 A concrete request (internal/router/router.go, Route) that is sent more than its answer, as the
 first of a newly started router with its default settings: the weak model streams some text and
 runs into the conditional timeout, the judgement that follows decides for the weak tier again,
 and the second call answers at once.
 */
module StreamedTwice {
  import opened Common
  import opened Escalation
  import opened Routing
  import opened SmallSetup
  import Budget = SessionStore
  import BudgetProtocol
  import Cache = SemanticCache
  import Config
  import Failover
  import Router
  import SimHash

  const DEFAULTS: Router.Options := Router.Options(
    true, true, true, true, 10.0, 0.05, 20, 0.7, 3, 0.75, 604_800_000_000_000, 3, 50)

  const START: State := Router.Started(DEFAULTS, map[], map[])

  function EnvWith(tokens: string -> seq<SimHash.Word>): Env {
    Env(Router.SettingsOf(DEFAULTS), CONFIG, map[], tokens)
  }

  /** Nobody asks for a judge, and the cache does not answer. */
  const QUERY: Query := Query("s", "hello", "h", "h", None, 1)

  lemma NothingCached(now: int, p: Cache.Policy)
    ensures Cache.AskWorld(Cache.World(map[], false, map[]), "h", now, p).1 == Cache.NO_ANSWER
  {
  }

  /** The reservation is made, and there is nothing to repeat. */
  lemma FirstAdmitted(x: Luck, tokens: string -> seq<SimHash.Word>)
    ensures var e := EnvWith(tokens);
      var (ready, a, admitted) := Admitted(START, QUERY, x, e);
      && admitted && a == Cache.NO_ANSWER && ready.control == START.control
      && "s" in ready.sessions && ready.sessions["s"] == Budget.Row(5.0, 10.0, true, 1)
      && !CycleSeen(ready, QUERY, e)
  {
    NothingCached(x.askedAt, EnvWith(tokens).settings.policy);
  }

  /** What the world does: the first call times out after some text, the judge is disabled and the
      heuristic finds nothing special about the prompt, the second call answers. */
  ghost predicate TimesOutOnce(x: Luck) {
    && x.timedOut && x.judged == Judged(0.1, Low) && !x.settleError && !x.readError && !x.logError
    && x.reply(0, OnlyCall(Weak)) == Failover.Failure("abc", "timeout")
    && x.retry(0, OnlyCall(Weak)) == Failover.Answer("hello to you", "hello to you", "w", 0.0, 1)
  }

  lemma TwoRounds(s: State, x: Luck, e: Env)
    requires e.config == CONFIG && e.status == map[] && TimesOutOnce(x) && s.control == START.control
    ensures var turn := TakeTurn(s, QUERY, x, Cache.NO_ANSWER, false, e);
      && turn.route == Weak && turn.outcome == EndOf(Weak, x.retry(0, OnlyCall(Weak)))
      && turn.received == "abc" + "hello to you"
  {
    OneCall(s, Weak, 1, x.reply, x.checkedAt, e);
    OneCall(s, Weak, 1, x.retry, x.recheckedAt, e);
    OneText(x.reply(0, OnlyCall(Weak)));
    OneText(x.retry(0, OnlyCall(Weak)));
  }

  lemma Concludes(s: State, x: Luck, turn: Turn, e: Env)
    requires e.settings == Router.SettingsOf(DEFAULTS) && TimesOutOnce(x)
    requires "s" in s.sessions && s.sessions["s"] == Budget.Row(5.0, 10.0, true, 1)
    requires turn.outcome == EndOf(Weak, x.retry(0, OnlyCall(Weak)))
    ensures var r := Concluded(s, QUERY, x, false, turn, e).1; r.Answered? && r.content == "hello to you"
  {
    assert BudgetProtocol.FinalCost(0.0) == 0.0;
    assert Budget.Settle(Budget.Row(5.0, 10.0, true, 1), BudgetProtocol.ESTIMATE, 0.0).1;
  }

  /** The caller of this served request is sent "abc" and then the answer. */
  lemma TimedOutText(x: Luck, tokens: string -> seq<SimHash.Word>)
    requires TimesOutOnce(x)
    ensures Config.WellFormed(EnvWith(tokens).config)
    ensures var r := RouteRequest(START, QUERY, x, EnvWith(tokens)).1; r.Answered? && r.content == "hello to you"
    ensures TurnOf(START, QUERY, x, EnvWith(tokens)).received == "abc" + "hello to you"
  {
    var e := EnvWith(tokens);
    Valid();
    FirstAdmitted(x, tokens);
    var (ready, _, _) := Admitted(START, QUERY, x, e);
    TwoRounds(ready, x, e);
    Concludes(ready, x, TurnOf(START, QUERY, x, e), e);
  }
}
