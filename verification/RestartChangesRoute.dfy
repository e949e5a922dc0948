/**
 A run of the router (internal/router/router.go) in which restarting the semantic cache changes
 where a request goes: logs are redacted and prompts are not, so the cache is told about a prompt
 under a key it was not asked for.
 */
module RestartChangesRoute {
  import opened Common
  import opened Escalation
  import opened Routing
  import opened RestartedRuns
  import opened SmallSetup
  import Cache = SemanticCache
  import CacheRuns
  import Config
  import Failover
  import RestartShows
  import Router
  import SimHash

  /** A cache that answers after three calls and forgets after ten units of time, and neither
      kill switch nor cycle detection nor adaptive threshold. */
  const OPTIONS: Router.Options := Router.Options(
    false, false, false, true, 10.0, 0.05, 20, 0.7, 3, 0.75, 10, 3, 50)

  const START: State := Router.Started(OPTIONS, map[], map[])

  const NO_TOKENS: string -> seq<SimHash.Word> := (t: string) => []

  const ENV: Env := Env(Router.SettingsOf(OPTIONS), CONFIG, map[], NO_TOKENS)

  const FINE: Failover.Reply := Failover.Answer("fine", "fine", "m", 0.0, 1)

  /** A prompt with something to redact: asked under one key, recorded under another. */
  function Secret(at: int): Step {
    Step(Query("s", "my key", "raw", "redacted", None, 1), LuckOf(FINE, Judged(0.1, Low), at))
  }

  /** The same prompt as it looks when redacted; its call fails. */
  const LATE: Step := Step(
    Query("s", "my ***", "redacted", "redacted", None, 1), LuckOf(Failover.Failure("", "down"), Judged(0.1, Low), 11))

  /** And once more, with a judge who finds it demanding. */
  const FINAL: Step := Step(
    Query("s", "my ***", "redacted", "redacted", Some(true), 1), LuckOf(FINE, Judged(0.9, High), 11))

  const BEFORE: seq<Move> := [Serve(Secret(0)), Serve(Secret(0)), Serve(LATE)]

  /** What each of the answered requests reports. */
  const CALL: Cache.Call := Cache.Call(Weak, "weak", 0.0, false, 0.0, 1)

  const TWO_CALLS: Cache.Rows := map["redacted" := Cache.ToRow(RestartShows.TwoCalls("redacted", CALL))]

  // ---- The requests -------------------------------------------------------

  const SHORT: Cache.Policy := RestartShows.SHORT_POLICY

  /** What of the settings matters. */
  ghost predicate Fits(e: Env) {
    && e.config == CONFIG && e.status == map[] && e.settings.policy == SHORT && e.settings.semanticCache
    && !e.settings.killSwitch && !e.settings.cycleDetection && !e.settings.dynamicThreshold
  }

  lemma OptionsFit()
    ensures Fits(ENV)
  {
  }

  /** Where the run stands: the cache, with the threshold as at the start. */
  ghost predicate Holds(s: State, w: Cache.World) {
    s.control.threshold == 0.7 && s.cache == w
  }

  ghost function After(s: State, step: Step, e: Env): State {
    RouteRequest(s, step.query, step.luck, e).0
  }

  lemma ThresholdStays(s: State, step: Step, e: Env)
    requires Fits(e)
    ensures After(s, step, e).control == s.control
  {
    var q, x := step.query, step.luck;
    AdmissionTeachesNothing(s, q, x, e);
    var (ready, _, admitted) := Admitted(s, q, x, e);
    if admitted {
      ConclusionControl(ready, q, x, CycleSeen(ready, q, e), TurnOf(s, q, x, e), e);
    }
  }

  /** An answered weak request is recorded under its log key. */
  lemma SecretNoted(s: State, at: int, e: Env)
    requires Fits(e) && s.control.threshold == 0.7
    requires Looked(s, Secret(at).query, Secret(at).luck, e).1 == Cache.NO_ANSWER
    ensures NoteOf(s, Secret(at).query, Secret(at).luck, e) == Some(CacheRuns.Note("redacted", CALL, 0, 0))
  {
    OneResult(s, Secret(at).query, FINE, Judged(0.1, Low), at, e);
    AdmissionTeachesNothing(s, Secret(at).query, Secret(at).luck, e);
  }

  function NotedAt(w: Cache.World, at: int): Cache.World {
    Cache.NoteWorld(Cache.EnsureLoaded(w), "redacted", CALL, at, at, SHORT)
  }

  predicate RawUnknown(w: Cache.World) {
    "raw" !in Cache.EnsureLoaded(w).mem
  }

  lemma RawNotAnswered(w: Cache.World, at: int)
    requires RawUnknown(w)
    ensures Cache.AskWorld(w, "raw", at, SHORT) == (Cache.EnsureLoaded(w), Cache.NO_ANSWER)
  {
  }

  lemma SecretStep(s: State, at: int, w: Cache.World, e: Env)
    requires Fits(e) && Holds(s, w) && RawUnknown(w)
    ensures Holds(After(s, Secret(at), e), NotedAt(w, at))
  {
    RawNotAnswered(w, at);
    SecretNoted(s, at, e);
    RequestCacheValue(s, Secret(at).query, Secret(at).luck, e);
    ThresholdStays(s, Secret(at), e);
  }

  function AskedLate(w: Cache.World): (Cache.World, Cache.Answer) {
    Cache.AskWorld(w, "redacted", 11, SHORT)
  }

  lemma LateStep(s: State, w: Cache.World, e: Env)
    requires Fits(e) && Holds(s, w)
    ensures Holds(After(s, LATE, e), AskedLate(w).0)
  {
    OneResult(s, LATE.query, Failover.Failure("", "down"), Judged(0.1, Low), 11, e);
    RequestCacheValue(s, LATE.query, LATE.luck, e);
    ThresholdStays(s, LATE, e);
  }

  ghost predicate RoutedFinally(s: State, e: Env, route: Route) {
    var r := ResultAt(s, FINAL, e);
    r.Answered? && r.route == route
  }

  /** The last request goes where the cache says, or the judge. */
  lemma FinalStep(s: State, w: Cache.World, e: Env)
    requires Fits(e) && Holds(s, w)
    ensures AskedLate(w).1.route == Some(Weak) ==> RoutedFinally(s, e, Weak)
    ensures AskedLate(w).1.route == None ==> RoutedFinally(s, e, Strong)
  {
    OneResult(s, FINAL.query, FINE, Judged(0.9, High), 11, e);
    AdmissionTeachesNothing(s, FINAL.query, FINAL.luck, e);
  }

  // ---- The cache ----------------------------------------------------------

  /** A new process over an empty table. */
  const NEW: Cache.World := Cache.World(map[], false, map[])

  lemma KeysDiffer()
    ensures "raw" != "redacted"
  {
    assert |"raw"| == 3 && |"redacted"| == 8;
  }

  lemma NewUnknown()
    ensures RawUnknown(NEW)
  {
  }

  lemma StillUnknown(w: Cache.World, at: int)
    requires RawUnknown(w)
    ensures RawUnknown(NotedAt(w, at))
  {
    KeysDiffer();
  }

  lemma RowsUnknown()
    ensures RawUnknown(FORGOTTEN) && RawUnknown(RENEWED) && CacheRuns.Restarted(FORGOTTEN) == RENEWED
  {
    KeysDiffer();
  }

  lemma FirstNoted(key: string, call: Cache.Call)
    ensures Cache.EnsureLoaded(Cache.World(map[], false, map[])) == Cache.EMPTY_WORLD
    ensures var w := Cache.NoteWorld(Cache.EMPTY_WORLD, key, call, 0, 0, SHORT); Cache.EnsureLoaded(w) == w
  {
  }

  const TWICE: Cache.World := Cache.World(map["redacted" := RestartShows.TwoCalls("redacted", CALL)], true, TWO_CALLS)

  const FORGOTTEN: Cache.World := Cache.World(map[], true, TWO_CALLS)

  const RENEWED: Cache.World := Cache.World(map[], false, TWO_CALLS)

  lemma TwiceNoted()
    ensures NotedAt(NotedAt(NEW, 0), 0) == TWICE
  {
    FirstNoted("redacted", CALL);
    RestartShows.SecondNote("redacted", CALL);
  }

  lemma TooLate()
    ensures AskedLate(TWICE).0 == FORGOTTEN
  {
    RestartShows.AskTooLate("redacted", CALL);
  }

  /** With the process kept, the third recording stands alone. */
  lemma KeptAnswer()
    ensures AskedLate(NotedAt(FORGOTTEN, 11)).1.route == None
  {
    RestartShows.OneCall("redacted", CALL, 11, SHORT);
  }

  /** A new process reads the two calls back. */
  lemma RestartedAnswer()
    ensures AskedLate(NotedAt(RENEWED, 11)).1.route == Some(Weak)
  {
    var row := TWO_CALLS["redacted"];
    RestartShows.AllCalls(row, CALL, 11, SHORT);
    assert Cache.EnsureLoaded(RENEWED).mem["redacted"] == Cache.FromRow(row);
  }

  // ---- The runs -----------------------------------------------------------

  /** Two recordings under the redacted key, and a question when they have expired. */
  lemma TwoAndLate(s0: State, s1: State, s2: State, s3: State, e: Env)
    requires Fits(e) && Holds(s0, NEW)
    requires s1 == After(s0, Secret(0), e) && s2 == After(s1, Secret(0), e) && s3 == After(s2, LATE, e)
    ensures Holds(s3, FORGOTTEN)
  {
    NewUnknown();
    SecretStep(s0, 0, NEW, e);
    StillUnknown(NEW, 0);
    SecretStep(s1, 0, NotedAt(NEW, 0), e);
    TwiceNoted();
    LateStep(s2, TWICE, e);
    TooLate();
  }

  lemma KeptRoute(s3: State, s4: State, e: Env)
    requires Fits(e) && Holds(s3, FORGOTTEN) && s4 == After(s3, Secret(11), e)
    ensures RoutedFinally(s4, e, Strong)
  {
    RowsUnknown();
    SecretStep(s3, 11, FORGOTTEN, e);
    KeptAnswer();
    FinalStep(s4, NotedAt(FORGOTTEN, 11), e);
  }

  lemma RestartedRoute(s3: State, r3: State, r4: State, e: Env)
    requires Fits(e) && Holds(s3, FORGOTTEN) && r3 == s3.(cache := CacheRuns.Restarted(s3.cache))
    requires r4 == After(r3, Secret(11), e)
    ensures RoutedFinally(r4, e, Weak)
  {
    RowsUnknown();
    SecretStep(r3, 11, RENEWED, e);
    RestartedAnswer();
    FinalStep(r4, NotedAt(RENEWED, 11), e);
  }

  lemma OneMoreMove(s: State, moves: seq<Move>, m: Move, next: seq<Move>, e: Env)
    requires next == moves + [m]
    ensures RunMoves(s, next, e) == Moved(RunMoves(s, moves, e), m, e)
  {
    assert next[..|moves|] == moves;
  }

  lemma MovesOfBefore(s: State, secret: Step, late: Step, before: seq<Move>, e: Env)
    requires before == [Serve(secret), Serve(secret), Serve(late)]
    ensures RunMoves(s, before, e) == After(After(After(s, secret, e), secret, e), late, e)
  {
    var none: seq<Move> := [];
    var one, two := [Serve(secret)], [Serve(secret), Serve(secret)];
    OneMoreMove(s, none, Serve(secret), one, e);
    OneMoreMove(s, one, Serve(secret), two, e);
    OneMoreMove(s, two, Serve(late), before, e);
  }

  /** The states after the third recording, of the process that goes on and of the new one. */
  lemma MovesAfterwards(s: State, before: seq<Move>, third: Step, e: Env)
    ensures RunMoves(s, before + [Serve(third)], e) == After(RunMoves(s, before, e), third, e)
    ensures RunMoves(s, before + [RestartCache] + [Serve(third)], e)
         == After(Moved(RunMoves(s, before, e), RestartCache, e), third, e)
  {
    OneMoreMove(s, before, Serve(third), before + [Serve(third)], e);
    OneMoreMove(s, before, RestartCache, before + [RestartCache], e);
    OneMoreMove(s, before + [RestartCache], Serve(third), before + [RestartCache] + [Serve(third)], e);
  }

  lemma BothRoutes(s: State, before: seq<Move>, third: Step, e: Env)
    requires Fits(e) && Holds(s, NEW) && third == Secret(11)
    requires before == [Serve(Secret(0)), Serve(Secret(0)), Serve(LATE)]
    ensures RoutedFinally(RunMoves(s, before + [Serve(third)], e), e, Strong)
    ensures RoutedFinally(RunMoves(s, before + [RestartCache] + [Serve(third)], e), e, Weak)
  {
    var s1 := After(s, Secret(0), e);
    var s2 := After(s1, Secret(0), e);
    var s3 := RunMoves(s, before, e);
    MovesOfBefore(s, Secret(0), LATE, before, e);
    TwoAndLate(s, s1, s2, s3, e);
    MovesAfterwards(s, before, third, e);
    KeptRoute(s3, After(s3, third, e), e);
    RestartedRoute(s3, Moved(s3, RestartCache, e), After(Moved(s3, RestartCache, e), third, e), e);
  }

  /** The same five requests under a valid configuration, the last of them routed strong by a
      process that goes on, and weak when the cache was restarted before the fourth. */
  lemma RestartTurnsRoute()
    ensures Config.WellFormed(ENV.config)
    ensures RoutedFinally(RunMoves(START, BEFORE + [Serve(Secret(11))], ENV), ENV, Strong)
    ensures RoutedFinally(RunMoves(START, BEFORE + [RestartCache] + [Serve(Secret(11))], ENV), ENV, Weak)
  {
    Valid();
    OptionsFit();
    BothRoutes(START, BEFORE, Secret(11), ENV);
  }
}
