/**
 Repeated prompts after a failed request (internal/router/router.go, internal/cycle/detector.go):
 the failure clears the last response, so the repeat is hashed without one.
 */
module ForgottenRepeats {
  import opened Common
  import opened Threshold
  import opened Escalation
  import opened Routing
  import opened SmallSetup
  import Cache = SemanticCache
  import Cycles = CycleDetector
  import Failover
  import Router
  import SimHash

  /** Whether the hash is near enough to one that is remembered. */
  predicate Near(hash: SimHash.Word, recent: seq<SimHash.Word>, threshold: nat) {
    exists i :: 0 <= i < |recent| && SimHash.HammingDistance(hash, recent[i]) <= threshold
  }

  /** What the detector remembers right after an answered request. */
  function RecentAfter(s: State, q: Query, x: Luck, content: string, e: Env): seq<SimHash.Word> {
    Cycles.Added(MemoryOf(Admitted(s, q, x, e).0, q.session), e.tokens, e.settings.maxHashes, q.prompt, content).recent
  }

  /** The session was the last one active, and its detector remembers this. */
  ghost predicate Remembers(t: State, session: string, m: Cycles.Memory) {
    && t.fetched != [] && t.fetched[|t.fetched| - 1] == session
    && session in t.memories && t.memories[session] == m
  }

  lemma AnsweredRemembers(s: State, q: Query, x: Luck, e: Env)
    requires var r := RouteRequest(s, q, x, e).1; r.Answered? && r.content != ""
    ensures var (t, r) := RouteRequest(s, q, x, e);
      Remembers(t, q.session, Cycles.Memory(RecentAfter(s, q, x, r.content, e), r.content))
  {
    OwnMemory(s, q, x, TurnOf(s, q, x, e), e);
  }

  /** Admission fetches the session's own detector and leaves it as it is. */
  lemma OwnDetector(s: State, q: Query, x: Luck, e: Env, m: Cycles.Memory)
    requires Admitted(s, q, x, e).2 && q.session in s.memories && s.memories[q.session] == m
    requires e.settings.maxSessions >= 1
    ensures var t := Admitted(s, q, x, e).0;
      && t.fetched == s.fetched + [q.session] && q.session in t.memories && t.memories[q.session] == m
  {
    LatestIsLive(s.fetched, q.session, e);
  }

  lemma CallErrorMeans(s: State, q: Query, x: Luck, e: Env)
    requires RouteRequest(s, q, x, e).1.CallError?
    ensures Admitted(s, q, x, e).2 && !TurnOf(s, q, x, e).outcome.Served?
  {
  }

  lemma FailureForgets(s: State, q: Query, x: Luck, cycle: bool, turn: Turn, e: Env)
    requires q.session in s.sessions && !turn.outcome.Served?
    ensures Concluded(s, q, x, cycle, turn, e).0 == Forgotten(s, q)
  {
  }

  lemma FailedForgets(s: State, q: Query, x: Luck, e: Env, m: Cycles.Memory)
    requires RouteRequest(s, q, x, e).1.CallError? && q.session in s.memories && s.memories[q.session] == m
    requires e.settings.maxSessions >= 1
    ensures Remembers(RouteRequest(s, q, x, e).0, q.session, m.(lastResponse := ""))
  {
    CallErrorMeans(s, q, x, e);
    OwnDetector(s, q, x, e, m);
    AdmissionTeachesNothing(s, q, x, e);
    var (ready, _, _) := Admitted(s, q, x, e);
    FailureForgets(ready, q, x, CycleSeen(ready, q, e), TurnOf(s, q, x, e), e);
  }

  lemma OthersRemember(t: State, steps: seq<Step>, session: string, m: Cycles.Memory, e: Env)
    requires Remembers(t, session, m)
    requires session !in SessionsOf(steps) && |SessionsOf(steps)| < e.settings.maxSessions
    ensures var u := Run(t, steps, e); session in u.memories && u.memories[session] == m
  {
    assert t.fetched + [] == t.fetched;
    var more := OthersKeepMemory(t, steps, SessionsOf(steps), session, m, e);
  }

  lemma SeenIff(t: State, q: Query, x: Luck, e: Env, recent: seq<SimHash.Word>)
    requires Admitted(t, q, x, e).2 && e.settings.maxSessions >= 1
    requires q.session in t.memories && t.memories[q.session] == Cycles.Memory(recent, "")
    ensures CycleSeen(Admitted(t, q, x, e).0, q, e) <==>
      e.settings.cycleDetection && Near(Cycles.PairHash(e.tokens, q.prompt, ""), recent, e.settings.cycleThreshold)
  {
    OwnDetector(t, q, x, e, Cycles.Memory(recent, ""));
  }

  ghost function Next(s: State, step: Step, e: Env): State {
    RouteRequest(s, step.query, step.luck, e).0
  }

  ghost function ResultOf(s: State, step: Step, e: Env): Result {
    RouteRequest(s, step.query, step.luck, e).1
  }

  /** What the detector remembers of an answered request. */
  ghost function Recent(s: State, step: Step, e: Env): seq<SimHash.Word> {
    var r := ResultOf(s, step, e);
    if r.Answered? then RecentAfter(s, step.query, step.luck, r.content, e) else []
  }

  /** Few enough other sessions. */
  ghost predicate Aside(steps: seq<Step>, session: string, e: Env) {
    session !in SessionsOf(steps) && |SessionsOf(steps)| < e.settings.maxSessions
  }

  /** An answered request, requests of other sessions, a failed call of the same session, and
      others again. */
  ghost predicate FailsInBetween(s: State, first: Step, between: seq<Step>, failed: Step, after: seq<Step>, e: Env) {
    && failed.query.session == first.query.session
    && Aside(between, first.query.session, e) && Aside(after, first.query.session, e)
    && ResultOf(s, first, e).Answered? && ResultOf(s, first, e).content != ""
    && ResultOf(Run(Next(s, first, e), between, e), failed, e).CallError?
  }

  ghost function AfterFailure(s: State, first: Step, between: seq<Step>, failed: Step, after: seq<Step>, e: Env): State {
    Run(Next(Run(Next(s, first, e), between, e), failed, e), after, e)
  }

  lemma ForgottenSince(s: State, first: Step, between: seq<Step>, failed: Step, after: seq<Step>, e: Env)
    requires FailsInBetween(s, first, between, failed, after, e)
    ensures var u, id := AfterFailure(s, first, between, failed, after, e), first.query.session;
      && id in u.memories
      && u.memories[id] == Cycles.Memory(Recent(s, first, e), "")
  {
    var t0, r := Next(s, first, e), ResultOf(s, first, e);
    var id, m := first.query.session, Cycles.Memory(RecentAfter(s, first.query, first.luck, r.content, e), r.content);
    AnsweredRemembers(s, first.query, first.luck, e);
    OthersRemember(t0, between, id, m, e);
    var t1 := Run(t0, between, e);
    FailedForgets(t1, failed.query, failed.luck, e, m);
    OthersRemember(Next(t1, failed, e), after, id, m.(lastResponse := ""), e);
  }

  ghost predicate GoesStrong(s: State, step: Step, e: Env) {
    var r := ResultOf(s, step, e);
    !r.OverBudget? && r.route == Strong
  }

  /** Whether an admitted request is taken for a repeat. */
  ghost predicate Seen(s: State, step: Step, e: Env) {
    CycleSeen(Admitted(s, step.query, step.luck, e).0, step.query, e)
  }

  lemma SeenGoesStrong(s: State, step: Step, e: Env)
    requires Admitted(s, step.query, step.luck, e).2 && Seen(s, step, e)
    ensures GoesStrong(s, step, e)
  {
    CycleGoesStrong(s, step.query, step.luck, e);
  }

  /**
     Repeating an answered prompt after a failed request of the session: the repeat is recognised,
     and then goes to the strong tier, exactly when the prompt alone hashes near enough to one of
     the pairs the detector remembered when it was answered.
   */
  lemma RepeatAfterFailure(s: State, first: Step, between: seq<Step>, failed: Step, after: seq<Step>, again: Step, e: Env)
    requires FailsInBetween(s, first, between, failed, after, e)
    requires again.query.session == first.query.session && again.query.prompt == first.query.prompt
    requires Admitted(AfterFailure(s, first, between, failed, after, e), again.query, again.luck, e).2
    ensures Seen(AfterFailure(s, first, between, failed, after, e), again, e) <==>
      (e.settings.cycleDetection &&
       Near(Cycles.PairHash(e.tokens, first.query.prompt, ""), Recent(s, first, e), e.settings.cycleThreshold))
    ensures Seen(AfterFailure(s, first, between, failed, after, e), again, e) ==>
      GoesStrong(AfterFailure(s, first, between, failed, after, e), again, e)
  {
    var u := AfterFailure(s, first, between, failed, after, e);
    ForgottenSince(s, first, between, failed, after, e);
    SeenIff(u, again.query, again.luck, e, Recent(s, first, e));
    if Seen(u, again, e) {
      SeenGoesStrong(u, again, e);
    }
  }

  // ---- A run in which the repeat is missed ---------------------------------

  /** The defaults without the kill switch, the adaptive threshold and the semantic cache. */
  const OPTIONS: Router.Options := Router.Options(
    false, true, false, false, 10.0, 0.05, 20, 0.7, 3, 0.75, 604_800_000_000_000, 3, 50)

  const START: State := Router.Started(OPTIONS, map[], map[])

  function EnvWith(tokens: string -> seq<SimHash.Word>): Env {
    Env(Router.SettingsOf(OPTIONS), CONFIG, map[], tokens)
  }

  const HI: Failover.Reply := Failover.Answer("hi", "hi", "w", 0.0, 1)

  /** The prompt answered, another one whose call fails, and the prompt again. */
  const GREETING: Step := Step(Query("s", "hello", "h", "h", None, 1), LuckOf(HI, Judged(0.1, Low), 0))

  const BROKEN: Step :=
    Step(Query("s", "other", "o", "o", None, 1), LuckOf(Failover.Failure("", "down"), Judged(0.1, Low), 0))

  /** The only pair remembered is the greeting and its answer. */
  lemma GreetingRemembered(tokens: string -> seq<SimHash.Word>)
    ensures RecentAfter(START, GREETING.query, GREETING.luck, "hi", EnvWith(tokens))
         == [Cycles.PairHash(tokens, "hello", "hi")]
  {
  }

  lemma AnswersHi(s: State, e: Env)
    requires e.config == CONFIG && e.status == map[] && !e.settings.killSwitch
    ensures ResultOf(s, GREETING, e).Answered? && ResultOf(s, GREETING, e).content == "hi"
    ensures ResultOf(s, GREETING, e).route == TurnOf(s, GREETING.query, GREETING.luck, e).route
    ensures Admitted(s, GREETING.query, GREETING.luck, e).2
  {
    OneResult(s, GREETING.query, HI, Judged(0.1, Low), 0, e);
  }

  /** Without the adaptive threshold the control never moves. */
  lemma ControlFixed(s: State, step: Step, e: Env)
    requires !e.settings.dynamicThreshold
    ensures Next(s, step, e).control == s.control
  {
    var q, x := step.query, step.luck;
    var turn := TurnOf(s, q, x, e);
    AdmissionTeachesNothing(s, q, x, e);
    var (ready, _, admitted) := Admitted(s, q, x, e);
    if admitted {
      ConclusionControl(ready, q, x, CycleSeen(ready, q, e), turn, e);
    }
  }

  /** An unrecognised greeting goes to the weak tier. */
  lemma GreetingIsWeak(s: State, tokens: string -> seq<SimHash.Word>)
    requires s.control == START.control && !Seen(s, GREETING, EnvWith(tokens))
    ensures AnsweredBy(s, GREETING, EnvWith(tokens), Weak)
  {
    var e := EnvWith(tokens);
    AnswersHi(s, e);
    OneResult(s, GREETING.query, HI, Judged(0.1, Low), 0, e);
    AdmissionTeachesNothing(s, GREETING.query, GREETING.luck, e);
    assert Admitted(s, GREETING.query, GREETING.luck, e).1 == Cache.NO_ANSWER;
  }

  lemma AsideNobody(e: Env)
    requires e.settings.maxSessions >= 1
    ensures Aside([], "s", e)
  {
    assert SessionsOf([]) == {};
  }

  ghost predicate AnsweredBy(s: State, step: Step, e: Env, route: Route) {
    var r := ResultOf(s, step, e);
    r.Answered? && r.route == route
  }

  lemma RepeatedAtOnce(tokens: string -> seq<SimHash.Word>)
    ensures AnsweredBy(Next(START, GREETING, EnvWith(tokens)), GREETING, EnvWith(tokens), Strong)
  {
    var e := EnvWith(tokens);
    AnswersHi(START, e);
    AnswersHi(Next(START, GREETING, e), e);
    AsideNobody(e);
    RepeatGoesStrong(START, GREETING, [], GREETING, e);
    RunNobody(Next(START, GREETING, e), e);
  }

  lemma RunNobody(s: State, e: Env)
    ensures Run(s, [], e) == s
  {
  }

  lemma BreaksDown(s: State, e: Env)
    requires e.config == CONFIG && e.status == map[] && !e.settings.killSwitch
    ensures ResultOf(s, BROKEN, e).CallError?
  {
    OneResult(s, BROKEN.query, Failover.Failure("", "down"), Judged(0.1, Low), 0, e);
  }

  lemma GreetingFails(e: Env)
    requires e.config == CONFIG && e.status == map[] && !e.settings.killSwitch && e.settings.maxSessions >= 1
    ensures FailsInBetween(START, GREETING, [], BROKEN, [], e)
    ensures AfterFailure(START, GREETING, [], BROKEN, [], e) == Next(Next(START, GREETING, e), BROKEN, e)
  {
    AnswersHi(START, e);
    AsideNobody(e);
    RunNobody(Next(START, GREETING, e), e);
    BreaksDown(Next(START, GREETING, e), e);
    RunNobody(Next(Next(START, GREETING, e), BROKEN, e), e);
  }

  lemma NearOne(hash: SimHash.Word, x: SimHash.Word, threshold: nat)
    ensures Near(hash, [x], threshold) <==> SimHash.HammingDistance(hash, x) <= threshold
  {
    assert [x][0] == x;
  }

  /** A failed request in between hides a repeat of the only pair remembered, if the bare prompt
      hashes far enough from it. */
  lemma Unseen(s: State, first: Step, failed: Step, e: Env, u: State, x: SimHash.Word)
    requires FailsInBetween(s, first, [], failed, [], e) && u == AfterFailure(s, first, [], failed, [], e)
    requires Admitted(u, first.query, first.luck, e).2 && Recent(s, first, e) == [x]
    requires SimHash.HammingDistance(Cycles.PairHash(e.tokens, first.query.prompt, ""), x) > e.settings.cycleThreshold
    ensures !Seen(u, first, e)
  {
    RepeatAfterFailure(s, first, [], failed, [], first, e);
    NearOne(Cycles.PairHash(e.tokens, first.query.prompt, ""), x, e.settings.cycleThreshold);
  }

  lemma GreetingUnseen(tokens: string -> seq<SimHash.Word>)
    requires SimHash.HammingDistance(Cycles.PairHash(tokens, "hello", ""), Cycles.PairHash(tokens, "hello", "hi")) > 3
    ensures var e := EnvWith(tokens); !Seen(Next(Next(START, GREETING, e), BROKEN, e), GREETING, e)
  {
    var e := EnvWith(tokens);
    var u := Next(Next(START, GREETING, e), BROKEN, e);
    GreetingFails(e);
    AnswersHi(u, e);
    GreetingRecent(tokens);
    Unseen(START, GREETING, BROKEN, e, u, Cycles.PairHash(tokens, "hello", "hi"));
  }

  lemma GreetingRecent(tokens: string -> seq<SimHash.Word>)
    ensures Recent(START, GREETING, EnvWith(tokens)) == [Cycles.PairHash(tokens, "hello", "hi")]
  {
    AnswersHi(START, EnvWith(tokens));
    GreetingRemembered(tokens);
  }

  /** Repeated at once, the greeting is recognised and goes to the strong tier; with a failed
      request in between it goes to the weak one, whenever the greeting alone and the greeting
      with its answer hash far enough apart. */
  lemma MissedRepeat(tokens: string -> seq<SimHash.Word>)
    requires SimHash.HammingDistance(Cycles.PairHash(tokens, "hello", ""), Cycles.PairHash(tokens, "hello", "hi")) > 3
    ensures var e := EnvWith(tokens);
      var answered := Next(START, GREETING, e);
      && ResultOf(START, GREETING, e).Answered? && ResultOf(answered, BROKEN, e).CallError?
      && AnsweredBy(answered, GREETING, e, Strong)
      && AnsweredBy(Next(answered, BROKEN, e), GREETING, e, Weak)
  {
    var e := EnvWith(tokens);
    var answered := Next(START, GREETING, e);
    AnswersHi(START, e);
    BreaksDown(answered, e);
    RepeatedAtOnce(tokens);
    ControlFixed(START, GREETING, e);
    ControlFixed(answered, BROKEN, e);
    GreetingUnseen(tokens);
    GreetingIsWeak(Next(answered, BROKEN, e), tokens);
  }

  /** There are such hashes: one that sees no token in the greeting alone. */
  function SilentHash(text: string): seq<SimHash.Word> {
    if text == "hello\n" then [] else [seq(64, _ => true)]
  }

  lemma {:induction false} AllDiffer(a: SimHash.Word, b: SimHash.Word, n: nat)
    requires n <= 64 && forall i :: 0 <= i < 64 ==> a[i] != b[i]
    ensures SimHash.Differences(a, b, n) == n
  {
    if n == 0 {
    } else {
      AllDiffer(a, b, n - 1);
    }
  }

  lemma VoteOfNone(bit: nat)
    requires bit < 64
    ensures !SimHash.Vote([])[bit]
  {
  }

  lemma VoteOfOne(word: SimHash.Word, bit: nat)
    requires bit < 64
    ensures SimHash.Vote([word])[bit] == word[bit]
  {
    assert [word][..0] == [];
    assert SimHash.Ones([], bit) == 0;
  }

  lemma SilentHashIsFar()
    ensures SimHash.HammingDistance(Cycles.PairHash(SilentHash, "hello", ""), Cycles.PairHash(SilentHash, "hello", "hi")) > 3
  {
    var ones: SimHash.Word := seq(64, _ => true);
    assert "hello" + "\n" + "" == "hello\n";
    assert "hello" + "\n" + "hi" != "hello\n" by {
      assert |"hello" + "\n" + "hi"| == 8;
    }
    var a, b := SimHash.Vote([]), SimHash.Vote([ones]);
    forall i | 0 <= i < 64 ensures a[i] != b[i] {
      VoteOfNone(i);
      VoteOfOne(ones, i);
    }
    AllDiffer(a, b, 64);
  }
}
