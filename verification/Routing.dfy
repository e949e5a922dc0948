/**
 One request through the whole router (internal/router/router.go, Route) and runs of such
 requests, one after the other: what the session table, the threshold controller, the
 semantic cache, the cycle detectors and the rate limiter do to each other.
 */
module Routing {
  import opened Common
  import opened Threshold
  import opened Escalation
  import Budget = SessionStore
  import BudgetProtocol
  import Cache = SemanticCache
  import CacheRuns
  import Config
  import Cycles = CycleDetector
  import Failover
  import Rate = RateLimiter
  import RouteMemory
  import SimHash

  const MARGIN: real := 0.95

  datatype Settings = Settings(
    killSwitch: bool, cycleDetection: bool, dynamicThreshold: bool, semanticCache: bool,
    sessionLimit: real, tuning: Tuning, policy: Cache.Policy,
    maxSessions: nat, cycleThreshold: nat, maxHashes: nat)

  /** What stays fixed during a run. */
  datatype Env = Env(
    settings: Settings, config: Config.Configuration, status: Failover.Status,
    tokens: string -> seq<SimHash.Word>)

  /** `fetched` lists the sessions whose detector was fetched, oldest first; `memories` holds
      the detectors the registry still has; `usage` is everything the limiter ever recorded. */
  datatype State = State(
    sessions: Budget.Table, control: Control, cache: Cache.World,
    fetched: seq<string>, memories: map<string, Cycles.Memory>,
    usage: Rate.Log)

  /** A request after redaction. The cache is asked under `key` and told under `logKey`; the
      two differ when logs are redacted and prompts are not. */
  datatype Query = Query(
    session: string, prompt: string, key: string, logKey: string, useJudge: Option<bool>, estimate: int)

  datatype Judged = Judged(score: real, impact: Impact)

  /** What the world does during one request: the judge's verdict if one is asked for, how the
      provider calls end, what times out or fails in the database, and the clock readings. */
  datatype Luck = Luck(
    judged: Judged,
    reply: (nat, Failover.Attempt) -> Failover.Reply, retry: (nat, Failover.Attempt) -> Failover.Reply,
    timedOut: bool, settleError: bool, readError: bool, logError: bool,
    askedAt: int, checkedAt: nat -> int, retriedAt: int, recheckedAt: nat -> int,
    notedAt: int, storedAt: int, recordedAt: int, latency: real)

  datatype Result =
    | OverBudget
    | CallError(route: Route, outcome: Failover.Outcome)
    | NotSettled(route: Route)
    | NotRead(route: Route)
    | NotLogged(route: Route)
    | Answered(route: Route, id: string, content: string, cost: real, sessionCost: real)

  // ---- Admission ----------------------------------------------------------

  function Created(t: Budget.Table, id: string, limit: real): Budget.Table {
    if id in t then t else t[id := Budget.Row(0.0, limit, true, 0)]
  }

  function Opened(s: State, q: Query, e: Env): (r: State)
    ensures q.session in r.sessions
  {
    s.(sessions := Created(s.sessions, q.session, e.settings.sessionLimit))
  }

  function Looked(s: State, q: Query, x: Luck, e: Env): (State, Cache.Answer) {
    if e.settings.semanticCache then
      var (w, a) := Cache.AskWorld(s.cache, q.key, x.askedAt, e.settings.policy);
      (s.(cache := w), a)
    else (s, Cache.NO_ANSWER)
  }

  predicate Affordable(s: State, q: Query, e: Env)
    requires q.session in s.sessions
  {
    e.settings.killSwitch ==> Budget.HasRoom(s.sessions[q.session], BudgetProtocol.ESTIMATE)
  }

  function Reserved(s: State, q: Query, e: Env): (r: State)
    requires q.session in s.sessions
    ensures q.session in r.sessions
  {
    if e.settings.killSwitch
    then s.(sessions := s.sessions[q.session := Budget.Charged(s.sessions[q.session], BudgetProtocol.ESTIMATE)])
    else s
  }

  const NO_MEMORY: Cycles.Memory := Cycles.Memory([], "")

  function Live(fetched: seq<string>, e: Env): seq<string> {
    LastN(Cycles.ByLastUse(fetched), e.settings.maxSessions)
  }

  /** Fetching a detector: known sessions keep theirs, evicted ones lose it. */
  function Fetched(s: State, q: Query, e: Env): State {
    var fetched := s.fetched + [q.session];
    s.(fetched := fetched, memories := Cycles.Kept(s.memories, fetched, e.settings.maxSessions))
  }

  /** The detector of a session, a fresh one if it was not kept. */
  function MemoryOf(s: State, session: string): Cycles.Memory {
    if session in s.memories then s.memories[session] else NO_MEMORY
  }

  predicate CycleSeen(s: State, q: Query, e: Env) {
    && e.settings.cycleDetection
    && Cycles.Detects(MemoryOf(s, q.session), e.tokens, e.settings.cycleThreshold, q.prompt)
  }

  // ---- Decision and calls -------------------------------------------------

  /** The verdict the first decision rests on, and whether a judge was asked for it. */
  function FirstVerdict(a: Cache.Answer, q: Query, x: Luck): (Judged, bool) {
    match a.route
    case Some(Strong) => (Judged(RouteMemory.CACHED_STRONG_SCORE, High), false)
    case Some(Weak) => (Judged(0.0, Low), false)
    case None => if q.useJudge == Some(true) then (x.judged, true) else (Judged(0.0, Low), false)
  }

  function RouteFor(v: Judged, s: State, cycle: bool, e: Env): Route {
    DecideRoute(v.score, v.impact, s.control.threshold,
                e.settings.dynamicThreshold && Strict(s.control, e.settings.tuning), cycle)
  }

  function TierOrder(route: Route, c: Config.Configuration): seq<string> {
    if route == Strong then c.strongOrder else c.weakOrder
  }

  function Used(s: State, model: string): seq<Rate.Event> {
    Rate.Recorded(s.usage, model)
  }

  ghost function WorldFor(
    s: State, route: Route, estimate: int, reply: (nat, Failover.Attempt) -> Failover.Reply, at: nat -> int, e: Env)
    : Failover.World
  {
    var tier := Failover.Candidates(TierOrder(route, e.config), e.config.models, e.status);
    Failover.World(Failover.Allows(s.usage, tier, at, estimate, MARGIN, e.config), reply)
  }

  ghost function Call(
    s: State, route: Route, estimate: int, reply: (nat, Failover.Attempt) -> Failover.Reply, at: nat -> int, e: Env)
    : Failover.Outcome
  {
    Failover.OutcomeOf(TierOrder(route, e.config), e.config, e.status, WorldFor(s, route, estimate, reply, at, e))
  }

  /** The replies to the calls of one round. */
  ghost function Heard(
    s: State, route: Route, estimate: int, reply: (nat, Failover.Attempt) -> Failover.Reply, at: nat -> int, e: Env)
    : seq<Failover.Reply>
  {
    Failover.RepliesOf(TierOrder(route, e.config), e.config, e.status, WorldFor(s, route, estimate, reply, at, e))
  }

  /** The decision that counts, what came of it, and all the text the caller was sent. */
  datatype Turn = Turn(route: Route, verdict: Judged, judged: bool, outcome: Failover.Outcome, received: string)

  /** Whether a first round with this outcome is followed by a second one. */
  predicate TriesAgain(q: Query, x: Luck, a: Cache.Answer, route: Route, outcome: Failover.Outcome) {
    !outcome.Served? && x.timedOut && q.useJudge.None? && a.route.None? && route == Weak
  }

  /** A weak call that nobody asked to judge and the cache knew nothing about runs under a
      timeout; when that strikes, a judge decides again and the request is called again. The
      caller's stream goes on. */
  ghost function TakeTurn(s: State, q: Query, x: Luck, a: Cache.Answer, cycle: bool, e: Env): Turn {
    var (v, judged) := FirstVerdict(a, q, x);
    var route := RouteFor(v, s, cycle, e);
    var outcome := Call(s, route, q.estimate, x.reply, x.checkedAt, e);
    var text := Failover.Text(Heard(s, route, q.estimate, x.reply, x.checkedAt, e));
    if TriesAgain(q, x, a, route, outcome)
    then
      var again := RouteFor(x.judged, s, cycle, e);
      Turn(again, x.judged, true, Call(s, again, q.estimate, x.retry, x.recheckedAt, e),
           text + Failover.Text(Heard(s, again, q.estimate, x.retry, x.recheckedAt, e)))
    else Turn(route, v, judged, outcome, text)
  }

  // ---- Conclusion ---------------------------------------------------------

  function Remembered(s: State, q: Query, content: string, e: Env): State {
    if content == "" then s
    else s.(memories := s.memories[q.session :=
              Cycles.Added(MemoryOf(s, q.session), e.tokens, e.settings.maxHashes, q.prompt, content)])
  }

  function Forgotten(s: State, q: Query): State {
    s.(memories := s.memories[q.session := MemoryOf(s, q.session).(lastResponse := "")])
  }

  /** With the kill switch off the cost is added without any limit. */
  function Settled(s: State, q: Query, cost: real, x: Luck, e: Env): (State, bool)
    requires q.session in s.sessions
  {
    var row := s.sessions[q.session];
    if x.settleError then (s, false)
    else
      var (after, ok) := if e.settings.killSwitch then Budget.Settle(row, BudgetProtocol.ESTIMATE, cost)
                         else (Budget.Charged(row, cost), true);
      (s.(sessions := s.sessions[q.session := after]), ok)
  }

  function Controlled(s: State, route: Route, e: Env): State {
    if e.settings.dynamicThreshold then s.(control := Recorded(s.control, route == Strong, e.settings.tuning)) else s
  }

  /** The cache hears of the answer, unless a cycle forced it. */
  function Noted(s: State, q: Query, x: Luck, turn: Turn, cycle: bool, e: Env): State
    requires turn.outcome.Served?
  {
    var o := turn.outcome;
    var call := Cache.Call(turn.route, o.id, x.latency, turn.judged, BudgetProtocol.FinalCost(o.cost), o.tokens);
    if e.settings.semanticCache && !cycle
    then s.(cache := Cache.NoteWorld(s.cache, q.logKey, call, x.notedAt, x.storedAt, e.settings.policy))
    else s
  }

  /** The limiter counts it. */
  function Counted(s: State, x: Luck, turn: Turn): State
    requires turn.outcome.Served?
  {
    s.(usage := Rate.Grown(s.usage, turn.outcome.id, Rate.Event(x.recordedAt, turn.outcome.tokens)))
  }

  /** Reading the session back, adapting the threshold, logging and learning. */
  function Finished(s: State, q: Query, x: Luck, cycle: bool, turn: Turn, e: Env): (State, Result)
    requires q.session in s.sessions && turn.outcome.Served?
  {
    var o := turn.outcome;
    if x.readError then (s, NotRead(turn.route))
    else
      var controlled := Controlled(s, turn.route, e);
      if x.logError then (controlled, NotLogged(turn.route))
      else (Counted(Noted(controlled, q, x, turn, cycle, e), x, turn),
            Answered(turn.route, o.id, o.content, BudgetProtocol.FinalCost(o.cost), s.sessions[q.session].cost))
  }

  /** A non-empty answer is remembered with its prompt; a failure forgets the last response. */
  function Recalled(s: State, q: Query, turn: Turn, e: Env): State {
    if turn.outcome.Served? then Remembered(s, q, turn.outcome.content, e) else Forgotten(s, q)
  }

  /** Settling, and finishing when that worked. */
  function Booked(s: State, q: Query, x: Luck, cycle: bool, turn: Turn, e: Env): (State, Result)
    requires q.session in s.sessions && turn.outcome.Served?
  {
    var (settled, ok) := Settled(s, q, BudgetProtocol.FinalCost(turn.outcome.cost), x, e);
    if ok then Finished(settled, q, x, cycle, turn, e) else (settled, NotSettled(turn.route))
  }

  /** A failed call returns with the reservation still on the row. */
  function BookedIf(s: State, q: Query, x: Luck, cycle: bool, turn: Turn, e: Env): (State, Result)
    requires q.session in s.sessions
  {
    if turn.outcome.Served? then Booked(s, q, x, cycle, turn, e) else (s, CallError(turn.route, turn.outcome))
  }

  function Concluded(s: State, q: Query, x: Luck, cycle: bool, turn: Turn, e: Env): (State, Result)
    requires q.session in s.sessions
  {
    BookedIf(Recalled(s, q, turn, e), q, x, cycle, turn, e)
  }

  /** The request as far as the decision: None when the budget refuses it. */
  function Admitted(s: State, q: Query, x: Luck, e: Env): (State, Cache.Answer, bool) {
    var (asked, a) := Looked(Opened(s, q, e), q, x, e);
    if Affordable(asked, q, e) then (Fetched(Reserved(asked, q, e), q, e), a, true) else (asked, a, false)
  }

  /** The turn the request takes once it is admitted. */
  ghost function TurnOf(s: State, q: Query, x: Luck, e: Env): Turn {
    var (ready, a, _) := Admitted(s, q, x, e);
    TakeTurn(ready, q, x, a, CycleSeen(ready, q, e), e)
  }

  /** The request, given how its calls go. */
  function RouteWith(s: State, q: Query, x: Luck, turn: Turn, e: Env): (State, Result) {
    var (ready, _, admitted) := Admitted(s, q, x, e);
    if admitted then Concluded(ready, q, x, CycleSeen(ready, q, e), turn, e) else (ready, OverBudget)
  }

  ghost function RouteRequest(s: State, q: Query, x: Luck, e: Env): (State, Result) {
    RouteWith(s, q, x, TurnOf(s, q, x, e), e)
  }

  /** Everything after the reservation. */
  ghost function Served(s: State, q: Query, x: Luck, a: Cache.Answer, e: Env): (State, Result)
    requires q.session in s.sessions
  {
    var ready := Fetched(s, q, e);
    var cycle := CycleSeen(ready, q, e);
    Concluded(ready, q, x, cycle, TakeTurn(ready, q, x, a, cycle, e), e)
  }

  /** The request, part by part. */
  lemma RequestParts(s: State, q: Query, x: Luck, e: Env)
    ensures var (asked, a) := Looked(Opened(s, q, e), q, x, e);
      RouteRequest(s, q, x, e)
      == if Affordable(asked, q, e) then Served(Reserved(asked, q, e), q, x, a, e) else (asked, OverBudget)
  {
  }

  // ---- Runs ---------------------------------------------------------------

  datatype Step = Step(query: Query, luck: Luck)

  ghost function Run(s: State, steps: seq<Step>, e: Env): State {
    if steps == [] then s
    else
      var last := steps[|steps| - 1];
      RouteRequest(Run(s, steps[..|steps| - 1], e), last.query, last.luck, e).0
  }

  /** The clock never goes back, within a request and from one request to the next. */
  ghost predicate Timed(x: Luck, after: int) {
    && after <= x.askedAt <= x.retriedAt <= x.notedAt <= x.storedAt <= x.recordedAt
    && Failover.Ascends(x.checkedAt, x.askedAt, x.retriedAt) && Failover.Ascends(x.recheckedAt, x.retriedAt, x.notedAt)
  }

  ghost function ClockAfter(steps: seq<Step>, start: int): int {
    if steps == [] then start else steps[|steps| - 1].luck.recordedAt
  }

  ghost predicate InTime(steps: seq<Step>, start: int) {
    forall k :: 0 <= k < |steps| ==> Timed(steps[k].luck, ClockAfter(steps[..k], start))
  }

  // ---- What one request does ----------------------------------------------

  lemma AdmissionTeachesNothing(s: State, q: Query, x: Luck, e: Env)
    ensures var (t, a, admitted) := Admitted(s, q, x, e);
      && t.usage == s.usage && t.control == s.control && t.cache == Looked(s, q, x, e).0.cache
      && q.session in t.sessions
  {
  }

  lemma ConclusionTeaches(s: State, q: Query, x: Luck, cycle: bool, turn: Turn, e: Env)
    requires q.session in s.sessions
    ensures var (t, r) := Concluded(s, q, x, cycle, turn, e);
      && (!r.Answered? ==> t.usage == s.usage && t.cache == s.cache)
      && (!r.Answered? && !r.NotLogged? ==> t.control == s.control)
  {
  }

  lemma RecalledElsewhere(s: State, q: Query, turn: Turn, e: Env)
    ensures var t := Recalled(s, q, turn, e);
      t.sessions == s.sessions && t.control == s.control && t.cache == s.cache && t.usage == s.usage && t.fetched == s.fetched
  {
  }

  lemma FinishedMemories(s: State, q: Query, x: Luck, cycle: bool, turn: Turn, e: Env)
    requires q.session in s.sessions && turn.outcome.Served?
    ensures var t := Finished(s, q, x, cycle, turn, e).0; t.fetched == s.fetched && t.memories == s.memories
  {
  }

  /** Booking does not touch the detectors. */
  lemma ConclusionMemories(s: State, q: Query, x: Luck, cycle: bool, turn: Turn, e: Env)
    requires q.session in s.sessions
    ensures var t := Concluded(s, q, x, cycle, turn, e).0;
      && t.fetched == s.fetched
      && t.memories == Recalled(s, q, turn, e).memories
  {
    var recalled := Recalled(s, q, turn, e);
    if turn.outcome.Served? {
      var settled := Settled(recalled, q, BudgetProtocol.FinalCost(turn.outcome.cost), x, e).0;
      FinishedMemories(settled, q, x, cycle, turn, e);
    }
  }

  lemma AdmissionSessions(s: State, q: Query, x: Luck, e: Env)
    ensures var t := Admitted(s, q, x, e).0;
      && t.sessions.Keys == s.sessions.Keys + {q.session}
      && (forall id :: id in s.sessions && id != q.session ==> t.sessions[id] == s.sessions[id])
  {
  }

  lemma SettledSessions(s: State, q: Query, cost: real, x: Luck, e: Env)
    requires q.session in s.sessions
    ensures var t := Settled(s, q, cost, x, e).0;
      && t.sessions.Keys == s.sessions.Keys
      && (forall id :: id in s.sessions && id != q.session ==> t.sessions[id] == s.sessions[id])
  {
  }

  lemma ConclusionSessions(s: State, q: Query, x: Luck, cycle: bool, turn: Turn, e: Env)
    requires q.session in s.sessions
    ensures var t := Concluded(s, q, x, cycle, turn, e).0;
      && t.sessions.Keys == s.sessions.Keys
      && (forall id :: id in s.sessions && id != q.session ==> t.sessions[id] == s.sessions[id])
  {
    if turn.outcome.Served? {
      var o := turn.outcome;
      SettledSessions(Remembered(s, q, o.content, e), q, BudgetProtocol.FinalCost(o.cost), x, e);
    }
  }

  /** No request touches any session but its own. */
  lemma OtherSessions(s: State, q: Query, x: Luck, turn: Turn, e: Env)
    ensures var t := RouteWith(s, q, x, turn, e).0;
      && t.sessions.Keys == s.sessions.Keys + {q.session}
      && (forall id :: id in s.sessions && id != q.session ==> t.sessions[id] == s.sessions[id])
  {
    AdmissionSessions(s, q, x, e);
    var (ready, a, admitted) := Admitted(s, q, x, e);
    if admitted {
      ConclusionSessions(ready, q, x, CycleSeen(ready, q, e), turn, e);
    }
  }

  /** What a request that is not answered leaves alone: it teaches neither the limiter nor the
      cache anything, and the controller only when the answer was already settled. */
  lemma OnlyAnswersTeach(s: State, q: Query, x: Luck, turn: Turn, e: Env)
    ensures var (t, r) := RouteWith(s, q, x, turn, e);
      && (!r.Answered? ==> t.usage == s.usage && t.cache == Looked(s, q, x, e).0.cache)
      && (!r.Answered? && !r.NotLogged? ==> t.control == s.control)
  {
    AdmissionTeachesNothing(s, q, x, e);
    var (ready, a, admitted) := Admitted(s, q, x, e);
    if admitted {
      ConclusionTeaches(ready, q, x, CycleSeen(ready, q, e), turn, e);
    }
  }

  lemma AdmissionMovesRow(s: State, q: Query, x: Luck, e: Env)
    requires e.settings.killSwitch
    ensures var (t, _, admitted) := Admitted(s, q, x, e);
      var before := Created(s.sessions, q.session, e.settings.sessionLimit)[q.session];
      && (admitted <==> Budget.HasRoom(before, BudgetProtocol.ESTIMATE))
      && t.sessions[q.session].cost == before.cost + (if admitted then BudgetProtocol.ESTIMATE else 0.0)
  {
  }

  lemma ConclusionMovesRow(s: State, q: Query, x: Luck, cycle: bool, turn: Turn, e: Env)
    requires e.settings.killSwitch && q.session in s.sessions
    requires s.sessions[q.session].cost >= BudgetProtocol.ESTIMATE
    ensures var (t, r) := Concluded(s, q, x, cycle, turn, e);
      && q.session in t.sessions && !r.OverBudget?
      && var moved := t.sessions[q.session].cost - s.sessions[q.session].cost;
         && (r.CallError? || r.NotSettled? ==> moved == 0.0)
         && (r.Answered? || r.NotRead? || r.NotLogged? ==>
               turn.outcome.Served? &&
               Budget.Negligible(moved + BudgetProtocol.ESTIMATE - BudgetProtocol.FinalCost(turn.outcome.cost)))
         && (r.Answered? ==> r.cost == BudgetProtocol.FinalCost(turn.outcome.cost))
  {
    if turn.outcome.Served? {
      Budget.SettleMeaning(s.sessions[q.session], BudgetProtocol.ESTIMATE, BudgetProtocol.FinalCost(turn.outcome.cost));
    }
  }

  /** The row moves by the cost of a settled request up to the epsilon, by a whole estimate for
      one whose call or settlement failed, and not at all for a refused one. */
  lemma RequestMovesRow(s: State, q: Query, x: Luck, turn: Turn, e: Env)
    requires e.settings.killSwitch
    requires q.session in s.sessions ==> s.sessions[q.session].cost >= 0.0
    ensures var (t, r) := RouteWith(s, q, x, turn, e);
      var before := Created(s.sessions, q.session, e.settings.sessionLimit)[q.session];
      && q.session in t.sessions
      && var moved := t.sessions[q.session].cost - before.cost;
         && (r.OverBudget? <==> !Budget.HasRoom(before, BudgetProtocol.ESTIMATE))
         && (r.OverBudget? ==> moved == 0.0)
         && (r.CallError? || r.NotSettled? ==> moved == BudgetProtocol.ESTIMATE)
         && (r.Answered? || r.NotRead? || r.NotLogged? ==>
               turn.outcome.Served? && Budget.Negligible(moved - BudgetProtocol.FinalCost(turn.outcome.cost)))
         && (r.Answered? ==> r.cost == BudgetProtocol.FinalCost(turn.outcome.cost))
  {
    AdmissionMovesRow(s, q, x, e);
    var (ready, a, admitted) := Admitted(s, q, x, e);
    if admitted {
      ConclusionMovesRow(ready, q, x, CycleSeen(ready, q, e), turn, e);
    }
  }

  predicate SolventRow(row: Budget.Row) {
    0.0 <= row.cost && (row.limit >= 0.0 ==> row.cost <= row.limit)
  }

  predicate Solvent(t: Budget.Table) {
    forall id :: id in t ==> SolventRow(t[id])
  }

  lemma SettledIsSolvent(row: Budget.Row, cost: real)
    requires SolventRow(row) && row.cost >= BudgetProtocol.ESTIMATE && cost >= 0.0
    ensures SolventRow(Budget.Settle(row, BudgetProtocol.ESTIMATE, cost).0)
  {
  }

  lemma AdmittedIsSolvent(s: State, q: Query, x: Luck, e: Env)
    requires e.settings.killSwitch && Solvent(s.sessions)
    ensures var (t, a, admitted) := Admitted(s, q, x, e);
      && SolventRow(t.sessions[q.session])
      && (admitted ==> t.sessions[q.session].cost >= BudgetProtocol.ESTIMATE)
  {
  }

  lemma ConcludedIsSolvent(s: State, q: Query, x: Luck, cycle: bool, turn: Turn, e: Env)
    requires e.settings.killSwitch && q.session in s.sessions && SolventRow(s.sessions[q.session])
    requires s.sessions[q.session].cost >= BudgetProtocol.ESTIMATE
    ensures var t := Concluded(s, q, x, cycle, turn, e).0;
      q.session in t.sessions && SolventRow(t.sessions[q.session])
  {
    if turn.outcome.Served? {
      SettledIsSolvent(s.sessions[q.session], BudgetProtocol.FinalCost(turn.outcome.cost));
    }
  }

  lemma RequestKeepsSolvent(s: State, q: Query, x: Luck, turn: Turn, e: Env)
    requires e.settings.killSwitch && Solvent(s.sessions)
    ensures Solvent(RouteWith(s, q, x, turn, e).0.sessions)
  {
    AdmittedIsSolvent(s, q, x, e);
    var (ready, a, admitted) := Admitted(s, q, x, e);
    if admitted {
      ConcludedIsSolvent(ready, q, x, CycleSeen(ready, q, e), turn, e);
    }
    OtherSessions(s, q, x, turn, e);
  }

  /** With the kill switch on no session is ever above its limit or below zero. */
  lemma {:induction false} RunStaysSolvent(s: State, steps: seq<Step>, e: Env)
    requires e.settings.killSwitch && Solvent(s.sessions)
    ensures Solvent(Run(s, steps, e).sessions)
  {
    if steps == [] {
    } else {
      var init, last := steps[..|steps| - 1], steps[|steps| - 1];
      RunStaysSolvent(s, init, e);
      var t := Run(s, init, e);
      RequestKeepsSolvent(t, last.query, last.luck, TurnOf(t, last.query, last.luck, e), e);
    }
  }

  // ---- The rate limit over whole runs -------------------------------------

  /** Whoever served a call had just been let through by the limiter. */
  lemma ServedWasAllowed(
    s: State, route: Route, estimate: int, reply: (nat, Failover.Attempt) -> Failover.Reply, at: nat -> int, e: Env)
    returns (place: nat)
    requires Call(s, route, estimate, reply, at, e).Served?
    ensures Failover.AllowsAt(s.usage, Call(s, route, estimate, reply, at, e).id, at(place), estimate, MARGIN, e.config)
  {
    var order := TierOrder(route, e.config);
    var w := WorldFor(s, route, estimate, reply, at, e);
    var calls := Failover.OutcomeIsFirstSuccess(order, e.config, e.status, w);
    var tier := Failover.Candidates(order, e.config.models, e.status);
    place := Failover.PlannedModel(tier, w, e.config, calls - 1);
  }

  lemma TurnWasAllowed(s: State, q: Query, x: Luck, a: Cache.Answer, cycle: bool, e: Env, after: int)
    returns (at: int)
    requires TakeTurn(s, q, x, a, cycle, e).outcome.Served? && Timed(x, after)
    ensures Failover.AllowsAt(s.usage, TakeTurn(s, q, x, a, cycle, e).outcome.id, at, q.estimate, MARGIN, e.config)
    ensures after <= at <= x.recordedAt
  {
    var turn := TakeTurn(s, q, x, a, cycle, e);
    var (v, judged) := FirstVerdict(a, q, x);
    var route := RouteFor(v, s, cycle, e);
    if turn.outcome == Call(s, route, q.estimate, x.reply, x.checkedAt, e) {
      var place := ServedWasAllowed(s, route, q.estimate, x.reply, x.checkedAt, e);
      at := x.checkedAt(place);
    } else {
      var place := ServedWasAllowed(s, turn.route, q.estimate, x.retry, x.recheckedAt, e);
      at := x.recheckedAt(place);
    }
  }

  lemma ConclusionUsage(s: State, q: Query, x: Luck, cycle: bool, turn: Turn, e: Env, model: string)
    requires q.session in s.sessions
    ensures var (t, r) := Concluded(s, q, x, cycle, turn, e);
      && (r.Answered? ==> turn.outcome.Served? && r.id == turn.outcome.id)
      && Used(t, model) == if r.Answered? && r.id == model
                           then Used(s, model) + [Rate.Event(x.recordedAt, turn.outcome.tokens)] else Used(s, model)
  {
  }

  /** Only an answer is recorded, once, for the model that gave it. */
  lemma UsageChange(s: State, q: Query, x: Luck, turn: Turn, e: Env, model: string)
    ensures var (t, r) := RouteWith(s, q, x, turn, e);
      && (r.Answered? ==> turn.outcome.Served? && r.id == turn.outcome.id)
      && Used(t, model) == if r.Answered? && r.id == model
                           then Used(s, model) + [Rate.Event(x.recordedAt, turn.outcome.tokens)] else Used(s, model)
  {
    AdmissionTeachesNothing(s, q, x, e);
    var (ready, a, admitted) := Admitted(s, q, x, e);
    if admitted {
      ConclusionUsage(ready, q, x, CycleSeen(ready, q, e), turn, e, model);
    }
  }

  /** No closed window of this span ever held more than the cap, and the latest passing check
      vouches for the windows that are still open. */
  ghost predicate Capped(h: seq<Rate.Event>, clock: int, span: int, cap: int) {
    exists pass :: Rate.Bounded(Rate.Flow(h, 0, clock, pass), span, cap)
  }

  ghost predicate HasCap(limits: Rate.Limits, span: int, cap: int) {
    cap >= 0 && Rate.Limited(Rate.Setup(Rate.CapsOf(limits, MARGIN), 1), span, cap)
  }

  lemma CappedLater(h: seq<Rate.Event>, clock: int, later: int, span: int, cap: int)
    requires Capped(h, clock, span, cap) && clock <= later
    ensures Capped(h, later, span, cap)
  {
    var pass :| Rate.Bounded(Rate.Flow(h, 0, clock, pass), span, cap);
    assert Rate.Bounded(Rate.Flow(h, 0, later, pass), span, cap);
  }

  lemma CappedGrown(h: seq<Rate.Event>, clock: int, at: int, event: Rate.Event, limits: Rate.Limits, estimate: int,
                    span: int, cap: int)
    requires Capped(h, clock, span, cap) && HasCap(limits, span, cap) && clock <= at <= event.at
    requires Rate.Decide(Rate.UsageAt(h, at), Rate.CapsOf(limits, MARGIN), estimate).Allowed?
    ensures Capped(h + [event], event.at, span, cap)
  {
    var pass :| Rate.Bounded(Rate.Flow(h, 0, clock, pass), span, cap);
    var setup := Rate.Setup(Rate.CapsOf(limits, MARGIN), 1);
    var before, asked, done := Rate.Flow(h, 0, clock, pass), Rate.Flow(h, 1, at, at), Rate.Flow(h + [event], 0, event.at, at);
    var ask, finish := Rate.Ask(at, estimate), Rate.Finish(event.at, event.tokens);
    assert Rate.Step(before, ask, setup) == asked && Rate.Step(asked, finish, setup) == done;
    assert Rate.Bounded(asked, span, cap) by {
      Rate.StepKeepsBound(before, ask, setup, span, cap);
    }
    assert Rate.Bounded(done, span, cap) by {
      Rate.StepKeepsBound(asked, finish, setup, span, cap);
    }
  }

  lemma RequestKeepsCaps(s: State, q: Query, x: Luck, e: Env, clock: int, model: string, span: int, cap: int)
    requires model in e.config.models && HasCap(e.config.models[model].limits, span, cap)
    requires Capped(Used(s, model), clock, span, cap) && Timed(x, clock)
    ensures Capped(Used(RouteRequest(s, q, x, e).0, model), x.recordedAt, span, cap)
  {
    var turn := TurnOf(s, q, x, e);
    var (t, r) := RouteWith(s, q, x, turn, e);
    UsageChange(s, q, x, turn, e, model);
    if r.Answered? && r.id == model {
      var (ready, a, _) := Admitted(s, q, x, e);
      AdmissionTeachesNothing(s, q, x, e);
      var at := TurnWasAllowed(ready, q, x, a, CycleSeen(ready, q, e), e, clock);
      CappedGrown(Used(s, model), clock, at, Rate.Event(x.recordedAt, turn.outcome.tokens),
                  e.config.models[model].limits, q.estimate, span, cap);
    } else {
      CappedLater(Used(s, model), clock, x.recordedAt, span, cap);
    }
  }

  lemma {:induction false} RunKeepsCaps(s: State, steps: seq<Step>, e: Env, start: int, model: string, span: int, cap: int)
    requires model in e.config.models && HasCap(e.config.models[model].limits, span, cap)
    requires Capped(Used(s, model), start, span, cap) && InTime(steps, start)
    ensures Capped(Used(Run(s, steps, e), model), ClockAfter(steps, start), span, cap)
  {
    if steps == [] {
    } else {
      var init, last := steps[..|steps| - 1], steps[|steps| - 1];
      assert forall k :: 0 <= k < |init| ==> init[..k] == steps[..k];
      RunKeepsCaps(s, init, e, start, model, span, cap);
      RequestKeepsCaps(Run(s, init, e), last.query, last.luck, e, ClockAfter(init, start), model, span, cap);
    }
  }

  /** Requests handled one after the other never exceed a model's scaled limits: from a limiter
      that has recorded nothing yet, no closed minute and no closed day of any run holds more
      answers of a model than its cap. */
  lemma SequentialRateBound(s: State, steps: seq<Step>, e: Env, start: int, model: string, a: int)
    requires s.usage == map[] && InTime(steps, start) && model in e.config.models
    ensures var limits, h := e.config.models[model].limits, Used(Run(s, steps, e), model);
      && (limits.rpm > 0 ==> Rate.CountWithin(h, a, Rate.MINUTE) <= Rate.Cap(limits.rpm, MARGIN))
      && (limits.rpd > 0 ==> Rate.CountWithin(h, a, Rate.DAY) <= Rate.Cap(limits.rpd, MARGIN))
  {
    var limits := e.config.models[model].limits;
    if limits.rpm > 0 {
      CappedRun(s, steps, e, start, model, Rate.MINUTE, Rate.Cap(limits.rpm, MARGIN), a);
    }
    if limits.rpd > 0 {
      CappedRun(s, steps, e, start, model, Rate.DAY, Rate.Cap(limits.rpd, MARGIN), a);
    }
  }

  lemma CappedRun(s: State, steps: seq<Step>, e: Env, start: int, model: string, span: int, cap: int, a: int)
    requires s.usage == map[] && InTime(steps, start)
    requires model in e.config.models && HasCap(e.config.models[model].limits, span, cap)
    ensures Rate.CountWithin(Used(Run(s, steps, e), model), a, span) <= cap
  {
    assert Rate.Bounded(Rate.Flow([], 0, start, start), span, cap);
    RunKeepsCaps(s, steps, e, start, model, span, cap);
  }

  // ---- What the caller has been sent --------------------------------------

  /** The replies to all calls of the request, over both rounds. */
  ghost function AllHeard(s: State, q: Query, x: Luck, a: Cache.Answer, cycle: bool, e: Env): seq<Failover.Reply> {
    var route := RouteFor(FirstVerdict(a, q, x).0, s, cycle, e);
    var first := Heard(s, route, q.estimate, x.reply, x.checkedAt, e);
    if TriesAgain(q, x, a, route, Call(s, route, q.estimate, x.reply, x.checkedAt, e))
    then first + Heard(s, RouteFor(x.judged, s, cycle, e), q.estimate, x.retry, x.recheckedAt, e)
    else first
  }

  /** All replies failed but the last. */
  ghost predicate LastAnswers(replies: seq<Failover.Reply>) {
    && replies != [] && replies[|replies| - 1].Answer?
    && (forall k :: 0 <= k < |replies| - 1 ==> replies[k].Failure?)
  }

  /** The outcome carries what this reply said. */
  ghost predicate Carries(o: Failover.Outcome, reply: Failover.Reply) {
    && o.Served? && reply.Answer?
    && o.content == reply.content && o.cost == reply.cost && o.tokens == reply.tokens
  }

  lemma RoundAnswers(
    s: State, route: Route, estimate: int, reply: (nat, Failover.Attempt) -> Failover.Reply, at: nat -> int, e: Env)
    ensures var o, heard := Call(s, route, estimate, reply, at, e), Heard(s, route, estimate, reply, at, e);
      if o.Served? then LastAnswers(heard) && Carries(o, heard[|heard| - 1])
      else forall k :: 0 <= k < |heard| ==> heard[k].Failure?
  {
    Failover.RepliesEndWithAnswer(TierOrder(route, e.config), e.config, e.status, WorldFor(s, route, estimate, reply, at, e));
  }

  lemma FailuresFirst(a: seq<Failover.Reply>, b: seq<Failover.Reply>)
    requires (forall k :: 0 <= k < |a| ==> a[k].Failure?) && LastAnswers(b)
    ensures LastAnswers(a + b) && (a + b)[|a + b| - 1] == b[|b| - 1]
  {
  }

  /** The text sent is the text of all replies, and only the last of them answered. */
  lemma TurnReceives(s: State, q: Query, x: Luck, a: Cache.Answer, cycle: bool, e: Env)
    ensures var turn, heard := TakeTurn(s, q, x, a, cycle, e), AllHeard(s, q, x, a, cycle, e);
      && turn.received == Failover.Text(heard)
      && (turn.outcome.Served? ==> LastAnswers(heard) && Carries(turn.outcome, heard[|heard| - 1]))
  {
    var route := RouteFor(FirstVerdict(a, q, x).0, s, cycle, e);
    var first := Heard(s, route, q.estimate, x.reply, x.checkedAt, e);
    RoundAnswers(s, route, q.estimate, x.reply, x.checkedAt, e);
    if TriesAgain(q, x, a, route, Call(s, route, q.estimate, x.reply, x.checkedAt, e)) {
      var again := RouteFor(x.judged, s, cycle, e);
      var second := Heard(s, again, q.estimate, x.retry, x.recheckedAt, e);
      Failover.TextAppend(first, second);
      RoundAnswers(s, again, q.estimate, x.retry, x.recheckedAt, e);
      if TakeTurn(s, q, x, a, cycle, e).outcome.Served? {
        FailuresFirst(first, second);
      }
    }
  }

  /** A served caller was sent exactly what the answering call streamed if and only if none of
      the failed calls before it streamed anything, in either round. */
  lemma ReceivedIsTheAnswersIff(s: State, q: Query, x: Luck, a: Cache.Answer, cycle: bool, e: Env)
    ensures var turn, heard := TakeTurn(s, q, x, a, cycle, e), AllHeard(s, q, x, a, cycle, e);
      turn.outcome.Served? ==>
        && LastAnswers(heard)
        && (turn.received == heard[|heard| - 1].streamed <==> Failover.Silent(heard[..|heard| - 1]))
  {
    TurnReceives(s, q, x, a, cycle, e);
    var heard := AllHeard(s, q, x, a, cycle, e);
    if heard != [] {
      Failover.TextIsTheLastIff(heard);
    }
  }

  /** The replies to all calls of a request. */
  ghost function Replies(s: State, q: Query, x: Luck, e: Env): seq<Failover.Reply> {
    var (ready, a, _) := Admitted(s, q, x, e);
    AllHeard(ready, q, x, a, CycleSeen(ready, q, e), e)
  }

  lemma LastReplyCounts(s: State, q: Query, x: Luck, e: Env)
    ensures var o, heard := TurnOf(s, q, x, e).outcome, Replies(s, q, x, e);
      o.Served? ==> LastAnswers(heard) && Carries(o, heard[|heard| - 1])
  {
    var (ready, a, _) := Admitted(s, q, x, e);
    TurnReceives(ready, q, x, a, CycleSeen(ready, q, e), e);
  }

  // ---- The controller over whole runs -------------------------------------

  lemma TurnRoute(s: State, q: Query, x: Luck, a: Cache.Answer, cycle: bool, e: Env)
    ensures var turn := TakeTurn(s, q, x, a, cycle, e); turn.route == RouteFor(turn.verdict, s, cycle, e)
  {
  }

  /** What the controller learns from a request: the verdict that counted, if the request got
      as far as being settled. */
  ghost function LessonOf(s: State, q: Query, x: Luck, e: Env): Option<Escalation.Request> {
    var turn, r := TurnOf(s, q, x, e), RouteRequest(s, q, x, e).1;
    if e.settings.dynamicThreshold && (r.Answered? || r.NotLogged?)
    then Some(Escalation.Request(turn.verdict.score, turn.verdict.impact, CycleSeen(Admitted(s, q, x, e).0, q, e)))
    else None
  }

  lemma ConclusionControl(s: State, q: Query, x: Luck, cycle: bool, turn: Turn, e: Env)
    requires q.session in s.sessions && turn.route == RouteFor(turn.verdict, s, cycle, e)
    ensures var (t, r) := Concluded(s, q, x, cycle, turn, e);
      t.control ==
        if e.settings.dynamicThreshold && (r.Answered? || r.NotLogged?)
        then Handle(s.control, Escalation.Request(turn.verdict.score, turn.verdict.impact, cycle), e.settings.tuning)
        else s.control
  {
  }

  lemma RequestControl(s: State, q: Query, x: Luck, e: Env)
    ensures RouteRequest(s, q, x, e).0.control ==
      match LessonOf(s, q, x, e)
      case None => s.control
      case Some(lesson) => Handle(s.control, lesson, e.settings.tuning)
  {
    AdmissionTeachesNothing(s, q, x, e);
    var (ready, a, admitted) := Admitted(s, q, x, e);
    if admitted {
      var cycle, turn := CycleSeen(ready, q, e), TurnOf(s, q, x, e);
      TurnRoute(ready, q, x, a, cycle, e);
      ConclusionControl(ready, q, x, cycle, turn, e);
    }
  }

  ghost function Lessons(s: State, steps: seq<Step>, e: Env): seq<Escalation.Request> {
    if steps == [] then []
    else
      var init, last := steps[..|steps| - 1], steps[|steps| - 1];
      var lesson := LessonOf(Run(s, init, e), last.query, last.luck, e);
      Lessons(s, init, e) + AsSeq(lesson)
  }

  function AsSeq(lesson: Option<Escalation.Request>): seq<Escalation.Request> {
    if lesson.Some? then [lesson.value] else []
  }

  lemma OneMoreLesson(c: Control, qs: seq<Escalation.Request>, lesson: Option<Escalation.Request>, t: Tuning)
    ensures HandleAll(c, qs + AsSeq(lesson), t) ==
      match lesson
      case None => HandleAll(c, qs, t)
      case Some(l) => Handle(HandleAll(c, qs, t), l, t)
  {
    var all := qs + AsSeq(lesson);
    if lesson.Some? {
      HandleAllSplit(c, all, |qs|, t);
      assert all[..|qs|] == qs && all[..|qs| + 1] == all;
    } else {
      assert all == qs;
    }
  }

  /** The controller lives on the lessons of a run as if they were all there is. */
  lemma {:induction false} RunControl(s: State, steps: seq<Step>, e: Env)
    ensures Run(s, steps, e).control == HandleAll(s.control, Lessons(s, steps, e), e.settings.tuning)
  {
    if steps == [] {
    } else {
      var init, last := steps[..|steps| - 1], steps[|steps| - 1];
      RunControl(s, init, e);
      var t, qs := Run(s, init, e), Lessons(s, init, e);
      RequestControl(t, last.query, last.luck, e);
      OneMoreLesson(s.control, qs, LessonOf(t, last.query, last.luck, e), e.settings.tuning);
    }
  }

  /** Strict mode ends for the whole router: in any run that starts outside it, the stretches of
      strict lessons are as short as for requests handed to the controller alone. */
  lemma RouterStrictModeEnds(s: State, steps: seq<Step>, e: Env, i: nat, j: nat)
    requires Sane(e.settings.tuning) && |s.control.window| <= e.settings.tuning.windowSize
    requires s.control.threshold >= 0.0 && !Strict(s.control, e.settings.tuning)
    ensures var t, qs := e.settings.tuning, Lessons(s, steps, e);
      && Run(s, steps, e).control == HandleAll(s.control, qs, t)
      && (i <= j <= |qs| && StrictBetween(s.control, qs, i, j, t) ==>
            j - i <= 85 + (t.windowSize - Tolerated(t)) + Prolonged(Forced(qs[i..j]), Tolerated(t), t.windowSize))
  {
    var t, qs := e.settings.tuning, Lessons(s, steps, e);
    RunControl(s, steps, e);
    if i <= j <= |qs| && StrictBetween(s.control, qs, i, j, t) {
      StrictModeEnds(s.control, qs, i, j, t);
    }
  }

  // ---- Repeated prompts ---------------------------------------------------

  function SessionsOf(steps: seq<Step>): set<string> {
    set k | 0 <= k < |steps| :: steps[k].query.session
  }

  lemma AdmissionMemory(s: State, q: Query, x: Luck, e: Env, id: string)
    requires id != q.session && id in s.memories
    requires id in Cycles.Elements(Live(s.fetched + [q.session], e))
    ensures var t := Admitted(s, q, x, e).0;
      && id in t.memories && t.memories[id] == s.memories[id]
      && (t.fetched == s.fetched || t.fetched == s.fetched + [q.session])
  {
  }

  lemma ConclusionMemory(s: State, q: Query, x: Luck, cycle: bool, turn: Turn, e: Env, id: string)
    requires q.session in s.sessions && id != q.session && id in s.memories
    ensures var t := Concluded(s, q, x, cycle, turn, e).0;
      id in t.memories && t.memories[id] == s.memories[id] && t.fetched == s.fetched
  {
  }

  /** A request touches its own detector only; another session's stays as long as the registry
      has room for it. */
  lemma OthersMemory(s: State, q: Query, x: Luck, turn: Turn, e: Env, id: string)
    requires id != q.session && id in s.memories
    requires id in Cycles.Elements(Live(s.fetched + [q.session], e))
    ensures var t := RouteWith(s, q, x, turn, e).0;
      && id in t.memories && t.memories[id] == s.memories[id]
      && (t.fetched == s.fetched || t.fetched == s.fetched + [q.session])
  {
    AdmissionMemory(s, q, x, e, id);
    var (ready, a, admitted) := Admitted(s, q, x, e);
    if admitted {
      ConclusionMemory(ready, q, x, CycleSeen(ready, q, e), turn, e, id);
    }
  }

  lemma OwnMemory(s: State, q: Query, x: Luck, turn: Turn, e: Env)
    requires Admitted(s, q, x, e).2 && turn.outcome.Served? && turn.outcome.content != ""
    ensures var t := RouteWith(s, q, x, turn, e).0;
      && t.fetched == s.fetched + [q.session] && q.session in t.memories
      && t.memories[q.session] == Cycles.Added(MemoryOf(Admitted(s, q, x, e).0, q.session), e.tokens,
                                               e.settings.maxHashes, q.prompt, turn.outcome.content)
  {
    var (ready, a, _) := Admitted(s, q, x, e);
    ConclusionMemories(ready, q, x, CycleSeen(ready, q, e), turn, e);
  }

  lemma SubsetSize<T>(a: set<T>, b: set<T>)
    requires a <= b
    ensures |a| <= |b|
  {
    assert b == a + (b - a);
  }

  lemma StillLive(fetched: seq<string>, more: seq<string>, id: string, others: set<string>, e: Env)
    requires fetched != [] && fetched[|fetched| - 1] == id && id !in others
    requires (forall y :: y in more ==> y in others) && |others| < e.settings.maxSessions
    ensures id in Cycles.Elements(Live(fetched + more, e))
  {
    var history := fetched + more;
    assert history[|fetched| - 1] == id;
    assert id in history;
    var i := Cycles.LastUse(history, id);
    assert i >= |fetched| - 1;
    assert Cycles.UsedAfter(history, i) <= others;
    SubsetSize(Cycles.UsedAfter(history, i), others);
    Cycles.SurvivesIff(history, id, e.settings.maxSessions);
  }

  ghost predicate Among(ids: seq<string>, others: set<string>) {
    forall y :: y in ids ==> y in others
  }

  /** The session was the last to be fetched before `more`, and its detector is `m`. */
  ghost predicate KeptSince(t: State, fetched: seq<string>, more: seq<string>, id: string, m: Cycles.Memory) {
    t.fetched == fetched + more && id in t.memories && t.memories[id] == m
  }

  /** The session was the last to be fetched, and so few others come that it stays. */
  ghost predicate StaysAmong(fetched: seq<string>, id: string, others: set<string>, e: Env) {
    fetched != [] && fetched[|fetched| - 1] == id && id !in others && |others| < e.settings.maxSessions
  }

  lemma OneMoreOther(t: State, step: Step, fetched: seq<string>, more: seq<string>, id: string, m: Cycles.Memory,
                     others: set<string>, e: Env)
    returns (next: seq<string>)
    requires StaysAmong(fetched, id, others, e) && KeptSince(t, fetched, more, id, m)
    requires step.query.session in others && Among(more, others)
    ensures KeptSince(RouteRequest(t, step.query, step.luck, e).0, fetched, next, id, m) && Among(next, others)
  {
    next := more + [step.query.session];
    assert t.fetched + [step.query.session] == fetched + next;
    StillLive(fetched, next, id, others, e);
    var turn := TurnOf(t, step.query, step.luck, e);
    OthersMemory(t, step.query, step.luck, turn, e, id);
    if RouteWith(t, step.query, step.luck, turn, e).0.fetched == t.fetched {
      next := more;
    }
  }

  lemma SessionsOfLast(steps: seq<Step>)
    requires steps != []
    ensures SessionsOf(steps[..|steps| - 1]) <= SessionsOf(steps)
    ensures steps[|steps| - 1].query.session in SessionsOf(steps)
  {
    var init := steps[..|steps| - 1];
    assert forall k :: 0 <= k < |init| ==> init[k] == steps[k];
  }

  /** A detector outlives requests of fewer than maxSessions other sessions. */
  lemma {:induction false} OthersKeepMemory(
    s: State, steps: seq<Step>, others: set<string>, id: string, m: Cycles.Memory, e: Env)
    returns (more: seq<string>)
    requires StaysAmong(s.fetched, id, others, e) && KeptSince(s, s.fetched, [], id, m) && SessionsOf(steps) <= others
    ensures KeptSince(Run(s, steps, e), s.fetched, more, id, m) && Among(more, others)
  {
    if steps == [] {
      more := [];
    } else {
      SessionsOfLast(steps);
      var init, last := steps[..|steps| - 1], steps[|steps| - 1];
      var before := OthersKeepMemory(s, init, others, id, m, e);
      more := OneMoreOther(Run(s, init, e), last, s.fetched, before, id, m, others, e);
    }
  }

  lemma RepeatSeen(s: State, q: Query, x: Luck, e: Env, before: Cycles.Memory, content: string)
    requires e.settings.cycleDetection && e.settings.maxHashes >= 1 && q.session in s.memories
    requires s.memories[q.session] == Cycles.Added(before, e.tokens, e.settings.maxHashes, q.prompt, content)
    requires q.session in Cycles.Elements(Live(s.fetched + [q.session], e)) && Admitted(s, q, x, e).2
    ensures CycleSeen(Admitted(s, q, x, e).0, q, e)
  {
    Cycles.RepeatForcesStrong(before, e.tokens, e.settings.cycleThreshold, e.settings.maxHashes, q.prompt, content,
                              0.0, Low, 1.0, false);
  }

  lemma CycleGoesStrong(s: State, q: Query, x: Luck, e: Env)
    requires Admitted(s, q, x, e).2 && CycleSeen(Admitted(s, q, x, e).0, q, e)
    ensures TurnOf(s, q, x, e).route == Strong && RouteRequest(s, q, x, e).1.route == Strong
  {
    var (ready, a, _) := Admitted(s, q, x, e);
    TurnRoute(ready, q, x, a, true, e);
  }

  /** A detector that has just remembered this prompt with a response. */
  ghost predicate JustAnswered(t: State, session: string, prompt: string, e: Env) {
    && session in t.memories
    && exists before, content ::
         t.memories[session] == Cycles.Added(before, e.tokens, e.settings.maxHashes, prompt, content)
  }

  lemma AnswerRemembered(s: State, q: Query, x: Luck, e: Env)
    requires var r := RouteRequest(s, q, x, e).1; r.Answered? && r.content != ""
    ensures var t := RouteRequest(s, q, x, e).0;
      JustAnswered(t, q.session, q.prompt, e) && t.fetched == s.fetched + [q.session]
  {
    OwnMemory(s, q, x, TurnOf(s, q, x, e), e);
  }

  lemma RememberedGoesStrong(t: State, q: Query, x: Luck, e: Env)
    requires e.settings.cycleDetection && e.settings.maxHashes >= 1 && e.settings.maxSessions >= 1
    requires JustAnswered(t, q.session, q.prompt, e)
    ensures var r := RouteRequest(t, q, x, e).1; r.OverBudget? || r.route == Strong
  {
    if Admitted(t, q, x, e).2 {
      var before, content :|
        t.memories[q.session] == Cycles.Added(before, e.tokens, e.settings.maxHashes, q.prompt, content);
      LatestIsLive(t.fetched, q.session, e);
      RepeatSeen(t, q, x, e, before, content);
      CycleGoesStrong(t, q, x, e);
    }
  }

  /** Repeating a prompt after its successful, non-empty response goes to the strong tier,
      whatever the cache, the judge and the threshold say, as long as the budget admits it and
      fewer than maxSessions other sessions were active in between. */
  lemma RepeatGoesStrong(s: State, first: Step, steps: seq<Step>, again: Step, e: Env)
    requires e.settings.cycleDetection && e.settings.maxHashes >= 1
    requires first.query.session == again.query.session && first.query.prompt == again.query.prompt
    requires var r := RouteRequest(s, first.query, first.luck, e).1; r.Answered? && r.content != ""
    requires first.query.session !in SessionsOf(steps) && |SessionsOf(steps)| < e.settings.maxSessions
    ensures var t := Run(RouteRequest(s, first.query, first.luck, e).0, steps, e);
      var r := RouteRequest(t, again.query, again.luck, e).1;
      r.OverBudget? || r.route == Strong
  {
    var after, others := RouteRequest(s, first.query, first.luck, e).0, SessionsOf(steps);
    AnswerRemembered(s, first.query, first.luck, e);
    var id := first.query.session;
    assert after.fetched + [] == after.fetched;
    var more := OthersKeepMemory(after, steps, others, id, after.memories[id], e);
    RememberedGoesStrong(Run(after, steps, e), again.query, again.luck, e);
  }

  lemma LatestIsLive(fetched: seq<string>, id: string, e: Env)
    requires e.settings.maxSessions >= 1
    ensures id in Cycles.Elements(Live(fetched + [id], e))
  {
    StillLive(fetched + [id], [], id, {}, e);
    assert fetched + [id] + [] == fetched + [id];
  }

  // ---- The cache as the router uses it ------------------------------------

  function Gap(from: int, to: int): nat {
    if from <= to then to - from else 0
  }

  /** Whether the request tells the cache about its outcome, and what. */
  ghost function NoteOf(s: State, q: Query, x: Luck, e: Env): (note: Option<CacheRuns.Op>)
    ensures note.Some? ==> note.value.Note? && note.value.key == q.logKey
    ensures note.Some? ==> note.value.delay == Gap(x.askedAt, x.notedAt) && note.value.lag == Gap(x.notedAt, x.storedAt)
  {
    var turn := TurnOf(s, q, x, e);
    if RouteRequest(s, q, x, e).1.Answered? && turn.outcome.Served? && !CycleSeen(Admitted(s, q, x, e).0, q, e)
    then
      var o := turn.outcome;
      Some(CacheRuns.Note(
             q.logKey,
             Cache.Call(turn.route, o.id, x.latency, turn.judged, BudgetProtocol.FinalCost(o.cost), o.tokens),
             Gap(x.askedAt, x.notedAt), Gap(x.notedAt, x.storedAt)))
    else None
  }

  /** The operations a request performs on the cache, and the cache's clock afterwards. */
  ghost function CacheOps(s: State, q: Query, x: Luck, e: Env, clock: int): (seq<CacheRuns.Op>, int) {
    if !e.settings.semanticCache then ([], clock)
    else
      var ask, note := CacheRuns.Ask(q.key, Gap(clock, x.askedAt)), NoteOf(s, q, x, e);
      if note.Some? then ([ask, note.value], x.storedAt) else ([ask], x.askedAt)
  }

  lemma ConclusionCache(s: State, q: Query, x: Luck, cycle: bool, turn: Turn, e: Env)
    requires q.session in s.sessions
    ensures var (t, r) := Concluded(s, q, x, cycle, turn, e);
      && (r.Answered? ==> turn.outcome.Served?)
      && t.cache ==
         if r.Answered? && e.settings.semanticCache && !cycle
         then Cache.NoteWorld(s.cache, q.logKey,
                Cache.Call(turn.route, turn.outcome.id, x.latency, turn.judged,
                           BudgetProtocol.FinalCost(turn.outcome.cost), turn.outcome.tokens),
                x.notedAt, x.storedAt, e.settings.policy)
         else s.cache
  {
  }

  lemma RunOne(s: CacheRuns.State, op: CacheRuns.Op, p: Cache.Policy)
    ensures CacheRuns.Run(s, [op], p) == CacheRuns.Step(s, op, p)
  {
    assert [op][1..] == [];
  }

  lemma RunTwo(s: CacheRuns.State, a: CacheRuns.Op, b: CacheRuns.Op, p: Cache.Policy)
    ensures CacheRuns.Run(s, [a, b], p) == CacheRuns.Step(CacheRuns.Step(s, a, p), b, p)
  {
    assert [a, b][1..] == [b];
    RunOne(CacheRuns.Step(s, a, p), b, p);
  }

  lemma RequestCacheValue(s: State, q: Query, x: Luck, e: Env)
    ensures RouteRequest(s, q, x, e).0.cache ==
      if !e.settings.semanticCache then s.cache
      else
        var asked := Cache.AskWorld(s.cache, q.key, x.askedAt, e.settings.policy).0;
        match NoteOf(s, q, x, e)
        case None => asked
        case Some(n) => Cache.NoteWorld(asked, n.key, n.call, x.notedAt, x.storedAt, e.settings.policy)
  {
    var turn := TurnOf(s, q, x, e);
    var (ready, a, admitted) := Admitted(s, q, x, e);
    AdmissionTeachesNothing(s, q, x, e);
    if admitted {
      ConclusionCache(ready, q, x, CycleSeen(ready, q, e), turn, e);
    }
  }

  lemma AskStep(w: Cache.World, key: string, clock: int, at: int, p: Cache.Policy)
    requires clock <= at
    ensures CacheRuns.Step(CacheRuns.State(w, clock), CacheRuns.Ask(key, Gap(clock, at)), p)
         == CacheRuns.State(Cache.AskWorld(w, key, at, p).0, at)
  {
  }

  lemma NoteStep(w: Cache.World, key: string, call: Cache.Call, clock: int, at: int, later: int, p: Cache.Policy)
    requires clock <= at <= later
    ensures CacheRuns.Step(CacheRuns.State(w, clock), CacheRuns.Note(key, call, Gap(clock, at), Gap(at, later)), p)
         == CacheRuns.State(Cache.NoteWorld(w, key, call, at, later, p), later)
  {
  }

  lemma RequestCache(s: State, q: Query, x: Luck, e: Env, clock: int)
    requires Timed(x, clock)
    ensures var (ops, after) := CacheOps(s, q, x, e, clock);
      && CacheRuns.Run(CacheRuns.State(s.cache, clock), ops, e.settings.policy)
         == CacheRuns.State(RouteRequest(s, q, x, e).0.cache, after)
      && after <= x.recordedAt
  {
    RequestCacheValue(s, q, x, e);
    if e.settings.semanticCache {
      var p, start, note := e.settings.policy, CacheRuns.State(s.cache, clock), NoteOf(s, q, x, e);
      var ask := CacheRuns.Ask(q.key, Gap(clock, x.askedAt));
      AskStep(s.cache, q.key, clock, x.askedAt, p);
      if note.Some? {
        NoteStep(Cache.AskWorld(s.cache, q.key, x.askedAt, p).0, q.logKey, note.value.call,
                 x.askedAt, x.notedAt, x.storedAt, p);
        RunTwo(start, ask, note.value, p);
      } else {
        RunOne(start, ask, p);
      }
    }
  }

  ghost function CacheRun(s: State, steps: seq<Step>, e: Env, start: int): (seq<CacheRuns.Op>, int) {
    if steps == [] then ([], start)
    else
      var init, last := steps[..|steps| - 1], steps[|steps| - 1];
      var (ops, clock) := CacheRun(s, init, e, start);
      var (more, after) := CacheOps(Run(s, init, e), last.query, last.luck, e, clock);
      (ops + more, after)
  }

  lemma {:induction false} CacheRunAppend(s: CacheRuns.State, a: seq<CacheRuns.Op>, b: seq<CacheRuns.Op>, p: Cache.Policy)
    ensures CacheRuns.Run(s, a + b, p) == CacheRuns.Run(CacheRuns.Run(s, a, p), b, p)
    decreases |a|
  {
    if a == [] {
      assert a + b == b;
    } else {
      CacheRunAppend(CacheRuns.Step(s, a[0], p), a[1..], b, p);
      assert (a + b)[0] == a[0] && (a + b)[1..] == a[1..] + b;
    }
  }

  lemma {:induction false} AskedFirstMonotone(ops: seq<CacheRuns.Op>, asked: set<string>, more: set<string>)
    requires CacheRuns.AskedFirst(ops, asked) && asked <= more
    ensures CacheRuns.AskedFirst(ops, more)
    decreases |ops|
  {
    if ops == [] {
    } else {
      match ops[0]
      case Ask(key, _) => AskedFirstMonotone(ops[1..], asked + {key}, more + {key});
      case Note(_, _, _, _) => AskedFirstMonotone(ops[1..], asked, more);
      case Reset => AskedFirstMonotone(ops[1..], asked, more);
      case Restart =>
    }
  }

  lemma {:induction false} AskedFirstAppend(a: seq<CacheRuns.Op>, b: seq<CacheRuns.Op>, asked: set<string>)
    requires CacheRuns.AskedFirst(a, asked) && CacheRuns.AskedFirst(b, {})
    ensures CacheRuns.AskedFirst(a + b, asked)
    decreases |a|
  {
    if a == [] {
      assert a + b == b;
      AskedFirstMonotone(b, {}, asked);
    } else {
      assert (a + b)[0] == a[0] && (a + b)[1..] == a[1..] + b;
      match a[0]
      case Ask(key, _) => AskedFirstAppend(a[1..], b, asked + {key});
      case Note(_, _, _, _) => AskedFirstAppend(a[1..], b, asked);
      case Reset => AskedFirstAppend(a[1..], b, asked);
      case Restart => AskedFirstAppend(a[1..], b, {});
    }
  }

  lemma RequestAsksFirst(s: State, q: Query, x: Luck, e: Env, clock: int)
    requires q.key == q.logKey
    ensures CacheRuns.AskedFirst(CacheOps(s, q, x, e, clock).0, {})
  {
    var ops := CacheOps(s, q, x, e, clock).0;
    if |ops| == 2 {
      assert ops[1..][1..] == [];
    } else if |ops| == 1 {
      assert ops[1..] == [];
    }
  }

  /** The router's cache goes through the run of its own operations. */
  lemma {:induction false} RouterCacheRun(s: State, steps: seq<Step>, e: Env, start: int)
    requires InTime(steps, start)
    ensures var (ops, clock) := CacheRun(s, steps, e, start);
      && CacheRuns.Run(CacheRuns.State(s.cache, start), ops, e.settings.policy)
         == CacheRuns.State(Run(s, steps, e).cache, clock)
      && clock <= ClockAfter(steps, start)
  {
    if steps == [] {
    } else {
      var init, last := steps[..|steps| - 1], steps[|steps| - 1];
      assert forall k :: 0 <= k < |init| ==> init[k] == steps[k] && init[..k] == steps[..k];
      RouterCacheRun(s, init, e, start);
      var t := Run(s, init, e);
      var (ops, clock) := CacheRun(s, init, e, start);
      var more := CacheOps(t, last.query, last.luck, e, clock).0;
      assert Timed(last.luck, ClockAfter(init, start));
      RequestCache(t, last.query, last.luck, e, clock);
      CacheRunAppend(CacheRuns.State(s.cache, start), ops, more, e.settings.policy);
    }
  }

  /** As long as logs are redacted no more than prompts, each of its operations records only what
      it has asked for: exactly what makes restarts of the cache invisible. */
  lemma {:induction false} RouterAsksFirst(s: State, steps: seq<Step>, e: Env, start: int)
    requires InTime(steps, start)
    requires forall k :: 0 <= k < |steps| ==> steps[k].query.key == steps[k].query.logKey
    ensures var (ops, clock) := CacheRun(s, steps, e, start);
      && CacheRuns.Run(CacheRuns.State(s.cache, start), ops, e.settings.policy)
         == CacheRuns.State(Run(s, steps, e).cache, clock)
      && clock <= ClockAfter(steps, start)
      && CacheRuns.AskedFirst(ops, {})
  {
    RouterCacheRun(s, steps, e, start);
    OperationsAskFirst(s, steps, e, start);
  }

  lemma {:induction false} OperationsAskFirst(s: State, steps: seq<Step>, e: Env, start: int)
    requires forall k :: 0 <= k < |steps| ==> steps[k].query.key == steps[k].query.logKey
    ensures CacheRuns.AskedFirst(CacheRun(s, steps, e, start).0, {})
  {
    if steps == [] {
    } else {
      var init, last := steps[..|steps| - 1], steps[|steps| - 1];
      assert forall k :: 0 <= k < |init| ==> init[k] == steps[k];
      OperationsAskFirst(s, init, e, start);
      var (ops, clock) := CacheRun(s, init, e, start);
      RequestAsksFirst(Run(s, init, e), last.query, last.luck, e, clock);
      AskedFirstAppend(ops, CacheOps(Run(s, init, e), last.query, last.luck, e, clock).0, {});
    }
  }
}
