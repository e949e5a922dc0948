/**
 The router object (internal/router/router.go): its components and the request method, which
 does to them exactly what module Routing says a request does to the combined state.
 */
module Router {
  import opened Common
  import opened Threshold
  import opened Escalation
  import opened Routing
  import Budget = SessionStore
  import BudgetProtocol
  import Cache = SemanticCache
  import Config
  import Cycles = CycleDetector
  import Failover
  import Rate = RateLimiter
  import SimHash

  /** What the program is started with. */
  datatype Options = Options(
    killSwitch: bool, cycleDetection: bool, dynamicThreshold: bool, semanticCache: bool, sessionLimit: real,
    targetRate: real, windowSize: int, initialThreshold: real,
    minSamples: int, confidence: real, ttlNanos: int, cycleThreshold: int, cycleWindow: int)

  /** What the components make of it. */
  function SettingsOf(o: Options): Settings {
    Settings(
      o.killSwitch, o.cycleDetection, o.dynamicThreshold, o.semanticCache, o.sessionLimit,
      Tuning(if o.targetRate <= 0.0 then 0.05 else o.targetRate, if o.windowSize <= 0 then 20 else o.windowSize),
      Cache.Policy(if o.minSamples <= 0 then 3 else o.minSamples, if o.confidence <= 0.0 then 0.75 else o.confidence,
                   if o.ttlNanos <= 0 then 604_800_000_000_000 else o.ttlNanos),
      1000, if o.cycleThreshold <= 0 then 3 else o.cycleThreshold, if o.cycleWindow <= 0 then 50 else o.cycleWindow)
  }

  /** The state right after the start: only the tables have a past. */
  function Started(o: Options, sessions: Budget.Table, rows: Cache.Rows): State {
    State(sessions, Control(if o.initialThreshold <= 0.0 then 0.7 else o.initialThreshold, []),
          Cache.World(map[], false, rows), [], map[], map[])
  }

  /** Switches and limit are taken as they are given, and so is every number above zero; for others
      the program has defaults. */
  lemma OptionsTaken(o: Options, sessions: Budget.Table, rows: Cache.Rows)
    ensures var s := SettingsOf(o);
      && s.killSwitch == o.killSwitch && s.cycleDetection == o.cycleDetection && s.dynamicThreshold == o.dynamicThreshold
      && s.semanticCache == o.semanticCache && s.sessionLimit == o.sessionLimit && s.maxSessions == 1000
    ensures var t := SettingsOf(o).tuning;
      && (if o.targetRate > 0.0 then t.targetRate == o.targetRate else t.targetRate == 0.05)
      && (if o.windowSize > 0 then t.windowSize == o.windowSize else t.windowSize == 20)
    ensures var p := SettingsOf(o).policy;
      && (if o.minSamples > 0 then p.minSamples == o.minSamples else p.minSamples == 3)
      && (if o.confidence > 0.0 then p.confidence == o.confidence else p.confidence == 0.75)
      && (if o.ttlNanos > 0 then p.ttl == o.ttlNanos else p.ttl == 7 * 24 * 3600 * 1_000_000_000)
    ensures var s := SettingsOf(o);
      && (if o.cycleThreshold > 0 then s.cycleThreshold == o.cycleThreshold else s.cycleThreshold == 3)
      && (if o.cycleWindow > 0 then s.maxHashes == o.cycleWindow else s.maxHashes == 50)
    ensures var first := Started(o, sessions, rows);
      && first.control.window == [] && first.cache == Cache.World(map[], false, rows) && first.sessions == sessions
      && first.control.threshold == (if o.initialThreshold > 0.0 then o.initialThreshold else 0.7)
      && first.usage == map[] && first.fetched == [] && first.memories == map[]
  {
  }

  class Router {
    const env: Env
    const manager: Budget.Manager
    const control: Dynamic
    const cache: Cache.PersistentCache
    const cycles: Cycles.Registry
    const limiter: Rate.Limiter

    /** A router over a session table and a cache table. */
    constructor (o: Options, config: Config.Configuration, status: Failover.Status,
                 tokens: string -> seq<SimHash.Word>, store: Budget.Store, table: Cache.StatsTable, ghost now: int)
      ensures env == Env(SettingsOf(o), config, status, tokens) && manager.store == store && cache.table == table
      ensures manager.maxCostPerSession == env.settings.sessionLimit
      ensures Ready(now)
      ensures var s := Started(o, store.sessions, table.rows); Holds(s) && Watches(s)
    {
      env := Env(SettingsOf(o), config, status, tokens);
      manager := new Budget.Manager(store, o.sessionLimit);
      control := new Dynamic(o.targetRate, o.windowSize, o.initialThreshold);
      cache := new Cache.PersistentCache(table, o.minSamples, o.confidence, o.ttlNanos);
      cycles := new Cycles.Registry(tokens, 1000, o.cycleThreshold, o.cycleWindow);
      limiter := new Rate.Limiter(0.95, now);
    }

    /** The registry was made from the settings. */
    ghost predicate CyclesFit() {
      && cycles.tokens == env.tokens && cycles.maxSize == env.settings.maxSessions
      && cycles.threshold == env.settings.cycleThreshold && cycles.maxHashes == env.settings.maxHashes
    }

    /** The components other than the detectors are in this state. */
    ghost predicate Holds(s: State)
      reads manager.store, control, cache, cache.inner, cache.table, limiter
    {
      && manager.store.sessions == s.sessions && Control(control.threshold, control.window) == s.control
      && cache.Now() == s.cache && limiter.log == s.usage
    }

    /** The components that learn are sound. */
    ghost predicate Ready(now: int)
      reads control, limiter, limiter.repr
    {
      && control.Valid() && control.Setting() == env.settings.tuning && cache.inner.policy == env.settings.policy
      && limiter.Valid() && limiter.safetyMargin == MARGIN && limiter.clock <= now
    }

    /** The detectors are sound and remember what the state says. */
    ghost predicate Watches(s: State)
      reads cycles, cycles.repr
    {
      cycles.Valid() && cycles.Sound() && CyclesFit() && cycles.history == s.fetched && cycles.Memories() == s.memories
    }

    /** Both depend on their own part of the state only. */
    lemma HoldsAlike(s: State, t: State)
      requires Holds(s) && t.sessions == s.sessions && t.control == s.control && t.cache == s.cache && t.usage == s.usage
      ensures Holds(t)
    {
    }

    lemma WatchesAlike(s: State, t: State)
      requires Watches(s) && t.fetched == s.fetched && t.memories == s.memories
      ensures Watches(t)
    {
    }

    /** The cache is asked unless it is switched off. */
    method Look(q: Query, x: Luck, ghost w: State) returns (a: Cache.Answer)
      requires Watches(w)
      modifies cache, cache.inner
      ensures Watches(w)
      ensures (cache.Now(), a) ==
        if env.settings.semanticCache
        then Cache.AskWorld(old(cache.Now()), q.key, x.askedAt, cache.inner.policy)
        else (old(cache.Now()), Cache.NO_ANSWER)
    {
      a := Cache.NO_ANSWER;
      if env.settings.semanticCache {
        a := cache.ConfidentRoute(q.key, x.askedAt);
      }
    }

    /** The session is created if need be. */
    method Enter(id: string, ghost w: State)
      requires manager.maxCostPerSession == env.settings.sessionLimit && Watches(w)
      modifies manager.store
      ensures Watches(w)
      ensures id in manager.store.sessions && manager.store.foreign >= old(manager.store.foreign)
      ensures manager.store.foreign == old(manager.store.foreign) ==>
        manager.store.sessions == Created(old(manager.store.sessions), id, env.settings.sessionLimit)
    {
      var row := manager.store.GetOrCreateSession(id, manager.maxCostPerSession);
    }

    /** With the kill switch on, the estimate is reserved or the request refused. */
    method Reserve(id: string, ghost w: State) returns (ok: bool)
      requires id in manager.store.sessions && Watches(w)
      modifies manager.store
      ensures Watches(w)
      ensures id in manager.store.sessions && manager.store.foreign >= old(manager.store.foreign)
      ensures manager.store.foreign == old(manager.store.foreign) ==>
        var row := old(manager.store.sessions)[id];
        && ok == (env.settings.killSwitch ==> Budget.HasRoom(row, BudgetProtocol.ESTIMATE))
        && manager.store.sessions ==
           if ok && env.settings.killSwitch
           then old(manager.store.sessions)[id := Budget.Charged(row, BudgetProtocol.ESTIMATE)]
           else old(manager.store.sessions)
    {
      ok := true;
      if env.settings.killSwitch {
        var reservation := manager.RequireBudget(id, BudgetProtocol.ESTIMATE);
        ok := reservation.Reserved?;
      }
    }

    /** The session's detector, a fresh one if it was not kept. */
    method FetchDetector(q: Query, ghost s: State) returns (d: Cycles.Detector)
      requires Watches(s)
      modifies cycles
      ensures Watches(Fetched(s, q, env)) && fresh(cycles.repr - old(cycles.repr))
      ensures q.session in cycles.detectors && d == cycles.detectors[q.session] && (d in old(cycles.repr) || fresh(d))
    {
      d := cycles.Get(q.session);
      cycles.GotSound(q.session, d);
      cycles.GotMemories(q.session, d);
    }

    /** The detector and what it says about the prompt. */
    method Detect(q: Query, ghost s: State) returns (d: Cycles.Detector, cycle: bool)
      requires Watches(s)
      modifies cycles
      ensures Watches(Fetched(s, q, env)) && fresh(cycles.repr - old(cycles.repr))
      ensures q.session in cycles.detectors && d == cycles.detectors[q.session] && (d in old(cycles.repr) || fresh(d))
      ensures cycle == CycleSeen(Fetched(s, q, env), q, env)
    {
      d := FetchDetector(q, s);
      cycle := false;
      if env.settings.cycleDetection {
        assert cycles.SoundAt(d);
        cycle := d.DetectPrompt(q.prompt);
      }
    }

    /** The decision at the present threshold and mode. */
    method Decide(v: Judged, cycle: bool) returns (route: Route)
      ensures route == DecideRoute(v.score, v.impact, control.threshold,
                                   env.settings.dynamicThreshold &&
                                   Strict(Control(control.threshold, control.window), control.Setting()), cycle)
    {
      var strict := false;
      if env.settings.dynamicThreshold {
        strict := control.IsStrictMode();
      }
      route := DecideRoute(v.score, v.impact, control.threshold, strict, cycle);
    }

    /** The limiter checked and the models called, once. */
    method CallRound(route: Route, estimate: int, reply: (nat, Failover.Attempt) -> Failover.Reply, at: nat -> int,
                     ghost start: int, ghost end: int, ghost s: State)
      returns (o: Failover.Outcome, received: string)
      requires Failover.Remembers(limiter, s.usage, start) && Failover.Ascends(at, start, end)
      requires limiter.safetyMargin == MARGIN
      modifies limiter, limiter.repr
      ensures Failover.Remembers(limiter, s.usage, end) && fresh(limiter.repr - old(limiter.repr))
      ensures o == Call(s, route, estimate, reply, at, env)
      ensures received == Failover.Text(Heard(s, route, estimate, reply, at, env))
    {
      var calls;
      o, calls, received := Failover.CallCandidates(
        TierOrder(route, env.config), env.config, env.status, limiter, at, estimate, reply, s.usage, start, end);
    }

    /** The detectors do not notice. */
    method CallOnce(route: Route, estimate: int, reply: (nat, Failover.Attempt) -> Failover.Reply, at: nat -> int,
                    ghost start: int, ghost end: int, ghost s: State)
      returns (o: Failover.Outcome, received: string)
      requires Failover.Remembers(limiter, s.usage, start) && Failover.Ascends(at, start, end)
      requires limiter.safetyMargin == MARGIN && Watches(s)
      modifies limiter, limiter.repr
      ensures Failover.Remembers(limiter, s.usage, end) && fresh(limiter.repr - old(limiter.repr))
      ensures o == Call(s, route, estimate, reply, at, env) && Watches(s)
      ensures received == Failover.Text(Heard(s, route, estimate, reply, at, env))
    {
      o, received := CallRound(route, estimate, reply, at, start, end, s);
    }

    /** What deciding and calling need: the limiter, the controller and the detectors as in `s`. */
    ghost predicate Set(s: State, now: int)
      reads control, cycles, cycles.repr, limiter, limiter.repr
    {
      && Failover.Remembers(limiter, s.usage, now) && limiter.safetyMargin == MARGIN
      && s.control == Control(control.threshold, control.window) && control.Setting() == env.settings.tuning
      && Watches(s)
    }

    /** One decision and the calls it leads to. */
    method Attempt(v: Judged, cycle: bool, estimate: int, reply: (nat, Failover.Attempt) -> Failover.Reply,
                   at: nat -> int, ghost start: int, ghost end: int, ghost s: State)
      returns (route: Route, o: Failover.Outcome, received: string)
      requires Set(s, start) && Failover.Ascends(at, start, end)
      modifies limiter, limiter.repr
      ensures Set(s, end) && fresh(limiter.repr - old(limiter.repr))
      ensures route == RouteFor(v, s, cycle, env) && o == Call(s, route, estimate, reply, at, env)
      ensures received == Failover.Text(Heard(s, route, estimate, reply, at, env))
    {
      route := Decide(v, cycle);
      o, received := CallOnce(route, estimate, reply, at, start, end, s);
    }

    /** Decide, call, and after a conditional timeout let the judge decide and call again. */
    method PlayTurn(q: Query, x: Luck, a: Cache.Answer, cycle: bool, ghost s: State) returns (turn: Turn)
      requires Set(s, x.askedAt) && Timed(x, x.askedAt)
      modifies limiter, limiter.repr
      ensures Set(s, x.notedAt) && fresh(limiter.repr - old(limiter.repr))
      ensures turn == TakeTurn(s, q, x, a, cycle, env)
    {
      var (v, judged) := FirstVerdict(a, q, x);
      var route, outcome, text := Attempt(v, cycle, q.estimate, x.reply, x.checkedAt, x.askedAt, x.retriedAt, s);
      turn := Turn(route, v, judged, outcome, text);
      if !outcome.Served? && x.timedOut && q.useJudge.None? && a.route.None? && route == Weak {
        var more;
        route, outcome, more := Attempt(x.judged, cycle, q.estimate, x.retry, x.recheckedAt, x.retriedAt, x.notedAt, s);
        turn := Turn(route, x.judged, true, outcome, text + more);
      }
    }

    /** A non-empty response is remembered with its prompt. */
    method Remember(q: Query, d: Cycles.Detector, content: string, ghost s: State)
      requires Watches(s) && q.session in cycles.detectors && d == cycles.detectors[q.session]
      modifies d
      ensures Watches(Remembered(s, q, content, env))
    {
      if content == "" {
        return;
      }
      assert cycles.SoundAt(d);
      d.Add(q.prompt, content);
      cycles.WroteSound(q.session);
      cycles.WroteOne(q.session);
    }

    /** A failure forgets the last response. */
    method Forget(q: Query, d: Cycles.Detector, ghost s: State)
      requires Watches(s) && q.session in cycles.detectors && d == cycles.detectors[q.session]
      modifies d
      ensures Watches(Forgotten(s, q))
    {
      assert cycles.SoundAt(d);
      d.ClearLastResponse();
      cycles.WroteSound(q.session);
      cycles.WroteOne(q.session);
    }

    /** What the detector remembers of the outcome. */
    method Recall(q: Query, d: Cycles.Detector, turn: Turn, ghost s: State)
      requires Watches(s) && q.session in cycles.detectors && d == cycles.detectors[q.session]
      modifies d
      ensures Watches(Recalled(s, q, turn, env))
    {
      if turn.outcome.Served? {
        Remember(q, d, turn.outcome.content, s);
      } else {
        Forget(q, d, s);
      }
    }

    /** Nothing else notices. */
    method RecallApart(q: Query, d: Cycles.Detector, turn: Turn, ghost now: int, ghost s: State, ghost h: State)
      requires Ready(now) && Holds(h) && Watches(s)
      requires q.session in cycles.detectors && d == cycles.detectors[q.session]
      modifies d
      ensures Ready(now) && Holds(h) && limiter.repr == old(limiter.repr)
      ensures Watches(Recalled(s, q, turn, env))
    {
      Recall(q, d, turn, s);
    }

    /** The cost is booked, unless the database fails or the top-up finds no room. */
    method Settle(q: Query, cost: real, x: Luck, ghost now: int, ghost s: State, ghost w: State) returns (ok: bool)
      requires Ready(now) && Holds(s) && Watches(w) && q.session in s.sessions
      modifies manager.store
      ensures Ready(now) && manager.store.foreign == old(manager.store.foreign) && Watches(w) && limiter.repr == old(limiter.repr)
      ensures Holds(Settled(s, q, cost, x, env).0) && ok == Settled(s, q, cost, x, env).1
    {
      if x.settleError {
        return false;
      }
      if env.settings.killSwitch {
        ok := manager.SettleCost(q.session, BudgetProtocol.ESTIMATE, cost);
      } else {
        manager.AddCost(q.session, cost);
        ok := true;
      }
    }

    /** The decision goes into the window, and the threshold follows. */
    method AdaptControl(route: Route)
      requires control.Valid()
      modifies control
      ensures control.Valid() && Control(control.threshold, control.window) ==
        var before := Control(old(control.threshold), old(control.window));
        if env.settings.dynamicThreshold then Recorded(before, route == Strong, control.Setting()) else before
    {
      if env.settings.dynamicThreshold {
        control.AddDecision(route == Strong);
        var after, changed := control.Adjust();
      }
    }

    /** The same, seen from the whole router. */
    method Adapt(route: Route, ghost now: int, ghost s: State, ghost w: State)
      requires Ready(now) && Holds(s) && Watches(w)
      modifies control
      ensures Ready(now) && Holds(Controlled(s, route, env)) && Watches(w) && limiter.repr == old(limiter.repr)
    {
      AdaptControl(route);
    }

    /** The cache learns about the answer, unless a cycle forced it. */
    method TellCache(q: Query, x: Luck, turn: Turn, cycle: bool, ghost s: State, ghost w: State)
      requires turn.outcome.Served? && Ready(x.recordedAt) && Holds(s) && Watches(w)
      modifies cache, cache.inner, cache.table
      ensures Ready(x.recordedAt) && Holds(Noted(s, q, x, turn, cycle, env)) && Watches(w)
      ensures limiter.repr == old(limiter.repr)
    {
      var o := turn.outcome;
      if env.settings.semanticCache && !cycle {
        var call := Cache.Call(turn.route, o.id, x.latency, turn.judged, BudgetProtocol.FinalCost(o.cost), o.tokens);
        cache.Record(q.logKey, call, x.notedAt, x.storedAt);
      }
    }

    /** The record itself, which leaves the detectors alone. */
    method CountUse(x: Luck, o: Failover.Outcome, ghost w: State)
      requires o.Served? && Watches(w) && limiter.Valid() && limiter.clock <= x.recordedAt
      modifies limiter, limiter.repr
      ensures limiter.Valid() && limiter.clock == x.recordedAt && fresh(limiter.repr - old(limiter.repr))
      ensures limiter.log == Rate.Grown(old(limiter.log), o.id, Rate.Event(x.recordedAt, o.tokens))
      ensures Watches(w)
    {
      limiter.Record(o.id, x.recordedAt, o.tokens);
    }

    /** The limiter counts the answer. */
    method TellLimiter(x: Luck, turn: Turn, ghost s: State, ghost w: State)
      requires turn.outcome.Served? && Ready(x.recordedAt) && Holds(s) && Watches(w)
      modifies limiter, limiter.repr
      ensures Ready(x.recordedAt) && Holds(Counted(s, x, turn)) && fresh(limiter.repr - old(limiter.repr))
      ensures Watches(w)
    {
      CountUse(x, turn.outcome, w);
    }

    /** The session's cost after the settlement. */
    method ReadBack(q: Query, ghost now: int, ghost s: State, ghost w: State) returns (cost: real)
      requires Ready(now) && Holds(s) && Watches(w) && q.session in s.sessions
      modifies manager.store`past
      ensures Ready(now) && Holds(s) && Watches(w) && cost == s.sessions[q.session].cost
    {
      var row := manager.store.GetSession(q.session);
      cost := row.value.cost;
    }

    /** Cache and limiter hear of the answer. */
    method Learn(q: Query, x: Luck, cycle: bool, turn: Turn, ghost s: State, ghost w: State)
      requires Ready(x.recordedAt) && Holds(s) && Watches(w) && turn.outcome.Served?
      modifies cache, cache.inner, cache.table, limiter, limiter.repr
      ensures Ready(x.recordedAt) && fresh(limiter.repr - old(limiter.repr)) && Watches(w)
      ensures Holds(Counted(Noted(s, q, x, turn, cycle, env), x, turn))
    {
      TellCache(q, x, turn, cycle, s, w);
      TellLimiter(x, turn, Noted(s, q, x, turn, cycle, env), w);
    }

    /** After the settlement: read the session back, adapt, log, learn. */
    method Finish(q: Query, x: Luck, cycle: bool, turn: Turn, ghost s: State, ghost w: State) returns (r: Result)
      requires Ready(x.recordedAt) && Holds(s) && Watches(w) && q.session in s.sessions && turn.outcome.Served?
      modifies manager.store`past, control, cache, cache.inner, cache.table, limiter, limiter.repr
      ensures Ready(x.recordedAt) && fresh(limiter.repr - old(limiter.repr)) && Watches(w)
      ensures Holds(Finished(s, q, x, cycle, turn, env).0) && r == Finished(s, q, x, cycle, turn, env).1
    {
      var cost := ReadBack(q, x.recordedAt, s, w);
      r := NotRead(turn.route);
      if !x.readError {
        Adapt(turn.route, x.recordedAt, s, w);
        r := NotLogged(turn.route);
        if !x.logError {
          Learn(q, x, cycle, turn, Controlled(s, turn.route, env), w);
          var o := turn.outcome;
          r := Answered(turn.route, o.id, o.content, BudgetProtocol.FinalCost(o.cost), cost);
        }
      }
    }

    /** Settle, and finish when that worked. */
    method Book(q: Query, x: Luck, cycle: bool, turn: Turn, ghost s: State, ghost w: State) returns (r: Result)
      requires Ready(x.recordedAt) && Holds(s) && Watches(w) && q.session in s.sessions && turn.outcome.Served?
      modifies manager.store, control, cache, cache.inner, cache.table, limiter, limiter.repr
      ensures Ready(x.recordedAt) && Watches(w)
      ensures manager.store.foreign == old(manager.store.foreign)
      ensures Holds(Booked(s, q, x, cycle, turn, env).0) && r == Booked(s, q, x, cycle, turn, env).1
    {
      var cost := BudgetProtocol.FinalCost(turn.outcome.cost);
      ghost var settled, booked := Settled(s, q, cost, x, env), Booked(s, q, x, cycle, turn, env);
      assert booked == if settled.1 then Finished(settled.0, q, x, cycle, turn, env) else (settled.0, NotSettled(turn.route));
      var ok := Settle(q, cost, x, x.recordedAt, s, w);
      r := NotSettled(turn.route);
      if ok {
        r := Finish(q, x, cycle, turn, settled.0, w);
      }
    }

    /** Only an answered request is booked. */
    method BookServed(q: Query, x: Luck, cycle: bool, turn: Turn, ghost s: State, ghost w: State) returns (r: Result)
      requires Ready(x.recordedAt) && Holds(s) && Watches(w) && q.session in s.sessions
      modifies manager.store, control, cache, cache.inner, cache.table, limiter, limiter.repr
      ensures Ready(x.recordedAt) && Watches(w)
      ensures manager.store.foreign == old(manager.store.foreign)
      ensures Holds(BookedIf(s, q, x, cycle, turn, env).0) && r == BookedIf(s, q, x, cycle, turn, env).1
    {
      r := CallError(turn.route, turn.outcome);
      if turn.outcome.Served? {
        r := Book(q, x, cycle, turn, s, w);
      }
    }

    /** What happens once the calls are over. */
    method Conclude(q: Query, x: Luck, cycle: bool, turn: Turn, d: Cycles.Detector, ghost s: State) returns (r: Result)
      requires Ready(x.recordedAt) && Holds(s) && Watches(s) && q.session in s.sessions
      requires q.session in cycles.detectors && d == cycles.detectors[q.session]
      modifies manager.store, control, cache, cache.inner, cache.table, d, limiter, limiter.repr
      ensures Ready(x.recordedAt)
      ensures manager.store.foreign == old(manager.store.foreign)
      ensures Holds(Concluded(s, q, x, cycle, turn, env).0) && Watches(Recalled(s, q, turn, env))
      ensures r == Concluded(s, q, x, cycle, turn, env).1
    {
      ghost var w := Recalled(s, q, turn, env);
      RecalledElsewhere(s, q, turn, env);
      HoldsAlike(s, w);
      RecallApart(q, d, turn, x.recordedAt, s, w);
      r := BookServed(q, x, cycle, turn, w, w);
    }

    // ---- The whole request ------------------------------------------------

    /** Session, cache and reservation. The outcome `t` is the state the components are in
        afterwards, whatever other requests did to the session table meanwhile. */
    method Open(q: Query, x: Luck, ghost now: int, ghost s: State, ghost w: State)
      returns (a: Cache.Answer, ok: bool, ghost t: State)
      requires Ready(now) && Holds(s) && Watches(w) && manager.maxCostPerSession == env.settings.sessionLimit
      modifies manager.store, cache, cache.inner
      ensures Ready(now) && Holds(t) && Watches(w) && limiter.repr == old(limiter.repr) && cycles.repr == old(cycles.repr)
      ensures q.session in t.sessions && t == Looked(s, q, x, env).0.(sessions := t.sessions)
      ensures a == Looked(s, q, x, env).1 && manager.store.foreign >= old(manager.store.foreign)
      ensures manager.store.foreign == old(manager.store.foreign) ==>
        var asked := Looked(Opened(s, q, env), q, x, env).0;
        ok == Affordable(asked, q, env) && t == if ok then Reserved(asked, q, env) else asked
    {
      Enter(q.session, w);
      a := Look(q, x, w);
      ok := Reserve(q.session, w);
      t := Looked(s, q, x, env).0.(sessions := manager.store.sessions);
    }

    /** Fetching the detector leaves the other components alone. */
    method Detected(q: Query, ghost now: int, ghost s: State, ghost u: State) returns (d: Cycles.Detector, cycle: bool)
      requires Ready(now) && Holds(u) && Watches(s)
      modifies cycles
      ensures Ready(now) && Holds(u) && Watches(Fetched(s, q, env)) && limiter.repr == old(limiter.repr)
      ensures q.session in cycles.detectors && d == cycles.detectors[q.session] && (d in old(cycles.repr) || fresh(d))
      ensures cycle == CycleSeen(Fetched(s, q, env), q, env)
    {
      d, cycle := Detect(q, s);
    }

    /** The turn, seen from the whole router. */
    method Played(q: Query, x: Luck, a: Cache.Answer, cycle: bool, ghost s: State) returns (turn: Turn)
      requires Ready(x.askedAt) && Holds(s) && Watches(s) && Timed(x, x.askedAt)
      modifies limiter, limiter.repr
      ensures Ready(x.recordedAt) && Holds(s) && Watches(s) && fresh(limiter.repr - old(limiter.repr))
      ensures turn == TakeTurn(s, q, x, a, cycle, env)
    {
      turn := PlayTurn(q, x, a, cycle, s);
    }

    /** The conclusion, with the state it leads to. */
    method Finale(q: Query, x: Luck, cycle: bool, turn: Turn, d: Cycles.Detector, ghost s: State)
      returns (r: Result, ghost t: State)
      requires Ready(x.recordedAt) && Holds(s) && Watches(s) && q.session in s.sessions
      requires q.session in cycles.detectors && d == cycles.detectors[q.session]
      modifies manager.store, control, cache, cache.inner, cache.table, d, limiter, limiter.repr
      ensures Ready(x.recordedAt) && Holds(t) && Watches(t) && manager.store.foreign == old(manager.store.foreign)
      ensures (t, r) == Concluded(s, q, x, cycle, turn, env)
    {
      r := Conclude(q, x, cycle, turn, d, s);
      t := Concluded(s, q, x, cycle, turn, env).0;
      ConclusionMemories(s, q, x, cycle, turn, env);
      WatchesAlike(Recalled(s, q, turn, env), t);
    }

    /** The calls and what follows from them. */
    method PlayOut(q: Query, x: Luck, a: Cache.Answer, cycle: bool, d: Cycles.Detector, ghost s: State)
      returns (r: Result, ghost t: State)
      requires Ready(x.askedAt) && Holds(s) && Watches(s) && q.session in s.sessions && Timed(x, x.askedAt)
      requires q.session in cycles.detectors && d == cycles.detectors[q.session]
      modifies manager.store, control, cache, cache.inner, cache.table, d, limiter, limiter.repr
      ensures Ready(x.recordedAt) && Holds(t) && Watches(t) && manager.store.foreign == old(manager.store.foreign)
      ensures (t, r) == Concluded(s, q, x, cycle, TakeTurn(s, q, x, a, cycle, env), env)
    {
      var turn := Played(q, x, a, cycle, s);
      r, t := Finale(q, x, cycle, turn, d, s);
    }

    /** Everything after the reservation. */
    method Continue(q: Query, x: Luck, a: Cache.Answer, ghost s: State) returns (r: Result, ghost t: State)
      requires Ready(x.askedAt) && Holds(s) && Watches(s) && q.session in s.sessions && Timed(x, x.askedAt)
      modifies manager.store, control, cache, cache.inner, cache.table, cycles, cycles.repr, limiter, limiter.repr
      ensures Ready(x.recordedAt) && Holds(t) && Watches(t) && manager.store.foreign == old(manager.store.foreign)
      ensures (t, r) == Served(s, q, x, a, env)
    {
      ghost var u := Fetched(s, q, env);
      HoldsAlike(s, u);
      var d, cycle := Detected(q, x.askedAt, s, u);
      r, t := PlayOut(q, x, a, cycle, d, u);
    }

    /**
     One request. The components end up in some state `t`; if no other request touched the
     session table meanwhile, the result and `t` are exactly those of Routing.RouteRequest.
     */
    method Route(q: Query, x: Luck, ghost after: int, ghost s: State) returns (r: Result, ghost t: State)
      requires Ready(after) && Holds(s) && Watches(s) && manager.maxCostPerSession == env.settings.sessionLimit
      requires Timed(x, after)
      modifies manager.store, cache, cache.inner, cache.table, control, cycles, cycles.repr, limiter, limiter.repr
      ensures Ready(x.recordedAt) && Holds(t) && Watches(t)
      ensures manager.store.foreign == old(manager.store.foreign) ==> (t, r) == RouteRequest(s, q, x, env)
    {
      var a, ok;
      a, ok, t := Open(q, x, x.askedAt, s, s);
      r := OverBudget;
      WatchesAlike(s, t);
      if ok {
        r, t := Continue(q, x, a, t);
      }
      RequestParts(s, q, x, env);
    }
  }
}
