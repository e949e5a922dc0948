/**
 What a request leaves behind in the components that learn (internal/router/router.go, from the
 answer on): one record of the limiter, one decision of the controller, one call of the cache entry
 and one pair of the session's detector.
 */
module RequestTaught {
  import opened Common
  import opened Threshold
  import opened Escalation
  import opened Routing
  import Budget = SessionStore
  import BudgetProtocol
  import Cache = SemanticCache
  import Cycles = CycleDetector
  import Failover
  import Rate = RateLimiter
  import RouterLockIn
  import SimHash

  // ---- The limiter --------------------------------------------------------

  /** One more record for the model that answered. */
  ghost predicate CountsAnswer(s: State, t: State, r: Result, x: Luck, o: Failover.Outcome) {
    if r.Answered? then
      o.Served? && r.id == o.id
      && t.usage == s.usage[r.id := Rate.Recorded(s.usage, r.id) + [Rate.Event(x.recordedAt, o.tokens)]]
    else t.usage == s.usage
  }

  lemma FinishedCounts(s: State, q: Query, x: Luck, cycle: bool, turn: Turn, e: Env)
    requires q.session in s.sessions && turn.outcome.Served?
    ensures var (t, r) := Finished(s, q, x, cycle, turn, e); CountsAnswer(s, t, r, x, turn.outcome)
  {
  }

  lemma ConclusionCounts(s: State, q: Query, x: Luck, cycle: bool, turn: Turn, e: Env)
    requires q.session in s.sessions
    ensures var (t, r) := Concluded(s, q, x, cycle, turn, e); CountsAnswer(s, t, r, x, turn.outcome)
  {
    var recalled := Recalled(s, q, turn, e);
    RecalledElsewhere(s, q, turn, e);
    if turn.outcome.Served? {
      var settled := Settled(recalled, q, BudgetProtocol.FinalCost(turn.outcome.cost), x, e).0;
      FinishedCounts(settled, q, x, cycle, turn, e);
    }
  }

  lemma RequestCounts(s: State, q: Query, x: Luck, e: Env)
    ensures var (t, r) := RouteRequest(s, q, x, e); CountsAnswer(s, t, r, x, TurnOf(s, q, x, e).outcome)
  {
    var (ready, a, admitted) := Admitted(s, q, x, e);
    AdmissionTeachesNothing(s, q, x, e);
    if admitted {
      ConclusionCounts(ready, q, x, CycleSeen(ready, q, e), TurnOf(s, q, x, e), e);
    }
  }

  /** An answer is recorded for the model that gave it, with the tokens its reply reported; nothing
      else is recorded, and for no other model. */
  lemma LimiterLearns(s: State, q: Query, x: Luck, e: Env)
    ensures var (t, r) := RouteRequest(s, q, x, e);
      var heard := Replies(s, q, x, e);
      if r.Answered? then
        && LastAnswers(heard)
        && t.usage == s.usage[r.id := (if r.id in s.usage then s.usage[r.id] else [])
                                      + [Rate.Event(x.recordedAt, heard[|heard| - 1].tokens)]]
      else t.usage == s.usage
  {
    RequestCounts(s, q, x, e);
    LastReplyCounts(s, q, x, e);
  }

  // ---- The controller -----------------------------------------------------

  /** The window after one more decision: a full one loses its oldest. */
  function Moved(window: seq<bool>, strong: bool, size: nat): seq<bool> {
    (if window != [] && |window| == size then window[1..] else window) + [strong]
  }

  /** The threshold that this window makes of it. */
  function Moves(threshold: real, window: seq<bool>, t: Tuning): real {
    var strong, size := StrongCount(window) as real, |window| as real;
    if |window| < t.windowSize then threshold
    else if strong > t.targetRate * size then (if threshold > 0.98 then 0.99 else threshold + 0.01)
    else if strong < (t.targetRate - 0.02) * size then (if threshold < 0.02 then 0.0 else threshold - 0.02)
    else threshold
  }

  lemma AdjustedMoves(c: Control, t: Tuning)
    requires Sane(t)
    ensures Adjusted(c, t) == Moves(c.threshold, c.window, t)
  {
    AdjustedInCounts(c, t);
  }

  lemma RecordedMoves(c: Control, strong: bool, t: Tuning)
    requires Sane(t)
    ensures Recorded(c, strong, t) == Control(Moves(c.threshold, Moved(c.window, strong, t.windowSize), t),
                                              Moved(c.window, strong, t.windowSize))
  {
    AdjustedMoves(c.(window := Push(c.window, strong, t)), t);
  }

  lemma ConclusionMoves(s: State, q: Query, x: Luck, cycle: bool, turn: Turn, e: Env)
    requires q.session in s.sessions
    ensures var (t, r) := Concluded(s, q, x, cycle, turn, e);
      t.control == if e.settings.dynamicThreshold && (r.Answered? || r.NotLogged?)
                   then Recorded(s.control, turn.route == Strong, e.settings.tuning) else s.control
  {
  }

  /** With dynamic thresholds a settled request adds the route it took to the window, and the
      threshold follows; without, and for any other request, nothing changes. */
  lemma ControllerLearns(s: State, q: Query, x: Luck, e: Env)
    requires Sane(e.settings.tuning)
    ensures var (t, r) := RouteRequest(s, q, x, e);
      var tuning := e.settings.tuning;
      if e.settings.dynamicThreshold && (r.Answered? || r.NotLogged?) then
        && t.control.window == Moved(s.control.window, r.route == Strong, tuning.windowSize)
        && t.control.threshold == Moves(s.control.threshold, t.control.window, tuning)
      else t.control == s.control
  {
    var (ready, a, admitted) := Admitted(s, q, x, e);
    AdmissionTeachesNothing(s, q, x, e);
    if admitted {
      var turn := TurnOf(s, q, x, e);
      ConclusionMoves(ready, q, x, CycleSeen(ready, q, e), turn, e);
      RouterLockIn.ResultFollowsTurn(s, q, x, e);
      RecordedMoves(s.control, turn.route == Strong, e.settings.tuning);
    }
  }

  // ---- The cache ----------------------------------------------------------

  /** What the first use loads: the rows of the table on top of what is in memory. */
  lemma LoadIs(w: Cache.World, key: string)
    ensures var v := Cache.EnsureLoaded(w);
      && v.loaded && v.rows == w.rows && (w.loaded ==> v == w)
      && (key in v.mem <==> key in w.mem || (!w.loaded && key in w.rows))
      && (!w.loaded && key in w.rows ==>
            var r := w.rows[key];
            v.mem[key] == Cache.Stats(r.hash, r.total, r.weak, r.strong, r.judged, r.latency, r.cost, r.tokens,
                                      if r.lastModel.Some? then r.lastModel.value else "", r.lastCalled, r.firstSeen))
      && (key in w.mem && (w.loaded || key !in w.rows) ==> v.mem[key] == w.mem[key])
  {
  }

  /** One more call on the entry: its counters, totals, last model and last time. */
  ghost predicate GrewBy(after: Cache.Stats, before: Cache.Stats, call: Cache.Call, now: int) {
    && after.hash == before.hash && after.firstSeen == before.firstSeen
    && after.total == before.total + 1
    && after.strong == before.strong + (if call.route == Strong then 1 else 0)
    && after.weak == before.weak + (if call.route == Weak then 1 else 0)
    && after.judged == before.judged + (if call.judged then 1 else 0)
    && after.latency == before.latency + call.latency && after.cost == before.cost + call.cost
    && after.tokens == before.tokens + call.tokens && after.lastModel == call.model && after.lastCalled == now
  }

  /** The row says what the entry says, but for the time it was first seen when it was there before. */
  ghost predicate Stored(row: Cache.Row, n: Cache.Stats, before: Cache.Rows) {
    && row.hash == n.hash && row.total == n.total && row.weak == n.weak && row.strong == n.strong
    && row.judged == n.judged && row.latency == n.latency && row.cost == n.cost && row.tokens == n.tokens
    && row.lastModel == (if n.lastModel == "" then None else Some(n.lastModel)) && row.lastCalled == n.lastCalled
    && row.firstSeen == if n.hash in before then before[n.hash].firstSeen else n.firstSeen
  }

  /** What a recording does to memory and table: one more call on this entry, new or not, written
      through at once; an entry that is too old by then is dropped and not written. */
  ghost predicate Notes(v: Cache.World, t: Cache.World, key: string, call: Cache.Call, now: int, later: int, ttl: int) {
    if later - now > ttl then t.mem == v.mem - {key} && t.rows == v.rows
    else
      && key in t.mem && t.mem == v.mem[key := t.mem[key]]
      && GrewBy(t.mem[key], if key in v.mem then v.mem[key] else Cache.Stats(key, 0, 0, 0, 0, 0.0, 0.0, 0, "", 0, now),
                call, now)
      && t.mem[key].hash in t.rows && t.rows == v.rows[t.mem[key].hash := t.rows[t.mem[key].hash]]
      && Stored(t.rows[t.mem[key].hash], t.mem[key], v.rows)
  }

  lemma NoteIs(w: Cache.World, key: string, call: Cache.Call, now: int, later: int, p: Cache.Policy)
    ensures var v, t := Cache.EnsureLoaded(w), Cache.NoteWorld(w, key, call, now, later, p);
      t.loaded && Notes(v, t, key, call, now, later, p.ttl)
  {
  }

  /** What a question does: nothing but loading and dropping the entry if it is too old. */
  ghost predicate Asks(v: Cache.World, t: Cache.World, key: string, now: int, ttl: int) {
    && t.loaded && t.rows == v.rows
    && t.mem == if key in v.mem && now - v.mem[key].lastCalled > ttl then v.mem - {key} else v.mem
  }

  lemma AskIs(s: State, q: Query, x: Luck, e: Env)
    requires e.settings.semanticCache
    ensures Asks(Cache.EnsureLoaded(s.cache), Looked(s, q, x, e).0.cache, q.key, x.askedAt, e.settings.policy.ttl)
  {
  }

  /** Only an answer that no cycle forced is told, under the key for logs: with the route it took, the
      model, whether a judge was asked, the cost that was booked and the tokens. */
  ghost predicate Told(asked: Cache.World, after: Cache.World, r: Result, turn: Turn, cycle: bool, q: Query, x: Luck, ttl: int) {
    if r.Answered? && !cycle then
      turn.outcome.Served? &&
      Notes(asked, after, q.logKey, Cache.Call(r.route, r.id, x.latency, turn.judged, r.cost, turn.outcome.tokens),
            x.notedAt, x.storedAt, ttl)
    else after == asked
  }

  lemma ConclusionTold(s: State, q: Query, x: Luck, cycle: bool, turn: Turn, e: Env)
    requires q.session in s.sessions
    ensures var r := Concluded(s, q, x, cycle, turn, e).1;
      r.Answered? ==> turn.outcome.Served? && r.route == turn.route && r.id == turn.outcome.id
                      && r.cost == BudgetProtocol.FinalCost(turn.outcome.cost)
  {
  }

  lemma ConclusionTells(s: State, q: Query, x: Luck, cycle: bool, turn: Turn, e: Env)
    requires q.session in s.sessions && e.settings.semanticCache && s.cache.loaded
    ensures var (t, r) := Concluded(s, q, x, cycle, turn, e);
      Told(s.cache, t.cache, r, turn, cycle, q, x, e.settings.policy.ttl)
  {
    ConclusionCache(s, q, x, cycle, turn, e);
    ConclusionTold(s, q, x, cycle, turn, e);
    if turn.outcome.Served? {
      var o := turn.outcome;
      NoteIs(s.cache, q.logKey,
             Cache.Call(turn.route, o.id, x.latency, turn.judged, BudgetProtocol.FinalCost(o.cost), o.tokens),
             x.notedAt, x.storedAt, e.settings.policy);
    }
  }

  /** What the whole request does to the cache: it asks, and tells it of an answer. */
  lemma CacheLearns(s: State, q: Query, x: Luck, e: Env) returns (asked: Cache.World)
    requires e.settings.semanticCache
    ensures Asks(Cache.EnsureLoaded(s.cache), asked, q.key, x.askedAt, e.settings.policy.ttl)
    ensures var (t, r) := RouteRequest(s, q, x, e);
      Told(asked, t.cache, r, TurnOf(s, q, x, e), CycleSeen(Admitted(s, q, x, e).0, q, e), q, x, e.settings.policy.ttl)
  {
    var (ready, a, admitted) := Admitted(s, q, x, e);
    asked := ready.cache;
    AdmissionTeachesNothing(s, q, x, e);
    AskIs(s, q, x, e);
    if admitted {
      ConclusionTells(ready, q, x, CycleSeen(ready, q, e), TurnOf(s, q, x, e), e);
    }
  }

  /** Switched off, it is left alone. */
  lemma CacheOff(s: State, q: Query, x: Luck, e: Env)
    requires !e.settings.semanticCache
    ensures RouteRequest(s, q, x, e).0.cache == s.cache
  {
    RequestCacheValue(s, q, x, e);
  }

  // ---- The detector -------------------------------------------------------

  /** What a session's detector remembers after its request: a failure forgets the last response, an
      empty answer nothing, and any other answer is remembered with its prompt. */
  function Remembering(m: Cycles.Memory, o: Failover.Outcome, prompt: string, e: Env): Cycles.Memory {
    if !o.Served? then Cycles.Memory(m.recent, "")
    else if o.content == "" then m
    else
      var hash := SimHash.Vote(e.tokens(prompt + "\n" + o.content));
      Cycles.Memory(LastN(m.recent + [hash], e.settings.maxHashes), o.content)
  }

  lemma RecalledIs(s: State, q: Query, turn: Turn, e: Env)
    requires q.session in s.memories
    ensures Recalled(s, q, turn, e).memories
         == s.memories[q.session := Remembering(s.memories[q.session], turn.outcome, q.prompt, e)]
  {
  }

  lemma AdmissionRemembers(s: State, q: Query, x: Luck, e: Env)
    ensures var (t, _, admitted) := Admitted(s, q, x, e);
      if admitted then t.fetched == s.fetched + [q.session]
                       && t.memories == Cycles.Kept(s.memories, t.fetched, e.settings.maxSessions)
      else t.fetched == s.fetched && t.memories == s.memories
  {
  }

  lemma OwnKept(s: State, q: Query, e: Env)
    requires e.settings.maxSessions >= 1
    ensures var kept := Cycles.Kept(s.memories, s.fetched + [q.session], e.settings.maxSessions);
      && q.session in kept
      && kept[q.session] == if q.session in s.memories then s.memories[q.session] else Cycles.Memory([], "")
  {
    LatestIsLive(s.fetched, q.session, e);
  }

  lemma OthersKept(memories: map<string, Cycles.Memory>, history: seq<string>, size: nat, id: string)
    ensures var kept := Cycles.Kept(memories, history, size);
      && (id in kept <==> id in history && |Cycles.UsedAfter(history, Cycles.LastUse(history, id))| < size)
      && (id in kept ==> kept[id] == if id in memories then memories[id] else Cycles.Memory([], ""))
  {
    Cycles.SurvivesIff(history, id, size);
  }

  /** The detectors after a request that was let in: its own session is the last one used and has
      learnt; every other session keeps its detector exactly if fewer than maxSessions distinct
      sessions have been used since. */
  lemma DetectorLearns(s: State, q: Query, x: Luck, e: Env, id: string)
    requires e.settings.maxSessions >= 1 && Admitted(s, q, x, e).2
    ensures var t, history := RouteRequest(s, q, x, e).0, s.fetched + [q.session];
      var before := if id in s.memories then s.memories[id] else Cycles.Memory([], "");
      && t.fetched == history
      && (id in t.memories <==>
            id == q.session
            || (id in history && |Cycles.UsedAfter(history, Cycles.LastUse(history, id))| < e.settings.maxSessions))
      && (id in t.memories ==>
            t.memories[id] == if id == q.session then Remembering(before, TurnOf(s, q, x, e).outcome, q.prompt, e) else before)
  {
    var (ready, a, _) := Admitted(s, q, x, e);
    var turn := TurnOf(s, q, x, e);
    AdmissionRemembers(s, q, x, e);
    OwnKept(s, q, e);
    OthersKept(s.memories, s.fetched + [q.session], e.settings.maxSessions, id);
    ConclusionMemories(ready, q, x, CycleSeen(ready, q, e), turn, e);
    RecalledIs(ready, q, turn, e);
  }

  /** A refused request touches no detector. */
  lemma RefusedTouchesNone(s: State, q: Query, x: Luck, e: Env)
    requires RouteRequest(s, q, x, e).1.OverBudget?
    ensures var t := RouteRequest(s, q, x, e).0; t.fetched == s.fetched && t.memories == s.memories
  {
    AdmissionRemembers(s, q, x, e);
  }
}
