/**
 The semantic route cache (internal/semantic/cache.go), its table
 (internal/storage/semantic_cache.go) and the write-through wrapper
 (internal/semantic/persistent_cache.go). A prompt and its context appear only as the hash
 the code derives from them; every call takes the clock readings it makes.
 */
module SemanticCache {
  import opened Common
  import opened Escalation

  datatype Stats = Stats(
    hash: string, total: nat, weak: nat, strong: nat, judged: nat,
    latency: real, cost: real, tokens: int, lastModel: string, lastCalled: int, firstSeen: int)

  /** A stored row; an empty model name is stored as NULL. */
  datatype Row = Row(
    hash: string, total: nat, weak: nat, strong: nat, judged: nat,
    latency: real, cost: real, tokens: int, lastModel: Option<string>, lastCalled: int, firstSeen: int)

  datatype Policy = Policy(minSamples: int, confidence: real, ttl: int)

  /** What a finished request reports to the cache. */
  datatype Call = Call(route: Route, model: string, latency: real, judged: bool, cost: real, tokens: int)

  /** `route` is None when the cache does not answer. */
  datatype Answer = Answer(route: Option<Route>, confidence: real)

  const NO_ANSWER: Answer := Answer(None, 0.0)

  type Memory = map<string, Stats>
  type Rows = map<string, Row>

  function Confidence(weak: nat, strong: nat): real {
    if weak + strong == 0 then 0.0
    else (if strong > weak then strong else weak) as real / (weak + strong) as real
  }

  function AnswerOf(s: Stats, p: Policy): Answer {
    var conf := Confidence(s.weak, s.strong);
    Answer(
      if s.total < p.minSamples || conf < p.confidence then None
      else if s.weak > s.strong then Some(Weak)
      else if s.strong > s.weak then Some(Strong)
      else None,
      conf)
  }

  predicate Expired(lastCalled: int, now: int, p: Policy) {
    now - lastCalled > p.ttl
  }

  /** A lookup deletes the entry it finds expired. */
  function Swept(mem: Memory, key: string, now: int, p: Policy): Memory {
    if key in mem && Expired(mem[key].lastCalled, now, p) then mem - {key} else mem
  }

  function NewStats(key: string, now: int): Stats {
    Stats(key, 0, 0, 0, 0, 0.0, 0.0, 0, "", 0, now)
  }

  /** One more call on an entry. Recording does not look at the entry's age. */
  function Bump(s: Stats, call: Call, now: int): Stats {
    s.(total := s.total + 1,
       weak := s.weak + (if call.route == Strong then 0 else 1),
       strong := s.strong + (if call.route == Strong then 1 else 0),
       judged := s.judged + (if call.judged then 1 else 0),
       latency := s.latency + call.latency,
       cost := s.cost + call.cost,
       tokens := s.tokens + call.tokens,
       lastModel := call.model,
       lastCalled := now)
  }

  function Noted(mem: Memory, key: string, call: Call, now: int): Memory {
    mem[key := Bump(if key in mem then mem[key] else NewStats(key, now), call, now)]
  }

  function FromRow(r: Row): Stats {
    Stats(r.hash, r.total, r.weak, r.strong, r.judged, r.latency, r.cost, r.tokens,
          if r.lastModel.Some? then r.lastModel.value else "", r.lastCalled, r.firstSeen)
  }

  function ToRow(s: Stats): Row {
    Row(s.hash, s.total, s.weak, s.strong, s.judged, s.latency, s.cost, s.tokens,
        if s.lastModel == "" then None else Some(s.lastModel), s.lastCalled, s.firstSeen)
  }

  lemma RowRoundTrip(s: Stats)
    ensures FromRow(ToRow(s)) == s
  {
  }

  /** The upsert overwrites everything but first_seen_at. */
  function Upserted(rows: Rows, r: Row): Rows {
    rows[r.hash := if r.hash in rows then r.(firstSeen := rows[r.hash].firstSeen) else r]
  }

  function LoadedMemory(mem: Memory, rows: Rows): Memory {
    mem + map k | k in rows :: FromRow(rows[k])
  }

  class Cache {
    const policy: Policy
    var stats: Memory

    constructor (minSamples: int, confidence: real, ttlNanos: int)
      ensures stats == map[]
      ensures policy == Policy(if minSamples <= 0 then 3 else minSamples,
                               if confidence <= 0.0 then 0.75 else confidence,
                               if ttlNanos <= 0 then 604_800_000_000_000 else ttlNanos)
    {
      policy := Policy(if minSamples <= 0 then 3 else minSamples,
                       if confidence <= 0.0 then 0.75 else confidence,
                       if ttlNanos <= 0 then 604_800_000_000_000 else ttlNanos);
      stats := map[];
    }

    /** Finds the entry unless it has expired, in which case it is gone. */
    method Lookup(key: string, now: int) returns (found: Option<Stats>)
      modifies this
      ensures stats == Swept(old(stats), key, now, policy)
      ensures found == if key in stats then Some(stats[key]) else None
      ensures found.Some? ==> !Expired(found.value.lastCalled, now, policy)
    {
      if key !in stats {
        return None;
      }
      if now - stats[key].lastCalled > policy.ttl {
        stats := stats - {key};
        return None;
      }
      found := Some(stats[key]);
    }

    method ConfidentRoute(key: string, now: int) returns (a: Answer)
      modifies this
      ensures stats == Swept(old(stats), key, now, policy)
      ensures a == if key in stats then AnswerOf(stats[key], policy) else NO_ANSWER
    {
      var found := Lookup(key, now);
      if found.None? {
        return NO_ANSWER;
      }
      var s := found.value;
      var conf := Confidence(s.weak, s.strong);
      if s.total < policy.minSamples || conf < policy.confidence {
        return Answer(None, conf);
      }
      if s.weak > s.strong {
        return Answer(Some(Weak), conf);
      }
      if s.strong > s.weak {
        return Answer(Some(Strong), conf);
      }
      a := Answer(None, conf);
    }

    method Record(key: string, call: Call, now: int)
      modifies this
      ensures stats == Noted(old(stats), key, call, now)
    {
      var s := if key in stats then stats[key] else NewStats(key, now);
      s := s.(total := s.total + 1);
      match call.route {
        case Strong => s := s.(strong := s.strong + 1);
        case Weak => s := s.(weak := s.weak + 1);
      }
      if call.judged {
        s := s.(judged := s.judged + 1);
      }
      s := s.(latency := s.latency + call.latency, cost := s.cost + call.cost, tokens := s.tokens + call.tokens);
      s := s.(lastModel := call.model, lastCalled := now);
      stats := stats[key := s];
    }

    method Reset()
      modifies this
      ensures stats == map[]
    {
      stats := map[];
    }

    /** Entries are copied in whatever order the map yields them. */
    method LoadFromStats(entries: Memory)
      modifies this
      ensures stats == old(stats) + entries
    {
      var left := entries.Keys;
      while left != {}
        invariant left <= entries.Keys
        invariant stats == old(stats) + (map k | k in entries && k !in left :: entries[k])
        decreases |left|
      {
        var hash :| hash in left;
        stats := stats[hash := entries[hash]];
        left := left - {hash};
      }
      assert (map k | k in entries && k !in left :: entries[k]) == entries;
    }
  }

  /** The semantic_cache_stats table, keyed by semantic_hash. */
  class StatsTable {
    var rows: Rows

    constructor (rows: Rows)
      ensures this.rows == rows
    {
      this.rows := rows;
    }

    method LoadSemanticCacheStats() returns (out: Rows)
      ensures out == rows
    {
      out := rows;
    }

    method UpsertSemanticCacheStats(r: Row)
      modifies this
      ensures rows == Upserted(old(rows), r)
    {
      if r.hash in rows {
        rows := rows[r.hash := r.(firstSeen := rows[r.hash].firstSeen)];
      } else {
        rows := rows[r.hash := r];
      }
    }

    method ClearSemanticCacheStats()
      modifies this
      ensures rows == map[]
    {
      rows := map[];
    }
  }

  // ---- The cache over its table as one state ------------------------------

  datatype World = World(mem: Memory, loaded: bool, rows: Rows)

  function EnsureLoaded(w: World): World {
    if w.loaded then w else World(LoadedMemory(w.mem, w.rows), true, w.rows)
  }

  function AskWorld(w: World, key: string, now: int, p: Policy): (World, Answer) {
    var v := EnsureLoaded(w);
    var mem := Swept(v.mem, key, now, p);
    (v.(mem := mem), if key in mem then AnswerOf(mem[key], p) else NO_ANSWER)
  }

  /** Recording reads the clock twice; the second reading decides whether the entry is
      still there to be written through. */
  function NoteWorld(w: World, key: string, call: Call, now: int, later: int, p: Policy): World {
    var v := EnsureLoaded(w);
    var mem := Swept(Noted(v.mem, key, call, now), key, later, p);
    World(mem, true, if key in mem then Upserted(v.rows, ToRow(mem[key])) else v.rows)
  }

  const EMPTY_WORLD: World := World(map[], true, map[])

  class PersistentCache {
    const inner: Cache
    const table: StatsTable
    var loaded: bool

    constructor (table: StatsTable, minSamples: int, confidence: real, ttlNanos: int)
      ensures fresh(inner) && this.table == table && !loaded && inner.stats == map[]
      ensures inner.policy == Policy(if minSamples <= 0 then 3 else minSamples,
                                     if confidence <= 0.0 then 0.75 else confidence,
                                     if ttlNanos <= 0 then 604_800_000_000_000 else ttlNanos)
    {
      inner := new Cache(minSamples, confidence, ttlNanos);
      this.table := table;
      loaded := false;
    }

    ghost function Now(): World
      reads this, inner, table
    {
      World(inner.stats, loaded, table.rows)
    }

    method EnsureLoadedOnce()
      modifies this, inner
      ensures Now() == EnsureLoaded(old(Now()))
    {
      if loaded {
        return;
      }
      var rows := table.LoadSemanticCacheStats();
      var entries := map k | k in rows :: FromRow(rows[k]);
      inner.LoadFromStats(entries);
      loaded := true;
    }

    method ConfidentRoute(key: string, now: int) returns (a: Answer)
      modifies this, inner
      ensures (Now(), a) == AskWorld(old(Now()), key, now, inner.policy)
    {
      EnsureLoadedOnce();
      a := inner.ConfidentRoute(key, now);
    }

    method Record(key: string, call: Call, now: int, later: int)
      modifies this, inner, table
      ensures Now() == NoteWorld(old(Now()), key, call, now, later, inner.policy)
    {
      EnsureLoadedOnce();
      inner.Record(key, call, now);
      var found := inner.Lookup(key, later);
      if found.None? {
        return;
      }
      table.UpsertSemanticCacheStats(ToRow(found.value));
    }

    method Reset()
      modifies this, inner, table
      ensures Now() == EMPTY_WORLD
    {
      inner.Reset();
      table.ClearSemanticCacheStats();
      loaded := true;
    }
  }
}
