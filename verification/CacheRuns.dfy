/**
 Whole runs of the persistent semantic cache: what memory and table have to do with each
 other, why restarting the process changes no answer, and how the recorded routes move the
 answer.
 */
module CacheRuns {
  import opened Common
  import opened Escalation
  import opened SemanticCache

  /** A cache with a clock. Every operation says how long after the previous one it comes;
      `lag` is the time between the two clock readings of a recording. */
  datatype State = State(world: World, clock: int)

  datatype Op =
    | Ask(key: string, delay: nat)
    | Note(key: string, call: Call, delay: nat, lag: nat)
    | Reset
    | Restart

  /** A new process over the same table. */
  function Restarted(w: World): World {
    World(map[], false, w.rows)
  }

  function Step(s: State, op: Op, p: Policy): State {
    match op
    case Ask(key, delay) => State(AskWorld(s.world, key, s.clock + delay, p).0, s.clock + delay)
    case Note(key, call, delay, lag) =>
      State(NoteWorld(s.world, key, call, s.clock + delay, s.clock + delay + lag, p), s.clock + delay + lag)
    case Reset => State(EMPTY_WORLD, s.clock)
    case Restart => State(Restarted(s.world), s.clock)
  }

  function StepAnswers(s: State, op: Op, p: Policy): seq<Answer> {
    if op.Ask? then [AskWorld(s.world, op.key, s.clock + op.delay, p).1] else []
  }

  function Run(s: State, ops: seq<Op>, p: Policy): State
    decreases |ops|
  {
    if ops == [] then s else Run(Step(s, ops[0], p), ops[1..], p)
  }

  /** The answers a run gives, in order. */
  function Answers(s: State, ops: seq<Op>, p: Policy): seq<Answer>
    decreases |ops|
  {
    if ops == [] then [] else StepAnswers(s, ops[0], p) + Answers(Step(s, ops[0], p), ops[1..], p)
  }

  // ---- Memory and table ---------------------------------------------------

  function Strip(s: Stats): Stats {
    s.(firstSeen := 0)
  }

  ghost predicate SoundStats(s: Stats, key: string, clock: int) {
    s.hash == key && s.total == s.weak + s.strong && s.total >= 1 && s.lastCalled <= clock
  }

  ghost predicate RowAt(rows: Rows, key: string, clock: int) {
    key in rows ==> SoundStats(FromRow(rows[key]), key, clock)
  }

  /** An entry in memory equals its stored row except for the time it was first seen, and a
      stored row that memory does not have is expired. */
  ghost predicate MirrorAt(mem: Memory, rows: Rows, key: string, clock: int, p: Policy) {
    && RowAt(rows, key, clock)
    && (key in mem ==> key in rows && Strip(mem[key]) == Strip(FromRow(rows[key])))
    && (key in rows && key !in mem ==> Expired(rows[key].lastCalled, clock, p))
  }

  ghost predicate Mirrors(mem: Memory, rows: Rows, clock: int, p: Policy) {
    forall k :: MirrorAt(mem, rows, k, clock, p)
  }

  ghost predicate SoundWorld(w: World, clock: int, p: Policy) {
    if w.loaded then Mirrors(w.mem, w.rows, clock, p)
    else w.mem == map[] && forall k :: RowAt(w.rows, k, clock)
  }

  ghost predicate Sound(s: State, p: Policy) {
    SoundWorld(s.world, s.clock, p)
  }

  lemma LoadedIsSound(w: World, clock: int, p: Policy)
    requires SoundWorld(w, clock, p)
    ensures Mirrors(EnsureLoaded(w).mem, w.rows, clock, p)
  {
    if !w.loaded {
      forall k ensures MirrorAt(EnsureLoaded(w).mem, w.rows, k, clock, p) {
        assert RowAt(w.rows, k, clock);
      }
    }
  }

  lemma AskMirrors(mem: Memory, rows: Rows, key: string, clock: int, now: int, p: Policy)
    requires Mirrors(mem, rows, clock, p) && clock <= now
    ensures Mirrors(Swept(mem, key, now, p), rows, now, p)
  {
    forall k ensures MirrorAt(Swept(mem, key, now, p), rows, k, now, p) {
      assert MirrorAt(mem, rows, k, clock, p);
      if k in mem {
        assert mem[k].lastCalled == Strip(mem[k]).lastCalled == Strip(FromRow(rows[k])).lastCalled == rows[k].lastCalled;
      }
    }
  }

  /** The entry and its row after a recording that is written through. */
  lemma WriteThrough(mem: Memory, rows: Rows, key: string, call: Call, clock: int, now: int, p: Policy)
    requires Mirrors(mem, rows, clock, p) && clock <= now
    ensures var noted := Noted(mem, key, call, now);
      Mirrors(noted, Upserted(rows, ToRow(noted[key])), now, p)
  {
    var noted := Noted(mem, key, call, now);
    var entry := noted[key];
    assert MirrorAt(mem, rows, key, clock, p);
    if key in mem {
      SameKeyAndCounts(mem[key], FromRow(rows[key]));
    }
    assert SoundStats(entry, key, now);
    var written := Upserted(rows, ToRow(entry));
    assert Strip(FromRow(written[key])) == Strip(entry);
    forall k ensures MirrorAt(noted, written, k, now, p) {
      assert MirrorAt(mem, rows, k, clock, p);
      if k == key {
        SameKeyAndCounts(entry, FromRow(written[key]));
      }
    }
  }

  lemma SameKeyAndCounts(x: Stats, y: Stats)
    requires Strip(x) == Strip(y)
    ensures x == y.(firstSeen := x.firstSeen)
  {
    assert x == Strip(x).(firstSeen := x.firstSeen);
    assert y == Strip(y).(firstSeen := y.firstSeen);
  }

  /** Memory after a recording: the entry is written through unless it is dropped at once. */
  lemma NoteOutcome(w: World, key: string, call: Call, now: int, later: int, p: Policy)
    ensures var mem := Noted(EnsureLoaded(w).mem, key, call, now);
      NoteWorld(w, key, call, now, later, p) ==
        if Expired(now, later, p) then World(mem - {key}, true, w.rows)
        else World(mem, true, Upserted(w.rows, ToRow(mem[key])))
  {
    assert Noted(EnsureLoaded(w).mem, key, call, now)[key].lastCalled == now;
  }

  /** If the entry was dropped before it could be written, what the table still has is old. */
  lemma WriteMissed(mem: Memory, rows: Rows, key: string, call: Call, clock: int, now: int, later: int, p: Policy)
    requires Mirrors(mem, rows, clock, p) && clock <= now <= later && later - now > p.ttl
    ensures Mirrors(Noted(mem, key, call, now) - {key}, rows, later, p)
  {
    forall k ensures MirrorAt(Noted(mem, key, call, now) - {key}, rows, k, later, p) {
      assert MirrorAt(mem, rows, k, clock, p);
    }
  }

  lemma MirrorsLater(mem: Memory, rows: Rows, clock: int, later: int, p: Policy)
    requires Mirrors(mem, rows, clock, p) && clock <= later
    ensures Mirrors(mem, rows, later, p)
  {
    forall k ensures MirrorAt(mem, rows, k, later, p) {
      assert MirrorAt(mem, rows, k, clock, p);
    }
  }

  lemma NoteKeepsSound(w: World, key: string, call: Call, clock: int, now: int, later: int, p: Policy)
    requires SoundWorld(w, clock, p) && clock <= now <= later
    ensures SoundWorld(NoteWorld(w, key, call, now, later, p), later, p)
  {
    LoadedIsSound(w, clock, p);
    var mem := EnsureLoaded(w).mem;
    NoteOutcome(w, key, call, now, later, p);
    if Expired(now, later, p) {
      WriteMissed(mem, w.rows, key, call, clock, now, later, p);
    } else {
      WriteThrough(mem, w.rows, key, call, clock, now, p);
      var noted := Noted(mem, key, call, now);
      MirrorsLater(noted, Upserted(w.rows, ToRow(noted[key])), now, later, p);
    }
  }

  lemma AskKeepsSound(w: World, key: string, clock: int, now: int, p: Policy)
    requires SoundWorld(w, clock, p) && clock <= now
    ensures SoundWorld(AskWorld(w, key, now, p).0, now, p)
  {
    LoadedIsSound(w, clock, p);
    AskMirrors(EnsureLoaded(w).mem, w.rows, key, clock, now, p);
  }

  lemma RestartKeepsSound(w: World, clock: int, p: Policy)
    requires SoundWorld(w, clock, p)
    ensures SoundWorld(Restarted(w), clock, p)
  {
    if w.loaded {
      forall k ensures RowAt(w.rows, k, clock) {
        assert MirrorAt(w.mem, w.rows, k, clock, p);
      }
    }
  }

  lemma StepKeepsSound(s: State, op: Op, p: Policy)
    requires Sound(s, p)
    ensures Sound(Step(s, op, p), p)
  {
    match op
    case Ask(_, _) => AskStepKeepsSound(s, op, p);
    case Note(_, _, _, _) => NoteStepKeepsSound(s, op, p);
    case Reset => EmptyIsSound(s.clock, p);
    case Restart => RestartKeepsSound(s.world, s.clock, p);
  }

  lemma AskStepKeepsSound(s: State, op: Op, p: Policy)
    requires Sound(s, p) && op.Ask?
    ensures Sound(Step(s, op, p), p)
  {
    AskKeepsSound(s.world, op.key, s.clock, s.clock + op.delay, p);
  }

  lemma NoteStepKeepsSound(s: State, op: Op, p: Policy)
    requires Sound(s, p) && op.Note?
    ensures Sound(Step(s, op, p), p)
  {
    NotedIsSound(s, op.key, op.call, s.clock + op.delay, s.clock + op.delay + op.lag, p, Step(s, op, p));
  }

  lemma NotedIsSound(s: State, key: string, call: Call, now: int, later: int, p: Policy, t: State)
    requires Sound(s, p) && s.clock <= now <= later
    requires t.clock == later && t.world == NoteWorld(s.world, key, call, now, later, p)
    ensures Sound(t, p)
  {
    NoteKeepsSound(s.world, key, call, s.clock, now, later, p);
  }

  lemma EmptyIsSound(clock: int, p: Policy)
    ensures SoundWorld(EMPTY_WORLD, clock, p)
  {
  }

  /** Memory mirrors the table after any run, from any sound table. */
  lemma {:induction false} RunKeepsSound(s: State, ops: seq<Op>, p: Policy)
    requires Sound(s, p)
    ensures Sound(Run(s, ops, p), p)
    decreases |ops|
  {
    if ops == [] {
    } else {
      StepKeepsSound(s, ops[0], p);
      RunKeepsSound(Step(s, ops[0], p), ops[1..], p);
    }
  }

  // ---- Restart transparency -----------------------------------------------

  function Erase(ops: seq<Op>): seq<Op> {
    if ops == [] then [] else (if ops[0].Restart? then [] else [ops[0]]) + Erase(ops[1..])
  }

  /** Every recording was preceded, in the same process, by a question for its key: the
      order in which the router uses the cache for a prompt that redaction leaves alone.
      `asked` are the keys asked for since the process started. */
  predicate AskedFirst(ops: seq<Op>, asked: set<string>)
    decreases |ops|
  {
    ops == [] ||
    match ops[0]
    case Ask(key, _) => AskedFirst(ops[1..], asked + {key})
    case Note(key, _, _, _) => key in asked && AskedFirst(ops[1..], asked)
    case Reset => AskedFirst(ops[1..], asked)
    case Restart => AskedFirst(ops[1..], {})
  }

  /** An entry as a question would see it. */
  function Live(mem: Memory, key: string, clock: int, p: Policy): Option<Stats> {
    if key in mem && !Expired(mem[key].lastCalled, clock, p) then Some(Strip(mem[key])) else None
  }

  function Held(mem: Memory, key: string): Option<Stats> {
    if key in mem then Some(Strip(mem[key])) else None
  }

  /** Two memories no question can tell apart; on the keys asked for they agree outright. */
  ghost predicate Alike(a: Memory, b: Memory, clock: int, asked: set<string>, p: Policy) {
    && (forall k :: Live(a, k, clock, p) == Live(b, k, clock, p))
    && (forall k :: k in asked ==> Held(a, k) == Held(b, k))
  }

  ghost predicate Twins(s: State, t: State, asked: set<string>, p: Policy) {
    && s.clock == t.clock
    && Alike(EnsureLoaded(s.world).mem, EnsureLoaded(t.world).mem, s.clock, asked, p)
  }

  lemma LiveLater(a: Memory, b: Memory, key: string, clock: int, later: int, p: Policy)
    requires clock <= later && Live(a, key, clock, p) == Live(b, key, clock, p)
    ensures Live(a, key, later, p) == Live(b, key, later, p)
  {
    var x, y := Live(a, key, clock, p), Live(b, key, clock, p);
    if x.Some? {
      assert x.value.lastCalled == a[key].lastCalled && y.value.lastCalled == b[key].lastCalled;
    }
  }

  lemma AskAlike(a: Memory, b: Memory, key: string, clock: int, now: int, asked: set<string>, p: Policy)
    requires clock <= now && Alike(a, b, clock, asked, p)
    ensures Alike(Swept(a, key, now, p), Swept(b, key, now, p), now, asked + {key}, p)
    ensures key in Swept(a, key, now, p) <==> key in Swept(b, key, now, p)
    ensures key in Swept(a, key, now, p) ==> Strip(Swept(a, key, now, p)[key]) == Strip(Swept(b, key, now, p)[key])
  {
    var a', b' := Swept(a, key, now, p), Swept(b, key, now, p);
    forall k ensures Live(a', k, now, p) == Live(b', k, now, p) {
      LiveLater(a, b, k, clock, now, p);
    }
    LiveLater(a, b, key, clock, now, p);
    assert Held(a', key) == Live(a, key, now, p);
    assert Held(b', key) == Live(b, key, now, p);
    forall k | k in asked + {key} ensures Held(a', k) == Held(b', k) {
      if k != key {
        assert Held(a, k) == Held(b, k);
      }
    }
  }

  lemma NotedAlike(a: Memory, b: Memory, key: string, call: Call, clock: int, now: int, asked: set<string>, p: Policy)
    requires clock <= now && key in asked && Alike(a, b, clock, asked, p)
    ensures Alike(Noted(a, key, call, now), Noted(b, key, call, now), now, asked, p)
  {
    var a', b' := Noted(a, key, call, now), Noted(b, key, call, now);
    assert Held(a, key) == Held(b, key);
    assert Strip(a'[key]) == Strip(b'[key]);
    forall k ensures Live(a', k, now, p) == Live(b', k, now, p) {
      LiveLater(a, b, k, clock, now, p);
    }
    forall k | k in asked ensures Held(a', k) == Held(b', k) {
      assert Held(a, k) == Held(b, k);
    }
  }

  lemma AskKeepsTwins(s: State, t: State, op: Op, asked: set<string>, p: Policy)
    requires Twins(s, t, asked, p) && op.Ask?
    ensures Twins(Step(s, op, p), Step(t, op, p), asked + {op.key}, p)
    ensures StepAnswers(s, op, p) == StepAnswers(t, op, p)
  {
    AskLoadedAlike(s.world, t.world, op.key, s.clock, s.clock + op.delay, asked, p);
  }

  lemma AskLoadedAlike(v: World, w: World, key: string, clock: int, now: int, asked: set<string>, p: Policy)
    requires Alike(EnsureLoaded(v).mem, EnsureLoaded(w).mem, clock, asked, p) && clock <= now
    ensures AskWorld(v, key, now, p).1 == AskWorld(w, key, now, p).1
    ensures var v', w' := AskWorld(v, key, now, p).0, AskWorld(w, key, now, p).0;
      v'.loaded && w'.loaded && Alike(v'.mem, w'.mem, now, asked + {key}, p)
  {
    var a, b := EnsureLoaded(v).mem, EnsureLoaded(w).mem;
    AskAlike(a, b, key, clock, now, asked, p);
    if key in Swept(a, key, now, p) {
      SameCountsSameAnswer(Swept(a, key, now, p)[key], Swept(b, key, now, p)[key], p);
    }
  }

  lemma SameCountsSameAnswer(x: Stats, y: Stats, p: Policy)
    requires Strip(x) == Strip(y)
    ensures AnswerOf(x, p) == AnswerOf(y, p)
  {
    assert x.total == Strip(x).total && x.weak == Strip(x).weak && x.strong == Strip(x).strong;
    assert y.total == Strip(y).total && y.weak == Strip(y).weak && y.strong == Strip(y).strong;
  }

  lemma NoteKeepsTwins(s: State, t: State, op: Op, asked: set<string>, p: Policy)
    requires Twins(s, t, asked, p) && op.Note? && op.key in asked
    ensures Twins(Step(s, op, p), Step(t, op, p), asked, p)
  {
    NoteLoadedAlike(s.world, t.world, op.key, op.call, s.clock, s.clock + op.delay,
                    s.clock + op.delay + op.lag, asked, p);
  }

  lemma NoteLoadedAlike(v: World, w: World, key: string, call: Call, clock: int, now: int, later: int,
                        asked: set<string>, p: Policy)
    requires Alike(EnsureLoaded(v).mem, EnsureLoaded(w).mem, clock, asked, p) && key in asked && clock <= now <= later
    ensures var v', w' := NoteWorld(v, key, call, now, later, p), NoteWorld(w, key, call, now, later, p);
      v'.loaded && w'.loaded && Alike(v'.mem, w'.mem, later, asked, p)
  {
    var a, b := EnsureLoaded(v).mem, EnsureLoaded(w).mem;
    NotedAlike(a, b, key, call, clock, now, asked, p);
    AskAlike(Noted(a, key, call, now), Noted(b, key, call, now), key, now, later, asked, p);
    assert asked + {key} == asked;
  }

  lemma StepKeepsTwins(s: State, t: State, op: Op, asked: set<string>, p: Policy)
    requires Twins(s, t, asked, p) && !op.Restart?
    requires op.Note? ==> op.key in asked
    ensures Twins(Step(s, op, p), Step(t, op, p), if op.Ask? then asked + {op.key} else asked, p)
    ensures StepAnswers(s, op, p) == StepAnswers(t, op, p)
  {
    match op
    case Ask(_, _) => AskKeepsTwins(s, t, op, asked, p);
    case Note(_, _, _, _) => NoteKeepsTwins(s, t, op, asked, p);
    case Reset =>
  }

  /** A fresh process over the table looks, to every question, like the one it replaces. */
  lemma RestartTwin(s: State, p: Policy)
    requires Sound(s, p)
    ensures Twins(s, Step(s, Restart, p), {}, p)
  {
    LoadedIsSound(s.world, s.clock, p);
    StepKeepsSound(s, Restart, p);
    LoadedIsSound(Restarted(s.world), s.clock, p);
    var rows := s.world.rows;
    var a, b := EnsureLoaded(s.world).mem, EnsureLoaded(Restarted(s.world)).mem;
    forall k ensures Live(a, k, s.clock, p) == Live(b, k, s.clock, p) {
      assert MirrorAt(a, rows, k, s.clock, p) && MirrorAt(b, rows, k, s.clock, p);
      if k in a {
        SameKeyAndCounts(a[k], b[k]);
      }
    }
  }

  lemma TwinsAcrossRestart(s: State, t: State, asked: set<string>, p: Policy)
    requires Twins(s, t, asked, p) && Sound(t, p)
    ensures Twins(s, Step(t, Restart, p), {}, p)
  {
    RestartTwin(t, p);
  }

  lemma {:induction false} TwinRuns(s: State, t: State, ops: seq<Op>, asked: set<string>, p: Policy)
    requires Sound(t, p) && Twins(s, t, asked, p) && AskedFirst(ops, asked)
    ensures Answers(s, Erase(ops), p) == Answers(t, ops, p)
    decreases |ops|
  {
    if ops == [] {
    } else {
      var op := ops[0];
      StepKeepsSound(t, op, p);
      if op.Restart? {
        TwinsAcrossRestart(s, t, asked, p);
        TwinRuns(s, Step(t, op, p), ops[1..], {}, p);
        assert Erase(ops) == Erase(ops[1..]);
      } else {
        StepKeepsTwins(s, t, op, asked, p);
        TwinRuns(Step(s, op, p), Step(t, op, p), ops[1..], if op.Ask? then asked + {op.key} else asked, p);
        assert Erase(ops) == [op] + Erase(ops[1..]);
        assert Erase(ops)[1..] == Erase(ops[1..]);
      }
    }
  }

  /** Restart transparency: in any run that asks for a key before it records under it, the
      restarts can be left out without changing a single answer. */
  lemma RestartsChangeNoAnswer(s: State, ops: seq<Op>, p: Policy)
    requires Sound(s, p) && AskedFirst(ops, {})
    ensures Answers(s, ops, p) == Answers(s, Erase(ops), p)
  {
    TwinRuns(s, s, ops, {}, p);
  }

  /** Asking right after a restart gives the answer the old process would have given. */
  lemma FreshCacheSameAnswer(s: State, key: string, delay: nat, p: Policy)
    requires Sound(s, p)
    ensures AskWorld(Restarted(s.world), key, s.clock + delay, p).1 == AskWorld(s.world, key, s.clock + delay, p).1
  {
    RestartTwin(s, p);
    StepKeepsTwins(s, Step(s, Restart, p), Ask(key, delay), {}, p);
  }
}
