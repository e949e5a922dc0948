/**
 Recording a route without having asked for it is where restarts of the semantic cache show
 (internal/semantic/persistent_cache.go): in which entry, in which answer, and in which run.
 */
module RestartShows {
  import opened Common
  import opened Escalation
  import opened SemanticCache
  import opened CacheRuns
  import RouteMemory

  /** Recording without asking first is where restarts show: the entry differs afterwards
      exactly when the old process had already dropped a row the table still keeps. */
  lemma UnaskedRecordingShowsRestart(s: State, key: string, call: Call, now: int, p: Policy)
    requires Sound(s, p) && s.world.loaded && p.ttl >= 0
    ensures var kept, restarted :=
        NoteWorld(s.world, key, call, now, now, p), NoteWorld(Restarted(s.world), key, call, now, now, p);
      && key in kept.mem && key in restarted.mem
      && (Strip(kept.mem[key]) == Strip(restarted.mem[key]) <==> key in s.world.mem || key !in s.world.rows)
  {
    var a, b := s.world.mem, EnsureLoaded(Restarted(s.world)).mem;
    if key in s.world.rows {
      UnaskedEntries(a, b, s.world.rows, key, call, s.clock, now, p);
    } else {
      assert MirrorAt(a, s.world.rows, key, s.clock, p);
    }
  }

  lemma UnaskedEntries(a: Memory, b: Memory, rows: Rows, key: string, call: Call, clock: int, now: int, p: Policy)
    requires Mirrors(a, rows, clock, p)
    requires key in rows && key in b && b[key] == FromRow(rows[key])
    ensures Strip(Noted(a, key, call, now)[key]) == Strip(Noted(b, key, call, now)[key]) <==> key in a
  {
    var x, y := Noted(a, key, call, now)[key], Noted(b, key, call, now)[key];
    assert MirrorAt(a, rows, key, clock, p);
    if key in a {
      BumpStrips(a[key], b[key], call, now);
    } else {
      assert SoundStats(b[key], key, clock);
      assert Strip(x).total == 1 && Strip(y).total >= 2;
    }
  }

  lemma BumpStrips(x: Stats, y: Stats, call: Call, now: int)
    requires Strip(x) == Strip(y)
    ensures Strip(Bump(x, call, now)) == Strip(Bump(y, call, now))
  {
    assert Strip(Bump(x, call, now)) == Bump(Strip(x), call, now);
    assert Strip(Bump(y, call, now)) == Bump(Strip(y), call, now);
  }

  // ---- How it shows in the next answer ------------------------------------

  /** The entry a recording leaves behind. */
  function EntryAfter(w: World, key: string, call: Call, now: int): Stats {
    Noted(EnsureLoaded(w).mem, key, call, now)[key]
  }

  /** Asking soon after a recording answers from the entry it left. */
  lemma AnswerAfterNote(w: World, key: string, call: Call, now: int, later: int, ask: int, p: Policy)
    requires now <= later <= ask && ask - now <= p.ttl
    ensures AskWorld(NoteWorld(w, key, call, now, later, p), key, ask, p).1 == AnswerOf(EntryAfter(w, key, call, now), p)
  {
  }

  lemma AnswersOne(s: State, key: string, delay: nat, p: Policy)
    ensures Answers(s, [Ask(key, delay)], p) == [AskWorld(s.world, key, s.clock + delay, p).1]
  {
    assert [Ask(key, delay)][1..] == [];
  }

  lemma NoteThenAsk(s: State, key: string, call: Call, wait: nat, lag: nat, delay: nat, p: Policy)
    requires lag + delay <= p.ttl
    ensures Answers(s, [Note(key, call, wait, lag), Ask(key, delay)], p)
         == [AnswerOf(EntryAfter(s.world, key, call, s.clock + wait), p)]
  {
    var note, ask := Note(key, call, wait, lag), Ask(key, delay);
    var now := s.clock + wait;
    AnswerAfterNote(s.world, key, call, now, now + lag, now + lag + delay, p);
    assert [note, ask][1..] == [ask];
    AnswersOne(Step(s, note, p), key, delay, p);
  }

  lemma RestartNoteThenAsk(s: State, key: string, call: Call, wait: nat, lag: nat, delay: nat, p: Policy)
    requires lag + delay <= p.ttl
    ensures Answers(s, [Restart, Note(key, call, wait, lag), Ask(key, delay)], p)
         == [AnswerOf(EntryAfter(Restarted(s.world), key, call, s.clock + wait), p)]
  {
    var note, ask := Note(key, call, wait, lag), Ask(key, delay);
    NoteThenAsk(Step(s, Restart, p), key, call, wait, lag, delay, p);
    assert [Restart, note, ask][1..] == [note, ask];
  }

  /** The calls of the other route. */
  function Others(r: Row, route: Route): nat {
    if route == Strong then r.weak else r.strong
  }

  /** The old process answers from a single call, the new one from those in the row as well:
      the answers agree only if the row has no call of the other route and one call counts as
      much as all of them. */
  predicate OneCallIsAll(r: Row, route: Route, p: Policy) {
    Others(r, route) == 0 && (p.confidence > 1.0 || p.minSamples <= 1 || r.total + 1 < p.minSamples)
  }

  lemma OneCall(key: string, call: Call, now: int, p: Policy)
    ensures AnswerOf(Bump(NewStats(key, now), call, now), p)
         == Answer(if p.minSamples > 1 || p.confidence > 1.0 then None else Some(call.route), 1.0)
  {
    RouteMemory.ConfidenceRange(1, 0);
    RouteMemory.ConfidenceRange(0, 1);
  }

  lemma AllCalls(r: Row, call: Call, now: int, p: Policy)
    requires r.total == r.weak + r.strong && r.total >= 1
    ensures var a := AnswerOf(Bump(FromRow(r), call, now), p);
      && (a.confidence == 1.0 <==> Others(r, call.route) == 0)
      && (Others(r, call.route) == 0 ==>
            a.route == if r.total + 1 < p.minSamples || p.confidence > 1.0 then None else Some(call.route))
  {
    var b := Bump(FromRow(r), call, now);
    RouteMemory.ConfidenceRange(b.weak, b.strong);
  }

  /**
     Whether a restart before a recording shows in the next answer for that key, asked before it
     expires: it does not exactly when the key is in memory, or was never stored, or one call
     counts as much as all.
   */
  lemma NextAnswerShowsRestart(s: State, key: string, call: Call, wait: nat, lag: nat, delay: nat, p: Policy)
    requires Sound(s, p) && s.world.loaded && lag + delay <= p.ttl
    ensures var note, ask := Note(key, call, wait, lag), Ask(key, delay);
      Answers(s, [note, ask], p) == Answers(s, [Restart, note, ask], p)
      <==> key in s.world.mem || key !in s.world.rows || OneCallIsAll(s.world.rows[key], call.route, p)
  {
    var w, now := s.world, s.clock + wait;
    NoteThenAsk(s, key, call, wait, lag, delay, p);
    RestartNoteThenAsk(s, key, call, wait, lag, delay, p);
    assert MirrorAt(w.mem, w.rows, key, s.clock, p);
    if key in w.mem {
      BumpStrips(w.mem[key], FromRow(w.rows[key]), call, now);
      SameCountsSameAnswer(EntryAfter(w, key, call, now), EntryAfter(Restarted(w), key, call, now), p);
    } else if key in w.rows {
      OneCall(key, call, now, p);
      AllCalls(w.rows[key], call, now, p);
    }
  }

  // ---- A run in which it shows ---------------------------------------------

  const SHORT_POLICY: Policy := Policy(3, 0.75, 10)

  /** Two recordings, and a question that comes when they have expired. */
  function Forgetting(key: string, call: Call): seq<Op> {
    [Note(key, call, 0, 0), Note(key, call, 0, 0), Ask(key, 11)]
  }

  /** One more recording and a question right after it. */
  function Remembering(key: string, call: Call): seq<Op> {
    [Note(key, call, 0, 0), Ask(key, 0)]
  }

  /** The two calls a row holds after them. */
  function TwoCalls(key: string, call: Call): Stats {
    Bump(Bump(NewStats(key, 0), call, 0), call, 0)
  }

  lemma SecondNote(key: string, call: Call)
    ensures var w := NoteWorld(EMPTY_WORLD, key, call, 0, 0, SHORT_POLICY);
      NoteWorld(w, key, call, 0, 0, SHORT_POLICY)
        == World(map[key := TwoCalls(key, call)], true, map[key := ToRow(TwoCalls(key, call))])
  {
  }

  lemma ThreeSteps(s: State, a: Op, b: Op, c: Op, p: Policy)
    ensures var s1 := Step(s, a, p);
      var s2 := Step(s1, b, p);
      && Run(s, [a, b, c], p) == Step(s2, c, p)
      && Answers(s, [a, b, c], p) == StepAnswers(s, a, p) + StepAnswers(s1, b, p) + StepAnswers(s2, c, p)
  {
    var s1 := Step(s, a, p);
    var s2 := Step(s1, b, p);
    assert [a, b, c][1..] == [b, c] && [b, c][1..] == [c] && [c][1..] == [];
    assert Run(s2, [c], p) == Step(s2, c, p) && Answers(s2, [c], p) == StepAnswers(s2, c, p);
    assert Run(s1, [b, c], p) == Run(s2, [c], p);
    assert Answers(s1, [b, c], p) == StepAnswers(s1, b, p) + Answers(s2, [c], p);
  }

  lemma AskTooLate(key: string, call: Call)
    ensures var rows := map[key := ToRow(TwoCalls(key, call))];
      AskWorld(World(map[key := TwoCalls(key, call)], true, rows), key, 11, SHORT_POLICY)
        == (World(map[], true, rows), NO_ANSWER)
  {
  }

  lemma AfterForgetting(key: string, call: Call)
    ensures var start := State(EMPTY_WORLD, 0);
      && Answers(start, Forgetting(key, call), SHORT_POLICY) == [NO_ANSWER]
      && Run(start, Forgetting(key, call), SHORT_POLICY)
           == State(World(map[], true, map[key := ToRow(TwoCalls(key, call))]), 11)
  {
    ThreeSteps(State(EMPTY_WORLD, 0), Note(key, call, 0, 0), Note(key, call, 0, 0), Ask(key, 11), SHORT_POLICY);
    SecondNote(key, call);
    AskTooLate(key, call);
  }

  lemma AfterRemembering(s: State, key: string, call: Call)
    requires s == State(World(map[], true, map[key := ToRow(TwoCalls(key, call))]), 11)
    ensures Answers(s, Remembering(key, call), SHORT_POLICY) == [Answer(None, 1.0)]
    ensures Answers(s, [Restart] + Remembering(key, call), SHORT_POLICY) == [Answer(Some(call.route), 1.0)]
  {
    NoteThenAsk(s, key, call, 0, 0, 0, SHORT_POLICY);
    RestartNoteThenAsk(s, key, call, 0, 0, 0, SHORT_POLICY);
    assert [Restart] + Remembering(key, call) == [Restart, Note(key, call, 0, 0), Ask(key, 0)];
    OneCall(key, call, 11, SHORT_POLICY);
    AllCalls(ToRow(TwoCalls(key, call)), call, 11, SHORT_POLICY);
    assert EnsureLoaded(Restarted(s.world)).mem[key] == FromRow(s.world.rows[key]);
  }

  /** With and without a restart the same requests are answered differently: the old process
      has forgotten the two calls and knows one, the new one reads them back and knows three. */
  lemma RestartShowsInARun(key: string, call: Call)
    ensures var start, p := State(EMPTY_WORLD, 0), SHORT_POLICY;
      && Answers(start, Forgetting(key, call) + Remembering(key, call), p) == [NO_ANSWER, Answer(None, 1.0)]
      && Answers(start, Forgetting(key, call) + [Restart] + Remembering(key, call), p)
           == [NO_ANSWER, Answer(Some(call.route), 1.0)]
  {
    var start, p := State(EMPTY_WORLD, 0), SHORT_POLICY;
    var before, after := Forgetting(key, call), Remembering(key, call);
    AfterForgetting(key, call);
    AnswersOfParts(start, before, after, p);
    AnswersOfParts(start, before, [Restart] + after, p);
    assert before + [Restart] + after == before + ([Restart] + after);
    AfterRemembering(Run(start, before, p), key, call);
  }

  lemma {:induction false} AnswersOfParts(s: State, first: seq<Op>, second: seq<Op>, p: Policy)
    ensures Answers(s, first + second, p) == Answers(s, first, p) + Answers(Run(s, first, p), second, p)
    decreases |first|
  {
    if first == [] {
      assert first + second == second;
    } else {
      assert (first + second)[1..] == first[1..] + second;
      AnswersOfParts(Step(s, first[0], p), first[1..], second, p);
    }
  }
}
