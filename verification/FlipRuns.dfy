/**
 How many recordings it takes to turn a confident answer of the semantic cache, in runs of the
 persistent cache with other keys and restarts in between, and in runs of the router.
 */
module FlipRuns {
  import opened Common
  import opened Escalation
  import opened SemanticCache
  import opened CacheRuns
  import RestartedRuns
  import RouteMemory
  import Routing

  /** What the cache has on its keys, loaded or not yet. */
  function Known(s: State): Memory {
    EnsureLoaded(s.world).mem
  }

  predicate Answers(s: State, key: string, route: Route, p: Policy) {
    key in Known(s) && AnswerOf(Known(s)[key], p).route == Some(route)
  }

  /** The operation does not lose the key: nobody asks for it when it has expired, nobody takes
      longer than that to write it, and the cache is not reset. */
  predicate Keeps(s: State, op: Op, key: string, p: Policy) {
    match op
    case Ask(k, delay) => k == key && key in Known(s) ==> !Expired(Known(s)[key].lastCalled, s.clock + delay, p)
    case Note(k, _, _, lag) => k == key ==> lag <= p.ttl
    case Reset => false
    case Restart => true
  }

  predicate KeepsAll(s: State, ops: seq<Op>, key: string, p: Policy)
    decreases |ops|
  {
    ops == [] || (Keeps(s, ops[0], key, p) && KeepsAll(Step(s, ops[0], p), ops[1..], key, p))
  }

  function Counts(op: Op, key: string, route: Route): nat {
    if op.Note? && op.key == key && op.call.route == route then 1 else 0
  }

  /** The recordings of a route under the key. */
  function NotesTo(ops: seq<Op>, key: string, route: Route): nat {
    if ops == [] then 0 else Counts(ops[0], key, route) + NotesTo(ops[1..], key, route)
  }

  /** One entry has the other's calls and these in addition. */
  predicate Grew(x: Stats, y: Stats, weak: nat, strong: nat) {
    y.weak == x.weak + weak && y.strong == x.strong + strong
  }

  lemma RestartKeepsCounts(s: State, key: string, p: Policy)
    requires Sound(s, p) && key in Known(s)
    ensures key in Known(Step(s, Restart, p)) && Grew(Known(s)[key], Known(Step(s, Restart, p))[key], 0, 0)
  {
    LoadedIsSound(s.world, s.clock, p);
    assert MirrorAt(Known(s), s.world.rows, key, s.clock, p);
    SameKeyAndCounts(Known(s)[key], FromRow(s.world.rows[key]));
  }

  lemma NoteCounts(s: State, op: Op, key: string, p: Policy)
    requires op.Note? && key in Known(s) && Keeps(s, op, key, p)
    ensures key in Known(Step(s, op, p))
    ensures Grew(Known(s)[key], Known(Step(s, op, p))[key], Counts(op, key, Weak), Counts(op, key, Strong))
  {
    NoteOutcome(s.world, op.key, op.call, s.clock + op.delay, s.clock + op.delay + op.lag, p);
  }

  lemma StepCounts(s: State, op: Op, key: string, p: Policy)
    requires Sound(s, p) && key in Known(s) && Keeps(s, op, key, p)
    ensures key in Known(Step(s, op, p))
    ensures Grew(Known(s)[key], Known(Step(s, op, p))[key], Counts(op, key, Weak), Counts(op, key, Strong))
  {
    match op
    case Ask(_, _) =>
    case Note(_, _, _, _) => NoteCounts(s, op, key, p);
    case Reset =>
    case Restart => RestartKeepsCounts(s, key, p);
  }

  /** The entry counts the recordings under its key, whatever else happens. */
  lemma {:induction false} RunCounts(s: State, ops: seq<Op>, key: string, p: Policy)
    requires Sound(s, p) && key in Known(s) && KeepsAll(s, ops, key, p)
    ensures key in Known(Run(s, ops, p))
    ensures Grew(Known(s)[key], Known(Run(s, ops, p))[key], NotesTo(ops, key, Weak), NotesTo(ops, key, Strong))
    decreases |ops|
  {
    if ops == [] {
    } else {
      StepCounts(s, ops[0], key, p);
      StepKeepsSound(s, ops[0], p);
      RunCounts(Step(s, ops[0], p), ops[1..], key, p);
    }
  }

  /** So many recordings of the other route it takes, multiplied out, to turn an answer that
      `calls` calls speak for. */
  predicate Enough(notes: nat, calls: nat, confidence: real) {
    notes as real * (confidence * (1.0 - confidence)) >= calls as real * (2.0 * confidence - 1.0)
  }

  lemma FlipEntry(x: Stats, y: Stats, weak: nat, strong: nat, p: Policy)
    requires Grew(x, y, weak, strong) && 0.0 < p.confidence < 1.0
    ensures AnswerOf(x, p).route == Some(Weak) && AnswerOf(y, p).route == Some(Strong)
            ==> Enough(strong, x.weak, p.confidence)
    ensures AnswerOf(x, p).route == Some(Strong) && AnswerOf(y, p).route == Some(Weak)
            ==> Enough(weak, x.strong, p.confidence)
  {
    if AnswerOf(x, p).route == Some(Weak) && AnswerOf(y, p).route == Some(Strong) {
      RouteMemory.WeakToStrong(x, y, strong, p);
    } else if AnswerOf(x, p).route == Some(Strong) && AnswerOf(y, p).route == Some(Weak) {
      RouteMemory.StrongToWeak(x, y, weak, p);
    }
  }

  /** Turning an answer over a run of the persistent cache, restarts and other keys included. */
  lemma FlipInRun(s: State, ops: seq<Op>, key: string, p: Policy)
    requires Sound(s, p) && KeepsAll(s, ops, key, p) && 0.0 < p.confidence < 1.0
    ensures Answers(s, key, Weak, p) && Answers(Run(s, ops, p), key, Strong, p)
            ==> Enough(NotesTo(ops, key, Strong), Known(s)[key].weak, p.confidence)
    ensures Answers(s, key, Strong, p) && Answers(Run(s, ops, p), key, Weak, p)
            ==> Enough(NotesTo(ops, key, Weak), Known(s)[key].strong, p.confidence)
  {
    if key in Known(s) {
      RunCounts(s, ops, key, p);
      FlipEntry(Known(s)[key], Known(Run(s, ops, p))[key], NotesTo(ops, key, Weak), NotesTo(ops, key, Strong), p);
    }
  }

  // ---- The router's requests ----------------------------------------------

  /** Whether a request records this route under the key. */
  ghost function Recorded(s: Routing.State, step: Routing.Step, e: Routing.Env, key: string, route: Route): nat {
    var note := Routing.NoteOf(s, step.query, step.luck, e);
    if e.settings.semanticCache && note.Some? then Counts(note.value, key, route) else 0
  }

  /** The requests of a run that record this route under the key. */
  ghost function Recordings(s: Routing.State, steps: seq<Routing.Step>, e: Routing.Env, key: string, route: Route): nat {
    if steps == [] then 0
    else
      var init, last := steps[..|steps| - 1], steps[|steps| - 1];
      Recordings(s, init, e, key, route) + Recorded(Routing.Run(s, init, e), last, e, key, route)
  }

  lemma {:induction false} NotesAppend(a: seq<Op>, b: seq<Op>, key: string, route: Route)
    ensures NotesTo(a + b, key, route) == NotesTo(a, key, route) + NotesTo(b, key, route)
    decreases |a|
  {
    if a == [] {
      assert a + b == b;
    } else {
      assert (a + b)[0] == a[0] && (a + b)[1..] == a[1..] + b;
      NotesAppend(a[1..], b, key, route);
    }
  }

  lemma NotesOfOne(op: Op, key: string, route: Route)
    ensures NotesTo([op], key, route) == Counts(op, key, route)
  {
    assert [op][1..] == [];
  }

  lemma NotesOfOps(ask: Op, note: Option<Op>, key: string, route: Route)
    requires ask.Ask?
    ensures NotesTo(RestartedRuns.OpsFor(ask, note), key, route)
         == if note.Some? then Counts(note.value, key, route) else 0
  {
    NotesOfOne(ask, key, route);
    if note.Some? {
      NotesOfOne(note.value, key, route);
      NotesAppend([ask], [note.value], key, route);
    } else {
      assert [ask] + [] == [ask];
    }
  }

  lemma NotesOfRequest(s: Routing.State, step: Routing.Step, e: Routing.Env, clock: int, key: string, route: Route)
    ensures NotesTo(Routing.CacheOps(s, step.query, step.luck, e, clock).0, key, route) == Recorded(s, step, e, key, route)
  {
    if e.settings.semanticCache {
      RestartedRuns.OpsAre(s, step.query, step.luck, e, clock);
      NotesOfOps(Ask(step.query.key, Routing.Gap(clock, step.luck.askedAt)),
                 Routing.NoteOf(s, step.query, step.luck, e), key, route);
    }
  }

  lemma {:induction false} NotesOfRun(s: Routing.State, steps: seq<Routing.Step>, e: Routing.Env, start: int,
                                      key: string, route: Route)
    ensures NotesTo(Routing.CacheRun(s, steps, e, start).0, key, route) == Recordings(s, steps, e, key, route)
  {
    if steps == [] {
    } else {
      var init, last := steps[..|steps| - 1], steps[|steps| - 1];
      var (ops, clock) := Routing.CacheRun(s, init, e, start);
      NotesOfRun(s, init, e, start, key, route);
      NotesOfRequest(Routing.Run(s, init, e), last, e, clock, key, route);
      NotesAppend(ops, Routing.CacheOps(Routing.Run(s, init, e), last.query, last.luck, e, clock).0, key, route);
    }
  }

  ghost function CacheOf(s: Routing.State, clock: int): State {
    State(s.cache, clock)
  }

  /** Turning an answer over a run of the router: it takes as many requests that are answered by
      the other tier and recorded under the key, whatever is asked under others. */
  lemma FlipInRouter(s: Routing.State, steps: seq<Routing.Step>, e: Routing.Env, start: int, key: string)
    requires Sound(CacheOf(s, start), e.settings.policy) && Routing.InTime(steps, start)
    requires KeepsAll(CacheOf(s, start), Routing.CacheRun(s, steps, e, start).0, key, e.settings.policy)
    requires 0.0 < e.settings.policy.confidence < 1.0
    ensures var p, t := e.settings.policy, CacheOf(Routing.Run(s, steps, e), Routing.CacheRun(s, steps, e, start).1);
      && (Answers(CacheOf(s, start), key, Weak, p) && Answers(t, key, Strong, p)
          ==> Enough(Recordings(s, steps, e, key, Strong), Known(CacheOf(s, start))[key].weak, p.confidence))
      && (Answers(CacheOf(s, start), key, Strong, p) && Answers(t, key, Weak, p)
          ==> Enough(Recordings(s, steps, e, key, Weak), Known(CacheOf(s, start))[key].strong, p.confidence))
  {
    Routing.RouterCacheRun(s, steps, e, start);
    FlipInRun(CacheOf(s, start), Routing.CacheRun(s, steps, e, start).0, key, e.settings.policy);
    NotesOfRun(s, steps, e, start, key, Strong);
    NotesOfRun(s, steps, e, start, key, Weak);
  }
}
