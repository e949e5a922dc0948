/**
 How a confident "weak" in the semantic cache confirms itself in runs of the whole router, with
 requests under other keys in between.
 */
module RouterLockIn {
  import opened Common
  import opened Escalation
  import opened Routing
  import BudgetProtocol
  import Cache = SemanticCache
  import RouteMemory
  import opened Threshold

  /** What the cache has on a key, loaded from the table or not yet. */
  function MemoryNow(w: Cache.World): Cache.Memory {
    Cache.EnsureLoaded(w).mem
  }

  predicate CachedWeak(w: Cache.World, key: string, p: Cache.Policy) {
    key in MemoryNow(w) && Cache.AnswerOf(MemoryNow(w)[key], p).route == Some(Weak)
  }

  /** Still "weak", without one more strong call and no less confident. */
  predicate NoWeaker(before: Cache.World, after: Cache.World, key: string, p: Cache.Policy)
    requires CachedWeak(before, key, p)
  {
    && CachedWeak(after, key, p)
    && MemoryNow(after)[key].strong == MemoryNow(before)[key].strong
    && Cache.AnswerOf(MemoryNow(after)[key], p).confidence >= Cache.AnswerOf(MemoryNow(before)[key], p).confidence
  }

  /** A zero score is weak: the threshold is positive, or strict mode lowers the score. */
  predicate ZeroIsWeak(s: State, e: Env) {
    s.control.threshold > 0.0 || (e.settings.dynamicThreshold && Strict(s.control, e.settings.tuning))
  }

  /** A request that does not break the lock: who records under the key has asked under it, and
      whoever asks finds the entry alive, a zero score weak, and writes before the entry could
      expire again. */
  predicate Steady(s: State, step: Step, key: string, e: Env) {
    var q, x, p := step.query, step.luck, e.settings.policy;
    && (q.logKey == key ==> q.key == key)
    && (q.key == key ==>
          && (key in MemoryNow(s.cache) ==> !Cache.Expired(MemoryNow(s.cache)[key].lastCalled, x.askedAt, p))
          && x.storedAt - x.notedAt <= p.ttl && ZeroIsWeak(s, e))
  }

  // ---- One request --------------------------------------------------------

  lemma AskKeeps(w: Cache.World, asked: string, now: int, key: string, p: Cache.Policy)
    requires CachedWeak(w, key, p)
    requires asked == key ==> !Cache.Expired(MemoryNow(w)[key].lastCalled, now, p)
    ensures NoWeaker(w, Cache.AskWorld(w, asked, now, p).0, key, p)
    ensures asked == key ==> Cache.AskWorld(w, asked, now, p).1.route == Some(Weak)
  {
  }

  lemma NoteKeeps(w: Cache.World, told: string, call: Cache.Call, now: int, later: int, key: string, p: Cache.Policy)
    requires CachedWeak(w, key, p)
    requires told == key ==> call.route == Weak && later - now <= p.ttl
    ensures NoWeaker(w, Cache.NoteWorld(w, told, call, now, later, p), key, p)
  {
    var entry := MemoryNow(w)[key];
    if told == key {
      RouteMemory.MoreOfTheSame(entry.weak, entry.strong);
    }
  }

  lemma NoWeakerChain(a: Cache.World, b: Cache.World, c: Cache.World, key: string, p: Cache.Policy)
    requires CachedWeak(a, key, p) && NoWeaker(a, b, key, p) && NoWeaker(b, c, key, p)
    ensures NoWeaker(a, c, key, p)
  {
  }

  /** With a cached "weak" there is one round of calls, on the tier a zero score chooses. */
  lemma LockedTurn(s: State, q: Query, x: Luck, a: Cache.Answer, cycle: bool, e: Env)
    requires a.route == Some(Weak) && ZeroIsWeak(s, e)
    ensures TakeTurn(s, q, x, a, cycle, e).route == if cycle then Strong else Weak
  {
  }

  /** Where a request under the key goes. */
  lemma LockedRoute(s: State, step: Step, key: string, e: Env)
    requires e.settings.semanticCache && CachedWeak(s.cache, key, e.settings.policy)
    requires Steady(s, step, key, e) && step.query.key == key
    ensures TurnOf(s, step.query, step.luck, e).route
         == if CycleSeen(Admitted(s, step.query, step.luck, e).0, step.query, e) then Strong else Weak
  {
    var q, x := step.query, step.luck;
    AskKeeps(s.cache, q.key, x.askedAt, key, e.settings.policy);
    AdmissionTeachesNothing(s, q, x, e);
    var (ready, a, _) := Admitted(s, q, x, e);
    LockedTurn(ready, q, x, a, CycleSeen(ready, q, e), e);
  }

  lemma NoteFollowsTurn(s: State, q: Query, x: Luck, e: Env)
    requires NoteOf(s, q, x, e).Some?
    ensures NoteOf(s, q, x, e).value.call.route == TurnOf(s, q, x, e).route
    ensures !CycleSeen(Admitted(s, q, x, e).0, q, e)
  {
  }

  lemma StepKeepsLock(s: State, step: Step, key: string, e: Env)
    requires e.settings.semanticCache && CachedWeak(s.cache, key, e.settings.policy) && Steady(s, step, key, e)
    ensures NoWeaker(s.cache, RouteRequest(s, step.query, step.luck, e).0.cache, key, e.settings.policy)
  {
    var q, x, p := step.query, step.luck, e.settings.policy;
    AskKeeps(s.cache, q.key, x.askedAt, key, p);
    RequestCacheValue(s, q, x, e);
    var note := NoteOf(s, q, x, e);
    if note.Some? {
      NoteFollowsTurn(s, q, x, e);
      if q.logKey == key {
        LockedRoute(s, step, key, e);
      }
      var asked := Cache.AskWorld(s.cache, q.key, x.askedAt, p).0;
      NoteKeeps(asked, q.logKey, note.value.call, x.notedAt, x.storedAt, key, p);
      NoWeakerChain(s.cache, asked, RouteRequest(s, q, x, e).0.cache, key, p);
    }
  }

  // ---- Runs ---------------------------------------------------------------

  ghost predicate SteadyRun(s: State, steps: seq<Step>, key: string, e: Env) {
    forall k :: 0 <= k < |steps| ==> Steady(Run(s, steps[..k], e), steps[k], key, e)
  }

  lemma SteadyInit(s: State, steps: seq<Step>, n: nat, key: string, e: Env)
    requires n <= |steps| && SteadyRun(s, steps, key, e)
    ensures SteadyRun(s, steps[..n], key, e)
  {
    forall k | 0 <= k < n ensures Steady(Run(s, steps[..n][..k], e), steps[..n][k], key, e) {
      assert steps[..n][..k] == steps[..k] && steps[..n][k] == steps[k];
    }
  }

  lemma {:induction false} LockLasts(s: State, steps: seq<Step>, key: string, e: Env)
    requires e.settings.semanticCache && CachedWeak(s.cache, key, e.settings.policy) && SteadyRun(s, steps, key, e)
    ensures NoWeaker(s.cache, Run(s, steps, e).cache, key, e.settings.policy)
  {
    if steps == [] {
    } else {
      var n := |steps| - 1;
      var t := Run(s, steps[..n], e);
      SteadyInit(s, steps, n, key, e);
      LockLasts(s, steps[..n], key, e);
      assert Steady(t, steps[n], key, e);
      StepKeepsLock(t, steps[n], key, e);
      NoWeakerChain(s.cache, t.cache, Run(s, steps, e).cache, key, e.settings.policy);
    }
  }

  lemma ResultFollowsTurn(s: State, q: Query, x: Luck, e: Env)
    ensures var r := RouteRequest(s, q, x, e).1; r.OverBudget? || r.route == TurnOf(s, q, x, e).route
  {
  }

  /**
     Weak lock-in of the router: once the cache says "weak" under a key, in any run, whatever
     happens under other keys, each request under that key is refused, or forced strong by a
     cycle, or routed weak. No strong call is recorded there and the confidence never falls, as
     long as no request finds the entry expired and a zero score stays weak.
   */
  lemma WeakLockIn(s: State, steps: seq<Step>, key: string, e: Env)
    requires e.settings.semanticCache && CachedWeak(s.cache, key, e.settings.policy) && SteadyRun(s, steps, key, e)
    ensures NoWeaker(s.cache, Run(s, steps, e).cache, key, e.settings.policy)
    ensures forall k :: 0 <= k < |steps| && steps[k].query.key == key ==>
      var t, q, x := Run(s, steps[..k], e), steps[k].query, steps[k].luck;
      var r := RouteRequest(t, q, x, e).1;
      r.OverBudget? || r.route == if CycleSeen(Admitted(t, q, x, e).0, q, e) then Strong else Weak
  {
    LockLasts(s, steps, key, e);
    forall k | 0 <= k < |steps| && steps[k].query.key == key
      ensures var t, q, x := Run(s, steps[..k], e), steps[k].query, steps[k].luck;
        var r := RouteRequest(t, q, x, e).1;
        r.OverBudget? || r.route == if CycleSeen(Admitted(t, q, x, e).0, q, e) then Strong else Weak
    {
      var t := Run(s, steps[..k], e);
      SteadyInit(s, steps, k, key, e);
      LockLasts(s, steps[..k], key, e);
      assert Steady(t, steps[k], key, e);
      LockedRoute(t, steps[k], key, e);
      ResultFollowsTurn(t, steps[k].query, steps[k].luck, e);
    }
  }
}
