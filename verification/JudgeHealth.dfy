/**
 The circuit breaker around the judge models (internal/judge/health.go) and the attempt loop
 that uses it (internal/judge/registry.go). Every call takes the clock readings it makes.
 */
module JudgeHealth {
  import opened Common

  datatype Breaker = Breaker(failureThreshold: nat, cooldown: nat)

  predicate Sane(b: Breaker) {
    b.failureThreshold >= 1 && b.cooldown >= 1
  }

  /** One judge's entries in the three maps. */
  datatype Health = Health(failures: nat, openUntil: Option<int>, lastFailure: Option<int>)

  const HEALTHY: Health := Health(0, None, None)

  predicate Available(h: Health, now: int) {
    h.openUntil.None? || now > h.openUntil.value
  }

  /** A failure is noted at `at`; the cooldown starts at the second clock reading. */
  function AfterFailure(h: Health, at: int, later: int, b: Breaker): Health {
    Health(h.failures + 1,
           if h.failures + 1 >= b.failureThreshold then Some(later + b.cooldown) else h.openUntil,
           Some(at))
  }

  /** The three maps; a judge that is in none of them is healthy. */
  datatype Tracker = Tracker(failures: map<string, nat>, openUntil: map<string, int>, lastFailure: map<string, int>)

  function HealthOf(t: Tracker, judge: string): Health {
    Health(if judge in t.failures then t.failures[judge] else 0,
           if judge in t.openUntil then Some(t.openUntil[judge]) else None,
           if judge in t.lastFailure then Some(t.lastFailure[judge]) else None)
  }

  function OnSuccess(t: Tracker, judge: string): Tracker {
    Tracker(t.failures - {judge}, t.openUntil - {judge}, t.lastFailure - {judge})
  }

  function OnFailure(t: Tracker, judge: string, at: int, later: int, b: Breaker): Tracker {
    var count := HealthOf(t, judge).failures + 1;
    Tracker(t.failures[judge := count],
            if count >= b.failureThreshold then t.openUntil[judge := later + b.cooldown] else t.openUntil,
            t.lastFailure[judge := at])
  }

  /** One judge's record moves as its own calls say, and nobody else's moves. */
  lemma OnlyThisJudge(t: Tracker, judge: string, at: int, later: int, b: Breaker)
    ensures HealthOf(OnSuccess(t, judge), judge) == HEALTHY
    ensures HealthOf(OnFailure(t, judge, at, later, b), judge) == AfterFailure(HealthOf(t, judge), at, later, b)
    ensures forall j :: j != judge ==> HealthOf(OnSuccess(t, judge), j) == HealthOf(t, j)
    ensures forall j :: j != judge ==> HealthOf(OnFailure(t, judge, at, later, b), j) == HealthOf(t, j)
  {
  }

  class HealthTracker {
    const failureThreshold: nat
    const cooldown: nat
    var failures: map<string, nat>
    var circuitOpenUntil: map<string, int>
    var lastFailure: map<string, int>

    constructor (failureThreshold: int, cooldownNanos: int)
      ensures this.failureThreshold == if failureThreshold <= 0 then 3 else failureThreshold
      ensures cooldown == if cooldownNanos <= 0 then 60_000_000_000 else cooldownNanos
      ensures Now() == Tracker(map[], map[], map[]) && Sane(Setting())
    {
      this.failureThreshold := if failureThreshold <= 0 then 3 else failureThreshold;
      this.cooldown := if cooldownNanos <= 0 then 60_000_000_000 else cooldownNanos;
      failures, circuitOpenUntil, lastFailure := map[], map[], map[];
    }

    ghost function Setting(): Breaker {
      Breaker(failureThreshold, cooldown)
    }

    ghost function Now(): Tracker
      reads this
    {
      Tracker(failures, circuitOpenUntil, lastFailure)
    }

    method IsAvailable(judge: string, now: int) returns (ok: bool)
      ensures ok == Available(HealthOf(Now(), judge), now)
    {
      if judge !in circuitOpenUntil {
        return true;
      }
      ok := now > circuitOpenUntil[judge];
    }

    method RecordSuccess(judge: string)
      modifies this
      ensures Now() == OnSuccess(old(Now()), judge)
    {
      failures := failures - {judge};
      circuitOpenUntil := circuitOpenUntil - {judge};
      lastFailure := lastFailure - {judge};
    }

    method RecordFailure(judge: string, at: int, later: int)
      modifies this
      ensures Now() == OnFailure(old(Now()), judge, at, later, Setting())
    {
      failures := failures[judge := (if judge in failures then failures[judge] else 0) + 1];
      lastFailure := lastFailure[judge := at];
      if failures[judge] >= failureThreshold {
        circuitOpenUntil := circuitOpenUntil[judge := later + cooldown];
      }
    }
  }

  // ---- One judge over time ------------------------------------------------

  /** A judge call: asked for at `asked`, over at `done`, the cooldown read at `later`. */
  datatype Call = Call(asked: int, done: int, later: int, ok: bool)

  function After(h: Health, c: Call, b: Breaker): Health {
    if c.ok then HEALTHY else AfterFailure(h, c.done, c.later, b)
  }

  function AfterAll(h: Health, calls: seq<Call>, b: Breaker): Health {
    if calls == [] then h else After(AfterAll(h, calls[..|calls| - 1], b), calls[|calls| - 1], b)
  }

  ghost predicate AdmittedAt(h: Health, calls: seq<Call>, i: nat, b: Breaker)
    requires i < |calls|
  {
    && calls[i].asked <= calls[i].done <= calls[i].later
    && (i > 0 ==> calls[i - 1].later <= calls[i].asked)
    && Available(AfterAll(h, calls[..i], b), calls[i].asked)
  }

  /** Calls made one after the other, each one let through by the breaker. */
  ghost predicate Admitted(h: Health, calls: seq<Call>, b: Breaker) {
    forall i :: 0 <= i < |calls| ==> AdmittedAt(h, calls, i, b)
  }

  /** The failures since the last success. */
  function FailuresInARow(calls: seq<Call>): nat {
    if calls == [] || calls[|calls| - 1].ok then 0 else 1 + FailuresInARow(calls[..|calls| - 1])
  }

  /** The count is the number of failures since the last success, and the circuit has a
      deadline exactly when that reached the threshold: a cooldown after the last failure. */
  lemma {:induction false} HealthMeaning(calls: seq<Call>, b: Breaker)
    requires Sane(b)
    ensures var h := AfterAll(HEALTHY, calls, b);
      && h.failures == FailuresInARow(calls)
      && (h.openUntil.Some? <==> h.failures >= b.failureThreshold)
      && (h.openUntil.Some? ==> calls != [] && h.openUntil.value == calls[|calls| - 1].later + b.cooldown)
      && (h.lastFailure == if h.failures == 0 then None else Some(calls[|calls| - 1].done))
  {
    if calls == [] {
    } else {
      HealthMeaning(calls[..|calls| - 1], b);
    }
  }

  /** Which call the breaker lets through after these: one after fewer than failureThreshold failures
      in a row, or more than a cooldown after the last of them. */
  lemma LetThroughIff(calls: seq<Call>, now: int, b: Breaker)
    requires Sane(b)
    ensures Available(AfterAll(HEALTHY, calls, b), now) <==>
      FailuresInARow(calls) < b.failureThreshold || now > calls[|calls| - 1].later + b.cooldown
  {
    HealthMeaning(calls, b);
  }

  ghost predicate AllFail(calls: seq<Call>) {
    forall i :: 0 <= i < |calls| ==> !calls[i].ok
  }

  lemma {:induction false} CountsUp(h: Health, calls: seq<Call>, b: Breaker)
    requires AllFail(calls)
    ensures AfterAll(h, calls, b).failures == h.failures + |calls|
  {
    if calls == [] {
    } else {
      CountsUp(h, calls[..|calls| - 1], b);
    }
  }

  /** Once the threshold is reached, the next call comes more than a cooldown later. */
  lemma CooldownBetween(h: Health, calls: seq<Call>, i: nat, b: Breaker)
    requires Admitted(h, calls, b) && AllFail(calls) && b.failureThreshold <= i < |calls| && i > 0
    ensures calls[i].done > calls[i - 1].done + b.cooldown
  {
    CountsUp(h, calls[..i - 1], b);
    assert calls[..i][..i - 1] == calls[..i - 1];
    assert AdmittedAt(h, calls, i, b) && AdmittedAt(h, calls, i - 1, b);
    var before := AfterAll(h, calls[..i], b);
    assert before == AfterFailure(AfterAll(h, calls[..i - 1], b), calls[i - 1].done, calls[i - 1].later, b);
    assert Available(before, calls[i].asked);
  }

  lemma OneCooldownMore(n: int, threshold: int, cooldown: int)
    ensures (n + 1 - threshold) * cooldown == (n - threshold) * cooldown + cooldown
  {
  }

  lemma NoCooldownYet(n: int, threshold: int, cooldown: nat)
    requires n <= threshold
    ensures (n - threshold) * cooldown <= 0
  {
    assert (threshold - n) * cooldown >= 0;
  }

  lemma {:induction false} Spread(h: Health, calls: seq<Call>, n: nat, b: Breaker)
    requires Admitted(h, calls, b) && AllFail(calls) && Sane(b) && 1 <= n <= |calls|
    ensures calls[n - 1].done - calls[0].done >= (n - b.failureThreshold) * b.cooldown
    ensures calls[n - 1].done >= calls[0].done
  {
    assert AdmittedAt(h, calls, n - 1, b);
    if n == 1 {
      NoCooldownYet(n, b.failureThreshold, b.cooldown);
    } else {
      Spread(h, calls, n - 1, b);
      assert AdmittedAt(h, calls, n - 2, b);
      if n - 1 >= b.failureThreshold {
        CooldownBetween(h, calls, n - 1, b);
        OneCooldownMore(n - 1, b.failureThreshold, b.cooldown);
      } else {
        NoCooldownYet(n, b.failureThreshold, b.cooldown);
      }
    }
  }

  /** The breaker bound: however the judge's calls went before, a stretch of consecutive
      failures that spans time T has at most failureThreshold + floor(T / cooldown) calls. */
  lemma FailureBound(h: Health, calls: seq<Call>, b: Breaker)
    requires Admitted(h, calls, b) && AllFail(calls) && Sane(b) && calls != []
    ensures var span := calls[|calls| - 1].done - calls[0].done;
      span >= 0 && |calls| <= b.failureThreshold + span / b.cooldown
  {
    var n := |calls|;
    Spread(h, calls, n, b);
    DivideOut(calls[n - 1].done - calls[0].done, n - b.failureThreshold, b.cooldown);
  }

  lemma DivideOut(span: int, k: int, cooldown: nat)
    requires cooldown >= 1 && span >= 0 && span >= k * cooldown
    ensures k <= span / cooldown
  {
    var q := span / cooldown;
    assert span < q * cooldown + cooldown;
    assert (k - q - 1) * cooldown == k * cooldown - q * cooldown - cooldown;
    NegativeFactor(k - q - 1, cooldown);
  }

  lemma NegativeFactor(x: int, y: int)
    requires y >= 1 && x * y < 0
    ensures x < 0
  {
  }

  lemma {:induction false} AfterAllSplit(h: Health, calls: seq<Call>, i: nat, k: nat, b: Breaker)
    requires i <= k <= |calls|
    ensures AfterAll(h, calls[..k], b) == AfterAll(AfterAll(h, calls[..i], b), calls[i..k], b)
  {
    if i == k {
      assert calls[i..k] == [];
    } else {
      AfterAllSplit(h, calls, i, k - 1, b);
      assert calls[..k][..k - 1] == calls[..k - 1];
      assert calls[i..k][..k - i - 1] == calls[i..k - 1];
    }
  }

  lemma PartAdmitted(calls: seq<Call>, i: nat, j: nat, b: Breaker)
    requires Admitted(HEALTHY, calls, b) && i <= j <= |calls|
    ensures Admitted(AfterAll(HEALTHY, calls[..i], b), calls[i..j], b)
  {
    var h, part := AfterAll(HEALTHY, calls[..i], b), calls[i..j];
    forall k | 0 <= k < |part| ensures AdmittedAt(h, part, k, b) {
      assert AdmittedAt(HEALTHY, calls, i + k, b);
      AfterAllSplit(HEALTHY, calls, i, i + k, b);
      assert part[..k] == calls[i..i + k];
    }
  }

  /** The same inside any run: between two successes, or since the last one. */
  lemma FailureBoundInRun(calls: seq<Call>, i: nat, j: nat, b: Breaker)
    requires Admitted(HEALTHY, calls, b) && Sane(b) && i < j <= |calls| && AllFail(calls[i..j])
    ensures var span := calls[j - 1].done - calls[i].done;
      span >= 0 && j - i <= b.failureThreshold + span / b.cooldown
  {
    PartAdmitted(calls, i, j, b);
    FailureBound(AfterAll(HEALTHY, calls[..i], b), calls[i..j], b);
  }

  // ---- Trying the judges in order -----------------------------------------

  /** What happens at one place of the model order if the judge there is called. */
  datatype Reply = Reply(asked: int, done: int, later: int, verdict: Option<real>)

  /** One evaluation: the order, the models that exist, are enabled and have a key, and what
      each place would reply. */
  datatype Round = Round(order: seq<string>, usable: set<string>, replies: seq<Reply>, maxAttempts: nat)

  predicate Complete(r: Round) {
    |r.replies| == |r.order|
  }

  /** The places tried, the winning one if any (the heuristic answers otherwise), and the
      health afterwards. */
  datatype Outcome = Outcome(health: Tracker, winner: Option<nat>, tried: seq<nat>)

  predicate Callable(t: Tracker, r: Round, i: nat)
    requires Complete(r) && i < |r.order|
  {
    Available(HealthOf(t, r.order[i]), r.replies[i].asked) && r.order[i] in r.usable
  }

  function Pass(t: Tracker, r: Round, i: nat, attempts: nat, b: Breaker): Outcome
    requires Complete(r) && i <= |r.order|
    decreases |r.order| - i
  {
    if i == |r.order| || attempts >= r.maxAttempts then Outcome(t, None, [])
    else if !Callable(t, r, i) then Pass(t, r, i + 1, attempts, b)
    else if r.replies[i].verdict.Some? then Outcome(OnSuccess(t, r.order[i]), Some(i), [i])
    else
      var failed := OnFailure(t, r.order[i], r.replies[i].done, r.replies[i].later, b);
      var rest := Pass(failed, r, i + 1, attempts + 1, b);
      rest.(tried := [i] + rest.tried)
  }

  ghost predicate Ascending(tried: seq<nat>, r: Round, from: nat) {
    && (forall k :: 0 <= k < |tried| ==> from <= tried[k] < |r.order| && r.order[tried[k]] in r.usable)
    && (forall k :: 0 < k < |tried| ==> tried[k - 1] < tried[k])
  }

  lemma AscendingCons(tried: seq<nat>, r: Round, i: nat)
    requires Ascending(tried, r, i + 1) && i < |r.order| && r.order[i] in r.usable
    ensures Ascending([i] + tried, r, i)
  {
    assert forall k :: 0 < k < |[i] + tried| ==> ([i] + tried)[k] == tried[k - 1];
  }

  /** Only the last place tried can have won; the rest failed. */
  ghost predicate LastDecides(tried: seq<nat>, winner: Option<nat>, r: Round) {
    && (forall k :: 0 <= k < |tried| ==> tried[k] < |r.replies|)
    && (forall k :: 0 <= k < |tried| ==> (r.replies[tried[k]].verdict.Some? <==> winner == Some(tried[k])))
    && (winner.Some? ==> tried != [] && winner.value == tried[|tried| - 1])
  }

  lemma LastDecidesCons(tried: seq<nat>, winner: Option<nat>, r: Round, i: nat)
    requires LastDecides(tried, winner, r) && i < |r.replies| && r.replies[i].verdict.None?
    requires winner != Some(i)
    ensures LastDecides([i] + tried, winner, r)
  {
    assert forall k :: 0 < k < |[i] + tried| ==> ([i] + tried)[k] == tried[k - 1];
  }

  /** The places tried come in order and are at most as many as attempts are left; only the
      last of them can have won, and everything tried before it failed. */
  lemma {:induction false} PassIsFirstSuccess(t: Tracker, r: Round, i: nat, attempts: nat, b: Breaker)
    requires Complete(r) && i <= |r.order|
    ensures var o := Pass(t, r, i, attempts, b);
      && (o.tried == [] || attempts + |o.tried| <= r.maxAttempts)
      && Ascending(o.tried, r, i)
      && LastDecides(o.tried, o.winner, r)
    decreases |r.order| - i
  {
    if i == |r.order| || attempts >= r.maxAttempts {
    } else if !Callable(t, r, i) {
      PassIsFirstSuccess(t, r, i + 1, attempts, b);
    } else if r.replies[i].verdict.None? {
      var failed := OnFailure(t, r.order[i], r.replies[i].done, r.replies[i].later, b);
      PassIsFirstSuccess(failed, r, i + 1, attempts + 1, b);
      var rest := Pass(failed, r, i + 1, attempts + 1, b);
      AscendingCons(rest.tried, r, i);
      LastDecidesCons(rest.tried, rest.winner, r, i);
    }
  }

  /** Judges that were not tried keep their health, and a winner is healthy again. */
  lemma {:induction false} PassTouchesTriedOnly(t: Tracker, r: Round, i: nat, attempts: nat, b: Breaker, judge: string)
    requires Complete(r) && i <= |r.order|
    ensures var o := Pass(t, r, i, attempts, b);
      && ((forall k :: k in o.tried ==> k < |r.order| && r.order[k] != judge) ==>
            HealthOf(o.health, judge) == HealthOf(t, judge))
      && (o.winner.Some? && o.winner.value < |r.order| && r.order[o.winner.value] == judge ==>
            HealthOf(o.health, judge) == HEALTHY)
    decreases |r.order| - i
  {
    if i == |r.order| || attempts >= r.maxAttempts {
    } else {
      if !Callable(t, r, i) {
        PassTouchesTriedOnly(t, r, i + 1, attempts, b, judge);
      } else {
        var reply := r.replies[i];
        OnlyThisJudge(t, r.order[i], reply.done, reply.later, b);
        if reply.verdict.None? {
          var failed := OnFailure(t, r.order[i], reply.done, reply.later, b);
          PassTouchesTriedOnly(failed, r, i + 1, attempts + 1, b, judge);
          var rest := Pass(failed, r, i + 1, attempts + 1, b);
          assert forall k :: k in [i] + rest.tried <==> k == i || k in rest.tried;
        }
      }
    }
  }

  class JudgeRegistry {
    const health: HealthTracker
    const maxAttempts: nat

    constructor (health: HealthTracker, maxAttempts: int)
      ensures this.health == health
      ensures this.maxAttempts == if maxAttempts <= 0 then 3 else maxAttempts
    {
      this.health := health;
      this.maxAttempts := if maxAttempts <= 0 then 3 else maxAttempts;
    }

    method Evaluate(r: Round) returns (winner: Option<nat>, attempts: nat)
      requires Complete(r) && r.maxAttempts == maxAttempts
      modifies health
      ensures var o := Pass(old(health.Now()), r, 0, 0, health.Setting());
        winner == o.winner && attempts == |o.tried| && health.Now() == o.health
    {
      ghost var expected := Pass(health.Now(), r, 0, 0, health.Setting());
      ghost var tried: seq<nat> := [];
      attempts := 0;
      for i := 0 to |r.order|
        invariant attempts == |tried|
        invariant var rest := Pass(health.Now(), r, i, attempts, health.Setting());
          expected == Outcome(rest.health, rest.winner, tried + rest.tried)
      {
        if attempts >= maxAttempts {
          break;
        }
        var judge, reply := r.order[i], r.replies[i];
        var available := health.IsAvailable(judge, reply.asked);
        if !available || judge !in r.usable {
          continue;
        }
        attempts := attempts + 1;
        if reply.verdict.Some? {
          health.RecordSuccess(judge);
          return Some(i), attempts;
        }
        tried := tried + [i];
        health.RecordFailure(judge, reply.done, reply.later);
      }
      winner := None;
    }
  }
}
