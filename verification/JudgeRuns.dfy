/**
 The attempt loop over the judges (internal/judge/registry.go) seen from one judge: which calls
 it gets in one evaluation and in a run of them, and what the circuit breaker bounds.
 */
module JudgeRuns {
  import opened Common
  import opened JudgeHealth

  /** The call made at a place of the order. */
  function CallAt(r: Round, k: nat): Call
    requires Complete(r) && k < |r.order|
  {
    var reply := r.replies[k];
    Call(reply.asked, reply.done, reply.later, reply.verdict.Some?)
  }

  /** The calls one judge got, of the places that were tried. */
  function CallsOf(tried: seq<nat>, r: Round, judge: string): (calls: seq<Call>)
    requires Complete(r)
  {
    if tried == [] then []
    else
      (if tried[0] < |r.order| && r.order[tried[0]] == judge then [CallAt(r, tried[0])] else [])
      + CallsOf(tried[1..], r, judge)
  }

  lemma CallsOfCons(i: nat, tried: seq<nat>, r: Round, judge: string)
    requires Complete(r) && i < |r.order|
    ensures CallsOf([i] + tried, r, judge)
         == (if r.order[i] == judge then [CallAt(r, i)] else []) + CallsOf(tried, r, judge)
  {
    assert ([i] + tried)[1..] == tried;
  }

  lemma AfterOne(h: Health, c: Call, calls: seq<Call>, b: Breaker)
    ensures AfterAll(h, [c] + calls, b) == AfterAll(After(h, c, b), calls, b)
  {
    var all := [c] + calls;
    AfterAllSplit(h, all, 1, |all|, b);
    assert all[..1] == [c] && all[1..|all|] == calls && all[..|all|] == all;
    assert [c][..0] == [];
    assert AfterAll(h, [c], b) == After(h, c, b);
  }

  /** One step of the loop: what it does to the health of any judge. */
  lemma TriedOnce(t: Tracker, r: Round, i: nat, tried: seq<nat>, b: Breaker, judge: string)
    requires Complete(r) && i < |r.order| && r.replies[i].verdict.None?
    ensures var failed := OnFailure(t, r.order[i], r.replies[i].done, r.replies[i].later, b);
      AfterAll(HealthOf(t, judge), CallsOf([i] + tried, r, judge), b)
        == AfterAll(HealthOf(failed, judge), CallsOf(tried, r, judge), b)
  {
    CallsOfCons(i, tried, r, judge);
    OnlyThisJudge(t, r.order[i], r.replies[i].done, r.replies[i].later, b);
    if r.order[i] == judge {
      AfterOne(HealthOf(t, judge), CallAt(r, i), CallsOf(tried, r, judge), b);
    } else {
      assert [] + CallsOf(tried, r, judge) == CallsOf(tried, r, judge);
    }
  }

  /** An evaluation moves each judge's health by the calls this judge got, in their order. */
  lemma {:induction false} PassHealth(t: Tracker, r: Round, i: nat, attempts: nat, b: Breaker, judge: string)
    requires Complete(r) && i <= |r.order|
    ensures var o := Pass(t, r, i, attempts, b);
      HealthOf(o.health, judge) == AfterAll(HealthOf(t, judge), CallsOf(o.tried, r, judge), b)
    decreases |r.order| - i
  {
    if i == |r.order| || attempts >= r.maxAttempts {
    } else if !Callable(t, r, i) {
      PassHealth(t, r, i + 1, attempts, b, judge);
    } else if r.replies[i].verdict.Some? {
      WonHealth(t, r, i, b, judge);
    } else {
      var failed := OnFailure(t, r.order[i], r.replies[i].done, r.replies[i].later, b);
      PassHealth(failed, r, i + 1, attempts + 1, b, judge);
      TriedOnce(t, r, i, Pass(failed, r, i + 1, attempts + 1, b).tried, b, judge);
    }
  }

  lemma WonHealth(t: Tracker, r: Round, i: nat, b: Breaker, judge: string)
    requires Complete(r) && i < |r.order| && r.replies[i].verdict.Some?
    ensures HealthOf(OnSuccess(t, r.order[i]), judge) == AfterAll(HealthOf(t, judge), CallsOf([i], r, judge), b)
  {
    assert [i] + [] == [i];
    CallsOfCons(i, [], r, judge);
    OnlyThisJudge(t, r.order[i], 0, 0, b);
    if r.order[i] == judge {
      assert CallsOf([i], r, judge) == [CallAt(r, i)];
      AfterOne(HealthOf(t, judge), CallAt(r, i), [], b);
      assert [CallAt(r, i)] + [] == [CallAt(r, i)];
    }
  }

  // ---- Nobody is passed over ----------------------------------------------

  /** The places tried before `p`. */
  function Before(tried: seq<nat>, p: nat): seq<nat> {
    if tried == [] || tried[0] >= p then [] else [tried[0]] + Before(tried[1..], p)
  }

  /** Whether the judge at a place can be called after its calls at earlier places. */
  ghost predicate StillCallable(t: Tracker, r: Round, tried: seq<nat>, b: Breaker, p: nat)
    requires Complete(r) && p < |r.order|
  {
    var judge := r.order[p];
    && judge in r.usable
    && Available(AfterAll(HealthOf(t, judge), CallsOf(Before(tried, p), r, judge), b), r.replies[p].asked)
  }

  lemma NothingBefore(t: Tracker, r: Round, tried: seq<nat>, b: Breaker, p: nat)
    requires Complete(r) && p < |r.order| && (tried == [] || tried[0] >= p)
    ensures StillCallable(t, r, tried, b, p) <==> Callable(t, r, p)
  {
  }

  lemma OneMoreBefore(t: Tracker, r: Round, i: nat, tried: seq<nat>, b: Breaker, p: nat)
    requires Complete(r) && i < p < |r.order| && r.replies[i].verdict.None?
    ensures var failed := OnFailure(t, r.order[i], r.replies[i].done, r.replies[i].later, b);
      StillCallable(t, r, [i] + tried, b, p) <==> StillCallable(failed, r, tried, b, p)
  {
    assert ([i] + tried)[1..] == tried;
    TriedOnce(t, r, i, Before(tried, p), b, r.order[p]);
  }

  /** Up to the winner or to the last attempt, a place is tried exactly when its judge is usable
      and available after what its own earlier calls in this evaluation did to it, however often
      it is listed: nobody who could have answered is passed over. */
  lemma {:induction false} PassSkipsNobody(t: Tracker, r: Round, i: nat, attempts: nat, b: Breaker, p: nat)
    requires Complete(r) && i <= p < |r.order|
    requires var o := Pass(t, r, i, attempts, b);
      if o.winner.Some? then p <= o.winner.value else attempts + |o.tried| < r.maxAttempts
    ensures var tried := Pass(t, r, i, attempts, b).tried;
      p in tried <==> StillCallable(t, r, tried, b, p)
    decreases |r.order| - i
  {
    PassIsFirstSuccess(t, r, i, attempts, b);
    var tried := Pass(t, r, i, attempts, b).tried;
    if attempts >= r.maxAttempts {
    } else if !Callable(t, r, i) {
      PassIsFirstSuccess(t, r, i + 1, attempts, b);
      if p > i {
        PassSkipsNobody(t, r, i + 1, attempts, b, p);
      } else {
        NothingBefore(t, r, tried, b, p);
      }
    } else if r.replies[i].verdict.Some? {
      NothingBefore(t, r, tried, b, p);
    } else if p == i {
      assert tried[0] == i;
      NothingBefore(t, r, tried, b, p);
    } else {
      var failed := OnFailure(t, r.order[i], r.replies[i].done, r.replies[i].later, b);
      var rest := Pass(failed, r, i + 1, attempts + 1, b).tried;
      PassSkipsNobody(failed, r, i + 1, attempts + 1, b, p);
      OneMoreBefore(t, r, i, rest, b, p);
      assert p in [i] + rest <==> p in rest;
    }
  }

  // ---- The breaker lets every call through --------------------------------

  /** The places take their turns between the two clock readings; one that is not called takes
      no time. */
  ghost predicate OnTime(r: Round, from: int, to: int) {
    && Complete(r)
    && (forall k :: 0 <= k < |r.replies| ==>
          from <= r.replies[k].asked <= r.replies[k].done <= r.replies[k].later <= to)
    && (forall j, k :: 0 <= j < k < |r.replies| ==> r.replies[j].later <= r.replies[k].asked)
  }

  ghost predicate Within(calls: seq<Call>, from: int, to: int) {
    forall k :: 0 <= k < |calls| ==> from <= calls[k].asked && calls[k].later <= to
  }

  lemma AdmittedAppend(h: Health, first: seq<Call>, second: seq<Call>, b: Breaker)
    requires Admitted(h, first, b) && Admitted(AfterAll(h, first, b), second, b)
    requires first != [] && second != [] ==> first[|first| - 1].later <= second[0].asked
    ensures Admitted(h, first + second, b)
  {
    var all, n := first + second, |first|;
    forall i | 0 <= i < |all| ensures AdmittedAt(h, all, i, b) {
      if i < n {
        assert AdmittedAt(h, first, i, b);
        assert all[..i] == first[..i];
      } else {
        assert AdmittedAt(AfterAll(h, first, b), second, i - n, b);
        AfterAllSplit(h, all, n, i, b);
        assert all[..n] == first && all[n..i] == second[..i - n];
      }
    }
  }

  lemma OneAdmitted(h: Health, c: Call, b: Breaker)
    requires c.asked <= c.done <= c.later && Available(h, c.asked)
    ensures Admitted(h, [c], b)
  {
    assert [c][..0] == [];
    assert AdmittedAt(h, [c], 0, b);
  }

  /** The calls of a failed attempt and of the rest of the loop. */
  lemma AttemptAdmitted(t: Tracker, r: Round, i: nat, tried: seq<nat>, b: Breaker, judge: string, from: int, to: int)
    requires OnTime(r, from, to) && i < |r.order| && Callable(t, r, i) && r.replies[i].verdict.None?
    requires var failed := OnFailure(t, r.order[i], r.replies[i].done, r.replies[i].later, b);
      Admitted(HealthOf(failed, judge), CallsOf(tried, r, judge), b)
    requires Within(CallsOf(tried, r, judge), r.replies[i].later, to)
    ensures Admitted(HealthOf(t, judge), CallsOf([i] + tried, r, judge), b)
  {
    var c, calls := CallAt(r, i), CallsOf(tried, r, judge);
    CallsOfCons(i, tried, r, judge);
    OnlyThisJudge(t, r.order[i], c.done, c.later, b);
    if r.order[i] == judge {
      OneAdmitted(HealthOf(t, judge), c, b);
      AfterOne(HealthOf(t, judge), c, [], b);
      assert [c] + [] == [c];
      AdmittedAppend(HealthOf(t, judge), [c], calls, b);
    } else {
      assert [] + calls == calls;
    }
  }

  lemma {:induction false} CallsWithin(tried: seq<nat>, r: Round, judge: string, from: int, to: int)
    requires Complete(r)
    requires forall k :: 0 <= k < |tried| ==>
      tried[k] < |r.order| && from <= r.replies[tried[k]].asked && r.replies[tried[k]].later <= to
    ensures Within(CallsOf(tried, r, judge), from, to)
  {
    if tried == [] {
    } else {
      CallsWithin(tried[1..], r, judge, from, to);
    }
  }

  /** The breaker lets through every call the loop makes, for each judge. */
  lemma {:induction false} PassAdmitted(
    t: Tracker, r: Round, i: nat, attempts: nat, b: Breaker, judge: string, from: int, to: int)
    requires OnTime(r, from, to) && i <= |r.order|
    ensures Admitted(HealthOf(t, judge), CallsOf(Pass(t, r, i, attempts, b).tried, r, judge), b)
    decreases |r.order| - i
  {
    if i == |r.order| || attempts >= r.maxAttempts {
    } else if !Callable(t, r, i) {
      PassAdmitted(t, r, i + 1, attempts, b, judge, from, to);
    } else if r.replies[i].verdict.Some? {
      WonAdmitted(t, r, i, b, judge, from, to);
    } else {
      var failed := OnFailure(t, r.order[i], r.replies[i].done, r.replies[i].later, b);
      var rest := Pass(failed, r, i + 1, attempts + 1, b).tried;
      PassAdmitted(failed, r, i + 1, attempts + 1, b, judge, from, to);
      PassIsFirstSuccess(failed, r, i + 1, attempts + 1, b);
      CallsWithin(rest, r, judge, r.replies[i].later, to);
      AttemptAdmitted(t, r, i, rest, b, judge, from, to);
    }
  }

  lemma WonAdmitted(t: Tracker, r: Round, i: nat, b: Breaker, judge: string, from: int, to: int)
    requires OnTime(r, from, to) && i < |r.order| && Callable(t, r, i)
    ensures Admitted(HealthOf(t, judge), CallsOf([i], r, judge), b)
  {
    assert [i] + [] == [i];
    CallsOfCons(i, [], r, judge);
    if r.order[i] == judge {
      OneAdmitted(HealthOf(t, judge), CallAt(r, i), b);
      assert CallsOf([i], r, judge) == [CallAt(r, i)];
    }
  }

  // ---- Runs of evaluations ------------------------------------------------

  ghost predicate AllComplete(rounds: seq<Round>) {
    forall k :: 0 <= k < |rounds| ==> Complete(rounds[k])
  }

  ghost function PassAll(t: Tracker, rounds: seq<Round>, b: Breaker): Tracker
    requires AllComplete(rounds)
  {
    if rounds == [] then t
    else Pass(PassAll(t, rounds[..|rounds| - 1], b), rounds[|rounds| - 1], 0, 0, b).health
  }

  /** The calls one judge gets in a run of evaluations. */
  ghost function CallsIn(t: Tracker, rounds: seq<Round>, b: Breaker, judge: string): seq<Call>
    requires AllComplete(rounds)
  {
    if rounds == [] then []
    else
      var init, last := rounds[..|rounds| - 1], rounds[|rounds| - 1];
      CallsIn(t, init, b, judge) + CallsOf(Pass(PassAll(t, init, b), last, 0, 0, b).tried, last, judge)
  }

  /** One evaluation after the other: the k-th between the k-th and the next clock reading. */
  ghost predicate InTurn(rounds: seq<Round>, clock: seq<int>) {
    && |clock| == |rounds| + 1
    && (forall k :: 0 <= k < |rounds| ==> clock[k] <= clock[k + 1] && OnTime(rounds[k], clock[k], clock[k + 1]))
  }

  lemma InTurnInit(rounds: seq<Round>, clock: seq<int>)
    requires InTurn(rounds, clock) && rounds != []
    ensures InTurn(rounds[..|rounds| - 1], clock[..|rounds|])
  {
  }

  lemma AfterAppend(h: Health, first: seq<Call>, second: seq<Call>, b: Breaker)
    ensures AfterAll(h, first + second, b) == AfterAll(AfterAll(h, first, b), second, b)
  {
    var all := first + second;
    AfterAllSplit(h, all, |first|, |all|, b);
    assert all[..|first|] == first && all[|first|..|all|] == second && all[..|all|] == all;
  }

  /** What the run so far gave a judge, and the next evaluation. */
  lemma RoundAppends(h: Health, calls: seq<Call>, t: Tracker, r: Round, b: Breaker, judge: string, from: int, to: int)
    requires Admitted(h, calls, b) && HealthOf(t, judge) == AfterAll(h, calls, b)
    requires (forall k :: 0 <= k < |calls| ==> calls[k].later <= from) && from <= to && OnTime(r, from, to)
    ensures var o := Pass(t, r, 0, 0, b);
      var more := calls + CallsOf(o.tried, r, judge);
      && Admitted(h, more, b) && HealthOf(o.health, judge) == AfterAll(h, more, b)
      && (forall k :: 0 <= k < |more| ==> more[k].later <= to)
  {
    var o := Pass(t, r, 0, 0, b);
    var second := CallsOf(o.tried, r, judge);
    PassHealth(t, r, 0, 0, b, judge);
    PassAdmitted(t, r, 0, 0, b, judge, from, to);
    PassIsFirstSuccess(t, r, 0, 0, b);
    CallsWithin(o.tried, r, judge, from, to);
    AdmittedAppend(h, calls, second, b);
    AfterAppend(h, calls, second, b);
  }

  /** In any run of evaluations each judge's health is what its own calls made of it, and the
      breaker let every one of them through. */
  lemma {:induction false} RunAdmitted(t: Tracker, rounds: seq<Round>, clock: seq<int>, b: Breaker, judge: string)
    requires InTurn(rounds, clock) && AllComplete(rounds)
    ensures var calls := CallsIn(t, rounds, b, judge);
      && Admitted(HealthOf(t, judge), calls, b)
      && HealthOf(PassAll(t, rounds, b), judge) == AfterAll(HealthOf(t, judge), calls, b)
      && (forall k :: 0 <= k < |calls| ==> calls[k].later <= clock[|rounds|])
  {
    if rounds == [] {
    } else {
      var n := |rounds| - 1;
      InTurnInit(rounds, clock);
      RunAdmitted(t, rounds[..n], clock[..n + 1], b, judge);
      RoundAppends(HealthOf(t, judge), CallsIn(t, rounds[..n], b, judge), PassAll(t, rounds[..n], b), rounds[n], b, judge,
                   clock[n], clock[n + 1]);
    }
  }

  /** The breaker bound for the attempt loop: from a new tracker, whatever the judges reply and
      whichever judges are usable, a stretch of failures of one judge that spans time T has at
      most failureThreshold + floor(T / cooldown) calls. */
  lemma EvaluationsBound(rounds: seq<Round>, clock: seq<int>, b: Breaker, judge: string, i: nat, j: nat)
    requires InTurn(rounds, clock) && AllComplete(rounds) && Sane(b)
    requires var calls := CallsIn(Tracker(map[], map[], map[]), rounds, b, judge);
      i < j <= |calls| && AllFail(calls[i..j])
    ensures var calls := CallsIn(Tracker(map[], map[], map[]), rounds, b, judge);
      var span := calls[j - 1].done - calls[i].done;
      span >= 0 && j - i <= b.failureThreshold + span / b.cooldown
  {
    var empty := Tracker(map[], map[], map[]);
    RunAdmitted(empty, rounds, clock, b, judge);
    FailureBoundInRun(CallsIn(empty, rounds, b, judge), i, j, b);
  }
}
