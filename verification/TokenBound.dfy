/**
 What the token limits of the rate limiter (internal/rate/limiter.go) bound: checks look at the
 tokens recorded so far, so the newest records of a window may come on top of the limit.
 */
module TokenBound {
  import opened Common
  import opened RateLimiter

  /** The records in the closed window from `a` to `a + span`. */
  function Closed(history: seq<Event>, a: int, span: int): seq<Event> {
    if history == [] then []
    else
      var last := history[|history| - 1];
      Closed(history[..|history| - 1], a, span) + (if a <= last.at <= a + span then [last] else [])
  }

  function ButLast(events: seq<Event>, k: nat): seq<Event> {
    if k <= |events| then events[..|events| - k] else []
  }

  /** All but the newest `k` records together are below the cap. */
  predicate Spent(events: seq<Event>, cap: int, k: nat) {
    ButLast(events, k) == [] || Tokens(ButLast(events, k)) < cap
  }

  /** No record has a negative count. */
  ghost predicate Counted(events: seq<Event>) {
    forall i :: 0 <= i < |events| ==> events[i].tokens >= 0
  }

  lemma {:induction false} TokensPrefix(events: seq<Event>, n: nat)
    requires Counted(events) && n <= |events|
    ensures 0 <= Tokens(events[..n]) <= Tokens(events)
  {
    if events == [] {
    } else if n == |events| {
      assert events[..n] == events;
      TokensPrefix(events[..n - 1], n - 1);
      assert events[..n - 1][..n - 1] == events[..n - 1];
    } else {
      var m := |events| - 1;
      TokensPrefix(events[..m], n);
      assert events[..m][..n] == events[..n];
    }
  }

  lemma SpentMore(events: seq<Event>, cap: int, k: nat, m: nat)
    requires Counted(events) && Spent(events, cap, k) && k <= m
    ensures Spent(events, cap, m)
  {
    if m <= |events| {
      var part := ButLast(events, k);
      TokensPrefix(part, |events| - m);
      assert part[..|events| - m] == events[..|events| - m];
    }
  }

  lemma SpentOneMore(events: seq<Event>, e: Event, cap: int, k: nat)
    requires Spent(events, cap, k)
    ensures Spent(events + [e], cap, k + 1)
  {
    if k + 1 <= |events| + 1 {
      assert (events + [e])[..|events| - k] == events[..|events| - k];
    }
  }

  lemma SpentBelow(events: seq<Event>, cap: int, k: nat)
    requires Counted(events) && Tokens(events) < cap
    ensures Spent(events, cap, k)
  {
    if k <= |events| {
      TokensPrefix(events, |events| - k);
    }
  }

  lemma SinceSnoc(history: seq<Event>, e: Event, a: int)
    ensures Since(history + [e], a) == Since(history, a) + (if e.at >= a then [e] else [])
  {
    assert (history + [e])[..|history|] == history;
  }

  lemma ClosedSnoc(history: seq<Event>, e: Event, a: int, span: int)
    ensures Closed(history + [e], a, span) == Closed(history, a, span) + (if a <= e.at <= a + span then [e] else [])
  {
    assert (history + [e])[..|history|] == history;
  }

  lemma {:induction false} SinceCounted(history: seq<Event>, a: int)
    requires Counted(history)
    ensures Counted(Since(history, a))
  {
    if history == [] {
    } else {
      SinceCounted(history[..|history| - 1], a);
    }
  }

  lemma {:induction false} LaterIsLess(history: seq<Event>, early: int, late: int)
    requires Counted(history) && early <= late
    ensures Tokens(Since(history, late)) <= Tokens(Since(history, early))
  {
    if history == [] {
    } else {
      var init, last := history[..|history| - 1], history[|history| - 1];
      assert history == init + [last];
      LaterIsLess(init, early, late);
      SinceTokens(init, last, early);
      SinceTokens(init, last, late);
    }
  }

  lemma SinceTokens(init: seq<Event>, last: Event, a: int)
    ensures Tokens(Since(init + [last], a)) == Tokens(Since(init, a)) + (if last.at >= a then last.tokens else 0)
  {
    SinceSnoc(init, last, a);
    if last.at >= a {
      assert (Since(init, a) + [last])[..|Since(init, a)|] == Since(init, a);
    } else {
      assert Since(init, a) + [] == Since(init, a);
    }
  }

  ghost predicate Past(history: seq<Event>, clock: int) {
    forall i :: 0 <= i < |history| ==> history[i].at <= clock
  }

  /** A window that is still open ends with the history. */
  lemma {:induction false} OpenWindow(history: seq<Event>, a: int, span: int)
    requires Past(history, a + span)
    ensures Closed(history, a, span) == Since(history, a)
  {
    if history == [] {
    } else {
      OpenWindow(history[..|history| - 1], a, span);
    }
  }

  /** The token cap that applies to a span. */
  ghost predicate TokenCap(s: Setup, span: int, cap: int) {
    s.atOnce >= 1 && ((span == MINUTE && s.caps.tpm == Some(cap)) || (span == DAY && s.caps.tpd == Some(cap)))
  }

  /** What the latest passing check guarantees about every window that is still open. */
  ghost predicate OpenSpent(history: seq<Event>, from: int, cap: int, k: nat) {
    forall a :: a >= from ==> Spent(Since(history, a), cap, k)
  }

  /** And what holds of every window. */
  ghost predicate ClosedSpent(history: seq<Event>, span: int, cap: int, k: nat) {
    forall a :: Spent(Closed(history, a, span), cap, k)
  }

  ghost predicate Charged(f: Flow, span: int, cap: int, k: nat) {
    && f.lastPass <= f.clock && f.inFlight <= k && Counted(f.history) && Past(f.history, f.clock)
    && OpenSpent(f.history, f.lastPass - span, cap, k - f.inFlight)
    && ClosedSpent(f.history, span, cap, k)
  }

  lemma PassedTokens(u: Usage, caps: Caps, estimate: int, cap: int)
    requires Decide(u, caps, estimate).Allowed?
    ensures caps.tpm == Some(cap) ==> u.tokensLastMinute < cap
    ensures caps.tpd == Some(cap) ==> u.tokensLastDay < cap
  {
  }

  lemma OpenFromPass(h: seq<Event>, from: int, cap: int, k: nat)
    requires Counted(h) && Tokens(Since(h, from)) < cap
    ensures OpenSpent(h, from, cap, k)
  {
    forall a | a >= from ensures Spent(Since(h, a), cap, k) {
      LaterIsLess(h, from, a);
      SinceCounted(h, a);
      SpentBelow(Since(h, a), cap, k);
    }
  }

  lemma PassCharges(f: Flow, at: int, span: int, cap: int, k: nat)
    requires Charged(f, span, cap, k) && f.inFlight < k && f.clock <= at && Tokens(Since(f.history, at - span)) < cap
    ensures Charged(Flow(f.history, f.inFlight + 1, at, at), span, cap, k)
  {
    OpenFromPass(f.history, at - span, cap, k - (f.inFlight + 1));
  }

  lemma SpanTokens(h: seq<Event>, at: int, estimate: int, s: Setup, span: int, cap: int)
    requires TokenCap(s, span, cap) && Decide(UsageAt(h, at), s.caps, estimate).Allowed?
    ensures Tokens(Since(h, at - span)) < cap
  {
    PassedTokens(UsageAt(h, at), s.caps, estimate, cap);
  }

  lemma AskOutcome(f: Flow, at: int, span: int, cap: int, k: nat, passes: bool, g: Flow)
    requires Charged(f, span, cap, k) && f.clock <= at
    requires passes ==> f.inFlight < k && Tokens(Since(f.history, at - span)) < cap
    requires g == if passes then Flow(f.history, f.inFlight + 1, at, at) else f.(clock := at)
    ensures Charged(g, span, cap, k)
  {
    if passes {
      PassCharges(f, at, span, cap, k);
    }
  }

  lemma AskCharges(f: Flow, at: int, estimate: int, s: Setup, span: int, cap: int)
    requires TokenCap(s, span, cap) && Charged(f, span, cap, s.atOnce) && f.clock <= at
    ensures Charged(Step(f, Ask(at, estimate), s), span, cap, s.atOnce)
  {
    var passes := f.inFlight < s.atOnce && Decide(UsageAt(f.history, at), s.caps, estimate).Allowed?;
    if passes {
      SpanTokens(f.history, at, estimate, s, span, cap);
    }
    AskOutcome(f, at, span, cap, s.atOnce, passes, Step(f, Ask(at, estimate), s));
  }

  lemma OpenAfter(h: seq<Event>, e: Event, from: int, cap: int, k: nat)
    requires OpenSpent(h, from, cap, k) && Counted(h)
    ensures OpenSpent(h + [e], from, cap, k + 1)
  {
    forall a | a >= from ensures Spent(Since(h + [e], a), cap, k + 1) {
      assert Spent(Since(h, a), cap, k);
      SinceSnoc(h, e, a);
      if e.at >= a {
        SpentOneMore(Since(h, a), e, cap, k);
      } else {
        SinceCounted(h, a);
        SpentMore(Since(h, a), cap, k, k + 1);
        assert Since(h, a) + [] == Since(h, a);
      }
    }
  }

  lemma ClosedAfter(h: seq<Event>, e: Event, from: int, span: int, cap: int, open: nat, k: nat)
    requires ClosedSpent(h, span, cap, k) && OpenSpent(h + [e], from, cap, open) && open <= k
    requires Counted(h + [e]) && Past(h + [e], e.at) && from + span <= e.at
    ensures ClosedSpent(h + [e], span, cap, k)
  {
    forall a ensures Spent(Closed(h + [e], a, span), cap, k) {
      ClosedSnoc(h, e, a, span);
      if a <= e.at <= a + span {
        OpenWindow(h + [e], a, span);
        assert Spent(Since(h + [e], a), cap, open);
        SinceCounted(h + [e], a);
        SpentMore(Since(h + [e], a), cap, open, k);
      } else {
        assert Closed(h, a, span) + [] == Closed(h, a, span);
        assert Spent(Closed(h, a, span), cap, k);
      }
    }
  }

  lemma FinishCharges(f: Flow, e: Event, span: int, cap: int, k: nat)
    requires Charged(f, span, cap, k) && f.inFlight > 0 && f.clock <= e.at && e.tokens >= 0
    ensures Charged(Flow(f.history + [e], f.inFlight - 1, e.at, f.lastPass), span, cap, k)
  {
    OpenAfter(f.history, e, f.lastPass - span, cap, k - f.inFlight);
    ClosedAfter(f.history, e, f.lastPass - span, span, cap, k - f.inFlight + 1, k);
  }

  lemma GiveUpCharges(f: Flow, at: int, span: int, cap: int, k: nat)
    requires Charged(f, span, cap, k) && f.inFlight > 0 && f.clock <= at
    ensures Charged(Flow(f.history, f.inFlight - 1, at, f.lastPass), span, cap, k)
  {
    forall a | a >= f.lastPass - span ensures Spent(Since(f.history, a), cap, k - f.inFlight + 1) {
      assert Spent(Since(f.history, a), cap, k - f.inFlight);
      SinceCounted(f.history, a);
      SpentMore(Since(f.history, a), cap, k - f.inFlight, k - f.inFlight + 1);
    }
  }

  lemma StepCharges(f: Flow, op: Op, s: Setup, span: int, cap: int)
    requires TokenCap(s, span, cap) && Charged(f, span, cap, s.atOnce) && (op.Finish? ==> op.tokens >= 0)
    ensures Charged(Step(f, op, s), span, cap, s.atOnce)
  {
    if op.at >= f.clock {
      match op
      case Ask(at, estimate) => AskCharges(f, at, estimate, s, span, cap);
      case Finish(at, tokens) =>
        if f.inFlight > 0 {
          FinishCharges(f, Event(at, tokens), span, cap, s.atOnce);
        }
      case GiveUp(at) =>
        if f.inFlight > 0 {
          GiveUpCharges(f, at, span, cap, s.atOnce);
        }
    }
  }

  ghost predicate Reported(ops: seq<Op>) {
    forall i :: 0 <= i < |ops| && ops[i].Finish? ==> ops[i].tokens >= 0
  }

  lemma {:induction false} RunCharges(ops: seq<Op>, s: Setup, span: int, cap: int)
    requires TokenCap(s, span, cap) && Reported(ops)
    ensures Charged(Run(ops, s), span, cap, s.atOnce)
  {
    if ops == [] {
    } else {
      RunCharges(ops[..|ops| - 1], s, span, cap);
      StepCharges(Run(ops[..|ops| - 1], s), ops[|ops| - 1], s, span, cap);
    }
  }

  /** With at most k requests between their passing check and their record, the tokens recorded in
      any closed minute, but for its newest k records, are below the cap, and so for the day. */
  lemma ConcurrentTokenBound(ops: seq<Op>, limits: Limits, margin: real, atOnce: nat, a: int)
    requires atOnce >= 1 && Reported(ops)
    ensures var h := Run(ops, Setup(CapsOf(limits, margin), atOnce)).history;
      && (limits.tpm > 0 ==> Spent(Closed(h, a, MINUTE), Cap(limits.tpm, margin), atOnce))
      && (limits.tpd > 0 ==> Spent(Closed(h, a, DAY), Cap(limits.tpd, margin), atOnce))
  {
    var s := Setup(CapsOf(limits, margin), atOnce);
    if limits.tpm > 0 {
      RunCharges(ops, s, MINUTE, Cap(limits.tpm, margin));
    }
    if limits.tpd > 0 {
      RunCharges(ops, s, DAY, Cap(limits.tpd, margin));
    }
  }

  /** All but the newest `k` records of a closed window take less than the scaled limit. */
  ghost predicate TokensWithin(history: seq<Event>, a: int, span: int, limit: int, margin: real, k: nat) {
    var early := ButLast(Closed(history, a, span), k);
    limit > 0 && early != [] ==> Tokens(early) as real + 1.0 <= limit as real * margin
  }

  lemma SpentMeaning(history: seq<Event>, a: int, span: int, limit: int, margin: real, k: nat)
    requires limit > 0 ==> Spent(Closed(history, a, span), Cap(limit, margin), k)
    ensures TokensWithin(history, a, span, limit, margin, k)
  {
    CapMeaning(limit, margin, Tokens(ButLast(Closed(history, a, span), k)));
  }

  /** The same in the configured numbers. */
  lemma ConcurrentTokensInNumbers(ops: seq<Op>, limits: Limits, margin: real, atOnce: nat, a: int)
    requires atOnce >= 1 && Reported(ops)
    ensures var h := Run(ops, Setup(CapsOf(limits, margin), atOnce)).history;
      && TokensWithin(h, a, 60_000_000_000, limits.tpm, margin, atOnce)
      && TokensWithin(h, a, 86_400_000_000_000, limits.tpd, margin, atOnce)
  {
    var h := Run(ops, Setup(CapsOf(limits, margin), atOnce)).history;
    ConcurrentTokenBound(ops, limits, margin, atOnce, a);
    SpentMeaning(h, a, MINUTE, limits.tpm, margin, atOnce);
    SpentMeaning(h, a, DAY, limits.tpd, margin, atOnce);
  }

  function Times(n: nat, most: nat): nat {
    if n == 0 then 0 else Times(n - 1, most) + most
  }

  lemma {:induction false} TimesIs(n: nat, most: nat)
    ensures Times(n, most) == n * most
  {
    if n == 0 {
    } else {
      TimesIs(n - 1, most);
      assert (n - 1) * most + most == n * most;
    }
  }

  lemma {:induction false} TimesMonotone(n: nat, m: nat, most: nat)
    requires n <= m
    ensures Times(n, most) <= Times(m, most)
  {
    if n == m {
    } else {
      TimesMonotone(n, m - 1, most);
    }
  }

  lemma {:induction false} TokensOfFew(events: seq<Event>, n: nat, most: nat)
    requires n <= |events| && forall i :: n <= i < |events| ==> events[i].tokens <= most
    ensures Tokens(events) <= Tokens(events[..n]) + Times(|events| - n, most)
  {
    if n == |events| {
      assert events[..n] == events;
    } else {
      var m := |events| - 1;
      TokensOfFew(events[..m], n, most);
      assert events[..m][..n] == events[..n];
    }
  }

  lemma EarlyTokens(events: seq<Event>, cap: nat, k: nat)
    requires Spent(events, cap, k)
    ensures Tokens(ButLast(events, k)) <= if cap == 0 then 0 else cap - 1
  {
  }

  lemma LateTokens(events: seq<Event>, k: nat, most: nat)
    requires forall i :: 0 <= i < |events| ==> events[i].tokens <= most
    ensures Tokens(events) <= Tokens(ButLast(events, k)) + Times(k, most)
  {
    var n := |ButLast(events, k)|;
    TokensOfFew(events, n, most);
    assert events[..n] == ButLast(events, k);
    TimesMonotone(|events| - n, k, most);
  }

  /** When no record has more than `most` tokens, the overshoot is at most k times that. */
  lemma TokenOvershoot(events: seq<Event>, cap: nat, k: nat, most: nat)
    requires Spent(events, cap, k) && forall i :: 0 <= i < |events| ==> events[i].tokens <= most
    ensures Tokens(events) <= (if cap == 0 then 0 else cap - 1) + k * most
  {
    EarlyTokens(events, cap, k);
    LateTokens(events, k, most);
    TimesIs(k, most);
  }

  ghost predicate EachAtMost(events: seq<Event>, most: nat) {
    forall i :: 0 <= i < |events| ==> events[i].tokens <= most
  }

  lemma {:induction false} ClosedTokens(history: seq<Event>, a: int, span: int, most: nat)
    requires EachAtMost(history, most)
    ensures EachAtMost(Closed(history, a, span), most)
  {
    if history == [] {
    } else {
      ClosedTokens(history[..|history| - 1], a, span, most);
    }
  }

  lemma AddUp(total: int, early: int, late: int, scaled: real)
    requires total <= early + late && (early == 0 || early as real + 1.0 <= scaled)
    ensures total as real <= (if scaled < 1.0 then 0.0 else scaled - 1.0) + late as real
  {
  }

  /** And in the configured numbers: the scaled limit less one, and k records. */
  lemma OvershootInNumbers(history: seq<Event>, a: int, span: int, limit: int, margin: real, k: nat, most: nat)
    requires limit > 0 && TokensWithin(history, a, span, limit, margin, k) && EachAtMost(history, most)
    ensures var scaled := limit as real * margin;
      Tokens(Closed(history, a, span)) as real <= (if scaled < 1.0 then 0.0 else scaled - 1.0) + (k * most) as real
  {
    var events := Closed(history, a, span);
    ClosedTokens(history, a, span, most);
    LateTokens(events, k, most);
    TimesIs(k, most);
    AddUp(Tokens(events), Tokens(ButLast(events, k)), k * most, limit as real * margin);
  }
}
