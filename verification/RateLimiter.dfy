/**
 The sliding-window rate limiter (internal/rate/limiter.go): two logs per model, trimmed in
 place, that have to agree with filtering everything ever recorded. Times are nanoseconds of
 a clock that never goes back; each call takes the reading it makes as a parameter.
 */
module RateLimiter {
  import opened Common

  const MINUTE: int := 60_000_000_000
  const DAY: int := 1440 * MINUTE

  datatype Event = Event(at: int, tokens: int)

  datatype Usage = Usage(requestsLastMinute: nat, tokensLastMinute: int, requestsLastDay: nat, tokensLastDay: int)

  /** A limit of zero or less is no limit. */
  datatype Limits = Limits(rpm: int, tpm: int, rpd: int, tpd: int)

  datatype Verdict = Allowed | RpmLimit | TpmLimit | RpdLimit | TpdLimit | ProjectedTpm

  ghost predicate Sorted(events: seq<Event>) {
    forall i, j :: 0 <= i < j < |events| ==> events[i].at <= events[j].at
  }

  /** The plain meaning of a window: everything at or after the cutoff. */
  function Since(events: seq<Event>, cutoff: int): seq<Event> {
    if events == [] then []
    else
      var last := events[|events| - 1];
      Since(events[..|events| - 1], cutoff) + (if last.at >= cutoff then [last] else [])
  }

  function Tokens(events: seq<Event>): int {
    if events == [] then 0 else Tokens(events[..|events| - 1]) + events[|events| - 1].tokens
  }

  /** Usage as a fact about the whole history, not about any log. */
  function UsageAt(history: seq<Event>, now: int): Usage {
    var minute, day := Since(history, now - MINUTE), Since(history, now - DAY);
    Usage(|minute|, Tokens(minute), |day|, Tokens(day))
  }

  /** A limit scaled by the safety margin and truncated. */
  function Cap(limit: int, margin: real): int {
    (limit as real * margin).Floor
  }

  /** The limits as the checks apply them. */
  datatype Caps = Caps(rpm: Option<int>, tpm: Option<int>, rpd: Option<int>, tpd: Option<int>)

  function CapsOf(l: Limits, margin: real): Caps {
    Caps(if l.rpm > 0 then Some(Cap(l.rpm, margin)) else None,
         if l.tpm > 0 then Some(Cap(l.tpm, margin)) else None,
         if l.rpd > 0 then Some(Cap(l.rpd, margin)) else None,
         if l.tpd > 0 then Some(Cap(l.tpd, margin)) else None)
  }

  predicate Reached(amount: int, cap: Option<int>) {
    cap.Some? && amount >= cap.value
  }

  /** The first limit that stands in the way of one more request of `estimate` tokens. */
  function Decide(u: Usage, caps: Caps, estimate: int): Verdict {
    if Reached(u.requestsLastMinute, caps.rpm) then RpmLimit
    else if Reached(u.tokensLastMinute, caps.tpm) then TpmLimit
    else if Reached(u.requestsLastDay, caps.rpd) then RpdLimit
    else if Reached(u.tokensLastDay, caps.tpd) then TpdLimit
    else if estimate > 0 && Reached(u.tokensLastMinute + estimate, caps.tpm) then ProjectedTpm
    else Allowed
  }

  /** The limit, scaled by the margin, has room for one more. */
  predicate Free(limit: int, margin: real, amount: int) {
    limit <= 0 || amount as real + 1.0 <= limit as real * margin
  }

  /** Room in all four limits, over the last minute and the last day, and for the tokens the
      request itself is expected to take. */
  predicate Admits(history: seq<Event>, now: int, l: Limits, margin: real, estimate: int) {
    var minute, day := Since(history, now - 60_000_000_000), Since(history, now - 86_400_000_000_000);
    && Free(l.rpm, margin, |minute|) && Free(l.tpm, margin, Tokens(minute))
    && Free(l.rpd, margin, |day|) && Free(l.tpd, margin, Tokens(day))
    && (estimate > 0 ==> Free(l.tpm, margin, Tokens(minute) + estimate))
  }

  /** A cap is reached exactly when one more would pass the scaled limit. */
  lemma CapMeaning(limit: int, margin: real, amount: int)
    ensures amount >= Cap(limit, margin) <==> amount as real + 1.0 > limit as real * margin
  {
    var scaled := limit as real * margin;
    assert scaled.Floor as real <= scaled < scaled.Floor as real + 1.0;
  }

  lemma ReachedMeaning(l: Limits, margin: real, amount: int)
    ensures Reached(amount, CapsOf(l, margin).rpm) <==> !Free(l.rpm, margin, amount)
    ensures Reached(amount, CapsOf(l, margin).tpm) <==> !Free(l.tpm, margin, amount)
    ensures Reached(amount, CapsOf(l, margin).rpd) <==> !Free(l.rpd, margin, amount)
    ensures Reached(amount, CapsOf(l, margin).tpd) <==> !Free(l.tpd, margin, amount)
  {
    CapMeaning(l.rpm, margin, amount);
    CapMeaning(l.tpm, margin, amount);
    CapMeaning(l.rpd, margin, amount);
    CapMeaning(l.tpd, margin, amount);
  }

  /** The verdict in the configured numbers: which limit it names and when it names none. */
  lemma VerdictMeaning(history: seq<Event>, now: int, l: Limits, margin: real, estimate: int)
    ensures var minute, day := Since(history, now - 60_000_000_000), Since(history, now - 86_400_000_000_000);
      var v := Decide(UsageAt(history, now), CapsOf(l, margin), estimate);
      && (v == Allowed <==> Admits(history, now, l, margin, estimate))
      && (v == RpmLimit <==> !Free(l.rpm, margin, |minute|))
      && (v == TpmLimit <==> Free(l.rpm, margin, |minute|) && !Free(l.tpm, margin, Tokens(minute)))
      && (v == RpdLimit <==> Free(l.rpm, margin, |minute|) && Free(l.tpm, margin, Tokens(minute))
                             && !Free(l.rpd, margin, |day|))
      && (v == TpdLimit <==> Free(l.rpm, margin, |minute|) && Free(l.tpm, margin, Tokens(minute))
                             && Free(l.rpd, margin, |day|) && !Free(l.tpd, margin, Tokens(day)))
  {
    var u := UsageAt(history, now);
    ReachedMeaning(l, margin, u.requestsLastMinute);
    ReachedMeaning(l, margin, u.tokensLastMinute);
    ReachedMeaning(l, margin, u.requestsLastDay);
    ReachedMeaning(l, margin, u.tokensLastDay);
    ReachedMeaning(l, margin, u.tokensLastMinute + estimate);
  }

  /** The tokens of two stretches add up. */
  lemma {:induction false} TokensAppend(a: seq<Event>, b: seq<Event>)
    ensures Tokens(a + b) == Tokens(a) + Tokens(b)
    ensures |b| == 1 ==> Tokens(b) == b[0].tokens
  {
    if b == [] {
      assert a + b == a;
    } else {
      TokensAppend(a, b[..|b| - 1]);
      assert (a + b)[..|a + b| - 1] == a + b[..|b| - 1];
    }
  }

  lemma {:induction false} SinceAppend(a: seq<Event>, b: seq<Event>, cutoff: int)
    ensures Since(a + b, cutoff) == Since(a, cutoff) + Since(b, cutoff)
  {
    if b == [] {
      assert a + b == a;
    } else {
      SinceAppend(a, b[..|b| - 1], cutoff);
      assert (a + b)[..|a + b| - 1] == a + b[..|b| - 1];
    }
  }

  lemma {:induction false} SinceAll(events: seq<Event>, cutoff: int)
    requires forall i :: 0 <= i < |events| ==> events[i].at >= cutoff
    ensures Since(events, cutoff) == events
  {
    if events == [] {
    } else {
      SinceAll(events[..|events| - 1], cutoff);
    }
  }

  lemma {:induction false} SinceNone(events: seq<Event>, cutoff: int)
    requires forall i :: 0 <= i < |events| ==> events[i].at < cutoff
    ensures Since(events, cutoff) == []
  {
    if events == [] {
    } else {
      SinceNone(events[..|events| - 1], cutoff);
    }
  }

  /** Trimming a window further is the same as trimming the history once. */
  lemma {:induction false} SinceSince(events: seq<Event>, early: int, late: int)
    requires early <= late
    ensures Since(Since(events, early), late) == Since(events, late)
  {
    if events == [] {
    } else {
      var front, last := events[..|events| - 1], events[|events| - 1];
      SinceSince(front, early, late);
      SinceAppend(Since(front, early), if last.at >= early then [last] else [], late);
      assert Since([last], late) == if last.at >= late then [last] else [] by { assert [last][..0] == []; }
    }
  }

  /** Where a log splits into what is before the cutoff and what is not. */
  ghost predicate SplitsAt(events: seq<Event>, i: int, cutoff: int) {
    && 0 <= i <= |events|
    && (forall k :: 0 <= k < i ==> events[k].at < cutoff)
    && (forall k :: i <= k < |events| ==> events[k].at >= cutoff)
  }

  lemma SinceSplit(events: seq<Event>, i: int, cutoff: int)
    requires SplitsAt(events, i, cutoff)
    ensures Since(events, cutoff) == events[i..]
  {
    var a, b := events[..i], events[i..];
    assert events == a + b;
    SinceAppend(a, b, cutoff);
    assert Since(a, cutoff) == [] by { SinceNone(a, cutoff); }
    assert Since(b, cutoff) == b by { SinceAll(b, cutoff); }
  }

  /** What the trimming loop does: cut the prefix that is before the cutoff. */
  function DropBefore(events: seq<Event>, cutoff: int): seq<Event> {
    if events == [] || events[0].at >= cutoff then events else DropBefore(events[1..], cutoff)
  }

  method TrimEvents(events: seq<Event>, cutoff: int) returns (out: seq<Event>)
    ensures out == DropBefore(events, cutoff)
  {
    var i := 0;
    while i < |events| && events[i].at < cutoff
      invariant 0 <= i <= |events|
      invariant DropBefore(events, cutoff) == DropBefore(events[i..], cutoff)
    {
      assert events[i..][1..] == events[i + 1..];
      i := i + 1;
    }
    if i == 0 {
      return events;
    }
    out := events[i..];
  }

  ghost function SplitPoint(events: seq<Event>, cutoff: int): (i: nat)
    requires Sorted(events)
    ensures SplitsAt(events, i, cutoff)
  {
    if events == [] then 0
    else
      var n := |events| - 1;
      if events[n].at < cutoff then
        assert forall k :: 0 <= k < n ==> events[k].at <= events[n].at;
        |events|
      else SplitPoint(events[..n], cutoff)
  }

  /** On a time-sorted log cutting the prefix and filtering the whole log agree. */
  lemma {:induction false} TrimIsFilter(events: seq<Event>, cutoff: int)
    requires Sorted(events)
    ensures DropBefore(events, cutoff) == Since(events, cutoff)
  {
    if events == [] || events[0].at >= cutoff {
      SinceAll(events, cutoff);
    } else {
      TrimIsFilter(events[1..], cutoff);
      SinceAppend(events[..1], events[1..], cutoff);
      SinceNone(events[..1], cutoff);
      assert events == events[..1] + events[1..];
    }
  }

  /** A window of a sorted log is a suffix of it, and sorted. */
  lemma SinceIsSuffix(events: seq<Event>, cutoff: int)
    requires Sorted(events)
    ensures var r := Since(events, cutoff);
      |r| <= |events| && r == events[|events| - |r|..] && Sorted(r)
  {
    SinceSplit(events, SplitPoint(events, cutoff), cutoff);
  }

  lemma TrimmedLog(history: seq<Event>, early: int, late: int)
    requires Sorted(history) && early <= late
    ensures DropBefore(Since(history, early), late) == Since(history, late)
  {
    SinceIsSuffix(history, early);
    TrimIsFilter(Since(history, early), late);
    SinceSince(history, early, late);
  }

  lemma GrownLog(history: seq<Event>, event: Event, early: int, late: int)
    requires Sorted(history) && early <= late
    requires forall i :: 0 <= i < |history| ==> history[i].at <= event.at
    ensures Sorted(history + [event])
    ensures DropBefore(Since(history, early) + [event], late) == Since(history + [event], late)
  {
    var log := Since(history, early);
    SinceIsSuffix(history, early);
    assert Sorted(log + [event]);
    TrimIsFilter(log + [event], late);
    SinceAppend(log, [event], late);
    SinceAppend(history, [event], late);
    SinceSince(history, early, late);
  }

  class Window {
    var requestMinute: seq<Event>
    var requestDay: seq<Event>
    /** Everything ever recorded, and the last clock reading the window was cleaned at. */
    ghost var history: seq<Event>
    ghost var clock: int

    /** Both logs are exactly the history cut to their span. */
    ghost predicate Valid()
      reads this
    {
      && Sorted(history)
      && (forall i :: 0 <= i < |history| ==> history[i].at <= clock)
      && requestMinute == Since(history, clock - MINUTE)
      && requestDay == Since(history, clock - DAY)
    }

    constructor (ghost now: int)
      ensures Valid() && history == [] && clock == now
    {
      requestMinute, requestDay := [], [];
      history, clock := [], now;
    }

    /** Both logs, given as any sorted logs that agree with the history from now on. */
    method Cleanup(now: int)
      requires DropBefore(requestMinute, now - MINUTE) == Since(history, now - MINUTE)
      requires DropBefore(requestDay, now - DAY) == Since(history, now - DAY)
      requires Sorted(history) && forall i :: 0 <= i < |history| ==> history[i].at <= now
      modifies this
      ensures Valid() && clock == now && history == old(history)
    {
      requestMinute := TrimEvents(requestMinute, now - MINUTE);
      requestDay := TrimEvents(requestDay, now - DAY);
      clock := now;
    }

    method UsageNow() returns (u: Usage)
      requires Valid()
      ensures u == UsageAt(history, clock)
    {
      var minuteTokens, dayTokens := 0, 0;
      for i := 0 to |requestMinute|
        invariant minuteTokens == Tokens(requestMinute[..i])
      {
        minuteTokens := minuteTokens + requestMinute[i].tokens;
        assert requestMinute[..i + 1][..i] == requestMinute[..i];
      }
      for i := 0 to |requestDay|
        invariant dayTokens == Tokens(requestDay[..i])
      {
        dayTokens := dayTokens + requestDay[i].tokens;
        assert requestDay[..i + 1][..i] == requestDay[..i];
      }
      assert requestMinute[..|requestMinute|] == requestMinute;
      assert requestDay[..|requestDay|] == requestDay;
      u := Usage(|requestMinute|, minuteTokens, |requestDay|, dayTokens);
    }

    lemma ReadyToClean(now: int)
      requires Valid() && clock <= now
      ensures DropBefore(requestMinute, now - MINUTE) == Since(history, now - MINUTE)
      ensures DropBefore(requestDay, now - DAY) == Since(history, now - DAY)
    {
      TrimmedLog(history, clock - MINUTE, now - MINUTE);
      TrimmedLog(history, clock - DAY, now - DAY);
    }

    method Record(now: int, tokens: int)
      requires Valid() && clock <= now
      modifies this
      ensures Valid() && clock == now
      ensures history == old(history) + [Event(now, tokens)]
    {
      GrownLog(history, Event(now, tokens), clock - MINUTE, now - MINUTE);
      GrownLog(history, Event(now, tokens), clock - DAY, now - DAY);
      requestMinute := requestMinute + [Event(now, tokens)];
      requestDay := requestDay + [Event(now, tokens)];
      history := history + [Event(now, tokens)];
      Cleanup(now);
    }

    method Check(now: int, limits: Limits, margin: real, estimate: int) returns (v: Verdict, u: Usage)
      requires Valid() && clock <= now
      modifies this
      ensures Valid() && clock == now && history == old(history)
      ensures u == UsageAt(history, now)
      ensures v == Decide(u, CapsOf(limits, margin), estimate)
      ensures v == Allowed <==> Admits(history, now, limits, margin, estimate)
    {
      VerdictMeaning(history, now, limits, margin, estimate);
      ReadyToClean(now);
      Cleanup(now);
      u := UsageNow();
      if limits.rpm > 0 && u.requestsLastMinute >= Cap(limits.rpm, margin) {
        return RpmLimit, u;
      }
      if limits.tpm > 0 && u.tokensLastMinute >= Cap(limits.tpm, margin) {
        return TpmLimit, u;
      }
      if limits.rpd > 0 && u.requestsLastDay >= Cap(limits.rpd, margin) {
        return RpdLimit, u;
      }
      if limits.tpd > 0 && u.tokensLastDay >= Cap(limits.tpd, margin) {
        return TpdLimit, u;
      }
      if limits.tpm > 0 && estimate > 0 && u.tokensLastMinute + estimate >= Cap(limits.tpm, margin) {
        return ProjectedTpm, u;
      }
      v := Allowed;
    }
  }

  /** The minute log is the tail of the day log. */
  lemma MinuteIsSuffixOfDay(history: seq<Event>, now: int)
    requires Sorted(history)
    ensures var minute, day := Since(history, now - MINUTE), Since(history, now - DAY);
      |minute| <= |day| && minute == day[|day| - |minute|..]
  {
    SinceIsSuffix(history, now - DAY);
    SinceSince(history, now - DAY, now - MINUTE);
    SinceIsSuffix(Since(history, now - DAY), now - MINUTE);
  }

  /** Everything ever recorded, model by model. */
  type Log = map<string, seq<Event>>

  function Recorded(log: Log, model: string): seq<Event> {
    if model in log then log[model] else []
  }

  function Grown(log: Log, model: string, event: Event): Log {
    log[model := Recorded(log, model) + [event]]
  }

  ghost predicate SameElsewhere(a: Log, b: Log, model: string) {
    forall m :: m != model ==> Recorded(a, m) == Recorded(b, m)
  }

  lemma ChangesAt(log: Log, model: string, events: seq<Event>)
    ensures var changed := log[model := events];
      changed.Keys == log.Keys + {model} && Recorded(changed, model) == events && SameElsewhere(log, changed, model)
  {
  }

  class Limiter {
    const safetyMargin: real
    var windows: map<string, Window>
    ghost var log: Log
    ghost var repr: set<Window>
    ghost var clock: int

    constructor (margin: real, ghost now: int)
      ensures Valid() && windows == map[] && log == map[] && repr == {} && clock == now
      ensures safetyMargin == if margin <= 0.0 then 0.95 else margin
    {
      safetyMargin := if margin <= 0.0 then 0.95 else margin;
      windows, log, repr, clock := map[], map[], {}, now;
    }

    /** Every window holds what was recorded for its model, and no two models share one. */
    ghost predicate Valid()
      reads this, repr
    {
      && log.Keys <= windows.Keys
      && (forall m :: m in windows ==> windows[m] in repr && ValidAt(m))
      && (forall m, n :: m in windows && n in windows && m != n ==> windows[m] != windows[n])
    }

    ghost predicate ValidAt(model: string)
      requires model in windows && windows[model] in repr
      reads this, repr
    {
      var w := windows[model];
      w.Valid() && w.clock <= clock && w.history == Recorded(log, model)
    }

    method WindowFor(model: string) returns (w: Window)
      requires Valid()
      modifies this`windows, this`repr
      ensures Valid() && fresh(repr - old(repr)) && model in windows && w == windows[model]
    {
      if model in windows {
        return windows[model];
      }
      w := new Window(clock);
      windows, repr := windows[model := w], repr + {w};
    }

    /** One more event for this model, nothing for any other. */
    method Record(model: string, now: int, tokens: int)
      requires Valid() && clock <= now
      modifies this, repr
      ensures Valid() && fresh(repr - old(repr)) && clock == now
      ensures log == Grown(old(log), model, Event(now, tokens))
    {
      var w := WindowFor(model);
      RecordIn(model, now, tokens);
    }

    /** The same for a model that has a window. */
    method RecordIn(model: string, now: int, tokens: int)
      requires Valid() && clock <= now && model in windows
      modifies `log, `clock, repr
      ensures Valid() && clock == now && log == Grown(old(log), model, Event(now, tokens))
    {
      var w := windows[model];
      ghost var before := Recorded(log, model);
      w.Record(now, tokens);
      clock, log := now, log[model := w.history];
      assert w.history == before + [Event(now, tokens)];
      RecordedOnce(model);
    }

    /** The log follows the model's window, and nothing else has changed. */
    twostate lemma RecordedOnce(model: string)
      requires old(Valid()) && windows == old(windows) && repr == old(repr) && old(clock) <= clock
      requires model in windows && windows[model] in repr && ValidAt(model)
      requires log == old(log)[model := windows[model].history]
      requires forall m :: m in windows && windows[m] != windows[model] ==> unchanged(windows[m])
      ensures Valid()
    {
      ChangesAt(old(log), model, windows[model].history);
      KeptValid(model);
    }

    /** Changing one window soundly, and only that one, keeps the limiter sound. */
    twostate lemma KeptValid(model: string)
      requires old(Valid()) && windows == old(windows) && repr == old(repr) && old(clock) <= clock
      requires model in windows && windows[model] in repr && ValidAt(model)
      requires log.Keys <= windows.Keys && SameElsewhere(old(log), log, model)
      requires forall m :: m in windows && windows[m] != windows[model] ==> unchanged(windows[m])
      ensures Valid()
    {
      forall m | m in windows && m != model ensures ValidAt(m) {
        assert old(ValidAt(m));
      }
    }

    /** The answer depends on what was recorded for this model alone, and records nothing. */
    method Check(model: string, now: int, limits: Limits, estimate: int) returns (v: Verdict, u: Usage)
      requires Valid() && clock <= now
      modifies this, repr
      ensures Valid() && fresh(repr - old(repr)) && clock == now && log == old(log)
      ensures u == UsageAt(Recorded(log, model), now)
      ensures v == Decide(u, CapsOf(limits, safetyMargin), estimate)
      ensures v == Allowed <==> Admits(Recorded(log, model), now, limits, safetyMargin, estimate)
    {
      var w := WindowFor(model);
      label found:
      v, u := w.Check(now, limits, safetyMargin, estimate);
      clock := now;
      KeptValid@found(model);
    }
  }

  // ---- Checks and records of concurrent requests --------------------------

  /** One model as the router uses it: a passing check admits a request, which later
      records its tokens or gives up (its call failed) without recording. */
  datatype Flow = Flow(history: seq<Event>, inFlight: nat, clock: int, lastPass: int)

  datatype Op = Ask(at: int, estimate: int) | Finish(at: int, tokens: int) | GiveUp(at: int)

  datatype Setup = Setup(caps: Caps, atOnce: nat)

  /** A request that would be one too many in flight, or that runs against the clock, does
      not happen. */
  ghost function Step(f: Flow, op: Op, s: Setup): Flow {
    if op.at < f.clock then f
    else match op
      case Ask(at, estimate) =>
        if f.inFlight < s.atOnce && Decide(UsageAt(f.history, at), s.caps, estimate).Allowed?
        then Flow(f.history, f.inFlight + 1, at, at)
        else f.(clock := at)
      case Finish(at, tokens) =>
        if f.inFlight > 0 then Flow(f.history + [Event(at, tokens)], f.inFlight - 1, at, f.lastPass) else f
      case GiveUp(at) =>
        if f.inFlight > 0 then Flow(f.history, f.inFlight - 1, at, f.lastPass) else f
  }

  ghost function Run(ops: seq<Op>, s: Setup): Flow {
    if ops == [] then Flow([], 0, 0, 0) else Step(Run(ops[..|ops| - 1], s), ops[|ops| - 1], s)
  }

  /** A request that was let through and gives up leaves nothing behind: its place is free again and
      nothing is recorded. */
  lemma GivingUpLeavesNothing(f: Flow, asked: int, estimate: int, at: int, s: Setup)
    requires f.clock <= asked <= at && f.inFlight < s.atOnce
    requires Decide(UsageAt(f.history, asked), s.caps, estimate) == Allowed
    ensures var g := Step(Step(f, Ask(asked, estimate), s), GiveUp(at), s);
      g.history == f.history && g.inFlight == f.inFlight && g.clock == at
  {
  }

  /** The requests recorded in the closed window from `a` to `a + span`. */
  function CountWithin(history: seq<Event>, a: int, span: int): nat {
    if history == [] then 0
    else
      var at := history[|history| - 1].at;
      CountWithin(history[..|history| - 1], a, span) + (if a <= at <= a + span then 1 else 0)
  }

  lemma {:induction false} CountAtMostSince(history: seq<Event>, a: int, span: int)
    ensures CountWithin(history, a, span) <= |Since(history, a)|
  {
    if history == [] {
    } else {
      CountAtMostSince(history[..|history| - 1], a, span);
    }
  }

  lemma {:induction false} SinceShrinks(history: seq<Event>, early: int, late: int)
    requires early <= late
    ensures |Since(history, late)| <= |Since(history, early)|
  {
    if history == [] {
    } else {
      SinceShrinks(history[..|history| - 1], early, late);
    }
  }

  /** The request cap that applies to a span. */
  ghost predicate Limited(s: Setup, span: int, cap: int) {
    && s.atOnce >= 1 && cap >= 0
    && ((span == MINUTE && s.caps.rpm == Some(cap)) || (span == DAY && s.caps.rpd == Some(cap)))
  }

  /** What the latest passing check guarantees about every window that is still open, and
      what holds of every window. */
  ghost predicate Bounded(f: Flow, span: int, bound: int) {
    && f.lastPass <= f.clock
    && (forall a :: a + span >= f.lastPass ==> |Since(f.history, a)| + f.inFlight <= bound)
    && (forall a :: CountWithin(f.history, a, span) <= bound)
  }

  lemma AskKeepsBound(f: Flow, at: int, estimate: int, s: Setup, span: int, cap: int)
    requires Limited(s, span, cap) && f.inFlight <= s.atOnce && Bounded(f, span, cap - 1 + s.atOnce)
    ensures Bounded(Step(f, Ask(at, estimate), s), span, cap - 1 + s.atOnce)
  {
    var g, bound := Step(f, Ask(at, estimate), s), cap - 1 + s.atOnce;
    if g.inFlight > f.inFlight {
      forall a | a + span >= at ensures |Since(g.history, a)| + g.inFlight <= bound {
        SinceShrinks(f.history, at - span, a);
      }
    }
  }

  lemma FinishKeepsBound(f: Flow, event: Event, span: int, bound: int)
    requires Bounded(f, span, bound) && f.inFlight > 0 && f.clock <= event.at
    ensures Bounded(Flow(f.history + [event], f.inFlight - 1, event.at, f.lastPass), span, bound)
  {
    var h := f.history + [event];
    assert h[..|f.history|] == f.history;
    forall a | a + span >= f.lastPass ensures |Since(h, a)| + f.inFlight - 1 <= bound {
      assert |Since(h, a)| <= |Since(f.history, a)| + 1;
    }
    forall a ensures CountWithin(h, a, span) <= bound {
      if a <= event.at <= a + span {
        CountAtMostSince(f.history, a, span);
        assert |Since(f.history, a)| + f.inFlight <= bound;
      }
    }
  }

  lemma StepKeepsBound(f: Flow, op: Op, s: Setup, span: int, cap: int)
    requires Limited(s, span, cap) && f.inFlight <= s.atOnce
    requires Bounded(f, span, cap - 1 + s.atOnce)
    ensures Bounded(Step(f, op, s), span, cap - 1 + s.atOnce)
    ensures Step(f, op, s).inFlight <= s.atOnce
  {
    if op.at >= f.clock {
      match op
      case Ask(at, estimate) => AskKeepsBound(f, at, estimate, s, span, cap);
      case Finish(at, tokens) =>
        if f.inFlight > 0 {
          FinishKeepsBound(f, Event(at, tokens), span, cap - 1 + s.atOnce);
        }
      case GiveUp(at) =>
    }
  }

  lemma {:induction false} RunKeepsBound(ops: seq<Op>, s: Setup, span: int, cap: int)
    requires Limited(s, span, cap)
    ensures Bounded(Run(ops, s), span, cap - 1 + s.atOnce) && Run(ops, s).inFlight <= s.atOnce
  {
    if ops == [] {
    } else {
      RunKeepsBound(ops[..|ops| - 1], s, span, cap);
      StepKeepsBound(Run(ops[..|ops| - 1], s), ops[|ops| - 1], s, span, cap);
    }
  }

  /** A whole number is at most a cap exactly when it is at most the scaled limit. */
  lemma AtMostScaled(count: int, limit: int, margin: real)
    ensures count <= Cap(limit, margin) <==> count as real <= limit as real * margin
  {
    CapMeaning(limit, margin, count - 1);
  }

  /** With at most k requests between their passing check and their record, no closed
      minute ever holds more than cap - 1 + k recorded requests, and no closed day; one at a
      time, never more than the cap. */
  lemma ConcurrentRateBound(ops: seq<Op>, limits: Limits, margin: real, atOnce: nat, a: int)
    requires margin > 0.0 && atOnce >= 1
    ensures var h := Run(ops, Setup(CapsOf(limits, margin), atOnce)).history;
      && (limits.rpm > 0 ==> CountWithin(h, a, MINUTE) <= Cap(limits.rpm, margin) - 1 + atOnce)
      && (limits.rpd > 0 ==> CountWithin(h, a, DAY) <= Cap(limits.rpd, margin) - 1 + atOnce)
  {
    var s := Setup(CapsOf(limits, margin), atOnce);
    if limits.rpm > 0 {
      assert limits.rpm as real * margin >= 0.0;
      RunKeepsBound(ops, s, MINUTE, Cap(limits.rpm, margin));
    }
    if limits.rpd > 0 {
      assert limits.rpd as real * margin >= 0.0;
      RunKeepsBound(ops, s, DAY, Cap(limits.rpd, margin));
    }
  }

  /** The requests in a closed window are at most the scaled limit, less one, and `k`. */
  ghost predicate Within(history: seq<Event>, a: int, span: int, limit: int, margin: real, k: nat) {
    limit > 0 ==> CountWithin(history, a, span) as real <= limit as real * margin - 1.0 + k as real
  }

  lemma ScaledBound(history: seq<Event>, a: int, span: int, limit: int, margin: real, k: nat)
    requires limit > 0 ==> CountWithin(history, a, span) <= Cap(limit, margin) - 1 + k
    ensures Within(history, a, span, limit, margin, k)
  {
    AtMostScaled(CountWithin(history, a, span) + 1 - k, limit, margin);
  }

  /** The same in the configured numbers: in no closed minute or day are there more recorded
      requests than the limit times the margin, less one, and k. */
  lemma ConcurrentRateInNumbers(ops: seq<Op>, limits: Limits, margin: real, atOnce: nat, a: int)
    requires margin > 0.0 && atOnce >= 1
    ensures var h := Run(ops, Setup(CapsOf(limits, margin), atOnce)).history;
      && Within(h, a, 60_000_000_000, limits.rpm, margin, atOnce)
      && Within(h, a, 86_400_000_000_000, limits.rpd, margin, atOnce)
  {
    var h := Run(ops, Setup(CapsOf(limits, margin), atOnce)).history;
    ConcurrentRateBound(ops, limits, margin, atOnce, a);
    ScaledBound(h, a, MINUTE, limits.rpm, margin, atOnce);
    ScaledBound(h, a, DAY, limits.rpd, margin, atOnce);
  }

  // ---- The bound is exact -------------------------------------------------

  lemma RunSnoc(ops: seq<Op>, op: Op, s: Setup)
    ensures Run(ops + [op], s) == Step(Run(ops, s), op, s)
  {
    assert (ops + [op])[..|ops|] == ops;
  }

  function Events(n: nat): seq<Event> {
    if n == 0 then [] else Events(n - 1) + [Event(0, 0)]
  }

  lemma {:induction false} EventsAtZero(n: nat, cutoff: int, span: int)
    requires cutoff <= 0 <= span
    ensures |Events(n)| == n && CountWithin(Events(n), 0, span) == n
    ensures Since(Events(n), cutoff) == Events(n) && Tokens(Events(n)) == 0
  {
    if n == 0 {
    } else {
      EventsAtZero(n - 1, cutoff, span);
      assert Events(n)[..n - 1] == Events(n - 1);
    }
  }

  predicate AtLeast(c: Option<int>, bound: int) {
    c.Some? ==> c.value >= bound
  }

  /** The span has the tightest cap on requests, and every limit admits something. */
  ghost predicate Tightest(s: Setup, span: int, cap: nat) {
    && Limited(s, span, cap) && cap >= 1
    && AtLeast(s.caps.rpm, cap) && AtLeast(s.caps.rpd, cap) && AtLeast(s.caps.tpm, 1) && AtLeast(s.caps.tpd, 1)
  }

  lemma AskPasses(s: Setup, span: int, cap: nat, recorded: nat, open: nat)
    requires Tightest(s, span, cap) && recorded < cap && open < s.atOnce
    ensures Step(Flow(Events(recorded), open, 0, 0), Ask(0, 0), s) == Flow(Events(recorded), open + 1, 0, 0)
  {
    EventsAtZero(recorded, 0 - MINUTE, 0);
    EventsAtZero(recorded, 0 - DAY, 0);
    assert UsageAt(Events(recorded), 0) == Usage(recorded, 0, recorded, 0);
    assert Decide(Usage(recorded, 0, recorded, 0), s.caps, 0).Allowed?;
  }

  /** The run ends at time zero with so many events and so many requests in flight. */
  ghost predicate Ends(ops: seq<Op>, s: Setup, recorded: nat, open: nat) {
    Run(ops, s) == Flow(Events(recorded), open, 0, 0)
  }

  lemma OneAsks(ops: seq<Op>, s: Setup, span: int, cap: nat, recorded: nat, open: nat)
    requires Tightest(s, span, cap) && recorded < cap && open < s.atOnce && Ends(ops, s, recorded, open)
    ensures Ends(ops + [Ask(0, 0)], s, recorded, open + 1)
  {
    RunSnoc(ops, Ask(0, 0), s);
    AskPasses(s, span, cap, recorded, open);
  }

  lemma OneFinishes(ops: seq<Op>, s: Setup, recorded: nat, open: nat)
    requires open > 0 && Ends(ops, s, recorded, open)
    ensures Ends(ops + [Finish(0, 0)], s, recorded + 1, open - 1)
  {
    RunSnoc(ops, Finish(0, 0), s);
  }

  lemma AsksAndFinishes(ops: seq<Op>, s: Setup, span: int, cap: nat, n: nat)
    requires Tightest(s, span, cap) && n < cap && Ends(ops, s, n, 0)
    ensures Ends(ops + [Ask(0, 0)] + [Finish(0, 0)], s, n + 1, 0)
  {
    OneAsks(ops, s, span, cap, n, 0);
    OneFinishes(ops + [Ask(0, 0)], s, n, 1);
  }

  lemma {:induction false} SequentialFill(n: nat, s: Setup, span: int, cap: nat) returns (ops: seq<Op>)
    requires Tightest(s, span, cap) && n < cap
    ensures Ends(ops, s, n, 0)
  {
    if n == 0 {
      ops := [];
    } else {
      var before := SequentialFill(n - 1, s, span, cap);
      AsksAndFinishes(before, s, span, cap, n - 1);
      ops := before + [Ask(0, 0)] + [Finish(0, 0)];
    }
  }

  lemma {:induction false} AskAll(n: nat, s: Setup, span: int, cap: nat, recorded: nat) returns (ops: seq<Op>)
    requires Tightest(s, span, cap) && recorded < cap && n <= s.atOnce
    ensures Ends(ops, s, recorded, n)
  {
    if n == 0 {
      ops := SequentialFill(recorded, s, span, cap);
    } else {
      ops := AskAll(n - 1, s, span, cap, recorded);
      OneAsks(ops, s, span, cap, recorded, n - 1);
      ops := ops + [Ask(0, 0)];
    }
  }

  lemma {:induction false} FinishAll(ops: seq<Op>, s: Setup, recorded: nat, open: nat, total: nat) returns (all: seq<Op>)
    requires Ends(ops, s, recorded, open) && total == recorded + open
    ensures Ends(all, s, total, 0)
    decreases open
  {
    if open == 0 {
      all := ops;
    } else {
      OneFinishes(ops, s, recorded, open);
      all := FinishAll(ops + [Finish(0, 0)], s, recorded + 1, open - 1, total);
    }
  }

  lemma CountOfEnd(ops: seq<Op>, s: Setup, span: int, n: nat)
    requires Ends(ops, s, n, 0) && span >= 0
    ensures CountWithin(Run(ops, s).history, 0, span) == n
  {
    EventsAtZero(n, 0, span);
  }

  /** The overshoot is real for the minute and for the day: some run records exactly
      cap - 1 + k requests within the span of the tightest request cap, the first cap - 1 one
      after the other and the last k side by side. */
  lemma BoundIsReached(s: Setup, span: int, cap: nat) returns (ops: seq<Op>)
    requires Tightest(s, span, cap)
    ensures CountWithin(Run(ops, s).history, 0, span) == cap - 1 + s.atOnce
  {
    ops := Overshoot(s, span, cap, cap - 1 + s.atOnce);
    CountOfEnd(ops, s, span, cap - 1 + s.atOnce);
  }

  lemma Overshoot(s: Setup, span: int, cap: nat, total: nat) returns (ops: seq<Op>)
    requires Tightest(s, span, cap) && total == cap - 1 + s.atOnce
    ensures Ends(ops, s, total, 0)
  {
    var first := AskAll(s.atOnce, s, span, cap, cap - 1);
    ops := FinishAll(first, s, cap - 1, s.atOnce, total);
  }
}
