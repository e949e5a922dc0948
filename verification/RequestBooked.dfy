/**
 What a request does to the session row and what it tells its caller about money
 (internal/router/router.go, internal/budget/budget.go, internal/storage/budget.go), in the costs
 the providers reported.
 */
module RequestBooked {
  import opened Common
  import opened Routing
  import opened SessionStore
  import BudgetProtocol
  import Cache = SemanticCache
  import Failover

  /** The row the request finds, or the new one it starts with. */
  function RowBefore(s: State, q: Query, e: Env): Row {
    if q.session in s.sessions then s.sessions[q.session] else Row(0.0, e.settings.sessionLimit, true, 0)
  }

  /** A request is let in unless the kill switch is on and the session is inactive or has no 5.0
      left. */
  predicate LetIn(row: Row, e: Env) {
    e.settings.killSwitch ==> row.active && row.cost + 5.0 <= row.limit
  }

  /** A settlement fails when the database does, and with the kill switch also when the cost
      exceeds the 5.0 by 0.0001 or more and the session cannot bear it. */
  predicate Settles(row: Row, c: real, x: Luck, e: Env) {
    !x.settleError && (e.settings.killSwitch ==> c - 5.0 < 0.0001 || row.cost + c <= row.limit)
  }

  /** The cost on the row after a request that was let in: with the kill switch the 5.0 stay on it
      unless they are settled, and differences below 0.0001 are not. */
  function CostAfter(row: Row, c: real, settles: bool, e: Env): real {
    if settles && !(e.settings.killSwitch && -0.0001 < c - 5.0 < 0.0001) then row.cost + c
    else if e.settings.killSwitch then row.cost + 5.0 else row.cost
  }

  lemma SettledReservation(row: Row, c: real)
    requires row.active && 0.0 <= row.cost && row.cost + 5.0 <= row.limit && c >= 0.0
    ensures var (after, ok) := Settle(Charged(row, 5.0), 5.0, c);
      && (ok <==> c - 5.0 < 0.0001 || row.cost + c <= row.limit)
      && after.cost == (if ok && !(-0.0001 < c - 5.0 < 0.0001) then row.cost + c else row.cost + 5.0)
      && after.limit == row.limit && after.active
      && after.version == row.version + (if ok && !(-0.0001 < c - 5.0 < 0.0001) then 2 else 1)
  {
  }

  lemma AdmissionIs(s: State, q: Query, x: Luck, e: Env)
    ensures var (t, _, admitted) := Admitted(s, q, x, e);
      var row := RowBefore(s, q, e);
      && (admitted <==> LetIn(row, e)) && q.session in t.sessions
      && t.sessions[q.session] == if admitted && e.settings.killSwitch then Charged(row, 5.0) else row
  {
  }

  /** What the answer of a turn costs: what the provider reported, and nothing when it did not. */
  function CostOf(o: Failover.Outcome): real
    requires o.Served?
  {
    if o.cost >= 0.0 then o.cost else 0.0
  }

  lemma SettlementIs(s: State, q: Query, c: real, x: Luck, e: Env, row: Row)
    requires q.session in s.sessions && LetIn(row, e) && (e.settings.killSwitch ==> row.cost >= 0.0) && c >= 0.0
    requires s.sessions[q.session] == if e.settings.killSwitch then Charged(row, 5.0) else row
    ensures var (t, ok) := Settled(s, q, c, x, e);
      && q.session in t.sessions && (ok <==> Settles(row, c, x, e))
      && var after := t.sessions[q.session];
         after.cost == CostAfter(row, c, ok, e) && after.limit == row.limit && after.active == row.active
  {
    if e.settings.killSwitch {
      SettledReservation(row, c);
    }
  }

  /** After the settlement the rows stay, and the result says what was read back. */
  lemma FinishIs(s: State, q: Query, x: Luck, cycle: bool, turn: Turn, e: Env)
    requires q.session in s.sessions && turn.outcome.Served?
    ensures var (t, r) := Finished(s, q, x, cycle, turn, e);
      && t.sessions == s.sessions && !r.OverBudget? && !r.CallError? && !r.NotSettled?
      && (r.NotRead? <==> x.readError) && (r.NotLogged? <==> !x.readError && x.logError)
      && (r.Answered? ==> r.cost == CostOf(turn.outcome) && r.sessionCost == s.sessions[q.session].cost)
      && (r.Answered? ==> r.id == turn.outcome.id && r.content == turn.outcome.content)
  {
  }

  /** What the caller is told, for a turn that was served. */
  ghost predicate Tells(r: Result, settles: bool, c: real, after: Row, o: Failover.Outcome, x: Luck)
    requires o.Served?
  {
    && !r.OverBudget? && !r.CallError?
    && (r.NotSettled? <==> !settles) && (r.NotRead? <==> settles && x.readError)
    && (r.NotLogged? <==> settles && !x.readError && x.logError)
    && (r.Answered? ==> r.cost == c && r.sessionCost == after.cost && r.id == o.id && r.content == o.content)
  }

  lemma ConclusionIs(s: State, q: Query, x: Luck, cycle: bool, turn: Turn, e: Env, row: Row)
    requires q.session in s.sessions && LetIn(row, e) && (e.settings.killSwitch ==> row.cost >= 0.0)
    requires s.sessions[q.session] == (if e.settings.killSwitch then Charged(row, 5.0) else row)
    requires turn.outcome.Served?
    ensures var (t, r) := Concluded(s, q, x, cycle, turn, e);
      var c := CostOf(turn.outcome);
      && q.session in t.sessions
      && var after, settles := t.sessions[q.session], Settles(row, c, x, e);
         && after.cost == CostAfter(row, c, settles, e) && after.limit == row.limit && after.active == row.active
         && Tells(r, settles, c, after, turn.outcome, x)
  {
    var c, recalled := CostOf(turn.outcome), Recalled(s, q, turn, e);
    RecalledElsewhere(s, q, turn, e);
    SettlementIs(recalled, q, c, x, e, row);
    FinishIs(Settled(recalled, q, c, x, e).0, q, x, cycle, turn, e);
  }

  /** The row and the result of any request. Refused: no room for 5.0, and nothing is booked. Nobody
      answered: the 5.0 stay booked. Answered: the settlement decides. */
  lemma RequestIs(s: State, q: Query, x: Luck, e: Env)
    requires e.settings.killSwitch ==> RowBefore(s, q, e).cost >= 0.0
    ensures var (t, r) := RouteRequest(s, q, x, e);
      var row, turn := RowBefore(s, q, e), TurnOf(s, q, x, e);
      && (r.OverBudget? <==> !LetIn(row, e)) && q.session in t.sessions
      && var after := t.sessions[q.session];
         && after.limit == row.limit && after.active == row.active
         && (r.OverBudget? ==> after == row)
         && (LetIn(row, e) && !turn.outcome.Served? ==>
               r == CallError(turn.route, turn.outcome)
               && after.cost == row.cost + (if e.settings.killSwitch then 5.0 else 0.0))
         && (LetIn(row, e) && turn.outcome.Served? ==>
               var c := CostOf(turn.outcome);
               after.cost == CostAfter(row, c, Settles(row, c, x, e), e)
               && Tells(r, Settles(row, c, x, e), c, after, turn.outcome, x))
  {
    var row, turn := RowBefore(s, q, e), TurnOf(s, q, x, e);
    AdmissionIs(s, q, x, e);
    var (ready, a, admitted) := Admitted(s, q, x, e);
    if admitted && turn.outcome.Served? {
      ConclusionIs(ready, q, x, CycleSeen(ready, q, e), turn, e, row);
    }
  }

  /** What an answered request costs: what the provider of the answering call, the last of all calls
      made, reported for it, and nothing if that is negative. The caller is told so, the session's
      row moves by it, up to 0.0001 with the kill switch and exactly without, and the session cost
      the caller is told is the one on the row. */
  lemma AnswerCosts(s: State, q: Query, x: Luck, e: Env)
    requires e.settings.killSwitch ==> RowBefore(s, q, e).cost >= 0.0
    ensures var (t, r) := RouteRequest(s, q, x, e);
      var heard := Replies(s, q, x, e);
      r.Answered? ==>
        && LastAnswers(heard) && q.session in t.sessions
        && var reported, moved := heard[|heard| - 1].cost, t.sessions[q.session].cost - RowBefore(s, q, e).cost;
           var cost := if reported >= 0.0 then reported else 0.0;
           && r.cost == cost && r.sessionCost == t.sessions[q.session].cost
           && (if e.settings.killSwitch then -0.0001 < moved - cost < 0.0001 else moved == cost)
  {
    RequestIs(s, q, x, e);
    LastReplyCounts(s, q, x, e);
  }
}
