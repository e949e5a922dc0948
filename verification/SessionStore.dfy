/**
 The `sessions` table and the statements that touch it (internal/storage/budget.go,
 internal/storage/storage.go) with the budget manager on top (internal/budget/budget.go).
 Each SQL statement is one atomic step on the table; between two statements of one call
 other requests may run any number of theirs.
 */
module SessionStore {
  import opened Common

  const BUDGET_EPSILON: real := 0.0001

  datatype Row = Row(cost: real, limit: real, active: bool, version: nat)

  type Table = map<string, Row>

  /** The WHERE clause shared by the reservation and the top-up. */
  predicate HasRoom(row: Row, amount: real) {
    row.active && row.cost + amount <= row.limit
  }

  function Charged(row: Row, amount: real): Row {
    row.(cost := row.cost + amount, version := row.version + 1)
  }

  /** A negative difference is given back, but never below zero. */
  function Refunded(row: Row, diff: real): Row {
    row.(cost := if row.cost + diff < 0.0 then 0.0 else row.cost + diff, version := row.version + 1)
  }

  predicate Negligible(diff: real) {
    -BUDGET_EPSILON < diff < BUDGET_EPSILON
  }

  /** Settling `reserved` to `actual`: the row afterwards and whether the call succeeds. */
  function Settle(row: Row, reserved: real, actual: real): (Row, bool) {
    var diff := actual - reserved;
    if Negligible(diff) then (row, true)
    else if diff < 0.0 then (Refunded(row, diff), true)
    else if HasRoom(row, diff) then (Charged(row, diff), true)
    else (row, false)
  }

  /** What a settlement is for, in terms of money. Only a top-up can fail; while the
      reservation is still on the row the refund never has to clamp, and the row ends up
      holding the actual cost up to the epsilon. */
  lemma SettleMeaning(row: Row, reserved: real, actual: real)
    requires actual >= 0.0
    ensures var (after, ok) := Settle(row, reserved, actual);
      && (!ok <==> actual >= reserved + BUDGET_EPSILON && !(row.active && row.cost - reserved + actual <= row.limit))
      && (!ok ==> after == row)
      && after.limit == row.limit && after.active == row.active
      && (ok && reserved <= row.cost ==> Negligible(after.cost - (row.cost - reserved + actual)))
      && (ok && reserved > row.cost && actual <= reserved - BUDGET_EPSILON ==>
            after.cost == if row.cost + actual < reserved then 0.0 else row.cost - reserved + actual)
  {
  }

  datatype Reservation = Granted | Denied | Missing | Conflict

  /** A statement that changed the table. */
  datatype Write = Write(before: Table, after: Table)

  /** The write is exactly one conditional charge of `amount` to `id`. */
  ghost predicate IsCharge(w: Write, id: string, amount: real) {
    && id in w.before && HasRoom(w.before[id], amount)
    && w.after == w.before[id := Charged(w.before[id], amount)]
  }

  ghost predicate IsCreation(w: Write, id: string, limit: real) {
    && id !in w.before
    && w.after == w.before[id := Row(0.0, limit, true, 0)]
  }

  class Store {
    var sessions: Table
    /** The table as each executed statement found it, this caller's and everybody else's. */
    ghost var past: seq<Table>
    /** How many of those statements were somebody else's. */
    ghost var foreign: nat
    /** This caller's statements that changed the table. */
    ghost var writes: seq<Write>

    constructor ()
      ensures sessions == map[] && past == [] && foreign == 0 && writes == []
    {
      sessions, past, foreign, writes := map[], [], 0, [];
    }

    /** Any number of statements by other requests. Nothing in the program deletes a
        session row, so known sessions stay known. */
    method Interfere()
      modifies this
      ensures old(past) <= past && writes == old(writes) && foreign >= old(foreign)
      ensures old(sessions).Keys <= sessions.Keys
      ensures foreign == old(foreign) ==> sessions == old(sessions)
    {
      var n: nat := *;
      while n > 0
        invariant old(past) <= past && writes == old(writes) && foreign >= old(foreign)
        invariant old(sessions).Keys <= sessions.Keys
        invariant foreign == old(foreign) ==> sessions == old(sessions)
      {
        var next: Table := *;
        if sessions.Keys <= next.Keys {
          past, foreign := past + [sessions], foreign + 1;
          sessions := next;
        }
        n := n - 1;
      }
    }

    method TryReserveBudget(id: string, estimate: real) returns (ok: bool)
      modifies this
      ensures ok <==> id in old(sessions) && HasRoom(old(sessions)[id], estimate)
      ensures sessions == if ok then old(sessions)[id := Charged(old(sessions)[id], estimate)] else old(sessions)
      ensures past == old(past) + [old(sessions)] && foreign == old(foreign)
      ensures writes == if ok then old(writes) + [Write(old(sessions), sessions)] else old(writes)
    {
      past := past + [sessions];
      ok := id in sessions && HasRoom(sessions[id], estimate);
      if ok {
        var next := sessions[id := Charged(sessions[id], estimate)];
        writes := writes + [Write(sessions, next)];
        sessions := next;
      }
    }

    /** A refund of a session that is not there updates no row and is not an error. */
    method AdjustReservedCost(id: string, reserved: real, actual: real) returns (ok: bool)
      modifies this
      ensures id in old(sessions) ==>
        var (row, settled) := Settle(old(sessions)[id], reserved, actual);
        ok == settled && sessions == old(sessions)[id := row]
      ensures id !in old(sessions) ==> sessions == old(sessions) && (ok <==> actual - reserved < BUDGET_EPSILON)
      ensures old(past) <= past && foreign == old(foreign)
      ensures writes == if sessions == old(sessions) then old(writes) else old(writes) + [Write(old(sessions), sessions)]
    {
      var diff := actual - reserved;
      if Negligible(diff) {
        return true;
      }
      past := past + [sessions];
      if diff < 0.0 {
        if id in sessions {
          var next := sessions[id := Refunded(sessions[id], diff)];
          assert next[id].version != sessions[id].version;
          writes := writes + [Write(sessions, next)];
          sessions := next;
        }
        return true;
      }
      ok := id in sessions && HasRoom(sessions[id], diff);
      if ok {
        var next := sessions[id := Charged(sessions[id], diff)];
        assert next[id].version != sessions[id].version;
        writes := writes + [Write(sessions, next)];
        sessions := next;
      }
    }

    method GetSession(id: string) returns (row: Option<Row>)
      modifies this`past
      ensures row == if id in sessions then Some(sessions[id]) else None
      ensures past == old(past) + [sessions]
    {
      row := if id in sessions then Some(sessions[id]) else None;
      past := past + [sessions];
    }

    /** The INSERT: refused by the primary key when the session is already there. */
    method InsertSession(id: string, limit: real) returns (ok: bool)
      modifies this
      ensures ok <==> id !in old(sessions)
      ensures sessions == if ok then old(sessions)[id := Row(0.0, limit, true, 0)] else old(sessions)
      ensures past == old(past) + [old(sessions)] && foreign == old(foreign)
      ensures writes == if ok then old(writes) + [Write(old(sessions), sessions)] else old(writes)
    {
      past := past + [sessions];
      ok := id !in sessions;
      if ok {
        var next := sessions[id := Row(0.0, limit, true, 0)];
        writes := writes + [Write(sessions, next)];
        sessions := next;
      }
    }

    method AddCost(id: string, cost: real)
      modifies this`sessions
      ensures sessions == if id in old(sessions) then old(sessions)[id := Charged(old(sessions)[id], cost)] else old(sessions)
    {
      if id in sessions {
        sessions := sessions[id := Charged(sessions[id], cost)];
      }
    }

    method DeactivateSession(id: string)
      modifies this`sessions
      ensures sessions == if id in old(sessions) then old(sessions)[id := old(sessions)[id].(active := false)]
                          else old(sessions)
    {
      if id in sessions {
        sessions := sessions[id := sessions[id].(active := false)];
      }
    }

    method ResetSession(id: string, limit: real)
      modifies this`sessions
      ensures sessions == if id in old(sessions)
                          then old(sessions)[id := Row(0.0, limit, true, old(sessions)[id].version + 1)]
                          else old(sessions)
    {
      if id in sessions {
        sessions := sessions[id := Row(0.0, limit, true, sessions[id].version + 1)];
      }
    }

    /**
     The reservation loop under arbitrary interference before each of its statements.
     Granted means exactly one charge of the estimate, every other answer means no change by
     this call; a denial names an instant at which the session was inactive or lacked room;
     a conflict needs one interfering statement per attempt, so left alone the call answers
     by the row it finds.
     */
    method ReserveBudget(id: string, estimate: real, maxRetries: int) returns (r: Reservation)
      modifies this
      ensures old(past) <= past && old(sessions).Keys <= sessions.Keys && foreign >= old(foreign)
      ensures r == Granted ==> exists w :: IsCharge(w, id, estimate) && writes == old(writes) + [w]
      ensures r != Granted ==> writes == old(writes)
      ensures r == Denied ==>
        exists k :: |old(past)| <= k < |past| && id in past[k] && !HasRoom(past[k][id], estimate)
      ensures r == Missing ==> exists k :: |old(past)| <= k < |past| && id !in past[k]
      ensures id in old(sessions) ==> r != Missing
      ensures r == Conflict ==> foreign >= old(foreign) + (if maxRetries <= 0 then 3 else maxRetries)
      ensures foreign == old(foreign) ==>
        && (r == Missing <==> id !in old(sessions))
        && (r == Granted <==> id in old(sessions) && HasRoom(old(sessions)[id], estimate))
        && r != Conflict
        && sessions == if r == Granted then old(sessions)[id := Charged(old(sessions)[id], estimate)] else old(sessions)
    {
      var retries := if maxRetries <= 0 then 3 else maxRetries;
      var attempt := 0;
      while attempt < retries
        invariant 0 <= attempt <= retries
        invariant old(past) <= past && old(sessions).Keys <= sessions.Keys
        invariant writes == old(writes)
        invariant foreign >= old(foreign) + attempt
        invariant foreign == old(foreign) ==> sessions == old(sessions)
      {
        Interfere();
        var ok := TryReserveBudget(id, estimate);
        if ok {
          assert IsCharge(writes[|old(writes)|], id, estimate);
          return Granted;
        }
        Interfere();
        var row := GetSession(id);
        assert past[|past| - 1] == sessions;
        if row.None? {
          return Missing;
        }
        if !row.value.active {
          return Denied;
        }
        if row.value.cost + estimate > row.value.limit {
          return Denied;
        }
        attempt := attempt + 1;
      }
      r := Conflict;
    }

    /** Returns the session's row, creating it at most once and only if it was missing. */
    method GetOrCreateSession(id: string, limit: real) returns (row: Row)
      modifies this
      ensures old(past) <= past && old(sessions).Keys <= sessions.Keys && foreign >= old(foreign)
      ensures id in sessions && row == sessions[id]
      ensures writes == old(writes) || exists w :: IsCreation(w, id, limit) && writes == old(writes) + [w]
      ensures id in old(sessions) ==> writes == old(writes)
      ensures foreign == old(foreign) ==>
        sessions == if id in old(sessions) then old(sessions) else old(sessions)[id := Row(0.0, limit, true, 0)]
      decreases if id in sessions then 0 else 1
    {
      Interfere();
      var found := GetSession(id);
      if found.Some? {
        return found.value;
      }
      Interfere();
      var ok := InsertSession(id, limit);
      if !ok {
        row := GetOrCreateSession(id, limit);
        return;
      }
      assert IsCreation(writes[|old(writes)|], id, limit);
      Interfere();
      var again := GetSession(id);
      row := again.value;
    }
  }

  datatype BudgetResult = Reserved(session: Row) | Exceeded(session: Row) | Failed(reason: Reservation)

  class Manager {
    const store: Store
    var maxCostPerSession: real

    constructor (store: Store, limit: real)
      ensures this.store == store && maxCostPerSession == limit
    {
      this.store := store;
      maxCostPerSession := limit;
    }

    /** A successful call leaves exactly one charge of the estimate behind; a refused or
        failed one leaves none, whatever else happened meanwhile. Left alone, the call
        succeeds exactly when the session (new or known) is active and has room. */
    method RequireBudget(id: string, estimate: real) returns (r: BudgetResult)
      modifies store
      ensures id in store.sessions && store.foreign >= old(store.foreign)
      ensures exists pre ::
        && (pre == [] || exists c :: pre == [c] && IsCreation(c, id, maxCostPerSession))
        && if r.Reserved? then exists w :: IsCharge(w, id, estimate) && store.writes == old(store.writes) + pre + [w]
           else store.writes == old(store.writes) + pre
      ensures r.Failed? ==> r.reason == Conflict && store.foreign > old(store.foreign)
      ensures store.foreign == old(store.foreign) ==>
        var row := if id in old(store.sessions) then old(store.sessions)[id] else Row(0.0, maxCostPerSession, true, 0);
        && (r.Reserved? <==> HasRoom(row, estimate))
        && r.session == (if r.Reserved? then Charged(row, estimate) else row)
        && store.sessions == old(store.sessions)[id := r.session]
    {
      var session := store.GetOrCreateSession(id, maxCostPerSession);
      ghost var pre := store.writes[|old(store.writes)|..];
      assert pre == [] || IsCreation(pre[0], id, maxCostPerSession);
      if !session.active {
        assert store.writes == old(store.writes) + pre;
        return Exceeded(session);
      }
      ghost var created := store.writes;
      var reservation := store.ReserveBudget(id, estimate, 3);
      assert created == old(store.writes) + pre;
      if reservation == Conflict || reservation == Missing {
        return Failed(reservation);
      }
      store.Interfere();
      var row := store.GetSession(id);
      if reservation == Denied {
        return Exceeded(row.value);
      }
      r := Reserved(row.value);
    }

    method SettleCost(id: string, reserved: real, actual: real) returns (ok: bool)
      modifies store
      ensures store.foreign == old(store.foreign)
      ensures id in old(store.sessions) ==>
        var (row, settled) := Settle(old(store.sessions)[id], reserved, actual);
        ok == settled && store.sessions == old(store.sessions)[id := row]
      ensures id !in old(store.sessions) ==>
        store.sessions == old(store.sessions) && (ok <==> actual - reserved < BUDGET_EPSILON)
    {
      ok := store.AdjustReservedCost(id, reserved, actual);
    }

    /** Without the kill switch costs are added up, whatever the limit. */
    method AddCost(id: string, cost: real)
      modifies store
      ensures store.foreign == old(store.foreign)
      ensures store.sessions ==
        if id in old(store.sessions) then old(store.sessions)[id := Charged(old(store.sessions)[id], cost)]
        else old(store.sessions)
    {
      store.AddCost(id, cost);
    }

    /** A non-positive limit means the manager's own. */
    method ResetSession(id: string, limit: real)
      modifies store
      ensures store.sessions ==
        if id in old(store.sessions)
        then old(store.sessions)[id := Row(0.0, if limit <= 0.0 then maxCostPerSession else limit, true,
                                           old(store.sessions)[id].version + 1)]
        else old(store.sessions)
    {
      store.ResetSession(id, if limit <= 0.0 then maxCostPerSession else limit);
    }

    method SetMaxCostPerSession(limit: real)
      modifies this
      ensures maxCostPerSession == if limit > 0.0 then limit else old(maxCostPerSession)
    {
      if limit > 0.0 {
        maxCostPerSession := limit;
      }
    }
  }
}
