/**
 All requests of one session at once (internal/router/router.go with the kill switch on).
 Every request is a small program whose steps are the SQL statements of
 SessionStore; a run is any interleaving of those steps, of provider replies and of
 administrative statements. The ledger lemmas say what the session row means in every
 reachable state.
 */
module BudgetProtocol {
  import opened Common
  import opened SessionStore

  const ESTIMATE: real := 5.0
  const MAX_RETRIES: nat := 3

  /** Where a request stands. Round 0 of the session lookup is Route's own, round 1 is
      RequireBudget's; each reads the manager's limit once, before its first statement, and
      keeps it through its retries. */
  datatype Pc =
    | Enter(round: nat)
    | Lookup(round: nat, limit: real)
    | Insert(round: nat, limit: real)
    | Reread(round: nat)
    | Reserve(attempt: nat)
    | Inspect(attempt: nat)
    | Confirm
    | Calling
    | Settling(actual: real)
    | Settled(actual: real, charge: real)
    | CallFailed
    | SettleFailed(actual: real)
    | Refused
    | Conflicted

  datatype State = State(row: Option<Row>, reqs: seq<Pc>, managerLimit: real)

  datatype Event =
    | Arrive
    | Advance(req: nat)
    | Reply(req: nat, cost: Option<real>)
    | SettleError(req: nat)
    | Deactivate
    | SetMax(limit: real)
    | Reset(limit: real)

  /** A negative provider cost means "not reported" and is booked as zero. */
  function FinalCost(reported: real): real {
    if reported >= 0.0 then reported else 0.0
  }

  function AfterSession(row: Row, round: nat): Pc {
    if round == 0 then Enter(1)
    else if row.active then Reserve(0) else Refused
  }

  /** One statement of one request. A failed call, a failed top-up and a settlement that
      the database rejects all end the request without giving the reservation back. */
  function Statement(row: Option<Row>, pc: Pc, managerLimit: real): (Option<Row>, Pc) {
    match pc
    case Enter(round) => (row, Lookup(round, managerLimit))
    case Lookup(round, limit) =>
      (row, if row.Some? then AfterSession(row.value, round) else Insert(round, limit))
    case Insert(round, limit) =>
      if row.Some? then (row, Lookup(round, limit)) else (Some(Row(0.0, limit, true, 0)), Reread(round))
    case Reread(round) =>
      (row, if row.Some? then AfterSession(row.value, round) else Conflicted)
    case Reserve(attempt) =>
      if row.Some? && HasRoom(row.value, ESTIMATE) then (Some(Charged(row.value, ESTIMATE)), Confirm)
      else (row, Inspect(attempt))
    case Inspect(attempt) =>
      if row.None? then (row, Conflicted)
      else if !HasRoom(row.value, ESTIMATE) then (row, Refused)
      else (row, if attempt + 1 < MAX_RETRIES then Reserve(attempt + 1) else Conflicted)
    case Confirm => (row, Calling)
    case Settling(actual) =>
      if row.None? then (row, if actual - ESTIMATE < BUDGET_EPSILON then Settled(actual, 0.0) else SettleFailed(actual))
      else
        var (after, ok) := Settle(row.value, ESTIMATE, actual);
        (Some(after), if ok then Settled(actual, ESTIMATE + after.cost - row.value.cost) else SettleFailed(actual))
    case _ => (row, pc)
  }

  function Step(s: State, e: Event): State {
    match e
    case Arrive => s.(reqs := s.reqs + [Enter(0)])
    case Advance(i) =>
      if i >= |s.reqs| then s
      else
        var (row, pc) := Statement(s.row, s.reqs[i], s.managerLimit);
        s.(row := row, reqs := s.reqs[i := pc])
    case Reply(i, cost) =>
      if i >= |s.reqs| || s.reqs[i] != Calling then s
      else s.(reqs := s.reqs[i := if cost.None? then CallFailed else Settling(FinalCost(cost.value))])
    case SettleError(i) =>
      if i >= |s.reqs| || !s.reqs[i].Settling? then s
      else s.(reqs := s.reqs[i := SettleFailed(s.reqs[i].actual)])
    case Deactivate => if s.row.None? then s else s.(row := Some(s.row.value.(active := false)))
    case SetMax(limit) => if limit > 0.0 then s.(managerLimit := limit) else s
    case Reset(limit) =>
      if s.row.None? then s
      else s.(row := Some(Row(0.0, if limit <= 0.0 then s.managerLimit else limit, true, s.row.value.version + 1)))
  }

  /** The state after any sequence of events on a session nobody has used yet. */
  function Run(managerLimit: real, es: seq<Event>): State {
    if es == [] then State(None, [], managerLimit)
    else Step(Run(managerLimit, es[..|es| - 1]), es[|es| - 1])
  }

  // ---- Safety -------------------------------------------------------------

  /** The cost never passes the limit; a row whose limit is negative stays at zero. */
  ghost predicate WithinLimit(row: Option<Row>) {
    row.Some? ==> 0.0 <= row.value.cost && (row.value.cost <= row.value.limit || row.value.cost == 0.0)
  }

  ghost predicate CostsKnown(reqs: seq<Pc>) {
    forall i :: 0 <= i < |reqs| && reqs[i].Settling? ==> reqs[i].actual >= 0.0
  }

  lemma StepKeepsLimit(s: State, e: Event)
    requires WithinLimit(s.row) && CostsKnown(s.reqs)
    ensures WithinLimit(Step(s, e).row) && CostsKnown(Step(s, e).reqs)
  {
  }

  /** Budget safety: in every interleaving, resets, deactivations and limit changes
      included, the session row stays within its limit. */
  lemma {:induction false} BudgetSafety(managerLimit: real, es: seq<Event>)
    ensures var s := Run(managerLimit, es);
      && WithinLimit(s.row) && CostsKnown(s.reqs)
      && (s.row.Some? && s.row.value.limit >= 0.0 ==> 0.0 <= s.row.value.cost <= s.row.value.limit)
  {
    if es == [] {
    } else {
      BudgetSafety(managerLimit, es[..|es| - 1]);
      StepKeepsLimit(Run(managerLimit, es[..|es| - 1]), es[|es| - 1]);
    }
  }

  // ---- The ledger ---------------------------------------------------------

  /** What a request currently accounts for on the row. */
  function Held(pc: Pc): real {
    match pc
    case Settled(_, charge) => charge
    case Confirm => ESTIMATE
    case Calling => ESTIMATE
    case Settling(_) => ESTIMATE
    case CallFailed => ESTIMATE
    case SettleFailed(_) => ESTIMATE
    case _ => 0.0
  }

  function SumHeld(reqs: seq<Pc>): real {
    if reqs == [] then 0.0 else SumHeld(reqs[..|reqs| - 1]) + Held(reqs[|reqs| - 1])
  }

  /** Requests that still own their reservation and may yet settle it. */
  predicate IsOutstanding(pc: Pc) {
    pc.Confirm? || pc.Calling? || pc.Settling?
  }

  /** Requests that ended with the reservation still on the row. */
  predicate IsAbandoned(pc: Pc) {
    pc.CallFailed? || pc.SettleFailed?
  }

  function Outstanding(reqs: seq<Pc>): nat {
    if reqs == [] then 0
    else Outstanding(reqs[..|reqs| - 1]) + (if IsOutstanding(reqs[|reqs| - 1]) then 1 else 0)
  }

  function Abandoned(reqs: seq<Pc>): nat {
    if reqs == [] then 0
    else Abandoned(reqs[..|reqs| - 1]) + (if IsAbandoned(reqs[|reqs| - 1]) then 1 else 0)
  }

  function SettledCount(reqs: seq<Pc>): nat {
    if reqs == [] then 0
    else SettledCount(reqs[..|reqs| - 1]) + (if reqs[|reqs| - 1].Settled? then 1 else 0)
  }

  /** The sum of the settled requests' final costs, as the callers were told. */
  function ActualTotal(reqs: seq<Pc>): real {
    if reqs == [] then 0.0
    else
      var last := reqs[|reqs| - 1];
      ActualTotal(reqs[..|reqs| - 1]) + (if last.Settled? then last.actual else 0.0)
  }

  function ChargeTotal(reqs: seq<Pc>): real {
    if reqs == [] then 0.0
    else
      var last := reqs[|reqs| - 1];
      ChargeTotal(reqs[..|reqs| - 1]) + (if last.Settled? then last.charge else 0.0)
  }

  lemma {:induction false} SumHeldUpdate(reqs: seq<Pc>, i: nat, pc: Pc)
    requires i < |reqs|
    ensures SumHeld(reqs[i := pc]) == SumHeld(reqs) - Held(reqs[i]) + Held(pc)
  {
    var n := |reqs| - 1;
    if i == n {
      assert reqs[i := pc][..n] == reqs[..n];
    } else {
      SumHeldUpdate(reqs[..n], i, pc);
      assert reqs[i := pc][..n] == reqs[..n][i := pc];
    }
  }

  lemma {:induction false} SumHeldAtLeast(reqs: seq<Pc>, i: nat)
    requires i < |reqs|
    requires forall k :: 0 <= k < |reqs| ==> Held(reqs[k]) >= 0.0
    ensures SumHeld(reqs) >= Held(reqs[i])
  {
    var n := |reqs| - 1;
    if i == n {
      if n > 0 {
        SumHeldAtLeast(reqs[..n], 0);
        assert reqs[..n][0] == reqs[0];
      }
    } else {
      SumHeldAtLeast(reqs[..n], i);
    }
  }

  /** The held amounts, sorted into the three buckets. */
  lemma {:induction false} LedgerBuckets(reqs: seq<Pc>)
    ensures SumHeld(reqs) ==
      ESTIMATE * (Outstanding(reqs) as real) + ESTIMATE * (Abandoned(reqs) as real) + ChargeTotal(reqs)
  {
    if reqs == [] {
    } else {
      LedgerBuckets(reqs[..|reqs| - 1]);
    }
  }

  ghost predicate ChargeFair(pc: Pc) {
    pc.Settled? ==> pc.actual >= 0.0 && pc.charge >= 0.0 && Negligible(pc.charge - pc.actual)
  }

  /** A request is past the session lookup only once the row exists. */
  predicate NeedsRow(pc: Pc) {
    !pc.Enter? && !pc.Lookup? && !pc.Insert?
  }

  ghost predicate Ledger(s: State) {
    && CostsKnown(s.reqs)
    && (forall i :: 0 <= i < |s.reqs| ==> ChargeFair(s.reqs[i]))
    && (forall i :: 0 <= i < |s.reqs| && NeedsRow(s.reqs[i]) ==> s.row.Some?)
    && SumHeld(s.reqs) == if s.row.Some? then s.row.value.cost else 0.0
  }

  lemma HeldNonNegative(reqs: seq<Pc>)
    requires forall i :: 0 <= i < |reqs| ==> ChargeFair(reqs[i])
    ensures forall k :: 0 <= k < |reqs| ==> Held(reqs[k]) >= 0.0
  {
  }

  function Cost(row: Option<Row>): real {
    if row.Some? then row.value.cost else 0.0
  }

  /** While a request settles, its reservation is on the row: the refund cannot clamp. */
  lemma ClampNeverFires(s: State, i: nat)
    requires Ledger(s) && i < |s.reqs| && s.reqs[i].Settling?
    ensures s.row.Some? && s.row.value.cost + (s.reqs[i].actual - ESTIMATE) >= 0.0
  {
    HeldNonNegative(s.reqs);
    SumHeldAtLeast(s.reqs, i);
  }

  /** The row moves by exactly what the request's own entry moves by. */
  lemma StatementBalances(row: Option<Row>, pc: Pc, managerLimit: real)
    requires NeedsRow(pc) ==> row.Some?
    requires ChargeFair(pc)
    requires pc.Settling? ==> pc.actual >= 0.0 && row.value.cost >= ESTIMATE
    ensures var (after, next) := Statement(row, pc, managerLimit);
      && Cost(after) - Cost(row) == Held(next) - Held(pc)
      && ChargeFair(next) && (next.Settling? ==> pc.Settling?)
      && (NeedsRow(next) || row.Some? ==> after.Some?)
  {
  }

  lemma EntryKeepsLedger(s: State, i: nat, row: Option<Row>, pc: Pc)
    requires Ledger(s) && i < |s.reqs|
    requires Cost(row) - Cost(s.row) == Held(pc) - Held(s.reqs[i])
    requires ChargeFair(pc) && (pc.Settling? ==> pc.actual >= 0.0)
    requires NeedsRow(pc) || s.row.Some? ==> row.Some?
    ensures Ledger(s.(row := row, reqs := s.reqs[i := pc]))
  {
    SumHeldUpdate(s.reqs, i, pc);
  }

  lemma StepKeepsLedger(s: State, e: Event)
    requires Ledger(s) && !e.Reset?
    ensures Ledger(Step(s, e))
  {
    match e
    case Arrive =>
      assert Step(s, e).reqs[..|s.reqs|] == s.reqs;
    case Advance(i) =>
      if i < |s.reqs| {
        if s.reqs[i].Settling? {
          HeldNonNegative(s.reqs);
          SumHeldAtLeast(s.reqs, i);
        }
        StatementBalances(s.row, s.reqs[i], s.managerLimit);
        var (row, pc) := Statement(s.row, s.reqs[i], s.managerLimit);
        EntryKeepsLedger(s, i, row, pc);
      }
    case Reply(i, cost) =>
      if i < |s.reqs| && s.reqs[i] == Calling {
        EntryKeepsLedger(s, i, s.row, if cost.None? then CallFailed else Settling(FinalCost(cost.value)));
      }
    case SettleError(i) =>
      if i < |s.reqs| && s.reqs[i].Settling? {
        EntryKeepsLedger(s, i, s.row, SettleFailed(s.reqs[i].actual));
      }
    case _ =>
  }

  ghost predicate NoReset(es: seq<Event>) {
    forall k :: 0 <= k < |es| ==> !es[k].Reset?
  }

  lemma {:induction false} RunKeepsLedger(managerLimit: real, es: seq<Event>)
    requires NoReset(es)
    ensures Ledger(Run(managerLimit, es))
  {
    if es == [] {
    } else {
      RunKeepsLedger(managerLimit, es[..|es| - 1]);
      StepKeepsLedger(Run(managerLimit, es[..|es| - 1]), es[|es| - 1]);
    }
  }

  /** Conservation: in every interleaving the row holds exactly the reservations that are
      outstanding, those that were abandoned, and what was settled; every settled charge is
      within the epsilon of its actual cost. */
  lemma Conservation(managerLimit: real, es: seq<Event>)
    requires NoReset(es)
    ensures var s := Run(managerLimit, es);
      && (s.row.Some? ==>
            s.row.value.cost == ESTIMATE * (Outstanding(s.reqs) as real)
                                + ESTIMATE * (Abandoned(s.reqs) as real) + ChargeTotal(s.reqs))
      && (s.row.None? ==> Outstanding(s.reqs) == Abandoned(s.reqs) == SettledCount(s.reqs) == 0)
      && (forall i :: 0 <= i < |s.reqs| && s.reqs[i].Settled? ==> Negligible(s.reqs[i].charge - s.reqs[i].actual))
  {
    var s := Run(managerLimit, es);
    RunKeepsLedger(managerLimit, es);
    LedgerBuckets(s.reqs);
    if s.row.None? {
      NothingWithoutRow(s.reqs);
    }
  }

  lemma {:induction false} NothingWithoutRow(reqs: seq<Pc>)
    requires forall i :: 0 <= i < |reqs| ==> !NeedsRow(reqs[i])
    ensures Outstanding(reqs) == Abandoned(reqs) == SettledCount(reqs) == 0
  {
    if reqs == [] {
    } else {
      NothingWithoutRow(reqs[..|reqs| - 1]);
    }
  }

  /** Money that is not there cannot be reserved: at most limit/5 reservations are
      outstanding or abandoned at any instant. */
  lemma ReservationBound(managerLimit: real, es: seq<Event>)
    requires NoReset(es)
    ensures var s := Run(managerLimit, es);
      s.row.Some? && s.row.value.limit >= 0.0 ==>
        Outstanding(s.reqs) + Abandoned(s.reqs) <= (s.row.value.limit / ESTIMATE).Floor
  {
    var s := Run(managerLimit, es);
    Conservation(managerLimit, es);
    BudgetSafety(managerLimit, es);
    RunKeepsLedger(managerLimit, es);
    ChargesNonNegative(s.reqs);
    if s.row.Some? && s.row.value.limit >= 0.0 {
      var n := Outstanding(s.reqs) + Abandoned(s.reqs);
      assert ESTIMATE * (n as real) <= s.row.value.limit;
      assert n as real <= s.row.value.limit / ESTIMATE;
    }
  }

  lemma {:induction false} ChargesNonNegative(reqs: seq<Pc>)
    requires forall i :: 0 <= i < |reqs| ==> ChargeFair(reqs[i])
    ensures ChargeTotal(reqs) >= 0.0
    ensures -BUDGET_EPSILON * (SettledCount(reqs) as real) <= ChargeTotal(reqs) - ActualTotal(reqs)
            <= BUDGET_EPSILON * (SettledCount(reqs) as real)
  {
    if reqs == [] {
    } else {
      ChargesNonNegative(reqs[..|reqs| - 1]);
    }
  }

  /**
   The promise that a session's row tracks its cumulative cost. Once nothing is
   outstanding, the row is within n epsilons of the n settled costs exactly when no
   reservation was abandoned (for any n below 25000, where the epsilons cannot themselves
   add up to half a reservation).
   */
  lemma TracksCostIffNothingAbandoned(managerLimit: real, es: seq<Event>)
    requires NoReset(es)
    ensures var s := Run(managerLimit, es);
      s.row.Some? && Outstanding(s.reqs) == 0 ==>
        var error := s.row.value.cost - ActualTotal(s.reqs);
        var slack := BUDGET_EPSILON * (SettledCount(s.reqs) as real);
        && (Abandoned(s.reqs) == 0 ==> -slack <= error <= slack)
        && (SettledCount(s.reqs) < 25000 ==> (Abandoned(s.reqs) == 0 <==> -slack <= error <= slack))
  {
    Conservation(managerLimit, es);
    RunKeepsLedger(managerLimit, es);
    ChargesNonNegative(Run(managerLimit, es).reqs);
  }

  // ---- Abandoned reservations lock a session ------------------------------

  lemma {:induction false} AbandonedUpdate(reqs: seq<Pc>, i: nat, pc: Pc)
    requires i < |reqs| && (IsAbandoned(reqs[i]) ==> IsAbandoned(pc))
    ensures Abandoned(reqs[i := pc]) >= Abandoned(reqs)
  {
    var n := |reqs| - 1;
    if i == n {
      assert reqs[i := pc][..n] == reqs[..n];
    } else {
      AbandonedUpdate(reqs[..n], i, pc);
      assert reqs[i := pc][..n] == reqs[..n][i := pc];
    }
  }

  lemma {:induction false} OneMoreAbandoned(reqs: seq<Pc>, i: nat, pc: Pc)
    requires i < |reqs| && !IsAbandoned(reqs[i]) && IsAbandoned(pc)
    ensures Abandoned(reqs[i := pc]) == Abandoned(reqs) + 1
  {
    var n := |reqs| - 1;
    if i == n {
      assert reqs[i := pc][..n] == reqs[..n];
    } else {
      OneMoreAbandoned(reqs[..n], i, pc);
      assert reqs[i := pc][..n] == reqs[..n][i := pc];
    }
  }

  /** A call that fails and a settlement that the database rejects each abandon the request's
      reservation: the row keeps it. */
  lemma FailuresAbandon(s: State, i: nat)
    requires i < |s.reqs|
    ensures s.reqs[i].Calling? ==>
      var t := Step(s, Reply(i, None)); t.row == s.row && Abandoned(t.reqs) == Abandoned(s.reqs) + 1
    ensures s.reqs[i].Settling? ==>
      var t := Step(s, SettleError(i)); t.row == s.row && Abandoned(t.reqs) == Abandoned(s.reqs) + 1
  {
    if s.reqs[i].Calling? {
      OneMoreAbandoned(s.reqs, i, CallFailed);
    } else if s.reqs[i].Settling? {
      OneMoreAbandoned(s.reqs, i, SettleFailed(s.reqs[i].actual));
    }
  }

  lemma StepKeepsAbandoned(s: State, e: Event)
    ensures Abandoned(Step(s, e).reqs) >= Abandoned(s.reqs)
  {
    var t := Step(s, e);
    match e
    case Arrive =>
      assert t.reqs[..|s.reqs|] == s.reqs;
    case Advance(i) =>
      if i < |s.reqs| {
        AbandonedUpdate(s.reqs, i, t.reqs[i]);
      }
    case SettleError(i) =>
      if i < |s.reqs| && s.reqs[i].Settling? {
        AbandonedUpdate(s.reqs, i, t.reqs[i]);
      }
    case Reply(i, cost) =>
      if i < |s.reqs| && s.reqs[i] == Calling {
        AbandonedUpdate(s.reqs, i, t.reqs[i]);
      }
    case _ =>
  }

  lemma StepKeepsRowLimit(s: State, e: Event)
    requires s.row.Some? && !e.Reset?
    ensures Step(s, e).row.Some? && Step(s, e).row.value.limit == s.row.value.limit
  {
  }

  /** Play events one after the other from a given state. */
  function Play(s: State, es: seq<Event>): State
    decreases |es|
  {
    if es == [] then s else Play(Step(s, es[0]), es[1..])
  }

  lemma {:induction false} PlayIsRun(managerLimit: real, es: seq<Event>, more: seq<Event>)
    ensures Play(Run(managerLimit, es), more) == Run(managerLimit, es + more)
    decreases |more|
  {
    if more == [] {
      assert es + more == es;
    } else {
      var next := es + [more[0]];
      assert next[..|next| - 1] == es;
      PlayIsRun(managerLimit, next, more[1..]);
      assert next + more[1..] == es + more;
    }
  }

  /** The abandoned reservations leave less than one estimate of the limit. */
  ghost predicate Locked(s: State) {
    && Ledger(s) && s.row.Some?
    && ESTIMATE * (Abandoned(s.reqs) as real) + ESTIMATE > s.row.value.limit
  }

  lemma NoRoomBesideAbandoned(s: State)
    requires Locked(s)
    ensures !HasRoom(s.row.value, ESTIMATE)
  {
    LedgerBuckets(s.reqs);
    ChargesNonNegative(s.reqs);
    assert ESTIMATE * (Outstanding(s.reqs) as real) >= 0.0;
  }

  lemma {:induction false} NoneOutstanding(reqs: seq<Pc>)
    requires Outstanding(reqs) == 0
    ensures forall i :: 0 <= i < |reqs| ==> !IsOutstanding(reqs[i])
  {
    if reqs == [] {
    } else {
      NoneOutstanding(reqs[..|reqs| - 1]);
    }
  }

  lemma {:induction false} SettledSame(a: seq<Pc>, b: seq<Pc>)
    requires |a| <= |b| && forall i :: 0 <= i < |b| ==>
      (if i < |a| then a[i].Settled? || b[i].Settled? ==> a[i] == b[i] else !b[i].Settled?)
    ensures SettledCount(a) == SettledCount(b) && ActualTotal(a) == ActualTotal(b)
    decreases |b|
  {
    if b == [] {
    } else if |a| < |b| {
      SettledSame(a, b[..|b| - 1]);
    } else {
      SettledSame(a[..|a| - 1], b[..|b| - 1]);
    }
  }

  /** Nobody holds a reservation that could still be settled. */
  ghost predicate Idle(s: State) {
    forall i :: 0 <= i < |s.reqs| ==> !IsOutstanding(s.reqs[i])
  }

  /** What was settled stays, and nothing else is settled. */
  ghost predicate NobodySettled(s: State, t: State) {
    && |s.reqs| <= |t.reqs|
    && forall i :: 0 <= i < |t.reqs| ==>
         (if i < |s.reqs| then s.reqs[i].Settled? || t.reqs[i].Settled? ==> s.reqs[i] == t.reqs[i]
          else !t.reqs[i].Settled?)
  }

  lemma IdleStep(s: State, e: Event)
    requires Idle(s) && s.row.Some? && !HasRoom(s.row.value, ESTIMATE) && !e.Reset?
    ensures Idle(Step(s, e)) && NobodySettled(s, Step(s, e))
  {
  }

  lemma NobodySettledChain(s: State, t: State, u: State)
    requires NobodySettled(s, t) && NobodySettled(t, u)
    ensures NobodySettled(s, u)
  {
    forall i | 0 <= i < |u.reqs|
      ensures if i < |s.reqs| then s.reqs[i].Settled? || u.reqs[i].Settled? ==> s.reqs[i] == u.reqs[i]
              else !u.reqs[i].Settled?
    {
      if i < |t.reqs| {
        assert if i < |s.reqs| then s.reqs[i].Settled? || t.reqs[i].Settled? ==> s.reqs[i] == t.reqs[i]
               else !t.reqs[i].Settled?;
      }
    }
  }

  lemma NoneFits(outstanding: nat, abandoned: nat, charges: real, cost: real, limit: real)
    requires cost == ESTIMATE * (outstanding as real) + ESTIMATE * (abandoned as real) + charges && charges >= 0.0
    requires ESTIMATE * (abandoned as real) + ESTIMATE > limit && (cost <= limit || cost == 0.0)
    ensures outstanding == 0
  {
  }

  lemma LockedIsIdle(s: State)
    requires Locked(s) && WithinLimit(s.row)
    ensures Idle(s)
  {
    LedgerBuckets(s.reqs);
    ChargesNonNegative(s.reqs);
    NoneFits(Outstanding(s.reqs), Abandoned(s.reqs), ChargeTotal(s.reqs), s.row.value.cost, s.row.value.limit);
    NoneOutstanding(s.reqs);
  }

  lemma LockedStep(s: State, e: Event)
    requires Locked(s) && !e.Reset?
    ensures Locked(Step(s, e)) && Step(s, e).row.value.limit == s.row.value.limit
    ensures Abandoned(Step(s, e).reqs) >= Abandoned(s.reqs)
  {
    StepKeepsLedger(s, e);
    StepKeepsAbandoned(s, e);
    StepKeepsRowLimit(s, e);
  }

  lemma LockedMore(s: State, e: Event)
    requires Locked(s) && Idle(s) && !e.Reset?
    ensures var t := Step(s, e);
      && Locked(t) && Idle(t) && NobodySettled(s, t)
      && t.row.value.limit == s.row.value.limit && Abandoned(t.reqs) >= Abandoned(s.reqs)
  {
    LockedStep(s, e);
    NoRoomBesideAbandoned(s);
    IdleStep(s, e);
  }

  lemma {:induction false} LockedPlay(s: State, es: seq<Event>)
    requires Locked(s) && Idle(s) && NoReset(es)
    ensures var t := Play(s, es);
      && Locked(t) && NobodySettled(s, t)
      && t.row.value.limit == s.row.value.limit && Abandoned(t.reqs) >= Abandoned(s.reqs)
    decreases |es|
  {
    if es == [] {
    } else {
      var next := Step(s, es[0]);
      LockedMore(s, es[0]);
      LockedPlay(next, es[1..]);
      NobodySettledChain(s, next, Play(next, es[1..]));
    }
  }

  /** Nothing but a reset gives an abandoned reservation back: once they leave less than one
      estimate of the limit, there is never room again and no request of the session is ever
      settled again. */
  lemma AbandonedLockSession(managerLimit: real, es: seq<Event>, more: seq<Event>)
    requires NoReset(es) && NoReset(more)
    requires Run(managerLimit, es).row.Some?
    requires var s := Run(managerLimit, es);
      ESTIMATE * (Abandoned(s.reqs) as real) + ESTIMATE > s.row.value.limit
    ensures var s, t := Run(managerLimit, es), Run(managerLimit, es + more);
      && t.row.Some? && t.row.value.limit == s.row.value.limit
      && Abandoned(t.reqs) >= Abandoned(s.reqs)
      && !HasRoom(t.row.value, ESTIMATE)
      && NobodySettled(s, t) && SettledCount(t.reqs) == SettledCount(s.reqs) && ActualTotal(t.reqs) == ActualTotal(s.reqs)
  {
    var s := Run(managerLimit, es);
    RunKeepsLedger(managerLimit, es);
    BudgetSafety(managerLimit, es);
    LockedIsIdle(s);
    LockedPlay(s, more);
    PlayIsRun(managerLimit, es, more);
    NoRoomBesideAbandoned(Play(s, more));
    SettledSame(s.reqs, Play(s, more).reqs);
  }

  /** One request alone on a fresh session, whose provider call fails. */
  const FAILING_CALL: seq<Event> :=
    [Arrive, Advance(0), Advance(0)] + [Advance(0), Advance(0), Advance(0)]
    + [Advance(0), Advance(0), Advance(0)] + [Reply(0, None)]

  lemma PlayThree(s: State, a: Event, b: Event, c: Event)
    ensures Play(s, [a, b, c]) == Step(Step(Step(s, a), b), c)
  {
    assert [a, b, c][1..] == [b, c] && [b, c][1..] == [c] && [c][1..] == [];
    var s1 := Step(s, a);
    var s2 := Step(s1, b);
    assert Play(s2, [c]) == Step(s2, c);
    assert Play(s1, [b, c]) == Play(s2, [c]);
  }

  lemma {:induction false} PlayAppend(s: State, es: seq<Event>, more: seq<Event>)
    ensures Play(s, es + more) == Play(Play(s, es), more)
    decreases |es|
  {
    if es == [] {
      assert es + more == more;
    } else {
      assert (es + more)[1..] == es[1..] + more;
      PlayAppend(Step(s, es[0]), es[1..], more);
    }
  }

  /** Both session lookups, up to the second one's first statement. */
  lemma SessionCreated()
    ensures Play(State(None, [], 10.0), [Arrive, Advance(0), Advance(0)]) == State(None, [Insert(0, 10.0)], 10.0)
    ensures Play(State(None, [Insert(0, 10.0)], 10.0), [Advance(0), Advance(0), Advance(0)])
         == State(Some(Row(0.0, 10.0, true, 0)), [Lookup(1, 10.0)], 10.0)
  {
    PlayThree(State(None, [], 10.0), Arrive, Advance(0), Advance(0));
    PlayThree(State(None, [Insert(0, 10.0)], 10.0), Advance(0), Advance(0), Advance(0));
  }

  lemma MoneyReserved()
    ensures Play(State(Some(Row(0.0, 10.0, true, 0)), [Lookup(1, 10.0)], 10.0), [Advance(0), Advance(0), Advance(0)])
         == State(Some(Row(5.0, 10.0, true, 1)), [Calling], 10.0)
  {
    PlayThree(State(Some(Row(0.0, 10.0, true, 0)), [Lookup(1, 10.0)], 10.0), Advance(0), Advance(0), Advance(0));
  }

  lemma CallFails(s: State)
    requires s.reqs == [Calling]
    ensures Play(s, [Reply(0, None)]) == s.(reqs := [CallFailed])
  {
    assert [Reply(0, None)][1..] == [];
    assert Step(s, Reply(0, None)) == s.(reqs := [CallFailed]);
  }

  /** The concrete case: one failed call on a session with the default limit leaves 5.0 of
      cost on the row although nothing was ever answered or paid. */
  lemma FailedCallLeaks()
    ensures var s := Run(10.0, FAILING_CALL);
      && s.reqs == [CallFailed]
      && s.row == Some(Row(5.0, 10.0, true, 1))
      && ActualTotal(s.reqs) == 0.0
  {
    var enter, move := [Arrive, Advance(0), Advance(0)], [Advance(0), Advance(0), Advance(0)];
    var s0 := State(None, [], 10.0);
    PlayIsRun(10.0, [], FAILING_CALL);
    assert [] + FAILING_CALL == FAILING_CALL;
    PlayAppend(s0, enter + move + move, [Reply(0, None)]);
    PlayAppend(s0, enter + move, move);
    PlayAppend(s0, enter, move);
    SessionCreated();
    MoneyReserved();
    CallFails(State(Some(Row(5.0, 10.0, true, 1)), [Calling], 10.0));
  }

  // ---- Administration -----------------------------------------------------

  /** Resetting empties the session and opens it again, under the given limit or, when that is not
      positive, the manager's; deactivating closes it; the manager takes positive limits only. None of
      this touches a request. */
  lemma AdministrationMeans(s: State, row: Row, limit: real)
    requires s.row == Some(row)
    ensures Step(s, Reset(limit)) == State(
      Some(Row(0.0, if limit > 0.0 then limit else s.managerLimit, true, row.version + 1)), s.reqs, s.managerLimit)
    ensures Step(s, Deactivate) == State(Some(Row(row.cost, row.limit, false, row.version)), s.reqs, s.managerLimit)
    ensures Step(s, SetMax(limit)) == State(s.row, s.reqs, if limit > 0.0 then limit else s.managerLimit)
  {
  }

  /** There is nothing to reset or to close before the session exists, and settling without it would
      fail for a top-up only. */
  lemma NothingThere(s: State, actual: real, limit: real)
    requires s.row == None
    ensures Step(s, Reset(limit)) == s == Step(s, Deactivate)
    ensures Statement(None, Settling(actual), s.managerLimit)
         == (None, if actual < 5.0001 then Settled(actual, 0.0) else SettleFailed(actual))
  {
  }

  // ---- One request alone --------------------------------------------------

  function Advanced(s: State, n: nat): State
    decreases n
  {
    if n == 0 then s else Advanced(Step(s, Advance(0)), n - 1)
  }

  lemma OneAdvance(row: Option<Row>, pc: Pc, m: real, n: nat)
    requires n > 0
    ensures var (r, p) := Statement(row, pc, m); Advanced(State(row, [pc], m), n) == Advanced(State(r, [p], m), n - 1)
  {
    assert [pc][0 := Statement(row, pc, m).1] == [Statement(row, pc, m).1];
  }

  lemma {:induction false} Waits(row: Option<Row>, pc: Pc, m: real, n: nat)
    requires pc.Calling? || pc.Refused?
    ensures Advanced(State(row, [pc], m), n) == State(row, [pc], m)
  {
    if n == 0 {
    } else {
      OneAdvance(row, pc, m, n);
      Waits(row, pc, m, n - 1);
    }
  }

  lemma KnownSession(row: Row, m: real, n: nat)
    requires n >= 4
    ensures Advanced(State(Some(row), [Enter(1)], m), n)
         == if row.active && row.cost + 5.0 <= row.limit
            then State(Some(Row(row.cost + 5.0, row.limit, true, row.version + 1)), [Calling], m)
            else State(Some(row), [Refused], m)
  {
    OneAdvance(Some(row), Enter(1), m, n);
    OneAdvance(Some(row), Lookup(1, m), m, n - 1);
    if row.active {
      OneAdvance(Some(row), Reserve(0), m, n - 2);
      if HasRoom(row, ESTIMATE) {
        OneAdvance(Some(Charged(row, ESTIMATE)), Confirm, m, n - 3);
        Waits(Some(Charged(row, ESTIMATE)), Calling, m, n - 4);
      } else {
        OneAdvance(Some(row), Inspect(0), m, n - 3);
        Waits(Some(row), Refused, m, n - 4);
      }
    } else {
      Waits(Some(row), Refused, m, n - 2);
    }
  }

  lemma NewSession(m: real, n: nat)
    requires n >= 6
    ensures Advanced(State(None, [Insert(0, m)], m), n)
         == Advanced(State(Some(Row(0.0, m, true, 0)), [Enter(1)], m), n - 2)
  {
    OneAdvance(None, Insert(0, m), m, n);
    OneAdvance(Some(Row(0.0, m, true, 0)), Reread(0), m, n - 1);
  }

  lemma FirstLookup(row: Option<Row>, m: real, n: nat)
    requires n >= 2
    ensures Advanced(State(row, [Enter(0)], m), n)
         == Advanced(State(row, [if row.Some? then Enter(1) else Insert(0, m)], m), n - 2)
  {
    OneAdvance(row, Enter(0), m, n);
    OneAdvance(row, Lookup(0, m), m, n - 1);
  }

  /** A request that nobody interferes with creates its session if need be, with the manager's
      limit, and then gets to its call with 5.0 more on the row, or, when the session is inactive or
      has no 5.0 left, is refused with the row as it was. */
  lemma AloneUntilCall(row: Option<Row>, m: real, n: nat)
    requires n >= 8
    ensures var found := if row.Some? then row.value else Row(0.0, m, true, 0);
      Advanced(State(row, [Enter(0)], m), n)
      == if found.active && found.cost + 5.0 <= found.limit
         then State(Some(Row(found.cost + 5.0, found.limit, true, found.version + 1)), [Calling], m)
         else State(Some(found), [Refused], m)
  {
    FirstLookup(row, m, n);
    if row.Some? {
      KnownSession(row.value, m, n - 2);
    } else {
      NewSession(m, n - 2);
      KnownSession(Row(0.0, m, true, 0), m, n - 4);
    }
  }

  /** A request that has lost a race for the reservation tries again, three times in all, as long as
      there is room. */
  lemma LostRace(row: Row, attempt: nat, m: real)
    requires row.active && row.cost + 5.0 <= row.limit
    ensures Statement(Some(row), Inspect(attempt), m) == (Some(row), if attempt < 2 then Reserve(attempt + 1) else Conflicted)
  {
  }
}
