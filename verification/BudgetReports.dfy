/**
 The costs the providers report, over all interleavings of the requests of one session
 (internal/router/router.go, finalCost and the settlement): what is settled is what was reported.
 */
module BudgetReports {
  import opened Common
  import opened SessionStore
  import opened BudgetProtocol

  /** The cost each call reported, by request: a reply counts when its request is calling. */
  function Reports(managerLimit: real, es: seq<Event>): map<nat, real> {
    if es == [] then map[]
    else
      var before, so := Run(managerLimit, es[..|es| - 1]), Reports(managerLimit, es[..|es| - 1]);
      match es[|es| - 1]
      case Reply(i, Some(cost)) => if i < |before.reqs| && before.reqs[i].Calling? then so[i := cost] else so
      case _ => so
  }

  /** What is to be booked for a request: its report, and nothing when that is negative. */
  predicate Owes(actual: real, reports: map<nat, real>, i: nat) {
    i in reports && actual == if reports[i] >= 0.0 then reports[i] else 0.0
  }

  /** A request has been reported exactly when its call is over and did not fail. */
  predicate ReportFits(pc: Pc, reports: map<nat, real>, i: nat) {
    match pc
    case Settling(actual) => Owes(actual, reports, i)
    case Settled(actual, _) => Owes(actual, reports, i)
    case SettleFailed(actual) => Owes(actual, reports, i)
    case _ => i !in reports
  }

  ghost predicate AllFit(s: State, reports: map<nat, real>) {
    && (forall i :: 0 <= i < |s.reqs| ==> ReportFits(s.reqs[i], reports, i))
    && (forall i :: i in reports ==> i < |s.reqs|)
  }

  lemma StatementFits(row: Option<Row>, pc: Pc, managerLimit: real, reports: map<nat, real>, i: nat)
    requires ReportFits(pc, reports, i)
    ensures ReportFits(Statement(row, pc, managerLimit).1, reports, i)
  {
  }

  /** What one event adds to the reports. */
  function Heard(s: State, e: Event, reports: map<nat, real>): map<nat, real> {
    match e
    case Reply(i, Some(cost)) => if i < |s.reqs| && s.reqs[i].Calling? then reports[i := cost] else reports
    case _ => reports
  }

  lemma StepFits(s: State, e: Event, reports: map<nat, real>)
    requires AllFit(s, reports)
    ensures AllFit(Step(s, e), Heard(s, e, reports))
  {
    match e
    case Advance(i) =>
      if i < |s.reqs| {
        StatementFits(s.row, s.reqs[i], s.managerLimit, reports, i);
      }
    case _ =>
  }

  /** In every interleaving the cost a request settles, has settled or failed to settle is the one
      its own call reported, or zero if that is negative; no other request has been reported. */
  lemma {:induction false} SettledIsReported(managerLimit: real, es: seq<Event>)
    ensures AllFit(Run(managerLimit, es), Reports(managerLimit, es))
  {
    if es == [] {
    } else {
      SettledIsReported(managerLimit, es[..|es| - 1]);
      StepFits(Run(managerLimit, es[..|es| - 1]), es[|es| - 1], Reports(managerLimit, es[..|es| - 1]));
    }
  }

  /** The reported costs of the settled requests, negative ones left out. */
  function ReportedTotal(reqs: seq<Pc>, reports: map<nat, real>): real {
    if reqs == [] then 0.0
    else
      var n := |reqs| - 1;
      ReportedTotal(reqs[..n], reports) + (if reqs[n].Settled? && n in reports && reports[n] > 0.0 then reports[n] else 0.0)
  }

  lemma {:induction false} TotalIsReported(reqs: seq<Pc>, reports: map<nat, real>)
    requires forall i :: 0 <= i < |reqs| ==> ReportFits(reqs[i], reports, i)
    ensures ActualTotal(reqs) == ReportedTotal(reqs, reports)
  {
    if reqs == [] {
    } else {
      TotalIsReported(reqs[..|reqs| - 1], reports);
    }
  }

  /** The promise that a session's row tracks its cost, in reported costs: when nothing is
      outstanding, it does up to 0.0001 for each settlement if nothing was abandoned, and below 25000
      settlements exactly then. */
  lemma TracksReportsIffNothingAbandoned(managerLimit: real, es: seq<Event>)
    requires NoReset(es)
    ensures var s, reports := Run(managerLimit, es), Reports(managerLimit, es);
      s.row.Some? && Outstanding(s.reqs) == 0 ==>
        var error := s.row.value.cost - ReportedTotal(s.reqs, reports);
        var slack := 0.0001 * (SettledCount(s.reqs) as real);
        && (Abandoned(s.reqs) == 0 ==> -slack <= error <= slack)
        && (SettledCount(s.reqs) < 25000 ==> (Abandoned(s.reqs) == 0 <==> -slack <= error <= slack))
  {
    SettledIsReported(managerLimit, es);
    TotalIsReported(Run(managerLimit, es).reqs, Reports(managerLimit, es));
    TracksCostIffNothingAbandoned(managerLimit, es);
  }

  /** And at any instant, outstanding requests or not: the row is the settled reports, up to 0.0001
      each, and 5.0 for every reservation that is outstanding or was abandoned. */
  lemma RowIsReports(managerLimit: real, es: seq<Event>)
    requires NoReset(es)
    ensures var s, reports := Run(managerLimit, es), Reports(managerLimit, es);
      s.row.Some? ==>
        var open, slack := Outstanding(s.reqs) + Abandoned(s.reqs), 0.0001 * (SettledCount(s.reqs) as real);
        -slack <= s.row.value.cost - 5.0 * (open as real) - ReportedTotal(s.reqs, reports) <= slack
  {
    SettledIsReported(managerLimit, es);
    TotalIsReported(Run(managerLimit, es).reqs, Reports(managerLimit, es));
    Conservation(managerLimit, es);
    RunKeepsLedger(managerLimit, es);
    ChargesNonNegative(Run(managerLimit, es).reqs);
  }
}
