/** Transaction snapshots and the legal transitions between their statuses. */
module Transactions {
  import opened Json
  import opened Contracts

  datatype Status =
    | Proposed | Validating | AwaitingApproval | Approved | Executing | Committed
    | Compensating | Compensated | PartiallyCompensated | Rejected | Failed

  /** `LEGAL_TRANSACTION_TRANSITIONS`. */
  function Legal(s: Status): set<Status> {
    match s
    case Proposed => {Validating, Rejected}
    case Validating => {AwaitingApproval, Approved, Rejected, Failed}
    case AwaitingApproval => {Approved, Rejected, Failed}
    case Approved => {Executing, Rejected, Failed}
    case Executing => {Committed, Failed, Compensating}
    case Compensating => {Compensated, PartiallyCompensated, Failed}
    case _ => {}
  }

  predicate Terminal(s: Status) {
    s.Committed? || s.Rejected? || s.Failed? || s.Compensated? || s.PartiallyCompensated?
  }

  predicate NeedsReason(s: Status) { s.Rejected? || s.Failed? || s.PartiallyCompensated? }

  datatype Transaction = Transaction(
    transactionId: string, status: Status, intents: seq<ActionIntent>, createdAt: int, updatedAt: int,
    approvalRequestIds: seq<string>, statusReason: Option<string>, completedAt: Option<int>)

  datatype Problem =
    | NoIntents | RepeatedIntent | RepeatedApproval | UpdatedBeforeCreation | NoApprovalRequest
    | NoReason | NoCompletionTime | CompletedBeforeUpdate | CompletionTimeTooEarly

  datatype TransitionError = IllegalTransition(current: Status, requested: Status) | InvalidSnapshot(problem: Problem)

  function IntentIds(t: Transaction): seq<string> {
    seq(|t.intents|, i requires 0 <= i < |t.intents| => t.intents[i].intentId)
  }

  /** `validate_state`: the first problem found. */
  function FirstProblem(t: Transaction): Option<Problem> {
    if t.intents == [] then Some(NoIntents)
    else if !Distinct(IntentIds(t)) then Some(RepeatedIntent)
    else if !Distinct(t.approvalRequestIds) then Some(RepeatedApproval)
    else if t.updatedAt < t.createdAt then Some(UpdatedBeforeCreation)
    else if t.status.AwaitingApproval? && t.approvalRequestIds == [] then Some(NoApprovalRequest)
    else if NeedsReason(t.status) && t.statusReason.None? then Some(NoReason)
    else if Terminal(t.status) then
      if t.completedAt.None? then Some(NoCompletionTime)
      else if t.completedAt.value < t.updatedAt then Some(CompletedBeforeUpdate)
      else None
    else if t.completedAt.Some? then Some(CompletionTimeTooEarly)
    else None
  }

  /** A caller's request for a transition; `now` is the clock it falls back on. */
  datatype Request = Request(
    status: Status, updatedAt: Option<int>, approvalRequestIds: Option<seq<string>>, statusReason: Option<string>,
    completedAt: Option<int>, now: int)
  {
    function At(): int { if updatedAt.Some? then updatedAt.value else now }
  }

  function Next(t: Transaction, r: Request): Transaction {
    Transaction(t.transactionId, r.status, t.intents, t.createdAt, r.At(),
                if r.approvalRequestIds.Some? then r.approvalRequestIds.value else t.approvalRequestIds,
                r.statusReason,
                if Terminal(r.status) && r.completedAt.None? then Some(r.At()) else r.completedAt)
  }

  /** `transition`. */
  function Transition(t: Transaction, r: Request): Result<Transaction, TransitionError> {
    if r.status !in Legal(t.status) then Err(IllegalTransition(t.status, r.status))
    else match FirstProblem(Next(t, r))
         case Some(p) => Err(InvalidSnapshot(p))
         case None => Ok(Next(t, r))
  }

  // ---------- what one transition asks for ----------

  /** The steps there are, one by one. */
  const STEPS := {
    (Proposed, Validating), (Proposed, Rejected),
    (Validating, AwaitingApproval), (Validating, Approved), (Validating, Rejected), (Validating, Failed),
    (AwaitingApproval, Approved), (AwaitingApproval, Rejected), (AwaitingApproval, Failed),
    (Approved, Executing), (Approved, Rejected), (Approved, Failed),
    (Executing, Committed), (Executing, Failed), (Executing, Compensating),
    (Compensating, Compensated), (Compensating, PartiallyCompensated), (Compensating, Failed)}

  lemma StepsSpelled(a: Status, b: Status)
    ensures b in Legal(a) <==> (a, b) in STEPS
    ensures Terminal(a) <==> a in {Committed, Rejected, Failed, Compensated, PartiallyCompensated}
    ensures NeedsReason(a) <==> a in {Rejected, Failed, PartiallyCompensated}
  {
  }

  /** The approval requests a transition leaves on record. */
  function ApprovalsAfter(t: Transaction, r: Request): seq<string> {
    if r.approvalRequestIds.Some? then r.approvalRequestIds.value else t.approvalRequestIds
  }

  /** From a valid snapshot, a transition succeeds exactly when the step exists and the caller
      supplies what the new status needs; with no times given it needs only a reason or an
      approval. Any other step is refused under the two statuses. */
  lemma TransitionDecides(t: Transaction, r: Request)
    requires FirstProblem(t).None?
    ensures Transition(t, r).Ok?
       <==> (&& (t.status, r.status) in STEPS
             && r.At() >= t.createdAt
             && Distinct(ApprovalsAfter(t, r))
             && (r.status.AwaitingApproval? ==> ApprovalsAfter(t, r) != [])
             && (r.status in {Rejected, Failed, PartiallyCompensated} ==> r.statusReason.Some?)
             && (r.completedAt.Some? ==>
                   r.status in {Committed, Rejected, Failed, Compensated, PartiallyCompensated}
                   && r.completedAt.value >= r.At()))
    ensures (t.status, r.status) !in STEPS <==> Transition(t, r) == Err(IllegalTransition(t.status, r.status))
  {
    StepsSpelled(t.status, r.status);
    assert IntentIds(Next(t, r)) == IntentIds(t);
  }

  predicate Problematic(t: Transaction, r: Request, p: Problem) { Transition(t, r) == Err(InvalidSnapshot(p)) }

  /** A step from a valid snapshot that fails names the first of these that is wrong. */
  lemma ProblemsInOrder(t: Transaction, r: Request)
    requires FirstProblem(t).None? && (t.status, r.status) in STEPS
    ensures var repeated, early := !Distinct(ApprovalsAfter(t, r)), r.At() < t.createdAt;
      var unasked := r.status.AwaitingApproval? && ApprovalsAfter(t, r) == [];
      var unexplained := r.status in {Rejected, Failed, PartiallyCompensated} && r.statusReason.None?;
      var ends := r.status in {Committed, Rejected, Failed, Compensated, PartiallyCompensated};
      var fine := !repeated && !early && !unasked && !unexplained;
      && (Problematic(t, r, RepeatedApproval) <==> repeated)
      && (Problematic(t, r, UpdatedBeforeCreation) <==> !repeated && early)
      && (Problematic(t, r, NoApprovalRequest) <==> !repeated && !early && unasked)
      && (Problematic(t, r, NoReason) <==> !repeated && !early && unexplained)
      && (Problematic(t, r, CompletedBeforeUpdate) <==>
            fine && ends && r.completedAt.Some? && r.completedAt.value < r.At())
      && (Problematic(t, r, CompletionTimeTooEarly) <==> fine && !ends && r.completedAt.Some?)
  {
    StepsSpelled(t.status, r.status);
    assert IntentIds(Next(t, r)) == IntentIds(t);
  }

  /** The snapshot after a transition, field by field: times not given are filled in, and the
      reason is the caller's, also when there is none. */
  lemma SnapshotAfter(t: Transaction, r: Request)
    requires Transition(t, r).Ok?
    ensures var n := Transition(t, r).value;
      && n.transactionId == t.transactionId && n.intents == t.intents && n.createdAt == t.createdAt
      && n.status == r.status && n.statusReason == r.statusReason && n.approvalRequestIds == ApprovalsAfter(t, r)
      && n.updatedAt == (if r.updatedAt.Some? then r.updatedAt.value else r.now)
      && n.completedAt == (if r.completedAt.Some? then r.completedAt
                           else if r.status in {Committed, Rejected, Failed, Compensated, PartiallyCompensated}
                           then Some(n.updatedAt)
                           else None)
  {
    StepsSpelled(t.status, r.status);
  }

  /** A snapshot is valid exactly if its intents and approvals are distinct, there is an intent,
      its times are in order, and it has what its status asks for and nothing it forbids. */
  lemma ValidExactly(t: Transaction)
    ensures FirstProblem(t).None?
       <==> (&& t.intents != [] && Distinct(IntentIds(t)) && Distinct(t.approvalRequestIds)
             && t.createdAt <= t.updatedAt
             && (t.status.AwaitingApproval? ==> t.approvalRequestIds != [])
             && (t.status in {Rejected, Failed, PartiallyCompensated} ==> t.statusReason.Some?)
             && (if t.status in {Committed, Rejected, Failed, Compensated, PartiallyCompensated}
                 then t.completedAt.Some? && t.updatedAt <= t.completedAt.value
                 else t.completedAt.None?))
  {
    StepsSpelled(t.status, t.status);
  }

  // ---------- runs ----------

  /** The snapshots a run of requests goes through: a refused request leaves the last one. */
  function History(t: Transaction, requests: seq<Request>): (h: seq<Transaction>)
    ensures h != [] && h[0] == t
    decreases |requests|
  {
    if requests == [] then [t]
    else match Transition(t, requests[0])
         case Ok(n) => [t] + History(n, requests[1..])
         case Err(_) => History(t, requests[1..])
  }

  function Rank(s: Status): nat {
    match s
    case Proposed => 6
    case Validating => 5
    case AwaitingApproval => 4
    case Approved => 3
    case Executing => 2
    case Compensating => 1
    case _ => 0
  }

  predicate Follows(a: Transaction, b: Transaction) {
    && b.status in Legal(a.status)
    && b.transactionId == a.transactionId && b.intents == a.intents && b.createdAt == a.createdAt
  }

  predicate IsPath(h: seq<Transaction>) { forall i | 0 <= i < |h| - 1 :: Follows(h[i], h[i + 1]) }

  lemma {:induction false} HistoryIsPath(t: Transaction, requests: seq<Request>)
    requires FirstProblem(t).None?
    ensures var h := History(t, requests); IsPath(h) && forall i | 0 <= i < |h| :: FirstProblem(h[i]).None?
    decreases |requests|
  {
    if requests != [] {
      match Transition(t, requests[0])
      case Ok(n) =>
        HistoryIsPath(n, requests[1..]);
        var rest := History(n, requests[1..]);
        assert Follows(t, rest[0]);
        forall i | 0 <= i < |[t] + rest| - 1 ensures Follows(([t] + rest)[i], ([t] + rest)[i + 1]) {
          if i > 0 { assert Follows(rest[i - 1], rest[i]); }
        }
      case Err(_) => HistoryIsPath(t, requests[1..]);
    }
  }

  lemma RankDrops(a: Status, b: Status)
    requires b in Legal(a)
    ensures Rank(b) < Rank(a) && !Terminal(a)
  {
  }

  lemma {:induction false} PathIsShort(h: seq<Transaction>, i: nat)
    requires IsPath(h) && i < |h|
    ensures i + Rank(h[i].status) <= Rank(h[0].status)
    ensures h[i].transactionId == h[0].transactionId && h[i].intents == h[0].intents && h[i].createdAt == h[0].createdAt
  {
    if i > 0 {
      assert Follows(h[i - 1], h[i]);
      PathIsShort(h, i - 1);
      RankDrops(h[i - 1].status, h[i].status);
    }
  }

  /** Every run from a valid proposed snapshot takes at most six steps, however many requests
      are made; each snapshot is valid and keeps the identity and the intents. */
  lemma RunsAreShort(t: Transaction, requests: seq<Request>)
    requires FirstProblem(t).None? && t.status.Proposed?
    ensures var h := History(t, requests);
      && |h| <= 7
      && forall i | 0 <= i < |h| ::
           && FirstProblem(h[i]).None? && h[i].transactionId == t.transactionId && h[i].intents == t.intents
           && h[i].createdAt == t.createdAt
           && (Terminal(h[i].status) ==> i == |h| - 1)
  {
    var h := History(t, requests);
    HistoryIsPath(t, requests);
    PathIsShort(h, |h| - 1);
    forall i | 0 <= i < |h|
      ensures h[i].transactionId == t.transactionId && h[i].intents == t.intents && h[i].createdAt == t.createdAt
      ensures Terminal(h[i].status) ==> i == |h| - 1
    {
      PathIsShort(h, i);
      if i < |h| - 1 { assert Follows(h[i], h[i + 1]); }
    }
  }

  /** The step before a status, where the table leaves little choice. */
  lemma CameFrom(h: seq<Transaction>, i: nat)
    requires IsPath(h) && 0 < i < |h|
    ensures h[i].status in Legal(h[i - 1].status)
    ensures h[i].status.Committed? || h[i].status.Compensating? ==> h[i - 1].status.Executing?
    ensures h[i].status.Executing? ==> h[i - 1].status.Approved?
    ensures h[i].status.Approved? ==> h[i - 1].status.Validating? || h[i - 1].status.AwaitingApproval?
    ensures h[i].status.AwaitingApproval? ==> h[i - 1].status.Validating?
    ensures h[i].status.Compensated? || h[i].status.PartiallyCompensated? ==> h[i - 1].status.Compensating?
  {
    assert Follows(h[i - 1], h[i]);
  }

  /** An executing transaction was validated and then approved, in that order. */
  lemma ExecutingWasApproved(h: seq<Transaction>, i: nat) returns (validated: nat, approved: nat)
    requires IsPath(h) && h != [] && h[0].status.Proposed? && i < |h| && h[i].status.Executing?
    ensures validated < approved < i && h[validated].status.Validating? && h[approved].status.Approved?
  {
    CameFrom(h, i);
    approved := i - 1;
    CameFrom(h, approved);
    validated := approved - 1;
    if h[validated].status.AwaitingApproval? {
      CameFrom(h, validated);
      validated := validated - 1;
    }
  }

  /** A run reaches COMMITTED, or any compensation status, only through VALIDATING, APPROVED and
      EXECUTING, in that order. */
  lemma OnlyThroughExecution(t: Transaction, requests: seq<Request>, i: nat)
    requires FirstProblem(t).None? && t.status.Proposed? && i < |History(t, requests)|
    ensures var h, s := History(t, requests), History(t, requests)[i].status;
      s.Committed? || s.Compensating? || s.Compensated? || s.PartiallyCompensated? ==>
        exists v, a, e :: 0 <= v < a < e < i
          && h[v].status.Validating? && h[a].status.Approved? && h[e].status.Executing?
  {
    var h := History(t, requests);
    HistoryIsPath(t, requests);
    var s := h[i].status;
    if s.Committed? || s.Compensating? || s.Compensated? || s.PartiallyCompensated? {
      CameFrom(h, i);
      var e := i - 1;
      if h[e].status.Compensating? {
        CameFrom(h, e);
        e := e - 1;
      }
      var v, a := ExecutingWasApproved(h, e);
    }
  }

  lemma {:induction false} AfterExecuting(h: seq<Transaction>, e: nat, j: nat)
    requires IsPath(h) && e < j < |h| && h[e].status.Executing?
    ensures var s := h[j].status;
      s.Committed? || s.Failed? || s.Compensating? || s.Compensated? || s.PartiallyCompensated?
    decreases j
  {
    assert Follows(h[j - 1], h[j]);
    if j - 1 > e { AfterExecuting(h, e, j - 1); }
  }

  /** Once executing, a transaction is never rejected, nor approved or validated again. */
  lemma NeverRejectedAfterExecuting(t: Transaction, requests: seq<Request>, e: nat, j: nat)
    requires FirstProblem(t).None? && e < j < |History(t, requests)| && History(t, requests)[e].status.Executing?
    ensures var s := History(t, requests)[j].status; !s.Rejected? && !s.Approved? && !s.Validating? && !s.Executing?
  {
    HistoryIsPath(t, requests);
    AfterExecuting(History(t, requests), e, j);
  }

  // ---------- what a transition does not ask for ----------

  /** Update times need not grow along a run: a transition may go back to the creation time. */
  lemma UpdatesMayGoBack(t: Transaction)
    requires FirstProblem(t).None? && t.status.Proposed? && t.updatedAt > t.createdAt
    ensures var r := Request(Validating, Some(t.createdAt), None, None, None, t.updatedAt);
      Transition(t, r).Ok? && Transition(t, r).value.updatedAt < t.updatedAt
  {
    TransitionDecides(t, Request(Validating, Some(t.createdAt), None, None, None, t.updatedAt));
  }

  predicate UpdatesGrow(h: seq<Transaction>) { forall i, j | 0 <= i <= j < |h| :: h[i].updatedAt <= h[j].updatedAt }

  /** No accepted request asks for a time before the update it follows. */
  predicate NeverBack(t: Transaction, requests: seq<Request>)
    decreases |requests|
  {
    if requests == [] then true
    else match Transition(t, requests[0])
         case Ok(n) => t.updatedAt <= requests[0].At() && NeverBack(n, requests[1..])
         case Err(_) => NeverBack(t, requests[1..])
  }

  /** Update times never decrease along a run exactly if no accepted request goes back. */
  lemma {:induction false} UpdatesGrowExactly(t: Transaction, requests: seq<Request>)
    ensures UpdatesGrow(History(t, requests)) <==> NeverBack(t, requests)
    decreases |requests|
  {
    if requests != [] {
      match Transition(t, requests[0])
      case Ok(n) =>
        UpdatesGrowExactly(n, requests[1..]);
        OneMoreGrows(t, History(n, requests[1..]));
      case Err(_) => UpdatesGrowExactly(t, requests[1..]);
    }
  }

  lemma OneMoreGrows(t: Transaction, h: seq<Transaction>)
    requires h != []
    ensures UpdatesGrow([t] + h) <==> t.updatedAt <= h[0].updatedAt && UpdatesGrow(h)
  {
    var all := [t] + h;
    forall i | 0 <= i < |h| ensures h[i] == all[i + 1] {}
    if t.updatedAt <= h[0].updatedAt && UpdatesGrow(h) {
      forall i, j | 0 <= i <= j < |all| ensures all[i].updatedAt <= all[j].updatedAt {
        if i > 0 {
          assert h[i - 1].updatedAt <= h[j - 1].updatedAt;
        } else if j > 0 {
          assert h[0].updatedAt <= h[j - 1].updatedAt;
        }
      }
    }
    if UpdatesGrow(all) {
      assert all[0].updatedAt <= all[1].updatedAt;
      forall i, j | 0 <= i <= j < |h| ensures h[i].updatedAt <= h[j].updatedAt {
        assert all[i + 1].updatedAt <= all[j + 1].updatedAt;
      }
    }
  }

  predicate IsStep(a: Status, b: Status) { (a, b) in STEPS }

  /** A way through the table from this status. */
  predicate IsWalk(from: Status, path: seq<Status>) {
    (path != [] ==> IsStep(from, path[0])) && forall i | 0 <= i < |path| - 1 :: IsStep(path[i], path[i + 1])
  }

  predicate GoesThrough(h: seq<Transaction>, path: seq<Status>) {
    |h| == |path| + 1 && forall i | 0 <= i < |path| :: h[i + 1].status == path[i]
  }

  /** Every way through the table is a run: from every valid snapshot, requests that supply what
      is asked for lead through just these statuses. */
  lemma {:induction false} EveryWalkIsARun(t: Transaction, path: seq<Status>) returns (requests: seq<Request>)
    requires FirstProblem(t).None? && IsWalk(t.status, path)
    ensures GoesThrough(History(t, requests), path)
    decreases |path|
  {
    if path == [] {
      requests := [];
    } else {
      var r := Request(path[0], Some(t.createdAt), Some(["approval"]), Some("reason"), None, 0);
      WalkOn(t.status, path);
      var n := Step(t, r);
      var rest := EveryWalkIsARun(n, path[1..]);
      requests := [r] + rest;
      HistoryGrows(t, r, rest);
      var h, later := History(t, requests), History(n, rest);
      forall i | 0 <= i < |path| ensures h[i + 1].status == path[i] {
        if i > 0 { assert h[i + 1] == later[i] && later[i].status == path[1..][i - 1]; }
      }
    }
  }

  lemma WalkOn(from: Status, path: seq<Status>)
    requires IsWalk(from, path) && path != []
    ensures IsStep(from, path[0]) && IsWalk(path[0], path[1..])
  {
    forall i | 0 <= i < |path[1..]| - 1 ensures IsStep(path[1..][i], path[1..][i + 1]) {
      assert IsStep(path[i + 1], path[i + 2]);
    }
  }

  lemma GoesThroughLast(h: seq<Transaction>, path: seq<Status>)
    requires GoesThrough(h, path) && path != []
    ensures h[|h| - 1].status == path[|path| - 1]
  {
    var n := |path| - 1;
    assert h[n + 1].status == path[n];
  }

  /** Six steps do happen: the longest run asks for approval and ends compensated. */
  lemma SixStepsHappen(t: Transaction) returns (requests: seq<Request>)
    requires FirstProblem(t).None? && t.status.Proposed?
    ensures |History(t, requests)| == 7
  {
    requests := EveryWalkIsARun(t, [Validating, AwaitingApproval, Approved, Executing, Compensating, Compensated]);
  }

  /** COMMITTED is reached from every valid proposed snapshot, with or without an approval step. */
  lemma CommitHappens(t: Transaction, asking: bool) returns (requests: seq<Request>)
    requires FirstProblem(t).None? && t.status.Proposed?
    ensures var h := History(t, requests);
      |h| == (if asking then 6 else 5) && h[|h| - 1].status.Committed?
  {
    if asking {
      requests := EveryWalkIsARun(t, [Validating, AwaitingApproval, Approved, Executing, Committed]);
      GoesThroughLast(History(t, requests), [Validating, AwaitingApproval, Approved, Executing, Committed]);
    } else {
      requests := EveryWalkIsARun(t, [Validating, Approved, Executing, Committed]);
      GoesThroughLast(History(t, requests), [Validating, Approved, Executing, Committed]);
    }
  }

  lemma Step(t: Transaction, r: Request) returns (n: Transaction)
    requires FirstProblem(t).None? && (t.status, r.status) in STEPS && r.statusReason.Some?
    requires r.updatedAt == Some(t.createdAt) && r.completedAt.None?
    requires r.approvalRequestIds.Some? && |r.approvalRequestIds.value| == 1
    ensures Transition(t, r) == Ok(n) && FirstProblem(n).None? && n.status == r.status
  {
    TransitionDecides(t, r);
    n := Next(t, r);
  }

  lemma HistoryGrows(t: Transaction, r: Request, rest: seq<Request>)
    requires Transition(t, r).Ok?
    ensures History(t, [r] + rest) == [t] + History(Transition(t, r).value, rest)
  {
    var requests := [r] + rest;
    assert requests[0] == r && requests[1..] == rest;
  }
}
