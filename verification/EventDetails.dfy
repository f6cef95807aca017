/** What the events of a call say beyond their kind: their details, and which of them carry the
    transaction id. */
module EventDetails {
  import opened Json
  import opened Contracts
  import opened Policies
  import opened AuditLedger
  import opened Idempotency
  import opened Pipeline
  import opened CallInvariant
  import opened ConcurrentRuntime
  import opened RuntimeSafety
  import opened AuditTrail
  import opened Verdicts

  // ---------- what an event says ----------

  /** The policies decided so. Folded as in `CallInvariant`. */
  ghost predicate DecidedAs(c: Call, tool: ToolContract, kind: DecisionType, risk: RiskLevel) {
    forall ps {:trigger Policies.Evaluate(c.action, Some(tool), ps, c.script.context, c.script.stamp)}
      | ps == c.script.policies ::
        var d := Policies.Evaluate(c.action, Some(tool), ps, c.script.context, c.script.stamp);
        d.Some? && d.value.decisionType == kind && d.value.riskLevel == risk
  }

  predicate IsRegistered(registry: Registry, c: Call) { c.action.toolName in registry }

  /** What the details of each kind of event tell of the call, the tool registered under its name
      and the claim it was given. */
  ghost predicate Says(registry: Registry, c: Call, claim: Option<Claim>, kind: EventKind, details: Details) {
    match kind
    case ActionReceived => details == OfTool(c.action.toolName)
    case ToolUnknown => details == OfUnknownTool(Deny)
    case ContractRejected => details == OfTool(c.action.toolName)
    case ContractValidated => details == OfContract(c.action.contractId)
    case InputRejected =>
      details.OfMessage? && IsRegistered(registry, c)
      && InputFaulted(c, registry[c.action.toolName], details.message)
    case PolicyEvaluated =>
      details.OfDecision? && IsRegistered(registry, c)
      && DecidedAs(c, registry[c.action.toolName], details.decisionType, details.riskLevel)
    case ApprovalRequired => details == OfPending(c.script.stamp.decisionId)
    case IdempotencyReplayed => claim.Some? && details == OfReplay(claim.value.record.status.Completed?)
    case ExecutionFailed => details == OfToolFailure
    case OutputRejected =>
      details.OfMessage? && IsRegistered(registry, c) && c.script.handler.Returns?
      && OutputFaulted(c.script.handler.output, registry[c.action.toolName], details.message)
    case KeyMissing => details.NoDetails?
    case PreconditionFailed => details.NoDetails?
    case ExecutionStarted => details.NoDetails?
    case PostconditionFailed => details.NoDetails?
    case ExecutionSucceeded => details.NoDetails?
    case _ => false
  }

  /** The event belongs to this call, and says what it should. */
  ghost predicate Reports(registry: Registry, c: Call, claim: Option<Claim>, e: Entry) {
    && e.correlationId == c.action.intentId && e.intentId == Some(c.action.intentId)
    && e.transactionId == (if e.kind in {ExecutionStarted, ExecutionFailed, OutputRejected, PostconditionFailed,
                                         ExecutionSucceeded}
                           then Some(c.script.transactionId) else None)
    && Says(registry, c, claim, e.kind, e.details)
  }

  /** An event that a call is about to append says what it should. */
  ghost predicate ActSays(registry: Registry, c: Call, l: Local, act: Act) {
    act.Append? ==> Says(registry, c, l.claim, act.kind, act.details)
  }

  // ---------- act by act ----------

  lemma ReceiveSays(now: Registry, c: Call, l: Local)
    ensures ActSays(now, c, l, ReceiveAct(c, l))
  {
  }

  lemma ValidatedSays(now: Registry, c: Call, l: Local)
    requires Resolved(now, c, l)
    ensures ActSays(now, c, l, ValidatedAct(c, l))
  {
  }

  lemma EvaluateSays(now: Registry, c: Call, l: Local)
    requires Resolved(now, c, l)
    ensures ActSays(now, c, l, EvaluateAct(c, l))
  {
    var d := Policies.Evaluate(c.action, l.tool, c.script.policies, c.script.context, c.script.stamp);
    if d.Some? { assert DecidedAs(c, l.tool.value, d.value.decisionType, d.value.riskLevel); }
    EvaluatedSays(now, c, l, d);
  }

  lemma EvaluatedSays(now: Registry, c: Call, l: Local, d: Option<PolicyDecision>)
    requires Resolved(now, c, l)
    requires d.Some? ==> DecidedAs(c, l.tool.value, d.value.decisionType, d.value.riskLevel)
    ensures ActSays(now, c, l, EvaluatedAct(c, l, d))
  {
  }

  lemma RejectSays(first: Registry, now: Registry, c: Call, l: Local)
    requires VerdictOk(first, now, c, l) && l.pc.Rejecting? && RejectReason(l.pc.why)
    ensures ActSays(now, c, l, RejectAct(c, l, l.pc.why))
  {
  }

  lemma FailSays(first: Registry, now: Registry, c: Call, l: Local)
    requires VerdictOk(first, now, c, l) && l.pc.Failing? && FailReason(l.pc.why)
    ensures ActSays(now, c, l, FailAct(c, l, l.pc.why))
  {
  }

  lemma ReplaySays(now: Registry, c: Call, l: Local)
    requires l.claim.Some?
    ensures ActSays(now, c, l, ReplayAct(c, l))
  {
  }

  lemma BeforeClaimSays(first: Registry, now: Registry, c: Call, l: Local)
    requires VerdictOk(first, now, c, l) && BeforeClaim(l.pc) && AdmissionOk(now, c, l) && TrailOk(l)
    ensures ActSays(now, c, l, NextBeforeClaim(now, c, l))
  {
    match l.pc
    case Received => ReceiveSays(now, c, l);
    case Validated => ValidatedSays(now, c, l);
    case Evaluate => EvaluateSays(now, c, l);
    case Rejecting(_) => RejectSays(first, now, c, l);
    case _ =>
  }

  lemma AfterClaimSays(first: Registry, now: Registry, c: Call, l: Local)
    requires VerdictOk(first, now, c, l) && !BeforeClaim(l.pc) && ClaimShape(c, l) && TrailOk(l)
    ensures ActSays(now, c, l, NextAfterClaim(c, l))
  {
    match l.pc
    case Failing(_) => FailSays(first, now, c, l);
    case Replaying => ReplaySays(now, c, l);
    case _ =>
  }

  lemma NextSays(first: Registry, s: State, t: Tid)
    requires Inv(s) && ThreadTold(first, s, t)
    ensures var now, c, l := s.shared.registry, s.threads[t].call, s.threads[t].local;
      ActSays(now, c, l, Next(now, c, l))
  {
    var now, c, l := s.shared.registry, s.threads[t].call, s.threads[t].local;
    GateFacts(s, t);
    assert VerdictOk(first, now, c, l);
    if BeforeClaim(l.pc) { BeforeClaimSays(first, now, c, l); } else { AfterClaimSays(first, now, c, l); }
  }

  // ---------- runs ----------

  /** What a call appended from place n of the ledger on says what it should. */
  ghost predicate TrailSays(s: State, n: nat, t: Tid) {
    && t in s.threads && |s.shared.ledger| == |s.shared.authors|
    && forall i | n <= i < |s.shared.ledger| && s.shared.authors[i] == t ::
         Reports(s.shared.registry, s.threads[t].call, s.threads[t].local.claim, s.shared.ledger[i].entry)
  }

  lemma StillReports(now: Registry, now': Registry, c: Call, claim: Option<Claim>, claim': Option<Claim>, e: Entry)
    requires Reports(now, c, claim, e)
    requires (forall n | n in now :: n in now' && now'[n] == now[n]) && (claim.Some? ==> claim' == claim)
    ensures Reports(now', c, claim', e)
  {
  }

  lemma AppendReports(registry: Registry, c: Call, claim: Option<Claim>, kind: EventKind, details: Details)
    requires Says(registry, c, claim, kind, details)
    ensures Reports(registry, c, claim, EntryOf(c, kind, details))
  {
  }

  /** The call is the same, and what its events were judged by is still there. */
  ghost predicate Carries(s: State, s': State, t: Tid) {
    && t in s.threads && t in s'.threads && s'.threads[t].call == s.threads[t].call
    && (s.threads[t].local.claim.Some? ==> s'.threads[t].local.claim == s.threads[t].local.claim)
    && forall n | n in s.shared.registry :: n in s'.shared.registry && s'.shared.registry[n] == s.shared.registry[n]
  }

  lemma DoCarries(s: State, m: Move, t: Tid)
    requires Inv(s) && t in s.threads
    ensures Carries(s, Do(s, m), t)
  {
    DoGrows(s, m);
    if s.threads[t].local.claim.Some? { DoKeepsClaim(s, m, t); }
  }

  lemma OldEventsReport(s: State, s': State, n: nat, t: Tid, i: nat)
    requires TrailSays(s, n, t) && Carries(s, s', t) && n <= i < |s.shared.ledger| && s.shared.authors[i] == t
    ensures Reports(s'.shared.registry, s'.threads[t].call, s'.threads[t].local.claim, s.shared.ledger[i].entry)
  {
    StillReports(s.shared.registry, s'.shared.registry, s.threads[t].call, s.threads[t].local.claim,
                 s'.threads[t].local.claim, s.shared.ledger[i].entry);
  }

  lemma NoNewEvent(s: State, s': State, n: nat, t: Tid)
    requires TrailSays(s, n, t) && Carries(s, s', t)
    requires s'.shared.ledger == s.shared.ledger && s'.shared.authors == s.shared.authors
    ensures TrailSays(s', n, t)
  {
    forall i | n <= i < |s'.shared.ledger| && s'.shared.authors[i] == t
      ensures Reports(s'.shared.registry, s'.threads[t].call, s'.threads[t].local.claim, s'.shared.ledger[i].entry)
    {
      OldEventsReport(s, s', n, t, i);
    }
  }

  lemma NewEvent(s: State, s': State, n: nat, t: Tid, author: Tid, e: Entry)
    requires TrailSays(s, n, t) && Carries(s, s', t)
    requires s'.shared.ledger == Appended(s.shared.ledger, e) && s'.shared.authors == s.shared.authors + [author]
    requires author == t ==> Reports(s.shared.registry, s.threads[t].call, s.threads[t].local.claim, e)
    ensures TrailSays(s', n, t)
  {
    forall i | n <= i < |s'.shared.ledger| && s'.shared.authors[i] == t
      ensures Reports(s'.shared.registry, s'.threads[t].call, s'.threads[t].local.claim, s'.shared.ledger[i].entry)
    {
      if i < |s.shared.ledger| {
        OldEventsReport(s, s', n, t, i);
      } else {
        StillReports(s.shared.registry, s'.shared.registry, s.threads[t].call, s.threads[t].local.claim,
                     s'.threads[t].local.claim, e);
      }
    }
  }

  /** An act appends its own event or none. */
  lemma PerformAppends(sh: Shared, c: Call, l: Local, t: Tid, act: Act)
    ensures var sh' := Perform(sh, c, l, t, act).0;
      || (sh'.ledger == sh.ledger && sh'.authors == sh.authors)
      || (act.Append? && sh'.ledger == Appended(sh.ledger, EntryOf(c, act.kind, act.details))
          && sh'.authors == sh.authors + [t])
  {
  }

  lemma DoSays(first: Registry, s: State, m: Move, n: nat, t: Tid)
    requires Inv(s) && ThreadTold(first, s, t) && TrailSays(s, n, t)
    ensures TrailSays(Do(s, m), n, t)
  {
    DoCarries(s, m, t);
    if m.Turn? && m.tid in s.threads {
      var now, c, l := s.shared.registry, s.threads[m.tid].call, s.threads[m.tid].local;
      var act := Next(now, c, l);
      PerformAppends(s.shared, c, l, m.tid, act);
      if Do(s, m).shared.ledger == s.shared.ledger {
        NoNewEvent(s, Do(s, m), n, t);
      } else {
        if m.tid == t {
          NextSays(first, s, t);
          AppendReports(now, c, l.claim, act.kind, act.details);
        }
        NewEvent(s, Do(s, m), n, t, m.tid, EntryOf(c, act.kind, act.details));
      }
    } else {
      NoNewEvent(s, Do(s, m), n, t);
    }
  }

  lemma {:induction false} RunSays(first: Registry, s: State, schedule: seq<Move>, n: nat, t: Tid)
    requires Inv(s) && ThreadTold(first, s, t) && TrailSays(s, n, t)
    ensures TrailSays(Run(s, schedule), n, t)
    decreases |schedule|
  {
    if schedule != [] {
      DoSays(first, s, schedule[0], n, t);
      DoTold(first, s, schedule[0], t);
      ConcurrentRuntime.DoKeeps(s, schedule[0]);
      RunSays(first, Do(s, schedule[0]), schedule[1..], n, t);
    }
  }

  /** The folded facts mean what they are named for. */
  lemma DecisionMeans(c: Call, tool: ToolContract, kind: DecisionType, risk: RiskLevel)
    ensures DecidedAs(c, tool, kind, risk)
       <==> (&& var d := Policies.Evaluate(c.action, Some(tool), c.script.policies, c.script.context, c.script.stamp);
                d.Some? && d.value.decisionType == kind && d.value.riskLevel == risk)
  {
    var d := Policies.Evaluate(c.action, Some(tool), c.script.policies, c.script.context, c.script.stamp);
    assert DecidedAs(c, tool, kind, risk) ==> d.Some? && d.value.decisionType == kind && d.value.riskLevel == risk;
  }

  /** After every interleaving, each event in the ledger was appended by one of the calls, carries
      that call's intent id, and its transaction id exactly if it is one of the five kinds from the
      start of the execution on; and its details tell what they should: the tool's name, the
      contract, the decision the policies made, the message of the schema violation, the decision
      that awaits approval, or whether the record found was completed. */
  lemma EventsReport(s0: State, schedule: seq<Move>, i: nat)
    requires Init(s0) && i < |Run(s0, schedule).shared.ledger|
    ensures var s := Run(s0, schedule);
      && i < |s.shared.authors| && s.shared.authors[i] in s.threads
      && var th := s.threads[s.shared.authors[i]];
         Reports(s.shared.registry, th.call, th.local.claim, s.shared.ledger[i].entry)
  {
    RunSigns(s0, schedule);
    RunGrows(s0, schedule);
    var t := Run(s0, schedule).shared.authors[i];
    InitInv(s0);
    FreshTold(s0.shared.registry, s0.threads[t].call);
    RunSays(s0.shared.registry, s0, schedule, 0, t);
  }
}
