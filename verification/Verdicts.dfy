/** What a call answers is true: each failure names the first gate that did not open, and
    success means that every gate opened. */
module Verdicts {
  import opened Json
  import opened Contracts
  import opened Policies
  import opened PolicyComposition
  import opened AuditLedger
  import opened Idempotency
  import opened ExecutionResults
  import opened SchemaValidation
  import opened Pipeline
  import opened CallInvariant
  import opened ConcurrentRuntime
  import opened RuntimeSafety

  type Registry = map<string, ToolContract>

  // ---------- what each answer claims ----------
  // Heavy facts are folded as in `CallInvariant`.

  ghost predicate InputFaulted(c: Call, tool: ToolContract, message: string) {
    forall v, s {:trigger SchemaError(v, s)} | v == Obj(c.action.arguments) && s == tool.inputSchema ::
      SchemaError(v, s) == Some(message)
  }

  ghost predicate OutputFaulted(output: Value, tool: ToolContract, message: string) {
    forall v, s {:trigger SchemaError(v, s)} | v == output && s == tool.outputSchema ::
      SchemaError(v, s) == Some(message)
  }

  ghost predicate OutputConforms(output: Value, tool: ToolContract) {
    forall v, s {:trigger Conforms(v, s)} | v == output && s == tool.outputSchema :: Conforms(v, s)
  }

  ghost predicate PoliciesObject(c: Call, tool: ToolContract) {
    forall answers {:trigger NoneObjects(c.action, answers)} | answers == Answers(c, tool) ::
      !NoneObjects(c.action, answers)
  }

  /** The policies deny the action, for this reason. */
  ghost predicate DeniedFor(c: Call, tool: ToolContract, reason: Reason) {
    forall ps {:trigger Policies.Evaluate(c.action, Some(tool), ps, c.script.context, c.script.stamp)}
      | ps == c.script.policies ::
        var d := Policies.Evaluate(c.action, Some(tool), ps, c.script.context, c.script.stamp);
        d.Some? && d.value.decisionType.Deny? && d.value.reason == reason
  }

  /** Some check was not met, all before it were. */
  predicate Refuses(checks: seq<CheckAnswer>) {
    exists i :: 0 <= i < |checks| && !checks[i].Passed? && ChecksPassed(checks, i)
  }

  predicate Known(now: Registry, c: Call, l: Local) {
    l.tool.Some? && c.action.toolName in now && now[c.action.toolName] == l.tool.value
  }

  /** Contract, arguments and policies let the call through. */
  ghost predicate Vetted(now: Registry, c: Call, l: Local) { Resolved(now, c, l) && Judged(c, l) }

  ghost predicate Cleared(now: Registry, c: Call, l: Local) { Vetted(now, c, l) && Approved(c, l) && Keyed(c, l) }

  predicate ClaimedIfKeyed(c: Call, l: Local) { c.action.idempotencyKey.Some? ==> l.claim.Some? }

  /** The grounds for a failure; `first` is the registry from before the call. */
  ghost predicate Grounds(first: Registry, now: Registry, c: Call, l: Local, why: Why) {
    match why
    case LedgerBeforeResolution => !AppendOk(c, ActionReceived)
    case NotRegistered => l.tool.None? && c.action.toolName !in first
    case Mismatched => Known(now, c, l) && !Matches(c.action, l.tool.value)
    case BadInput(m) => Known(now, c, l) && Matches(c.action, l.tool.value) && InputFaulted(c, l.tool.value, m)
    case Denied(r) =>
      Resolved(now, c, l) && l.decision.Some? && l.decision.value.decisionType.Deny? && l.decision.value.reason == r
      && PoliciesObject(c, l.tool.value) && DeniedFor(c, l.tool.value, r)
    case NotApproved => Vetted(now, c, l) && AsksApproval(l) && !c.script.approval.Passed?
    case NoKey =>
      Vetted(now, c, l) && Approved(c, l) && l.tool.value.idempotencyKeyRequired && c.action.idempotencyKey.None?
    case KeyInProgress => Cleared(now, c, l) && c.action.idempotencyKey.Some? && l.claim.Some? && !Holds(l)
    case PreconditionNotMet => Cleared(now, c, l) && ClaimedIfKeyed(c, l) && Refuses(c.script.preconditions)
    case LedgerBeforeExecution => Admitted(now, c, l) && ClaimedIfKeyed(c, l) && !AppendOk(c, ExecutionStarted)
    case HandlerRaised => Admitted(now, c, l) && c.script.handler.Raises?
    case BadOutput(m) =>
      Admitted(now, c, l) && c.script.handler.Returns? && OutputFaulted(c.script.handler.output, l.tool.value, m)
    case PostconditionNotMet =>
      Admitted(now, c, l) && c.script.handler.Returns? && OutputConforms(c.script.handler.output, l.tool.value)
      && Refuses(c.script.postconditions)
  }

  /** The tool answered, with an output that conforms. */
  ghost predicate Delivered(now: Registry, c: Call, l: Local, output: Value) {
    Admitted(now, c, l) && l.ran && c.script.handler == Returns(output) && OutputConforms(output, l.tool.value)
  }

  /** The tool answered with an output that its result refuses although `json.dumps` accepts it. */
  predicate Spoils(c: Call) {
    c.script.handler.Returns? && Serializable(c.script.handler.output) && !IsJson(c.script.handler.output)
  }

  ghost predicate Merited(first: Registry, now: Registry, c: Call, l: Local, e: Ending) {
    match e
    case Failed(why, output) =>
      && Grounds(first, now, c, l, why) && (l.ran <==> why.AfterHandler()) && (l.ran ==> !Spoils(c))
      && (why.BadOutput? || why.PostconditionNotMet? ==> c.script.handler == Returns(output))
    case Succeeded(v) =>
      Delivered(now, c, l, v) && ChecksPassed(c.script.postconditions, |c.script.postconditions|) && !Spoils(c)
    case Replayed(_) => Cleared(now, c, l) && l.claim.Some? && !Holds(l) && !l.ran
  }

  // ---------- the invariant ----------

  /** The call ended because its receipt could not be recorded. */
  predicate Unheard(l: Local) {
    l.ending.Some? && l.ending.value.Failed? && l.ending.value.why.LedgerBeforeResolution?
  }

  ghost predicate VerdictOk(first: Registry, now: Registry, c: Call, l: Local) {
    && (l.pc.Rejecting? ==> Grounds(first, now, c, l, l.pc.why) && !l.ran)
    && (l.pc.Failing? ==>
          && Grounds(first, now, c, l, l.pc.why) && (l.ran <==> l.pc.why.AfterHandler())
          && (l.pc.why.BadOutput? || l.pc.why.PostconditionNotMet? ==> c.script.handler == Returns(l.output)))
    && (Refused(l.pc) ==> l.ran && Spoils(c))
    && (l.pc.Received? || l.pc.Resolve? ==> l.tool.None?)
    && (l.pc.Approve? ==> AsksApproval(l))
    && (l.pc.Replaying? ==> Cleared(now, c, l) && !l.ran)
    && (l.pc.Post? ==> Delivered(now, c, l, l.output) && ChecksPassed(c.script.postconditions, l.pc.i))
    && (l.pc.Succeed? ==>
          Delivered(now, c, l, l.output) && ChecksPassed(c.script.postconditions, |c.script.postconditions|))
    && (l.ending.Some? ==> Merited(first, now, c, l, l.ending.value))
    && (l.ending.Some? <==> l.pc.Complete? || l.pc.Done?)
    && (l.ran ==> l.pc.Post? || l.pc.Succeed? || l.pc.Failing? || l.ending.Some? || Refused(l.pc))
    && (l.claim.Some? ==> Known(now, c, l))
    && (Clashed(l.pc) ==> Resolved(now, c, l))
    && (l.decision.Some? ==> l.decision.value.decisionId == c.script.stamp.decisionId)
    && (l.ran || (!l.pc.Received? && !l.pc.Done?) || (l.pc.Done? && !Unheard(l)) ==> AppendOk(c, ActionReceived))
    && (l.ran || l.pc.Invoke? ==> AppendOk(c, ExecutionStarted))
  }

  ghost predicate Told(first: Registry, now: Registry, c: Call, l: Local) {
    forall x {:trigger VerdictOk(first, now, c, x)} | x == l :: VerdictOk(first, now, c, x)
  }

  /** Where the next act leads, the invariant holds again. */
  ghost predicate ActTells(first: Registry, now: Registry, c: Call, l: Local, act: Act) {
    match act
    case Think(n) => Told(first, now, c, n)
    case Append(kind, _, s, f) => Told(first, now, c, if AppendOk(c, kind) then s else f)
    case ClaimKey(k) => l.pc.Claiming?
    case CallTool(n) => Told(first, now, c, n.(ran := true))
    case CompleteClaim(_, _) => l.pc.Complete?
  }

  // ---------- act by act ----------

  lemma ReceiveTells(first: Registry, now: Registry, c: Call, l: Local)
    requires Told(first, now, c, l) && Timely(c) && l.pc.Received?
    ensures ActTells(first, now, c, l, ReceiveAct(c, l))
  {
    assert VerdictOk(first, now, c, l);
  }

  lemma ResolveTells(first: Registry, now: Registry, c: Call, l: Local)
    requires Told(first, now, c, l) && Timely(c) && l.pc.Resolve? && first.Keys <= now.Keys
    ensures ActTells(first, now, c, l, ResolveAct(now, c, l))
  {
    assert VerdictOk(first, now, c, l);
    if c.action.toolName in now {
      var tool := now[c.action.toolName];
      var error := SchemaError(Obj(c.action.arguments), tool.inputSchema);
      assert error.Some? ==> InputFaulted(c, tool, error.value);
      ResolvedTells(first, now, c, l, tool, error);
    }
  }

  lemma ResolvedTells(first: Registry, now: Registry, c: Call, l: Local, tool: ToolContract, error: Option<string>)
    requires Told(first, now, c, l) && Timely(c) && l.pc.Resolve?
    requires c.action.toolName in now && now[c.action.toolName] == tool
    requires error.Some? ==> InputFaulted(c, tool, error.value)
    ensures ActTells(first, now, c, l, ResolvedAct(c, l.(tool := Some(tool)), tool, error))
  {
    assert VerdictOk(first, now, c, l);
  }

  lemma ValidatedTells(first: Registry, now: Registry, c: Call, l: Local)
    requires Told(first, now, c, l) && l.pc.Validated?
    ensures ActTells(first, now, c, l, ValidatedAct(c, l))
  {
    assert VerdictOk(first, now, c, l);
  }

  lemma EvaluateTells(first: Registry, now: Registry, c: Call, l: Local)
    requires Told(first, now, c, l) && Timely(c) && l.pc.Evaluate? && Resolved(now, c, l)
    ensures ActTells(first, now, c, l, EvaluateAct(c, l))
  {
    assert VerdictOk(first, now, c, l);
    var tool := l.tool.value;
    var decision := Policies.Evaluate(c.action, l.tool, c.script.policies, c.script.context, c.script.stamp);
    AdmittedMeans(c.action, tool, Answers(c, tool), c.script.stamp);
    if decision.Some? { DecisionIsStamped(c, tool, decision.value); }
    if decision.Some? && decision.value.decisionType.Deny? { DeniedIs(c, tool, decision.value); }
    EvaluatedTells(first, now, c, l, decision);
  }

  lemma DecisionIsStamped(c: Call, tool: ToolContract, d: PolicyDecision)
    requires Policies.Evaluate(c.action, Some(tool), c.script.policies, c.script.context, c.script.stamp) == Some(d)
    ensures d.decisionId == c.script.stamp.decisionId
  {
  }

  lemma DeniedIs(c: Call, tool: ToolContract, d: PolicyDecision)
    requires Policies.Evaluate(c.action, Some(tool), c.script.policies, c.script.context, c.script.stamp) == Some(d)
    requires d.decisionType.Deny?
    ensures DeniedFor(c, tool, d.reason)
  {
  }

  lemma EvaluatedTells(first: Registry, now: Registry, c: Call, l: Local, decision: Option<PolicyDecision>)
    requires Told(first, now, c, l) && Timely(c) && l.pc.Evaluate? && Resolved(now, c, l)
    requires decision.Some? && decision.value.decisionType.Deny? ==>
      PoliciesObject(c, l.tool.value) && DeniedFor(c, l.tool.value, decision.value.reason)
    requires decision.Some? ==> decision.value.decisionId == c.script.stamp.decisionId
    ensures ActTells(first, now, c, l, EvaluatedAct(c, l, decision))
  {
    assert VerdictOk(first, now, c, l);
  }

  lemma ApproveTells(first: Registry, now: Registry, c: Call, l: Local)
    requires Told(first, now, c, l) && Timely(c) && l.pc.Approve? && Vetted(now, c, l)
    ensures ActTells(first, now, c, l, ApproveAct(c, l))
  {
    assert VerdictOk(first, now, c, l);
  }

  lemma GateTells(first: Registry, now: Registry, c: Call, l: Local)
    requires Told(first, now, c, l) && Timely(c) && l.pc.Gate? && Vetted(now, c, l) && Approved(c, l)
    ensures ActTells(first, now, c, l, GateAct(c, l))
  {
    assert VerdictOk(first, now, c, l);
  }

  lemma RejectTells(first: Registry, now: Registry, c: Call, l: Local)
    requires Told(first, now, c, l) && Timely(c) && l.pc.Rejecting? && RejectReason(l.pc.why)
    ensures ActTells(first, now, c, l, RejectAct(c, l, l.pc.why))
  {
    assert VerdictOk(first, now, c, l);
  }

  lemma ReplayTells(first: Registry, now: Registry, c: Call, l: Local)
    requires Told(first, now, c, l) && Timely(c) && l.pc.Replaying? && l.claim.Some? && !Holds(l)
    requires c.action.idempotencyKey.Some?
    ensures ActTells(first, now, c, l, ReplayAct(c, l))
  {
    assert VerdictOk(first, now, c, l);
    var record := l.claim.value.record;
    if record.status.Completed? && !record.result.Null? { ReplayedTells(first, now, c, l, Replay(record.result)); }
  }

  lemma ReplayedTells(first: Registry, now: Registry, c: Call, l: Local, replayed: Option<ExecutionResult>)
    requires Told(first, now, c, l) && Timely(c) && l.pc.Replaying? && l.claim.Some? && !Holds(l)
    ensures ActTells(first, now, c, l, ReplayedAct(l, replayed))
  {
    assert VerdictOk(first, now, c, l);
  }

  lemma PreTells(first: Registry, now: Registry, c: Call, l: Local)
    requires Told(first, now, c, l) && Timely(c) && l.pc.Pre? && Cleared(now, c, l)
    requires ChecksPassed(c.script.preconditions, l.pc.i) && ClaimedIfKeyed(c, l)
    ensures ActTells(first, now, c, l, CheckAct(l, c.script.preconditions, l.pc.i, Start, Pre(l.pc.i + 1),
                                                PreconditionNotMet))
  {
    assert VerdictOk(first, now, c, l);
  }

  lemma StartTells(first: Registry, now: Registry, c: Call, l: Local)
    requires Told(first, now, c, l) && Timely(c) && l.pc.Start? && Admitted(now, c, l) && ClaimedIfKeyed(c, l)
    ensures ActTells(first, now, c, l, StartAct(c, l))
  {
    assert VerdictOk(first, now, c, l);
  }

  lemma InvokeTells(first: Registry, now: Registry, c: Call, l: Local)
    requires Told(first, now, c, l) && c.script.Plausible() && l.pc.Invoke? && Admitted(now, c, l)
    ensures ActTells(first, now, c, l, InvokeAct(c, l))
  {
    assert VerdictOk(first, now, c, l);
    match c.script.handler
    case Raises =>
    case Returns(v) =>
      var error := SchemaError(v, l.tool.value.outputSchema);
      ValidateDecides(v, l.tool.value.outputSchema, []);
      assert error.None? ==> OutputConforms(v, l.tool.value);
      assert error.Some? ==> OutputFaulted(v, l.tool.value, error.value);
      InvokedTells(first, now, c, l, v, error);
  }

  lemma InvokedTells(first: Registry, now: Registry, c: Call, l: Local, output: Value, error: Option<string>)
    requires Told(first, now, c, l) && l.pc.Invoke? && Admitted(now, c, l) && c.script.handler == Returns(output)
    requires if error.Some? then OutputFaulted(output, l.tool.value, error.value)
             else OutputConforms(output, l.tool.value)
    ensures ActTells(first, now, c, l, InvokedAct(l, output, error))
  {
    assert VerdictOk(first, now, c, l);
  }

  lemma PostTells(first: Registry, now: Registry, c: Call, l: Local)
    requires Told(first, now, c, l) && Timely(c) && l.pc.Post?
    ensures ActTells(first, now, c, l, CheckAct(l, c.script.postconditions, l.pc.i, Succeed, Post(l.pc.i + 1),
                                                PostconditionNotMet))
  {
    assert VerdictOk(first, now, c, l);
  }

  lemma SucceedTells(first: Registry, now: Registry, c: Call, l: Local)
    requires Told(first, now, c, l) && Timely(c) && l.pc.Succeed? && Serializable(l.output)
    ensures ActTells(first, now, c, l, SucceedAct(c, l))
  {
    assert VerdictOk(first, now, c, l);
  }

  lemma FailedTells(first: Registry, now: Registry, c: Call, l: Local)
    requires Told(first, now, c, l) && l.pc.Failing? && IsJson(OutputOf(Failed(l.pc.why, l.output)))
    ensures Told(first, now, c, l.(pc := Complete, ending := Some(Failed(l.pc.why, l.output))))
  {
    assert VerdictOk(first, now, c, l);
  }

  lemma RefusedTells(first: Registry, now: Registry, c: Call, l: Local)
    requires Told(first, now, c, l) && l.pc.Failing? && !IsJson(OutputOf(Failed(l.pc.why, l.output)))
    ensures Told(first, now, c, l.(pc := Crashed(OutputRefused)))
  {
    assert VerdictOk(first, now, c, l);
  }

  lemma FailTells(first: Registry, now: Registry, c: Call, l: Local)
    requires Told(first, now, c, l) && Timely(c) && l.pc.Failing?
    ensures ActTells(first, now, c, l, FailAct(c, l, l.pc.why))
  {
    if IsJson(OutputOf(Failed(l.pc.why, l.output))) {
      FailedTells(first, now, c, l);
    } else {
      RefusedTells(first, now, c, l);
    }
  }

  lemma BeforeClaimTells(first: Registry, now: Registry, c: Call, l: Local)
    requires Told(first, now, c, l) && c.script.Plausible() && BeforeClaim(l.pc) && !l.pc.Crashed?
    requires first.Keys <= now.Keys && AdmissionOk(now, c, l) && TrailOk(l)
    ensures ActTells(first, now, c, l, NextBeforeClaim(now, c, l))
  {
    match l.pc
    case Received => ReceiveTells(first, now, c, l);
    case Resolve => ResolveTells(first, now, c, l);
    case Validated => ValidatedTells(first, now, c, l);
    case Evaluate => EvaluateTells(first, now, c, l);
    case Approve => ApproveTells(first, now, c, l);
    case Gate => GateTells(first, now, c, l);
    case Claiming =>
    case Rejecting(_) => RejectTells(first, now, c, l);
  }

  lemma AfterClaimTells(first: Registry, now: Registry, c: Call, l: Local)
    requires Told(first, now, c, l) && c.script.Plausible() && !BeforeClaim(l.pc) && !l.pc.Done?
    requires AdmissionOk(now, c, l) && ClaimShape(c, l) && (l.pc.Succeed? ==> Serializable(l.output))
    requires l.pc.Replaying? ==> c.action.idempotencyKey.Some?
    ensures ActTells(first, now, c, l, NextAfterClaim(c, l))
  {
    match l.pc
    case Replaying => ReplayTells(first, now, c, l);
    case Pre(_) => PreTells(first, now, c, l);
    case Start => StartTells(first, now, c, l);
    case Invoke => InvokeTells(first, now, c, l);
    case Post(_) => PostTells(first, now, c, l);
    case Succeed => SucceedTells(first, now, c, l);
    case Failing(_) => FailTells(first, now, c, l);
    case Complete => CompleteTells(first, now, c, l);
  }

  lemma CompleteTells(first: Registry, now: Registry, c: Call, l: Local)
    requires Told(first, now, c, l) && l.pc.Complete?
    ensures ActTells(first, now, c, l, CompleteAct(c, l))
  {
    assert VerdictOk(first, now, c, l);
  }

  // ---------- steps ----------

  /** What the main invariant says about one call, as far as verdicts need it. */
  lemma GateFacts(s: State, t: Tid)
    requires ThreadsOk(s) && t in s.threads
    ensures var c, l := s.threads[t].call, s.threads[t].local;
      && c.script.Plausible() && AdmissionOk(s.shared.registry, c, l) && TrailOk(l) && ClaimShape(c, l)
      && (l.pc.Succeed? ==> Serializable(l.output)) && (l.claim.Some? ==> c.action.idempotencyKey.Some?)
      && (l.pc.Claiming? ==> !l.ran)
  {
    OwnFacts(s, t);
  }

  lemma Unchanged(first: Registry, now: Registry, c: Call, l: Local, n: Local)
    requires Told(first, now, c, l) && n == l.(trail := n.trail, receivedAt := n.receivedAt, startedAt := n.startedAt)
    ensures Told(first, now, c, n)
  {
    assert VerdictOk(first, now, c, l);
  }

  lemma ClaimedTells(first: Registry, now: Registry, c: Call, l: Local, claim: Claim)
    requires Told(first, now, c, l) && l.pc.Claiming? && !l.ran && AdmissionOk(now, c, l)
    ensures Told(first, now, c, l.(claim := Some(claim), pc := if claim.acquired then Pre(0) else Replaying))
  {
    assert VerdictOk(first, now, c, l);
  }

  lemma CompletedTells(first: Registry, now: Registry, c: Call, l: Local)
    requires Told(first, now, c, l) && l.pc.Complete?
    ensures Told(first, now, c, l.(pc := Done))
  {
    assert VerdictOk(first, now, c, l);
  }

  lemma PerformTells(first: Registry, s: State, t: Tid, act: Act)
    requires Ready(s, t, act) && Told(first, s.shared.registry, s.threads[t].call, s.threads[t].local)
    requires ActTells(first, s.shared.registry, s.threads[t].call, s.threads[t].local, act)
    ensures Told(first, s.shared.registry, s.threads[t].call,
                 Perform(s.shared, s.threads[t].call, s.threads[t].local, t, act).1)
  {
    var sh, now, c, l := s.shared, s.shared.registry, s.threads[t].call, s.threads[t].local;
    match act
    case Think(_) =>
    case Append(kind, details, stored, lost) => AppendedTells(first, sh, c, l, t, act);
    case ClaimKey(k) =>
      GateFacts(s, t);
      ClaimedTells(first, now, c, l, ClaimOf(sh.records, k, c.script.token, c.script.claimedAt));
    case CallTool(_) =>
    case CompleteClaim(claim, r) =>
      ClaimFacts(s, t);
      CompletionPerformed(sh, c, l, t, claim, r);
      CompletedTells(first, now, c, l);
  }

  lemma AppendedTells(first: Registry, sh: Shared, c: Call, l: Local, t: Tid, act: Act)
    requires act.Append? && ActTells(first, sh.registry, c, l, act)
    ensures Told(first, sh.registry, c, Perform(sh, c, l, t, act).1)
  {
    var n := if AppendOk(c, act.kind) then act.stored else act.lost;
    Unchanged(first, sh.registry, c, n, Perform(sh, c, l, t, act).1);
  }

  lemma NextTells(first: Registry, s: State, t: Tid)
    requires Inv(s) && t in s.threads && first.Keys <= s.shared.registry.Keys && !Finished(s.threads[t].local)
    requires Told(first, s.shared.registry, s.threads[t].call, s.threads[t].local)
    ensures ActTells(first, s.shared.registry, s.threads[t].call, s.threads[t].local,
                     Next(s.shared.registry, s.threads[t].call, s.threads[t].local))
  {
    var now, c, l := s.shared.registry, s.threads[t].call, s.threads[t].local;
    GateFacts(s, t);
    if BeforeClaim(l.pc) { BeforeClaimTells(first, now, c, l); } else { AfterClaimTells(first, now, c, l); }
  }

  // ---------- runs ----------

  ghost predicate ThreadTold(first: Registry, s: State, t: Tid) {
    && (forall n | n in first :: n in s.shared.registry)
    && t in s.threads && Told(first, s.shared.registry, s.threads[t].call, s.threads[t].local)
  }

  lemma TurnTold(first: Registry, s: State, t: Tid)
    requires Inv(s) && ThreadTold(first, s, t)
    ensures ThreadTold(first, Do(s, Turn(t)), t)
  {
    var c, l := s.threads[t].call, s.threads[t].local;
    if Finished(l) {
      FinishedStays(s.shared, c, l, t);
    } else {
      NextTells(first, s, t);
      TurnReady(s, t);
      PerformTells(first, s, t, Next(s.shared.registry, c, l));
      RegistryKept(s.shared, c, l, t, Next(s.shared.registry, c, l));
    }
  }

  lemma RegistryKept(sh: Shared, c: Call, l: Local, t: Tid, act: Act)
    ensures Perform(sh, c, l, t, act).0.registry == sh.registry
  {
  }

  lemma RegistryGrows(first: Registry, now: Registry, now': Registry, c: Call, l: Local)
    requires Told(first, now, c, l) && forall n | n in now :: n in now' && now'[n] == now[n]
    ensures Told(first, now', c, l)
  {
    assert VerdictOk(first, now, c, l);
  }

  lemma DoTold(first: Registry, s: State, m: Move, t: Tid)
    requires Inv(s) && ThreadTold(first, s, t)
    ensures ThreadTold(first, Do(s, m), t)
  {
    if m == Turn(t) {
      TurnTold(first, s, t);
    } else {
      var s' := Do(s, m);
      DoGrows(s, m);
      OtherMove(s, m, t);
      RegistryGrows(first, s.shared.registry, s'.shared.registry, s.threads[t].call, s.threads[t].local);
    }
  }

  lemma OtherMove(s: State, m: Move, t: Tid)
    requires t in s.threads && m != Turn(t)
    ensures t in Do(s, m).threads && Do(s, m).threads[t] == s.threads[t]
  {
  }

  lemma {:induction false} RunTold(first: Registry, s: State, schedule: seq<Move>, t: Tid)
    requires Inv(s) && ThreadTold(first, s, t)
    ensures ThreadTold(first, Run(s, schedule), t)
    decreases |schedule|
  {
    if schedule != [] {
      DoTold(first, s, schedule[0], t);
      ConcurrentRuntime.DoKeeps(s, schedule[0]);
      RunTold(first, Do(s, schedule[0]), schedule[1..], t);
    }
  }

  lemma FreshTold(first: Registry, c: Call)
    ensures Told(first, first, c, FRESH)
  {
  }

  /** From any point of any run, for a call that has not begun. */
  lemma FreshCallTold(s: State, schedule: seq<Move>, t: Tid)
    requires Inv(s) && t in s.threads && s.threads[t].local == FRESH
    ensures var s' := Run(s, schedule);
      t in s'.threads && s'.threads[t].call == s.threads[t].call
      && VerdictOk(s.shared.registry, s'.shared.registry, s'.threads[t].call, s'.threads[t].local)
  {
    FreshTold(s.shared.registry, s.threads[t].call);
    RunTold(s.shared.registry, s, schedule, t);
    RunGrows(s, schedule);
    var s' := Run(s, schedule);
    assert Told(s.shared.registry, s'.shared.registry, s'.threads[t].call, s'.threads[t].local);
  }

  lemma EndsTold(s0: State, schedule: seq<Move>, t: Tid)
    requires Init(s0) && t in s0.threads
    ensures var s := Run(s0, schedule);
      t in s.threads && VerdictOk(s0.shared.registry, s.shared.registry, s.threads[t].call, s.threads[t].local)
  {
    InitInv(s0);
    FreshCallTold(s0, schedule, t);
  }

  /** Every answer of every call in every interleaving is merited: a failure names a gate that
      did not open, every gate before it having opened; success means all of them did; and the
      tool was called exactly when the answer says so. */
  lemma AnswersAreMerited(s0: State, schedule: seq<Move>, t: Tid)
    requires Init(s0) && t in s0.threads
    ensures var s := Run(s0, schedule);
      && t in s.threads
      && (s.threads[t].local.pc.Done? ==>
            s.threads[t].local.ending.Some?
            && Merited(s0.shared.registry, s.shared.registry, s.threads[t].call, s.threads[t].local,
                       s.threads[t].local.ending.value))
  {
    EndsTold(s0, schedule, t);
  }

  // ---------- success, in plain terms ----------

  /** The folded facts mean what they are named for. */
  lemma FoldsMean(c: Call, tool: ToolContract, output: Value, message: string, asks: bool)
    ensures InputFaulted(c, tool, message) <==> SchemaError(Obj(c.action.arguments), tool.inputSchema) == Some(message)
    ensures OutputFaulted(output, tool, message) <==> SchemaError(output, tool.outputSchema) == Some(message)
    ensures OutputConforms(output, tool) <==> Conforms(output, tool.outputSchema)
    ensures ArgumentsConform(c, tool) <==> Conforms(Obj(c.action.arguments), tool.inputSchema)
    ensures PoliciesObject(c, tool) <==> !NoneObjects(c.action, Answers(c, tool))
    ensures PoliciesPassed(c, tool, asks) <==>
      NoneObjects(c.action, Answers(c, tool)) && (asks <==> ApprovalDemanded(tool, Answers(c, tool)))
  {
    assert InputFaulted(c, tool, message) ==> SchemaError(Obj(c.action.arguments), tool.inputSchema) == Some(message);
    assert OutputFaulted(output, tool, message) ==> SchemaError(output, tool.outputSchema) == Some(message);
    assert OutputConforms(output, tool) ==> Conforms(output, tool.outputSchema);
    assert ArgumentsConform(c, tool) ==> Conforms(Obj(c.action.arguments), tool.inputSchema);
    assert PoliciesObject(c, tool) ==> !NoneObjects(c.action, Answers(c, tool));
    assert PoliciesPassed(c, tool, asks) ==>
        NoneObjects(c.action, Answers(c, tool)) && (asks <==> ApprovalDemanded(tool, Answers(c, tool)));
  }

  /** Every gate on the way to the tool, as far as the request, the tool's contract and the host
      decide it. */
  ghost predicate OpenToTool(c: Call, tool: ToolContract) {
    && AppendOk(c, ActionReceived)
    && Matches(c.action, tool)
    && Conforms(Obj(c.action.arguments), tool.inputSchema)
    && NoneObjects(c.action, Answers(c, tool)) && !Clash(c.action, tool, Answers(c, tool))
    && (ApprovalDemanded(tool, Answers(c, tool)) ==> c.script.approval.Passed?)
    && (tool.idempotencyKeyRequired ==> c.action.idempotencyKey.Some?)
    && ChecksPassed(c.script.preconditions, |c.script.preconditions|)
    && AppendOk(c, ExecutionStarted)
  }

  /** Every gate on the way to success. */
  ghost predicate AllOpen(c: Call, tool: ToolContract) {
    && OpenToTool(c, tool)
    && c.script.handler.Returns? && Conforms(c.script.handler.output, tool.outputSchema)
    && !HasLoose(c.script.handler.output)
    && ChecksPassed(c.script.postconditions, |c.script.postconditions|)
  }

  /** The call answers for itself, not from another call's record. */
  predicate OwnAnswer(l: Local) { l.claim.Some? ==> Holds(l) }

  /** A gate before the tool that is named as closed is closed. */
  lemma GateCloses(first: Registry, now: Registry, c: Call, l: Local, why: Why)
    requires Grounds(first, now, c, l, why) && OwnAnswer(l) && l.tool.Some? && !why.AfterHandler()
    ensures !OpenToTool(c, l.tool.value)
  {
    var tool := l.tool.value;
    match why
    case BadInput(m) =>
      FoldsMean(c, tool, Null, m, false);
      ValidateDecides(Obj(c.action.arguments), tool.inputSchema, []);
    case Denied(_) => FoldsMean(c, tool, Null, "", false);
    case NotApproved => FoldsMean(c, tool, Null, "", true);
    case _ =>
  }

  /** So is one after the tool. */
  lemma FailureCloses(first: Registry, now: Registry, c: Call, l: Local, why: Why)
    requires Grounds(first, now, c, l, why) && OwnAnswer(l)
    ensures l.tool.Some? ==> !AllOpen(c, l.tool.value)
  {
    if l.tool.Some? {
      var tool := l.tool.value;
      if !why.AfterHandler() {
        GateCloses(first, now, c, l, why);
      } else if why.BadOutput? {
        FoldsMean(c, tool, c.script.handler.output, why.message, false);
        ValidateDecides(c.script.handler.output, tool.outputSchema, []);
      }
    }
  }

  lemma SuccessOpens(first: Registry, now: Registry, c: Call, l: Local, v: Value)
    requires Merited(first, now, c, l, Succeeded(v)) && AppendOk(c, ActionReceived) && AppendOk(c, ExecutionStarted)
    requires l.tool.Some? ==> !Clash(c.action, l.tool.value, Answers(c, l.tool.value))
    ensures l.tool.Some? && AllOpen(c, l.tool.value) && c.script.handler == Returns(v)
  {
    FoldsMean(c, l.tool.value, v, "", AsksApproval(l));
    JsonMeans(v);
  }

  /** A call that raised met a gate that was not open either. */
  lemma RaisedCloses(c: Call, l: Local)
    requires l.tool.Some?
    requires Clash(c.action, l.tool.value, Answers(c, l.tool.value)) || Spoils(c)
    ensures !AllOpen(c, l.tool.value)
  {
    if Spoils(c) { JsonMeans(c.script.handler.output); }
  }

  predicate Succeeds(l: Local) { l.pc.Done? && l.ending.Some? && l.ending.value.Succeeded? }

  lemma MeritedMeans(first: Registry, now: Registry, c: Call, l: Local)
    requires VerdictOk(first, now, c, l) && Finished(l) && OwnAnswer(l)
    requires l.pc.Crashed? ==> Clashed(l.pc) || Refused(l.pc)
    requires Clashed(l.pc) || l.decision.Some? ==>
      l.tool.Some? && (Clashed(l.pc) <==> Clash(c.action, l.tool.value, Answers(c, l.tool.value)))
    ensures Succeeds(l) <==> l.tool.Some? && AllOpen(c, l.tool.value)
    ensures Succeeds(l) ==> c.script.handler == Returns(l.ending.value.output)
  {
    if l.pc.Crashed? {
      if l.tool.Some? { RaisedCloses(c, l); }
    } else {
      match l.ending.value
      case Failed(why, _) => FailureCloses(first, now, c, l, why);
      case Succeeded(v) => SuccessOpens(first, now, c, l, v);
      case Replayed(_) =>
    }
  }

  /** A finished call that answers for itself succeeded exactly if every gate was open, and then
      it returns what the tool returned. */
  lemma SucceedsExactly(s0: State, schedule: seq<Move>, t: Tid)
    requires Init(s0) && t in s0.threads
    ensures var s := Run(s0, schedule);
      t in s.threads
      && var c, l := s.threads[t].call, s.threads[t].local;
      Finished(l) && OwnAnswer(l) ==>
        && (Succeeds(l) <==> l.tool.Some? && AllOpen(c, l.tool.value))
        && (Succeeds(l) ==> c.script.handler == Returns(l.ending.value.output))
  {
    EndsTold(s0, schedule, t);
    OnlyTwoRaise(s0, schedule, t);
    var s := Run(s0, schedule);
    var c, l := s.threads[t].call, s.threads[t].local;
    if Finished(l) && OwnAnswer(l) { MeritedMeans(s0.shared.registry, s.shared.registry, c, l); }
  }

  /** A caller can read off its own result whether the tool ran: the postcondition verdict is
      absent exactly when it did not, and true exactly on success. */
  lemma ResultReveals(s0: State, schedule: seq<Move>, t: Tid)
    requires Init(s0) && t in s0.threads
    ensures var s := Run(s0, schedule);
      t in s.threads
      && var c, l := s.threads[t].call, s.threads[t].local;
      l.pc.Done? && OwnAnswer(l) ==>
        && l.ending.Some?
        && var r := ResultOf(c, l.ending.value);
        && (r.postconditionVerified.Some? <==> l.ran)
        && (r.succeeded <==> r.postconditionVerified == Some(true))
        && (r.succeeded <==> r.error.None?)
  {
    AnswersAreMerited(s0, schedule, t);
    var s := Run(s0, schedule);
    var c, l := s.threads[t].call, s.threads[t].local;
    if l.pc.Done? && OwnAnswer(l) {
      Reveals(s0.shared.registry, s.shared.registry, c, l, l.ending.value);
    }
  }

  lemma Reveals(first: Registry, now: Registry, c: Call, l: Local, e: Ending)
    requires Merited(first, now, c, l, e) && OwnAnswer(l)
    ensures var r := ResultOf(c, e);
      && (r.postconditionVerified.Some? <==> l.ran)
      && (r.succeeded <==> r.postconditionVerified == Some(true))
      && (r.succeeded <==> r.error.None?)
  {
  }
}
