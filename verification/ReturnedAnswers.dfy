/** What `execute` returns, spelled out: the request and the host go through the gates in order,
    and the first gate that is closed gives the answer. */
module ReturnedAnswers {
  import opened Json
  import opened Contracts
  import opened Policies
  import opened PolicyComposition
  import opened AuditLedger
  import opened Idempotency
  import opened ExecutionResults
  import opened SchemaValidation
  import opened Pipeline
  import opened CallInvariant
  import opened ConcurrentRuntime
  import opened RuntimeSafety
  import opened Verdicts
  import opened Runtime
  import opened SequentialCalls

  // ---------- the gates in order ----------

  /** What a stretch of gates does with a call. */
  datatype Verdict = Open | Closed(error: FailureDetail) | Raising

  function Then(a: Verdict, b: Verdict): Verdict { if a.Open? then b else a }

  /** The gates up to the required key. */
  function EarlyGates(c: Call, tool: Option<ToolContract>): Verdict {
    if ActionReceived in c.script.appendFails then
      Closed(FailureDetail("ledger_error", "Audit ledger failed before tool resolution."))
    else
      match tool
      case None => Closed(FailureDetail("unknown_tool", "Tool is not registered: " + c.action.toolName + "."))
      case Some(k) => Then(ContractGates(c, k), PolicyGates(c, k))
  }

  function ContractGates(c: Call, k: ToolContract): Verdict {
    if !(c.action.contractId == k.contractId && c.action.toolName == k.name && c.action.contractVersion == k.version)
    then Closed(FailureDetail("contract_mismatch", "Action intent does not match the registered contract."))
    else
      match SchemaError(Obj(c.action.arguments), k.inputSchema)
      case Some(m) => Closed(FailureDetail("input_validation_failed", m))
      case None => Open
  }

  function PolicyGates(c: Call, k: ToolContract): Verdict {
    match Policies.Evaluate(c.action, Some(k), c.script.policies, c.script.context, c.script.stamp)
    case None => Raising
    case Some(d) =>
      if d.decisionType.Deny? then Closed(FailureDetail("policy_denied", d.reason.Text()))
      else ApprovalGates(c, k, d.decisionType.RequireApproval?)
  }

  function ApprovalGates(c: Call, k: ToolContract, asks: bool): Verdict {
    if asks && !c.script.approval.Passed? then
      Closed(FailureDetail("approval_required", "Approval is required before execution."))
    else if k.idempotencyKeyRequired && c.action.idempotencyKey.None? then
      Closed(FailureDetail("idempotency_key_missing", "The registered contract requires an idempotency key."))
    else Open
  }

  predicate SomeUnmet(checks: seq<CheckAnswer>) { exists i | 0 <= i < |checks| :: !checks[i].Passed? }

  /** The gates between the claim and the tool. */
  function LateGates(c: Call): Verdict {
    if SomeUnmet(c.script.preconditions) then
      Closed(FailureDetail("precondition_failed", "A precondition failed before execution."))
    else if ExecutionStarted in c.script.appendFails then
      Closed(FailureDetail("ledger_error", "Audit ledger failed before execution."))
    else Open
  }

  /** The tool, its output and the postconditions. */
  function ToolGates(c: Call, k: ToolContract): Verdict {
    match c.script.handler
    case Raises => Closed(FailureDetail("tool_execution_failed", "Tool handler raised an exception."))
    case Returns(v) =>
      match SchemaError(v, k.outputSchema)
      case Some(m) => Closed(FailureDetail("output_validation_failed", m))
      case None =>
        if SomeUnmet(c.script.postconditions) then
          Closed(FailureDetail("postcondition_failed", "A postcondition failed after execution."))
        else Open
  }

  // ---------- the results in full ----------

  /** A failure before the tool was called. */
  function Refusal(c: Call, error: FailureDetail): ExecutionResult {
    ExecutionResult(c.script.executionId, c.script.transactionId, c.action.intentId, false,
                    c.script.startedAt, c.script.finishedAt, Null, Some(error), None)
  }

  /** The output that a result shows of a tool that was called. */
  function ShownOutput(c: Call): Value {
    match c.script.handler
    case Raises => Null
    case Returns(v) => if Serializable(v) then v else Null
  }

  /** A result after the tool was called, failed or not. */
  function Report(c: Call, error: Option<FailureDetail>): ExecutionResult {
    ExecutionResult(c.script.executionId, c.script.transactionId, c.action.intentId, error.None?,
                    c.script.startedAt, c.script.finishedAt, ShownOutput(c), error, Some(error.None?))
  }

  /** What a call returns that gets to its tool unhindered by other calls; `None` if it raises. */
  function OwnResult(c: Call, k: ToolContract): Option<ExecutionResult> {
    match LateGates(c)
    case Closed(e) => Some(Refusal(c, e))
    case _ =>
      if !IsJson(ShownOutput(c)) then None
      else
        match ToolGates(c, k)
        case Closed(e) => Some(Report(c, Some(e)))
        case _ => Some(Report(c, None))
  }

  /** What a call returns that finds its key claimed. */
  function FoundResult(c: Call, r: Record): Option<ExecutionResult> {
    if r.status.Completed? then Replay(r.result)
    else
      Some(Refusal(c, FailureDetail("idempotency_in_progress",
                                    "An action with this idempotency key is already in progress.")))
  }

  /** What `execute` returns, given the tool it finds and, if its key is claimed, the record it
      finds; `None` if it raises. */
  function Expected(c: Call, tool: Option<ToolContract>, record: Option<Record>): Option<ExecutionResult> {
    match EarlyGates(c, tool)
    case Raising => None
    case Closed(e) => Some(Refusal(c, e))
    case Open =>
      if record.Some? then FoundResult(c, record.value)
      else if tool.Some? then OwnResult(c, tool.value)
      else None
  }

  // ---------- what each gate means ----------

  lemma PolicyGatesMean(c: Call, k: ToolContract, asks: bool)
    requires Matches(c.action, k) && PoliciesPassed(c, k, asks) && !Clash(c.action, k, Answers(c, k))
    ensures PolicyGates(c, k) == ApprovalGates(c, k, asks)
  {
    EvaluateRaisesIff(c.action, k, c.script.policies, c.script.context, c.script.stamp);
    AdmittedMeans(c.action, k, Answers(c, k), c.script.stamp);
    assert NoneObjects(c.action, Answers(c, k)) && (asks <==> ApprovalDemanded(k, Answers(c, k)));
  }

  lemma DeniedGate(c: Call, k: ToolContract, reason: Reason)
    requires DeniedFor(c, k, reason)
    ensures PolicyGates(c, k) == Closed(FailureDetail("policy_denied", reason.Text()))
  {
    var d := Policies.Evaluate(c.action, Some(k), c.script.policies, c.script.context, c.script.stamp);
    assert d.Some? && d.value.decisionType.Deny? && d.value.reason == reason;
  }

  lemma ClashGate(c: Call, k: ToolContract)
    requires Matches(c.action, k) && Clash(c.action, k, Answers(c, k))
    ensures PolicyGates(c, k).Raising?
  {
    EvaluateRaisesIff(c.action, k, c.script.policies, c.script.context, c.script.stamp);
  }

  lemma ConformingInput(c: Call, k: ToolContract)
    requires ArgumentsConform(c, k)
    ensures SchemaError(Obj(c.action.arguments), k.inputSchema).None?
  {
    ValidateDecides(Obj(c.action.arguments), k.inputSchema, []);
    assert Conforms(Obj(c.action.arguments), k.inputSchema);
  }

  lemma ConformingOutput(v: Value, k: ToolContract)
    requires OutputConforms(v, k)
    ensures SchemaError(v, k.outputSchema).None? && Serializable(v)
  {
    ValidateDecides(v, k.outputSchema, []);
    assert Conforms(v, k.outputSchema);
  }

  lemma ResolvedGates(now: Registry, c: Call, l: Local)
    requires Resolved(now, c, l)
    ensures ContractGates(c, l.tool.value).Open?
  {
    ConformingInput(c, l.tool.value);
  }

  /** A call that was vetted has passed the contract and stands before approval. */
  lemma VettedGates(now: Registry, c: Call, l: Local)
    requires Vetted(now, c, l) && RaiseFacts(c, l) && !Clashed(l.pc) && AppendOk(c, ActionReceived)
    ensures EarlyGates(c, l.tool) == ApprovalGates(c, l.tool.value, AsksApproval(l))
  {
    ResolvedGates(now, c, l);
    PolicyGatesMean(c, l.tool.value, AsksApproval(l));
  }

  lemma ClearedGates(now: Registry, c: Call, l: Local)
    requires Cleared(now, c, l) && RaiseFacts(c, l) && !Clashed(l.pc) && AppendOk(c, ActionReceived)
    ensures EarlyGates(c, l.tool).Open? && l.tool.Some?
  {
    VettedGates(now, c, l);
  }

  lemma ChecksUnmet(checks: seq<CheckAnswer>)
    ensures SomeUnmet(checks) <==> !ChecksPassed(checks, |checks|)
    ensures Refuses(checks) ==> SomeUnmet(checks)
  {
    if !ChecksPassed(checks, |checks|) {
      var i :| 0 <= i < |checks| && !checks[i].Passed?;
    }
  }

  // ---------- each ending ----------

  /** What is known of a call at any time. */
  ghost predicate Facts(first: Registry, now: Registry, c: Call, l: Local) {
    VerdictOk(first, now, c, l) && RaiseFacts(c, l) && ClaimShape(c, l) && AdmissionOk(now, c, l) && OutputOk(c, l)
  }

  /** The failures that come before the claim. */
  predicate IsEarly(why: Why) {
    || why.LedgerBeforeResolution? || why.NotRegistered? || why.Mismatched? || why.BadInput? || why.Denied?
    || why.NotApproved? || why.NoKey?
  }

  lemma EarlyFailure(first: Registry, now: Registry, c: Call, l: Local, why: Why)
    requires Grounds(first, now, c, l, why) && IsEarly(why) && RaiseFacts(c, l) && !Clashed(l.pc)
    requires why.LedgerBeforeResolution? || AppendOk(c, ActionReceived)
    ensures EarlyGates(c, l.tool) == Closed(FailureDetail(why.Code(), why.Message(c.action.toolName)))
  {
    match why
    case LedgerBeforeResolution =>
    case NotRegistered =>
    case Mismatched =>
    case BadInput(m) => assert SchemaError(Obj(c.action.arguments), l.tool.value.inputSchema) == Some(m);
    case Denied(r) =>
      ResolvedGates(now, c, l);
      DeniedGate(c, l.tool.value, r);
    case NotApproved => VettedGates(now, c, l);
    case NoKey => VettedGates(now, c, l);
  }

  lemma EarlyResult(c: Call, why: Why, output: Value)
    requires IsEarly(why)
    ensures Failure(c, why, output) == Refusal(c, FailureDetail(why.Code(), why.Message(c.action.toolName)))
  {
  }

  lemma FoundFailure(c: Call, r: Record)
    requires !r.status.Completed?
    ensures FoundResult(c, r) == Some(Failure(c, KeyInProgress, Null))
  {
  }

  lemma LateFailure(first: Registry, now: Registry, c: Call, l: Local, why: Why, output: Value)
    requires Grounds(first, now, c, l, why) && (why.PreconditionNotMet? || why.LedgerBeforeExecution?)
    ensures OwnResult(c, l.tool.value) == Some(Failure(c, why, output))
  {
    ChecksUnmet(c.script.preconditions);
  }

  lemma LateOpen(now: Registry, c: Call, l: Local)
    requires Admitted(now, c, l) && AppendOk(c, ExecutionStarted)
    ensures LateGates(c).Open?
  {
    ChecksUnmet(c.script.preconditions);
  }

  lemma ToolFailure(first: Registry, now: Registry, c: Call, l: Local, why: Why, output: Value)
    requires Grounds(first, now, c, l, why) && why.AfterHandler() && AppendOk(c, ExecutionStarted) && !Spoils(c)
    requires why.BadOutput? || why.PostconditionNotMet? ==> c.script.handler == Returns(output)
    ensures OwnResult(c, l.tool.value) == Some(Failure(c, why, output))
  {
    LateOpen(now, c, l);
    match why
    case HandlerRaised =>
    case BadOutput(m) => assert SchemaError(output, l.tool.value.outputSchema) == Some(m);
    case PostconditionNotMet =>
      ConformingOutput(output, l.tool.value);
      ChecksUnmet(c.script.postconditions);
  }

  lemma SuccessReport(first: Registry, now: Registry, c: Call, l: Local, v: Value)
    requires Merited(first, now, c, l, Succeeded(v)) && AppendOk(c, ExecutionStarted)
    ensures OwnResult(c, l.tool.value) == Some(Success(c, v))
  {
    LateOpen(now, c, l);
    ConformingOutput(v, l.tool.value);
    ChecksUnmet(c.script.postconditions);
  }

  /** The record a call found under its key, if another call had claimed it. */
  function FoundRecord(l: Local): Option<Record> {
    if l.claim.Some? && !l.claim.value.acquired then Some(l.claim.value.record) else None
  }

  lemma ObserverExpected(first: Registry, now: Registry, c: Call, l: Local)
    requires Facts(first, now, c, l) && l.pc.Done? && l.claim.Some? && !Holds(l)
    ensures Returned(c, l) == Expected(c, l.tool, FoundRecord(l))
  {
    var r := l.claim.value.record;
    ClearedGates(now, c, l);
    if r.status.Completed? {
      assert Replay(r.result) == Some(l.ending.value.result);
    } else {
      FoundFailure(c, r);
    }
  }

  lemma OwnerExpected(first: Registry, now: Registry, c: Call, l: Local)
    requires Facts(first, now, c, l) && l.pc.Done? && OwnAnswer(l)
    ensures Returned(c, l) == Expected(c, l.tool, None)
  {
    match l.ending.value
    case Replayed(_) =>
    case Succeeded(v) =>
      ClearedGates(now, c, l);
      SuccessReport(first, now, c, l, v);
    case Failed(why, output) =>
      if IsEarly(why) {
        EarlyFailure(first, now, c, l, why);
        EarlyResult(c, why, output);
      } else {
        ClearedGates(now, c, l);
        if why.AfterHandler() {
          ToolFailure(first, now, c, l, why, output);
        } else {
          LateFailure(first, now, c, l, why, output);
        }
      }
  }

  lemma RaisedExpected(first: Registry, now: Registry, c: Call, l: Local)
    requires Facts(first, now, c, l) && l.pc.Crashed?
    ensures Returned(c, l) == Expected(c, l.tool, FoundRecord(l)) == None
  {
    if Clashed(l.pc) {
      ResolvedGates(now, c, l);
      ClashGate(c, l.tool.value);
    } else {
      ClearedGates(now, c, l);
      LateOpen(now, c, l);
    }
  }

  lemma FinishedExpected(first: Registry, now: Registry, c: Call, l: Local)
    requires Facts(first, now, c, l) && Finished(l)
    ensures Returned(c, l) == Expected(c, l.tool, FoundRecord(l))
  {
    if l.pc.Crashed? {
      RaisedExpected(first, now, c, l);
    } else if OwnAnswer(l) {
      OwnerExpected(first, now, c, l);
    } else {
      ObserverExpected(first, now, c, l);
    }
  }

  // ---------- every call ----------

  lemma FactsOf(s: State, schedule: seq<Move>, t: Tid)
    requires Inv(s) && t in s.threads && s.threads[t].local == FRESH
    ensures var s' := Run(s, schedule);
      t in s'.threads && s'.threads[t].call == s.threads[t].call
      && Facts(s.shared.registry, s'.shared.registry, s'.threads[t].call, s'.threads[t].local)
  {
    RunInv(s, schedule);
    FreshCallTold(s, schedule, t);
    HowCallsRaise(Run(s, schedule), t);
    OwnFacts(Run(s, schedule), t);
  }

  /** From any point of any run, for a call that has not begun, under any schedule: once it is
      over it has returned what is expected of it, or raised if that is expected, given the tool
      it found and the record its claim found, if another call had claimed its key. */
  lemma AnswersAsExpected(s: State, schedule: seq<Move>, t: Tid)
    requires Inv(s) && t in s.threads && s.threads[t].local == FRESH
    ensures var s' := Run(s, schedule);
      t in s'.threads
      && var c, l := s.threads[t].call, s'.threads[t].local;
      Finished(l) ==> Returned(c, l) == Expected(c, l.tool, FoundRecord(l))
  {
    FactsOf(s, schedule, t);
    var s' := Run(s, schedule);
    if Finished(s'.threads[t].local) {
      FinishedExpected(s.shared.registry, s'.shared.registry, s'.threads[t].call, s'.threads[t].local);
    }
  }

  // ---------- a call made alone ----------

  function Lookup(registry: Registry, name: string): Option<ToolContract> {
    if name in registry then Some(registry[name]) else None
  }

  /** The record under a call's key, if the call has one. */
  function RecordUnder(records: Records, key: Option<string>): Option<Record> {
    if key.Some? && key.value in records then Some(records[key.value]) else None
  }

  /** A call that could record its receipt knows the registered tool, or found none. */
  lemma ToolFound(first: Registry, now: Registry, c: Call, l: Local)
    requires Facts(first, now, c, l) && Finished(l) && AppendOk(c, ActionReceived)
    ensures if l.tool.Some? then Known(now, c, l) else c.action.toolName !in first
  {
  }

  /** A call with a key that never got to its claim was stopped by an early gate. */
  lemma NeverClaimed(first: Registry, now: Registry, c: Call, l: Local)
    requires Facts(first, now, c, l) && Finished(l) && c.action.idempotencyKey.Some? && l.claim.None?
    ensures !EarlyGates(c, l.tool).Open?
  {
    if l.pc.Crashed? {
      ResolvedGates(now, c, l);
      ClashGate(c, l.tool.value);
    } else {
      EarlyFailure(first, now, c, l, l.ending.value.why);
    }
  }

  lemma UnheardWhatever(c: Call, tool: Option<ToolContract>, record: Option<Record>)
    requires !AppendOk(c, ActionReceived)
    ensures Expected(c, tool, record) == Expected(c, None, None)
  {
  }

  /** A finished call that found its tool in this registry and its record among these. */
  lemma ExpectedFromState(first: Registry, c: Call, l: Local, record: Option<Record>)
    requires Facts(first, first, c, l) && Finished(l)
    requires l.claim.Some? ==> record == FoundRecord(l)
    requires c.action.idempotencyKey.None? ==> record.None? && l.claim.None?
    ensures Expected(c, l.tool, FoundRecord(l)) == Expected(c, Lookup(first, c.action.toolName), record)
  {
    if AppendOk(c, ActionReceived) {
      ToolFound(first, first, c, l);
      if c.action.idempotencyKey.Some? && l.claim.None? { NeverClaimed(first, first, c, l); }
    } else {
      UnheardWhatever(c, l.tool, FoundRecord(l));
      UnheardWhatever(c, Lookup(first, c.action.toolName), record);
    }
  }

  lemma {:induction false} SoloKeepsRegistry(s: State, t: Tid, n: nat)
    requires t in s.threads
    ensures Run(s, Solo(t, n)).shared.registry == s.shared.registry
    decreases n
  {
    if n > 0 {
      SoloStep(s, t, n);
      TurnKeepsRegistry(s, t);
      SoloKeepsRegistry(Do(s, Turn(t)), t, n - 1);
    }
  }

  lemma TurnKeepsRegistry(s: State, t: Tid)
    requires t in s.threads
    ensures t in Do(s, Turn(t)).threads && Do(s, Turn(t)).shared.registry == s.shared.registry
  {
    var c, l := s.threads[t].call, s.threads[t].local;
    RegistryKept(s.shared, c, l, t, Next(s.shared.registry, c, l));
  }

  lemma AloneFacts(s: State, t: Tid)
    requires Inv(s) && t in s.threads && s.threads[t].local == FRESH
    ensures var c, l := s.threads[t].call, AfterAlone(s, t).threads[t].local;
      && Facts(s.shared.registry, s.shared.registry, c, l) && Finished(l)
      && Returned(c, l) == Expected(c, l.tool, FoundRecord(l))
  {
    var n := StepsLeft(s.threads[t].call, FRESH.pc);
    AloneIsASchedule(s, t, n);
    SoloKeepsRegistry(s, t, n);
    FactsOf(s, Solo(t, n), t);
    AnswersAsExpected(s, Solo(t, n), t);
  }

  lemma AloneFinds(s: State, t: Tid)
    requires Inv(s) && t in s.threads && s.threads[t].local == FRESH
    ensures var c, l := s.threads[t].call, AfterAlone(s, t).threads[t].local;
      l.claim.Some? ==>
        c.action.idempotencyKey.Some? && FoundRecord(l) == RecordUnder(s.shared.records, c.action.idempotencyKey)
  {
    AloneClaims(s, t);
  }

  /** A call made alone returns what is expected of it, given the tool registered and the record
      kept under its key before the call. */
  lemma AloneAsExpected(s: State, t: Tid)
    requires Inv(s) && t in s.threads && s.threads[t].local == FRESH
    ensures var c := s.threads[t].call;
      Returned(c, AfterAlone(s, t).threads[t].local)
      == Expected(c, Lookup(s.shared.registry, c.action.toolName),
                  RecordUnder(s.shared.records, c.action.idempotencyKey))
  {
    var c, l := s.threads[t].call, AfterAlone(s, t).threads[t].local;
    AloneFacts(s, t);
    AloneFinds(s, t);
    ExpectedFromState(s.shared.registry, c, l, RecordUnder(s.shared.records, c.action.idempotencyKey));
  }

  /** So does the method. */
  lemma ExecuteAnswers(s: State, t: Tid, sh: Shared, r: Option<ExecutionResult>)
    requires Inv(s) && t in s.threads && s.threads[t].local == FRESH
    requires Outcome(s.shared, s.threads[t].call, FRESH, t, sh, r)
    ensures var c := s.threads[t].call;
      r == Expected(c, Lookup(s.shared.registry, c.action.toolName),
                    RecordUnder(s.shared.records, c.action.idempotencyKey))
  {
    OutcomeIsASchedule(s, t, sh, r);
    AloneAsExpected(s, t);
  }

  // ---------- which code means what ----------

  /** The code of a result's error; "" if it has none. */
  function CodeOf(r: Option<ExecutionResult>): string {
    if r.Some? && r.value.error.Some? then r.value.error.value.code else ""
  }

  predicate FirstCode(code: string) {
    code == "unknown_tool" || code == "contract_mismatch" || code == "input_validation_failed"
  }

  predicate PolicyCode(code: string) {
    code == "policy_denied" || code == "approval_required" || code == "idempotency_key_missing"
  }

  predicate LateCode(code: string) { code == "precondition_failed" || code == "ledger_error" }

  predicate ToolCode(code: string) {
    code == "tool_execution_failed" || code == "output_validation_failed" || code == "postcondition_failed"
  }

  lemma CodesDiffer(code: string)
    ensures FirstCode(code) ==> !PolicyCode(code) && !LateCode(code) && !ToolCode(code) && code != ""
    ensures PolicyCode(code) ==> !LateCode(code) && !ToolCode(code) && code != ""
    ensures LateCode(code) ==> !ToolCode(code) && code != ""
    ensures ToolCode(code) ==> code != ""
  {
    if FirstCode(code) { assert code[0] == 'u' || code[0] == 'c' || code[1] == 'n'; }
  }

  predicate Heard(c: Call) { ActionReceived !in c.script.appendFails }

  /** The call has come to its tool's contract and its arguments conform. */
  predicate Checked(c: Call, tool: Option<ToolContract>) {
    Heard(c) && tool.Some? && ContractGates(c, tool.value).Open?
  }

  /** What the policies decide on the call. */
  function Decided(c: Call, k: ToolContract): Option<PolicyDecision> {
    Policies.Evaluate(c.action, Some(k), c.script.policies, c.script.context, c.script.stamp)
  }

  /** Where a code comes from, if the call answers for itself. */
  predicate ComesFrom(code: string, c: Call, tool: Option<ToolContract>) {
    if !Heard(c) then code == "ledger_error"
    else if tool.None? then code == "unknown_tool"
    else
      match ContractGates(c, tool.value)
      case Closed(e) => code == e.code
      case _ => FromPolicies(code, c, tool.value)
  }

  predicate FromPolicies(code: string, c: Call, k: ToolContract) {
    match PolicyGates(c, k)
    case Closed(e) => code == e.code
    case Raising => code == ""
    case Open => FromTool(code, c, k)
  }

  predicate FromTool(code: string, c: Call, k: ToolContract) {
    match LateGates(c)
    case Closed(e) => code == e.code
    case _ =>
      if !IsJson(ShownOutput(c)) then code == ""
      else match ToolGates(c, k) case Closed(e) => code == e.code case _ => code == ""
  }

  lemma CodeSource(c: Call, tool: Option<ToolContract>)
    ensures ComesFrom(CodeOf(Expected(c, tool, None)), c, tool)
  {
  }

  lemma FromToolCode(code: string, c: Call, k: ToolContract)
    requires FromTool(code, c, k)
    ensures LateCode(code) || ToolCode(code) || code == ""
  {
  }

  lemma FromPoliciesCode(code: string, c: Call, k: ToolContract)
    requires FromPolicies(code, c, k)
    ensures if PolicyGates(c, k).Closed? then PolicyCode(code) else LateCode(code) || ToolCode(code) || code == ""
  {
    if PolicyGates(c, k).Open? { FromToolCode(code, c, k); }
  }

  /** Stopped at the contract: by this gate exactly under this code. */
  lemma ContractCodes(code: string, c: Call, tool: Option<ToolContract>)
    requires ComesFrom(code, c, tool)
    ensures code == "unknown_tool" <==> Heard(c) && tool.None?
    ensures code == "contract_mismatch" <==>
      Heard(c) && tool.Some?
      && !(c.action.contractId == tool.value.contractId && c.action.toolName == tool.value.name
           && c.action.contractVersion == tool.value.version)
    ensures code == "input_validation_failed" <==>
      Heard(c) && tool.Some?
      && c.action.contractId == tool.value.contractId && c.action.toolName == tool.value.name
      && c.action.contractVersion == tool.value.version
      && SchemaError(Obj(c.action.arguments), tool.value.inputSchema).Some?
  {
    CodesDiffer(code);
    if Checked(c, tool) { FromPoliciesCode(code, c, tool.value); }
  }

  /** Stopped by the policies, for want of approval, or for want of a key. */
  lemma PolicyCodes(code: string, c: Call, k: ToolContract)
    requires FromPolicies(code, c, k)
    ensures code == "policy_denied" <==> Decided(c, k).Some? && Decided(c, k).value.decisionType.Deny?
    ensures code == "approval_required" <==>
      Decided(c, k).Some? && Decided(c, k).value.decisionType.RequireApproval? && !c.script.approval.Passed?
    ensures code == "idempotency_key_missing" <==>
      Decided(c, k).Some? && !Decided(c, k).value.decisionType.Deny?
      && (Decided(c, k).value.decisionType.RequireApproval? ==> c.script.approval.Passed?)
      && k.idempotencyKeyRequired && c.action.idempotencyKey.None?
  {
    CodesDiffer(code);
    FromPoliciesCode(code, c, k);
  }

  /** An unmet precondition and an unmet postcondition answer differently, and only the latter
      after the tool was called. */
  lemma ToolCodes(code: string, c: Call, k: ToolContract)
    requires FromTool(code, c, k)
    ensures code == "precondition_failed" <==> SomeUnmet(c.script.preconditions)
    ensures code == "ledger_error" <==>
      !SomeUnmet(c.script.preconditions) && ExecutionStarted in c.script.appendFails
    ensures code == "tool_execution_failed" <==> LateGates(c).Open? && c.script.handler.Raises?
    ensures code == "output_validation_failed" <==>
      LateGates(c).Open? && c.script.handler.Returns? && IsJson(ShownOutput(c))
      && SchemaError(c.script.handler.output, k.outputSchema).Some?
    ensures code == "postcondition_failed" <==>
      LateGates(c).Open? && c.script.handler.Returns? && IsJson(ShownOutput(c))
      && SchemaError(c.script.handler.output, k.outputSchema).None? && SomeUnmet(c.script.postconditions)
  {
    CodesDiffer(code);
  }

  lemma OpenComes(code: string, c: Call, tool: Option<ToolContract>)
    requires ComesFrom(code, c, tool)
    ensures EarlyGates(c, tool).Open? ==> tool.Some? && FromTool(code, c, tool.value)
    ensures !EarlyGates(c, tool).Open? ==> code != "precondition_failed" && !ToolCode(code)
  {
    CodesDiffer(code);
    if Checked(c, tool) { FromPoliciesCode(code, c, tool.value); }
  }

  lemma CheckCodes(code: string, c: Call, tool: Option<ToolContract>)
    requires code == CodeOf(Expected(c, tool, None))
    ensures ComesFrom(code, c, tool)
    ensures code == "precondition_failed" <==> EarlyGates(c, tool).Open? && SomeUnmet(c.script.preconditions)
    ensures code == "postcondition_failed" <==>
      EarlyGates(c, tool).Open? && LateGates(c).Open? && c.script.handler.Returns?
      && IsJson(ShownOutput(c)) && SchemaError(c.script.handler.output, tool.value.outputSchema).None?
      && SomeUnmet(c.script.postconditions)
  {
    CodeSource(c, tool);
    OpenComes(code, c, tool);
    if EarlyGates(c, tool).Open? { ToolCodes(code, c, tool.value); }
  }

  /** The conditions that a call's checks and its tool decide, on the result that a finished call
      returns which answers for itself. */
  lemma ChecksAnswer(s: State, schedule: seq<Move>, t: Tid)
    requires Inv(s) && t in s.threads && s.threads[t].local == FRESH
    ensures var s' := Run(s, schedule);
      t in s'.threads
      && var c, l := s.threads[t].call, s'.threads[t].local;
      var code := CodeOf(Returned(c, l));
      Finished(l) && OwnAnswer(l) ==>
        && ComesFrom(code, c, l.tool)
        && (code == "precondition_failed" <==> EarlyGates(c, l.tool).Open? && SomeUnmet(c.script.preconditions))
        && (code == "postcondition_failed" <==>
              EarlyGates(c, l.tool).Open? && LateGates(c).Open? && c.script.handler.Returns?
              && IsJson(ShownOutput(c)) && SchemaError(c.script.handler.output, l.tool.value.outputSchema).None?
              && SomeUnmet(c.script.postconditions))
  {
    AnswersAsExpected(s, schedule, t);
    var s' := Run(s, schedule);
    var c, l := s.threads[t].call, s'.threads[t].local;
    if Finished(l) && OwnAnswer(l) { CheckCodes(CodeOf(Returned(c, l)), c, l.tool); }
  }
}
