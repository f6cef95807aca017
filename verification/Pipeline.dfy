/** The single-action pipeline as a step function. A call decides its next act from its own
    variables; performing the act is one atomic access to what calls share: the registry,
    the idempotency records, the ledger, or the tool itself. */
module Pipeline {
  import opened Json
  import opened Contracts
  import opened Policies
  import opened AuditLedger
  import opened Idempotency
  import opened ExecutionResults
  import opened SchemaValidation

  // ---------- one call and what its surroundings answer ----------

  datatype CheckAnswer = Passed | NotPassed | Exploded

  datatype HandlerOutcome = Raises | Returns(output: Value)

  /** Everything the host decides during one call: identifiers, clock readings, policies,
      check answers, the handler's outcome, and which ledger appends fail. Fixing these
      ahead of the call loses nothing, since each is consulted at most once and every
      theorem is about all of them. */
  datatype Script = Script(
    executionId: string, transactionId: string, startedAt: int, finishedAt: int,
    policies: seq<Policy>, context: seq<Member>, stamp: Stamp,
    appendFails: set<EventKind>, approval: CheckAnswer,
    token: string, claimedAt: int, recordedAt: int,
    preconditions: seq<CheckAnswer>, handler: HandlerOutcome, postconditions: seq<CheckAnswer>)
  {
    /** Clocks do not run backwards, and dictionaries have distinct keys. */
    ghost predicate Plausible() {
      && startedAt <= finishedAt && claimedAt <= recordedAt
      && (handler.Returns? ==> WellFormed(handler.output))
    }
  }

  datatype Call = Call(action: ActionIntent, script: Script)

  // ---------- how a call can end ----------

  datatype Why =
    | LedgerBeforeResolution
    | NotRegistered
    | Mismatched
    | BadInput(message: string)
    | Denied(reason: Reason)
    | NotApproved
    | NoKey
    | KeyInProgress
    | PreconditionNotMet
    | LedgerBeforeExecution
    | HandlerRaised
    | BadOutput(message: string)
    | PostconditionNotMet
  {
    function Code(): string {
      match this
      case LedgerBeforeResolution => "ledger_error"
      case NotRegistered => "unknown_tool"
      case Mismatched => "contract_mismatch"
      case BadInput(_) => "input_validation_failed"
      case Denied(_) => "policy_denied"
      case NotApproved => "approval_required"
      case NoKey => "idempotency_key_missing"
      case KeyInProgress => "idempotency_in_progress"
      case PreconditionNotMet => "precondition_failed"
      case LedgerBeforeExecution => "ledger_error"
      case HandlerRaised => "tool_execution_failed"
      case BadOutput(_) => "output_validation_failed"
      case PostconditionNotMet => "postcondition_failed"
    }

    function Message(tool: string): string {
      match this
      case LedgerBeforeResolution => "Audit ledger failed before tool resolution."
      case NotRegistered => "Tool is not registered: " + tool + "."
      case Mismatched => "Action intent does not match the registered contract."
      case BadInput(m) => m
      case Denied(r) => r.Text()
      case NotApproved => "Approval is required before execution."
      case NoKey => "The registered contract requires an idempotency key."
      case KeyInProgress => "An action with this idempotency key is already in progress."
      case PreconditionNotMet => "A precondition failed before execution."
      case LedgerBeforeExecution => "Audit ledger failed before execution."
      case HandlerRaised => "Tool handler raised an exception."
      case BadOutput(m) => m
      case PostconditionNotMet => "A postcondition failed after execution."
    }

    /** The tool had already been called. */
    predicate AfterHandler() { HandlerRaised? || BadOutput? || PostconditionNotMet? }
  }

  /** How a call ended, with what its result is made from. */
  datatype Ending = Failed(why: Why, output: Value) | Succeeded(output: Value) | Replayed(result: ExecutionResult)

  /** Uncaught exceptions the code could raise out of `execute`. `OutputRefused` is the result's
      own field refusing an output that `json.dumps` accepts. */
  datatype Fault =
    | PolicyComposition
    | OutputNotJson
    | OutputRefused
    | InvalidResult
    | CompletionFailed(error: CompletionError)
    | ReplayUndecodable

  datatype Pc =
    | Received | Resolve | Validated | Evaluate | Approve | Gate | Claiming | Replaying
    | Pre(i: nat) | Start | Invoke | Post(i: nat) | Succeed
    | Rejecting(why: Why)
    | Failing(why: Why)
    | Complete | Done | Crashed(fault: Fault)

  /** A call's own variables. `trail`, `receivedAt`, `startedAt` and `ran` only record
      what happened; the code never reads them. */
  datatype Local = Local(
    pc: Pc, tool: Option<ToolContract>, decision: Option<PolicyDecision>,
    claim: Option<Claim>, output: Value, ending: Option<Ending>,
    trail: seq<EventKind>, receivedAt: Option<nat>, startedAt: Option<nat>, ran: bool)

  const FRESH := Local(Received, None, None, None, Null, None, [], None, None, false)

  // ---------- what calls share ----------

  type Tid = nat

  datatype HandlerCall = HandlerCall(caller: Tid, key: Option<string>, ledgerLength: nat)

  /** `authors` says which call appended each event, and `calls` lists the handler calls. */
  datatype Shared = Shared(
    registry: map<string, ToolContract>, records: Records, ledger: seq<LedgerEvent>,
    authors: seq<Tid>, calls: seq<HandlerCall>)

  // ---------- results ----------

  function JsonOrNull(v: Value): Value { if Serializable(v) then v else Null }

  /** The output a failure's result is given. */
  function FailureOutput(why: Why, output: Value): Value {
    if why.BadOutput? || why.PostconditionNotMet? then JsonOrNull(output) else Null
  }

  /** `_failure` with the arguments its call site for this reason passes. */
  function Failure(c: Call, why: Why, output: Value): ExecutionResult {
    ExecutionResult(
      c.script.executionId, c.script.transactionId, c.action.intentId, false, c.script.startedAt, c.script.finishedAt,
      FailureOutput(why, output),
      Some(FailureDetail(why.Code(), why.Message(c.action.toolName))),
      if why.AfterHandler() then Some(false) else None)
  }

  function Success(c: Call, output: Value): ExecutionResult {
    ExecutionResult(c.script.executionId, c.script.transactionId, c.action.intentId, true,
                    c.script.startedAt, c.script.finishedAt, output, None, Some(true))
  }

  /** The result the call returns. */
  function ResultOf(c: Call, ending: Ending): ExecutionResult {
    match ending
    case Failed(why, output) => Failure(c, why, output)
    case Succeeded(output) => Success(c, output)
    case Replayed(r) => r
  }

  /** The result's validator passes: its completion time is no earlier than its start. */
  predicate Timely(c: Call) { c.script.startedAt <= c.script.finishedAt }

  /** The output handed to the result of a call that ends this way. */
  function OutputOf(e: Ending): Value {
    match e
    case Failed(why, output) => FailureOutput(why, output)
    case Succeeded(output) => output
    case Replayed(r) => r.output
  }

  /** Building the result raises if its output field refuses the output, or its validator fails. */
  function BuildFault(c: Call, e: Ending): Option<Fault> {
    if !IsJson(OutputOf(e)) then Some(OutputRefused) else if !Timely(c) then Some(InvalidResult) else None
  }

  /** A result is built exactly when its output is JSON and the result validator passes. */
  lemma BuiltResultsAreValid(c: Call, e: Ending)
    requires !e.Replayed?
    ensures BuildFault(c, e).None? <==> IsJson(ResultOf(c, e).output) && ResultOf(c, e).Valid()
    ensures ResultOf(c, e).output == OutputOf(e)
  {
  }

  // ---------- acts ----------

  datatype Act =
    | Think(next: Local)
    | Append(kind: EventKind, details: Details, stored: Local, lost: Local)
    | ClaimKey(key: string)
    | CallTool(next: Local)
    | CompleteClaim(claim: Claim, result: ExecutionResult)

  /** The event appended together with a failure. */
  function FailureEvent(why: Why): EventKind
    requires Loggable(why)
  {
    match why
    case NotRegistered => ToolUnknown
    case Mismatched => ContractRejected
    case BadInput(_) => InputRejected
    case NotApproved => ApprovalRequired
    case NoKey => KeyMissing
    case PreconditionNotMet => PreconditionFailed
    case HandlerRaised => ExecutionFailed
    case BadOutput(_) => OutputRejected
    case PostconditionNotMet => PostconditionFailed
  }

  predicate Loggable(why: Why) {
    !why.LedgerBeforeResolution? && !why.Denied? && !why.KeyInProgress? && !why.LedgerBeforeExecution?
  }

  function FailureDetails(c: Call, decision: Option<PolicyDecision>, why: Why): Details {
    match why
    case NotRegistered => OfUnknownTool(Deny)
    case Mismatched => OfTool(c.action.toolName)
    case BadInput(m) => OfMessage(m)
    case NotApproved => if decision.Some? then OfPending(decision.value.decisionId) else NoDetails
    case HandlerRaised => OfToolFailure
    case BadOutput(m) => OfMessage(m)
    case _ => NoDetails
  }

  /** Ends a call that holds no claim. */
  function End(c: Call, l: Local, ending: Ending): Local {
    if Timely(c) then l.(pc := Done, ending := Some(ending)) else l.(pc := Crashed(InvalidResult))
  }

  /** Fixes the result of a call that may hold a claim; completing the claim comes next. */
  function Finish(c: Call, l: Local, ending: Ending): Local {
    match BuildFault(c, ending)
    case None => l.(pc := Complete, ending := Some(ending))
    case Some(fault) => l.(pc := Crashed(fault))
  }

  function ReceiveAct(c: Call, l: Local): Act {
    var unheard := End(c, l, Failed(LedgerBeforeResolution, Null));
    Append(ActionReceived, OfTool(c.action.toolName), l.(pc := Resolve), unheard)
  }

  /** Looks the tool up, matches the contract and validates the arguments. */
  function ResolveAct(registry: map<string, ToolContract>, c: Call, l: Local): Act {
    if c.action.toolName !in registry then Think(l.(pc := Rejecting(NotRegistered)))
    else
      var tool := registry[c.action.toolName];
      ResolvedAct(c, l.(tool := Some(tool)), tool, SchemaError(Obj(c.action.arguments), tool.inputSchema))
  }

  function ResolvedAct(c: Call, l: Local, tool: ToolContract, inputError: Option<string>): Act {
    Think(l.(pc := if !Matches(c.action, tool) then Rejecting(Mismatched)
                   else if inputError.Some? then Rejecting(BadInput(inputError.value))
                   else Validated))
  }

  function ValidatedAct(c: Call, l: Local): Act {
    var next := l.(pc := Pc.Evaluate);
    Append(ContractValidated, OfContract(if l.tool.Some? then l.tool.value.contractId else ""), next, next)
  }

  function EvaluateAct(c: Call, l: Local): Act {
    EvaluatedAct(c, l, Policies.Evaluate(c.action, l.tool, c.script.policies, c.script.context, c.script.stamp))
  }

  function EvaluatedAct(c: Call, l: Local, decision: Option<PolicyDecision>): Act {
    match decision
    case None => Think(l.(pc := Crashed(PolicyComposition)))
    case Some(d) =>
      var decided := l.(decision := Some(d));
      var next := match d.decisionType
                  case Deny => End(c, decided, Failed(Denied(d.reason), Null))
                  case RequireApproval => decided.(pc := Approve)
                  case _ => decided.(pc := Gate);
      Append(PolicyEvaluated, OfDecision(d.decisionType, d.riskLevel), next, next)
  }

  function ApproveAct(c: Call, l: Local): Act {
    Think(l.(pc := if c.script.approval.Passed? then Gate else Rejecting(NotApproved)))
  }

  function GateAct(c: Call, l: Local): Act {
    var required := l.tool.Some? && l.tool.value.idempotencyKeyRequired;
    Think(l.(pc := if required && c.action.idempotencyKey.None? then Rejecting(NoKey)
                   else if c.action.idempotencyKey.Some? then Claiming
                   else Pre(0)))
  }

  function ClaimAct(c: Call, l: Local): Act {
    match c.action.idempotencyKey case Some(k) => ClaimKey(k) case None => Think(l.(pc := Pre(0)))
  }

  /** Answers from the record another call claimed. */
  function ReplayAct(c: Call, l: Local): Act {
    match l.claim
    case None => Think(l.(pc := Pre(0)))
    case Some(claim) =>
      if claim.record.status.Completed? && !claim.record.result.Null?
      then ReplayedAct(l, Replay(claim.record.result))
      else
        var next := End(c, l, Failed(KeyInProgress, Null));
        Append(IdempotencyReplayed, OfReplay(claim.record.status.Completed?), next, next)
  }

  function ReplayedAct(l: Local, replayed: Option<ExecutionResult>): Act {
    var next := match replayed
                case Some(r) => l.(pc := Done, ending := Some(Replayed(r)))
                case None => l.(pc := Crashed(ReplayUndecodable));
    Append(IdempotencyReplayed, OfReplay(true), next, next)
  }

  /** One turn of a loop over checks. */
  function CheckAct(l: Local, checks: seq<CheckAnswer>, i: nat, next: Pc, again: Pc, why: Why): Act {
    Think(l.(pc := if i >= |checks| then next else if checks[i].Passed? then again else Failing(why)))
  }

  function StartAct(c: Call, l: Local): Act {
    Append(ExecutionStarted, NoDetails, l.(pc := Invoke), Finish(c, l, Failed(LedgerBeforeExecution, Null)))
  }

  /** Calls the tool and validates what it returns. */
  function InvokeAct(c: Call, l: Local): Act {
    match c.script.handler
    case Raises => CallTool(l.(pc := Failing(HandlerRaised)))
    case Returns(v) =>
      InvokedAct(l, v, match l.tool case None => None case Some(tool) => SchemaError(v, tool.outputSchema))
  }

  function InvokedAct(l: Local, output: Value, outputError: Option<string>): Act {
    CallTool(l.(output := output, pc := match outputError case Some(m) => Failing(BadOutput(m)) case None => Post(0)))
  }

  function SucceedAct(c: Call, l: Local): Act {
    if !Serializable(l.output) then Think(l.(pc := Crashed(OutputNotJson)))
    else
      var next := Finish(c, l, Succeeded(l.output));
      if next.pc.Crashed? then Think(next) else Append(ExecutionSucceeded, NoDetails, next, next)
  }

  function RejectAct(c: Call, l: Local, why: Why): Act {
    var next := End(c, l, Failed(why, l.output));
    if Loggable(why) then Append(FailureEvent(why), FailureDetails(c, l.decision, why), next, next) else Think(next)
  }

  /** A failure after the tool ran is built before its event is appended. */
  function FailAct(c: Call, l: Local, why: Why): Act {
    var next := Finish(c, l, Failed(why, l.output));
    if Loggable(why) && (!next.pc.Crashed? || !why.AfterHandler()) then
      Append(FailureEvent(why), FailureDetails(c, l.decision, why), next, next)
    else Think(next)
  }

  /** `_complete_claim`. */
  function CompleteAct(c: Call, l: Local): Act {
    match (l.claim, l.ending)
    case (Some(claim), Some(ending)) => CompleteClaim(claim, ResultOf(c, ending))
    case _ => Think(l.(pc := Done))
  }

  /** The gates before the idempotency claim. */
  function NextBeforeClaim(registry: map<string, ToolContract>, c: Call, l: Local): Act {
    match l.pc
    case Received => ReceiveAct(c, l)
    case Resolve => ResolveAct(registry, c, l)
    case Validated => ValidatedAct(c, l)
    case Evaluate => EvaluateAct(c, l)
    case Approve => ApproveAct(c, l)
    case Gate => GateAct(c, l)
    case Claiming => ClaimAct(c, l)
    case Rejecting(why) => RejectAct(c, l, why)
    case _ => Think(l)
  }

  /** From the claim's answer to the end. A finished call does nothing. */
  function NextAfterClaim(c: Call, l: Local): Act {
    match l.pc
    case Replaying => ReplayAct(c, l)
    case Pre(i) => CheckAct(l, c.script.preconditions, i, Start, Pre(i + 1), PreconditionNotMet)
    case Start => StartAct(c, l)
    case Invoke => InvokeAct(c, l)
    case Post(i) => CheckAct(l, c.script.postconditions, i, Succeed, Post(i + 1), PostconditionNotMet)
    case Succeed => SucceedAct(c, l)
    case Failing(why) => FailAct(c, l, why)
    case Complete => CompleteAct(c, l)
    case _ => Think(l)
  }

  predicate BeforeClaim(pc: Pc) {
    || pc.Received? || pc.Resolve? || pc.Validated? || pc.Evaluate? || pc.Approve? || pc.Gate? || pc.Claiming?
    || pc.Rejecting? || pc.Crashed?
  }

  /** What a call does next. */
  function Next(registry: map<string, ToolContract>, c: Call, l: Local): Act {
    if BeforeClaim(l.pc) then NextBeforeClaim(registry, c, l) else NextAfterClaim(c, l)
  }

  // ---------- performing an act ----------

  function EntryOf(c: Call, kind: EventKind, details: Details): Entry {
    var withTransaction := kind.ExecutionStarted? || kind.ExecutionFailed? || kind.OutputRejected?
                           || kind.PostconditionFailed? || kind.ExecutionSucceeded?;
    Entry(c.action.intentId, kind, Some(c.action.intentId),
          if withTransaction then Some(c.script.transactionId) else None, details)
  }

  predicate AppendOk(c: Call, kind: EventKind) { kind !in c.script.appendFails }

  /** Of the events a call tries to append, those the ledger stores. */
  function Surviving(c: Call, word: seq<EventKind>): seq<EventKind> {
    if word == [] then []
    else
      var n := |word| - 1;
      Surviving(c, word[..n]) + (if AppendOk(c, word[n]) then [word[n]] else [])
  }

  /** The call's variables after its event was stored at a ledger position. */
  function WithEvent(l: Local, kind: EventKind, at: nat): Local {
    l.(trail := l.trail + [kind],
       receivedAt := if kind.ActionReceived? then Some(at) else l.receivedAt,
       startedAt := if kind.ExecutionStarted? then Some(at) else l.startedAt)
  }

  /** The call's variables after its event could not be stored. */
  function WithoutEvent(l: Local, kind: EventKind): Local { l.(trail := l.trail + [kind]) }

  function Perform(sh: Shared, c: Call, l: Local, tid: Tid, act: Act): (Shared, Local) {
    match act
    case Think(next) => (sh, next)
    case Append(kind, details, stored, lost) =>
      if AppendOk(c, kind) then
        (sh.(ledger := Appended(sh.ledger, EntryOf(c, kind, details)), authors := sh.authors + [tid]),
         WithEvent(stored, kind, |sh.ledger|))
      else (sh, WithoutEvent(lost, kind))
    case ClaimKey(k) =>
      var claim := ClaimOf(sh.records, k, c.script.token, c.script.claimedAt);
      (sh.(records := AfterClaim(sh.records, k, c.script.token, c.script.claimedAt)),
       l.(claim := Some(claim), pc := if claim.acquired then Pre(0) else Replaying))
    case CallTool(next) =>
      (sh.(calls := sh.calls + [HandlerCall(tid, c.action.idempotencyKey, |sh.ledger|)]), next.(ran := true))
    case CompleteClaim(claim, r) =>
      var key, token := claim.record.key, claim.record.ownerToken;
      (match Completion(sh.records, key, token, r.executionId, Encode(r), c.script.recordedAt)
       case Ok(_) =>
         (sh.(records := AfterCompletion(sh.records, key, token, r.executionId, Encode(r), c.script.recordedAt)),
          l.(pc := Done))
       case Err(e) => (sh, l.(pc := Crashed(CompletionFailed(e)))))
  }

  /** One step of a call. */
  function Advance(sh: Shared, c: Call, l: Local, tid: Tid): (Shared, Local) {
    Perform(sh, c, l, tid, Next(sh.registry, c, l))
  }

  predicate Finished(l: Local) { l.pc.Done? || l.pc.Crashed? }

  /** An upper bound on the steps a call still takes. */
  function StepsLeft(c: Call, pc: Pc): nat {
    var pre, post := |c.script.preconditions|, |c.script.postconditions|;
    match pc
    case Received => pre + post + 19
    case Resolve => pre + post + 18
    case Validated => pre + post + 17
    case Evaluate => pre + post + 16
    case Approve => pre + post + 15
    case Gate => pre + post + 14
    case Claiming => pre + post + 13
    case Replaying => pre + post + 12
    case Pre(i) => (if i < pre then pre - i else 0) + post + 10
    case Start => post + 9
    case Invoke => post + 8
    case Post(i) => (if i < post then post - i else 0) + 4
    case Succeed => 3
    case Rejecting(_) => 2
    case Failing(_) => 2
    case Complete => 1
    case Done => 0
    case Crashed(_) => 0
  }
}
