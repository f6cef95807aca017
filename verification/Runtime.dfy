/** The sequential runtime: one call, run from its first gate to its result. */
module Runtime {
  import opened Json
  import opened Contracts
  import opened Policies
  import opened AuditLedger
  import opened Idempotency
  import opened ExecutionResults
  import opened SchemaValidation
  import opened Pipeline
  import opened RuntimeSafety

  /** A call that takes all its turns with no other call in between. */
  function RunAlone(sh: Shared, c: Call, l: Local, tid: Tid): (Shared, Local)
    decreases StepsLeft(c, l.pc)
  {
    if Finished(l) then (sh, l)
    else
      TurnAdvances(sh, c, l, tid);
      var (sh', n) := Advance(sh, c, l, tid);
      RunAlone(sh', c, n, tid)
  }

  /** What the caller of `execute` gets; `None` when it raises. */
  function Returned(c: Call, l: Local): Option<ExecutionResult> {
    if l.pc.Done? && l.ending.Some? then Some(ResultOf(c, l.ending.value)) else None
  }

  /** From here, the call run alone ends in this shared state with this answer. (Stated for
      every start equal to this one, so that the verifier does not unfold the run.) */
  ghost predicate Outcome(sh: Shared, c: Call, l: Local, tid: Tid, sh': Shared, result: Option<ExecutionResult>) {
    forall x {:trigger RunAlone(x, c, l, tid)} | x == sh ::
      RunAlone(x, c, l, tid).0 == sh' && result == Returned(c, RunAlone(x, c, l, tid).1)
  }

  lemma Step(sh: Shared, c: Call, l: Local, tid: Tid, sh': Shared, n: Local, end: Shared,
             result: Option<ExecutionResult>)
    requires !Finished(l) && Advance(sh, c, l, tid) == (sh', n)
    ensures Outcome(sh, c, l, tid, end, result) <==> Outcome(sh', c, n, tid, end, result)
  {
    assert RunAlone(sh, c, l, tid) == RunAlone(sh', c, n, tid);
  }

  /** The step that ends the call. */
  lemma Last(sh: Shared, c: Call, l: Local, tid: Tid, sh': Shared, n: Local)
    requires !Finished(l) && Advance(sh, c, l, tid) == (sh', n) && Finished(n)
    ensures Outcome(sh, c, l, tid, sh', Returned(c, n))
  {
    assert RunAlone(sh, c, l, tid) == RunAlone(sh', c, n, tid) == (sh', n);
  }

  lemma Over(sh: Shared, c: Call, l: Local, tid: Tid)
    requires Finished(l)
    ensures Outcome(sh, c, l, tid, sh, Returned(c, l))
  {
    assert RunAlone(sh, c, l, tid) == (sh, l);
  }

  /** One turn of the loop over postconditions. */
  lemma PostStep(sh: Shared, c: Call, l: Local, tid: Tid, i: nat)
    ensures var checks := c.script.postconditions;
      RunAlone(sh, c, l.(pc := Post(i)), tid)
      == RunAlone(sh, c, l.(pc := if i >= |checks| then Succeed
                                  else if checks[i].Passed? then Post(i + 1)
                                  else Failing(PostconditionNotMet)), tid)
  {
  }

  /** One turn of the loop over preconditions. */
  lemma PreStep(sh: Shared, c: Call, l: Local, tid: Tid, i: nat)
    ensures var checks := c.script.preconditions;
      RunAlone(sh, c, l.(pc := Pre(i)), tid)
      == RunAlone(sh, c, l.(pc := if i >= |checks| then Start
                                  else if checks[i].Passed? then Pre(i + 1)
                                  else Failing(PreconditionNotMet)), tid)
  {
  }

  lemma CompletesBy(registry: map<string, ToolContract>, c: Call, l: Local)
    requires l.pc.Complete? && l.ending.Some?
    ensures Next(registry, c, l)
         == if l.claim.Some? then CompleteClaim(l.claim.value, ResultOf(c, l.ending.value)) else Think(l.(pc := Done))
    ensures Returned(c, l.(pc := Done)) == Some(ResultOf(c, l.ending.value))
  {
  }

  /** What completing a claim leaves and answers. */
  lemma CompletesWith(sh: Shared, c: Call, l: Local, tid: Tid, claim: Claim, result: ExecutionResult)
    requires l.pc.Complete? && Next(sh.registry, c, l) == CompleteClaim(claim, result)
    requires Returned(c, l.(pc := Done)) == Some(result)
    ensures var key, token, v := claim.record.key, claim.record.ownerToken, Encode(result);
      var done := Completion(sh.records, key, token, result.executionId, v, c.script.recordedAt);
      Outcome(sh, c, l, tid,
              sh.(records := AfterCompletion(sh.records, key, token, result.executionId, v, c.script.recordedAt)),
              if done.Ok? then Some(result) else None)
  {
    var (sh', n) := Perform(sh, c, l, tid, CompleteClaim(claim, result));
    Last(sh, c, l, tid, sh', n);
  }

  /** The append that ends a call without a claim. */
  lemma RejectsWith(registry: map<string, ToolContract>, c: Call, l: Local, why: Why)
    requires l.pc == Rejecting(why) && Loggable(why)
    ensures var n := End(c, l, Failed(why, l.output));
      Next(registry, c, l) == Append(FailureEvent(why), FailureDetails(c, l.decision, why), n, n)
  {
  }

  /** `_failure`; `None` when building the result raises. */
  function Fail(c: Call, why: Why, output: Value): Option<ExecutionResult> {
    if Timely(c) then Some(Failure(c, why, output)) else None
  }

  lemma EndReturns(c: Call, l: Local, why: Why, output: Value, n: Local)
    requires var end := End(c, l, Failed(why, output)); n.pc == end.pc && n.ending == end.ending
    ensures Returned(c, n) == Fail(c, why, output) && Finished(n)
  {
  }

  /** A call about to start its tool records that first; if it cannot, it fails. */
  lemma StartsWith(registry: map<string, ToolContract>, c: Call, l: Local)
    requires l.pc.Start?
    ensures var unstarted := l.(pc := Complete, ending := Some(Failed(LedgerBeforeExecution, Null)));
      var lost := if Timely(c) then unstarted else l.(pc := Crashed(InvalidResult));
      Next(registry, c, l) == Append(ExecutionStarted, NoDetails, l.(pc := Invoke), lost)
  {
  }

  /** A failing call whose result refuses the tool's output, or cannot be built, raises. */
  lemma FailureRaises(sh: Shared, c: Call, l: Local, tid: Tid, why: Why)
    requires l.pc == Failing(why) && Loggable(why) && why.AfterHandler() && BuildFault(c, Failed(why, l.output)).Some?
    ensures Outcome(sh, c, l, tid, sh, None)
  {
    Last(sh, c, l, tid, sh, l.(pc := Crashed(BuildFault(c, Failed(why, l.output)).value)));
  }

  /** Any other call that may hold a claim logs its failure. */
  lemma FailureLogs(registry: map<string, ToolContract>, c: Call, l: Local, why: Why)
    requires l.pc == Failing(why) && Loggable(why) && !why.NotApproved?
    requires why.AfterHandler() ==> BuildFault(c, Failed(why, l.output)).None?
    ensures var n := Finish(c, l, Failed(why, l.output));
      Next(registry, c, l) == Append(FailureEvent(why), FailureDetails(c, None, why), n, n)
  {
  }

  /** How the failure goes on once it is logged, or could not be. */
  lemma LoggedFailure(c: Call, l: Local, why: Why, n: Local)
    requires var end := Finish(c, l, Failed(why, l.output));
      n.pc == end.pc && n.ending == end.ending && n.claim == end.claim
    ensures n.claim == l.claim
    ensures if BuildFault(c, Failed(why, l.output)).Some? then Finished(n) && Returned(c, n).None?
            else n.pc.Complete? && n.ending.Some? && Failure(c, why, l.output) == ResultOf(c, n.ending.value)
  {
  }

  /** What a call whose checks all passed does next. */
  lemma SucceedsWith(registry: map<string, ToolContract>, c: Call, l: Local)
    requires l.pc.Succeed?
    ensures var fault := if Serializable(l.output) then BuildFault(c, Succeeded(l.output)) else Some(OutputNotJson);
      Next(registry, c, l)
      == if fault.Some? then Think(l.(pc := Crashed(fault.value)))
         else
           var n := l.(pc := Complete, ending := Some(Succeeded(l.output)));
           Append(ExecutionSucceeded, NoDetails, n, n)
  {
  }

  /** What a call that finds its key claimed answers. */
  function ReplayAnswer(c: Call, claim: Claim): Option<ExecutionResult> {
    if claim.record.status.Completed? && !claim.record.result.Null? then Replay(claim.record.result)
    else Fail(c, KeyInProgress, Null)
  }

  /** The append that ends such a call. */
  lemma ReplaysWith(registry: map<string, ToolContract>, c: Call, l: Local, claim: Claim,
                    answer: Option<ExecutionResult>)
    requires l.pc.Replaying? && l.claim == Some(claim) && answer == ReplayAnswer(c, claim)
    ensures var act := Next(registry, c, l);
      && act.Append? && act.kind == IdempotencyReplayed && act.details == OfReplay(claim.record.status.Completed?)
      && act.stored == act.lost && Finished(act.stored) && Returned(c, act.stored) == answer
  {
    if claim.record.status.Completed? && !claim.record.result.Null? {
      ReplayedReturns(c, l, Replay(claim.record.result));
      assert Next(registry, c, l) == ReplayedAct(l, Replay(claim.record.result));
    } else {
      EndReturns(c, l, KeyInProgress, Null, End(c, l, Failed(KeyInProgress, Null)));
    }
  }

  lemma ReplayedReturns(c: Call, l: Local, answer: Option<ExecutionResult>)
    ensures var act := ReplayedAct(l, answer);
      && act.Append? && act.kind == IdempotencyReplayed && act.details == OfReplay(true)
      && act.stored == act.lost && Finished(act.stored) && Returned(c, act.stored) == answer
  {
  }

  /** The append that opens every call. */
  lemma OpensWith(registry: map<string, ToolContract>, c: Call)
    ensures Next(registry, c, FRESH)
         == Append(ActionReceived, OfTool(c.action.toolName), FRESH.(pc := Resolve),
                   End(c, FRESH, Failed(LedgerBeforeResolution, Null)))
  {
  }

  lemma GateStep(sh: Shared, c: Call, l: Local, tid: Tid)
    requires l.pc.Approve? && c.script.approval.Passed?
    ensures RunAlone(sh, c, l, tid) == RunAlone(sh, c, l.(pc := Gate), tid)
  {
  }

  class SingleActionRuntime {
    const registry: ToolRegistry
    const engine: PolicyEngine
    const backend: InMemoryIdempotencyBackend
    const ledger: InMemoryLedger
    ghost var authors: seq<Tid>
    ghost var calls: seq<HandlerCall>

    ghost function State(): Shared
      reads this, registry, backend, ledger
    {
      Shared(registry.tools, backend.records, ledger.events, authors, calls)
    }

    constructor (r: ToolRegistry, e: PolicyEngine, b: InMemoryIdempotencyBackend, l: InMemoryLedger,
                 ghost past: seq<Tid>, ghost made: seq<HandlerCall>)
      ensures registry == r && engine == e && backend == b && ledger == l
      ensures State() == Shared(r.tools, b.records, l.events, past, made)
    {
      registry, engine, backend, ledger := r, e, b, l;
      authors, calls := past, made;
    }

    /** Appends one event; a ledger failure is swallowed and reported. */
    method AppendEvent(c: Call, kind: EventKind, details: Details, ghost l: Local, ghost tid: Tid)
      returns (ok: bool, ghost n: Local)
      requires !Finished(l)
      requires var act := Next(registry.tools, c, l); act.Append? && act.kind == kind && act.details == details
      modifies this`authors, ledger
      ensures ok == AppendOk(c, kind)
      ensures n == var act := Next(registry.tools, c, l);
        if ok then WithEvent(act.stored, kind, |old(ledger.events)|) else WithoutEvent(act.lost, kind)
      ensures Advance(old(State()), c, l, tid) == (State(), n)
    {
      ghost var act := Next(registry.tools, c, l);
      ok := kind !in c.script.appendFails;
      if ok {
        n := WithEvent(act.stored, kind, |ledger.events|);
        var _ := ledger.Append(EntryOf(c, kind, details));
        authors := authors + [tid];
      } else {
        n := WithoutEvent(act.lost, kind);
      }
    }

    /** Completes the claim, if there is one, with the result and returns it. */
    method CompleteAndReturn(c: Call, claim: Option<Claim>, result: ExecutionResult, ghost l: Local, ghost tid: Tid)
      returns (r: Option<ExecutionResult>)
      requires l.pc.Complete? && l.claim == claim && l.ending.Some? && result == ResultOf(c, l.ending.value)
      modifies backend
      ensures Outcome(old(State()), c, l, tid, State(), r)
    {
      ghost var before := State();
      CompletesBy(registry.tools, c, l);
      r := Some(result);
      if claim.None? {
        Last(before, c, l, tid, before, l.(pc := Done));
      } else {
        CompletesWith(before, c, l, tid, claim.value, result);
        var record := claim.value.record;
        var completed := backend.MarkCompleted(record.key, record.ownerToken, result.executionId, Encode(result),
                                               c.script.recordedAt);
        if completed.Err? { r := None; }
      }
    }

    /** Fails a call that may hold a claim. After the tool ran, the result is built first, and
        may refuse the tool's output. */
    method FailAfterClaim(c: Call, claim: Option<Claim>, why: Why, output: Value, ghost l: Local, ghost tid: Tid)
      returns (r: Option<ExecutionResult>)
      requires l.pc == Failing(why) && l.claim == claim && l.output == output && Loggable(why) && !why.NotApproved?
      modifies this`authors, ledger, backend
      ensures Outcome(old(State()), c, l, tid, State(), r)
    {
      ghost var before := State();
      var fault := BuildFault(c, Failed(why, output));
      if why.AfterHandler() && fault.Some? {
        FailureRaises(before, c, l, tid, why);
        return None;
      }
      FailureLogs(registry.tools, c, l, why);
      var _, n := AppendEvent(c, FailureEvent(why), FailureDetails(c, None, why), l, tid);
      ghost var logged := State();
      LoggedFailure(c, l, why, n);
      if fault.Some? {
        Last(before, c, l, tid, logged, n);
        return None;
      }
      r := CompleteAndReturn(c, claim, Failure(c, why, output), n, tid);
      Step(before, c, l, tid, logged, n, State(), r);
    }

    /** Calls the tool, validates its output and checks the postconditions. */
    method CallHandler(c: Call, tool: ToolContract, claim: Option<Claim>, ghost l: Local, ghost tid: Tid)
      returns (r: Option<ExecutionResult>)
      requires l.pc.Invoke? && l.tool == Some(tool) && l.claim == claim && l.output.Null?
      modifies this, ledger, backend
      ensures Outcome(old(State()), c, l, tid, State(), r)
    {
      ghost var before := State();
      ghost var n := Advance(before, c, l, tid).1;
      calls := calls + [HandlerCall(tid, c.action.idempotencyKey, |ledger.events|)];
      ghost var called := State();
      assert Advance(before, c, l, tid) == (called, n);
      match c.script.handler {
        case Raises =>
          r := FailAfterClaim(c, claim, HandlerRaised, Null, n, tid);
        case Returns(output) =>
          var error := SchemaError(output, tool.outputSchema);
          if error.Some? {
            r := FailAfterClaim(c, claim, BadOutput(error.value), output, n, tid);
          } else {
            r := CheckOutcome(c, claim, output, n, tid);
          }
      }
      Step(before, c, l, tid, called, n, State(), r);
    }

    /** Checks the postconditions, stopping at the first that is not met. */
    method CheckOutcome(c: Call, claim: Option<Claim>, output: Value, ghost l: Local, ghost tid: Tid)
      returns (r: Option<ExecutionResult>)
      requires l.pc == Post(0) && l.claim == claim && l.output == output
      modifies this`authors, ledger, backend
      ensures Outcome(old(State()), c, l, tid, State(), r)
    {
      ghost var before := State();
      var checks := c.script.postconditions;
      for i := 0 to |checks|
        invariant State() == before
        invariant RunAlone(before, c, l, tid) == RunAlone(before, c, l.(pc := Post(i)), tid)
      {
        PostStep(before, c, l, tid, i);
        if !checks[i].Passed? {
          r := FailAfterClaim(c, claim, PostconditionNotMet, output, l.(pc := Failing(PostconditionNotMet)), tid);
          return;
        }
      }
      PostStep(before, c, l, tid, |checks|);
      r := Succeeding(c, claim, output, l.(pc := Succeed), tid);
    }

    /** Builds the result, which may refuse the tool's output, and records the success. */
    method Succeeding(c: Call, claim: Option<Claim>, output: Value, ghost l: Local, ghost tid: Tid)
      returns (r: Option<ExecutionResult>)
      requires l.pc.Succeed? && l.claim == claim && l.output == output
      modifies this`authors, ledger, backend
      ensures Outcome(old(State()), c, l, tid, State(), r)
    {
      ghost var before := State();
      var fault := if Serializable(output) then BuildFault(c, Succeeded(output)) else Some(OutputNotJson);
      SucceedsWith(registry.tools, c, l);
      if fault.Some? {
        Last(before, c, l, tid, before, l.(pc := Crashed(fault.value)));
        return None;
      }
      var _, n := AppendEvent(c, ExecutionSucceeded, NoDetails, l, tid);
      ghost var logged := State();
      r := CompleteAndReturn(c, claim, Success(c, output), n, tid);
      Step(before, c, l, tid, logged, n, State(), r);
    }

    /** Checks the preconditions and records the start before the tool is called. */
    method RunChecked(c: Call, tool: ToolContract, claim: Option<Claim>, ghost l: Local, ghost tid: Tid)
      returns (r: Option<ExecutionResult>)
      requires l.pc == Pre(0) && l.tool == Some(tool) && l.claim == claim && l.output.Null?
      modifies this, ledger, backend
      ensures Outcome(old(State()), c, l, tid, State(), r)
    {
      ghost var before := State();
      var checks := c.script.preconditions;
      for i := 0 to |checks|
        invariant State() == before
        invariant RunAlone(before, c, l, tid) == RunAlone(before, c, l.(pc := Pre(i)), tid)
      {
        PreStep(before, c, l, tid, i);
        if !checks[i].Passed? {
          r := FailAfterClaim(c, claim, PreconditionNotMet, Null, l.(pc := Failing(PreconditionNotMet)), tid);
          return;
        }
      }
      PreStep(before, c, l, tid, |checks|);
      r := StartHandler(c, tool, claim, l.(pc := Start), tid);
    }

    /** Without its start on record the tool is not called. */
    method StartHandler(c: Call, tool: ToolContract, claim: Option<Claim>, ghost l: Local, ghost tid: Tid)
      returns (r: Option<ExecutionResult>)
      requires l.pc.Start? && l.tool == Some(tool) && l.claim == claim && l.output.Null?
      modifies this, ledger, backend
      ensures Outcome(old(State()), c, l, tid, State(), r)
    {
      ghost var before := State();
      StartsWith(registry.tools, c, l);
      var started, n := AppendEvent(c, ExecutionStarted, NoDetails, l, tid);
      ghost var logged := State();
      if started {
        r := CallHandler(c, tool, claim, n, tid);
      } else if Timely(c) {
        r := CompleteAndReturn(c, claim, Failure(c, LedgerBeforeExecution, Null), n, tid);
      } else {
        Over(logged, c, n, tid);
        r := None;
      }
      Step(before, c, l, tid, logged, n, State(), r);
    }

    /** Claims the key, if the request carries one, or replays what was stored under it. */
    method ClaimAndRun(c: Call, tool: ToolContract, ghost l: Local, ghost tid: Tid) returns (r: Option<ExecutionResult>)
      requires l.pc.Claiming? && l.tool == Some(tool) && l.claim.None? && l.output.Null?
      modifies this, ledger, backend
      ensures Outcome(old(State()), c, l, tid, State(), r)
    {
      ghost var before := State();
      ghost var n := Advance(before, c, l, tid).1;
      match c.action.idempotencyKey {
        case None =>
          r := RunChecked(c, tool, None, n, tid);
          Step(before, c, l, tid, before, n, State(), r);
        case Some(key) =>
          var claim := backend.ClaimKey(key, c.script.token, c.script.claimedAt);
          ghost var claimed := State();
          assert Advance(before, c, l, tid) == (claimed, n);
          if claim.acquired {
            r := RunChecked(c, tool, Some(claim), n, tid);
          } else {
            r := ReplayClaim(c, claim, n, tid);
          }
          Step(before, c, l, tid, claimed, n, State(), r);
      }
    }

    /** Answers from the record another call claimed. */
    method ReplayClaim(c: Call, claim: Claim, ghost l: Local, ghost tid: Tid) returns (r: Option<ExecutionResult>)
      requires l.pc.Replaying? && l.claim == Some(claim)
      modifies this`authors, ledger
      ensures Outcome(old(State()), c, l, tid, State(), r)
    {
      ghost var before, answer := State(), ReplayAnswer(c, claim);
      ReplaysWith(registry.tools, c, l, claim, answer);
      var _, n := AppendEvent(c, IdempotencyReplayed, OfReplay(claim.record.status.Completed?), l, tid);
      if claim.record.status.Completed? && !claim.record.result.Null? {
        r := Replay(claim.record.result);
      } else {
        r := Fail(c, KeyInProgress, Null);
      }
      assert r == answer && Returned(c, n) == answer;
      Last(before, c, l, tid, State(), n);
    }

    /** Fails a call that holds no claim. */
    method Reject(c: Call, decision: Option<PolicyDecision>, why: Why, ghost l: Local, ghost tid: Tid)
      returns (r: Option<ExecutionResult>)
      requires l.pc == Rejecting(why) && l.decision == decision && Loggable(why) && l.output.Null?
      modifies this`authors, ledger
      ensures Outcome(old(State()), c, l, tid, State(), r)
    {
      ghost var before := State();
      RejectsWith(registry.tools, c, l, why);
      var _, n := AppendEvent(c, FailureEvent(why), FailureDetails(c, decision, why), l, tid);
      r := Fail(c, why, Null);
      EndReturns(c, l, why, Null, n);
      Last(before, c, l, tid, State(), n);
    }

    /** Approval, the key requirement, and on to the claim. */
    method Gated(c: Call, tool: ToolContract, decision: PolicyDecision, ghost l: Local, ghost tid: Tid)
      returns (r: Option<ExecutionResult>)
      requires l.pc == if decision.decisionType.RequireApproval? then Approve else Gate
      requires l.tool == Some(tool) && l.decision == Some(decision) && l.claim.None? && l.output.Null?
      modifies this, ledger, backend
      ensures Outcome(old(State()), c, l, tid, State(), r)
    {
      ghost var before := State();
      ghost var gate := l.(pc := Gate);
      if decision.decisionType.RequireApproval? {
        if !c.script.approval.Passed? {
          ghost var n := l.(pc := Rejecting(NotApproved));
          r := Reject(c, Some(decision), NotApproved, n, tid);
          Step(before, c, l, tid, before, n, State(), r);
          return;
        }
        GateStep(before, c, l, tid);
      }
      ghost var n := Advance(before, c, gate, tid).1;
      if tool.idempotencyKeyRequired && c.action.idempotencyKey.None? {
        r := Reject(c, Some(decision), NoKey, n, tid);
      } else if c.action.idempotencyKey.Some? {
        r := ClaimAndRun(c, tool, n, tid);
      } else {
        r := RunChecked(c, tool, None, n, tid);
      }
      Step(before, c, gate, tid, before, n, State(), r);
    }

    /** Records the validated contract, asks the policies, and acts on their decision. */
    method Judge(c: Call, tool: ToolContract, ghost l: Local, ghost tid: Tid) returns (r: Option<ExecutionResult>)
      requires l.pc.Validated? && l.tool == Some(tool) && l.claim.None? && l.output.Null?
      requires c.script.policies == engine.policies
      modifies this, ledger, backend
      ensures Outcome(old(State()), c, l, tid, State(), r)
    {
      ghost var before := State();
      var _, asking := AppendEvent(c, ContractValidated, OfContract(tool.contractId), l, tid);
      ghost var validated := State();
      var decision := engine.Run(c.action, Some(tool), c.script.context, c.script.stamp);
      r := Decide(c, tool, decision, asking, tid);
      Step(before, c, l, tid, validated, asking, State(), r);
    }

    method Decide(c: Call, tool: ToolContract, decision: Option<PolicyDecision>, ghost l: Local, ghost tid: Tid)
      returns (r: Option<ExecutionResult>)
      requires l.pc.Evaluate? && l.tool == Some(tool) && l.claim.None? && l.output.Null?
      requires decision == Policies.Evaluate(c.action, Some(tool), c.script.policies, c.script.context, c.script.stamp)
      modifies this, ledger, backend
      ensures Outcome(old(State()), c, l, tid, State(), r)
    {
      ghost var before := State();
      if decision.None? {
        ghost var n := Advance(before, c, l, tid).1;
        Over(before, c, n, tid);
        Step(before, c, l, tid, before, n, before, None);
        return None;
      }
      var d := decision.value;
      var _, n := AppendEvent(c, PolicyEvaluated, OfDecision(d.decisionType, d.riskLevel), l, tid);
      ghost var decided := State();
      if d.decisionType.Deny? {
        r := Fail(c, Denied(d.reason), Null);
        EndReturns(c, l.(decision := Some(d)), Denied(d.reason), Null, n);
        Over(decided, c, n, tid);
      } else {
        r := Gated(c, tool, d, n, tid);
      }
      Step(before, c, l, tid, decided, n, State(), r);
    }

    /** Looks up the tool, matches the contract and validates the arguments. */
    method ResolveTool(c: Call, ghost l: Local, ghost tid: Tid) returns (r: Option<ExecutionResult>)
      requires l.pc.Resolve? && l.claim.None? && l.decision.None? && l.output.Null?
      requires c.script.policies == engine.policies
      modifies this, ledger, backend
      ensures Outcome(old(State()), c, l, tid, State(), r)
    {
      ghost var before := State();
      ghost var n := Advance(before, c, l, tid).1;
      if c.action.toolName !in registry.tools {
        r := Reject(c, None, NotRegistered, n, tid);
        Step(before, c, l, tid, before, n, State(), r);
        return;
      }
      var tool := registry.tools[c.action.toolName];
      var inputError := SchemaError(Obj(c.action.arguments), tool.inputSchema);
      if !Matches(c.action, tool) {
        r := Reject(c, None, Mismatched, n, tid);
      } else if inputError.Some? {
        r := Reject(c, None, BadInput(inputError.value), n, tid);
      } else {
        r := Judge(c, tool, n, tid);
      }
      Step(before, c, l, tid, before, n, State(), r);
    }

    /** `execute`: the shared state and the answer are those of the step system's own run of
        this call, with no other call in between. */
    method Execute(c: Call, ghost tid: Tid) returns (r: Option<ExecutionResult>)
      requires c.script.policies == engine.policies
      modifies this, ledger, backend
      ensures Outcome(old(State()), c, FRESH, tid, State(), r)
    {
      ghost var before := State();
      OpensWith(registry.tools, c);
      var received, n := AppendEvent(c, ActionReceived, OfTool(c.action.toolName), FRESH, tid);
      ghost var logged := State();
      if received {
        r := ResolveTool(c, n, tid);
        Step(before, c, FRESH, tid, logged, n, State(), r);
      } else {
        r := Fail(c, LedgerBeforeResolution, Null);
        EndReturns(c, FRESH, LedgerBeforeResolution, Null, n);
        Last(before, c, FRESH, tid, logged, n);
      }
    }
  }
}
