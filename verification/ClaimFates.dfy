/** What becomes of an acquired claim: completed with its owner's own result, unless the result
    refused the tool's output, which leaves the key in progress for good. */
module ClaimFates {
  import opened Json
  import opened Contracts
  import opened Policies
  import opened AuditLedger
  import opened ExecutionResults
  import opened SchemaValidation
  import opened Pipeline
  import opened CallInvariant
  import opened ConcurrentRuntime
  import opened RuntimeSafety
  import opened Verdicts
  import opened SequentialCalls

  /** The call is bound to have its output refused, if its claim does not find another's: every
      gate on the way to the tool is open, and the tool answers with something loose that
      `json.dumps` accepts (a tuple, or a dictionary with a key that is not text, at any depth).
      All of this is settled before the call begins. */
  ghost predicate BoundToRefuse(c: Call, tool: ToolContract) {
    && OpenToTool(c, tool)
    && c.script.handler.Returns? && Serializable(c.script.handler.output) && HasLoose(c.script.handler.output)
  }

  lemma SpoilsMeans(c: Call)
    ensures Spoils(c) <==>
      c.script.handler.Returns? && Serializable(c.script.handler.output) && HasLoose(c.script.handler.output)
  {
    if c.script.handler.Returns? { JsonMeans(c.script.handler.output); }
  }

  lemma RefusedWasBound(first: Registry, now: Registry, c: Call, l: Local)
    requires VerdictOk(first, now, c, l) && AdmissionOk(now, c, l) && ClaimShape(c, l) && RaiseFacts(c, l)
    requires Refused(l.pc)
    ensures OwnAnswer(l) && Known(now, c, l) && BoundToRefuse(c, l.tool.value)
  {
    SpoilsMeans(c);
    FoldsMean(c, l.tool.value, Null, "", AsksApproval(l));
  }

  lemma BoundIsRefused(first: Registry, now: Registry, c: Call, l: Local)
    requires VerdictOk(first, now, c, l) && RaiseFacts(c, l) && Finished(l) && OwnAnswer(l)
    requires l.tool.Some? && BoundToRefuse(c, l.tool.value)
    ensures Refused(l.pc)
  {
    SpoilsMeans(c);
    if l.pc.Done? && l.ending.value.Failed? {
      var why := l.ending.value.why;
      if !why.AfterHandler() { GateCloses(first, now, c, l, why); }
    }
  }

  /** A call that finished got to know the tool that was registered before it began, unless its
      receipt could not be recorded. */
  lemma FoundTool(first: Registry, now: Registry, c: Call, l: Local)
    requires VerdictOk(first, now, c, l) && AdmissionOk(now, c, l) && RaiseFacts(c, l) && Finished(l)
    requires c.action.toolName in first && AppendOk(c, ActionReceived)
    ensures Known(now, c, l)
  {
  }

  /** From any point of any run, for a call that has not begun: it ends by raising over its
      tool's output exactly if it is bound to, by the tool it finds, and its claim, if it has a
      key, is its own. If its tool was registered before, that is the tool it finds. */
  lemma RefusedExactly(s: State, schedule: seq<Move>, t: Tid)
    requires Inv(s) && t in s.threads && s.threads[t].local == FRESH
    ensures var s' := Run(s, schedule);
      t in s'.threads
      && var c, l := s.threads[t].call, s'.threads[t].local;
      Finished(l) ==>
        && (Refused(l.pc) <==> OwnAnswer(l) && l.tool.Some? && BoundToRefuse(c, l.tool.value))
        && (c.action.toolName in s.shared.registry && OwnAnswer(l) ==>
              (Refused(l.pc) <==> BoundToRefuse(c, s.shared.registry[c.action.toolName])))
  {
    var s' := Run(s, schedule);
    RunInv(s, schedule);
    RunGrows(s, schedule);
    FreshCallTold(s, schedule, t);
    HowCallsRaise(s', t);
    OwnFacts(s', t);
    RefusedDecided(s.shared.registry, s'.shared.registry, s'.threads[t].call, s'.threads[t].local);
  }

  lemma RefusedDecided(first: Registry, now: Registry, c: Call, l: Local)
    requires VerdictOk(first, now, c, l) && AdmissionOk(now, c, l) && ClaimShape(c, l) && RaiseFacts(c, l)
    requires forall n | n in first :: n in now && now[n] == first[n]
    ensures Finished(l) ==>
      && (Refused(l.pc) <==> OwnAnswer(l) && l.tool.Some? && BoundToRefuse(c, l.tool.value))
      && (c.action.toolName in first && OwnAnswer(l) ==>
            (Refused(l.pc) <==> BoundToRefuse(c, first[c.action.toolName])))
  {
    if Finished(l) {
      if Refused(l.pc) {
        RefusedWasBound(first, now, c, l);
      } else if OwnAnswer(l) {
        if l.tool.Some? && BoundToRefuse(c, l.tool.value) { BoundIsRefused(first, now, c, l); }
        if c.action.toolName in first && BoundToRefuse(c, first[c.action.toolName]) {
          FoundTool(first, now, c, l);
          BoundIsRefused(first, now, c, l);
        }
      }
    }
  }

  /** A call made alone, under a tool registered before: it raises over its tool's output exactly
      if it is bound to and its key, if it has one, is free. */
  lemma RefusedAlone(s: State, t: Tid)
    requires Inv(s) && t in s.threads && s.threads[t].local == FRESH
    requires s.threads[t].call.action.toolName in s.shared.registry
    ensures var c, l := s.threads[t].call, AfterAlone(s, t).threads[t].local;
      Refused(l.pc)
      <==> (&& BoundToRefuse(c, s.shared.registry[c.action.toolName])
            && (c.action.idempotencyKey.Some? ==> c.action.idempotencyKey.value !in s.shared.records))
  {
    var n := StepsLeft(s.threads[t].call, FRESH.pc);
    AloneIsASchedule(s, t, n);
    RefusedExactly(s, Solo(t, n), t);
    AloneClaims(s, t);
    AloneInv(s, t);
    HowCallsRaise(AfterAlone(s, t), t);
  }

  lemma NothingInTheWay(c: Call, tool: ToolContract)
    requires c.script.appendFails == {} && c.script.policies == [] && c.script.preconditions == []
    requires Matches(c.action, tool) && c.action.arguments == [] && c.action.idempotencyKey.Some?
    requires tool.inputSchema == [] && !RiskAtLeast(tool.riskLevel, High)
    ensures OpenToTool(c, tool)
  {
    assert Get(tool.inputSchema, "type").None?;
    assert Conforms(Obj([]), []);
    assert Answers(c, tool) == [];
  }

  /** A call bound to have its output refused, made alone under a free key, leaves the key in
      progress. */
  lemma KeyIsLeft(s: State, t: Tid, k: string)
    requires Inv(s) && t in s.threads && s.threads[t].local == FRESH && k !in s.shared.records
    requires var c := s.threads[t].call;
      c.action.idempotencyKey == Some(k) && c.action.toolName in s.shared.registry
      && BoundToRefuse(c, s.shared.registry[c.action.toolName])
    ensures var s' := AfterAlone(s, t);
      && Refused(s'.threads[t].local.pc) && HoldsKey(s'.threads[t], k)
      && k in s'.shared.records && s'.shared.records[k].status.InProgress?
  {
    RefusedAlone(s, t);
    AloneInv(s, t);
    AloneClaims(s, t);
    HowCallsRaise(AfterAlone(s, t), t);
    FreeKeyIsKept(s, t, k);
  }

  lemma OnlyCall(c: Call, tool: ToolContract, k: string) returns (s0: State, schedule: seq<Move>)
    requires c.script.Plausible() && BoundToRefuse(c, tool) && c.action.idempotencyKey == Some(k)
    ensures Init(s0) && 0 in s0.threads && s0.threads[0].call == c
    ensures var s := Run(s0, schedule);
      && 0 in s.threads && Refused(s.threads[0].local.pc) && HoldsKey(s.threads[0], k)
      && k in s.shared.records && s.shared.records[k].status.InProgress?
  {
    s0 := State(Shared(map[c.action.toolName := tool], map[], [], [], []), map[0 := Thread(c, FRESH)]);
    var n := StepsLeft(c, FRESH.pc);
    schedule := Solo(0, n);
    InitInv(s0);
    AloneIsASchedule(s0, 0, n);
    KeyIsLeft(s0, 0, k);
  }

  /** It does happen: a tool without schemas, called under the key "k" with nothing in its way,
      answers with a tuple. The call raises and "k" is left in progress. */
  lemma RefusalHappens() returns (s0: State, schedule: seq<Move>)
    ensures Init(s0) && 0 in s0.threads && s0.threads[0].call.script.handler == Returns(Loose)
    ensures var s := Run(s0, schedule);
      && 0 in s.threads && Refused(s.threads[0].local.pc) && HoldsKey(s.threads[0], "k")
      && "k" in s.shared.records && s.shared.records["k"].status.InProgress?
  {
    var tool := ToolContract("contract", "tool", "1", Reversible, Low, [], [], true);
    var action := ActionIntent("intent", "contract", "tool", "1", [], Some("k"));
    var script := Script("execution", "transaction", 0, 0, [], [], Stamp("decision", 0), {}, Passed,
                         "token", 0, 0, [], Returns(Loose), []);
    NothingInTheWay(Call(action, script), tool);
    s0, schedule := OnlyCall(Call(action, script), tool, "k");
  }

  /** The fate of a claim whose owner has finished. */
  ghost predicate Settled(s: State, t: Tid, k: string)
    requires t in s.threads
  {
    var c, l := s.threads[t].call, s.threads[t].local;
    && HoldsKey(s.threads[t], k) && k in s.shared.records && c.action.toolName in s.shared.registry
    && if BoundToRefuse(c, s.shared.registry[c.action.toolName])
       then Refused(l.pc) && s.shared.records[k].status.InProgress?
       else
         && l.pc.Done? && l.ending.Some?
         && s.shared.records[k].status.Completed?
         && s.shared.records[k].result == Encode(ResultOf(c, l.ending.value))
         && s.shared.records[k].completedAt == Some(c.script.recordedAt)
         && s.shared.records[k].resultReference == Some(c.script.executionId)
  }

  lemma HolderSettled(s0: State, s: State, t: Tid, k: string)
    requires Inv(s) && t in s.threads && HoldsKey(s.threads[t], k) && Finished(s.threads[t].local)
    requires VerdictOk(s0.shared.registry, s.shared.registry, s.threads[t].call, s.threads[t].local)
    requires forall n | n in s0.shared.registry ::
      n in s.shared.registry && s.shared.registry[n] == s0.shared.registry[n]
    ensures Settled(s, t, k)
  {
    HowCallsRaise(s, t);
    OwnFacts(s, t);
    RefusedDecided(s0.shared.registry, s.shared.registry, s.threads[t].call, s.threads[t].local);
    HolderOwns(s, t, k);
  }

  /** From wherever a call has acquired its claim, once it has had its bounded number of turns
      under any schedule, the key's record is completed with the call's own result; it is left in
      progress exactly if the call was bound to have its output refused. */
  lemma ClaimsAreSettled(s0: State, schedule: seq<Move>, more: seq<Move>, t: Tid, k: string)
    requires Init(s0) && t in Run(s0, schedule).threads && HoldsKey(Run(s0, schedule).threads[t], k)
    requires var th := Run(s0, schedule).threads[t]; Turns(more, t) >= StepsLeft(th.call, th.local.pc)
    ensures var s' := Run(s0, schedule + more); t in s'.threads && Settled(s', t, k)
  {
    var s, s' := Run(s0, schedule), Run(s0, schedule + more);
    Reachable(s0, schedule);
    Reachable(s0, schedule + more);
    RunRuns(s0, schedule, more);
    RunGrows(s0, schedule + more);
    RunGrows(s0, schedule);
    TurnsFinish(s, more, t);
    RunKeepsClaim(s, more, t);
    EndsTold(s0, schedule + more, t);
    HolderSettled(s0, s', t, k);
  }

  // ---------- a key left in progress ----------

  lemma ObserverIsBusy(s: State, u: Tid, k: string)
    requires Inv(s) && u in s.threads && s.threads[u].call.action.idempotencyKey == Some(k)
    requires k in s.shared.records && s.shared.records[k].status.InProgress?
    ensures var l := s.threads[u].local;
      l.pc.Done? && l.claim.Some? ==> l.ending == Some(Failed(KeyInProgress, Null))
  {
    ClaimFacts(s, u);
    if Holds(s.threads[u].local) && s.threads[u].local.pc.Done? { HolderOwns(s, u, k); }
  }

  /** Once a call raised over its tool's output, its key stays in progress in every later state:
      no other call ever runs the tool under it, and every other call that gets to the claim and
      returns is told that the key is in progress. */
  lemma RefusedKeyIsBlocked(s0: State, schedule: seq<Move>, more: seq<Move>, t: Tid, u: Tid, k: string)
    requires Init(s0) && t in Run(s0, schedule).threads && HoldsKey(Run(s0, schedule).threads[t], k)
    requires Refused(Run(s0, schedule).threads[t].local.pc)
    ensures var s' := Run(s0, schedule + more);
      && k in s'.shared.records && s'.shared.records[k].status.InProgress?
      && (forall i | 0 <= i < |s'.shared.calls| && s'.shared.calls[i].key == Some(k) :: s'.shared.calls[i].caller == t)
      && (u in s'.threads && s'.threads[u].call.action.idempotencyKey == Some(k)
          && s'.threads[u].local.pc.Done? && s'.threads[u].local.claim.Some? ==>
            s'.threads[u].local.ending == Some(Failed(KeyInProgress, Null)))
  {
    var s, s' := Run(s0, schedule), Run(s0, schedule + more);
    Reachable(s0, schedule + more);
    RunRuns(s0, schedule, more);
    RunGrows(s, more);
    HolderOwns(s', t, k);
    forall i | 0 <= i < |s'.shared.calls| && s'.shared.calls[i].key == Some(k) ensures s'.shared.calls[i].caller == t {
      KeyedCallsHold(s', i);
    }
    if u in s'.threads && s'.threads[u].call.action.idempotencyKey == Some(k) { ObserverIsBusy(s', u, k); }
  }
}
