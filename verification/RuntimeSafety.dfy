/** What no interleaving of calls can break, from any start and for any number of calls. */
module RuntimeSafety {
  import opened Json
  import opened Contracts
  import opened Policies
  import opened PolicyComposition
  import opened Idempotency
  import opened ExecutionResults
  import opened SchemaValidation
  import opened Pipeline
  import opened CallInvariant
  import opened ConcurrentRuntime

  lemma Reachable(s0: State, schedule: seq<Move>)
    requires Init(s0)
    ensures Inv(Run(s0, schedule))
  {
    InitInv(s0);
    RunInv(s0, schedule);
  }

  // ---------- the handler runs at most once ----------

  lemma KeyedCallsHold(s: State, i: nat)
    requires Inv(s) && i < |s.shared.calls| && s.shared.calls[i].key.Some?
    ensures s.shared.calls[i].caller in s.threads
    ensures HoldsKey(s.threads[s.shared.calls[i].caller], s.shared.calls[i].key.value)
  {
    var h := s.shared.calls[i];
    assert CallEntryOk(s, h);
    ClaimFacts(s, h.caller);
  }

  /** No call runs its handler twice, and no two calls with one key both run theirs. */
  lemma HandlerAtMostOnce(s0: State, schedule: seq<Move>)
    requires Init(s0)
    ensures var calls := Run(s0, schedule).shared.calls;
      forall i, j | 0 <= i < j < |calls| ::
        calls[i].caller != calls[j].caller && (calls[i].key.Some? ==> calls[i].key != calls[j].key)
  {
    Reachable(s0, schedule);
    var s := Run(s0, schedule);
    var calls := s.shared.calls;
    forall i, j | 0 <= i < j < |calls|
      ensures calls[i].caller != calls[j].caller && (calls[i].key.Some? ==> calls[i].key != calls[j].key)
    {
      if calls[i].key.Some? && calls[i].key == calls[j].key {
        KeyedCallsHold(s, i);
        KeyedCallsHold(s, j);
      }
    }
  }

  // ---------- ownership ----------

  /** The call that claimed a record: between claim and completion while it is in progress
      (a call that raised there stays there), and returned with the stored result once it is
      completed. */
  ghost predicate Owns(th: Thread, k: string, r: Record) {
    && HoldsKey(th, k) && th.call.action.idempotencyKey == Some(k)
    && r.ownerToken == th.call.script.token && r.claimedAt == th.call.script.claimedAt
    && (r.status.InProgress? ==> InClaim(th.local.pc))
    && (r.status.Completed? ==>
          && th.local.pc.Done? && th.local.ending.Some? && r.result == Encode(ResultOf(th.call, th.local.ending.value))
          && r.completedAt == Some(th.call.script.recordedAt)
          && r.resultReference == Some(th.call.script.executionId))
  }

  lemma HolderOwns(s: State, t: Tid, k: string)
    requires Inv(s) && t in s.threads && HoldsKey(s.threads[t], k)
    ensures k in s.shared.records && Owns(s.threads[t], k, s.shared.records[k])
  {
    var th := s.threads[t];
    ClaimFacts(s, t);
    OwnFacts(s, t);
    if th.local.pc.Done? {
      assert s.shared.records[k].result == Encode(ResultOf(th.call, th.local.ending.value));
    }
  }

  /** Every record has exactly one owner, no call holds a key without a record, and the record
      a returned owner leaves holds its own result. */
  lemma OneOwner(s0: State, schedule: seq<Move>, k: string)
    requires Init(s0)
    ensures var s := Run(s0, schedule);
      && (k in s.shared.records ==> exists t :: t in s.threads && Owns(s.threads[t], k, s.shared.records[k]))
      && (forall t | t in s.threads && HoldsKey(s.threads[t], k) ::
            k in s.shared.records && Owns(s.threads[t], k, s.shared.records[k]))
      && (forall t, u | t in s.threads && u in s.threads && HoldsKey(s.threads[t], k) && HoldsKey(s.threads[u], k) ::
            t == u)
  {
    Reachable(s0, schedule);
    var s := Run(s0, schedule);
    forall t | t in s.threads && HoldsKey(s.threads[t], k)
      ensures k in s.shared.records && Owns(s.threads[t], k, s.shared.records[k])
    {
      HolderOwns(s, t, k);
    }
    if k in s.shared.records {
      var t :| t in s.threads && HoldsKey(s.threads[t], k);
      assert Owns(s.threads[t], k, s.shared.records[k]);
    }
  }

  // ---------- shared state only grows ----------

  /** What a later shared state keeps of an earlier one. */
  predicate Grows(a: Shared, b: Shared) {
    && a.ledger <= b.ledger && a.authors <= b.authors && a.calls <= b.calls
    && (forall n | n in a.registry :: n in b.registry && b.registry[n] == a.registry[n])
    && (forall k | k in a.records ::
          k in b.records && (a.records[k].status.Completed? ==> b.records[k] == a.records[k]))
  }

  lemma PerformGrows(sh: Shared, c: Call, l: Local, t: Tid, act: Act)
    ensures Grows(sh, Perform(sh, c, l, t, act).0)
  {
  }

  lemma FinishedStays(sh: Shared, c: Call, l: Local, t: Tid)
    requires Finished(l)
    ensures Advance(sh, c, l, t) == (sh, l)
  {
  }

  /** Threads come and go nowhere, keep their call, and stop once finished. */
  predicate SameThreads(s: State, s': State) {
    && s'.threads.Keys == s.threads.Keys
    && forall t | t in s.threads ::
         s'.threads[t].call == s.threads[t].call && (Finished(s.threads[t].local) ==> s'.threads[t] == s.threads[t])
  }

  lemma DoGrows(s: State, m: Move)
    ensures Grows(s.shared, Do(s, m).shared) && SameThreads(s, Do(s, m))
  {
    if m.Turn? && m.tid in s.threads {
      var c, l := s.threads[m.tid].call, s.threads[m.tid].local;
      PerformGrows(s.shared, c, l, m.tid, Next(s.shared.registry, c, l));
      if Finished(l) { FinishedStays(s.shared, c, l, m.tid); }
    }
  }

  /** Over every run the ledger and the list of handler calls are only appended to, tools stay
      as registered, completed records are frozen, and finished calls stay finished. */
  lemma {:induction false} RunGrows(s: State, schedule: seq<Move>)
    ensures Grows(s.shared, Run(s, schedule).shared) && SameThreads(s, Run(s, schedule))
    decreases |schedule|
  {
    if schedule != [] {
      var s1 := Do(s, schedule[0]);
      DoGrows(s, schedule[0]);
      RunGrows(s1, schedule[1..]);
    }
  }

  lemma {:induction false} RunRuns(s: State, first: seq<Move>, rest: seq<Move>)
    ensures Run(s, first + rest) == Run(Run(s, first), rest)
    decreases |first|
  {
    if first == [] {
      assert first + rest == rest;
    } else {
      assert (first + rest)[1..] == first[1..] + rest;
      RunRuns(Do(s, first[0]), first[1..], rest);
    }
  }

  /** Once a key's record is completed the record never changes, and the tool is never again
      called for that key. */
  lemma CompletedIsFinal(s0: State, schedule: seq<Move>, more: seq<Move>, k: string)
    requires Init(s0)
    ensures var s, s' := Run(s0, schedule), Run(s0, schedule + more);
      k in s.shared.records && s.shared.records[k].status.Completed? ==>
        && k in s'.shared.records && s'.shared.records[k] == s.shared.records[k]
        && s.shared.calls <= s'.shared.calls
        && forall i | |s.shared.calls| <= i < |s'.shared.calls| :: s'.shared.calls[i].key != Some(k)
  {
    Reachable(s0, schedule);
    Reachable(s0, schedule + more);
    RunRuns(s0, schedule, more);
    RunGrows(Run(s0, schedule), more);
    var s := Run(s0, schedule);
    if k in s.shared.records && s.shared.records[k].status.Completed? { NoLaterCall(s, Run(s0, schedule + more), k); }
  }

  lemma OwnerOf(s: State, k: string) returns (t: Tid)
    requires OwnersOk(s) && k in s.shared.records
    ensures t in s.threads && HoldsKey(s.threads[t], k)
  {
    t :| t in s.threads && HoldsKey(s.threads[t], k);
  }

  lemma OwnCall(s: State, t: Tid) returns (j: nat)
    requires CallsOk(s) && t in s.threads && s.threads[t].local.ran
    ensures j < |s.shared.calls| && s.shared.calls[j].caller == t
  {
    j :| 0 <= j < |s.shared.calls| && s.shared.calls[j].caller == t;
  }

  lemma OwnerIsCaller(s: State, s': State, t: Tid, k: string, i: nat)
    requires Inv(s) && Inv(s') && SameThreads(s, s') && t in s.threads && HoldsKey(s.threads[t], k)
    requires k in s.shared.records && s.shared.records[k].status.Completed?
    requires i < |s'.shared.calls| && s'.shared.calls[i].key == Some(k)
    ensures s'.shared.calls[i].caller == t && s.threads[t].local.ran
  {
    HolderOwns(s, t, k);
    KeyedCallsHold(s', i);
    assert s'.threads[t] == s.threads[t] && HoldsKey(s'.threads[t], k);
    assert CallEntryOk(s', s'.shared.calls[i]);
  }

  /** A later call under a completed key would repeat one its owner made before. */
  lemma EarlierCall(s: State, s': State, k: string, i: nat) returns (j: nat)
    requires Inv(s) && Inv(s') && Grows(s.shared, s'.shared) && SameThreads(s, s')
    requires k in s.shared.records && s.shared.records[k].status.Completed?
    requires i < |s'.shared.calls| && s'.shared.calls[i].key == Some(k)
    ensures j < |s.shared.calls| && s'.shared.calls[j].caller == s'.shared.calls[i].caller
  {
    var t := OwnerOf(s, k);
    OwnerIsCaller(s, s', t, k, i);
    j := OwnCall(s, t);
  }

  lemma CallersDiffer(s: State, i: nat, j: nat)
    requires CallsOk(s) && i < j < |s.shared.calls|
    ensures s.shared.calls[i].caller != s.shared.calls[j].caller
  {
  }

  lemma LaterCallDiffers(s: State, s': State, k: string, i: nat)
    requires Inv(s) && Inv(s') && Grows(s.shared, s'.shared) && SameThreads(s, s')
    requires k in s.shared.records && s.shared.records[k].status.Completed?
    requires |s.shared.calls| <= i < |s'.shared.calls|
    ensures s'.shared.calls[i].key != Some(k)
  {
    if s'.shared.calls[i].key == Some(k) {
      var j := EarlierCall(s, s', k, i);
      CallersDiffer(s', j, i);
    }
  }

  lemma NoLaterCall(s: State, s': State, k: string)
    requires Inv(s) && Inv(s') && Grows(s.shared, s'.shared) && SameThreads(s, s')
    requires k in s.shared.records && s.shared.records[k].status.Completed?
    ensures forall i | |s.shared.calls| <= i < |s'.shared.calls| :: s'.shared.calls[i].key != Some(k)
  {
    forall i | |s.shared.calls| <= i < |s'.shared.calls| ensures s'.shared.calls[i].key != Some(k) {
      LaterCallDiffers(s, s', k, i);
    }
  }

  // ---------- claims stay ----------

  /** How performing an act can change claims, records and handler calls. */
  lemma PerformMoves(sh: Shared, c: Call, l: Local, t: Tid, act: Act)
    requires ActContinues(c, l, act) && ClaimShape(c, l)
    ensures var (sh', n) := Perform(sh, c, l, t, act);
      && (l.claim.Some? ==> n.claim == l.claim)
      && (l.ran ==> n.ran && sh'.calls == sh.calls) && (!n.ran ==> sh'.calls == sh.calls)
      && |sh'.calls| <= |sh.calls| + 1
      && (!Holds(n) ==> sh'.records == sh.records)
  {
  }

  /** How a turn can change them. */
  lemma TurnMoves(s: State, t: Tid)
    requires Inv(s) && t in s.threads
    ensures var s' := Do(s, Turn(t)); var l, n := s.threads[t].local, s'.threads[t].local;
      && (l.claim.Some? ==> n.claim == l.claim)
      && (l.ran ==> n.ran && s'.shared.calls == s.shared.calls) && (!n.ran ==> s'.shared.calls == s.shared.calls)
      && |s'.shared.calls| <= |s.shared.calls| + 1
      && (!Holds(n) ==> s'.shared.records == s.shared.records)
  {
    var c, l := s.threads[t].call, s.threads[t].local;
    var act := Next(s.shared.registry, c, l);
    ClaimFacts(s, t);
    TurnReady(s, t);
    ActOkContinues(s.shared.registry, c, l, act);
    PerformMoves(s.shared, c, l, t, act);
  }

  lemma DoKeepsClaim(s: State, m: Move, t: Tid)
    requires Inv(s) && t in s.threads && s.threads[t].local.claim.Some?
    ensures t in Do(s, m).threads && Do(s, m).threads[t].local.claim == s.threads[t].local.claim
  {
    if m == Turn(t) { TurnMoves(s, t); }
  }

  /** A claim once made is never changed. */
  lemma {:induction false} RunKeepsClaim(s: State, schedule: seq<Move>, t: Tid)
    requires Inv(s) && t in s.threads && s.threads[t].local.claim.Some?
    ensures t in Run(s, schedule).threads && Run(s, schedule).threads[t].local.claim == s.threads[t].local.claim
    decreases |schedule|
  {
    if schedule != [] {
      DoKeeps(s, schedule[0]);
      DoKeepsClaim(s, schedule[0], t);
      RunKeepsClaim(Do(s, schedule[0]), schedule[1..], t);
    }
  }

  // ---------- admission ----------

  /** Everything that stood between a request and its tool. */
  ghost predicate PassedEveryGate(registry: map<string, ToolContract>, c: Call) {
    && c.action.toolName in registry
    && var tool := registry[c.action.toolName];
       var answers := AskAll(c.script.policies, c.action, tool, c.script.context, c.script.stamp);
       && Matches(c.action, tool)
       && Conforms(Obj(c.action.arguments), tool.inputSchema)
       && NoneObjects(c.action, answers)
       && (ApprovalDemanded(tool, answers) ==> c.script.approval.Passed?)
       && (tool.idempotencyKeyRequired ==> c.action.idempotencyKey.Some?)
       && forall i | 0 <= i < |c.script.preconditions| :: c.script.preconditions[i].Passed?
  }

  lemma AdmittedPassed(registry: map<string, ToolContract>, c: Call, l: Local)
    requires Admitted(registry, c, l)
    ensures PassedEveryGate(registry, c)
  {
    var tool := l.tool.value;
    var answers := Answers(c, tool);
    assert Conforms(Obj(c.action.arguments), tool.inputSchema);
    assert NoneObjects(c.action, answers);
    assert ApprovalDemanded(tool, answers) <==> AsksApproval(l);
  }

  /** If the tool was called, the request had passed every gate; in particular approval was
      given whenever a policy, or the risk the contract and policies settled on, demanded it. */
  lemma EndToEndAdmission(s0: State, schedule: seq<Move>, n: nat)
    requires Init(s0) && n < |Run(s0, schedule).shared.calls|
    ensures var s := Run(s0, schedule);
      s.shared.calls[n].caller in s.threads
      && PassedEveryGate(s.shared.registry, s.threads[s.shared.calls[n].caller].call)
  {
    Reachable(s0, schedule);
    var s := Run(s0, schedule);
    var h := s.shared.calls[n];
    assert CallEntryOk(s, h);
    var th := s.threads[h.caller];
    OwnFacts(s, h.caller);
    AdmittedPassed(s.shared.registry, th.call, th.local);
  }

  // ---------- exceptions ----------

  /** Only two exceptions leave `execute`. The policy engine's does so exactly when the answers'
      constraint names clash; no claim is held and no tool has run then. The other is the
      result's refusal of the tool's output, after the tool ran. */
  ghost predicate RaiseFacts(c: Call, l: Local) {
    && (l.pc.Crashed? ==> Clashed(l.pc) || Refused(l.pc))
    && (Clashed(l.pc) ==> l.claim.None? && !l.ran)
    && (Refused(l.pc) ==> (l.claim.Some? <==> c.action.idempotencyKey.Some?) && l.ran)
    && (Clashed(l.pc) || l.decision.Some? ==>
          l.tool.Some?
          && (Clashed(l.pc) <==>
              Clash(c.action, l.tool.value,
                    AskAll(c.script.policies, c.action, l.tool.value, c.script.context, c.script.stamp))))
  }

  lemma HowCallsRaise(s: State, t: Tid)
    requires ThreadsOk(s) && t in s.threads
    ensures RaiseFacts(s.threads[t].call, s.threads[t].local)
  {
    var c, l := s.threads[t].call, s.threads[t].local;
    OwnFacts(s, t);
    if Clashed(l.pc) || l.decision.Some? {
      var answers := AskAll(c.script.policies, c.action, l.tool.value, c.script.context, c.script.stamp);
      assert answers == Answers(c, l.tool.value);
      assert Clash(c.action, l.tool.value, answers) || !Clash(c.action, l.tool.value, answers);
    }
  }

  lemma OnlyTwoRaise(s0: State, schedule: seq<Move>, t: Tid)
    requires Init(s0) && t in s0.threads
    ensures var s := Run(s0, schedule); t in s.threads && RaiseFacts(s.threads[t].call, s.threads[t].local)
  {
    Reachable(s0, schedule);
    RunGrows(s0, schedule);
    HowCallsRaise(Run(s0, schedule), t);
  }

  // ---------- progress ----------

  predicate Closer(c: Call, from: Pc, to: Pc) { StepsLeft(c, to) < StepsLeft(c, from) }

  /** An act that brings its call closer to its end. */
  predicate Advances(c: Call, l: Local, act: Act) {
    match act
    case Think(n) => Closer(c, l.pc, n.pc)
    case Append(_, _, s, f) => Closer(c, l.pc, s.pc) && Closer(c, l.pc, f.pc)
    case ClaimKey(_) => l.pc.Claiming?
    case CallTool(n) => Closer(c, l.pc, n.pc)
    case CompleteClaim(_, _) => l.pc.Complete?
  }

  lemma ResolveAdvances(registry: map<string, ToolContract>, c: Call, l: Local)
    requires l.pc.Resolve?
    ensures Advances(c, l, ResolveAct(registry, c, l))
  {
    if c.action.toolName in registry {
      var tool := registry[c.action.toolName];
      ResolvedAdvances(c, l.(tool := Some(tool)), tool, SchemaError(Obj(c.action.arguments), tool.inputSchema));
    }
  }

  lemma ResolvedAdvances(c: Call, l: Local, tool: ToolContract, inputError: Option<string>)
    requires l.pc.Resolve?
    ensures Advances(c, l, ResolvedAct(c, l, tool, inputError))
  {
  }

  lemma EvaluateAdvances(c: Call, l: Local, decision: Option<PolicyDecision>)
    requires l.pc.Evaluate?
    ensures Advances(c, l, EvaluatedAct(c, l, decision))
  {
  }

  lemma ReplayAdvances(c: Call, l: Local)
    requires l.pc.Replaying?
    ensures Advances(c, l, ReplayAct(c, l))
  {
    if l.claim.Some? { ReplayedAdvances(c, l, Replay(l.claim.value.record.result)); }
  }

  lemma ReplayedAdvances(c: Call, l: Local, replayed: Option<ExecutionResult>)
    requires l.pc.Replaying?
    ensures Advances(c, l, ReplayedAct(l, replayed))
  {
  }

  lemma InvokeAdvances(c: Call, l: Local)
    requires l.pc.Invoke?
    ensures Advances(c, l, InvokeAct(c, l))
  {
  }

  lemma CompleteAdvances(c: Call, l: Local)
    requires l.pc.Complete?
    ensures Advances(c, l, CompleteAct(c, l))
  {
  }

  lemma RejectAdvances(c: Call, l: Local)
    requires l.pc.Rejecting?
    ensures Advances(c, l, RejectAct(c, l, l.pc.why))
  {
  }

  lemma FailAdvances(c: Call, l: Local)
    requires l.pc.Failing?
    ensures Advances(c, l, FailAct(c, l, l.pc.why))
  {
  }

  lemma BeforeClaimAdvances(registry: map<string, ToolContract>, c: Call, l: Local)
    requires BeforeClaim(l.pc) && !l.pc.Crashed?
    ensures Advances(c, l, NextBeforeClaim(registry, c, l))
  {
    match l.pc
    case Received =>
    case Resolve => ResolveAdvances(registry, c, l);
    case Validated =>
    case Evaluate =>
      EvaluateAdvances(c, l, Policies.Evaluate(c.action, l.tool, c.script.policies, c.script.context, c.script.stamp));
    case Approve =>
    case Gate =>
    case Claiming =>
    case Rejecting(_) => RejectAdvances(c, l);
  }

  lemma AfterClaimAdvances(c: Call, l: Local)
    requires !BeforeClaim(l.pc) && !l.pc.Done?
    ensures Advances(c, l, NextAfterClaim(c, l))
  {
    match l.pc
    case Replaying => ReplayAdvances(c, l);
    case Pre(_) =>
    case Start =>
    case Invoke => InvokeAdvances(c, l);
    case Post(_) =>
    case Succeed =>
    case Failing(_) => FailAdvances(c, l);
    case Complete => CompleteAdvances(c, l);
  }

  lemma PerformAdvances(sh: Shared, c: Call, l: Local, t: Tid, act: Act)
    requires Advances(c, l, act)
    ensures Closer(c, l.pc, Perform(sh, c, l, t, act).1.pc)
  {
  }

  /** Every turn of an unfinished call brings it closer to its end. */
  lemma TurnAdvances(sh: Shared, c: Call, l: Local, t: Tid)
    requires !Finished(l)
    ensures StepsLeft(c, Advance(sh, c, l, t).1.pc) < StepsLeft(c, l.pc)
  {
    if BeforeClaim(l.pc) { BeforeClaimAdvances(sh.registry, c, l); } else { AfterClaimAdvances(c, l); }
    PerformAdvances(sh, c, l, t, Next(sh.registry, c, l));
  }

  function Turns(schedule: seq<Move>, t: Tid): nat {
    if schedule == [] then 0 else (if schedule[0] == Turn(t) then 1 else 0) + Turns(schedule[1..], t)
  }

  lemma {:induction false} TurnsFinish(s: State, schedule: seq<Move>, t: Tid)
    requires t in s.threads && Turns(schedule, t) >= StepsLeft(s.threads[t].call, s.threads[t].local.pc)
    ensures t in Run(s, schedule).threads && Finished(Run(s, schedule).threads[t].local)
    decreases |schedule|
  {
    var c, l := s.threads[t].call, s.threads[t].local;
    if Finished(l) {
      RunGrows(s, schedule);
    } else if schedule != [] {
      if schedule[0] == Turn(t) { TurnAdvances(s.shared, c, l, t); }
      TurnsFinish(Do(s, schedule[0]), schedule[1..], t);
    }
  }

  /** No call waits for another: whatever the others do, and however many checks there are,
      a call is over once it has had its own bounded number of turns. */
  lemma CallsTerminate(s0: State, schedule: seq<Move>, t: Tid)
    requires Init(s0) && t in s0.threads
    requires var script := s0.threads[t].call.script;
      Turns(schedule, t) >= |script.preconditions| + |script.postconditions| + 19
    ensures t in Run(s0, schedule).threads && Finished(Run(s0, schedule).threads[t].local)
  {
    TurnsFinish(s0, schedule, t);
  }
}
