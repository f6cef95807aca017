/** What is true of one call at every point of its pipeline, and how one of its steps can
    change the shared state. */
module CallInvariant {
  import opened Json
  import opened Contracts
  import opened Policies
  import opened PolicyComposition
  import opened AuditLedger
  import opened Idempotency
  import opened ExecutionResults
  import opened SchemaValidation
  import opened Pipeline

  // ---------- heavy facts, kept folded ----------
  // Each is stated for every value equal to the one meant, so that the verifier unfolds the
  // codec, the validator and the policy engine only in proofs that mention them.

  /** The stored value is the encoding of the result the call returns. */
  ghost predicate StoresResult(v: Value, c: Call, e: Ending) {
    forall r {:trigger Encode(r)} | r == ResultOf(c, e) :: v == Encode(r)
  }

  /** The stored value replays. */
  ghost predicate Decodable(v: Value) { forall w {:trigger Replay(w)} | w == v :: w.Obj? && Replay(w).Some? }

  ghost predicate ReplaysAs(v: Value, r: ExecutionResult) {
    forall w {:trigger Replay(w)} | w == v :: Replay(w) == Some(r)
  }

  ghost predicate ArgumentsConform(c: Call, tool: ToolContract) {
    forall v, s {:trigger Conforms(v, s)} | v == Obj(c.action.arguments) && s == tool.inputSchema :: Conforms(v, s)
  }

  function Answers(c: Call, tool: ToolContract): seq<Answer> {
    AskAll(c.script.policies, c.action, tool, c.script.context, c.script.stamp)
  }

  /** No policy objected, and approval is asked for exactly when some answer or risk demands it. */
  ghost predicate PoliciesPassed(c: Call, tool: ToolContract, asks: bool) {
    && (forall answers {:trigger NoneObjects(c.action, answers)} | answers == Answers(c, tool) ::
          NoneObjects(c.action, answers))
    && (forall answers {:trigger ApprovalDemanded(tool, answers)} | answers == Answers(c, tool) ::
          asks <==> ApprovalDemanded(tool, answers))
  }

  /** Whether the policies' decisions compose into one. */
  ghost predicate Composes(c: Call, tool: ToolContract, yes: bool) {
    forall answers {:trigger Clash(c.action, tool, answers)} | answers == Answers(c, tool) ::
      yes <==> !Clash(c.action, tool, answers)
  }

  // ---------- claims ----------

  predicate Holds(l: Local) { l.claim.Some? && l.claim.value.acquired }

  /** The call raised because its policies did not compose. */
  predicate Clashed(pc: Pc) { pc.Crashed? && pc.fault.PolicyComposition? }

  /** The call raised because its result refused the tool's output. */
  predicate Refused(pc: Pc) { pc.Crashed? && pc.fault.OutputRefused? }

  /** Program points between a claim and its completion; a call whose output was refused stays
      there for good. */
  predicate InClaim(pc: Pc) {
    || pc.Pre? || pc.Start? || pc.Invoke? || pc.Post? || pc.Succeed? || pc.Failing? || pc.Complete?
    || Refused(pc)
  }

  ghost predicate ClaimShape(c: Call, l: Local) {
    && (BeforeClaim(l.pc) && !Refused(l.pc) ==> l.claim.None?)
    && (InClaim(l.pc) ==> (l.claim.Some? <==> c.action.idempotencyKey.Some?) && (l.claim.Some? ==> Holds(l)))
    && (l.pc.Replaying? ==> l.claim.Some? && !Holds(l))
    && (l.pc.Complete? || l.pc.Done? ==> l.ending.Some?)
    && (l.ran && c.action.idempotencyKey.Some? ==> Holds(l))
    && (l.claim.Some? && !Holds(l) && l.claim.value.record.status.Completed? ==> Decodable(l.claim.value.record.result))
    && (l.claim.Some? && !Holds(l) && l.pc.Done? && l.ending.Some? ==>
          if l.claim.value.record.status.Completed?
          then l.ending.value.Replayed? && ReplaysAs(l.claim.value.record.result, l.ending.value.result)
          else l.ending.value == Failed(KeyInProgress, Null))
  }

  /** The record of a held claim: in progress until the call is done, then completed with
      the very result the call returns. */
  ghost predicate RecordOfHolder(records: Records, c: Call, l: Local) {
    && l.claim.Some? && c.action.idempotencyKey == Some(l.claim.value.record.key)
    && var k := l.claim.value.record.key;
       && k in records && records[k].key == k
       && records[k].ownerToken == l.claim.value.record.ownerToken == c.script.token
       && records[k].claimedAt == c.script.claimedAt
       && (if l.pc.Done? then
             && records[k].status.Completed? && l.ending.Some? && StoresResult(records[k].result, c, l.ending.value)
             && records[k].completedAt == Some(c.script.recordedAt)
             && records[k].resultReference == Some(ResultOf(c, l.ending.value).executionId)
           else records[k].status.InProgress?)
  }

  /** A call that found an existing record: a completed one it saw is still the record. */
  ghost predicate RecordOfObserver(records: Records, c: Call, l: Local) {
    && l.claim.Some? && c.action.idempotencyKey.Some?
    && var k := c.action.idempotencyKey.value;
       k in records && (l.claim.value.record.status.Completed? ==> records[k] == l.claim.value.record)
  }

  ghost predicate ClaimOk(records: Records, c: Call, l: Local) {
    && (Holds(l) ==> RecordOfHolder(records, c, l))
    && (l.claim.Some? && !Holds(l) ==> RecordOfObserver(records, c, l))
  }

  /** Completed records hold results that replay. */
  ghost predicate RecordsOk(records: Records) {
    forall k | k in records && records[k].status.Completed? :: Decodable(records[k].result)
  }

  // ---------- results ----------

  ghost predicate OutputOk(c: Call, l: Local) {
    && WellFormed(l.output)
    && (l.ran ==> l.pc.Post? || l.pc.Succeed? || l.pc.Failing? || l.pc.Complete? || l.pc.Done? || Refused(l.pc))
    && (l.pc.Post? || l.pc.Succeed? ==> Serializable(l.output) && l.ran)
    && (l.pc.Crashed? ==> Clashed(l.pc) || Refused(l.pc))
    && (Refused(l.pc) ==> l.ran)
    && (l.pc.Failing? && (l.pc.why.BadOutput? || l.pc.why.PostconditionNotMet?) ==> l.ran)
    && (l.ending.Some? && (l.pc.Complete? || (l.pc.Done? && Holds(l))) ==> Keepable(l.ending.value))
  }

  /** A result that can be stored: WellFormed JSON output, and not taken from another call. */
  ghost predicate Keepable(e: Ending) {
    WellFormed(OutputOf(e)) && IsJson(OutputOf(e)) && !e.Replayed? && (e.Failed? ==> !e.why.KeyInProgress?)
  }

  // ---------- events ----------

  /** The first n events of a call that goes all the way. */
  function Main(n: nat): seq<EventKind> {
    if n == 0 then []
    else Main(n - 1) + [if n == 1 then ActionReceived
                        else if n == 2 then ContractValidated
                        else if n == 3 then PolicyEvaluated
                        else if n == 4 then ExecutionStarted
                        else ExecutionSucceeded]
  }

  /** How many main events precede a failure's own event. */
  function Depth(why: Why): nat {
    match why
    case LedgerBeforeResolution => 1
    case NotRegistered => 1
    case Mismatched => 1
    case BadInput(_) => 1
    case LedgerBeforeExecution => 4
    case HandlerRaised => 4
    case BadOutput(_) => 4
    case PostconditionNotMet => 4
    case _ => 3
  }

  /** The words of the event grammar: the events of a whole call, by how it ended. A failure
      adds its own event, if it has one, to the main events before it. */
  function Word(e: Ending): seq<EventKind> {
    match e
    case Succeeded(_) => Main(5)
    case Replayed(_) => Main(3) + [IdempotencyReplayed]
    case Failed(why, _) =>
      if why.KeyInProgress? then Main(3) + [IdempotencyReplayed]
      else if Loggable(why) then Main(Depth(why)) + [FailureEvent(why)]
      else Main(Depth(why))
  }

  predicate RejectReason(why: Why) {
    why.NotRegistered? || why.Mismatched? || why.BadInput? || why.NotApproved? || why.NoKey?
  }

  predicate FailReason(why: Why) {
    why.PreconditionNotMet? || why.HandlerRaised? || why.BadOutput? || why.PostconditionNotMet?
  }

  /** How many main events an unfinished call has tried to append. */
  function Stage(pc: Pc): nat {
    if pc.Received? then 0
    else if pc.Resolve? || pc.Validated? then 1
    else if pc.Evaluate? || Clashed(pc) then 2
    else if pc.Rejecting? || pc.Failing? then Depth(pc.why)
    else if pc.Invoke? || pc.Post? || pc.Succeed? || Refused(pc) then 4
    else 3
  }

  /** The events a call has tried to append so far. */
  predicate TrailOk(l: Local) {
    && (l.pc.Rejecting? ==> RejectReason(l.pc.why))
    && (l.pc.Failing? ==> FailReason(l.pc.why))
    && if l.pc.Complete? || l.pc.Done? then l.ending.Some? && l.trail == Word(l.ending.value)
       else l.trail == Main(Stage(l.pc))
  }

  predicate StoredBy(sh: Shared, tid: Tid, i: nat, kind: EventKind) {
    i < |sh.ledger| && i < |sh.authors| && sh.authors[i] == tid && sh.ledger[i].entry.kind == kind
  }

  /** A call past its first append, or past `execution_started`, has stored that event. */
  predicate PlacesKnown(l: Local) {
    && (!l.pc.Received? && !l.pc.Done? ==> l.receivedAt.Some?)
    && (l.pc.Invoke? || l.ran ==> l.startedAt.Some?)
    && (l.startedAt.Some? ==> l.receivedAt.Some? && (l.pc.Invoke? || l.ran))
    && (l.pc.Received? ==> l.receivedAt.None?)
  }

  /** Where the call's own `action_received` and `execution_started` are in the ledger. */
  predicate PlacesOk(sh: Shared, l: Local, tid: Tid) {
    && (l.receivedAt.Some? ==> StoredBy(sh, tid, l.receivedAt.value, ActionReceived))
    && (l.startedAt.Some? ==>
          StoredBy(sh, tid, l.startedAt.value, ExecutionStarted)
          && l.receivedAt.Some? && l.receivedAt.value < l.startedAt.value)
  }

  // ---------- admission ----------

  /** The tool was registered, the intent matched it and the arguments conform. */
  ghost predicate Resolved(registry: map<string, ToolContract>, c: Call, l: Local) {
    && l.tool.Some? && c.action.toolName in registry && registry[c.action.toolName] == l.tool.value
    && Matches(c.action, l.tool.value) && ArgumentsConform(c, l.tool.value)
  }

  predicate AsksApproval(l: Local) { l.decision.Some? && l.decision.value.decisionType.RequireApproval? }

  ghost predicate Judged(c: Call, l: Local) {
    l.tool.Some? && l.decision.Some? && PoliciesPassed(c, l.tool.value, AsksApproval(l))
  }

  predicate Approved(c: Call, l: Local) { AsksApproval(l) ==> c.script.approval.Passed? }

  predicate Keyed(c: Call, l: Local) {
    l.tool.Some? && (l.tool.value.idempotencyKeyRequired ==> c.action.idempotencyKey.Some?)
  }

  predicate ChecksPassed(checks: seq<CheckAnswer>, n: nat) {
    forall i | 0 <= i < n && i < |checks| :: checks[i].Passed?
  }

  /** Everything that must have happened before the tool may be called. */
  ghost predicate Admitted(registry: map<string, ToolContract>, c: Call, l: Local) {
    && Resolved(registry, c, l) && Judged(c, l) && Approved(c, l) && Keyed(c, l)
    && ChecksPassed(c.script.preconditions, |c.script.preconditions|)
  }

  // How far a call has come; calling the tool is past every gate.
  predicate PastChecks(l: Local) { l.pc.Start? || l.pc.Invoke? || l.ran }

  predicate PastKey(l: Local) { l.pc.Claiming? || l.pc.Pre? || PastChecks(l) }

  predicate PastApproval(l: Local) { l.pc.Gate? || PastKey(l) }

  predicate PastPolicies(l: Local) { l.pc.Approve? || PastApproval(l) }

  predicate PastResolution(l: Local) { l.pc.Validated? || l.pc.Evaluate? || PastPolicies(l) }

  ghost predicate AdmissionOk(registry: map<string, ToolContract>, c: Call, l: Local) {
    && (PastResolution(l) ==> Resolved(registry, c, l))
    && (l.pc.Received? || l.pc.Resolve? || l.pc.Validated? || l.pc.Evaluate? ==> l.decision.None?)
    && (l.decision.Some? ==> l.tool.Some? && !Clashed(l.pc) && Composes(c, l.tool.value, true))
    && (Clashed(l.pc) ==> l.tool.Some? && Composes(c, l.tool.value, false))
    && (PastPolicies(l) ==> Judged(c, l))
    && (PastApproval(l) ==> Approved(c, l))
    && (PastKey(l) ==> Keyed(c, l))
    && (l.pc.Claiming? ==> c.action.idempotencyKey.Some?)
    && (l.pc.Pre? ==> ChecksPassed(c.script.preconditions, l.pc.i))
    && (PastChecks(l) ==> ChecksPassed(c.script.preconditions, |c.script.preconditions|))
  }

  // ---------- the invariant of a call ----------

  /** What only concerns the call's own variables. */
  ghost predicate LocalFacts(registry: map<string, ToolContract>, c: Call, l: Local) {
    ClaimShape(c, l) && OutputOk(c, l) && TrailOk(l) && PlacesKnown(l) && AdmissionOk(registry, c, l)
  }

  /** The same, folded: it is unfolded only where `LocalFacts` is mentioned. */
  ghost predicate LocalOk(registry: map<string, ToolContract>, c: Call, l: Local) {
    forall x {:trigger LocalFacts(registry, c, x)} | x == l :: LocalFacts(registry, c, x)
  }

  ghost predicate CallOk(sh: Shared, c: Call, l: Local, tid: Tid) {
    LocalOk(sh.registry, c, l) && ClaimOk(sh.records, c, l) && PlacesOk(sh, l, tid)
  }

  /** How one call's variables can change without touching a claim. */
  predicate Continues(c: Call, l: Local, n: Local) {
    && n.claim == l.claim && n.trail == l.trail && n.ran == l.ran
    && n.receivedAt == l.receivedAt && n.startedAt == l.startedAt
    && (Finished(l) ==> n == l)
    && (Holds(l) && !l.pc.Done? ==> !n.pc.Done?)
  }

  /** What the next act of a call has to satisfy for the call's invariant to survive it. */
  ghost predicate ActOk(registry: map<string, ToolContract>, c: Call, l: Local, act: Act) {
    match act
    case Think(n) => Continues(c, l, n) && LocalOk(registry, c, n)
    case Append(kind, _, s, f) =>
      && !Finished(l) && Continues(c, l, s) && Continues(c, l, f)
      && (kind.ActionReceived? ==> l.pc.Received?)
      && (kind.ExecutionStarted? ==> l.pc.Start?)
      && LocalOk(registry, c, if AppendOk(c, kind) then WithEvent(s, kind, 0) else WithoutEvent(f, kind))
    case ClaimKey(k) => l.pc.Claiming? && c.action.idempotencyKey == Some(k)
    case CallTool(n) => l.pc.Invoke? && !l.ran && Continues(c, l, n) && LocalOk(registry, c, n.(ran := true))
    case CompleteClaim(claim, r) =>
      l.pc.Complete? && l.claim == Some(claim) && l.ending.Some? && r == ResultOf(c, l.ending.value)
  }

  /** The part of `ActOk` about claims, events and the handler. */
  predicate ActContinues(c: Call, l: Local, act: Act) {
    match act
    case Think(n) => Continues(c, l, n)
    case Append(_, _, s, f) => Continues(c, l, s) && Continues(c, l, f)
    case ClaimKey(k) => l.pc.Claiming? && c.action.idempotencyKey == Some(k)
    case CallTool(n) => l.pc.Invoke? && !l.ran && Continues(c, l, n)
    case CompleteClaim(claim, _) => l.pc.Complete? && l.claim == Some(claim)
  }

  lemma ActOkContinues(registry: map<string, ToolContract>, c: Call, l: Local, act: Act)
    requires ActOk(registry, c, l, act)
    ensures ActContinues(c, l, act)
  {
  }

  // ---------- act by act ----------

  /** An append that leads to one place whether or not the event is stored. */
  lemma EitherWay(registry: map<string, ToolContract>, c: Call, l: Local, kind: EventKind, details: Details, n: Local)
    requires !Finished(l) && Continues(c, l, n) && !kind.ActionReceived? && !kind.ExecutionStarted?
    requires LocalOk(registry, c, n.(trail := n.trail + [kind]))
    ensures ActOk(registry, c, l, Append(kind, details, n, n))
  {
    assert WithEvent(n, kind, 0) == WithoutEvent(n, kind) == n.(trail := n.trail + [kind]);
  }

  lemma ReceiveKeeps(registry: map<string, ToolContract>, c: Call, l: Local)
    requires LocalOk(registry, c, l) && c.script.Plausible() && l.pc.Received?
    ensures ActOk(registry, c, l, ReceiveAct(c, l))
  {
    assert LocalFacts(registry, c, l);
  }

  lemma ResolvedKeeps(registry: map<string, ToolContract>, c: Call, l: Local, inputError: Option<string>)
    requires LocalOk(registry, c, l) && c.script.Plausible() && l.pc.Resolve? && c.action.toolName in registry
    requires inputError.None? ==> ArgumentsConform(c, registry[c.action.toolName])
    ensures ActOk(registry, c, l, ResolvedAct(c, l.(tool := Some(registry[c.action.toolName])),
                                              registry[c.action.toolName], inputError))
  {
    assert LocalFacts(registry, c, l);
  }

  lemma UnregisteredKeeps(registry: map<string, ToolContract>, c: Call, l: Local)
    requires LocalOk(registry, c, l) && c.script.Plausible() && l.pc.Resolve?
    ensures ActOk(registry, c, l, Think(l.(pc := Rejecting(NotRegistered))))
  {
    assert LocalFacts(registry, c, l);
  }

  lemma ResolveKeeps(registry: map<string, ToolContract>, c: Call, l: Local)
    requires LocalOk(registry, c, l) && c.script.Plausible() && l.pc.Resolve?
    ensures ActOk(registry, c, l, ResolveAct(registry, c, l))
  {
    assert LocalFacts(registry, c, l);
    if c.action.toolName in registry {
      var tool := registry[c.action.toolName];
      var error := SchemaError(Obj(c.action.arguments), tool.inputSchema);
      ValidateDecides(Obj(c.action.arguments), tool.inputSchema, []);
      ResolvedKeeps(registry, c, l, error);
    } else {
      UnregisteredKeeps(registry, c, l);
    }
  }

  lemma ValidatedKeeps(registry: map<string, ToolContract>, c: Call, l: Local)
    requires LocalOk(registry, c, l) && c.script.Plausible() && l.pc.Validated?
    ensures ActOk(registry, c, l, ValidatedAct(c, l))
  {
    assert LocalFacts(registry, c, l);
    EitherWay(registry, c, l, ContractValidated, ValidatedAct(c, l).details, l.(pc := Pc.Evaluate));
  }

  lemma DeniedKeeps(registry: map<string, ToolContract>, c: Call, l: Local, d: PolicyDecision, details: Details)
    requires LocalOk(registry, c, l) && c.script.Plausible() && l.pc.Evaluate? && d.decisionType.Deny?
    requires l.tool.Some? && Composes(c, l.tool.value, true)
    ensures var n := End(c, l.(decision := Some(d)), Failed(Denied(d.reason), Null));
      ActOk(registry, c, l, Append(PolicyEvaluated, details, n, n))
  {
    assert LocalFacts(registry, c, l);
    var refused := End(c, l.(decision := Some(d)), Failed(Denied(d.reason), Null));
    EitherWay(registry, c, l, PolicyEvaluated, details, refused);
  }

  lemma PassedKeeps(registry: map<string, ToolContract>, c: Call, l: Local, d: PolicyDecision, details: Details)
    requires LocalOk(registry, c, l) && c.script.Plausible() && l.pc.Evaluate? && l.tool.Some?
    requires PoliciesPassed(c, l.tool.value, d.decisionType.RequireApproval?) && Composes(c, l.tool.value, true)
    ensures var n := l.(decision := Some(d), pc := if d.decisionType.RequireApproval? then Approve else Gate);
      ActOk(registry, c, l, Append(PolicyEvaluated, details, n, n))
  {
    assert LocalFacts(registry, c, l);
    EitherWay(registry, c, l, PolicyEvaluated, details,
              l.(decision := Some(d), pc := if d.decisionType.RequireApproval? then Approve else Gate));
  }

  lemma UncomposedKeeps(registry: map<string, ToolContract>, c: Call, l: Local)
    requires LocalOk(registry, c, l) && c.script.Plausible() && l.pc.Evaluate?
    requires l.tool.Some? && l.decision.None? && Composes(c, l.tool.value, false)
    ensures ActOk(registry, c, l, Think(l.(pc := Crashed(PolicyComposition))))
  {
    assert LocalFacts(registry, c, l);
  }

  lemma EvaluateMeans(c: Call, tool: ToolContract)
    requires Matches(c.action, tool)
    ensures var d := Policies.Evaluate(c.action, Some(tool), c.script.policies, c.script.context, c.script.stamp);
      Composes(c, tool, d.Some?)
      && (d.Some? && !d.value.decisionType.Deny? ==> PoliciesPassed(c, tool, d.value.decisionType.RequireApproval?))
  {
    EvaluateRaisesIff(c.action, tool, c.script.policies, c.script.context, c.script.stamp);
    AdmittedMeans(c.action, tool, Answers(c, tool), c.script.stamp);
  }

  lemma EvaluateKeeps(registry: map<string, ToolContract>, c: Call, l: Local)
    requires LocalOk(registry, c, l) && c.script.Plausible() && l.pc.Evaluate?
    ensures ActOk(registry, c, l, EvaluateAct(c, l))
  {
    assert LocalFacts(registry, c, l);
    EvaluateMeans(c, l.tool.value);
    var decision := Policies.Evaluate(c.action, l.tool, c.script.policies, c.script.context, c.script.stamp);
    EvaluatedKeeps(registry, c, l, decision);
  }

  lemma EvaluatedKeeps(registry: map<string, ToolContract>, c: Call, l: Local, decision: Option<PolicyDecision>)
    requires LocalOk(registry, c, l) && c.script.Plausible() && l.pc.Evaluate? && l.tool.Some?
    requires Composes(c, l.tool.value, decision.Some?)
    requires decision.Some? && !decision.value.decisionType.Deny? ==>
      PoliciesPassed(c, l.tool.value, decision.value.decisionType.RequireApproval?)
    ensures ActOk(registry, c, l, EvaluatedAct(c, l, decision))
  {
    assert LocalFacts(registry, c, l);
    if decision.None? {
      UncomposedKeeps(registry, c, l);
    } else if decision.value.decisionType.Deny? {
      DeniedKeeps(registry, c, l, decision.value, EvaluatedAct(c, l, decision).details);
    } else {
      PassedKeeps(registry, c, l, decision.value, EvaluatedAct(c, l, decision).details);
    }
  }

  lemma ApproveKeeps(registry: map<string, ToolContract>, c: Call, l: Local)
    requires LocalOk(registry, c, l) && c.script.Plausible() && l.pc.Approve?
    ensures ActOk(registry, c, l, ApproveAct(c, l))
  {
    assert LocalFacts(registry, c, l);
  }

  lemma GateKeeps(registry: map<string, ToolContract>, c: Call, l: Local)
    requires LocalOk(registry, c, l) && c.script.Plausible() && l.pc.Gate?
    ensures ActOk(registry, c, l, GateAct(c, l))
  {
    assert LocalFacts(registry, c, l);
  }

  lemma ClaimKeeps(registry: map<string, ToolContract>, c: Call, l: Local)
    requires LocalOk(registry, c, l) && l.pc.Claiming?
    ensures ActOk(registry, c, l, ClaimAct(c, l))
  {
    assert LocalFacts(registry, c, l);
  }

  lemma InProgressKeeps(registry: map<string, ToolContract>, c: Call, l: Local, details: Details)
    requires LocalOk(registry, c, l) && c.script.Plausible() && l.pc.Replaying?
    requires l.claim.Some? && l.claim.value.record.status.InProgress?
    ensures ActOk(registry, c, l, Append(IdempotencyReplayed, details, End(c, l, Failed(KeyInProgress, Null)),
                                         End(c, l, Failed(KeyInProgress, Null))))
  {
    assert LocalFacts(registry, c, l);
    EitherWay(registry, c, l, IdempotencyReplayed, details, End(c, l, Failed(KeyInProgress, Null)));
  }

  lemma ReplayedKeeps(registry: map<string, ToolContract>, c: Call, l: Local, replayed: Option<ExecutionResult>)
    requires LocalOk(registry, c, l) && c.script.Plausible() && l.pc.Replaying?
    requires l.claim.Some? && l.claim.value.record.status.Completed?
    requires replayed.Some? && ReplaysAs(l.claim.value.record.result, replayed.value)
    ensures ActOk(registry, c, l, ReplayedAct(l, replayed))
  {
    assert LocalFacts(registry, c, l);
    EitherWay(registry, c, l, IdempotencyReplayed, OfReplay(true),
              l.(pc := Done, ending := Some(Replayed(replayed.value))));
  }

  lemma ReplayKeeps(registry: map<string, ToolContract>, c: Call, l: Local)
    requires LocalOk(registry, c, l) && c.script.Plausible() && l.pc.Replaying?
    ensures ActOk(registry, c, l, ReplayAct(c, l))
  {
    assert LocalFacts(registry, c, l);
    var record := l.claim.value.record;
    if record.status.Completed? {
      var replayed := Replay(record.result);
      ReplayedKeeps(registry, c, l, replayed);
    } else {
      InProgressKeeps(registry, c, l, OfReplay(false));
    }
  }

  lemma PreKeeps(registry: map<string, ToolContract>, c: Call, l: Local)
    requires LocalOk(registry, c, l) && c.script.Plausible() && l.pc.Pre?
    ensures var act := CheckAct(l, c.script.preconditions, l.pc.i, Start, Pre(l.pc.i + 1), PreconditionNotMet);
      ActOk(registry, c, l, act)
  {
    assert LocalFacts(registry, c, l);
  }

  lemma StartedKeeps(registry: map<string, ToolContract>, c: Call, l: Local)
    requires LocalOk(registry, c, l) && c.script.Plausible() && l.pc.Start?
    ensures LocalOk(registry, c, WithEvent(l.(pc := Invoke), ExecutionStarted, 0))
  {
    assert LocalFacts(registry, c, l);
  }

  lemma UnstartedKeeps(registry: map<string, ToolContract>, c: Call, l: Local)
    requires LocalOk(registry, c, l) && c.script.Plausible() && l.pc.Start?
    ensures LocalOk(registry, c, WithoutEvent(Finish(c, l, Failed(LedgerBeforeExecution, Null)), ExecutionStarted))
  {
    assert LocalFacts(registry, c, l);
  }

  lemma StartKeeps(registry: map<string, ToolContract>, c: Call, l: Local)
    requires LocalOk(registry, c, l) && c.script.Plausible() && l.pc.Start?
    ensures ActOk(registry, c, l, StartAct(c, l))
  {
    assert LocalFacts(registry, c, l);
    StartedKeeps(registry, c, l);
    UnstartedKeeps(registry, c, l);
  }

  lemma AcceptedKeeps(registry: map<string, ToolContract>, c: Call, l: Local, output: Value)
    requires LocalOk(registry, c, l) && c.script.Plausible() && l.pc.Invoke?
    requires WellFormed(output) && Serializable(output)
    ensures ActOk(registry, c, l, InvokedAct(l, output, None))
  {
    assert LocalFacts(registry, c, l);
  }

  lemma UnacceptedKeeps(registry: map<string, ToolContract>, c: Call, l: Local, output: Value, message: string)
    requires LocalOk(registry, c, l) && c.script.Plausible() && l.pc.Invoke? && WellFormed(output)
    ensures ActOk(registry, c, l, InvokedAct(l, output, Some(message)))
  {
    assert LocalFacts(registry, c, l);
  }

  lemma RaisedKeeps(registry: map<string, ToolContract>, c: Call, l: Local)
    requires LocalOk(registry, c, l) && c.script.Plausible() && l.pc.Invoke?
    ensures ActOk(registry, c, l, CallTool(l.(pc := Failing(HandlerRaised))))
  {
    assert LocalFacts(registry, c, l);
  }

  lemma InvokeKeeps(registry: map<string, ToolContract>, c: Call, l: Local)
    requires LocalOk(registry, c, l) && c.script.Plausible() && l.pc.Invoke?
    ensures ActOk(registry, c, l, InvokeAct(c, l))
  {
    assert LocalFacts(registry, c, l);
    match c.script.handler
    case Raises => RaisedKeeps(registry, c, l);
    case Returns(v) =>
      ValidateDecides(v, l.tool.value.outputSchema, []);
      match SchemaError(v, l.tool.value.outputSchema) {
        case None => AcceptedKeeps(registry, c, l, v);
        case Some(message) => UnacceptedKeeps(registry, c, l, v, message);
      }
  }

  lemma PostKeeps(registry: map<string, ToolContract>, c: Call, l: Local)
    requires LocalOk(registry, c, l) && c.script.Plausible() && l.pc.Post?
    ensures ActOk(registry, c, l, CheckAct(l, c.script.postconditions, l.pc.i, Succeed, Post(l.pc.i + 1),
                                           PostconditionNotMet))
  {
    assert LocalFacts(registry, c, l);
  }

  lemma SucceedKeeps(registry: map<string, ToolContract>, c: Call, l: Local)
    requires LocalOk(registry, c, l) && c.script.Plausible() && l.pc.Succeed?
    ensures ActOk(registry, c, l, SucceedAct(c, l))
  {
    assert LocalFacts(registry, c, l);
    if IsJson(l.output) {
      EitherWay(registry, c, l, ExecutionSucceeded, NoDetails, Finish(c, l, Succeeded(l.output)));
    } else {
      RefusedKeeps(registry, c, l);
    }
  }

  lemma RefusedKeeps(registry: map<string, ToolContract>, c: Call, l: Local)
    requires LocalOk(registry, c, l) && l.ran
    requires l.pc.Succeed? || (l.pc.Failing? && (l.pc.why.BadOutput? || l.pc.why.PostconditionNotMet?))
    ensures ActOk(registry, c, l, Think(l.(pc := Crashed(OutputRefused))))
  {
    assert LocalFacts(registry, c, l);
  }

  lemma RejectKeeps(registry: map<string, ToolContract>, c: Call, l: Local)
    requires LocalOk(registry, c, l) && c.script.Plausible() && l.pc.Rejecting?
    ensures ActOk(registry, c, l, RejectAct(c, l, l.pc.why))
  {
    assert LocalFacts(registry, c, l);
    var act := RejectAct(c, l, l.pc.why);
    EitherWay(registry, c, l, act.kind, act.details, End(c, l, Failed(l.pc.why, l.output)));
  }

  lemma FailedKeeps(registry: map<string, ToolContract>, c: Call, l: Local, details: Details, n: Local)
    requires LocalOk(registry, c, l) && l.pc.Failing? && FailReason(l.pc.why)
    requires IsJson(OutputOf(Failed(l.pc.why, l.output)))
    requires n == l.(pc := Complete, ending := Some(Failed(l.pc.why, l.output)))
    ensures ActOk(registry, c, l, Append(FailureEvent(l.pc.why), details, n, n))
  {
    assert LocalFacts(registry, c, l);
    EitherWay(registry, c, l, FailureEvent(l.pc.why), details, n);
  }

  lemma FailKeeps(registry: map<string, ToolContract>, c: Call, l: Local)
    requires LocalOk(registry, c, l) && c.script.Plausible() && l.pc.Failing?
    ensures ActOk(registry, c, l, FailAct(c, l, l.pc.why))
  {
    assert LocalFacts(registry, c, l);
    var n := Finish(c, l, Failed(l.pc.why, l.output));
    if n.pc.Complete? {
      FailedKeeps(registry, c, l, FailureDetails(c, l.decision, l.pc.why), n);
    } else {
      RefusedKeeps(registry, c, l);
    }
  }

  lemma CompleteKeeps(registry: map<string, ToolContract>, c: Call, l: Local)
    requires LocalOk(registry, c, l) && c.script.Plausible() && l.pc.Complete?
    ensures ActOk(registry, c, l, CompleteAct(c, l))
  {
    assert LocalFacts(registry, c, l);
  }

  lemma BeforeClaimKeeps(registry: map<string, ToolContract>, c: Call, l: Local)
    requires LocalOk(registry, c, l) && c.script.Plausible() && BeforeClaim(l.pc) && !l.pc.Crashed?
    ensures ActOk(registry, c, l, NextBeforeClaim(registry, c, l))
  {
    match l.pc
    case Received => ReceiveKeeps(registry, c, l);
    case Resolve => ResolveKeeps(registry, c, l);
    case Validated => ValidatedKeeps(registry, c, l);
    case Evaluate => EvaluateKeeps(registry, c, l);
    case Approve => ApproveKeeps(registry, c, l);
    case Gate => GateKeeps(registry, c, l);
    case Claiming => ClaimKeeps(registry, c, l);
    case Rejecting(_) => RejectKeeps(registry, c, l);
  }

  lemma AfterClaimKeeps(registry: map<string, ToolContract>, c: Call, l: Local)
    requires LocalOk(registry, c, l) && c.script.Plausible() && !BeforeClaim(l.pc) && !l.pc.Done?
    ensures ActOk(registry, c, l, NextAfterClaim(c, l))
  {
    match l.pc
    case Replaying => ReplayKeeps(registry, c, l);
    case Pre(_) => PreKeeps(registry, c, l);
    case Start => StartKeeps(registry, c, l);
    case Invoke => InvokeKeeps(registry, c, l);
    case Post(_) => PostKeeps(registry, c, l);
    case Succeed => SucceedKeeps(registry, c, l);
    case Failing(_) => FailKeeps(registry, c, l);
    case Complete => CompleteKeeps(registry, c, l);
  }

  /** Whatever a call does next keeps its invariant. */
  lemma NextKeeps(registry: map<string, ToolContract>, c: Call, l: Local)
    requires LocalOk(registry, c, l) && c.script.Plausible()
    ensures ActOk(registry, c, l, Next(registry, c, l))
  {
    if Finished(l) {
      assert Next(registry, c, l) == Think(l);
    } else if BeforeClaim(l.pc) {
      BeforeClaimKeeps(registry, c, l);
    } else {
      AfterClaimKeeps(registry, c, l);
    }
  }
}
