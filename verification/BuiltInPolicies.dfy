/** What the engine decides, in the terms of its policies: lists of tools, permissions, risk and
    thresholds. */
module BuiltInPolicies {
  import opened Json
  import opened JsonText
  import opened Contracts
  import opened Policies
  import opened PolicyComposition
  import opened SchemaMeaning

  /** The intent names this contract, this tool and this version. */
  predicate IsFor(action: ActionIntent, contract: ToolContract) {
    && action.contractId == contract.contractId && action.toolName == contract.name
    && action.contractVersion == contract.version
  }

  predicate BelowHigh(contract: ToolContract) { contract.riskLevel.Low? || contract.riskLevel.Medium? }

  /** Low, medium, high, critical, in that order. */
  predicate AtLeast(a: RiskLevel, b: RiskLevel) {
    match b
    case Low => true
    case Medium => !a.Low?
    case High => a.High? || a.Critical?
    case Critical => a.Critical?
  }

  lemma RiskOrder(a: RiskLevel, b: RiskLevel)
    ensures RiskAtLeast(a, b) <==> AtLeast(a, b)
  {
  }

  // ---------- before any policy is asked ----------

  /** A decision by the engine itself. */
  predicate Decides(d: Option<PolicyDecision>, action: ActionIntent, stamp: Stamp, kind: DecisionType,
                    risk: RiskLevel, reason: string) {
    && d.Some? && d.value.decisionId == stamp.decisionId && d.value.intentId == action.intentId
    && d.value.decidedAt == stamp.decidedAt && d.value.decisionType == kind && d.value.riskLevel == risk
    && d.value.reason.Text() == reason && d.value.constraints == []
  }

  lemma UnknownToolDenied(action: ActionIntent, ps: seq<Policy>, context: seq<Member>, stamp: Stamp)
    ensures Decides(Evaluate(action, None, ps, context, stamp), action, stamp, Deny, Critical,
                    "Unknown tool denied: " + action.toolName + ".")
  {
  }

  lemma MismatchDenied(action: ActionIntent, contract: ToolContract, ps: seq<Policy>, context: seq<Member>,
                       stamp: Stamp)
    requires !IsFor(action, contract)
    ensures Decides(Evaluate(action, Some(contract), ps, context, stamp), action, stamp, Deny, contract.riskLevel,
                    "Action intent does not match the supplied contract.")
  {
  }

  // ---------- unusable answers ----------

  /** Why the engine cannot use an answer. */
  function Unusable(action: ActionIntent, a: Answer): Option<string> {
    match a
    case Raised => Some("Policy evaluation failed closed.")
    case NotADecision => Some("Policy returned an invalid decision.")
    case Decided(d) =>
      if d.intentId == action.intentId then None else Some("Policy decision was bound to the wrong action intent.")
  }

  lemma {:induction false} FirstFaultIs(action: ActionIntent, answers: seq<Answer>, i: nat)
    requires i < |answers| && Unusable(action, answers[i]).Some?
    requires forall j | 0 <= j < i :: Unusable(action, answers[j]).None?
    ensures FirstFault(action, answers) == Fault(action, answers[i])
  {
    if i > 0 { FirstFaultIs(action, answers[1..], i - 1); }
  }

  lemma FaultSettles(action: ActionIntent, contract: ToolContract, answers: seq<Answer>, stamp: Stamp, a: Answer)
    requires Unusable(action, a).Some? && FirstFault(action, answers) == Fault(action, a)
    ensures var d := Settle(action, contract, answers, stamp);
      d.Valid() && Decides(Some(d), action, stamp, Deny, contract.riskLevel, Unusable(action, a).value)
  {
  }

  /** The first unusable answer denies the action at the contract's risk, whatever comes after. */
  lemma UnusableAnswerDenies(action: ActionIntent, contract: ToolContract, ps: seq<Policy>, context: seq<Member>,
                             stamp: Stamp, i: nat)
    requires IsFor(action, contract) && i < |ps|
    requires var answers := AskAll(ps, action, contract, context, stamp);
      Unusable(action, answers[i]).Some? && forall j | 0 <= j < i :: Unusable(action, answers[j]).None?
    ensures Decides(Evaluate(action, Some(contract), ps, context, stamp), action, stamp, Deny, contract.riskLevel,
                    Unusable(action, AskAll(ps, action, contract, context, stamp)[i]).value)
  {
    var answers := AskAll(ps, action, contract, context, stamp);
    FirstFaultIs(action, answers, i);
    FaultSettles(action, contract, answers, stamp, answers[i]);
  }

  // ---------- usable answers ----------

  lemma {:induction false} FirstDenialIs(ds: seq<PolicyDecision>, i: nat)
    requires i < |ds| && ds[i].decisionType.Deny? && forall j | 0 <= j < i :: !ds[j].decisionType.Deny?
    ensures FirstDenial(ds) == Some(ds[i])
  {
    if i > 0 { FirstDenialIs(ds[1..], i - 1); }
  }

  predicate AllUsable(action: ActionIntent, answers: seq<Answer>) {
    forall i | 0 <= i < |answers| :: answers[i].Decided? && answers[i].decision.intentId == action.intentId
  }

  lemma UsableMeans(action: ActionIntent, answers: seq<Answer>)
    requires AllUsable(action, answers)
    ensures FirstFault(action, answers).None?
  {
    FaultIff(action, answers);
  }

  /** The risk is the highest of the contract's and the answers'. */
  predicate HighestRisk(risk: RiskLevel, contract: ToolContract, answers: seq<Answer>) {
    && AtLeast(risk, contract.riskLevel)
    && (forall i | 0 <= i < |answers| :: answers[i].Decided? && AtLeast(risk, answers[i].decision.riskLevel))
    && (risk == contract.riskLevel
        || exists i :: 0 <= i < |answers| && answers[i].Decided? && answers[i].decision.riskLevel == risk)
  }

  lemma RiskIsHighest(action: ActionIntent, contract: ToolContract, answers: seq<Answer>)
    requires AllUsable(action, answers)
    ensures HighestRisk(MaxRisk(contract.riskLevel, Decisions(answers)), contract, answers)
  {
    UsableMeans(action, answers);
    var ds := Decisions(answers);
    DecisionsAre(action, answers);
    MaxRiskIs(contract.riskLevel, ds);
    if MaxRisk(contract.riskLevel, ds) != contract.riskLevel {
      var i :| 0 <= i < |ds| && MaxRisk(contract.riskLevel, ds) == ds[i].riskLevel;
      assert answers[i] == Decided(ds[i]);
    }
  }

  /** The first denial decides, with its own reason and the highest risk of all. */
  lemma FirstDenialDecides(action: ActionIntent, contract: ToolContract, ps: seq<Policy>, context: seq<Member>,
                           stamp: Stamp, i: nat)
    requires IsFor(action, contract) && i < |ps|
    requires var answers := AskAll(ps, action, contract, context, stamp);
      && AllUsable(action, answers) && answers[i].decision.decisionType.Deny?
      && forall j | 0 <= j < i :: !answers[j].decision.decisionType.Deny?
    ensures var answers := AskAll(ps, action, contract, context, stamp);
      var d := Evaluate(action, Some(contract), ps, context, stamp);
      && d.Some? && HighestRisk(d.value.riskLevel, contract, answers)
      && Decides(d, action, stamp, Deny, d.value.riskLevel, answers[i].decision.reason.Text())
  {
    var answers := AskAll(ps, action, contract, context, stamp);
    UsableMeans(action, answers);
    DecisionsAre(action, answers);
    RiskIsHighest(action, contract, answers);
    var ds := Decisions(answers);
    forall j | 0 <= j <= i ensures ds[j] == answers[j].decision { assert answers[j] == Decided(ds[j]); }
    FirstDenialIs(ds, i);
  }

  /** The constraints of the answers that allow with constraints, in the order of the policies. */
  function AllConstraints(answers: seq<Answer>): seq<PolicyConstraint> {
    if answers == [] then []
    else
      var n := |answers| - 1;
      AllConstraints(answers[..n])
      + (if answers[n].Decided? && answers[n].decision.decisionType.AllowWithConstraints?
         then answers[n].decision.constraints else [])
  }

  lemma {:induction false} ConstraintsAre(answers: seq<Answer>)
    ensures Constraints(Decisions(answers)) == AllConstraints(answers)
  {
    if answers != [] {
      var n := |answers| - 1;
      var last := [answers[n]];
      ConstraintsAre(answers[..n]);
      assert answers == answers[..n] + last;
      DecisionsSplit(answers[..n], last);
      ConstraintsSplit(Decisions(answers[..n]), Decisions(last));
      LastConstraints(answers[n]);
    }
  }

  lemma LastConstraints(a: Answer)
    ensures Constraints(Decisions([a]))
         == if a.Decided? && a.decision.decisionType.AllowWithConstraints? then a.decision.constraints else []
  {
    assert [a][1..] == [];
    if a.Decided? {
      assert Decisions([a]) == [a.decision];
      assert [a.decision][1..] == [];
    }
  }

  /** The engine's own reasons. */
  function Sentence(kind: DecisionType): string {
    match kind
    case RequireApproval => "Approval is required before this action may proceed."
    case AllowWithConstraints => "Policies allowed the action with constraints."
    case _ => "Policies allowed the action."
  }

  /** Without a denial: approval is asked for exactly if the highest risk is high or critical or
      some policy asks for it; otherwise the action is allowed, under all the constraints given. */
  lemma NoDenialDecides(action: ActionIntent, contract: ToolContract, ps: seq<Policy>, context: seq<Member>,
                        stamp: Stamp)
    requires IsFor(action, contract) && Evaluate(action, Some(contract), ps, context, stamp).Some?
    requires var answers := AskAll(ps, action, contract, context, stamp);
      AllUsable(action, answers) && forall i | 0 <= i < |answers| :: !answers[i].decision.decisionType.Deny?
    ensures var answers := AskAll(ps, action, contract, context, stamp);
      var d := Evaluate(action, Some(contract), ps, context, stamp).value;
      var asks := d.riskLevel.High? || d.riskLevel.Critical?
                  || exists i :: 0 <= i < |answers| && answers[i].decision.decisionType.RequireApproval?;
      && HighestRisk(d.riskLevel, contract, answers)
      && d.decisionId == stamp.decisionId && d.intentId == action.intentId && d.decidedAt == stamp.decidedAt
      && d.decisionType == (if asks then RequireApproval
                            else if AllConstraints(answers) != [] then AllowWithConstraints
                            else Allow)
      && d.constraints == (if d.decisionType.AllowWithConstraints? then AllConstraints(answers) else [])
      && d.reason.Text() == Sentence(d.decisionType)
  {
    var answers := AskAll(ps, action, contract, context, stamp);
    UsableMeans(action, answers);
    DecisionsAre(action, answers);
    RiskIsHighest(action, contract, answers);
    ConstraintsAre(answers);
    FirstDenialIff(Decisions(answers));
    SameKinds(action, answers);
    NoDenialComposes(action, contract, Decisions(answers), stamp);
  }

  lemma SameKinds(action: ActionIntent, answers: seq<Answer>)
    requires AllUsable(action, answers)
    ensures |Decisions(answers)| == |answers|
    ensures forall i | 0 <= i < |answers| :: Decisions(answers)[i] == answers[i].decision
  {
    UsableMeans(action, answers);
    DecisionsAre(action, answers);
    forall i | 0 <= i < |answers| ensures Decisions(answers)[i] == answers[i].decision {
      assert answers[i] == Decided(Decisions(answers)[i]);
    }
  }

  lemma NoDenialComposes(action: ActionIntent, contract: ToolContract, ds: seq<PolicyDecision>, stamp: Stamp)
    requires FirstDenial(ds).None?
    ensures var d := Compose(action, contract, ds, stamp);
      var asks := d.riskLevel.High? || d.riskLevel.Critical?
                  || exists i :: 0 <= i < |ds| && ds[i].decisionType.RequireApproval?;
      && d.riskLevel == MaxRisk(contract.riskLevel, ds)
      && d.decisionId == stamp.decisionId && d.intentId == action.intentId && d.decidedAt == stamp.decidedAt
      && d.decisionType == (if asks then RequireApproval
                            else if Constraints(ds) != [] then AllowWithConstraints
                            else Allow)
      && d.constraints == (if d.decisionType.AllowWithConstraints? then Constraints(ds) else [])
      && d.reason.Text() == Sentence(d.decisionType)
  {
    RiskOrder(MaxRisk(contract.riskLevel, ds), High);
    ApprovalSentence();
    ConstrainedSentence();
    AllowSentence();
  }

  lemma ApprovalSentence()
    ensures ApprovalNeeded.Text() == Sentence(RequireApproval)
  {
  }

  lemma ConstrainedSentence()
    ensures AllowedConstrained.Text() == Sentence(AllowWithConstraints)
  {
  }

  lemma AllowSentence()
    ensures AllAllowed.Text() == Sentence(Allow)
  {
  }

  // ---------- the built-in policies ----------

  /** A list with a policy that denies the tool denies the action, whatever its other policies. */
  lemma DeniedToolIsDenied(action: ActionIntent, contract: ToolContract, ps: seq<Policy>, context: seq<Member>,
                           stamp: Stamp, i: nat, allowed: Option<set<string>>, denied: set<string>)
    requires IsFor(action, contract) && i < |ps| && ps[i] == ToolAllowDeny(allowed, denied)
    requires contract.name in denied || (allowed.Some? && contract.name !in allowed.value)
    ensures var d := Evaluate(action, Some(contract), ps, context, stamp); d.Some? && d.value.decisionType.Deny?
  {
    var answers := AskAll(ps, action, contract, context, stamp);
    assert answers[i].Decided? && answers[i].decision.decisionType.Deny?;
    AdmittedMeans(action, contract, answers, stamp);
  }

  lemma OneAnswer(p: Policy, action: ActionIntent, contract: ToolContract, context: seq<Member>, stamp: Stamp)
    requires !p.HostPolicy?
    ensures var answers := AskAll([p], action, contract, context, stamp);
      && AllUsable(action, answers) && |answers| == 1 && answers[0] == Ask(p, action, contract, context, stamp)
      && answers[0].decision.riskLevel == contract.riskLevel && AllConstraints(answers) == []
  {
    BuiltInsAreWellBehaved(p, action, contract, context, stamp);
    assert AskAll([p], action, contract, context, stamp)[..0] == [];
  }

  /** One built-in policy alone, below HIGH risk, decides as it answers. */
  lemma AloneDecides(p: Policy, action: ActionIntent, contract: ToolContract, context: seq<Member>, stamp: Stamp)
    requires !p.HostPolicy? && IsFor(action, contract) && BelowHigh(contract)
    ensures var a := Ask(p, action, contract, context, stamp);
      a.Decided?
      && Decides(Evaluate(action, Some(contract), [p], context, stamp), action, stamp,
                 if a.decision.decisionType.AllowWithConstraints? then Allow else a.decision.decisionType,
                 contract.riskLevel,
                 match a.decision.decisionType
                 case Deny => a.decision.reason.Text()
                 case RequireApproval => "Approval is required before this action may proceed."
                 case _ => "Policies allowed the action.")
  {
    var answers := AskAll([p], action, contract, context, stamp);
    OneAnswer(p, action, contract, context, stamp);
    forall i | 0 <= i < |[p]| ensures !([p][i]).HostPolicy? {}
    BuiltInEngine(action, contract, [p], context, stamp);
    if answers[0].decision.decisionType.Deny? {
      FirstDenialDecides(action, contract, [p], context, stamp, 0);
    } else {
      NoDenialDecides(action, contract, [p], context, stamp);
      var d := Evaluate(action, Some(contract), [p], context, stamp).value;
      assert d.riskLevel == contract.riskLevel;
    }
  }

  lemma ToolListsDecide(allowed: Option<set<string>>, denied: set<string>, action: ActionIntent,
                        contract: ToolContract, context: seq<Member>, stamp: Stamp)
    requires IsFor(action, contract) && BelowHigh(contract)
    ensures var name := contract.name;
      var d := Evaluate(action, Some(contract), [ToolAllowDeny(allowed, denied)], context, stamp);
      if name in denied then
        Decides(d, action, stamp, Deny, contract.riskLevel, "Tool denied by policy: " + name + ".")
      else if allowed.Some? && name !in allowed.value then
        Decides(d, action, stamp, Deny, contract.riskLevel, "Tool is not in the allow list: " + name + ".")
      else Decides(d, action, stamp, Allow, contract.riskLevel, "Policies allowed the action.")
  {
    AloneDecides(ToolAllowDeny(allowed, denied), action, contract, context, stamp);
  }

  /** Approval is asked for exactly from the minimum risk on. */
  lemma RiskDecides(minimum: RiskLevel, action: ActionIntent, contract: ToolContract, context: seq<Member>,
                    stamp: Stamp)
    requires IsFor(action, contract) && BelowHigh(contract)
    ensures var d := Evaluate(action, Some(contract), [RiskApproval(minimum)], context, stamp);
      if AtLeast(contract.riskLevel, minimum) then
        Decides(d, action, stamp, RequireApproval, contract.riskLevel,
                "Approval is required before this action may proceed.")
      else Decides(d, action, stamp, Allow, contract.riskLevel, "Policies allowed the action.")
  {
    RiskOrder(contract.riskLevel, minimum);
    AloneDecides(RiskApproval(minimum), action, contract, context, stamp);
  }

  /** From HIGH risk on, approval is asked for whatever the built-in policies say, unless one denies. */
  lemma HighRiskNeedsApproval(action: ActionIntent, contract: ToolContract, ps: seq<Policy>, context: seq<Member>,
                              stamp: Stamp)
    requires IsFor(action, contract) && !BelowHigh(contract)
    requires forall i | 0 <= i < |ps| :: !ps[i].HostPolicy?
    ensures var d := Evaluate(action, Some(contract), ps, context, stamp);
      d.Some? && (d.value.decisionType.RequireApproval? || d.value.decisionType.Deny?)
  {
    BuiltInEngine(action, contract, ps, context, stamp);
    AdmittedMeans(action, contract, AskAll(ps, action, contract, context, stamp), stamp);
  }

  // ---------- permissions ----------

  /** The context lists its permissions, as texts. */
  predicate ListsPermissions(context: seq<Member>) {
    match Get(context, "permissions")
    case Some(Arr(items)) => forall i | 0 <= i < |items| :: items[i].Str?
    case _ => false
  }

  predicate Holds(context: seq<Member>, permission: string) {
    match Get(context, "permissions") case Some(Arr(items)) => Str(permission) in items case _ => false
  }

  function Lacking(context: seq<Member>, needed: seq<string>): seq<string> {
    if needed == [] then []
    else
      var n := |needed| - 1;
      Lacking(context, needed[..n]) + (if Holds(context, needed[n]) then [] else [needed[n]])
  }

  lemma PermissionSet(context: seq<Member>)
    ensures StringSet(Get(context, "permissions")).Some? <==> ListsPermissions(context)
    ensures ListsPermissions(context) ==>
      forall p :: p in StringSet(Get(context, "permissions")).value <==> Holds(context, p)
  {
    if ListsPermissions(context) {
      var items := Get(context, "permissions").value.items;
      forall p ensures p in StringSet(Get(context, "permissions")).value <==> Str(p) in items {
        if Str(p) in items { assert Str(p).s == p; }
      }
    }
  }

  lemma {:induction false} MissingOneMore(required: seq<string>, last: string, held: set<string>)
    ensures Missing(required + [last], held) == Missing(required, held) + (if last in held then [] else [last])
  {
    if required == [] {
      assert ([] + [last])[1..] == [];
    } else {
      MissingOneMore(required[1..], last, held);
      assert (required + [last])[1..] == required[1..] + [last];
    }
  }

  lemma {:induction false} MissingIsLacking(context: seq<Member>, needed: seq<string>, held: set<string>)
    requires forall p :: p in held <==> Holds(context, p)
    ensures Missing(needed, held) == Lacking(context, needed)
  {
    if needed != [] {
      var n := |needed| - 1;
      MissingIsLacking(context, needed[..n], held);
      MissingOneMore(needed[..n], needed[n], held);
      assert needed[..n] + [needed[n]] == needed;
    }
  }

  lemma {:induction false} NothingLacking(context: seq<Member>, needed: seq<string>)
    ensures Lacking(context, needed) == [] <==> forall p | p in needed :: Holds(context, p)
  {
    if needed != [] {
      var n := |needed| - 1;
      NothingLacking(context, needed[..n]);
      assert needed == needed[..n] + [needed[n]];
    }
  }

  /** A tool that requires permissions is allowed exactly if the context lists its permissions as
      texts and every required one is among them; what is lacking is named. */
  lemma PermissionsDecide(required: map<string, seq<string>>, action: ActionIntent, contract: ToolContract,
                          context: seq<Member>, stamp: Stamp)
    requires IsFor(action, contract) && BelowHigh(contract)
    ensures var needed := if contract.name in required then required[contract.name] else [];
      var d := Evaluate(action, Some(contract), [RequiredPermission(required)], context, stamp);
      if needed == [] || (ListsPermissions(context) && forall p | p in needed :: Holds(context, p)) then
        Decides(d, action, stamp, Allow, contract.riskLevel, "Policies allowed the action.")
      else if !ListsPermissions(context) then
        Decides(d, action, stamp, Deny, contract.riskLevel,
                "Trusted context does not contain a valid permissions list.")
      else
        Decides(d, action, stamp, Deny, contract.riskLevel,
                "Missing required permissions: " + Join(Lacking(context, needed)) + ".")
  {
    var needed := if contract.name in required then required[contract.name] else [];
    PermissionSet(context);
    if ListsPermissions(context) {
      MissingIsLacking(context, needed, StringSet(Get(context, "permissions")).value);
      NothingLacking(context, needed);
    }
    AloneDecides(RequiredPermission(required), action, contract, context, stamp);
  }

  /** Names are joined by commas. */
  lemma JoinSpelled(a: string, b: string, rest: seq<string>)
    ensures Join([a]) == a && Join([a, b] + rest) == a + ", " + Join([b] + rest)
  {
    assert ([a, b] + rest)[1..] == [b] + rest;
  }

  // ---------- thresholds ----------

  predicate Concerns(tools: Option<set<string>>, contract: ToolContract) {
    tools.None? || contract.name in tools.value
  }

  lemma ThresholdAnswers(field: string, threshold: FloatText, tools: Option<set<string>>, action: ActionIntent,
                         contract: ToolContract, context: seq<Member>, stamp: Stamp)
    requires IsFor(action, contract)
    ensures var a := Ask(NumericThreshold(field, threshold, tools), action, contract, context, stamp);
      var given := Get(action.arguments, field);
      a.Decided?
      && if !Concerns(tools, contract) then a.decision.decisionType.Allow?
         else if given.None? || !IsNumber(given.value) then
           a.decision.decisionType.Deny? && a.decision.reason == NotANumber(field)
         else if NumberLess(Float(threshold), given.value) then a.decision.decisionType.RequireApproval?
         else a.decision.decisionType.Allow?
  {
  }

  /** Numbers exceed a threshold as reals; positive infinity does, the other two do not. */
  predicate Exceeds(v: Value, threshold: FloatText) {
    match v
    case Int(n) => n as real > NumeralValue(threshold)
    case Float(t) => NumeralValue(t) > NumeralValue(threshold)
    case NonFinite(kind) => kind.PosInf?
    case _ => false
  }

  lemma ExceedsMeans(v: Value, threshold: FloatText)
    requires IsNumber(v)
    ensures NumberLess(Float(threshold), v) <==> Exceeds(v, threshold)
  {
  }

  /** Without a number under the field the action is denied; with an integer, approval is asked
      for exactly if it exceeds the threshold. */
  lemma ThresholdDecides(field: string, threshold: FloatText, tools: Option<set<string>>, action: ActionIntent,
                         contract: ToolContract, context: seq<Member>, stamp: Stamp)
    requires IsFor(action, contract) && BelowHigh(contract)
    ensures var d := Evaluate(action, Some(contract), [NumericThreshold(field, threshold, tools)], context, stamp);
      var given := Get(action.arguments, field);
      if !Concerns(tools, contract) then
        Decides(d, action, stamp, Allow, contract.riskLevel, "Policies allowed the action.")
      else if given.None? || !(given.value.Int? || given.value.Float? || given.value.NonFinite?) then
        Decides(d, action, stamp, Deny, contract.riskLevel, "Argument is not a valid number: " + field + ".")
      else if Exceeds(given.value, threshold) then
        Decides(d, action, stamp, RequireApproval, contract.riskLevel,
                "Approval is required before this action may proceed.")
      else Decides(d, action, stamp, Allow, contract.riskLevel, "Policies allowed the action.")
  {
    var given := Get(action.arguments, field);
    if given.Some? && IsNumber(given.value) { ExceedsMeans(given.value, threshold); }
    ThresholdAnswers(field, threshold, tools, action, contract, context, stamp);
    AloneDecides(NumericThreshold(field, threshold, tools), action, contract, context, stamp);
  }

  /** Why a built-in policy itself allows or asks, which the engine does not pass on; */
  lemma OwnReasons(p: Policy, action: ActionIntent, contract: ToolContract, context: seq<Member>, stamp: Stamp)
    requires !p.HostPolicy?
    ensures var a := Ask(p, action, contract, context, stamp);
      && a.Decided?
      && (a.decision.decisionType.Allow? ==> a.decision.reason.AllowedByPolicy?)
      && (a.decision.decisionType.RequireApproval? ==>
            if p.NumericThreshold? then a.decision.reason == OverThreshold(p.field)
            else a.decision.reason == RiskNeedsApproval(contract.riskLevel))
  {
  }

  /** and in what words. */
  lemma OwnSentences(risk: RiskLevel, field: string)
    ensures AllowedByPolicy.Text() == "Policy allowed the action."
    ensures OverThreshold(field).Text() == "Argument exceeds approval threshold: " + field + "."
    ensures RiskNeedsApproval(risk).Text()
         == "Risk level requires approval: "
            + (match risk case Low => "low" case Medium => "medium" case High => "high" case Critical => "critical")
            + "."
  {
  }

  /** Against a whole threshold such as "100.0", integers compare as integers. */
  lemma WholeThreshold(n: int, k: int)
    requires IsFloatText(IntText(k) + ".0")
    ensures Exceeds(Int(n), IntText(k) + ".0") <==> n > k
  {
    WholeNumerals(k);
  }
}
