/** Fail-closed composition of policy decisions. */
module Policies {
  import opened Json
  import opened Contracts

  datatype DecisionType = Allow | AllowWithConstraints | RequireApproval | Deny
  {
    /** Strictness: a later constructor is a stricter control. */
    function Rank(): nat {
      match this case Allow => 0 case AllowWithConstraints => 1 case RequireApproval => 2 case Deny => 3
    }
  }

  datatype PolicyConstraint = PolicyConstraint(name: string, parameters: seq<Member>)

  predicate DistinctNames(cs: seq<PolicyConstraint>) { forall i, j | 0 <= i < j < |cs| :: cs[i].name != cs[j].name }

  /** Why a decision was made; `Text` is the sentence recorded with it. */
  datatype Reason =
    | ToolDenied(tool: string)
    | NotInAllowList(tool: string)
    | NoPermissionsList
    | MissingPermissions(names: seq<string>)
    | RiskNeedsApproval(risk: RiskLevel)
    | NotANumber(field: string)
    | OverThreshold(field: string)
    | AllowedByPolicy
    | UnknownTool(tool: string)
    | ContractMismatch
    | EvaluationFailed
    | InvalidDecision
    | WrongIntent
    | ApprovalNeeded
    | AllowedConstrained
    | AllAllowed
    | HostReason(text: string)
  {
    function Text(): string {
      match this
      case ToolDenied(tool) => "Tool denied by policy: " + tool + "."
      case NotInAllowList(tool) => "Tool is not in the allow list: " + tool + "."
      case NoPermissionsList => "Trusted context does not contain a valid permissions list."
      case MissingPermissions(names) => "Missing required permissions: " + Join(names) + "."
      case RiskNeedsApproval(risk) => "Risk level requires approval: " + risk.Text() + "."
      case NotANumber(field) => "Argument is not a valid number: " + field + "."
      case OverThreshold(field) => "Argument exceeds approval threshold: " + field + "."
      case AllowedByPolicy => "Policy allowed the action."
      case UnknownTool(tool) => "Unknown tool denied: " + tool + "."
      case ContractMismatch => "Action intent does not match the supplied contract."
      case EvaluationFailed => "Policy evaluation failed closed."
      case InvalidDecision => "Policy returned an invalid decision."
      case WrongIntent => "Policy decision was bound to the wrong action intent."
      case ApprovalNeeded => "Approval is required before this action may proceed."
      case AllowedConstrained => "Policies allowed the action with constraints."
      case AllAllowed => "Policies allowed the action."
      case HostReason(text) => text
    }
  }

  function Join(names: seq<string>): string {
    if names == [] then "" else if |names| == 1 then names[0] else names[0] + ", " + Join(names[1..])
  }

  datatype Decision = Decision(
    decisionId: string, intentId: string, decisionType: DecisionType, riskLevel: RiskLevel,
    reason: Reason, decidedAt: int, constraints: seq<PolicyConstraint>)
  {
    predicate Valid() {
      && (decisionType.AllowWithConstraints? <==> constraints != [])
      && DistinctNames(constraints)
    }
  }

  /** A decision that passed its model validator; every decision object has. */
  type PolicyDecision = d: Decision | d.Valid()
    witness Decision("", "", Allow, Low, AllAllowed, 0, [])

  /** What asking one policy gives: an exception, something that is not a decision, or a decision. */
  datatype Answer = Raised | NotADecision | Decided(decision: PolicyDecision)

  /** The identifier and time the engine puts on the decisions it builds. */
  datatype Stamp = Stamp(decisionId: string, decidedAt: int)

  // ---------- policies ----------

  datatype Policy =
    | ToolAllowDeny(allowed: Option<set<string>>, denied: set<string>)
      // each tool's permissions are listed once, in ascending order
    | RequiredPermission(required: map<string, seq<string>>)
    | RiskApproval(minimumRisk: RiskLevel)
    | NumericThreshold(field: string, threshold: FloatText, tools: Option<set<string>>)
      // any other policy of the host, by the answer it gives to this request
    | HostPolicy(answer: Answer)

  function Draft(action: ActionIntent, kind: DecisionType, risk: RiskLevel, reason: Reason,
                 constraints: seq<PolicyConstraint>, stamp: Stamp): Decision {
    Decision(stamp.decisionId, action.intentId, kind, risk, reason, stamp.decidedAt, constraints)
  }

  function Plain(action: ActionIntent, kind: DecisionType, risk: RiskLevel, reason: Reason, stamp: Stamp)
    : PolicyDecision
    requires !kind.AllowWithConstraints?
  {
    Draft(action, kind, risk, reason, [], stamp)
  }

  function Allowed(action: ActionIntent, contract: ToolContract, stamp: Stamp): PolicyDecision {
    Plain(action, Allow, contract.riskLevel, AllowedByPolicy, stamp)
  }

  predicate RiskAtLeast(actual: RiskLevel, minimum: RiskLevel) { actual.Rank() >= minimum.Rank() }

  function StringSet(v: Option<Value>): Option<set<string>> {
    match v
    case Some(Arr(items)) =>
      if forall i | 0 <= i < |items| :: items[i].Str? then Some(set x | x in items && x.Str? :: x.s) else None
    case _ => None
  }

  function Missing(required: seq<string>, permissions: set<string>): seq<string> {
    if required == [] then []
    else (if required[0] in permissions then [] else [required[0]]) + Missing(required[1..], permissions)
  }

  /** The policy's `evaluate`. */
  function Ask(p: Policy, action: ActionIntent, contract: ToolContract, context: seq<Member>, stamp: Stamp): Answer {
    var risk := contract.riskLevel;
    match p
    case ToolAllowDeny(allowed, denied) =>
      if action.toolName in denied then
        Decided(Plain(action, Deny, risk, ToolDenied(action.toolName), stamp))
      else if allowed.Some? && action.toolName !in allowed.value then
        Decided(Plain(action, Deny, risk, NotInAllowList(action.toolName), stamp))
      else Decided(Allowed(action, contract, stamp))
    case RequiredPermission(required) =>
      var needed := if action.toolName in required then required[action.toolName] else [];
      if needed == [] then Decided(Allowed(action, contract, stamp))
      else
        (match StringSet(Get(context, "permissions"))
         case None => Decided(Plain(action, Deny, risk, NoPermissionsList, stamp))
         case Some(permissions) =>
           if Missing(needed, permissions) != [] then
             Decided(Plain(action, Deny, risk, MissingPermissions(Missing(needed, permissions)), stamp))
           else Decided(Allowed(action, contract, stamp)))
    case RiskApproval(minimum) =>
      if RiskAtLeast(risk, minimum) then
        Decided(Plain(action, RequireApproval, risk, RiskNeedsApproval(risk), stamp))
      else Decided(Allowed(action, contract, stamp))
    case NumericThreshold(field, threshold, tools) =>
      if tools.Some? && action.toolName !in tools.value then Decided(Allowed(action, contract, stamp))
      else
        (match Get(action.arguments, field)
         case Some(v) =>
           if !IsNumber(v) then Decided(Plain(action, Deny, risk, NotANumber(field), stamp))
           else if NumberLess(Float(threshold), v) then
             Decided(Plain(action, RequireApproval, risk, OverThreshold(field), stamp))
           else Decided(Allowed(action, contract, stamp))
         case None => Decided(Plain(action, Deny, risk, NotANumber(field), stamp)))
    case HostPolicy(answer) => answer
  }

  function AskAll(ps: seq<Policy>, action: ActionIntent, contract: ToolContract, context: seq<Member>,
                  stamp: Stamp): seq<Answer> {
    seq(|ps|, i requires 0 <= i < |ps| => Ask(ps[i], action, contract, context, stamp))
  }

  // ---------- the engine ----------

  /** The reason the engine denies without composing, if an answer is unusable. */
  function Fault(action: ActionIntent, a: Answer): Option<Reason> {
    match a
    case Raised => Some(EvaluationFailed)
    case NotADecision => Some(InvalidDecision)
    case Decided(d) => if d.intentId != action.intentId then Some(WrongIntent) else None
  }

  function FirstFault(action: ActionIntent, answers: seq<Answer>): Option<Reason> {
    if answers == [] then None
    else if Fault(action, answers[0]).Some? then Fault(action, answers[0])
    else FirstFault(action, answers[1..])
  }

  function Decisions(answers: seq<Answer>): seq<PolicyDecision> {
    if answers == [] then []
    else (if answers[0].Decided? then [answers[0].decision] else []) + Decisions(answers[1..])
  }

  function MaxRisk(floor: RiskLevel, ds: seq<PolicyDecision>): RiskLevel {
    if ds == [] then floor
    else
      var rest := MaxRisk(floor, ds[1..]);
      if ds[0].riskLevel.Rank() > rest.Rank() then ds[0].riskLevel else rest
  }

  function Constraints(ds: seq<PolicyDecision>): seq<PolicyConstraint> {
    if ds == [] then []
    else (if ds[0].decisionType.AllowWithConstraints? then ds[0].constraints else []) + Constraints(ds[1..])
  }

  function FirstDenial(ds: seq<PolicyDecision>): Option<PolicyDecision> {
    if ds == [] then None else if ds[0].decisionType.Deny? then Some(ds[0]) else FirstDenial(ds[1..])
  }

  /** The decision `_compose` tries to build; building it fails when it is not valid. */
  function Compose(action: ActionIntent, contract: ToolContract, ds: seq<PolicyDecision>, stamp: Stamp): Decision {
    var risk := MaxRisk(contract.riskLevel, ds);
    var constraints := Constraints(ds);
    match FirstDenial(ds)
    case Some(d) => Draft(action, Deny, risk, d.reason, [], stamp)
    case None =>
      if RiskAtLeast(risk, High) || exists i | 0 <= i < |ds| :: ds[i].decisionType.RequireApproval? then
        Draft(action, RequireApproval, risk, ApprovalNeeded, [], stamp)
      else if constraints != [] then
        Draft(action, AllowWithConstraints, risk, AllowedConstrained, constraints, stamp)
      else
        Draft(action, Allow, risk, AllAllowed, [], stamp)
  }

  /** The decision the engine builds from the answers of its policies. */
  function Settle(action: ActionIntent, contract: ToolContract, answers: seq<Answer>, stamp: Stamp): Decision {
    match FirstFault(action, answers)
    case Some(reason) => Draft(action, Deny, contract.riskLevel, reason, [], stamp)
    case None => Compose(action, contract, Decisions(answers), stamp)
  }

  /** `PolicyEngine.evaluate`; `None` when building the decision raises. */
  function Evaluate(action: ActionIntent, contract: Option<ToolContract>, ps: seq<Policy>, context: seq<Member>,
                    stamp: Stamp)
    : Option<PolicyDecision>
  {
    match contract
    case None =>
      Some(Plain(action, Deny, Critical, UnknownTool(action.toolName), stamp))
    case Some(c) =>
      if !Matches(action, c) then
        Some(Plain(action, Deny, c.riskLevel, ContractMismatch, stamp))
      else
        var d := Settle(action, c, AskAll(ps, action, c, context, stamp), stamp);
        if d.Valid() then Some(d) else None
  }

  class PolicyEngine {
    const policies: seq<Policy>

    constructor (ps: seq<Policy>)
      ensures policies == ps
    {
      policies := ps;
    }

    method Run(action: ActionIntent, contract: Option<ToolContract>, context: seq<Member>, stamp: Stamp)
      returns (r: Option<PolicyDecision>)
      ensures r == Evaluate(action, contract, policies, context, stamp)
    {
      if contract.None? { return Some(Plain(action, Deny, Critical, UnknownTool(action.toolName), stamp)); }
      var c := contract.value;
      if !Matches(action, c) { return Some(Plain(action, Deny, c.riskLevel, ContractMismatch, stamp)); }
      ghost var answers := AskAll(policies, action, c, context, stamp);
      var decisions: seq<PolicyDecision> := [];
      for i := 0 to |policies|
        invariant FirstFault(action, answers[..i]).None?
        invariant decisions == Decisions(answers[..i])
      {
        var answer := Ask(policies[i], action, c, context, stamp);
        assert answer == answers[i];
        var fault := Fault(action, answer);
        if fault.Some? {
          FaultFound(action, answers, i);
          return Some(Plain(action, Deny, c.riskLevel, fault.value, stamp));
        }
        Snoc(action, answers, i);
        decisions := decisions + [answer.decision];
      }
      assert answers[..|policies|] == answers;
      var d := Compose(action, c, decisions, stamp);
      r := if d.Valid() then Some(d) else None;
    }
  }

  lemma {:induction false} FaultFound(action: ActionIntent, answers: seq<Answer>, i: nat)
    requires i < |answers| && FirstFault(action, answers[..i]).None? && Fault(action, answers[i]).Some?
    ensures FirstFault(action, answers) == Fault(action, answers[i])
  {
    if i > 0 {
      assert answers[..i][1..] == answers[1..][..i - 1];
      FaultFound(action, answers[1..], i - 1);
    }
  }

  lemma {:induction false} Snoc(action: ActionIntent, answers: seq<Answer>, i: nat)
    requires i < |answers|
    ensures FirstFault(action, answers[..i]).None? && Fault(action, answers[i]).None? ==>
              FirstFault(action, answers[..i + 1]).None?
    ensures answers[i].Decided? ==> Decisions(answers[..i + 1]) == Decisions(answers[..i]) + [answers[i].decision]
  {
    if i > 0 {
      Snoc(action, answers[1..], i - 1);
      assert answers[..i][1..] == answers[1..][..i - 1] && answers[..i + 1][1..] == answers[1..][..i];
    } else {
      assert answers[..1] == [answers[0]];
    }
  }
}
