/** Tool contracts and action intents. */
module Contracts {
  import opened Json

  datatype RiskLevel = Low | Medium | High | Critical
  {
    function Rank(): nat { match this case Low => 0 case Medium => 1 case High => 2 case Critical => 3 }

    function Text(): string {
      match this case Low => "low" case Medium => "medium" case High => "high" case Critical => "critical"
    }
  }

  datatype EffectType = ReadOnly | Idempotent | Reversible | Compensatable | Stageable | Irreversible

  datatype ToolContract = ToolContract(
    contractId: string, name: string, version: string, effectType: EffectType, riskLevel: RiskLevel,
    inputSchema: seq<Member>, outputSchema: seq<Member>, idempotencyKeyRequired: bool)

  datatype ActionIntent = ActionIntent(
    intentId: string, contractId: string, toolName: string, contractVersion: string,
    arguments: seq<Member>, idempotencyKey: Option<string>)

  predicate Matches(action: ActionIntent, contract: ToolContract) {
    && action.contractId == contract.contractId
    && action.toolName == contract.name
    && action.contractVersion == contract.version
  }

  /** Tools by name; a name is registered once. */
  class ToolRegistry {
    var tools: map<string, ToolContract>

    constructor ()
      ensures tools == map[]
    {
      tools := map[];
    }

    method Register(contract: ToolContract) returns (added: bool)
      modifies this
      ensures added == (contract.name !in old(tools))
      ensures tools == if added then old(tools)[contract.name := contract] else old(tools)
    {
      added := contract.name !in tools;
      if added { tools := tools[contract.name := contract]; }
    }
  }
}
