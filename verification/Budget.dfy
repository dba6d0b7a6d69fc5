/** Per-role input-token budgets (runtime/budget.py). */
module Budget {
  import opened Prelude
  import opened Roles

  datatype OverflowFallback =
    | NoFallback | SnippetOnly | SectionBatching | TopK | ClaimByClaim | AggregateFinal | SectionBatchedFallback

  datatype BudgetSpec = BudgetSpec(maxInputTokens: nat, reservedOutputTokens: nat, fallback: OverflowFallback)

  function BudgetOf(role: AgentRole): BudgetSpec {
    match role
    case Planner => BudgetSpec(8000, 2000, NoFallback)
    case ResearcherWide => BudgetSpec(24000, 4000, SnippetOnly)
    case ResearcherDeep => BudgetSpec(160000, 16000, SectionBatching)
    case Synthesizer => BudgetSpec(96000, 16000, TopK)
    case Writer => BudgetSpec(160000, 16000, SectionBatching)
    case CriticSection => BudgetSpec(96000, 8000, ClaimByClaim)
    case CriticFinal => BudgetSpec(160000, 16000, SectionBatching)
    case JudgeDefault => BudgetSpec(220000, 16000, SectionBatchedFallback)
    case JudgeFinal => BudgetSpec(96000, 8000, AggregateFinal)
    case LiteWorker => BudgetSpec(8000, 2000, NoFallback)
  }

  datatype RoleUsage = RoleUsage(inputTokens: int, outputTokens: int, overflows: nat)

  class BudgetManager {
    var usage: map<AgentRole, RoleUsage>

    constructor ()
      ensures usage == map[] && forall role :: UsageOf(role) == RoleUsage(0, 0, 0)
    { usage := map[]; }

    /** The defaultdict's view of a role. */
    function UsageOf(role: AgentRole): RoleUsage
      reads this
    {
      if role in usage then usage[role] else RoleUsage(0, 0, 0)
    }

    /** The budget in force, or None for BudgetExceeded; an overflow is counted. */
    method Check(role: AgentRole, projected: int) returns (r: Option<BudgetSpec>)
      modifies this
      ensures r == if projected > BudgetOf(role).maxInputTokens then None else Some(BudgetOf(role))
      ensures UsageOf(role) == old(UsageOf(role)).(overflows := old(UsageOf(role)).overflows + if r.None? then 1 else 0)
      ensures forall other :: other != role ==> UsageOf(other) == old(UsageOf(other))
    {
      var spec := BudgetOf(role);
      if projected > spec.maxInputTokens {
        var u := UsageOf(role);
        usage := usage[role := u.(overflows := u.overflows + 1)];
        return None;
      }
      r := Some(spec);
    }

    method RecordUsage(role: AgentRole, input: int, output: int)
      modifies this
      ensures UsageOf(role) == RoleUsage(old(UsageOf(role)).inputTokens + input,
                                         old(UsageOf(role)).outputTokens + output, old(UsageOf(role)).overflows)
      ensures forall other :: other != role ==> UsageOf(other) == old(UsageOf(other))
    {
      var u := UsageOf(role);
      usage := usage[role := RoleUsage(u.inputTokens + input, u.outputTokens + output, u.overflows)];
    }
  }
}
