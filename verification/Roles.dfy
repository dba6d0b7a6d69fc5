/** The agent roles of the pipeline (llm/roles.py). */
module Roles {
  datatype AgentRole =
    | Planner | ResearcherWide | ResearcherDeep | Synthesizer | Writer
    | CriticSection | CriticFinal | JudgeDefault | JudgeFinal | LiteWorker
}
