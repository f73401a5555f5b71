/** The tunables of config.py at their defaults (each can be overridden by
    an environment variable, which is not modelled). */
module Config {
  const DefaultMaxPages: int := 20
  const MaxLinksPerPage: int := 50
  const ScoreDeductionPerIssue: int := 15
  const SecurityDeductionPerIssue: int := 15
  const PerfDeductionPerIssue: int := 15
  const SeoDeductionPerIssue: int := 10
  const AccDeductionPerIssue: int := 12
  const MobDeductionPerIssue: int := 15
  const RenderDeductionHigh: int := 20
  const RenderDeductionMedium: int := 10
  const RenderDeductionLow: int := 5
  const JobTtlSeconds: int := 3600

  /** Statuses that a server may send to a HEAD request from a script while
      the page itself is fine; a GET decides. */
  const FalsePositiveCodes: set<int> := {403, 405, 406, 429, 503}
}
