/** internal/enforce: the per-request guard and the tier decision. */
module Enforce {
  import opened Options
  import opened Accounts
  import opened Configs

  datatype Action = Allow | Throttle | Kill

  datatype Reason =
    | IdentityMissing | PolicyNotFound | GuardMaxTokens
    | BudgetExhaustedThrottle | BudgetExhaustedKill | BudgetConfigError | SystemDegraded

  datatype Decision = Decision(action: Action, tier: nat, reason: Option<Reason>, retryAfter: int)

  function Evaluate(p: Policy, bs: BudgetStatus): Decision {
    if bs.used <= bs.limit then Decision(Allow, 0, None, 0)
    else if p.tier3Action == "kill_workload" then Decision(Kill, 3, Some(BudgetExhaustedKill), 0)
    else Decision(Throttle, 1, Some(BudgetExhaustedThrottle), p.windowSeconds / 2)
  }

  /** A decision only when a configured guard is exceeded. */
  function CheckPerRequestGuard(p: Policy, requestMaxTokens: int): Option<Decision> {
    if p.maxTokensPerRequest <= 0 || requestMaxTokens <= p.maxTokensPerRequest then None
    else Some(Decision(Throttle, 1, Some(GuardMaxTokens), 0))
  }

  /** Every part of a decision that refuses: kill is tier 3 and final; throttle is tier 1 and asks to
  come back after half the window, rounded down. */
  lemma DecisionRule(p: Policy, bs: BudgetStatus)
    ensures
      var d := Evaluate(p, bs);
      && (d.action == Allow <==> bs.used <= bs.limit) && (d.action == Allow <==> d.reason.None?)
      && (d.action == Kill ==> d.tier == 3 && d.retryAfter == 0 && p.tier3Action == "kill_workload")
      && (d.action == Throttle ==>
            d.tier == 1 && p.windowSeconds - 1 <= 2 * d.retryAfter <= p.windowSeconds && p.tier3Action != "kill_workload")
  {
  }

  function HttpStatus(a: Action): int {
    match a
    case Allow => 200
    case Throttle => 429
    case Kill => 503
  }
}
