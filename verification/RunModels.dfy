/** Which model each role of a run is given. */
module RunModels {
  import opened Text
  import opened ModelRegistry
  import opened Strategy
  import opened FallbackWalk
  import opened AgentState
  import opened RunMachine

  function Either(a: string, b: string): string {
    if IsBlank(a) then b else a
  }

  /** The id wanted for a call of the planner, the coder or the critic. */
  predicate WantedFor(c: Config, cfg: StrategyConfig, job: Job, id: string) {
    match job
    case PlanJob => Wanted(cfg, "planner", Either(c.req.plannerModel, c.req.model), id)
    case CodeJob => Wanted(cfg, "coder", c.req.model, id)
    case ReflectJob(_, _) => Wanted(cfg, "critic", Either(c.req.criticModel, c.req.model), id)
  }

  lemma RoleNames()
    ensures ToLower(TrimSpace("planner")) == "planner"
    ensures ToLower(TrimSpace("coder")) == "coder"
    ensures ToLower(TrimSpace("critic")) == "critic"
  {
    assert TrimSpace("planner") == "planner" && TrimSpace("coder") == "coder" && TrimSpace("critic") == "critic";
  }

  lemma WantedBySelection(c: Config, cfg: StrategyConfig, job: Job, id: string)
    requires WantedFor(c, cfg, job, id)
    ensures Wanted(cfg, ToLower(TrimSpace(RoleOf(job))), FirstNonEmpty([OverrideOf(job, c.req)]), id)
  {
    hide IsBlank, TrimSpace, ToLower;
    RoleNames();
    EmptyIsBlank();
    var given := match job
                 case PlanJob => [c.req.plannerModel, c.req.model]
                 case CodeJob => [c.req.model]
                 case ReflectJob(_, _) => [c.req.criticModel, c.req.model];
    assert OverrideOf(job, c.req) == FirstNonEmpty(given);
    assert FirstNonEmpty([OverrideOf(job, c.req)]) == OverrideOf(job, c.req);
  }

  /** A call in a role, budget left: if the wanted id is registered, the model selected first is the one of that id,
      recorded under the role's name and with its flag. */
  lemma RolesGetTheirModels(c: Config, s: Run, job: Job, id: string)
    requires c.strategy.Some? && c.strategy.value.registry.Some?
    requires var e := c.strategy.value;
             && (e.cfg.maxExpensive <= 0 || s.used < e.cfg.maxExpensive)
             && e.registry.value.Named() && e.registry.value.Resolvable(id) && id != ""
             && WantedFor(c, e.cfg, job, id)
    ensures var r, k := RoleCall(c, s, job).0, c.strategy.value.registry.value;
            var role := match job case PlanJob => "planner" case CodeJob => "coder" case ReflectJob(_, _) => "critic";
            && s.usages < r.usages
            && r.usages[|s.usages|] == Usage(role, id, k.IsExpensive(id))
  {
    hide Perform, Fallback, Wanted, OverrideOf, FirstNonEmpty, Unbudgeted, TrimSpace, ToLower, WantedFor;
    var e := c.strategy.value;
    var override := FirstNonEmpty([OverrideOf(job, c.req)]);
    WantedBySelection(c, e.cfg, job, id);
    RoleGetsItsModel(e, RoleOf(job), override, id);
    assert Budgeted(e, RoleOf(job), override, s.used) == Unbudgeted(e, RoleOf(job), override);
  }
}
