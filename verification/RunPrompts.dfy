/** What a run sends to the models: every prompt, from the sessions at the start and the provider calls before it. */
module RunPrompts {
  import opened Outcomes
  import opened Text
  import opened Strategy
  import opened FallbackWalk
  import opened AgentState
  import opened RunMachine
  import opened RunAccounts
  import C = Conversation

  function MatterOf(c: Config): C.Matter {
    C.Matter(c.oracle, c.agent.systemPrompt, c.req.prompt, c.context)
  }

  lemma PerformTold(c: Config, d: Desk, job: Job, model: string)
    ensures C.Told(MatterOf(c), d, Perform(c, d, job, model).0)
  {
    hide PlanCall, RunCall, ReflectCall, C.Told;
    var t, req := MatterOf(c), Request(c.req.sessionId, model, c.req.prompt, c.context);
    match job
    case PlanJob => C.PlanTold(t, c.agent, d, OuterPlan, req);
    case CodeJob => C.RunTold(t, c.agent, d, req);
    case ReflectJob(last, context) => C.ReflectTold(t, c.agent, d, req.(context := []), last, context);
  }

  lemma RoleCallTold(c: Config, d0: Desk, s: Run, job: Job)
    requires C.Told(MatterOf(c), d0, s.desk)
    ensures C.Told(MatterOf(c), d0, RoleCall(c, s, job).0.desk)
  {
    hide Perform, Select, Fallback, C.Told;
    var t, role := MatterOf(c), RoleOf(job);
    var sel := Select(c.strategy, role, OverrideOf(job, c.req), s.used);
    var d1 := Perform(c, s.desk, job, sel.model).0;
    PerformTold(c, s.desk, job, sel.model);
    C.ToldTransitive(t, d0, s.desk, d1);
    var verdict := Fallback(c, role, sel.model, Account(s, sel.usage).used);
    if verdict.Picked? {
      PerformTold(c, d1, job, verdict.usage.model);
      C.ToldTransitive(t, d0, d1, Perform(c, d1, job, verdict.usage.model).0);
    }
  }

  lemma ToldIgnoresTicks(t: C.Matter, d0: Desk, d: Desk, tick: nat)
    requires C.Told(t, d0, d)
    ensures C.Told(t, d0, d.(tick := tick))
  {
    hide C.After, C.SessionOf, C.FitsAt;
  }

  /** Over every run, whatever the oracle answers: each coder call is sent the system prompt, the plan and the
      reflection stored in its session, the session's whole history, and the task with the context files; each
      reflection is asked for with the stored plan; a plan is asked for only when none is stored.  Plan, reflection and
      history are those that the calls before it in the log have left. */
  lemma PromptsAreTold(c: Config, desk: Desk)
    ensures C.Told(C.Matter(c.oracle, c.agent.systemPrompt, c.req.prompt, c.context), desk,
                   RunTask(c, desk).desk)
  {
    var t := MatterOf(c);
    var p := (s: Run) => C.Told(MatterOf(c), desk, s.desk);
    hide RunTask, RoleCall, C.Told;
    assert KeptByCalls(c, p) by {
      forall s, r | p(s) && SameBooks(s, r) ensures p(r) {
        ToldIgnoresTicks(t, desk, s.desk, r.desk.tick);
      }
      forall s, job | p(s) ensures p(RoleCall(c, s, job).0) {
        RoleCallTold(c, desk, s, job);
      }
    }
    C.NothingTold(t, desk, desk);
    RunKeeps(c, desk, p);
  }

  // ---- the plan ----

  lemma PlanIsStored(a: Setup, o: Oracle, d: Desk, site: Site, req: Request)
    requires a.cfg.enablePlan && req.sessionId != ""
    ensures var (d', r) := PlanCall(a, o, d, site, req);
            r.Ok? ==> req.sessionId in d'.sessions && d'.sessions[req.sessionId].plan == r.value
  {
    hide TrimSpace, IsBlank;
  }

  lemma PlanJobStores(c: Config, s: Run)
    requires c.agent.cfg.enablePlan && c.req.sessionId != ""
    ensures var (s', r) := RoleCall(c, s, PlanJob);
            r.Ok? ==> r.value.TextAnswer? && c.req.sessionId in s'.desk.sessions
                      && s'.desk.sessions[c.req.sessionId].plan == r.value.text
  {
    hide PlanCall, Select, Fallback;
    var sel := Select(c.strategy, RoleOf(PlanJob), OverrideOf(PlanJob, c.req), s.used);
    var req := Request(c.req.sessionId, sel.model, c.req.prompt, c.context);
    PlanIsStored(c.agent, c.oracle, s.desk, OuterPlan, req);
    var (s1, r1) := Attempt(c, s, PlanJob, sel.model, sel.usage);
    var verdict := Fallback(c, RoleOf(PlanJob), sel.model, s1.used);
    if verdict.Picked? {
      PlanIsStored(c.agent, c.oracle, s1.desk, OuterPlan, req.(model := verdict.usage.model));
    }
  }

  /** The plan that is announced in the stream is the one the session has, and a blank one is not announced. */
  lemma StoredPlanIsAnnounced(c: Config, s: Run)
    requires c.agent.cfg.enablePlan && c.req.sessionId != "" && s.status == Running
    ensures var r, id := PlanPhase(c, s), c.req.sessionId;
            r.status == Running ==>
              && id in r.desk.sessions
              && var plan := r.desk.sessions[id].plan;
                 r.trace == s.trace + if IsBlank(plan) then [] else [PlanEvent(plan)]
  {
    hide RoleCall, IsBlank;
    PlanJobStores(c, s);
  }
}
