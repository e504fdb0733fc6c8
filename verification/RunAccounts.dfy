/** What a run spends and stores: the expensive-model counter, the provider calls it covers, and the histories. */
module RunAccounts {
  import opened Outcomes
  import opened Text
  import opened ModelRegistry
  import opened Strategy
  import opened FallbackWalk
  import opened AgentState
  import opened RunMachine

  function ExpensiveUses(usages: seq<Usage>): nat {
    if usages == [] then 0
    else ExpensiveUses(usages[..|usages| - 1]) + CostOf(Some(usages[|usages| - 1]))
  }

  /** Provider calls on expensive models, other than the planning calls made inside coder calls. */
  function ExpensiveCalls(k: Catalog, calls: seq<ProviderCall>): nat {
    if calls == [] then 0
    else
      var last := calls[|calls| - 1];
      ExpensiveCalls(k, calls[..|calls| - 1]) + if last.site != InnerPlan && k.IsExpensive(last.model) then 1 else 0
  }

  /** The strategy uses the agent's own registry, in which routes carry their ids and no id is empty. */
  ghost predicate Shared(c: Config) {
    && c.strategy.Some?
    && c.strategy.value.registry == Some(c.agent.catalog)
    && c.agent.catalog.Named()
    && "" !in c.agent.catalog.models
  }

  /** The session has a stored plan, or planning is off: coder calls do not plan again. */
  predicate PlanReady(c: Config, d: Desk) {
    !c.agent.cfg.enablePlan || (c.req.sessionId in d.sessions && d.sessions[c.req.sessionId].plan != "")
  }

  predicate NoInnerPlan(calls: seq<ProviderCall>) {
    forall p | p in calls :: p.site != InnerPlan
  }

  // ---- the model a selection yields ----

  /** A selected model is either registered, and then counted and recorded, or the agent cannot resolve it. */
  lemma SelectionIsAccounted(c: Config, role: string, override: string, used: nat)
    requires Shared(c)
    ensures var k, sel := c.agent.catalog, Select(c.strategy, role, override, used);
            if sel.usage.Some? then
              && sel.usage == Some(Usage(role, sel.model, k.IsExpensive(sel.model)))
              && sel.model != "" && k.Resolvable(sel.model)
            else !k.Resolvable(sel.model)
  {
    hide Budgeted;
    var requested := FirstNonEmpty([override]);
    assert FirstNonEmpty([requested]) == requested by {
      assert IsBlank("");
    }
    BudgetedIsRegistered(c.strategy.value, role, requested, used);
  }

  lemma FallbackIsAccounted(c: Config, role: string, current: string, used: nat)
    requires Shared(c)
    ensures match Fallback(c, role, current, used)
            case Picked(u) =>
              && u == Usage(role, u.model, c.agent.catalog.IsExpensive(u.model))
              && c.agent.catalog.Resolvable(u.model) && u.model != ""
            case _ => true
  {
    hide Budgeted;
    var e := c.strategy.value;
    BudgetedIsRegistered(e, role, FirstId(e.cfg.fallbacks), used);
    BudgetedIsRegistered(e, role, SecondId(e.cfg.fallbacks), used);
  }

  // ---- the calls one performance makes ----

  /** The calls `made` by one performance with `model`: at most one besides inner planning, all on the route that
      `model` resolves to, and none when it does not resolve. */
  ghost predicate CallsOf(k: Catalog, model: string, made: seq<ProviderCall>) {
    && (!k.Resolvable(model) ==> made == [])
    && (k.Resolvable(model) ==> forall p | p in made :: p.model == k.Resolve(model).value.route.name)
    && (|made| <= 1 || (|made| == 2 && made[0].site == InnerPlan))
  }

  lemma MakePlanCalls(o: Oracle, d: Desk, site: Site, key: string, model: string, task: string)
    requires key in d.sessions
    ensures var d' := MakePlan(o, d, site, key, model, task).0;
            |d'.calls| == |d.calls| + 1 && d.calls <= d'.calls
            && d'.calls[|d.calls|].site == site && d'.calls[|d.calls|].model == model
  {
  }

  lemma PlanCallsMade(a: Setup, o: Oracle, d: Desk, site: Site, req: Request)
    ensures var d' := PlanCall(a, o, d, site, req).0;
            && d.calls <= d'.calls && |d'.calls| <= |d.calls| + 1
            && CallsOf(a.catalog, req.model, d'.calls[|d.calls|..])
            && (forall p | p in d'.calls[|d.calls|..] :: p.site == site)
  {
    hide MakePlan, IsBlank;
    if a.catalog.Resolve(req.model).Ok? {
      var (d1, key) := EnsureSession(o, d, req.sessionId);
      MakePlanCalls(o, d1, site, key, a.catalog.Resolve(req.model).value.route.name, req.prompt);
    }
  }

  lemma PlanReadyCallsNothing(a: Setup, o: Oracle, d: Desk, req: Request)
    requires req.sessionId != "" && req.sessionId in d.sessions && d.sessions[req.sessionId].plan != ""
    ensures PlanCall(a, o, d, InnerPlan, req).0.calls == d.calls
  {
  }

  lemma ConverseCallsMade(a: Setup, o: Oracle, d: Desk, key: string, model: string, req: Request)
    requires key in d.sessions
    ensures var d' := Converse(a, o, d, key, model, req).0;
            |d'.calls| == |d.calls| + 1 && d.calls <= d'.calls
            && d'.calls[|d.calls|].site == Coding && d'.calls[|d.calls|].model == model
  {
  }

  /** A coder's call after at most one inner planning call. */
  lemma CallsOfBoth(k: Catalog, model: string, planned: seq<ProviderCall>, call: ProviderCall)
    requires CallsOf(k, model, planned) && |planned| <= 1 && forall p | p in planned :: p.site == InnerPlan
    requires k.Resolvable(model) && call.model == k.Resolve(model).value.route.name && call.site == Coding
    ensures CallsOf(k, model, planned + [call])
    ensures planned == [] ==> NoInnerPlan(planned + [call])
  {
    if |planned| == 1 {
      assert planned[0] in planned;
    }
  }

  lemma RunCallsMade(a: Setup, o: Oracle, d: Desk, req: Request)
    ensures var d' := RunCall(a, o, d, req).0;
            && d.calls <= d'.calls
            && CallsOf(a.catalog, req.model, d'.calls[|d.calls|..])
            && (req.sessionId != ""
                && (!a.cfg.enablePlan || (req.sessionId in d.sessions && d.sessions[req.sessionId].plan != ""))
                ==> NoInnerPlan(d'.calls[|d.calls|..]))
  {
    hide PlanCall, Converse, CallsOf, NoInnerPlan;
    NoCalls(a.catalog, req.model);
    assert d.calls[|d.calls|..] == [];
    if req.prompt != "" && a.catalog.Resolve(req.model).Ok? {
      var model := a.catalog.Resolve(req.model).value.route.name;
      var (d1, planned) := if a.cfg.enablePlan then PlanCall(a, o, d, InnerPlan, req) else (d, Ok(""));
      PlanCallsMade(a, o, d, InnerPlan, req);
      if req.sessionId != "" && req.sessionId in d.sessions && d.sessions[req.sessionId].plan != "" {
        PlanReadyCallsNothing(a, o, d, req);
      }
      if planned.Ok? {
        var (d2, key) := EnsureSession(o, d1, req.sessionId);
        ConverseCallsMade(a, o, d2, key, model, req);
        var d3 := Converse(a, o, d2, key, model, req).0;
        CallsOfBoth(a.catalog, req.model, d1.calls[|d.calls|..], d3.calls[|d1.calls|]);
        assert d3.calls[|d.calls|..] == d1.calls[|d.calls|..] + [d3.calls[|d1.calls|]];
      }
    }
  }

  lemma NoCalls(k: Catalog, model: string)
    ensures CallsOf(k, model, []) && NoInnerPlan([])
  {
  }

  lemma ReconsiderCallsMade(o: Oracle, d: Desk, key: string, model: string, prompt: Prompt)
    requires key in d.sessions
    ensures var d' := Reconsider(o, d, key, model, prompt).0;
            |d'.calls| == |d.calls| + 1 && d.calls <= d'.calls
            && d'.calls[|d.calls|].site == Reflecting && d'.calls[|d.calls|].model == model
  {
  }

  lemma ReflectCallsMade(a: Setup, o: Oracle, d: Desk, req: Request, last: Response, context: ReflectionContext)
    ensures var d' := ReflectCall(a, o, d, req, last, context).0;
            && d.calls <= d'.calls
            && CallsOf(a.catalog, req.model, d'.calls[|d.calls|..])
            && NoInnerPlan(d'.calls[|d.calls|..])
  {
    hide Reconsider, IsBlank;
    if a.catalog.Resolve(req.model).Ok? {
      var (d1, key) := EnsureSession(o, d, req.sessionId);
      var prompt := ReflectPrompt(req.prompt, last.message.content, d1.sessions[key].plan, context);
      ReconsiderCallsMade(o, d1, key, a.catalog.Resolve(req.model).value.route.name, prompt);
    }
  }

  lemma PerformCallsMade(c: Config, d: Desk, job: Job, model: string)
    ensures var d' := Perform(c, d, job, model).0;
            && d.calls <= d'.calls
            && CallsOf(c.agent.catalog, model, d'.calls[|d.calls|..])
            && (c.req.sessionId != "" && (job.PlanJob? || PlanReady(c, d)) ==> NoInnerPlan(d'.calls[|d.calls|..]))
    ensures Continues(d, Perform(c, d, job, model).0)
  {
    hide PlanCall, RunCall, ReflectCall, CallsOf, Continues;
    var req := Request(c.req.sessionId, model, c.req.prompt, c.context);
    match job
    case PlanJob =>
      PlanCallsMade(c.agent, c.oracle, d, OuterPlan, req);
      PlanContinues(c.agent, c.oracle, d, OuterPlan, req);
    case ReflectJob(last, context) =>
      ReflectCallsMade(c.agent, c.oracle, d, req.(context := []), last, context);
      ReflectContinues(c.agent, c.oracle, d, req.(context := []), last, context);
    case CodeJob =>
      RunCallsMade(c.agent, c.oracle, d, req);
      RunContinues(c.agent, c.oracle, d, req);
  }

  // ---- the books of a run ----

  /** The budget is set and there is a cheap model to escape to. */
  predicate EscapeAtHand(c: Config) {
    && c.strategy.Some?
    && c.strategy.value.registry.Some?
    && c.strategy.value.cfg.maxExpensive > 0
    && HasCheapEscape(c.strategy.value)
  }

  /** The counter counts the accepted expensive selections, covers the expensive provider calls made since `d0`,
      and stays within a budget that has a cheap escape; the histories continue those of `d0`. */
  ghost predicate Books(c: Config, d0: Desk, s: Run) {
    && Continues(d0, s.desk)
    && s.used == ExpensiveUses(s.usages)
    && (EscapeAtHand(c) ==> s.used <= c.strategy.value.cfg.maxExpensive)
    && (Shared(c) ==> ExpensiveCalls(c.agent.catalog, s.desk.calls[|d0.calls|..]) <= s.used)
  }

  lemma {:induction false} ExpensiveCallsConcat(k: Catalog, xs: seq<ProviderCall>, ys: seq<ProviderCall>)
    ensures ExpensiveCalls(k, xs + ys) == ExpensiveCalls(k, xs) + ExpensiveCalls(k, ys)
  {
    if ys == [] {
      assert xs + ys == xs;
    } else {
      assert (xs + ys)[..|xs + ys| - 1] == xs + ys[..|ys| - 1];
      ExpensiveCallsConcat(k, xs, ys[..|ys| - 1]);
    }
  }

  /** The calls of one performance cost no more than the selection behind it. */
  lemma PerformanceIsPaidFor(k: Catalog, model: string, made: seq<ProviderCall>)
    requires k.Named() && CallsOf(k, model, made)
    ensures ExpensiveCalls(k, made) <= if k.Resolvable(model) && model != "" && !k.IsExpensive(model) then 0 else 1
    ensures !k.Resolvable(model) ==> ExpensiveCalls(k, made) == 0
  {
    if |made| == 1 {
      assert made[0] in made;
      assert made[..0] == [];
    } else if |made| == 2 {
      assert made[0] in made && made[1] in made;
      assert ExpensiveCalls(k, made[..1]) == 0 by {
        assert made[..1][..0] == [];
      }
    }
  }

  lemma AccountKeepsBooks(c: Config, d0: Desk, s: Run, u: Usage)
    requires Books(c, d0, s)
    requires c.strategy.Some?
    requires exists role, override :: Budgeted(c.strategy.value, role, override, s.used).Chosen?
                                   && Budgeted(c.strategy.value, role, override, s.used).expensive == u.expensive
    ensures Books(c, d0, Account(s, Some(u)))
    ensures Account(s, Some(u)).used == s.used + CostOf(Some(u))
  {
    hide Continues, Budgeted, HasCheapEscape;
    assert (s.usages + [u])[..|s.usages|] == s.usages;
    var e := c.strategy.value;
    var role, override :| Budgeted(e, role, override, s.used).Chosen?
                          && Budgeted(e, role, override, s.used).expensive == u.expensive;
    if EscapeAtHand(c) {
      OneAskKeepsBudget(e, Ask(role, override), s.used);
    }
  }

  lemma PerformKeepsBooks(c: Config, d0: Desk, s: Run, job: Job, model: string, spare: nat)
    requires Books(c, d0, s)
    requires Shared(c) ==> ExpensiveCalls(c.agent.catalog, s.desk.calls[|d0.calls|..]) + spare <= s.used
    requires Shared(c) && c.agent.catalog.Resolvable(model) ==>
               model != "" && (c.agent.catalog.IsExpensive(model) ==> spare == 1)
    ensures Books(c, d0, s.(desk := Perform(c, s.desk, job, model).0))
  {
    var d' := Perform(c, s.desk, job, model).0;
    PerformCallsMade(c, s.desk, job, model);
    ContinuesTransitive(d0, s.desk, d');
    assert d0.calls <= s.desk.calls;
    hide Perform, Continues, CallsOf, HasCheapEscape;
    var made := d'.calls[|s.desk.calls|..];
    assert d'.calls[|d0.calls|..] == s.desk.calls[|d0.calls|..] + made;
    if Shared(c) {
      ExpensiveCallsConcat(c.agent.catalog, s.desk.calls[|d0.calls|..], made);
      PerformanceIsPaidFor(c.agent.catalog, model, made);
    }
  }

  lemma RoleCallKeepsBooks(c: Config, d0: Desk, s: Run, job: Job)
    requires Books(c, d0, s)
    ensures Books(c, d0, RoleCall(c, s, job).0)
  {
    hide Perform, Continues, HasCheapEscape, ExpensiveCalls, ExpensiveUses, Budgeted;
    assert forall st: Status, x: Run :: Books(c, d0, x) ==> Books(c, d0, x.(status := st));
    hide Books;
    var role, override := RoleOf(job), OverrideOf(job, c.req);
    var sel := Select(c.strategy, role, override, s.used);
    var s1 := Account(s, sel.usage);
    AccountSelection(c, d0, s, role, override);
    if Shared(c) {
      SelectionIsAccounted(c, role, override, s.used);
    }
    PerformKeepsBooks(c, d0, s1, job, sel.model, CostOf(sel.usage));
    var s2 := s1.(desk := Perform(c, s1.desk, job, sel.model).0);
    var verdict := Fallback(c, role, sel.model, s2.used);
    if verdict.Picked? {
      var s3 := Account(s2, Some(verdict.usage));
      AccountFallback(c, d0, s2, role, sel.model);
      if Shared(c) {
        FallbackIsAccounted(c, role, sel.model, s2.used);
      }
      PerformKeepsBooks(c, d0, s3, job, verdict.usage.model, CostOf(Some(verdict.usage)));
    }
  }

  /** The selection is counted, leaving room for one expensive call if the model is expensive. */
  lemma AccountSelection(c: Config, d0: Desk, s: Run, role: string, override: string)
    requires Books(c, d0, s)
    ensures var sel := Select(c.strategy, role, override, s.used);
            var s1 := Account(s, sel.usage);
            && Books(c, d0, s1)
            && (Shared(c) ==>
                  ExpensiveCalls(c.agent.catalog, s1.desk.calls[|d0.calls|..]) + CostOf(sel.usage) <= s1.used)
  {
    hide Continues, HasCheapEscape, ExpensiveCalls, ExpensiveUses, Budgeted;
    var sel := Select(c.strategy, role, override, s.used);
    if sel.usage.Some? {
      var requested := FirstNonEmpty([override]);
      assert Budgeted(c.strategy.value, role, requested, s.used).Chosen?;
      AccountKeepsBooks(c, d0, s, sel.usage.value);
    }
  }

  lemma AccountFallback(c: Config, d0: Desk, s: Run, role: string, current: string)
    requires Books(c, d0, s)
    requires Fallback(c, role, current, s.used).Picked?
    ensures var u := Fallback(c, role, current, s.used).usage;
            var s1 := Account(s, Some(u));
            && Books(c, d0, s1)
            && (Shared(c) ==> ExpensiveCalls(c.agent.catalog, s1.desk.calls[|d0.calls|..]) + CostOf(Some(u)) <= s1.used)
  {
    hide Continues, HasCheapEscape, ExpensiveCalls, ExpensiveUses, Budgeted, NextFallback;
    var e := c.strategy.value;
    var u := Fallback(c, role, current, s.used).usage;
    var fb := if Try(current, Prober(e, role, current, s.used), FirstId(e.cfg.fallbacks)).Some? then
                FirstId(e.cfg.fallbacks) else SecondId(e.cfg.fallbacks);
    assert Probe(e, role, current, fb, s.used) == Some(u);
    assert Budgeted(e, role, fb, s.used).Chosen? && Budgeted(e, role, fb, s.used).expensive == u.expensive;
    AccountKeepsBooks(c, d0, s, u);
  }

  // ---- an induction principle for runs ----

  /** `r` has the desk of `s`, at a later tick maybe, and the same selections. */
  predicate SameBooks(s: Run, r: Run) {
    && r.desk == s.desk.(tick := r.desk.tick)
    && s.desk.tick <= r.desk.tick
    && r.used == s.used
    && r.usages == s.usages
  }

  ghost predicate KeptByCalls(c: Config, p: Run -> bool) {
    && (forall s, r | p(s) && SameBooks(s, r) :: p(r))
    && (forall s, job | p(s) :: p(RoleCall(c, s, job).0))
  }

  lemma JudgementKeeps(c: Config, s: Run, step: nat, resp: Response, tools: seq<Observation>, p: Run -> bool)
    requires KeptByCalls(c, p) && p(s)
    ensures p(JudgePhase(c, s, step, resp, tools))
  {
    hide RoleCall, TestPhase, IsResponseDone;
    var (s1, test) := TestPhase(c, s, step, IsResponseDone(resp));
    assert SameBooks(s, s1);
    var (s2, blocked) := ReflectPhase(c, s1, step, resp, tools, test);
    assert p(s2) by {
      var s' := RoleCall(c, s1, ReflectJob(resp, ContextFor(c, resp, tools, test))).0;
      assert p(s');
      assert SameBooks(s1, s2) || SameBooks(s', s2);
    }
    assert SameBooks(s2, JudgePhase(c, s, step, resp, tools));
  }

  lemma StepKeeps(c: Config, s: Run, step: nat, p: Run -> bool)
    requires KeptByCalls(c, p) && p(s)
    ensures p(Step(c, s, step))
  {
    hide RoleCall, SpeakPhase, JudgePhase;
    var s0 := Tick(s).(pending := [], starts := s.starts + [s.desk.tick]);
    assert SameBooks(s, s0);
    var (s1, r) := RoleCall(c, s0, CodeJob);
    assert p(s1);
    if c.oracle.Cancelled(s.desk.tick) {
      assert SameBooks(s, Step(c, s, step));
    } else if s1.status == Hung || r.Err? {
      assert SameBooks(s1, Step(c, s, step));
    } else {
      var (s2, tools) := SpeakPhase(c, s1, step, r.value.response, s.pending);
      assert SameBooks(s1, s2);
      JudgementKeeps(c, s2, step, r.value.response, tools, p);
    }
  }

  lemma {:induction false} StepsKeep(c: Config, s: Run, step: nat, p: Run -> bool)
    requires 1 <= step <= c.agent.cfg.MaxSteps() + 1
    requires KeptByCalls(c, p) && p(s)
    ensures p(Steps(c, s, step))
    decreases c.agent.cfg.MaxSteps() + 1 - step
  {
    hide Step;
    if step > c.agent.cfg.MaxSteps() {
      assert SameBooks(s, Steps(c, s, step));
    } else {
      StepKeeps(c, s, step, p);
      if Step(c, s, step).status == Running {
        StepsKeep(c, Step(c, s, step), step + 1, p);
      }
    }
  }

  lemma PrologueKeeps(c: Config, desk: Desk, p: Run -> bool)
    requires KeptByCalls(c, p) && p(Begin(desk))
    ensures p(Prologue(c, desk))
  {
    hide RoleCall, RunTools;
    var s := Begin(desk);
    var (s1, seen) := if c.tools.Some? then RunTools(c.oracle, s, [], c.req.tools) else (s, []);
    assert SameBooks(s, s1);
    assert p(s1);
    var s2 := s1.(pending := seen);
    assert SameBooks(s1, s2);
    var s3 := RoleCall(c, s2, PlanJob).0;
    assert SameBooks(s2, PlanPhase(c, s2)) || SameBooks(s3, PlanPhase(c, s2));
  }

  lemma RunKeeps(c: Config, desk: Desk, p: Run -> bool)
    requires KeptByCalls(c, p) && p(Begin(desk))
    ensures p(RunTask(c, desk))
  {
    hide Prologue, Steps;
    PrologueKeeps(c, desk, p);
    if Prologue(c, desk).status == Running {
      StepsKeep(c, Prologue(c, desk), 1, p);
    }
  }

  // ---- the laws ----

  lemma BooksIgnoreStreaming(c: Config, d0: Desk, s: Run, r: Run)
    requires Books(c, d0, s) && SameBooks(s, r)
    ensures Books(c, d0, r)
  {
    hide AddedTo, ExpensiveCalls, ExpensiveUses, HasCheapEscape;
  }

  /** Over every run: the counter is the number of accepted expensive selections; it stays within the budget when
      there is a cheap escape; it covers every expensive provider call except the planning calls inside coder calls;
      and each session's history is its old one followed by what the answered calls on that session added. */
  lemma RunBalances(c: Config, desk: Desk)
    ensures var r := RunTask(c, desk);
            && r.used == ExpensiveUses(r.usages)
            && (EscapeAtHand(c) ==> r.used <= c.strategy.value.cfg.maxExpensive)
            && desk.calls <= r.desk.calls
            && (Shared(c) ==> ExpensiveCalls(c.agent.catalog, r.desk.calls[|desk.calls|..]) <= r.used)
            && Continues(desk, r.desk)
  {
    var p := (s: Run) => Books(c, desk, s);
    hide RunTask, RoleCall;
    assert KeptByCalls(c, p) by {
      hide Books;
      forall s, r | p(s) && SameBooks(s, r) ensures p(r) {
        BooksIgnoreStreaming(c, desk, s, r);
      }
      forall s, job | p(s) ensures p(RoleCall(c, s, job).0) {
        RoleCallKeepsBooks(c, desk, s, job);
      }
    }
    assert p(Begin(desk)) by {
      NoCallContinues(desk, desk);
    }
    RunKeeps(c, desk, p);
  }

  /** No planning call has been made inside a coder call since `d0`, and none will be. */
  ghost predicate Quiet(c: Config, d0: Desk, s: Run) {
    && PlanReady(c, s.desk)
    && d0.calls <= s.desk.calls
    && NoInnerPlan(s.desk.calls[|d0.calls|..])
  }

  lemma PerformKeepsQuiet(c: Config, d0: Desk, s: Run, job: Job, model: string)
    requires c.req.sessionId != "" && Quiet(c, d0, s)
    ensures Quiet(c, d0, s.(desk := Perform(c, s.desk, job, model).0))
  {
    PerformCallsMade(c, s.desk, job, model);
    hide Perform, CallsOf;
  }

  lemma RoleCallKeepsQuiet(c: Config, d0: Desk, s: Run, job: Job)
    requires c.req.sessionId != "" && Quiet(c, d0, s)
    ensures Quiet(c, d0, RoleCall(c, s, job).0)
  {
    hide Perform, Budgeted, NoInnerPlan, NextFallback;
    var role := RoleOf(job);
    var sel := Select(c.strategy, role, OverrideOf(job, c.req), s.used);
    var s1 := Account(s, sel.usage);
    PerformKeepsQuiet(c, d0, s1, job, sel.model);
    var s2 := s1.(desk := Perform(c, s1.desk, job, sel.model).0);
    var verdict := Fallback(c, role, sel.model, s2.used);
    if verdict.Picked? {
      PerformKeepsQuiet(c, d0, Account(s2, Some(verdict.usage)), job, verdict.usage.model);
    }
  }

  /** In a named session that has its plan when the steps begin, the steps make no planning call, so the counter
      covers every expensive provider call they make. */
  lemma PlannedRunMakesNoInnerCalls(c: Config, desk: Desk)
    requires c.req.sessionId != "" && PlanReady(c, Prologue(c, desk).desk)
    ensures var d, r := Prologue(c, desk).desk, RunTask(c, desk);
            d.calls <= r.desk.calls && NoInnerPlan(r.desk.calls[|d.calls|..])
  {
    var s := Prologue(c, desk);
    var p := (x: Run) => Quiet(c, s.desk, x);
    hide Prologue, Steps, RoleCall;
    assert KeptByCalls(c, p) by {
      forall x, job | p(x) ensures p(RoleCall(c, x, job).0) {
        RoleCallKeepsQuiet(c, s.desk, x, job);
      }
    }
    if s.status == Running {
      StepsKeep(c, s, 1, p);
    }
  }

  ghost predicate NoInnerSince(d0: Desk, d: Desk) {
    d0.calls <= d.calls && NoInnerPlan(d.calls[|d0.calls|..])
  }

  lemma NoInnerTransitive(d0: Desk, d1: Desk, d2: Desk)
    requires NoInnerSince(d0, d1) && NoInnerSince(d1, d2)
    ensures NoInnerSince(d0, d2)
  {
    assert d2.calls[|d0.calls|..] == d1.calls[|d0.calls|..] + d2.calls[|d1.calls|..];
  }

  lemma PlanJobsMakeNoInnerCalls(c: Config, s: Run)
    requires c.req.sessionId != ""
    ensures NoInnerSince(s.desk, RoleCall(c, s, PlanJob).0.desk)
  {
    hide Perform, Select, Fallback, CallsOf, Continues;
    var sel := Select(c.strategy, "planner", OverrideOf(PlanJob, c.req), s.used);
    var s1 := Account(s, sel.usage);
    var d1 := Perform(c, s1.desk, PlanJob, sel.model).0;
    PerformCallsMade(c, s1.desk, PlanJob, sel.model);
    var verdict := Fallback(c, "planner", sel.model, s1.used);
    if verdict.Picked? {
      PerformCallsMade(c, d1, PlanJob, verdict.usage.model);
      NoInnerTransitive(s.desk, d1, Perform(c, d1, PlanJob, verdict.usage.model).0);
    }
  }

  lemma PrologueMakesNoInnerCalls(c: Config, desk: Desk)
    requires c.req.sessionId != ""
    ensures NoInnerSince(desk, Prologue(c, desk).desk)
  {
    hide RoleCall, RunTools;
    var (s, seen) := if c.tools.Some? then RunTools(c.oracle, Begin(desk), [], c.req.tools) else (Begin(desk), []);
    PlanJobsMakeNoInnerCalls(c, s.(pending := seen));
  }

  /** All provider calls on expensive models. */
  function AllExpensiveCalls(k: Catalog, calls: seq<ProviderCall>): nat {
    if calls == [] then 0
    else AllExpensiveCalls(k, calls[..|calls| - 1]) + if k.IsExpensive(calls[|calls| - 1].model) then 1 else 0
  }

  lemma {:induction false} NoneLeftOut(k: Catalog, calls: seq<ProviderCall>)
    requires NoInnerPlan(calls)
    ensures AllExpensiveCalls(k, calls) == ExpensiveCalls(k, calls)
  {
    if calls != [] {
      assert calls[|calls| - 1] in calls && forall p | p in calls[..|calls| - 1] :: p in calls;
      NoneLeftOut(k, calls[..|calls| - 1]);
    }
  }

  /** In a named session that has its plan when the steps begin, the counter covers every provider call of the run on an
      expensive model, and so does the budget if there is a cheap escape. */
  lemma PlannedRunIsPaidFor(c: Config, desk: Desk)
    requires Shared(c) && c.req.sessionId != "" && PlanReady(c, Prologue(c, desk).desk)
    ensures var r := RunTask(c, desk);
            && desk.calls <= r.desk.calls
            && AllExpensiveCalls(c.agent.catalog, r.desk.calls[|desk.calls|..]) <= r.used
            && (EscapeAtHand(c) ==> r.used <= c.strategy.value.cfg.maxExpensive)
  {
    hide RunTask, Prologue, Shared, PlanReady, EscapeAtHand, AllExpensiveCalls, ExpensiveCalls, Continues;
    var d, r := Prologue(c, desk).desk, RunTask(c, desk);
    RunBalances(c, desk);
    PrologueMakesNoInnerCalls(c, desk);
    PlannedRunMakesNoInnerCalls(c, desk);
    assert r.desk.calls[|desk.calls|..] == d.calls[|desk.calls|..] + r.desk.calls[|d.calls|..];
    NoneLeftOut(c.agent.catalog, r.desk.calls[|desk.calls|..]);
  }

  /** A coder call plans first. */
  ghost predicate PlansFirst(d: Desk, d': Desk) {
    exists i | |d.calls| <= i < |d'.calls| :: d'.calls[i].site == InnerPlan
  }

  /** A coder call asks the provider for a plan, before it asks for an answer, exactly when planning is on, the prompt
      is not blank, the model is registered, and no plan is stored for the session; it asks the coder's model, and has
      made no selection for it. */
  lemma PlansFirstIff(a: Setup, o: Oracle, d: Desk, req: Request)
    ensures var d', key := RunCall(a, o, d, req).0, SessionKey(o, d.tick, req.sessionId);
            && (PlansFirst(d, d') <==>
                && a.cfg.enablePlan && !IsBlank(req.prompt) && a.catalog.Resolvable(req.model)
                && (key in d.sessions ==> d.sessions[key].plan == ""))
            && (PlansFirst(d, d') ==>
                && |d'.calls| > |d.calls| && d'.calls[|d.calls|].site == InnerPlan
                && d'.calls[|d.calls|].model == a.catalog.Resolve(req.model).value.route.name)
  {
    hide Converse, IsBlank, MakePlan;
    EmptyIsBlank();
    if req.prompt != "" && a.catalog.Resolve(req.model).Ok? {
      var model := a.catalog.Resolve(req.model).value.route.name;
      var (d1, planned) := if a.cfg.enablePlan then PlanCall(a, o, d, InnerPlan, req) else (d, Ok(""));
      var (d2, key) := EnsureSession(o, d1, req.sessionId);
      ConverseCallsMade(a, o, d2, key, model, req);
      var d0 := EnsureSession(o, d, req.sessionId).0;
      MakePlanCalls(o, d0, InnerPlan, SessionKey(o, d.tick, req.sessionId), model, req.prompt);
    }
  }

  // ---- a run whose expensive calls exceed the counter and the budget ----

  /** The planner asks a cheap model and gets a blank plan; the coder asks an expensive one, with a budget of one. */
  const BLANK_PLANS := Config(
    Setup(AgentConfig(1, true, false, "", false, false, "", 0, 0), CHEAP_AND_DEAR.registry.value, ""),
    Some(CHEAP_AND_DEAR),
    None,
    Oracle((_, _, _) => Replied(ChatMessage(Assistant, ""), "stop"),
           (_, _) => Err(""),
           (_, _) => ExecResult("", "", 0, None),
           _ => 0, None, _ => false, _ => [], _ => false),
    TaskRequest("s", "dear", "cheap", "", "t", []),
    [])

  lemma BlankSelections()
    ensures Select(BLANK_PLANS.strategy, "planner", OverrideOf(PlanJob, BLANK_PLANS.req), 0)
         == Selection("cheap", Some(Usage("planner", "cheap", false)))
    ensures Select(BLANK_PLANS.strategy, "coder", OverrideOf(CodeJob, BLANK_PLANS.req), 0)
         == Selection("dear", Some(Usage("coder", "dear", true)))
  {
    hide Budgeted, IsBlank, PreferredId;
    CheapAndDearNames();
    assert ["cheap", "dear"][0] == "cheap" && ["dear"][0] == "dear" && ["cheap"][0] == "cheap";
    AskedForIsChosen(CHEAP_AND_DEAR, "planner", "cheap", 0);
    AskedForIsChosen(CHEAP_AND_DEAR, "coder", "dear", 0);
  }

  lemma TaskIsNotBlank()
    ensures !IsBlank("t") && TrimSpace("") == "" && IsBlank("")
  {
    BlankIsAllSpace("t");
    assert !IsSpace("t"[0]);
  }

  /** The planner's call, and the two calls of the coder. */
  lemma BlankCalls(d: Desk)
    requires "s" in d.sessions ==> d.sessions["s"].plan == ""
    ensures var (d', r) := Perform(BLANK_PLANS, d, PlanJob, "cheap");
            && r == Ok(TextAnswer("")) && "s" in d'.sessions && d'.sessions["s"].plan == ""
            && |d'.calls| == |d.calls| + 1 && d.calls <= d'.calls && d'.calls[|d.calls|].model == "cheap"
    ensures var (d', r) := Perform(BLANK_PLANS, d, CodeJob, "dear");
            && r.Ok?
            && |d'.calls| == |d.calls| + 2 && d.calls <= d'.calls
            && d'.calls[|d.calls|].model == "dear" && d'.calls[|d.calls| + 1].model == "dear"
  {
    hide IsBlank, TrimSpace, UserPrompt, ChatMessages, LastAssistant;
    TaskIsNotBlank();
  }

  lemma BlankPlanning(s: Run)
    requires s.used == 0 && s.status == Running
    requires "s" in s.desk.sessions ==> s.desk.sessions["s"].plan == ""
    ensures var (s1, r) := RoleCall(BLANK_PLANS, s, PlanJob);
            && r == Ok(TextAnswer("")) && s1.status == Running && s1.used == 0
            && "s" in s1.desk.sessions && s1.desk.sessions["s"].plan == ""
            && |s1.desk.calls| == |s.desk.calls| + 1 && s.desk.calls <= s1.desk.calls
            && s1.desk.calls[|s.desk.calls|].model == "cheap"
  {
    hide Perform, Select, OverrideOf, Retry;
    BlankSelections();
    BlankCalls(s.desk);
  }

  lemma BlankPrologue(d: Desk)
    requires d == Desk(0, map[], [])
    ensures var s := Prologue(BLANK_PLANS, d);
            && s.status == Running && s.used == 0 && "s" in s.desk.sessions && s.desk.sessions["s"].plan == ""
            && |s.desk.calls| == 1 && s.desk.calls[0].model == "cheap"
  {
    hide RoleCall, IsBlank, RunTools;
    TaskIsNotBlank();
    BlankPlanning(Begin(d).(pending := []));
  }

  lemma BlankStep(s: Run)
    requires s.used == 0 && "s" in s.desk.sessions && s.desk.sessions["s"].plan == ""
    ensures var s1 := RoleCall(BLANK_PLANS, s, CodeJob).0;
            && s1.used == 1 && |s1.desk.calls| == |s.desk.calls| + 2 && s.desk.calls <= s1.desk.calls
            && s1.desk.calls[|s.desk.calls|].model == "dear" && s1.desk.calls[|s.desk.calls| + 1].model == "dear"
  {
    hide Perform, Select, OverrideOf;
    BlankSelections();
    BlankCalls(s.desk);
  }

  lemma StepSpends(c: Config, s: Run, step: nat)
    requires !c.oracle.Cancelled(s.desk.tick) && !c.agent.cfg.enableReflect
    ensures var s0 := Tick(s).(pending := [], starts := s.starts + [s.desk.tick]);
            var s1, r := RoleCall(c, s0, CodeJob).0, Step(c, s, step);
            r.used == s1.used && r.desk.calls == s1.desk.calls
  {
    hide RoleCall, TestPhase, SpeakPhase;
  }

  lemma OneStepSpends(c: Config, s: Run)
    requires c.agent.cfg.MaxSteps() == 1
    ensures var r, s1 := Steps(c, s, 1), Step(c, s, 1); r.used == s1.used && r.desk.calls == s1.desk.calls
  {
    hide Step;
  }

  lemma ThreeCalls(k: Catalog, calls: seq<ProviderCall>)
    requires |calls| == 3
    ensures AllExpensiveCalls(k, calls) == (if k.IsExpensive(calls[0].model) then 1 else 0)
                                         + (if k.IsExpensive(calls[1].model) then 1 else 0)
                                         + (if k.IsExpensive(calls[2].model) then 1 else 0)
  {
    var two, one := calls[..2], calls[..1];
    assert one[..0] == [] && two[..1] == one;
    assert AllExpensiveCalls(k, one) == if k.IsExpensive(calls[0].model) then 1 else 0;
    assert AllExpensiveCalls(k, two) == AllExpensiveCalls(k, one) + if k.IsExpensive(calls[1].model) then 1 else 0;
  }

  lemma EscapeIsCheap()
    ensures EscapeAtHand(BLANK_PLANS) && Shared(BLANK_PLANS)
  {
    var k := CHEAP_AND_DEAR.registry.value;
    assert FirstAt(k, CHEAP_AND_DEAR.cfg.fallbacks, 0);
    assert |"cheap"| != |"dear"| && |""| != |"dear"| && |""| != |"cheap"|;
  }

  /** The budget allows one expensive use, there is a cheap escape, and the counter stays within the budget; yet the run
      makes two provider calls on the expensive model. */
  lemma BlankPlanExceedsCounter()
    ensures EscapeAtHand(BLANK_PLANS) && Shared(BLANK_PLANS) && CHEAP_AND_DEAR.cfg.maxExpensive == 1
    ensures var r := RunTask(BLANK_PLANS, Desk(0, map[], []));
            r.used == 1 && AllExpensiveCalls(BLANK_PLANS.agent.catalog, r.desk.calls) == 2
  {
    hide Prologue, Step, Steps, RoleCall, AllExpensiveCalls;
    var c, d := BLANK_PLANS, Desk(0, map[], []);
    EscapeIsCheap();
    BlankPrologue(d);
    var s := Prologue(c, d);
    OneStepSpends(c, s);
    StepSpends(c, s, 1);
    BlankStep(Tick(s).(pending := [], starts := s.starts + [s.desk.tick]));
    ThreeCalls(c.agent.catalog, RunTask(c, d).desk.calls);
  }
}
