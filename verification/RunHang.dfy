/** When runs return: the strategies under which every run does, and the run that hangs under any other. */
module RunHang {
  import opened Outcomes
  import opened Text
  import opened ModelRegistry
  import opened Strategy
  import opened FallbackWalk
  import opened AgentState
  import opened RunMachine
  import opened RunGrammar
  import opened RunStream

  /** No fallback walk of the run can go on for ever. */
  ghost predicate WalksEnd(c: Config) {
    forall role, current, used :: Fallback(c, role, current, used) != Endless
  }

  /** A call in a role hangs the run exactly when it fails and the walk over the fallbacks never ends. */
  lemma RoleCallHangsIff(c: Config, s: Run, job: Job)
    requires s.status == Running
    ensures var sel := Select(c.strategy, RoleOf(job), OverrideOf(job, c.req), s.used);
            var s1 := Account(s, sel.usage);
            RoleCall(c, s, job).0.status == Hung <==>
            Perform(c, s1.desk, job, sel.model).1.Err? && Fallback(c, RoleOf(job), sel.model, s1.used) == Endless
  {
    hide Perform, Select, Fallback;
  }

  lemma JudgementReturns(c: Config, s: Run, step: nat, resp: Response, tools: seq<Observation>)
    requires WalksEnd(c) && s.status == Running
    ensures JudgePhase(c, s, step, resp, tools).status != Hung
  {
    hide TestPhase, Perform, Select, IsResponseDone;
  }

  lemma StepReturns(c: Config, s: Run, step: nat)
    requires WalksEnd(c) && s.status == Running
    ensures Step(c, s, step).status != Hung
  {
    hide Perform, Select, SpeakPhase, JudgePhase;
    var (s1, r) := RoleCall(c, Tick(s).(pending := [], starts := s.starts + [s.desk.tick]), CodeJob);
    if !c.oracle.Cancelled(s.desk.tick) && s1.status == Running && r.Ok? {
      var (s2, tools) := SpeakPhase(c, s1, step, r.value.response, s.pending);
      if s2.status == Running {
        JudgementReturns(c, s2, step, r.value.response, tools);
      }
    }
  }

  lemma {:induction false} StepsReturn(c: Config, s: Run, step: nat)
    requires 1 <= step <= c.agent.cfg.MaxSteps() + 1
    requires WalksEnd(c) && s.status == Running
    ensures Steps(c, s, step).status == Ended
    decreases c.agent.cfg.MaxSteps() + 1 - step
  {
    hide Step;
    if step <= c.agent.cfg.MaxSteps() {
      StepReturns(c, s, step);
      if Step(c, s, step).status == Running {
        StepsReturn(c, Step(c, s, step), step + 1);
      }
    }
  }

  /** If no fallback walk goes on for ever, every run ends, with exactly one terminal event, its last. */
  lemma RunReturns(c: Config, desk: Desk)
    requires WalksEnd(c)
    ensures var r := RunTask(c, desk);
            && r.status == Ended
            && r.trace != []
            && forall i | 0 <= i < |r.trace| :: Terminal(r.trace[i]) <==> i == |r.trace| - 1
  {
    hide RunTools, Steps, Perform, Select;
    var s := Prologue(c, desk);
    assert s.status != Hung;
    if s.status == Running {
      StepsReturn(c, s, 1);
    }
    RunInGrammar(c, desk);
    OneTerminalEvent(RunTask(c, desk).trace, c.agent.cfg.MaxSteps());
  }

  // ---- the strategies whose walks end ----

  /** The model that asking for `id` comes to, with budget left or with the budget spent; empty if there is none. */
  function Landing(e: Engine, id: string, spent: bool): string {
    match Budgeted(e, "coder", id, if spent && e.cfg.maxExpensive > 0 then e.cfg.maxExpensive else 0)
    case Chosen(_, route, _) => route.name
    case _ => ""
  }

  /** The two ids come to two different models, and neither to the other id. */
  predicate Apart(e: Engine, a: string, b: string, spent: bool) {
    var x, y := Landing(e, a, spent), Landing(e, b, spent);
    x != "" && y != "" && x != y && x != b && y != a
  }

  /** All fallbacks that are not blank are equal, or the first two different ones stay apart, with budget left and with
      the budget spent. */
  predicate NeverLoops(e: Engine) {
    var a, b := FirstId(e.cfg.fallbacks), SecondId(e.cfg.fallbacks);
    OneFallback(e.cfg.fallbacks) || (Apart(e, a, b, false) && Apart(e, a, b, true))
  }

  /** What a selection by id comes to depends neither on the role nor on how far the budget is exceeded. */
  lemma ProbeIsLanding(e: Engine, role: string, current: string, id: string, used: nat)
    requires !IsBlank(id)
    ensures Budgeted(e, role, id, used)
         == Budgeted(e, "coder", id, if OverBudget(e.cfg, used) then e.cfg.maxExpensive else 0)
    ensures var x := Landing(e, id, OverBudget(e.cfg, used));
            Probe(e, role, current, id, used).Some? <==> x != "" && x != current
  {
    assert PreferredId(e.cfg, role, id) == id == PreferredId(e.cfg, "coder", id);
    hide PreferredId, FirstResolvable;
  }

  /** A walk is endless exactly when there are two fallbacks and each is the failed model, or comes to it or to none. */
  lemma EndlessIff(e: Engine, role: string, current: string, used: nat)
    ensures var a, b, spent := FirstId(e.cfg.fallbacks), SecondId(e.cfg.fallbacks), OverBudget(e.cfg, used);
            VerdictFor(e, role, current, used) == Endless <==>
            && !OneFallback(e.cfg.fallbacks)
            && (a == current || Landing(e, a, spent) in ["", current])
            && (b == current || Landing(e, b, spent) in ["", current])
  {
    hide Budgeted, NextFallback, Landing, Probe, IsBlank;
    var a, b := FirstId(e.cfg.fallbacks), SecondId(e.cfg.fallbacks);
    OneFallbackIff(e.cfg.fallbacks);
    if !OneFallback(e.cfg.fallbacks) {
      ProbeIsLanding(e, role, current, a, used);
      ProbeIsLanding(e, role, current, b, used);
    }
  }

  /** Under a strategy, whatever the role, the failed model and the counter, the walk over the fallbacks ends, if and
      only if the strategy never loops. */
  lemma AllWalksEndIff(e: Engine)
    ensures (forall role, current, used :: VerdictFor(e, role, current, used) != Endless) <==> NeverLoops(e)
  {
    hide VerdictFor, Landing, OneFallback;
    forall role, current, used | NeverLoops(e) ensures VerdictFor(e, role, current, used) != Endless {
      EndlessIff(e, role, current, used);
    }
    if !NeverLoops(e) {
      var a, b := FirstId(e.cfg.fallbacks), SecondId(e.cfg.fallbacks);
      var spent := Apart(e, a, b, false);
      var x, y := Landing(e, a, spent), Landing(e, b, spent);
      var current := if y == "" || y == a then a else if x == "" || x == b then b else x;
      if e.cfg.maxExpensive <= 0 {
        LandingWithoutBudget(e, a);
        LandingWithoutBudget(e, b);
      }
      EndlessIff(e, "coder", current, if spent then e.cfg.maxExpensive else 0);
    }
  }

  /** No walk of a run is endless if and only if there is no strategy or the strategy never loops. */
  lemma WalksEndIff(c: Config)
    ensures WalksEnd(c) <==> c.strategy.None? || NeverLoops(c.strategy.value)
  {
    hide NeverLoops, VerdictFor;
    if c.strategy.Some? {
      var e := c.strategy.value;
      AllWalksEndIff(e);
      assert forall role, current, used :: Fallback(c, role, current, used) == VerdictFor(e, role, current, used);
    }
  }

  lemma LandingWithoutBudget(e: Engine, id: string)
    requires e.cfg.maxExpensive <= 0
    ensures Landing(e, id, true) == Landing(e, id, false)
  {
  }

  // ---- the run that hangs under any other strategy ----

  /** A run of coder calls that answer with an empty message `good` times and fail ever after. */
  function Trap(e: Engine, ask: string, good: nat): Config {
    Config(
      Setup(AgentConfig(good + 1, false, false, "", false, false, "", 0, 0),
            if e.registry.Some? then e.registry.value else EMPTY, ""),
      Some(e),
      None,
      Oracle((tick, _, _) => if tick < 3 * good then Replied(ChatMessage(Assistant, ""), "") else Failed("down"),
             (_, _) => Err(""),
             (_, _) => ExecResult("", "", 0, None),
             _ => 0, None, _ => false, _ => [], _ => false),
      TaskRequest("s", ask, "", "", "t", []),
      [])
  }

  const IDLE := Desk(0, map[], [])

  /** After `k` of the good steps: every step takes three ticks and one expensive use. */
  predicate Trapped(s: Run, k: nat) {
    s.status == Running && s.desk.tick == 3 * k && s.used == k
  }

  lemma GoodCall(e: Engine, ask: string, good: nat, d: Desk, model: string)
    requires e.registry.Some? && e.registry.value.Resolvable(model) && d.tick + 1 < 3 * good
    ensures var (d', r) := Perform(Trap(e, ask, good), d, CodeJob, model);
            && d'.tick == d.tick + 2
            && r.Ok? && r.value.response.message.content == "" && r.value.response.finishReason == ""
  {
    hide UserPrompt, ChatMessages, LastAssistant, SessionKey;
  }

  lemma BadCall(e: Engine, ask: string, good: nat, d: Desk, model: string)
    requires 3 * good <= d.tick
    ensures Perform(Trap(e, ask, good), d, CodeJob, model).1.Err?
  {
    hide UserPrompt, ChatMessages, LastAssistant, SessionKey;
  }

  /** A step whose answer is empty streams a message and nothing else. */
  lemma EmptyAnswerGoesOn(e: Engine, ask: string, good: nat, s: Run, step: nat, resp: Response, given: seq<Observation>)
    requires s.status == Running && resp.message.content == "" && resp.finishReason == ""
    ensures var c := Trap(e, ask, good);
            var (r, tools) := SpeakPhase(c, s, step, resp, given);
            r.status == Running && r.desk == s.desk && r.used == s.used && JudgePhase(c, r, step, resp, tools) == r
  {
    assert ToLower("") == "";
    assert forall i :: !OccursAt("", "[done]", i) && !OccursAt("", "<done>", i);
    hide ToLower, OccursAt;
  }

  /** With `used` expensive uses made, asking is answered with a registered expensive model. */
  predicate Baits(e: Engine, ask: string, used: nat) {
    var sel := Select(Some(e), "coder", ask, used);
    e.registry.Some? && e.registry.value.Resolvable(sel.model) && sel.usage.Some? && sel.usage.value.expensive
  }

  lemma GoodStep(e: Engine, ask: string, good: nat, s: Run, k: nat)
    requires Trapped(s, k) && k < good
    requires Baits(e, ask, k) && !IsBlank(ask)
    ensures Trapped(Step(Trap(e, ask, good), s, k + 1), k + 1)
  {
    hide Perform, Select, SpeakPhase, JudgePhase;
    var c := Trap(e, ask, good);
    var s0 := Tick(s).(pending := [], starts := s.starts + [s.desk.tick]);
    assert OverrideOf(CodeJob, c.req) == ask;
    var sel := Select(Some(e), "coder", ask, k);
    GoodCall(e, ask, good, s0.desk, sel.model);
    var (s1, r) := RoleCall(c, s0, CodeJob);
    EmptyAnswerGoesOn(e, ask, good, s1, k + 1, r.value.response, s.pending);
  }

  /** The model that the step after the good ones asks fails, and the walk over the fallbacks is endless. */
  ghost predicate Springs(e: Engine, ask: string, good: nat) {
    var sel := Select(Some(e), "coder", ask, good);
    VerdictFor(e, "coder", sel.model, good + CostOf(sel.usage)) == Endless
  }

  lemma BadStep(e: Engine, ask: string, good: nat, s: Run)
    requires Trapped(s, good) && Springs(e, ask, good) && !IsBlank(ask)
    ensures Step(Trap(e, ask, good), s, good + 1).status == Hung
  {
    hide Perform, Select, SpeakPhase, JudgePhase, RoleCall, VerdictFor;
    var c := Trap(e, ask, good);
    var s0 := Tick(s).(pending := [], starts := s.starts + [s.desk.tick]);
    assert OverrideOf(CodeJob, c.req) == ask;
    var sel := Select(Some(e), "coder", ask, good);
    BadCall(e, ask, good, Account(s0, sel.usage).desk, sel.model);
    RoleCallHangsIff(c, s0, CodeJob);
  }


  lemma {:induction false} TrapHangs(e: Engine, ask: string, good: nat, s: Run, k: nat)
    requires (forall used: nat | used < good :: Baits(e, ask, used)) && Springs(e, ask, good) && !IsBlank(ask)
    requires k <= good && Trapped(s, k)
    ensures Steps(Trap(e, ask, good), s, k + 1).status == Hung
    decreases good - k
  {
    hide Step, Springs, Baits;
    if k < good {
      GoodStep(e, ask, good, s, k);
      TrapHangs(e, ask, good, Step(Trap(e, ask, good), s, k + 1), k + 1);
    } else {
      BadStep(e, ask, good, s);
    }
  }

  // ---- where the trap is ----

  /** Asking by id, within the budget or when it is spent, selects where the id lands, or the id if it lands nowhere. */
  lemma AskedModel(e: Engine, ask: string, used: nat)
    requires !IsBlank(ask)
    ensures var sel, x := Select(Some(e), "coder", ask, used), Landing(e, ask, OverBudget(e.cfg, used));
            && sel.model == (if x == "" then ask else x)
            && (sel.usage.Some? <==> x != "")
            && (sel.usage.Some? ==>
                  var ch := Budgeted(e, "coder", ask, if OverBudget(e.cfg, used) then e.cfg.maxExpensive else 0);
                  ch.Chosen? && sel.usage.value.expensive == ch.expensive)
  {
    ProbeIsLanding(e, "coder", "", ask, used);
    hide Budgeted;
    assert FirstNonEmpty([ask]) == ask;
  }

  /** A registry as registration builds it. */
  ghost predicate Registered(e: Engine) {
    e.registry.Some? ==> e.registry.value.Named() && "" !in e.registry.value.models
  }

  /** What asking by id with the whole budget left comes to is expensive. */
  predicate Dear(e: Engine, id: string) {
    var choice := Budgeted(e, "coder", id, 0);
    choice.Chosen? && choice.expensive
  }

  /** An id that lands on a cheap model lands there with the budget spent too. */
  lemma CheapStays(e: Engine, id: string)
    requires !Dear(e, id)
    ensures Landing(e, id, true) == Landing(e, id, false)
  {
    hide Unbudgeted;
  }

  /** What a selection without budget comes to is known by the name of its model. */
  lemma KnownByName(e: Engine, id: string)
    requires Registered(e)
    ensures var choice := Unbudgeted(e, "coder", id);
            choice.Chosen? ==> choice.route.name != "" && e.registry.Some?
                               && e.registry.value.Resolve(choice.route.name).Ok?
                               && choice == Choose(e.registry.value, e.registry.value.Resolve(choice.route.name).value)
    ensures Landing(e, id, false)
         == match Unbudgeted(e, "coder", id) case Chosen(_, route, _) => route.name case _ => ""
  {
    if e.registry.Some? {
      FirstResolvableIsRegistered(e.registry.value, Candidates(e.cfg, "coder", id));
    }
    hide FirstResolvable, Candidates;
  }

  /** Two ids that land on the same model, or nowhere, do so with the budget spent too. */
  lemma TogetherStays(e: Engine, a: string, b: string)
    requires Registered(e) && Landing(e, a, false) == Landing(e, b, false)
    ensures Landing(e, a, true) == Landing(e, b, true)
  {
    hide Unbudgeted, Registered;
    KnownByName(e, a);
    KnownByName(e, b);
  }

  /** With budget left two different fallbacks are apart unless they land on the same model or both nowhere. */
  lemma ApartWithBudget(e: Engine, a: string, b: string)
    requires Registered(e) && !IsBlank(a) && !IsBlank(b) && a != b
    requires a in e.cfg.fallbacks && b in e.cfg.fallbacks
    requires Landing(e, a, false) != Landing(e, b, false)
    ensures Apart(e, a, b, false)
  {
    hide Budgeted;
    LandsSomewhere(e, a, b);
    LandsSomewhere(e, b, a);
  }

  lemma LandsSomewhere(e: Engine, a: string, b: string)
    requires Registered(e) && !IsBlank(a) && !IsBlank(b)
    requires a in e.cfg.fallbacks && b in e.cfg.fallbacks
    ensures Landing(e, a, false) == "" ==> Landing(e, b, false) == ""
    ensures Landing(e, a, false) == b ==> Landing(e, b, false) == b
  {
    hide Unbudgeted, Candidates, Landing;
    KnownByName(e, a);
    KnownByName(e, b);
    if e.registry.Some? {
      SameCandidates(e, a, b);
      UnbudgetedIsFirstCandidate(e, "coder", a);
      UnbudgetedIsFirstCandidate(e, "coder", b);
      if Landing(e, a, false) == b {
        AskedForIsChosen(e, "coder", b, 0);
      }
    }
  }

  lemma SameCandidates(e: Engine, a: string, b: string)
    requires !IsBlank(a) && !IsBlank(b) && a in e.cfg.fallbacks && b in e.cfg.fallbacks
    ensures forall id :: id in Candidates(e.cfg, "coder", a) <==> id in Candidates(e.cfg, "coder", b)
  {
    assert PreferredId(e.cfg, "coder", a) == a && PreferredId(e.cfg, "coder", b) == b;
  }

  /** With budget left, a dear id is a bait; with the budget spent, asking keeps it spent. */
  lemma AskedDear(e: Engine, ask: string, used: nat)
    requires Registered(e) && !IsBlank(ask) && !OverBudget(e.cfg, used) && Dear(e, ask)
    ensures Baits(e, ask, used)
  {
    hide Budgeted, Select;
    AskedModel(e, ask, used);
    KnownByName(e, ask);
    LandsNamed(e, ask);
  }

  lemma LandsNamed(e: Engine, id: string)
    requires Registered(e) && !IsBlank(id)
    ensures Landing(e, id, false) != "" ==> e.registry.Some? && e.registry.value.Resolvable(Landing(e, id, false))
    ensures Dear(e, id) ==> Landing(e, id, false) != ""
  {
    hide Unbudgeted;
    KnownByName(e, id);
  }

  /** Both fallbacks land on the same model with budget left: the first of them is the trap. */
  lemma TogetherIsTrap(e: Engine, a: string, b: string) returns (good: nat)
    requires Registered(e) && a == FirstId(e.cfg.fallbacks) && b == SecondId(e.cfg.fallbacks) && b != ""
    requires Landing(e, a, false) == Landing(e, b, false)
    ensures Springs(e, a, good) && forall used: nat | used < good :: Baits(e, a, used)
  {
    hide Budgeted, Select, Landing, VerdictFor, NextFallback;
    OneFallbackIff(e.cfg.fallbacks);
    TogetherStays(e, a, b);
    AskedModel(e, a, 0);
    var sel := Select(Some(e), "coder", a, 0);
    var used := CostOf(sel.usage);
    EndlessIff(e, "coder", sel.model, used);
    if !OverBudget(e.cfg, used) {
      good := 0;
    } else {
      good := 1;
      assert Dear(e, a);
      AskedDear(e, a, 0);
      AskedModel(e, a, 1);
      var sel1 := Select(Some(e), "coder", a, 1);
      EndlessIff(e, "coder", sel1.model, 1 + CostOf(sel1.usage));
    }
  }

  /** The fallbacks are apart with budget left and not when it is spent: a dear one is the trap for the whole budget. */
  lemma DearIsTrap(e: Engine, a: string, b: string, ask: string)
    requires Registered(e) && a == FirstId(e.cfg.fallbacks) && b == SecondId(e.cfg.fallbacks) && b != ""
    requires e.cfg.maxExpensive > 0 && ask in [a, b] && Dear(e, ask)
    requires var current := Landing(e, ask, true);
             && current != ""
             && (a == current || Landing(e, a, true) in ["", current])
             && (b == current || Landing(e, b, true) in ["", current])
    ensures Springs(e, ask, e.cfg.maxExpensive) && forall used: nat | used < e.cfg.maxExpensive :: Baits(e, ask, used)
  {
    hide Budgeted, Select, Landing, VerdictFor, NextFallback, Dear, Baits;
    OneFallbackIff(e.cfg.fallbacks);
    AskedModel(e, ask, e.cfg.maxExpensive);
    var sel := Select(Some(e), "coder", ask, e.cfg.maxExpensive);
    EndlessIff(e, "coder", sel.model, e.cfg.maxExpensive + CostOf(sel.usage));
    forall used: nat | used < e.cfg.maxExpensive ensures Baits(e, ask, used) {
      AskedDear(e, ask, used);
    }
  }

  lemma SpentLands(e: Engine, id: string)
    requires Registered(e) && !IsBlank(id) && Landing(e, id, false) != ""
    ensures Landing(e, id, true) != ""
  {
    hide Unbudgeted, FirstResolvable;
    KnownByName(e, id);
    BudgetedIsRegistered(e, "coder", id, if e.cfg.maxExpensive > 0 then e.cfg.maxExpensive else 0);
  }

  lemma FindTrap(e: Engine) returns (ask: string, good: nat)
    requires Registered(e) && !NeverLoops(e)
    ensures !IsBlank(ask) && Springs(e, ask, good) && forall used: nat | used < good :: Baits(e, ask, used)
  {
    hide Landing, Springs, Baits, Dear, Registered, NextFallback;
    var a, b := FirstId(e.cfg.fallbacks), SecondId(e.cfg.fallbacks);
    OneFallbackIff(e.cfg.fallbacks);
    if Landing(e, a, false) == Landing(e, b, false) {
      good := TogetherIsTrap(e, a, b);
      ask := a;
    } else {
      ApartWithBudget(e, a, b);
      SpentLands(e, a);
      SpentLands(e, b);
      if !Dear(e, a) {
        CheapStays(e, a);
      }
      if !Dear(e, b) {
        CheapStays(e, b);
      }
      if e.cfg.maxExpensive <= 0 {
        LandingWithoutBudget(e, a);
        LandingWithoutBudget(e, b);
      }
      ask := if Dear(e, a) && Landing(e, b, true) != a then a else b;
      good := e.cfg.maxExpensive;
      DearIsTrap(e, a, b, ask);
    }
  }

  // ---- the laws ----

  /** Every run over the strategy returns. */
  ghost predicate AllRunsReturn(e: Engine) {
    forall c: Config, desk: Desk | c.strategy == Some(e) :: RunTask(c, desk).status == Ended
  }

  /** The run that hangs: no terminal event is sent. */
  lemma LoopingStrategyHangs(e: Engine) returns (c: Config)
    requires Registered(e) && !NeverLoops(e)
    ensures c.strategy == Some(e)
    ensures RunTask(c, IDLE).status == Hung
    ensures forall i | 0 <= i < |RunTask(c, IDLE).trace| :: !Terminal(RunTask(c, IDLE).trace[i])
  {
    hide Registered, NeverLoops, Springs, Baits, Step, ReadAll;
    var ask, good := FindTrap(e);
    c := Trap(e, ask, good);
    TrapHangs(e, ask, good, Begin(IDLE), 0);
    RunInGrammar(c, IDLE);
    OneTerminalEvent(RunTask(c, IDLE).trace, good + 1);
  }

  /** For a registry as registration builds it: every run over a strategy returns, whatever the rest of the
      configuration, the outside world and the agent's state, if and only if the strategy never loops. */
  lemma AllRunsReturnIff(e: Engine)
    requires Registered(e)
    ensures AllRunsReturn(e) <==> NeverLoops(e)
  {
    hide RunTask, NeverLoops, Registered;
    forall c: Config, desk: Desk | c.strategy == Some(e) && NeverLoops(e) ensures RunTask(c, desk).status == Ended {
      AllWalksEndIff(e);
      RunReturns(c, desk);
    }
    if !NeverLoops(e) {
      var c := LoopingStrategyHangs(e);
      assert RunTask(c, IDLE).status != Ended;
    }
  }

  // ---- strategies whose fallbacks are all registered ----

  predicate AllResolve(e: Engine) {
    e.registry.Some? && forall fb | fb in e.cfg.fallbacks :: e.registry.value.Resolvable(fb)
  }

  /** The model that expensive choices give way to once the budget is spent: the first fallback if it is cheap, else the
      strategy's default model if it is registered, else the first fallback. */
  function EscapeModel(e: Engine): string
    requires e.registry.Some? && e.cfg.fallbacks != [] && e.registry.value.Resolvable(e.cfg.fallbacks[0])
  {
    var k := e.registry.value;
    var first := k.Resolve(e.cfg.fallbacks[0]).value.route.name;
    var fromDefault := e.cfg.defaultModel != "" && k.Resolvable(e.cfg.defaultModel);
    if k.IsExpensive(first) && fromDefault then e.cfg.defaultModel else first
  }

  /** One of the first two different fallbacks is cheap and not the model to escape to. */
  predicate CheapBesideEscape(e: Engine)
    requires AllResolve(e)
  {
    var fbs := e.cfg.fallbacks;
    && fbs != []
    && (assert fbs[0] in fbs;
        exists x | x in [FirstId(fbs), SecondId(fbs)] :: !e.registry.value.IsExpensive(x) && x != EscapeModel(e))
  }

  lemma RegisteredLanding(e: Engine, id: string)
    requires Registered(e) && AllResolve(e) && id in e.cfg.fallbacks && !IsBlank(id)
    ensures e.cfg.fallbacks[0] in e.cfg.fallbacks
    ensures Landing(e, id, false) == id && EscapeModel(e) != ""
    ensures e.cfg.maxExpensive > 0 ==>
              Landing(e, id, true) == if e.registry.value.IsExpensive(id) then EscapeModel(e) else id
  {
    var k := e.registry.value;
    assert e.cfg.fallbacks[0] in e.cfg.fallbacks;
    AskedForIsChosen(e, "coder", id, 0);
    assert Budgeted(e, "coder", id, 0) == Unbudgeted(e, "coder", id);
    assert FirstAt(k, e.cfg.fallbacks, 0);
    hide Unbudgeted;
  }

  /** With every fallback registered, a strategy never loops if and only if all fallbacks that are not blank are equal,
      or there is no budget, or one of the first two different ones is cheap and not the model to escape to. */
  lemma NeverLoopsIff(e: Engine)
    requires Registered(e) && AllResolve(e)
    ensures NeverLoops(e) <==>
            || OneFallback(e.cfg.fallbacks)
            || e.cfg.maxExpensive <= 0
            || CheapBesideEscape(e)
  {
    hide Landing, NextFallback, Registered, EscapeModel;
    var a, b := FirstId(e.cfg.fallbacks), SecondId(e.cfg.fallbacks);
    OneFallbackIff(e.cfg.fallbacks);
    if !OneFallback(e.cfg.fallbacks) {
      RegisteredLanding(e, a);
      RegisteredLanding(e, b);
      if e.cfg.maxExpensive <= 0 {
        LandingWithoutBudget(e, a);
        LandingWithoutBudget(e, b);
      }
      assert a in [a, b] && b in [a, b];
    }
  }

  /** A strategy under which a run hangs though both of its fallbacks are registered. */
  lemma RunCanHang() returns (c: Config)
    ensures c.strategy == Some(CHEAP_AND_DEAR) && AllResolve(CHEAP_AND_DEAR)
    ensures RunTask(c, IDLE).status == Hung
    ensures forall i | 0 <= i < |RunTask(c, IDLE).trace| :: !Terminal(RunTask(c, IDLE).trace[i])
  {
    hide VerdictFor, NeverLoops, RunTask;
    SpentBudgetCanHang();
    AllWalksEndIff(CHEAP_AND_DEAR);
    c := LoopingStrategyHangs(CHEAP_AND_DEAR);
  }
}
