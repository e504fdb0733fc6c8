/** What a run's stream tells about the run: which observations each reflection was given, how many tokens were
    counted, how the history grew, and that no step begins after cancellation. */
module RunStory {
  import opened Outcomes
  import opened Text
  import opened Strategy
  import opened FallbackWalk
  import opened AgentState
  import opened RunMachine

  // ---- reading the stream ----

  /** The successful tool executions by step; those before the first step belong to it. */
  function ToolsByStep(trace: seq<Event>): (r: seq<seq<Observation>>)
    ensures r != []
  {
    if trace == [] then [[]]
    else
      var r := ToolsByStep(trace[..|trace| - 1]);
      match trace[|trace| - 1]
      case ToolEvent(name, output) => r[|r| - 1 := r[|r| - 1] + [Observation(name, output)]]
      case MessageEvent(_, k) => if k > |r| then r + [[]] else r
      case _ => r
  }

  /** The messages that open a step; the notice of a halt repeats its step's number. */
  function StepsOpened(trace: seq<Event>): nat {
    if trace == [] then 0
    else
      var n := StepsOpened(trace[..|trace| - 1]);
      var last := trace[|trace| - 1];
      if last.MessageEvent? && last.step == n + 1 then n + 1 else n
  }

  function TokenCount(trace: seq<Event>): nat {
    if trace == [] then 0
    else TokenCount(trace[..|trace| - 1]) + if trace[|trace| - 1].TokenEvent? then 1 else 0
  }

  predicate IsDone(trace: seq<Event>) {
    trace != [] && trace[|trace| - 1].DoneEvent?
  }

  function ToolsHanded(reflections: seq<Reflected>): seq<seq<Observation>> {
    seq(|reflections|, i requires 0 <= i < |reflections| => reflections[i].tools)
  }

  /** Every reflection's previous assistant text is the reflection before it, as stored; the first one's is given. */
  ghost predicate Chained(first: string, reflections: seq<Reflected>) {
    && (reflections != [] ==> reflections[0].previous == first)
    && forall i | 1 <= i < |reflections| :: reflections[i].previous == "Reflection: " + reflections[i - 1].text
  }

  lemma TellOne(trace: seq<Event>, e: Event)
    ensures TokenCount(trace + [e]) == TokenCount(trace) + if e.TokenEvent? then 1 else 0
    ensures !e.ToolEvent? && !e.MessageEvent? ==>
              ToolsByStep(trace + [e]) == ToolsByStep(trace) && StepsOpened(trace + [e]) == StepsOpened(trace)
    ensures e.ToolEvent? ==>
              var r := ToolsByStep(trace);
              ToolsByStep(trace + [e]) == r[|r| - 1 := r[|r| - 1] + [Observation(e.name, e.output)]]
              && StepsOpened(trace + [e]) == StepsOpened(trace)
    ensures e.MessageEvent? ==>
              && ToolsByStep(trace + [e])
                 == (if e.step > |ToolsByStep(trace)| then ToolsByStep(trace) + [[]] else ToolsByStep(trace))
              && StepsOpened(trace + [e]) == (if e.step == StepsOpened(trace) + 1 then e.step else StepsOpened(trace))
  {
    assert (trace + [e])[..|trace|] == trace;
  }

  // ---- streaming phases ----

  /** The stream of `r` tells of the same steps and tools as that of `s`. */
  predicate SameStory(s: Run, r: Run) {
    && ToolsByStep(r.trace) == ToolsByStep(s.trace)
    && StepsOpened(r.trace) == StepsOpened(s.trace)
  }

  lemma {:induction false} TokensTold(o: Oracle, s: Run, tokens: seq<string>, step: nat, idx: nat)
    requires idx <= |tokens| && s.status == Running
    ensures var r := EmitTokens(o, s, tokens, step, idx);
            && SameStory(s, r) && r.tokens == s.tokens
            && (r.status == Running ==> TokenCount(r.trace) == TokenCount(s.trace) + |tokens| - idx)
            && (!IsDone(s.trace) ==> !IsDone(r.trace))
    decreases |tokens| - idx
  {
    if idx < |tokens| {
      var e := TokenEvent(tokens[idx], step * 1000 + idx);
      TellOne(s.trace, ErrorEvent("cancelled"));
      TellOne(s.trace, e);
      if !(o.Cancelled(s.desk.tick) && o.sendLoses(s.desk.tick)) {
        TokensTold(o, Emit(Tick(s), e), tokens, step, idx + 1);
      }
    }
  }

  lemma {:induction false} ToolsTold(o: Oracle, s: Run, seen: seq<Observation>, calls: seq<ToolCall>)
    requires s.status == Running
    ensures var (r, tools) := RunTools(o, s, seen, calls);
            var told, told' := ToolsByStep(s.trace), ToolsByStep(r.trace);
            && |told'| == |told|
            && (told[|told| - 1] == seen ==> told' == told[|told| - 1 := tools])
            && StepsOpened(r.trace) == StepsOpened(s.trace)
            && TokenCount(r.trace) == TokenCount(s.trace) && r.tokens == s.tokens
            && (!IsDone(s.trace) ==> !IsDone(r.trace))
    decreases |calls|
  {
    hide ToolsByStep, StepsOpened, TokenCount;
    if calls != [] {
      var name := calls[0].name;
      match RunTool(o, s.desk.tick, calls[0])
      case Err(e) => TellOne(s.trace, ToolFailed(name, e));
      case Ok(output) =>
        TellOne(s.trace, ToolEvent(name, output));
        ToolsTold(o, Emit(Tick(s), ToolEvent(name, output)), seen + [Observation(name, output)], calls[1..]);
    }
  }

  // ---- what calls add to the run's session ----

  function Mine(c: Config, d: Desk): seq<ChatMessage> {
    HistoryOf(d.sessions, c.req.sessionId)
  }

  /** What an answered job adds to the history of the run's session. */
  ghost predicate Grows(c: Config, d: Desk, job: Job, d': Desk, r: Result<Answer>) {
    if r.Err? || job.PlanJob? then Mine(c, d') == Mine(c, d)
    else if job.CodeJob? then
      && r.value.CodeAnswer?
      && |Mine(c, d')| == |Mine(c, d)| + 2 && Mine(c, d) <= Mine(c, d')
      && Mine(c, d')[|Mine(c, d)| + 1] == r.value.response.message
      && r.value.response.previousAssistant == LastAssistant(Mine(c, d))
    else
      && r.value.TextAnswer?
      && (c.agent.cfg.enableReflect ==> Mine(c, d') == Mine(c, d) + [ReflectionMessage(r.value.text)])
  }

  lemma ConverseGrows(a: Setup, o: Oracle, d: Desk, key: string, model: string, req: Request)
    requires key in d.sessions
    ensures var (d', r) := Converse(a, o, d, key, model, req);
            var h, h' := HistoryOf(d.sessions, key), HistoryOf(d'.sessions, key);
            if r.Err? then h' == h
            else h' == h + [ChatMessage(User, UserPrompt(req.prompt, req.context)), r.value.message]
                 && r.value.previousAssistant == LastAssistant(h)
  {
  }

  lemma ReflectGrows(a: Setup, o: Oracle, d: Desk, req: Request, last: Response, context: ReflectionContext)
    requires req.sessionId != "" && a.cfg.enableReflect
    ensures var (d', r) := ReflectCall(a, o, d, req, last, context);
            var h, h' := HistoryOf(d.sessions, req.sessionId), HistoryOf(d'.sessions, req.sessionId);
            h' == if r.Err? then h else h + [ReflectionMessage(r.value)]
  {
  }

  lemma RunGrows(a: Setup, o: Oracle, d: Desk, req: Request)
    requires req.sessionId != ""
    ensures var (d', r) := RunCall(a, o, d, req);
            var h, h' := HistoryOf(d.sessions, req.sessionId), HistoryOf(d'.sessions, req.sessionId);
            if r.Err? then h' == h
            else h' == h + [ChatMessage(User, UserPrompt(req.prompt, req.context)), r.value.message]
                 && r.value.previousAssistant == LastAssistant(h)
  {
    hide PlanCall, Converse;
    PlanningLeavesHistories(a, o, d, InnerPlan, req, req.sessionId);
    if req.prompt != "" && a.catalog.Resolve(req.model).Ok? {
      var d1 := if a.cfg.enablePlan then PlanCall(a, o, d, InnerPlan, req).0 else d;
      var (d2, key) := EnsureSession(o, d1, req.sessionId);
      ConverseGrows(a, o, d2, key, a.catalog.Resolve(req.model).value.route.name, req);
    }
  }

  lemma PerformGrows(c: Config, d: Desk, job: Job, model: string)
    requires c.req.sessionId != ""
    ensures var (d', r) := Perform(c, d, job, model); Grows(c, d, job, d', r)
  {
    hide PlanCall, RunCall, ReflectCall, HistoryOf, LastAssistant;
    var req := Request(c.req.sessionId, model, c.req.prompt, c.context);
    match job
    case PlanJob => PlanningLeavesHistories(c.agent, c.oracle, d, OuterPlan, req, c.req.sessionId);
    case ReflectJob(last, context) =>
      var bare := req.(context := []);
      var (d', r) := ReflectCall(c.agent, c.oracle, d, bare, last, context);
      assert Perform(c, d, job, model) == (d', AsText(r));
      if c.agent.cfg.enableReflect {
        ReflectGrows(c.agent, c.oracle, d, bare, last, context);
      } else {
        ReflectOff(c.agent, c.oracle, d, bare, last, context);
      }
    case CodeJob =>
      var (d', r) := RunCall(c.agent, c.oracle, d, req);
      assert Perform(c, d, job, model) == (d', AsCode(r));
      RunGrows(c.agent, c.oracle, d, req);
  }

  lemma ReflectOff(a: Setup, o: Oracle, d: Desk, req: Request, last: Response, context: ReflectionContext)
    requires !a.cfg.enableReflect
    ensures ReflectCall(a, o, d, req, last, context) == (d, Ok(""))
  {
  }

  lemma RoleCallGrows(c: Config, s: Run, job: Job)
    requires c.req.sessionId != ""
    ensures var (r, answer) := RoleCall(c, s, job); Grows(c, s.desk, job, r.desk, answer)
  {
    hide Perform, Budgeted, NextFallback;
    var role := RoleOf(job);
    var sel := Select(c.strategy, role, OverrideOf(job, c.req), s.used);
    var s1 := Account(s, sel.usage);
    PerformGrows(c, s1.desk, job, sel.model);
    var s2 := s1.(desk := Perform(c, s1.desk, job, sel.model).0);
    var verdict := Fallback(c, role, sel.model, s2.used);
    if verdict.Picked? {
      PerformGrows(c, Account(s2, Some(verdict.usage)).desk, job, verdict.usage.model);
    }
  }

  // ---- the state of the story ----

  /** Holds all along: starts are uncancelled, the history has grown by two messages a step and one a reflection,
      and the reflections are chained. */
  ghost predicate Ongoing(c: Config, d0: Desk, s: Run) {
    && (forall t | t in s.starts :: !c.oracle.Cancelled(t))
    && StepsOpened(s.trace) <= |s.starts|
    && (!c.agent.cfg.enableReflect ==> s.reflections == [])
    && (c.req.sessionId != "" ==>
          && |Mine(c, s.desk)| == |Mine(c, d0)| + 2 * StepsOpened(s.trace) + |s.reflections|
          && Chained(LastAssistant(Mine(c, d0)), s.reflections))
  }

  /** After `k` whole steps of a run that goes on. */
  ghost predicate Told(c: Config, d0: Desk, s: Run, k: nat) {
    && Ongoing(c, d0, s)
    && s.status == Running && s.metrics == [] && !IsDone(s.trace)
    && s.tokens == TokenCount(s.trace)
    && StepsOpened(s.trace) == |s.starts| == k
    && |ToolsByStep(s.trace)| == (if k == 0 then 1 else k)
    && (c.req.sessionId != "" && k == 0 ==> Mine(c, s.desk) == Mine(c, d0))
    && (c.agent.cfg.enableReflect ==>
          && |s.reflections| == k
          && (if k == 0 then ToolsByStep(s.trace) == [s.pending]
              else s.pending == [] && ToolsHanded(s.reflections) == ToolsByStep(s.trace))
          && (c.req.sessionId != "" && k > 0 ==>
                && Mine(c, s.desk) != []
                && Mine(c, s.desk)[|Mine(c, s.desk)| - 1] == ReflectionMessage(s.reflections[k - 1].text)))
  }

  /** In step `k`, after the message, the tokens and the tools. */
  ghost predicate Spoke(c: Config, d0: Desk, s: Run, k: nat, resp: Response, tools: seq<Observation>) {
    && Ongoing(c, d0, s)
    && s.status == Running && s.metrics == [] && !IsDone(s.trace)
    && s.tokens == TokenCount(s.trace)
    && 1 <= k && StepsOpened(s.trace) == |s.starts| == k
    && |ToolsByStep(s.trace)| == k
    && s.pending == []
    && (c.agent.cfg.enableReflect ==>
          && |s.reflections| == k - 1
          && ToolsByStep(s.trace) == ToolsHanded(s.reflections) + [tools]
          && (c.req.sessionId != "" && k == 1 ==> resp.previousAssistant == LastAssistant(Mine(c, d0)))
          && (c.req.sessionId != "" && k > 1 ==> resp.previousAssistant == "Reflection: " + s.reflections[k - 2].text))
  }

  /** What a run that has stopped tells. */
  ghost predicate Over(c: Config, d0: Desk, s: Run) {
    && Ongoing(c, d0, s)
    && s.metrics
       == (if IsDone(s.trace) then [RunMetric(s.trace[|s.trace| - 1].finishReason, TokenCount(s.trace))] else [])
    && (c.agent.cfg.enableReflect ==>
          if IsDone(s.trace) then ToolsHanded(s.reflections) == ToolsByStep(s.trace)
          else ToolsHanded(s.reflections) <= ToolsByStep(s.trace))
  }

  // ---- one step ----

  lemma LastIsReflection(history: seq<ChatMessage>, text: string)
    requires history != [] && history[|history| - 1] == ReflectionMessage(text)
    ensures LastAssistant(history) == "Reflection: " + text
  {
  }

  /** The message of step `k` opens the step, with the tools still pending. */
  lemma MessageOpens(c: Config, d0: Desk, s: Run, k: nat, message: string)
    requires 1 <= k && Told(c, d0, s, k - 1)
    ensures var trace := s.trace + [MessageEvent(message, k)];
            && StepsOpened(trace) == k && |ToolsByStep(trace)| == k
            && TokenCount(trace) == TokenCount(s.trace) && !IsDone(trace)
            && (c.agent.cfg.enableReflect ==> ToolsByStep(trace) == ToolsHanded(s.reflections) + [s.pending])
  {
    hide TokenCount, StepsOpened, ToolsByStep, Mine, Chained;
    TellOne(s.trace, MessageEvent(message, k));
  }

  lemma SpeechTold(c: Config, d0: Desk, s: Run, k: nat, s1: Run, resp: Response)
    requires 1 <= k && Told(c, d0, s, k - 1)
    requires s1 == s.(desk := s1.desk, used := s1.used, usages := s1.usages, pending := [], starts := s1.starts)
    requires |s1.starts| == k && (forall t | t in s1.starts :: !c.oracle.Cancelled(t))
    requires c.req.sessionId != "" ==>
               |Mine(c, s1.desk)| == |Mine(c, s.desk)| + 2 && resp.previousAssistant == LastAssistant(Mine(c, s.desk))
    ensures var (r, tools) := SpeakPhase(c, s1, k, resp, s.pending);
            if r.status == Running then Spoke(c, d0, r, k, resp, tools) else Over(c, d0, r)
  {
    hide EmitTokens, RunTools, TokenCount, StepsOpened, ToolsByStep, Fields, HistoryOf, LastAssistant, Chained,
      ToolsHanded;
    if c.agent.cfg.enableReflect && c.req.sessionId != "" && k > 1 {
      LastIsReflection(Mine(c, s.desk), s.reflections[k - 2].text);
    }
    MessageOpens(c, d0, s, k, resp.message.content);
    var tokens := Fields(resp.message.content);
    var s2 := Emit(s1, MessageEvent(resp.message.content, k));
    TokensTold(c.oracle, s2, tokens, k, 0);
    var s3 := EmitTokens(c.oracle, s2, tokens, k, 0);
    if s3.status == Running && c.tools.Some? {
      var s4 := s3.(tokens := s3.tokens + |tokens|);
      ToolsTold(c.oracle, s4, s.pending, c.oracle.toolCalls(resp.message.content));
    }
  }

  lemma TestTold(c: Config, d0: Desk, s: Run, k: nat, resp: Response, tools: seq<Observation>)
    requires Spoke(c, d0, s, k, resp, tools)
    ensures Spoke(c, d0, TestPhase(c, s, k, IsResponseDone(resp)).0, k, resp, tools)
  {
    hide RunTests, TokenCount, StepsOpened, ToolsByStep, IsResponseDone;
    TellOne(s.trace, TestEvent(k, RunTests(c, s.desk.tick).1));
  }

  lemma ReflectionTold(c: Config, d0: Desk, s: Run, k: nat, resp: Response, tools: seq<Observation>,
                       test: Option<TestReport>)
    requires Spoke(c, d0, s, k, resp, tools)
    ensures var r := ReflectPhase(c, s, k, resp, tools, test).0;
            if r.status == Running then Told(c, d0, r, k) else Over(c, d0, r)
  {
    hide RoleCall, TokenCount, StepsOpened, ToolsByStep, ContextFor, Blocks, IsBlank, LastAssistant, Mine;
    if c.agent.cfg.enableReflect {
      var job := ReflectJob(resp, ContextFor(c, resp, tools, test));
      var (s1, r) := RoleCall(c, s, job);
      if c.req.sessionId != "" {
        RoleCallGrows(c, s, job);
      }
      if r.Err? {
        TellOne(s1.trace, ErrorEvent(r.error));
      } else {
        var reflected := Reflected(resp.previousAssistant, tools, r.value.text);
        assert ToolsHanded(s.reflections + [reflected]) == ToolsHanded(s.reflections) + [tools];
        TellOne(s1.trace, ReflectEvent(r.value.text, k));
      }
    }
  }

  lemma ConclusionTold(c: Config, d0: Desk, s: Run, k: nat, resp: Response, blocked: bool)
    requires 1 <= k && Told(c, d0, s, k)
    ensures var r := Conclude(s, k, resp, blocked);
            if r.status == Running then Told(c, d0, r, k) else Over(c, d0, r)
  {
    if blocked {
      var notice := MessageEvent("Run halted by reflection policy (" + BLOCKED + ")", k);
      TellOne(s.trace, notice);
      FinishTold(c, d0, Emit(s, notice), k, BLOCKED);
    } else {
      FinishTold(c, d0, s, k, resp.finishReason);
    }
  }

  lemma FinishTold(c: Config, d0: Desk, s: Run, k: nat, reason: string)
    requires Ongoing(c, d0, s) && s.metrics == [] && s.tokens == TokenCount(s.trace)
    requires c.agent.cfg.enableReflect ==> ToolsHanded(s.reflections) == ToolsByStep(s.trace)
    ensures Over(c, d0, Finish(s, k, reason))
  {
    hide TokenCount, StepsOpened, ToolsByStep;
    TellOne(s.trace, DoneEvent(reason, k));
  }

  lemma JudgementTold(c: Config, d0: Desk, s: Run, k: nat, resp: Response, tools: seq<Observation>)
    requires Spoke(c, d0, s, k, resp, tools)
    ensures var r := JudgePhase(c, s, k, resp, tools);
            if r.status == Running then Told(c, d0, r, k) else Over(c, d0, r)
  {
    assert 1 <= k;
    hide TestPhase, ReflectPhase, Conclude, IsResponseDone, Told, Over, Spoke;
    TestTold(c, d0, s, k, resp, tools);
    var (s1, test) := TestPhase(c, s, k, IsResponseDone(resp));
    ReflectionTold(c, d0, s1, k, resp, tools, test);
    var (s2, blocked) := ReflectPhase(c, s1, k, resp, tools, test);
    if s2.status == Running {
      ConclusionTold(c, d0, s2, k, resp, blocked);
    }
  }

  /** A run that stops without a done event, its story as it was. */
  lemma StopTold(c: Config, d0: Desk, s: Run, k: nat, r: Run)
    requires Told(c, d0, s, k)
    requires r.trace == s.trace || exists e :: r.trace == s.trace + [ErrorEvent(e)]
    requires r.metrics == s.metrics && r.reflections == s.reflections
    requires |s.starts| <= |r.starts| && (forall t | t in r.starts :: !c.oracle.Cancelled(t))
    requires c.req.sessionId != "" ==> Mine(c, r.desk) == Mine(c, s.desk)
    ensures Over(c, d0, r)
  {
    hide TokenCount, StepsOpened, ToolsByStep;
    if r.trace != s.trace {
      var e :| r.trace == s.trace + [ErrorEvent(e)];
      TellOne(s.trace, ErrorEvent(e));
    }
  }

  lemma StepTold(c: Config, d0: Desk, s: Run, k: nat)
    requires 1 <= k && Told(c, d0, s, k - 1)
    ensures var r := Step(c, s, k);
            if r.status == Running then Told(c, d0, r, k) else Over(c, d0, r)
  {
    hide RoleCall, SpeakPhase, JudgePhase, Over, TokenCount, StepsOpened, ToolsByStep;
    var s0 := Tick(s).(pending := [], starts := s.starts + [s.desk.tick]);
    var (s1, r) := RoleCall(c, s0, CodeJob);
    if c.oracle.Cancelled(s.desk.tick) {
      StopTold(c, d0, s, k - 1, Step(c, s, k));
    } else {
      if c.req.sessionId != "" {
        RoleCallGrows(c, s0, CodeJob);
      }
      if r.Err? {
        StopTold(c, d0, s, k - 1, Step(c, s, k));
      } else {
        SpeechTold(c, d0, s, k, s1, r.value.response);
        var (s2, tools) := SpeakPhase(c, s1, k, r.value.response, s.pending);
        if s2.status == Running {
          JudgementTold(c, d0, s2, k, r.value.response, tools);
        }
      }
    }
  }

  lemma {:induction false} StepsTold(c: Config, d0: Desk, s: Run, k: nat)
    requires 1 <= k <= c.agent.cfg.MaxSteps() + 1 && Told(c, d0, s, k - 1)
    ensures Over(c, d0, Steps(c, s, k))
    ensures |Steps(c, s, k).starts| <= c.agent.cfg.MaxSteps()
    decreases c.agent.cfg.MaxSteps() + 1 - k
  {
    hide Step, TokenCount, StepsOpened, ToolsByStep;
    if k > c.agent.cfg.MaxSteps() {
      FinishTold(c, d0, s, c.agent.cfg.MaxSteps(), "max_steps");
    } else {
      StepTold(c, d0, s, k);
      StepStarts(c, s, k);
      if Step(c, s, k).status == Running {
        StepsTold(c, d0, Step(c, s, k), k + 1);
      }
    }
  }

  lemma StepStarts(c: Config, s: Run, k: nat)
    ensures Step(c, s, k).starts == s.starts + if c.oracle.Cancelled(s.desk.tick) then [] else [s.desk.tick]
    ensures c.oracle.Cancelled(s.desk.tick) ==>
              Step(c, s, k).trace == s.trace + [ErrorEvent("cancelled")] && Step(c, s, k).status == Ended
  {
    hide RoleCall, SpeakPhase, TestPhase, IsResponseDone;
  }

  lemma PrologueTold(c: Config, desk: Desk)
    ensures var r := Prologue(c, desk);
            if r.status == Running then Told(c, desk, r, 0) else Over(c, desk, r) && r.starts == []
  {
    hide RoleCall, RunTools;
    var s := Begin(desk);
    ToolsTold(c.oracle, s, [], c.req.tools);
    var (s1, seen) := if c.tools.Some? then RunTools(c.oracle, s, [], c.req.tools) else (s, []);
    if s1.status == Running {
      var s2 := s1.(pending := seen);
      assert Told(c, desk, s2, 0);
      PlanTold(c, desk, s2);
    }
  }

  lemma PlanTold(c: Config, d0: Desk, s: Run)
    requires Told(c, d0, s, 0)
    ensures var r := PlanPhase(c, s);
            if r.status == Running then Told(c, d0, r, 0) else Over(c, d0, r) && r.starts == []
  {
    hide RoleCall, TokenCount, StepsOpened, ToolsByStep;
    if c.agent.cfg.enablePlan {
      var (s1, r) := RoleCall(c, s, PlanJob);
      if c.req.sessionId != "" {
        RoleCallGrows(c, s, PlanJob);
      }
      if r.Err? {
        StopTold(c, d0, s, 0, PlanPhase(c, s));
      } else {
        TellOne(s1.trace, PlanEvent(r.value.text));
      }
    }
  }

  lemma RunTold(c: Config, desk: Desk)
    ensures Over(c, desk, RunTask(c, desk))
    ensures |RunTask(c, desk).starts| <= c.agent.cfg.MaxSteps()
  {
    hide Prologue, Steps, Over;
    PrologueTold(c, desk);
    if Prologue(c, desk).status == Running {
      StepsTold(c, desk, Prologue(c, desk), 1);
    }
  }

  // ---- the laws ----

  /** With reflection enabled, the observations handed to the steps' reflections are, step by step, the successful
      tool executions the stream shows: all of them when the run is done, those of a prefix of the steps otherwise. */
  lemma ObservationsAreConserved(c: Config, desk: Desk)
    requires c.agent.cfg.enableReflect
    ensures var r := RunTask(c, desk);
            && ToolsHanded(r.reflections) <= ToolsByStep(r.trace)
            && (IsDone(r.trace) ==> ToolsHanded(r.reflections) == ToolsByStep(r.trace))
  {
    hide RunTask;
    RunTold(c, desk);
  }

  /** From the second step on, the previous assistant text of a reflected step is the stored reflection of the step
      before it, with its prefix; in the first step it is the last one of the session's history at the start. */
  lemma ReflectionsAreChained(c: Config, desk: Desk)
    requires c.req.sessionId != ""
    ensures Chained(LastAssistant(Mine(c, desk)), RunTask(c, desk).reflections)
  {
    hide RunTask;
    RunTold(c, desk);
  }

  /** The history of the run's session grows by two messages a step opened and one a reflection made. */
  lemma HistoryGrowth(c: Config, desk: Desk)
    requires c.req.sessionId != ""
    ensures var r := RunTask(c, desk);
            |Mine(c, r.desk)| == |Mine(c, desk)| + 2 * StepsOpened(r.trace) + |r.reflections|
  {
    hide RunTask;
    RunTold(c, desk);
  }

  /** A run that ends in a done event records one metric, with that event's reason and the number of token events;
      every other run records none. */
  lemma MetricMatchesStream(c: Config, desk: Desk)
    ensures var r := RunTask(c, desk);
            r.metrics
            == if IsDone(r.trace) then [RunMetric(r.trace[|r.trace| - 1].finishReason, TokenCount(r.trace))] else []
  {
    hide RunTask;
    RunTold(c, desk);
  }

  /** Every step that opens was begun before the context was cancelled, and there are at most the maximum. */
  lemma NoStepAfterCancellation(c: Config, desk: Desk)
    ensures var r := RunTask(c, desk);
            && (forall t | t in r.starts :: !c.oracle.Cancelled(t))
            && StepsOpened(r.trace) <= |r.starts| <= c.agent.cfg.MaxSteps()
  {
    hide RunTask;
    RunTold(c, desk);
  }

  /** The run when step `k` is due; a run that has stopped stays as it is. */
  function Due(c: Config, desk: Desk, k: nat): Run
    requires 1 <= k
  {
    if k == 1 then Prologue(c, desk)
    else
      var s := Due(c, desk, k - 1);
      if s.status != Running then s else Step(c, s, k - 1)
  }

  lemma {:induction false} DueIsTold(c: Config, desk: Desk, k: nat)
    requires 1 <= k <= c.agent.cfg.MaxSteps() + 1
    ensures var s := Due(c, desk, k);
            && (s.status == Running ==> Told(c, desk, s, k - 1))
            && RunTask(c, desk) == if s.status == Running then Steps(c, s, k) else s
  {
    hide Prologue, Step, Told, Over;
    if k == 1 {
      PrologueTold(c, desk);
    } else {
      DueIsTold(c, desk, k - 1);
      var s := Due(c, desk, k - 1);
      if s.status == Running {
        StepTold(c, desk, s, k - 1);
      }
    }
  }

  lemma {:induction false} StartsGrow(c: Config, s: Run, k: nat)
    requires 1 <= k <= c.agent.cfg.MaxSteps() + 1
    ensures s.starts <= Steps(c, s, k).starts
    decreases c.agent.cfg.MaxSteps() + 1 - k
  {
    hide Step;
    if k <= c.agent.cfg.MaxSteps() {
      StepStarts(c, s, k);
      if Step(c, s, k).status == Running {
        StartsGrow(c, Step(c, s, k), k + 1);
      }
    }
  }

  /** When step `k` is due, no event of the step is in the stream.  If the request is cancelled by then, the only event
      that follows is the error that says so; if not, the step begins. */
  lemma CancelledStepNeverBegins(c: Config, desk: Desk, k: nat)
    requires 1 <= k <= c.agent.cfg.MaxSteps() && Due(c, desk, k).status == Running
    ensures var due, r := Due(c, desk, k), RunTask(c, desk);
            && StepsOpened(due.trace) == k - 1
            && if c.oracle.Cancelled(due.desk.tick) then
                 r.trace == due.trace + [ErrorEvent("cancelled")] && r.status == Ended
               else |r.starts| >= k && r.starts[k - 1] == due.desk.tick
  {
    hide Due, RunTask, Step;
    DueIsTold(c, desk, k);
    var due := Due(c, desk, k);
    StepStarts(c, due, k);
    if !c.oracle.Cancelled(due.desk.tick) && Step(c, due, k).status == Running {
      StartsGrow(c, Step(c, due, k), k + 1);
    }
  }
}
