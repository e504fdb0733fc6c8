/** One agent run on values: the events it streams and every counter it keeps, phase by phase. */
module RunMachine {
  import opened Outcomes
  import opened Text
  import opened ModelRegistry
  import opened Strategy
  import opened FallbackWalk
  import opened AgentState

  datatype Event =
    | ToolEvent(name: string, output: string)
    | ToolFailed(name: string, error: string)
    | PlanEvent(message: string)
    | MessageEvent(message: string, step: nat)
    | TokenEvent(token: string, number: nat)
    | TestEvent(step: nat, report: TestReport)
    | ReflectEvent(message: string, step: nat)
    | DoneEvent(finishReason: string, step: nat)
    | ErrorEvent(error: string)

  datatype TaskRequest = TaskRequest(
    sessionId: string,
    model: string,
    plannerModel: string,
    criticModel: string,
    prompt: string,
    tools: seq<ToolCall>)

  /** The tools handed to the runner; `terminal` says whether a terminal is among them. */
  datatype Toolbox = Toolbox(terminal: bool)

  /** Everything fixed for one run. */
  datatype Config = Config(
    agent: Setup,
    strategy: Option<Engine>,
    tools: Option<Toolbox>,
    oracle: Oracle,
    req: TaskRequest,
    context: seq<ContextFile>)

  /** A reflection that succeeded: the text the coder call reported as the previous assistant message, the tool
      observations handed over, and the reflection obtained. */
  datatype Reflected = Reflected(previous: string, tools: seq<Observation>, text: string)

  datatype RunMetric = RunMetric(finishReason: string, tokens: nat)

  /** `Ended` is a run that has returned, `Hung` one that never leaves a fallback walk. */
  datatype Status = Running | Ended | Hung

  datatype Run = Run(
    desk: Desk,
    used: nat,
    usages: seq<Usage>,
    pending: seq<Observation>,
    tokens: nat,
    trace: seq<Event>,
    reflections: seq<Reflected>,
    starts: seq<nat>,
    metrics: seq<RunMetric>,
    status: Status)

  function Begin(desk: Desk): Run {
    Run(desk, 0, [], [], 0, [], [], [], [], Running)
  }

  function Emit(s: Run, e: Event): Run {
    s.(trace := s.trace + [e])
  }

  function Stop(s: Run, e: Event): Run {
    s.(trace := s.trace + [e], status := Ended)
  }

  function Tick(s: Run): Run {
    s.(desk := s.desk.(tick := s.desk.tick + 1))
  }

  /** `r` comes from `s` by streaming events only: no call, no selection, no reflection. */
  ghost predicate OnlyStreams(s: Run, r: Run) {
    && r == s.(desk := s.desk.(tick := r.desk.tick), trace := r.trace, tokens := r.tokens, status := r.status)
    && s.desk.tick <= r.desk.tick
    && (s.status == Running ==> r.status != Hung)
  }

  // ---- a call in a role, with one retry on a fallback model ----

  datatype Job =
    | PlanJob
    | CodeJob
    | ReflectJob(last: Response, context: ReflectionContext)

  datatype Answer = TextAnswer(text: string) | CodeAnswer(response: Response)

  function RoleOf(job: Job): string {
    match job
    case PlanJob => "planner"
    case CodeJob => "coder"
    case ReflectJob(_, _) => "critic"
  }

  function OverrideOf(job: Job, req: TaskRequest): string {
    match job
    case PlanJob => FirstNonEmpty([req.plannerModel, req.model])
    case CodeJob => FirstNonEmpty([req.model])
    case ReflectJob(_, _) => FirstNonEmpty([req.criticModel, req.model])
  }

  function AsText(r: Result<string>): Result<Answer> {
    match r case Ok(t) => Ok(TextAnswer(t)) case Err(e) => Err(e)
  }

  function AsCode(r: Result<Response>): Result<Answer> {
    match r case Ok(x) => Ok(CodeAnswer(x)) case Err(e) => Err(e)
  }

  function Perform(c: Config, d: Desk, job: Job, model: string): (r: (Desk, Result<Answer>))
    ensures r.1.Ok? ==> (r.1.value.CodeAnswer? <==> job.CodeJob?)
  {
    match job
    case PlanJob =>
      var req := Request(c.req.sessionId, model, c.req.prompt, c.context);
      var (d', r) := PlanCall(c.agent, c.oracle, d, OuterPlan, req);
      (d', AsText(r))
    case CodeJob =>
      var (d', r) := RunCall(c.agent, c.oracle, d, Request(c.req.sessionId, model, c.req.prompt, c.context));
      (d', AsCode(r))
    case ReflectJob(last, context) =>
      var req := Request(c.req.sessionId, model, c.req.prompt, []);
      var (d', r) := ReflectCall(c.agent, c.oracle, d, req, last, context);
      (d', AsText(r))
  }

  function Account(s: Run, u: Option<Usage>): Run {
    if u.None? then s else s.(used := s.used + CostOf(u), usages := s.usages + [u.value])
  }

  function Fallback(c: Config, role: string, current: string, used: nat): Outcome {
    if c.strategy.None? then Nothing else VerdictFor(c.strategy.value, role, current, used)
  }

  /** One call of the agent with a selected model, the selection accounted for. */
  function Attempt(c: Config, s: Run, job: Job, model: string, usage: Option<Usage>): (r: (Run, Result<Answer>))
    ensures r.0 == s.(desk := r.0.desk, used := r.0.used, usages := r.0.usages)
    ensures r.1.Ok? ==> (r.1.value.CodeAnswer? <==> job.CodeJob?)
  {
    var s1 := Account(s, usage);
    var (d, r) := Perform(c, s1.desk, job, model);
    (s1.(desk := d), r)
  }

  /** The second call, on the model the fallback walk finds after `model` has failed. */
  function Retry(c: Config, s: Run, job: Job, model: string, failed: Result<Answer>): (r: (Run, Result<Answer>))
    requires failed.Err?
    ensures r.0 == s.(desk := r.0.desk, used := r.0.used, usages := r.0.usages, status := r.0.status)
    ensures r.0.status == s.status || (r.0.status == Hung && r.1.Err?)
    ensures r.1.Ok? ==> (r.1.value.CodeAnswer? <==> job.CodeJob?)
  {
    match Fallback(c, RoleOf(job), model, s.used)
    case Endless => (s.(status := Hung), failed)
    case Nothing => (s, failed)
    case Picked(u) => Attempt(c, s, job, u.model, Some(u))
  }

  function RoleCall(c: Config, s: Run, job: Job): (r: (Run, Result<Answer>))
    ensures r.0 == s.(desk := r.0.desk, used := r.0.used, usages := r.0.usages, status := r.0.status)
    ensures r.0.status == s.status || (r.0.status == Hung && r.1.Err?)
    ensures r.1.Ok? ==> (r.1.value.CodeAnswer? <==> job.CodeJob?)
  {
    var sel := Select(c.strategy, RoleOf(job), OverrideOf(job, c.req), s.used);
    var (s1, r1) := Attempt(c, s, job, sel.model, sel.usage);
    if r1.Ok? then (s1, r1) else Retry(c, s1, job, sel.model, r1)
  }

  // ---- tools ----

  function RunTool(o: Oracle, tick: nat, call: ToolCall): Result<string> {
    if o.Cancelled(tick) then Err("context canceled") else o.tool(tick, call)
  }

  /** Executes the calls in order, adding an observation for each; the first failure ends the run. */
  function RunTools(o: Oracle, s: Run, seen: seq<Observation>, calls: seq<ToolCall>): (r: (Run, seq<Observation>))
    ensures OnlyStreams(s, r.0)
    decreases |calls|
  {
    if calls == [] then (s, seen)
    else
      var name := calls[0].name;
      match RunTool(o, s.desk.tick, calls[0])
      case Err(e) => (Stop(Tick(s), ToolFailed(name, e)), seen)
      case Ok(output) =>
        RunTools(o, Emit(Tick(s), ToolEvent(name, output)), seen + [Observation(name, output)], calls[1..])
  }

  /** The call succeeds on its tick, and is observed and streamed with its own output. */
  ghost predicate Succeeds(o: Oracle, tick: nat, call: ToolCall, seen: Observation, e: Event) {
    && !o.Cancelled(tick)
    && o.tool(tick, call) == Ok(seen.output) && seen.name == call.name
    && e == ToolEvent(call.name, seen.output)
  }

  /** The call fails, or finds the request cancelled, and that is streamed. */
  ghost predicate Fails(o: Oracle, tick: nat, call: ToolCall, e: Event) {
    if o.Cancelled(tick) then e == ToolFailed(call.name, "context canceled")
    else o.tool(tick, call).Err? && e == ToolFailed(call.name, o.tool(tick, call).error)
  }

  /** The first calls succeed, one a tick; after them come no more, or one that fails. */
  ghost predicate Executed(o: Oracle, tick: nat, calls: seq<ToolCall>, seen: seq<Observation>, events: seq<Event>) {
    && |seen| <= |calls|
    && |events| == (if |seen| == |calls| then |seen| else |seen| + 1)
    && (forall i | 0 <= i < |seen| :: Succeeds(o, tick + i, calls[i], seen[i], events[i]))
    && (|seen| < |calls| ==> Fails(o, tick + |seen|, calls[|seen|], events[|seen|]))
  }

  lemma ExecutedOneMore(o: Oracle, tick: nat, calls: seq<ToolCall>, seen: seq<Observation>, events: seq<Event>,
                        first: Observation, e: Event)
    requires calls != [] && Succeeds(o, tick, calls[0], first, e)
    requires Executed(o, tick + 1, calls[1..], seen, events)
    ensures Executed(o, tick, calls, [first] + seen, [e] + events)
  {
    hide Succeeds, Fails;
    var all, es := [first] + seen, [e] + events;
    forall i | 0 <= i < |all| ensures Succeeds(o, tick + i, calls[i], all[i], es[i]) {
      assert i > 0 ==> Succeeds(o, tick + 1 + (i - 1), calls[1..][i - 1], seen[i - 1], events[i - 1]);
    }
  }

  lemma NoToolsLeft(o: Oracle, s: Run, seen: seq<Observation>)
    ensures RunTools(o, s, seen, []) == (s, seen)
    ensures Executed(o, s.desk.tick, [], [], [])
  {
  }

  lemma FirstToolFails(o: Oracle, s: Run, seen: seq<Observation>, calls: seq<ToolCall>)
    requires calls != [] && RunTool(o, s.desk.tick, calls[0]).Err?
    ensures var e := ToolFailed(calls[0].name, RunTool(o, s.desk.tick, calls[0]).error);
            && RunTools(o, s, seen, calls) == (Stop(Tick(s), e), seen)
            && Executed(o, s.desk.tick, calls, [], [e])
  {
  }

  lemma FirstToolSucceeds(o: Oracle, s: Run, seen: seq<Observation>, calls: seq<ToolCall>)
    requires calls != [] && RunTool(o, s.desk.tick, calls[0]).Ok?
    ensures var name, output := calls[0].name, RunTool(o, s.desk.tick, calls[0]).value;
            && RunTools(o, s, seen, calls)
               == RunTools(o, Emit(Tick(s), ToolEvent(name, output)), seen + [Observation(name, output)], calls[1..])
            && Succeeds(o, s.desk.tick, calls[0], Observation(name, output), ToolEvent(name, output))
  {
  }

  /** The tools are executed in order on the ticks that follow, up to the first that fails; a failure ends the run. */
  lemma {:induction false} ToolsAreExecuted(o: Oracle, s: Run, seen: seq<Observation>, calls: seq<ToolCall>)
    ensures var (r, tools) := RunTools(o, s, seen, calls);
            && seen <= tools && s.trace <= r.trace
            && Executed(o, s.desk.tick, calls, tools[|seen|..], r.trace[|s.trace|..])
            && r.status == if |tools| == |seen| + |calls| then s.status else Ended
    decreases |calls|
  {
    hide RunTools, Executed, Succeeds, RunTool;
    var (r, tools) := RunTools(o, s, seen, calls);
    if calls == [] {
      NoToolsLeft(o, s, seen);
      assert tools[|seen|..] == [] && r.trace[|s.trace|..] == [];
    } else if RunTool(o, s.desk.tick, calls[0]).Err? {
      FirstToolFails(o, s, seen, calls);
      var e := ToolFailed(calls[0].name, RunTool(o, s.desk.tick, calls[0]).error);
      assert tools[|seen|..] == [] && r.trace[|s.trace|..] == [e];
    } else {
      FirstToolSucceeds(o, s, seen, calls);
      var first := Observation(calls[0].name, RunTool(o, s.desk.tick, calls[0]).value);
      var e := ToolEvent(first.name, first.output);
      var s1, seen1 := Emit(Tick(s), e), seen + [first];
      ToolsAreExecuted(o, s1, seen1, calls[1..]);
      ExecutedOneMore(o, s.desk.tick, calls, tools[|seen1|..], r.trace[|s1.trace|..], first, e);
      assert tools[|seen|..] == [first] + tools[|seen1|..];
      assert r.trace[|s.trace|..] == [e] + r.trace[|s1.trace|..];
    }
  }

  // ---- tokens ----

  /** Streams the tokens from `idx` on; a cancelled context may win over a send. */
  function EmitTokens(o: Oracle, s: Run, tokens: seq<string>, step: nat, idx: nat): (r: Run)
    requires idx <= |tokens|
    ensures OnlyStreams(s, r)
    decreases |tokens| - idx
  {
    if idx == |tokens| then s
    else if o.Cancelled(s.desk.tick) && o.sendLoses(s.desk.tick) then Stop(Tick(s), ErrorEvent("cancelled"))
    else EmitTokens(o, Emit(Tick(s), TokenEvent(tokens[idx], step * 1000 + idx)), tokens, step, idx + 1)
  }

  // ---- tests ----

  function CombinedOutput(r: ExecResult): string {
    if r.stderr == "" then r.stdout
    else if r.stdout == "" then r.stderr
    else r.stdout + "\n" + r.stderr
  }

  predicate Passed(r: ExecResult) {
    r.error.None? && r.exitCode == 0
  }

  /** Execution number `attempt` and the ones after it; the report's count is the loop variable at the end. */
  function Attempts(o: Oracle, tick: nat, parts: seq<string>, attempt: nat, limit: nat): (r: (nat, TestReport))
    requires 1 <= attempt <= limit
    ensures tick < r.0
    decreases limit - attempt
  {
    var r := o.exec(tick, parts);
    if Passed(r) then (tick + 1, TestReport(CombinedOutput(r), r.exitCode, r.error, attempt))
    else if attempt == limit then (tick + 1, TestReport(CombinedOutput(r), r.exitCode, r.error, attempt + 1))
    else Attempts(o, tick + 1, parts, attempt + 1, limit)
  }

  /** Number of executions between two ticks, the last of them, and how the report relates to it: at least one and at
      most `limit - attempt + 1` executions, each failed except possibly the last, whose result is reported; the
      reported count is the number of the last execution if it passed and one more than the limit otherwise. */
  lemma {:induction false} AttemptsReportLastExecution(o: Oracle, tick: nat, parts: seq<string>, attempt: nat,
                                                       limit: nat)
    requires 1 <= attempt <= limit
    ensures var (end, report) := Attempts(o, tick, parts, attempt, limit);
            && tick + 1 <= end <= tick + 1 + limit - attempt
            && (forall t | tick <= t < end - 1 :: o.exec(t, parts).error.Some? || o.exec(t, parts).exitCode != 0)
            && (var last := o.exec(end - 1, parts);
                && report.output == (if last.stderr == "" then last.stdout
                                     else if last.stdout == "" then last.stderr
                                     else last.stdout + "\n" + last.stderr)
                && report.exitCode == last.exitCode
                && report.error == last.error
                && (if last.error.None? && last.exitCode == 0 then report.attempts == attempt + (end - tick) - 1
                    else end - tick == limit - attempt + 1 && report.attempts == limit + 1))
    decreases limit - attempt
  {
    if !Passed(o.exec(tick, parts)) && attempt < limit {
      AttemptsReportLastExecution(o, tick + 1, parts, attempt + 1, limit);
    }
  }

  function RunTests(c: Config, tick: nat): (r: (nat, TestReport))
    ensures tick <= r.0
  {
    if c.tools.None? || !c.tools.value.terminal then
      (tick, TestReport("", -1, Some("terminal tool unavailable for tests"), 0))
    else
      var parts := Fields(c.agent.cfg.testCommand);
      if parts == [] then (tick, TestReport("", -1, Some("test command is empty"), 0))
      else Attempts(c.oracle, tick, parts, 1, c.agent.cfg.TestRetries() + 1)
  }

  /** Once the test command is reached it is executed between 1 and `retries + 1` times; the reported number of
      attempts is the number of executions when one passed, and one too many when all failed. */
  lemma TestsAreCounted(c: Config, tick: nat)
    requires c.tools.Some? && c.tools.value.terminal && Fields(c.agent.cfg.testCommand) != []
    ensures var (end, report) := RunTests(c, tick);
            var executions, retries := end - tick, if c.agent.cfg.testRetries < 0 then 0 else c.agent.cfg.testRetries;
            var last := c.oracle.exec(end - 1, Fields(c.agent.cfg.testCommand));
            && 1 <= executions <= retries + 1
            && (if last.error.None? && last.exitCode == 0 then report.attempts == executions
                else executions == retries + 1 && report.attempts == executions + 1)
  {
    AttemptsReportLastExecution(c.oracle, tick, Fields(c.agent.cfg.testCommand), 1, c.agent.cfg.TestRetries() + 1);
  }

  function TestPhase(c: Config, s: Run, step: nat, done: bool): (r: (Run, Option<TestReport>))
    ensures OnlyStreams(s, r.0) && r.0.status == s.status
  {
    if !done || !c.agent.cfg.TestRunEnabled() then (s, None)
    else
      var (tick, report) := RunTests(c, s.desk.tick);
      (Emit(s.(desk := s.desk.(tick := tick)), TestEvent(step, report)), Some(report))
  }

  // ---- reflection ----

  predicate IsResponseDone(resp: Response) {
    || (resp.finishReason != "" && resp.finishReason != "length")
    || Contains(ToLower(resp.message.content), "[done]")
    || Contains(ToLower(resp.message.content), "<done>")
  }

  predicate ShouldBlock(policy: string) {
    var p := ToLower(TrimSpace(policy));
    p != "never_block" && p != "warn_only"
  }

  predicate Blocks(c: Config, reflection: string) {
    c.oracle.blocksApply(reflection) && ShouldBlock(c.agent.cfg.ReflectionPolicy())
  }

  function SelfDiff(previous: string, current: string): string {
    if IsBlank(previous) || IsBlank(current) then ""
    else "Previous:\n" + previous + (if previous[|previous| - 1..] == "\n" then "" else "\n") + "Current:\n" + current
  }

  function ContextFor(c: Config, resp: Response, tools: seq<Observation>, test: Option<TestReport>): ReflectionContext {
    ReflectionContext(
      tools, test, if c.agent.cfg.enableSelfDiff then SelfDiff(resp.previousAssistant, resp.message.content) else "")
  }

  /** Reflects on the step, when enabled; the flag says whether the run is to be halted. */
  function ReflectPhase(c: Config, s: Run, step: nat, resp: Response, tools: seq<Observation>, test: Option<TestReport>)
      : (Run, bool)
  {
    if !c.agent.cfg.enableReflect then (s, false)
    else
      var (s1, r) := RoleCall(c, s, ReflectJob(resp, ContextFor(c, resp, tools, test)));
      if s1.status == Hung then (s1, false)
      else if r.Err? then (Stop(s1, ErrorEvent(r.error)), false)
      else
        var text := r.value.text;
        var s2 := s1.(reflections := s1.reflections + [Reflected(resp.previousAssistant, tools, text)]);
        if IsBlank(text) then (s2, false)
        else (Emit(s2, ReflectEvent(text, step)), Blocks(c, text))
  }

  // ---- the run ----

  function Finish(s: Run, step: nat, reason: string): Run {
    Stop(s.(metrics := s.metrics + [RunMetric(reason, s.tokens)]), DoneEvent(reason, step))
  }

  const BLOCKED := "blocked_by_reflect"

  /** What follows the coder's answer in a step: message, tokens, model tools. */
  function SpeakPhase(c: Config, s: Run, step: nat, resp: Response, given: seq<Observation>)
      : (r: (Run, seq<Observation>))
    ensures OnlyStreams(s, r.0)
  {
    var tokens := Fields(resp.message.content);
    var s1 := EmitTokens(c.oracle, Emit(s, MessageEvent(resp.message.content, step)), tokens, step, 0);
    if s1.status != Running then (s1, given)
    else
      var s2 := s1.(tokens := s1.tokens + |tokens|);
      if c.tools.None? then (s2, given)
      else RunTools(c.oracle, s2, given, c.oracle.toolCalls(resp.message.content))
  }

  /** The end of a step: the run halts, is done, or goes on. */
  function Conclude(s: Run, step: nat, resp: Response, blocked: bool): Run {
    if blocked then
      Finish(Emit(s, MessageEvent("Run halted by reflection policy (" + BLOCKED + ")", step)), step, BLOCKED)
    else if IsResponseDone(resp) then Finish(s, step, resp.finishReason)
    else s
  }

  /** The rest of a step: tests, reflection, and the end of the run if there is one. */
  function JudgePhase(c: Config, s: Run, step: nat, resp: Response, tools: seq<Observation>): Run {
    var (s1, test) := TestPhase(c, s, step, IsResponseDone(resp));
    var (s2, blocked) := ReflectPhase(c, s1, step, resp, tools, test);
    if s2.status != Running then s2 else Conclude(s2, step, resp, blocked)
  }

  function Step(c: Config, s: Run, step: nat): Run {
    if c.oracle.Cancelled(s.desk.tick) then Stop(Tick(s), ErrorEvent("cancelled"))
    else
      var given := s.pending;
      var (s1, r) := RoleCall(c, Tick(s).(pending := [], starts := s.starts + [s.desk.tick]), CodeJob);
      if s1.status == Hung then s1
      else if r.Err? then Stop(s1, ErrorEvent(r.error))
      else
        var resp := r.value.response;
        var (s2, tools) := SpeakPhase(c, s1, step, resp, given);
        if s2.status != Running then s2 else JudgePhase(c, s2, step, resp, tools)
  }

  function Steps(c: Config, s: Run, step: nat): Run
    requires 1 <= step <= c.agent.cfg.MaxSteps() + 1
    decreases c.agent.cfg.MaxSteps() + 1 - step
  {
    if step > c.agent.cfg.MaxSteps() then Finish(s, c.agent.cfg.MaxSteps(), "max_steps")
    else
      var s' := Step(c, s, step);
      if s'.status != Running then s' else Steps(c, s', step + 1)
  }

  function PlanPhase(c: Config, s: Run): Run {
    if !c.agent.cfg.enablePlan then s
    else
      var (s1, r) := RoleCall(c, s, PlanJob);
      if s1.status == Hung then s1
      else if r.Err? then Stop(s1, ErrorEvent(r.error))
      else if IsBlank(r.value.text) then s1
      else Emit(s1, PlanEvent(r.value.text))
  }

  /** Tools asked for in the request, then the plan. */
  function Prologue(c: Config, desk: Desk): Run {
    var s := Begin(desk);
    var (s1, seen) := if c.tools.Some? then RunTools(c.oracle, s, [], c.req.tools) else (s, []);
    if s1.status != Running then s1 else PlanPhase(c, s1.(pending := seen))
  }

  /** A whole run, once the agent is there and the context files are loaded. */
  function RunTask(c: Config, desk: Desk): Run {
    var s := Prologue(c, desk);
    if s.status != Running then s else Steps(c, s, 1)
  }
}
