/** The runner as the program has it: counters and queues updated inside loops, events sent one by one. */
module AgentRunner {
  import opened Outcomes
  import opened Text
  import opened Strategy
  import opened FallbackWalk
  import opened AgentState
  import opened RunMachine
  import opened ContextPacker
  import A = Agent

  /** One run: the variables its goroutine captures. */
  class TaskRun {
    const c: Config
    const agent: A.Agent
    var expensiveUsed: nat
    var usages: seq<Usage>
    var initialTools: seq<Observation>
    var tokenCount: nat
    var out: seq<Event>
    var metrics: seq<RunMetric>
    ghost var reflections: seq<Reflected>
    ghost var starts: seq<nat>
    var status: Status

    ghost predicate Valid()
      reads this, agent, agent.sessions.Values
    {
      agent.Valid() && agent.setup == c.agent && agent.world.oracle == c.oracle
    }

    ghost function View(): Run
      reads this, agent, agent.world, agent.sessions.Values
    {
      Run(agent.View(), expensiveUsed, usages, initialTools, tokenCount, out, reflections, starts, metrics, status)
    }

    constructor (c: Config, agent: A.Agent)
      requires agent.Valid() && agent.setup == c.agent && agent.world.oracle == c.oracle
      ensures this.c == c && this.agent == agent
      ensures Valid() && View() == Begin(agent.View())
    {
      this.c, this.agent := c, agent;
      expensiveUsed, usages, initialTools, tokenCount, out, metrics := 0, [], [], 0, [], [];
      reflections, starts, status := [], [], Running;
    }

    method Send(e: Event)
      requires Valid()
      modifies this`out
      ensures Valid() && View() == Emit(old(View()), e)
    {
      out := out + [e];
    }

    /** Sends the last event and returns. */
    method Return(e: Event)
      requires Valid()
      modifies this`out, this`status
      ensures Valid() && View() == Stop(old(View()), e)
    {
      out := out + [e];
      status := Ended;
    }

    method Tick() returns (now: nat)
      requires Valid()
      modifies agent.world`tick
      ensures Valid() && now == old(agent.world.tick) && View() == RunMachine.Tick(old(View()))
    {
      now := agent.world.Tick();
    }

    method Record(usage: Option<Usage>, used: nat)
      requires Valid() && used == expensiveUsed + CostOf(usage)
      modifies this`expensiveUsed, this`usages
      ensures Valid() && View() == Account(old(View()), usage)
    {
      expensiveUsed := used;
      if usage.Some? {
        usages := usages + [usage.value];
      }
    }

    method Perform(job: Job, model: string) returns (r: Result<Answer>)
      requires Valid()
      modifies agent, agent.world, agent.sessions.Values
      ensures Valid() && fresh(agent.sessions.Values - old(agent.sessions.Values))
      ensures r == RunMachine.Perform(c, old(View()).desk, job, model).1
      ensures View() == old(View()).(desk := RunMachine.Perform(c, old(View()).desk, job, model).0)
    {
      hide PlanCall, RunCall, ReflectCall;
      match job
      case PlanJob =>
        var plan := agent.Plan(OuterPlan, Request(c.req.sessionId, model, c.req.prompt, c.context));
        r := AsText(plan);
      case CodeJob =>
        var resp := agent.Run(Request(c.req.sessionId, model, c.req.prompt, c.context));
        r := AsCode(resp);
      case ReflectJob(last, context) =>
        var reflection := agent.Reflect(Request(c.req.sessionId, model, c.req.prompt, []), last, context);
        r := AsText(reflection);
    }

    /** Walks the fallbacks.  A walk still going after three iterations never ends. */
    method WalkFallbacks(role: string, current: string) returns (v: Outcome, used: nat)
      ensures v == Fallback(c, role, current, expensiveUsed)
      ensures used == expensiveUsed + if v.Picked? then CostOf(Some(v.usage)) else 0
    {
      if c.strategy.None? {
        return Nothing, expensiveUsed;
      }
      var e := c.strategy.value;
      var w;
      w, used := PickFallbackModel(e, role, current, expensiveUsed, 3);
      WalkEndsIff(e.cfg.fallbacks, current, Prober(e, role, current, expensiveUsed));
      hide Verdict, After;
      if !w.Finished? {
        return Endless, used;
      }
      return if w.usage.Some? then Picked(w.usage.value) else Nothing, used;
    }

    method Attempt(job: Job, model: string, usage: Option<Usage>, used: nat) returns (r: Result<Answer>)
      requires Valid() && used == expensiveUsed + CostOf(usage)
      modifies this`expensiveUsed, this`usages, agent, agent.world, agent.sessions.Values
      ensures Valid() && fresh(agent.sessions.Values - old(agent.sessions.Values))
      ensures (View(), r) == RunMachine.Attempt(c, old(View()), job, model, usage)
    {
      hide RunMachine.Perform, CostOf, Account;
      Record(usage, used);
      r := Perform(job, model);
    }

    /** Calls once more on the model the walk finds; a walk that never ends leaves the run hanging. */
    method Retry(job: Job, model: string, failed: Result<Answer>) returns (r: Result<Answer>, hung: bool)
      requires Valid() && status == Running && failed.Err?
      modifies this, agent, agent.world, agent.sessions.Values
      ensures Valid() && fresh(agent.sessions.Values - old(agent.sessions.Values))
      ensures (View(), r) == RunMachine.Retry(c, old(View()), job, model, failed)
      ensures hung <==> status == Hung
    {
      hide RunMachine.Attempt, Fallback, CostOf;
      var verdict, used := WalkFallbacks(RoleOf(job), model);
      match verdict
      case Nothing => return failed, false;
      case Endless =>
        status := Hung;
        return failed, true;
      case Picked(u) =>
        r := Attempt(job, u.model, Some(u), used);
        return r, false;
    }

    /** Selects a model for the role and calls the agent; on an error tries a fallback. */
    method RoleCall(job: Job) returns (r: Result<Answer>, hung: bool)
      requires Valid() && status == Running
      modifies this, agent, agent.world, agent.sessions.Values
      ensures Valid() && fresh(agent.sessions.Values - old(agent.sessions.Values))
      ensures (View(), r) == RunMachine.RoleCall(c, old(View()), job)
      ensures hung <==> status == Hung
    {
      hide RunMachine.Attempt, RunMachine.Retry, Select, CostOf;
      var model, usage, used := SelectModel(c.strategy, RoleOf(job), OverrideOf(job, c.req), expensiveUsed);
      r := Attempt(job, model, usage, used);
      hung := false;
      if r.Err? {
        r, hung := Retry(job, model, r);
      }
    }

    /** Executes tool calls in order; a failure sends the failed event and returns. */
    method ExecuteTools(given: seq<Observation>, calls: seq<ToolCall>) returns (seen: seq<Observation>, stopped: bool)
      requires Valid() && status == Running
      modifies this`out, this`status, agent.world`tick
      ensures Valid()
      ensures (View(), seen) == RunTools(c.oracle, old(View()), given, calls)
      ensures stopped <==> status == Ended
      ensures !stopped ==> status == Running
    {
      seen := given;
      var i := 0;
      while i < |calls|
        invariant 0 <= i <= |calls| && Valid() && status == Running
        invariant RunTools(c.oracle, View(), seen, calls[i..]) == RunTools(c.oracle, old(View()), given, calls)
      {
        assert calls[i..][0] == calls[i] && calls[i..][1..] == calls[i + 1..];
        var name := calls[i].name;
        var now := Tick();
        var output := RunTool(c.oracle, now, calls[i]);
        if output.Err? {
          Return(ToolFailed(name, output.error));
          return seen, true;
        }
        seen := seen + [Observation(name, output.value)];
        Send(ToolEvent(name, output.value));
        i := i + 1;
      }
      return seen, false;
    }

    method StreamTokens(tokens: seq<string>, step: nat) returns (stopped: bool)
      requires Valid() && status == Running
      modifies this`out, this`status, agent.world`tick
      ensures Valid()
      ensures View() == EmitTokens(c.oracle, old(View()), tokens, step, 0)
      ensures stopped <==> status == Ended
      ensures !stopped ==> status == Running
    {
      var idx := 0;
      while idx < |tokens|
        invariant 0 <= idx <= |tokens| && Valid() && status == Running
        invariant EmitTokens(c.oracle, View(), tokens, step, idx) == EmitTokens(c.oracle, old(View()), tokens, step, 0)
      {
        var now := Tick();
        if c.oracle.Cancelled(now) && c.oracle.sendLoses(now) {
          Return(ErrorEvent("cancelled"));
          return true;
        }
        Send(TokenEvent(tokens[idx], step * 1000 + idx));
        idx := idx + 1;
      }
      return false;
    }

    /** Executes the test command until it passes or the retries are used up. */
    method RunTests() returns (report: TestReport)
      requires Valid()
      modifies agent.world`tick
      ensures Valid()
      ensures (agent.world.tick, report) == RunMachine.RunTests(c, old(agent.world.tick))
    {
      if c.tools.None? || !c.tools.value.terminal {
        return TestReport("", -1, Some("terminal tool unavailable for tests"), 0);
      }
      var parts := Fields(c.agent.cfg.testCommand);
      if parts == [] {
        return TestReport("", -1, Some("test command is empty"), 0);
      }
      var retries := c.agent.cfg.TestRetries();
      var output, exitCode, error := "", 0, None;
      var attempts := 1;
      while attempts <= retries + 1
        invariant 1 <= attempts <= retries + 2 && Valid()
        invariant if attempts <= retries + 1 then
                    Attempts(c.oracle, agent.world.tick, parts, attempts, retries + 1)
                    == Attempts(c.oracle, old(agent.world.tick), parts, 1, retries + 1)
                  else
                    (agent.world.tick, TestReport(output, exitCode, error, attempts))
                    == Attempts(c.oracle, old(agent.world.tick), parts, 1, retries + 1)
      {
        var now := agent.world.Tick();
        var res := c.oracle.exec(now, parts);
        output := res.stdout;
        if res.stderr != "" {
          if output != "" {
            output := output + "\n";
          }
          output := output + res.stderr;
        }
        assert output == CombinedOutput(res);
        exitCode, error := res.exitCode, res.error;
        if res.error.None? && res.exitCode == 0 {
          break;
        }
        attempts := attempts + 1;
      }
      return TestReport(output, exitCode, error, attempts);
    }

    /** Message, tokens and model tools of a step. */
    method Speak(step: nat, resp: Response, given: seq<Observation>) returns (seen: seq<Observation>, stopped: bool)
      requires Valid() && status == Running
      modifies this, agent.world`tick
      ensures Valid()
      ensures (View(), seen) == SpeakPhase(c, old(View()), step, resp, given)
      ensures stopped <==> status == Ended
      ensures !stopped ==> status == Running
    {
      hide EmitTokens, RunTools;
      Send(MessageEvent(resp.message.content, step));
      var tokens := Fields(resp.message.content);
      stopped := StreamTokens(tokens, step);
      if stopped {
        return given, true;
      }
      tokenCount := tokenCount + |tokens|;
      if c.tools.None? {
        return given, false;
      }
      seen, stopped := ExecuteTools(given, c.oracle.toolCalls(resp.message.content));
    }

    method Test(step: nat, done: bool) returns (test: Option<TestReport>)
      requires Valid() && status == Running
      modifies this`out, agent.world`tick
      ensures Valid()
      ensures (View(), test) == TestPhase(c, old(View()), step, done)
    {
      hide RunMachine.RunTests;
      if !done || !c.agent.cfg.TestRunEnabled() {
        return None;
      }
      var report := RunTests();
      Send(TestEvent(step, report));
      return Some(report);
    }

    method Reflect(step: nat, resp: Response, tools: seq<Observation>, test: Option<TestReport>)
        returns (stopped: bool, blocked: bool)
      requires Valid() && status == Running
      modifies this, agent, agent.world, agent.sessions.Values
      ensures Valid() && fresh(agent.sessions.Values - old(agent.sessions.Values))
      ensures (View(), blocked) == ReflectPhase(c, old(View()), step, resp, tools, test)
      ensures stopped <==> status != Running
    {
      hide RunMachine.RoleCall;
      if !c.agent.cfg.enableReflect {
        return false, false;
      }
      var r, hung := RoleCall(ReflectJob(resp, ContextFor(c, resp, tools, test)));
      if hung {
        return true, false;
      }
      if r.Err? {
        Return(ErrorEvent(r.error));
        return true, false;
      }
      var text := r.value.text;
      reflections := reflections + [Reflected(resp.previousAssistant, tools, text)];
      if IsBlank(text) {
        return false, false;
      }
      Send(ReflectEvent(text, step));
      return false, Blocks(c, text);
    }

    method Finish(step: nat, reason: string)
      requires Valid()
      modifies this`out, this`metrics, this`status
      ensures Valid() && View() == RunMachine.Finish(old(View()), step, reason) && status == Ended
    {
      Return(DoneEvent(reason, step));
      metrics := metrics + [RunMetric(reason, tokenCount)];
    }

    /** The observations made before the step, which only this step gets. */
    method TakePending(now: nat) returns (given: seq<Observation>)
      requires Valid()
      modifies this`initialTools, this`starts
      ensures Valid() && given == old(initialTools)
      ensures View() == old(View()).(pending := [], starts := old(starts) + [now])
    {
      given, initialTools := initialTools, [];
      starts := starts + [now];
    }

    /** One step, from the cancellation check to the end of the run if it comes. */
    method Step(step: nat) returns (stopped: bool)
      requires Valid() && status == Running
      modifies this, agent, agent.world, agent.sessions.Values
      ensures Valid() && fresh(agent.sessions.Values - old(agent.sessions.Values))
      ensures View() == RunMachine.Step(c, old(View()), step)
      ensures stopped <==> status != Running
    {
      hide RunMachine.RoleCall, SpeakPhase, JudgePhase;
      var now := Tick();
      if c.oracle.Cancelled(now) {
        Return(ErrorEvent("cancelled"));
        return true;
      }
      var given := TakePending(now);
      var r, hung := RoleCall(CodeJob);
      if hung {
        return true;
      }
      if r.Err? {
        Return(ErrorEvent(r.error));
        return true;
      }
      var tools;
      tools, stopped := Speak(step, r.value.response, given);
      if !stopped {
        stopped := Judge(step, r.value.response, tools);
      }
    }

    method Judge(step: nat, resp: Response, tools: seq<Observation>) returns (stopped: bool)
      requires Valid() && status == Running
      modifies this, agent, agent.world, agent.sessions.Values
      ensures Valid() && fresh(agent.sessions.Values - old(agent.sessions.Values))
      ensures View() == JudgePhase(c, old(View()), step, resp, tools)
      ensures stopped <==> status != Running
    {
      hide TestPhase, ReflectPhase, IsResponseDone;
      var done := IsResponseDone(resp);
      var test := Test(step, done);
      var blocked;
      stopped, blocked := Reflect(step, resp, tools, test);
      if stopped {
        return;
      }
      if blocked {
        Send(MessageEvent("Run halted by reflection policy (" + BLOCKED + ")", step));
        Finish(step, BLOCKED);
      } else if done {
        Finish(step, resp.finishReason);
      }
      stopped := done || blocked;
    }

    method Plan() returns (stopped: bool)
      requires Valid() && status == Running
      modifies this, agent, agent.world, agent.sessions.Values
      ensures Valid() && fresh(agent.sessions.Values - old(agent.sessions.Values))
      ensures View() == PlanPhase(c, old(View()))
      ensures stopped <==> status != Running
    {
      hide RunMachine.RoleCall;
      if !c.agent.cfg.enablePlan {
        return false;
      }
      var r, hung := RoleCall(PlanJob);
      if hung {
        return true;
      }
      if r.Err? {
        Return(ErrorEvent(r.error));
        return true;
      }
      if !IsBlank(r.value.text) {
        Send(PlanEvent(r.value.text));
      }
      return false;
    }

    /** The tools of the request, then the plan. */
    method Prepare() returns (stopped: bool)
      requires Valid() && View() == Begin(agent.View())
      modifies this, agent, agent.world, agent.sessions.Values
      ensures Valid() && fresh(agent.sessions.Values - old(agent.sessions.Values))
      ensures View() == Prologue(c, old(agent.View()))
      ensures stopped <==> status != Running
    {
      hide RunTools, PlanPhase;
      var seen := [];
      if c.tools.Some? {
        seen, stopped := ExecuteTools([], c.req.tools);
        if stopped {
          return true;
        }
      }
      initialTools := seen;
      stopped := Plan();
    }

    /** The run. */
    method Execute()
      requires Valid() && View() == Begin(agent.View())
      modifies this, agent, agent.world, agent.sessions.Values
      ensures Valid() && View() == RunTask(c, old(agent.View()))
    {
      hide Prologue, RunMachine.Step, RunMachine.Finish;
      var stopped := Prepare();
      if stopped {
        return;
      }
      var maxSteps := c.agent.cfg.MaxSteps();
      var step := 1;
      while step <= maxSteps
        invariant 1 <= step <= maxSteps + 1
        invariant Valid() && status == Running
        invariant fresh(agent.sessions.Values - old(agent.sessions.Values))
        invariant Steps(c, View(), step) == RunTask(c, old(agent.View()))
      {
        stopped := Step(step);
        if stopped {
          return;
        }
        step := step + 1;
      }
      Finish(maxSteps, "max_steps");
    }
  }

  /** The runner; without an agent it can only report that. */
  class Runner {
    const agent: A.Agent?
    const strategy: Option<Engine>
    const tools: Option<Toolbox>

    constructor (agent: A.Agent?, strategy: Option<Engine>, tools: Option<Toolbox>)
      ensures this.agent == agent && this.strategy == strategy && this.tools == tools
    {
      this.agent, this.strategy, this.tools := agent, strategy, tools;
    }

    /** Loads the context files, if there is a filesystem; `candidates` are the context paths. */
    method LoadContext(files: Option<FileView>, candidates: seq<string>,
                       budget: nat) returns (r: Result<seq<ContextFile>>)
      ensures r == Loaded(files, candidates, budget)
    {
      r := Ok([]);
      if files.Some? {
        r := BuildContextFiles(files.value, candidates, budget);
      }
    }

    /** Runs a task: loads the context, then runs the agent.  The stream is the one of the run on values. */
    method RunTask(req: TaskRequest, files: Option<FileView>, candidates: seq<string>)
        returns (out: seq<Event>, hung: bool)
      requires agent != null ==> agent.Valid()
      modifies if agent == null then {} else {agent, agent.world}
      modifies if agent == null then {} else agent.sessions.Values
      ensures agent == null ==> out == [ErrorEvent("agent unavailable")] && !hung
      ensures agent != null ==>
                var bytes := agent.setup.cfg.maxContextBytes;
                match Loaded(files, candidates, if bytes < 0 then 0 else bytes)
                case Err(e) => out == [ErrorEvent(e)] && !hung
                case Ok(context) =>
                  var r := RunMachine.RunTask(
                             Config(agent.setup, strategy, tools, agent.world.oracle, req, context), old(agent.View()));
                  out == r.trace && agent.View() == r.desk && (hung <==> r.status == Hung)
    {
      hide RunMachine.RunTask, Loaded;
      if agent == null {
        return [ErrorEvent("agent unavailable")], false;
      }
      var context := LoadContext(files, candidates, agent.setup.cfg.MaxContextBytes());
      if context.Err? {
        return [ErrorEvent(context.error)], false;
      }
      var run := new TaskRun(Config(agent.setup, strategy, tools, agent.world.oracle, req, context.value), agent);
      run.Execute();
      return run.out, run.status == Hung;
    }
  }

  function Loaded(files: Option<FileView>, candidates: seq<string>, budget: nat): Result<seq<ContextFile>> {
    if files.None? then Ok([]) else
      match PackAll(files.value, candidates, budget)
      case Ok(p) => Ok(p.files)
      case Err(e) => Err(e)
  }
}
