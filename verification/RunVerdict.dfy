/** Why a run ends: the reason its done event gives. */
module RunVerdict {
  import opened Outcomes
  import opened Text
  import opened TextLaws
  import opened ModelRegistry
  import opened Strategy
  import opened FallbackWalk
  import opened AgentState
  import opened RunMachine
  import opened RunStory

  /** The last answer to a coder call among the provider calls. */
  function LastAnswer(calls: seq<ProviderCall>): Option<Reply> {
    if calls == [] then None
    else
      var last := calls[|calls| - 1];
      if last.site == Coding && last.reply.Replied? then Some(last.reply) else LastAnswer(calls[..|calls| - 1])
  }

  /** The answer gives a reason to finish other than its length, or says that it is done. */
  predicate AnswerIsDone(a: Option<Reply>) {
    && a.Some? && a.value.Replied?
    && (|| a.value.finishReason !in ["", "length"]
        || Contains(ToLower(a.value.message.content), "[done]")
        || Contains(ToLower(a.value.message.content), "<done>"))
  }

  /** A reflection that halts the run. */
  predicate Halts(c: Config, r: Reflected) {
    !IsBlank(r.text) && Blocks(c, r.text)
  }

  predicate NoneHalts(c: Config, reflections: seq<Reflected>) {
    forall r | r in reflections :: !Halts(c, r)
  }

  // ---- the answers ----

  lemma CodeCallAnswers(a: Setup, o: Oracle, d: Desk, req: Request)
    ensures var (d', r) := RunCall(a, o, d, req);
            r.Ok? ==> LastAnswer(d'.calls) == Some(Replied(r.value.message, r.value.finishReason))
  {
    hide PlanCall;
    if req.prompt != "" && a.catalog.Resolve(req.model).Ok? {
      var (d1, planned) := if a.cfg.enablePlan then PlanCall(a, o, d, InnerPlan, req) else (d, Ok(""));
      var (d2, key) := EnsureSession(o, d1, req.sessionId);
      ConverseAnswers(a, o, d2, key, a.catalog.Resolve(req.model).value.route.name, req);
    }
  }

  lemma ConverseAnswers(a: Setup, o: Oracle, d: Desk, key: string, model: string, req: Request)
    requires key in d.sessions
    ensures var (d', r) := Converse(a, o, d, key, model, req);
            r.Ok? ==> LastAnswer(d'.calls) == Some(Replied(r.value.message, r.value.finishReason))
  {
  }

  lemma ReflectCallAnswersNothing(a: Setup, o: Oracle, d: Desk, req: Request, last: Response,
                                  context: ReflectionContext)
    ensures LastAnswer(ReflectCall(a, o, d, req, last, context).0.calls) == LastAnswer(d.calls)
  {
    var d' := ReflectCall(a, o, d, req, last, context).0;
    if |d'.calls| > |d.calls| {
      assert d'.calls[..|d'.calls| - 1] == d.calls;
    }
  }

  lemma PerformAnswers(c: Config, d: Desk, job: Job, model: string)
    ensures var (d', r) := Perform(c, d, job, model);
            && (job.CodeJob? && r.Ok? ==>
                  LastAnswer(d'.calls) == Some(Replied(r.value.response.message, r.value.response.finishReason)))
            && (job.ReflectJob? ==> LastAnswer(d'.calls) == LastAnswer(d.calls))
  {
    hide PlanCall, RunCall, ReflectCall, LastAnswer;
    var req := Request(c.req.sessionId, model, c.req.prompt, c.context);
    match job
    case PlanJob =>
    case CodeJob => CodeCallAnswers(c.agent, c.oracle, d, req);
    case ReflectJob(last, context) =>
      ReflectCallAnswersNothing(c.agent, c.oracle, d, req.(context := []), last, context);
  }

  lemma RoleCallAnswers(c: Config, s: Run, job: Job)
    ensures var (s', r) := RoleCall(c, s, job);
            && (job.CodeJob? && r.Ok? ==>
                  LastAnswer(s'.desk.calls) == Some(Replied(r.value.response.message, r.value.response.finishReason)))
            && (job.ReflectJob? ==> LastAnswer(s'.desk.calls) == LastAnswer(s.desk.calls))
  {
    hide Perform, LastAnswer, Select, Fallback;
    var sel := Select(c.strategy, RoleOf(job), OverrideOf(job, c.req), s.used);
    PerformAnswers(c, Account(s, sel.usage).desk, job, sel.model);
    var (s1, r1) := Attempt(c, s, job, sel.model, sel.usage);
    var verdict := Fallback(c, RoleOf(job), sel.model, s1.used);
    if verdict.Picked? {
      PerformAnswers(c, Account(s1, Some(verdict.usage)).desk, job, verdict.usage.model);
    }
  }

  // ---- the verdict ----

  /** A run that goes on after `k` steps: no reflection halted it, and the last answer was not done. */
  ghost predicate Undecided(c: Config, s: Run, k: nat) {
    && NoneHalts(c, s.reflections)
    && !IsDone(s.trace)
    && (k > 0 ==> LastAnswer(s.desk.calls).Some? && !AnswerIsDone(LastAnswer(s.desk.calls)))
  }

  /** What the end of a run says: at most the last reflection halts, and if it does the run is done, as blocked;
      otherwise a run that is done gives the reason of the last answer if that answer was done, and the maximum number
      of steps if it was not. */
  ghost predicate Decided(c: Config, r: Run) {
    && (forall i | 0 <= i < |r.reflections| - 1 :: !Halts(c, r.reflections[i]))
    && (!NoneHalts(c, r.reflections) ==> IsDone(r.trace))
    && (IsDone(r.trace) ==>
          var end, answer := r.trace[|r.trace| - 1], LastAnswer(r.desk.calls);
          if !NoneHalts(c, r.reflections) then end.finishReason == "blocked_by_reflect"
          else if AnswerIsDone(answer) then end.finishReason == answer.value.finishReason
          else end == DoneEvent("max_steps", if c.agent.cfg.maxSteps > 0 then c.agent.cfg.maxSteps else 1))
  }

  lemma {:induction false} TokensAreNotDone(o: Oracle, s: Run, tokens: seq<string>, step: nat, idx: nat)
    requires idx <= |tokens| && !IsDone(s.trace)
    ensures !IsDone(EmitTokens(o, s, tokens, step, idx).trace)
    decreases |tokens| - idx
  {
    if idx < |tokens| && !(o.Cancelled(s.desk.tick) && o.sendLoses(s.desk.tick)) {
      TokensAreNotDone(o, Emit(Tick(s), TokenEvent(tokens[idx], step * 1000 + idx)), tokens, step, idx + 1);
    }
  }

  lemma {:induction false} ToolsAreNotDone(o: Oracle, s: Run, seen: seq<Observation>, calls: seq<ToolCall>)
    requires !IsDone(s.trace)
    ensures !IsDone(RunTools(o, s, seen, calls).0.trace)
    decreases |calls|
  {
    if calls != [] {
      var r := RunTool(o, s.desk.tick, calls[0]);
      if r.Ok? {
        var name := calls[0].name;
        ToolsAreNotDone(o, Emit(Tick(s), ToolEvent(name, r.value)), seen + [Observation(name, r.value)], calls[1..]);
      }
    }
  }

  lemma SpeechIsNotDone(c: Config, s: Run, step: nat, resp: Response, given: seq<Observation>)
    requires !IsDone(s.trace)
    ensures !IsDone(SpeakPhase(c, s, step, resp, given).0.trace)
  {
    hide EmitTokens, RunTools, Fields;
    var tokens := Fields(resp.message.content);
    var s0 := Emit(s, MessageEvent(resp.message.content, step));
    TokensAreNotDone(c.oracle, s0, tokens, step, 0);
    var s1 := EmitTokens(c.oracle, s0, tokens, step, 0);
    ToolsAreNotDone(c.oracle, s1.(tokens := s1.tokens + |tokens|), given, c.oracle.toolCalls(resp.message.content));
  }

  /** The flag a reflection hands on says whether it halts. */
  lemma ReflectionDecides(c: Config, s: Run, k: nat, resp: Response, tools: seq<Observation>, test: Option<TestReport>)
    requires s.status == Running && NoneHalts(c, s.reflections) && !IsDone(s.trace)
    ensures var (r, blocked) := ReflectPhase(c, s, k, resp, tools, test);
            && !IsDone(r.trace) && LastAnswer(r.desk.calls) == LastAnswer(s.desk.calls)
            && (forall i | 0 <= i < |r.reflections| - 1 :: !Halts(c, r.reflections[i]))
            && (NoneHalts(c, r.reflections) <==> !blocked)
            && (blocked ==> r.status == Running)
  {
    hide RoleCall, LastAnswer, Blocks, ContextFor, IsBlank;
    RoleCallAnswers(c, s, ReflectJob(resp, ContextFor(c, resp, tools, test)));
    var (r, blocked) := ReflectPhase(c, s, k, resp, tools, test);
    if r.reflections != s.reflections {
      assert r.reflections[|r.reflections| - 1] in r.reflections;
    }
  }

  /** The end of a step decides, or the run goes on undecided. */
  lemma JudgementDecides(c: Config, s: Run, k: nat, resp: Response, tools: seq<Observation>)
    requires s.status == Running && NoneHalts(c, s.reflections) && !IsDone(s.trace)
    requires LastAnswer(s.desk.calls) == Some(Replied(resp.message, resp.finishReason))
    ensures var r := JudgePhase(c, s, k, resp, tools);
            if r.status == Running then Undecided(c, r, k) else Decided(c, r)
  {
    hide ReflectPhase, LastAnswer, RunTests, Halts, NoneHalts;
    var (s1, test) := TestPhase(c, s, k, IsResponseDone(resp));
    ReflectionDecides(c, s1, k, resp, tools, test);
  }

  lemma StepDecides(c: Config, s: Run, k: nat)
    requires 1 <= k && s.status == Running && Undecided(c, s, k - 1)
    ensures var r := Step(c, s, k);
            if r.status == Running then Undecided(c, r, k) else Decided(c, r)
  {
    hide RoleCall, SpeakPhase, JudgePhase, LastAnswer, Halts;
    if !c.oracle.Cancelled(s.desk.tick) {
      var s0 := Tick(s).(pending := [], starts := s.starts + [s.desk.tick]);
      RoleCallAnswers(c, s0, CodeJob);
      var (s1, r) := RoleCall(c, s0, CodeJob);
      if s1.status != Hung && r.Ok? {
        var resp := r.value.response;
        SpeechIsNotDone(c, s1, k, resp, s.pending);
        var (s2, tools) := SpeakPhase(c, s1, k, resp, s.pending);
        if s2.status == Running {
          JudgementDecides(c, s2, k, resp, tools);
        }
      }
    }
  }

  lemma {:induction false} StepsDecide(c: Config, s: Run, k: nat)
    requires 1 <= k <= c.agent.cfg.MaxSteps() + 1
    requires s.status == Running && Undecided(c, s, k - 1)
    ensures Decided(c, Steps(c, s, k))
    decreases c.agent.cfg.MaxSteps() + 1 - k
  {
    hide Step, LastAnswer, Halts;
    if k <= c.agent.cfg.MaxSteps() {
      StepDecides(c, s, k);
      if Step(c, s, k).status == Running {
        StepsDecide(c, Step(c, s, k), k + 1);
      }
    }
  }

  lemma PrologueIsUndecided(c: Config, desk: Desk)
    ensures Undecided(c, Prologue(c, desk), 0) && Decided(c, Prologue(c, desk))
  {
    hide RoleCall, RunTools;
    if c.tools.Some? {
      ToolsAreNotDone(c.oracle, Begin(desk), [], c.req.tools);
    }
  }

  /** Why a run ends.  A reflection that halts is the run's last, and the run is then done as blocked.  Without one, a
      run that is done gives the finish reason of the last coder answer if that answer was done, and otherwise the
      maximum number of steps, at the last step. */
  lemma RunEndsForAReason(c: Config, desk: Desk)
    ensures Decided(c, RunTask(c, desk))
  {
    hide Prologue, Steps, LastAnswer, Halts;
    PrologueIsUndecided(c, desk);
    if Prologue(c, desk).status == Running {
      StepsDecide(c, Prologue(c, desk), 1);
    }
  }

  lemma PolicyIsLowered(policy: string)
    ensures ToLower(TrimSpace(ToLower(TrimSpace(policy)))) == ToLower(TrimSpace(policy))
  {
    hide TrimSpace;
    var t := TrimSpace(policy);
    var pre, post := TrimSpaceSplits(policy);
    var low := ToLower(t);
    assert Trimmed(low);
    TrimSpaceDrops("", low, "");
    assert "" + low + "" == low;
    assert ToLower(low) == low;
  }

  /** A reflection halts a run exactly when it is not blank, asks to block, and the policy is neither of the two that
      let every run go on. */
  lemma HaltsIff(c: Config, r: Reflected)
    ensures Halts(c, r) <==>
            && !IsBlank(r.text) && c.oracle.blocksApply(r.text)
            && ToLower(TrimSpace(c.agent.cfg.reflectionPolicy)) !in ["never_block", "warn_only"]
  {
    hide TrimSpace, ToLower;
    PolicyIsLowered(c.agent.cfg.reflectionPolicy);
    BlankPolicy(c.agent.cfg.reflectionPolicy);
  }

  lemma BlankPolicy(policy: string)
    ensures IsBlank(policy) ==> ToLower(TrimSpace(policy)) == ""
    ensures ToLower(TrimSpace("block_on_critical")) == "block_on_critical"
  {
    assert TrimSpace("block_on_critical") == "block_on_critical";
  }
}
