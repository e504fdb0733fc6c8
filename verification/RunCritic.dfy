/** What the critic is shown, and what becomes of its answers: the answered calls of a run in the log, against the
    stream. */
module RunCritic {
  import opened Outcomes
  import opened Text
  import opened Strategy
  import opened FallbackWalk
  import opened AgentState
  import opened RunMachine
  import opened RunStory

  // ---- reading the log and the stream ----

  /** The answered calls made at a site, in order. */
  function CallsAt(calls: seq<ProviderCall>, site: Site): (r: seq<ProviderCall>)
    ensures forall p | p in r :: p.site == site && p.reply.Replied?
  {
    if calls == [] then []
    else
      var last := calls[|calls| - 1];
      CallsAt(calls[..|calls| - 1], site) + if last.site == site && last.reply.Replied? then [last] else []
  }

  /** The messages that open the steps. */
  function StepMessages(trace: seq<Event>): seq<string> {
    if trace == [] then []
    else
      var messages, last := StepMessages(trace[..|trace| - 1]), trace[|trace| - 1];
      if last.MessageEvent? && last.step == |messages| + 1 then messages + [last.message] else messages
  }

  /** The report of the last test event of a step. */
  function TestOf(trace: seq<Event>, step: nat): Option<TestReport> {
    if trace == [] then None
    else
      var last := trace[|trace| - 1];
      if last.TestEvent? && last.step == step then Some(last.report) else TestOf(trace[..|trace| - 1], step)
  }

  /** The text of the last reflection event of a step. */
  function ReflectionOf(trace: seq<Event>, step: nat): Option<string> {
    if trace == [] then None
    else
      var last := trace[|trace| - 1];
      if last.ReflectEvent? && last.step == step then Some(last.message) else ReflectionOf(trace[..|trace| - 1], step)
  }

  lemma ReadOne(trace: seq<Event>, e: Event, n: nat)
    ensures StepMessages(trace + [e])
         == if e.MessageEvent? && e.step == |StepMessages(trace)| + 1 then StepMessages(trace) + [e.message]
            else StepMessages(trace)
    ensures TestOf(trace + [e], n) == if e.TestEvent? && e.step == n then Some(e.report) else TestOf(trace, n)
    ensures ReflectionOf(trace + [e], n)
         == if e.ReflectEvent? && e.step == n then Some(e.message) else ReflectionOf(trace, n)
  {
    assert (trace + [e])[..|trace|] == trace;
  }

  // ---- the calls a job makes ----

  /** The answered calls at a site since `d0`. */
  function Since(d0: Desk, d: Desk, site: Site): (r: seq<ProviderCall>)
    requires d0.calls <= d.calls
    ensures forall p | p in r :: p.site == site && p.reply.Replied?
  {
    CallsAt(d.calls[|d0.calls|..], site)
  }

  lemma {:induction false} CallsAtConcat(xs: seq<ProviderCall>, ys: seq<ProviderCall>, site: Site)
    ensures CallsAt(xs + ys, site) == CallsAt(xs, site) + CallsAt(ys, site)
  {
    if ys == [] {
      assert xs + ys == xs;
    } else {
      assert (xs + ys)[..|xs + ys| - 1] == xs + ys[..|ys| - 1];
      CallsAtConcat(xs, ys[..|ys| - 1], site);
    }
  }

  lemma SinceConcat(d0: Desk, d1: Desk, d2: Desk, site: Site)
    requires d0.calls <= d1.calls && d1.calls <= d2.calls
    ensures Since(d0, d2, site) == Since(d0, d1, site) + Since(d1, d2, site)
  {
    assert d2.calls[|d0.calls|..] == d1.calls[|d0.calls|..] + d2.calls[|d1.calls|..];
    CallsAtConcat(d1.calls[|d0.calls|..], d2.calls[|d1.calls|..], site);
  }

  lemma OneSince(d0: Desk, d: Desk, call: ProviderCall, site: Site)
    requires d.calls == d0.calls + [call]
    ensures Since(d0, d, site) == if call.site == site && call.reply.Replied? then [call] else []
  {
    assert d.calls[|d0.calls|..] == [call] && [call][..0] == [];
    assert CallsAt([], site) == [];
    assert CallsAt([call], site) == [] + if call.site == site && call.reply.Replied? then [call] else [];
  }

  lemma NoneSince(d0: Desk, d: Desk, site: Site)
    requires d.calls == d0.calls
    ensures Since(d0, d, site) == []
  {
    assert d.calls[|d0.calls|..] == [];
  }

  /** Planning makes neither a coder call nor a reflection. */
  ghost predicate OnlyPlans(d0: Desk, d: Desk) {
    d0.calls <= d.calls && Since(d0, d, Coding) == [] && Since(d0, d, Reflecting) == []
  }

  lemma PlanningOnlyPlans(a: Setup, o: Oracle, d: Desk, site: Site, req: Request)
    requires site == OuterPlan || site == InnerPlan
    ensures OnlyPlans(d, PlanCall(a, o, d, site, req).0)
  {
    hide TrimSpace, IsBlank, SessionKey, Since;
    var d' := PlanCall(a, o, d, site, req).0;
    if d'.calls == d.calls {
      NoneSince(d, d', Coding);
      NoneSince(d, d', Reflecting);
    } else {
      var call := d'.calls[|d.calls|];
      OneSince(d, d', call, Coding);
      OneSince(d, d', call, Reflecting);
    }
  }

  /** What a coder call leaves in the log. */
  ghost predicate CodeLogged(d: Desk, d': Desk, r: Result<Response>) {
    && d.calls <= d'.calls
    && Since(d, d', Reflecting) == []
    && var answers := Since(d, d', Coding);
       if r.Ok? then |answers| == 1 && answers[0].reply == Replied(r.value.message, r.value.finishReason)
       else answers == []
  }

  lemma ConverseLogged(a: Setup, o: Oracle, d: Desk, key: string, model: string, req: Request)
    requires key in d.sessions
    ensures var (d', r) := Converse(a, o, d, key, model, req); CodeLogged(d, d', r)
  {
    hide Since, ChatMessages, UserPrompt, LastAssistant;
    var d' := Converse(a, o, d, key, model, req).0;
    var call := d'.calls[|d.calls|];
    OneSince(d, d', call, Coding);
    OneSince(d, d', call, Reflecting);
  }

  lemma RunLogged(a: Setup, o: Oracle, d: Desk, req: Request)
    ensures var (d', r) := RunCall(a, o, d, req); CodeLogged(d, d', r)
  {
    hide Converse, PlanCall, Since;
    NoneSince(d, d, Coding);
    NoneSince(d, d, Reflecting);
    if req.prompt != "" && a.catalog.Resolve(req.model).Ok? {
      PlanningOnlyPlans(a, o, d, InnerPlan, req);
      var (d1, planned) := if a.cfg.enablePlan then PlanCall(a, o, d, InnerPlan, req) else (d, Ok(""));
      var (d2, key) := EnsureSession(o, d1, req.sessionId);
      if planned.Ok? {
        var model := a.catalog.Resolve(req.model).value.route.name;
        ConverseLogged(a, o, d2, key, model, req);
        var d3 := Converse(a, o, d2, key, model, req).0;
        NoneSince(d1, d2, Coding);
        NoneSince(d1, d2, Reflecting);
        SinceConcat(d, d1, d2, Coding);
        SinceConcat(d, d1, d2, Reflecting);
        SinceConcat(d, d2, d3, Coding);
        SinceConcat(d, d2, d3, Reflecting);
      }
    }
  }

  /** The critic was shown the task, the last answer and the context given, and answered with the text returned. */
  ghost predicate Shown(call: ProviderCall, task: string, last: string, context: ReflectionContext, text: string) {
    && call.prompt.ReflectPrompt?
    && call.prompt.task == task
    && call.prompt.lastResponse == last
    && call.prompt.context == context
    && call.reply.Replied?
    && text == TrimSpace(call.reply.message.content)
  }

  /** What a reflection leaves in the log. */
  ghost predicate ReflectLogged(d: Desk, d': Desk, r: Result<string>, task: string, last: string,
                                context: ReflectionContext)
  {
    && d.calls <= d'.calls
    && Since(d, d', Coding) == []
    && var critiques := Since(d, d', Reflecting);
       if r.Ok? then |critiques| == 1 && Shown(critiques[0], task, last, context, r.value) else critiques == []
  }

  lemma ReflectCallLogged(a: Setup, o: Oracle, d: Desk, req: Request, last: Response, context: ReflectionContext)
    requires a.cfg.enableReflect
    ensures var (d', r) := ReflectCall(a, o, d, req, last, context);
            ReflectLogged(d, d', r, req.prompt, last.message.content, context)
  {
    hide TrimSpace, IsBlank, SessionKey, Since;
    var d' := ReflectCall(a, o, d, req, last, context).0;
    if d'.calls == d.calls {
      NoneSince(d, d', Coding);
      NoneSince(d, d', Reflecting);
    } else {
      var call := d'.calls[|d.calls|];
      OneSince(d, d', call, Coding);
      OneSince(d, d', call, Reflecting);
    }
  }

  /** What a job leaves in the log. */
  ghost predicate Logged(c: Config, d: Desk, job: Job, d': Desk, r: Result<Answer>) {
    match job
    case PlanJob => OnlyPlans(d, d')
    case CodeJob =>
      if r.Err? then CodeLogged(d, d', Err(r.error))
      else r.value.CodeAnswer? && CodeLogged(d, d', Ok(r.value.response))
    case ReflectJob(last, context) =>
      if r.Err? then ReflectLogged(d, d', Err(r.error), c.req.prompt, last.message.content, context)
      else r.value.TextAnswer? && ReflectLogged(d, d', Ok(r.value.text), c.req.prompt, last.message.content, context)
  }

  lemma PerformLogged(c: Config, d: Desk, job: Job, model: string)
    requires job.ReflectJob? ==> c.agent.cfg.enableReflect
    ensures var (d', r) := Perform(c, d, job, model); Logged(c, d, job, d', r)
  {
    hide PlanCall, RunCall, ReflectCall, OnlyPlans, CodeLogged, ReflectLogged;
    var req := Request(c.req.sessionId, model, c.req.prompt, c.context);
    match job
    case PlanJob => PlanningOnlyPlans(c.agent, c.oracle, d, OuterPlan, req);
    case CodeJob =>
      RunLogged(c.agent, c.oracle, d, req);
      assert Perform(c, d, job, model).1 == AsCode(RunCall(c.agent, c.oracle, d, req).1);
    case ReflectJob(last, context) =>
      var bare := req.(context := []);
      ReflectCallLogged(c.agent, c.oracle, d, bare, last, context);
      assert Perform(c, d, job, model).1 == AsText(ReflectCall(c.agent, c.oracle, d, bare, last, context).1);
  }

  lemma LoggedAfterFailure(c: Config, d: Desk, job: Job, d1: Desk, r1: Result<Answer>, d2: Desk, r2: Result<Answer>)
    requires Logged(c, d, job, d1, r1) && r1.Err? && Logged(c, d1, job, d2, r2)
    ensures Logged(c, d, job, d2, r2)
  {
    hide Since, Shown;
    SinceConcat(d, d1, d2, Coding);
    SinceConcat(d, d1, d2, Reflecting);
  }

  lemma RoleCallLogged(c: Config, s: Run, job: Job)
    requires job.ReflectJob? ==> c.agent.cfg.enableReflect
    ensures var (s', r) := RoleCall(c, s, job); Logged(c, s.desk, job, s'.desk, r)
  {
    hide Perform, Select, Fallback, Logged;
    var sel := Select(c.strategy, RoleOf(job), OverrideOf(job, c.req), s.used);
    var s1 := Account(s, sel.usage);
    PerformLogged(c, s.desk, job, sel.model);
    var (d1, r1) := Perform(c, s.desk, job, sel.model);
    var verdict := Fallback(c, RoleOf(job), sel.model, s1.used);
    if r1.Err? && verdict.Picked? {
      PerformLogged(c, d1, job, verdict.usage.model);
      var (d2, r2) := Perform(c, d1, job, verdict.usage.model);
      LoggedAfterFailure(c, s.desk, job, d1, r1, d2, r2);
    }
  }

  // ---- what holds all along ----

  /** The answer ends the run: it gives a reason to finish other than its length, or says that it is done. */
  predicate IsLast(reply: Reply)
    requires reply.Replied?
  {
    || reply.finishReason !in ["", "length"]
    || Contains(ToLower(reply.message.content), "[done]")
    || Contains(ToLower(reply.message.content), "<done>")
  }

  /** The texts before and now under headings, each from a line of its own; nothing unless enabled and both there. */
  predicate IsDiff(enabled: bool, previous: string, current: string, diff: string) {
    if !enabled || IsBlank(previous) || IsBlank(current) then diff == ""
    else if previous[|previous| - 1] == '\n' then diff == "Previous:\n" + previous + "Current:\n" + current
    else diff == "Previous:\n" + previous + "\nCurrent:\n" + current
  }

  /** The critic's call of a step, against the coder's answer of the step and the stream. */
  ghost predicate Reviews(c: Config, trace: seq<Event>, answer: ProviderCall, critique: ProviderCall, r: Reflected,
                          step: nat)
  {
    && answer.reply.Replied? && critique.reply.Replied? && critique.prompt.ReflectPrompt?
    && critique.prompt.task == c.req.prompt
    && critique.prompt.lastResponse == answer.reply.message.content
    && var context := critique.prompt.context;
    && context.tools == r.tools
    && context.test == TestOf(trace, step)
    && (context.test.Some? <==>
          c.agent.cfg.enableTestRun && !IsBlank(c.agent.cfg.testCommand) && IsLast(answer.reply))
    && IsDiff(c.agent.cfg.enableSelfDiff, r.previous, answer.reply.message.content, context.selfDiff)
    && r.text == TrimSpace(critique.reply.message.content)
    && ReflectionOf(trace, step) == if IsBlank(r.text) then None else Some(r.text)
  }

  function Contents(calls: seq<ProviderCall>): seq<string>
    requires forall p | p in calls :: p.reply.Replied?
  {
    seq(|calls|, i requires 0 <= i < |calls| => assert calls[i] in calls; calls[i].reply.message.content)
  }

  ghost predicate Kept(c: Config, d0: Desk, s: Run) {
    && d0.calls <= s.desk.calls
    && var answers, critiques := Since(d0, s.desk, Coding), Since(d0, s.desk, Reflecting);
    && Contents(answers) == StepMessages(s.trace)
    && |critiques| == |s.reflections| <= |answers|
    && forall i | 0 <= i < |critiques| :: Reviews(c, s.trace, answers[i], critiques[i], s.reflections[i], i + 1)
  }

  /** No test and no reflection of a step after `k`. */
  ghost predicate Clear(trace: seq<Event>, k: nat) {
    forall n | n > k :: TestOf(trace, n) == None && ReflectionOf(trace, n) == None
  }

  /** After `k` whole steps of a run that goes on. */
  ghost predicate Whole(c: Config, d0: Desk, s: Run, k: nat) {
    && Kept(c, d0, s)
    && |StepMessages(s.trace)| == k
    && |s.reflections| <= k && (c.agent.cfg.enableReflect ==> |s.reflections| == k)
    && Clear(s.trace, k)
  }

  /** In step `k`, before the reflection; `test` is what the tests reported. */
  ghost predicate Spoken(c: Config, d0: Desk, s: Run, k: nat, resp: Response, test: Option<TestReport>) {
    && Kept(c, d0, s)
    && 1 <= k == |StepMessages(s.trace)|
    && |s.reflections| < k && (c.agent.cfg.enableReflect ==> |s.reflections| == k - 1)
    && Since(d0, s.desk, Coding)[k - 1].reply == Replied(resp.message, resp.finishReason)
    && Clear(s.trace, k)
    && ReflectionOf(s.trace, k) == None && TestOf(s.trace, k) == test
  }

  // ---- streaming ----

  ghost predicate SameReading(s: Run, r: Run) {
    && StepMessages(r.trace) == StepMessages(s.trace)
    && forall n :: TestOf(r.trace, n) == TestOf(s.trace, n) && ReflectionOf(r.trace, n) == ReflectionOf(s.trace, n)
  }

  lemma OneRead(s: Run, r: Run, e: Event)
    requires r.trace == s.trace + [e] && !e.TestEvent? && !e.ReflectEvent?
    requires e.MessageEvent? ==> e.step != |StepMessages(s.trace)| + 1
    ensures SameReading(s, r)
  {
    hide StepMessages, TestOf, ReflectionOf;
    forall n ensures TestOf(r.trace, n) == TestOf(s.trace, n) && ReflectionOf(r.trace, n) == ReflectionOf(s.trace, n) {
      ReadOne(s.trace, e, n);
    }
    ReadOne(s.trace, e, 0);
  }

  lemma {:induction false} TokensRead(o: Oracle, s: Run, tokens: seq<string>, step: nat, idx: nat)
    requires idx <= |tokens|
    ensures SameReading(s, EmitTokens(o, s, tokens, step, idx))
    decreases |tokens| - idx
  {
    hide StepMessages, TestOf, ReflectionOf;
    if idx < |tokens| {
      var e := TokenEvent(tokens[idx], step * 1000 + idx);
      OneRead(s, Stop(Tick(s), ErrorEvent("cancelled")), ErrorEvent("cancelled"));
      OneRead(s, Emit(Tick(s), e), e);
      TokensRead(o, Emit(Tick(s), e), tokens, step, idx + 1);
    }
  }

  lemma {:induction false} ToolsRead(o: Oracle, s: Run, seen: seq<Observation>, calls: seq<ToolCall>)
    ensures SameReading(s, RunTools(o, s, seen, calls).0)
    decreases |calls|
  {
    hide StepMessages, TestOf, ReflectionOf;
    if calls != [] {
      var name := calls[0].name;
      match RunTool(o, s.desk.tick, calls[0])
      case Err(e) => OneRead(s, Stop(Tick(s), ToolFailed(name, e)), ToolFailed(name, e));
      case Ok(output) =>
        OneRead(s, Emit(Tick(s), ToolEvent(name, output)), ToolEvent(name, output));
        ToolsRead(o, Emit(Tick(s), ToolEvent(name, output)), seen + [Observation(name, output)], calls[1..]);
    }
  }

  /** Streaming that is read the same keeps what holds. */
  lemma KeptByStreaming(c: Config, d0: Desk, s: Run, r: Run)
    requires Kept(c, d0, s) && SameReading(s, r)
    requires r.desk.calls == s.desk.calls && r.reflections == s.reflections
    ensures Kept(c, d0, r)
  {
    hide StepMessages, TestOf, ReflectionOf, CallsAt, IsDiff, IsLast, Contents, IsBlank, TrimSpace;
  }

  // ---- the phases of a step ----

  lemma AnswerOpens(c: Config, d0: Desk, s: Run, k: nat, s1: Run, resp: Response)
    requires 1 <= k && Whole(c, d0, s, k - 1)
    requires s1.trace == s.trace && s1.reflections == s.reflections && CodeLogged(s.desk, s1.desk, Ok(resp))
    ensures Spoken(c, d0, Emit(s1, MessageEvent(resp.message.content, k)), k, resp, None)
  {
    hide StepMessages, TestOf, ReflectionOf, Since, IsDiff, IsLast, IsBlank, TrimSpace;
    var e := MessageEvent(resp.message.content, k);
    var r := Emit(s1, e);
    forall n ensures TestOf(r.trace, n) == TestOf(s.trace, n) && ReflectionOf(r.trace, n) == ReflectionOf(s.trace, n) {
      ReadOne(s.trace, e, n);
    }
    ReadOne(s.trace, e, 0);
    SinceConcat(d0, s.desk, s1.desk, Coding);
    SinceConcat(d0, s.desk, s1.desk, Reflecting);
    var before, answers := Since(d0, s.desk, Coding), Since(d0, s1.desk, Coding);
    assert Contents(answers) == Contents(before) + [resp.message.content];
    var critiques := Since(d0, s1.desk, Reflecting);
    forall i | 0 <= i < |critiques| ensures Reviews(c, r.trace, answers[i], critiques[i], r.reflections[i], i + 1) {
      assert Reviews(c, s.trace, before[i], critiques[i], s.reflections[i], i + 1);
      assert answers[i] == before[i];
    }
  }

  lemma SpokenByStreaming(c: Config, d0: Desk, s: Run, k: nat, resp: Response, test: Option<TestReport>, r: Run)
    requires Spoken(c, d0, s, k, resp, test) && SameReading(s, r)
    requires r.desk.calls == s.desk.calls && r.reflections == s.reflections
    ensures Spoken(c, d0, r, k, resp, test)
  {
    hide StepMessages, TestOf, ReflectionOf, CallsAt, Kept;
    KeptByStreaming(c, d0, s, r);
    KeptLog(c, d0, s);
    KeptLog(c, d0, r);
  }

  lemma KeptLog(c: Config, d0: Desk, s: Run)
    requires Kept(c, d0, s)
    ensures d0.calls <= s.desk.calls && |Since(d0, s.desk, Coding)| == |StepMessages(s.trace)|
  {
    hide StepMessages, Since, Reviews;
  }

  lemma SpeechKeeps(c: Config, d0: Desk, s: Run, k: nat, resp: Response, given: seq<Observation>)
    requires Spoken(c, d0, Emit(s, MessageEvent(resp.message.content, k)), k, resp, None)
    ensures Spoken(c, d0, SpeakPhase(c, s, k, resp, given).0, k, resp, None)
  {
    hide Spoken, SameReading, EmitTokens, RunTools, Fields;
    var tokens := Fields(resp.message.content);
    var s0 := Emit(s, MessageEvent(resp.message.content, k));
    TokensRead(c.oracle, s0, tokens, k, 0);
    var s1 := EmitTokens(c.oracle, s0, tokens, k, 0);
    SpokenByStreaming(c, d0, s0, k, resp, None, s1);
    var s2 := s1.(tokens := s1.tokens + |tokens|);
    ReadAlike(s1, s2);
    SpokenByStreaming(c, d0, s1, k, resp, None, s2);
    var calls := c.oracle.toolCalls(resp.message.content);
    ToolsRead(c.oracle, s2, given, calls);
    SpokenByStreaming(c, d0, s2, k, resp, None, RunTools(c.oracle, s2, given, calls).0);
  }

  lemma ReadAlike(s: Run, r: Run)
    requires r.trace == s.trace
    ensures SameReading(s, r)
  {
  }

  /** A test is reported exactly when tests are on and the answer ends the run, and then in an event of the step. */
  lemma TestsKeep(c: Config, d0: Desk, s: Run, k: nat, resp: Response)
    requires Spoken(c, d0, s, k, resp, None)
    ensures var (r, test) := TestPhase(c, s, k, IsResponseDone(resp));
            && Spoken(c, d0, r, k, resp, test)
            && (test.Some? <==> c.agent.cfg.enableTestRun && !IsBlank(c.agent.cfg.testCommand)
                                && IsLast(Replied(resp.message, resp.finishReason)))
  {
    hide StepMessages, TestOf, ReflectionOf, CallsAt, RunTests, Reviews, IsBlank, Contains, ToLower;
    var (r, test) := TestPhase(c, s, k, IsResponseDone(resp));
    if test.Some? {
      var e := TestEvent(k, test.value);
      forall n
        ensures TestOf(r.trace, n) == (if n == k then test else TestOf(s.trace, n))
        ensures ReflectionOf(r.trace, n) == ReflectionOf(s.trace, n)
      {
        ReadOne(s.trace, e, n);
      }
      ReadOne(s.trace, e, 0);
      EarlierReviewsStay(c, d0, s, r, k);
    }
  }

  /** Events of step `k` leave the reviews of the steps before it as they are. */
  lemma EarlierReviewsStay(c: Config, d0: Desk, s: Run, r: Run, k: nat)
    requires Kept(c, d0, s) && |s.reflections| < k
    requires r.desk.calls == s.desk.calls && r.reflections == s.reflections
    requires StepMessages(r.trace) == StepMessages(s.trace)
    requires forall n: nat | n < k ::
               TestOf(r.trace, n) == TestOf(s.trace, n) && ReflectionOf(r.trace, n) == ReflectionOf(s.trace, n)
    ensures Kept(c, d0, r)
  {
    hide StepMessages, TestOf, ReflectionOf, CallsAt, IsDiff, IsLast, Contents, IsBlank, TrimSpace;
  }

  lemma DiffShown(c: Config, resp: Response, tools: seq<Observation>, test: Option<TestReport>)
    ensures var context := ContextFor(c, resp, tools, test);
            && context.tools == tools && context.test == test
            && IsDiff(c.agent.cfg.enableSelfDiff, resp.previousAssistant, resp.message.content, context.selfDiff)
  {
    hide TrimSpace;
    BlankBreak();
    var previous := resp.previousAssistant;
    if previous != "" {
      assert previous[|previous| - 1..] == [previous[|previous| - 1]];
    }
    assert "\n" + "Current:\n" == "\nCurrent:\n";
    assert "Previous:\n" + previous + "\n" + "Current:\n" == "Previous:\n" + previous + "\nCurrent:\n";
    assert "Previous:\n" + previous + "" == "Previous:\n" + previous;
  }

  lemma BlankBreak()
    ensures IsBlank("")
  {
  }

  /** Calls that leave no answer, of the coder or of the critic, keep what holds. */
  lemma KeptBySilence(c: Config, d0: Desk, s: Run, r: Run)
    requires Kept(c, d0, s) && SameReading(s, r) && r.reflections == s.reflections
    requires s.desk.calls <= r.desk.calls
    requires Since(s.desk, r.desk, Coding) == [] && Since(s.desk, r.desk, Reflecting) == []
    ensures Kept(c, d0, r)
  {
    hide StepMessages, TestOf, ReflectionOf, Since, IsDiff, IsLast, Contents, IsBlank, TrimSpace;
    SinceConcat(d0, s.desk, r.desk, Coding);
    SinceConcat(d0, s.desk, r.desk, Reflecting);
    assert Since(d0, r.desk, Coding) == Since(d0, s.desk, Coding);
    assert Since(d0, r.desk, Reflecting) == Since(d0, s.desk, Reflecting);
  }

  /** The critique of step `k` in the log, and its text among the events of the step. */
  lemma CritiqueAdded(c: Config, d0: Desk, s: Run, k: nat, resp: Response, test: Option<TestReport>,
                      tools: seq<Observation>, text: string, r: Run)
    requires Spoken(c, d0, s, k, resp, test) && c.agent.cfg.enableReflect
    requires test.Some? <==> c.agent.cfg.enableTestRun && !IsBlank(c.agent.cfg.testCommand)
                             && IsLast(Replied(resp.message, resp.finishReason))
    requires r.trace == s.trace + if IsBlank(text) then [] else [ReflectEvent(text, k)]
    requires r.reflections == s.reflections + [Reflected(resp.previousAssistant, tools, text)]
    requires ReflectLogged(s.desk, r.desk, Ok(text), c.req.prompt, resp.message.content,
                           ContextFor(c, resp, tools, test))
    ensures Whole(c, d0, r, k)
  {
    hide StepMessages, TestOf, ReflectionOf, Since, IsDiff, IsLast, Contents, IsBlank, TrimSpace, ContextFor, Reviews;
    ReflectionRead(s.trace, text, k, r.trace);
    KeptLog(c, d0, s);
    SinceConcat(d0, s.desk, r.desk, Coding);
    SinceConcat(d0, s.desk, r.desk, Reflecting);
    var answers, critiques := Since(d0, r.desk, Coding), Since(d0, r.desk, Reflecting);
    var before := Since(d0, s.desk, Reflecting);
    assert answers == Since(d0, s.desk, Coding);
    assert |critiques| == k == |answers|;
    forall i | 0 <= i < |critiques| ensures Reviews(c, r.trace, answers[i], critiques[i], r.reflections[i], i + 1) {
      if i < k - 1 {
        assert Reviews(c, s.trace, answers[i], before[i], s.reflections[i], i + 1);
        ReviewStays(c, s.trace, r.trace, answers[i], before[i], s.reflections[i], i + 1);
      } else {
        ReviewMade(c, r.trace, answers[i], critiques[i], resp, test, tools, text, k);
      }
    }
  }

  lemma ReflectionRead(trace: seq<Event>, text: string, k: nat, trace': seq<Event>)
    requires trace' == trace + if IsBlank(text) then [] else [ReflectEvent(text, k)]
    ensures StepMessages(trace') == StepMessages(trace)
    ensures forall n :: TestOf(trace', n) == TestOf(trace, n)
    ensures forall n | n != k :: ReflectionOf(trace', n) == ReflectionOf(trace, n)
    ensures ReflectionOf(trace', k) == if IsBlank(text) then ReflectionOf(trace, k) else Some(text)
  {
    hide StepMessages, TestOf, ReflectionOf, IsBlank;
    if IsBlank(text) {
      assert trace' == trace;
    } else {
      forall n
        ensures TestOf(trace', n) == TestOf(trace, n)
        ensures ReflectionOf(trace', n) == if n == k then Some(text) else ReflectionOf(trace, n)
      {
        ReadOne(trace, ReflectEvent(text, k), n);
      }
      ReadOne(trace, ReflectEvent(text, k), 0);
    }
  }

  lemma ReviewStays(c: Config, trace: seq<Event>, trace': seq<Event>, answer: ProviderCall, critique: ProviderCall,
                    r: Reflected, step: nat)
    requires Reviews(c, trace, answer, critique, r, step)
    requires TestOf(trace', step) == TestOf(trace, step) && ReflectionOf(trace', step) == ReflectionOf(trace, step)
    ensures Reviews(c, trace', answer, critique, r, step)
  {
    hide TestOf, ReflectionOf, IsDiff, IsLast, IsBlank, TrimSpace;
  }

  lemma ReviewMade(c: Config, trace: seq<Event>, answer: ProviderCall, critique: ProviderCall, resp: Response,
                   test: Option<TestReport>, tools: seq<Observation>, text: string, k: nat)
    requires answer.reply == Replied(resp.message, resp.finishReason)
    requires Shown(critique, c.req.prompt, resp.message.content, ContextFor(c, resp, tools, test), text)
    requires TestOf(trace, k) == test && ReflectionOf(trace, k) == if IsBlank(text) then None else Some(text)
    requires test.Some? <==> c.agent.cfg.enableTestRun && !IsBlank(c.agent.cfg.testCommand)
                             && IsLast(Replied(resp.message, resp.finishReason))
    ensures Reviews(c, trace, answer, critique, Reflected(resp.previousAssistant, tools, text), k)
  {
    DiffShown(c, resp, tools, test);
    hide TestOf, ReflectionOf, IsDiff, IsLast, IsBlank, TrimSpace, ContextFor;
  }

  lemma ReflectionKeeps(c: Config, d0: Desk, s: Run, k: nat, resp: Response, tools: seq<Observation>,
                        test: Option<TestReport>)
    requires s.status == Running && Spoken(c, d0, s, k, resp, test)
    requires test.Some? <==> c.agent.cfg.enableTestRun && !IsBlank(c.agent.cfg.testCommand)
                             && IsLast(Replied(resp.message, resp.finishReason))
    ensures var r := ReflectPhase(c, s, k, resp, tools, test).0;
            Kept(c, d0, r) && (r.status == Running ==> Whole(c, d0, r, k))
  {
    hide RoleCall, Kept, Clear, Since, IsLast, IsBlank, ContextFor, Blocks, StepMessages, TestOf, ReflectionOf, Shown,
      SameReading;
    if c.agent.cfg.enableReflect {
      var job := ReflectJob(resp, ContextFor(c, resp, tools, test));
      RoleCallLogged(c, s, job);
      var (s1, answer) := RoleCall(c, s, job);
      var r := ReflectPhase(c, s, k, resp, tools, test).0;
      if answer.Ok? {
        var text := answer.value.text;
        assert s.trace + [] == s.trace;
        assert ReflectLogged(s.desk, r.desk, Ok(text), c.req.prompt, resp.message.content,
                             ContextFor(c, resp, tools, test));
        assert r.trace == s.trace + if IsBlank(text) then [] else [ReflectEvent(text, k)];
        CritiqueAdded(c, d0, s, k, resp, test, tools, text, r);
      } else {
        if s1.status == Hung {
          ReadAlike(s, r);
        } else {
          OneRead(s, r, ErrorEvent(answer.error));
        }
        KeptBySilence(c, d0, s, r);
      }
    }
  }

  lemma FinishKeeps(c: Config, d0: Desk, s: Run, k: nat, reason: string)
    requires Kept(c, d0, s)
    ensures Kept(c, d0, Finish(s, k, reason))
  {
    hide Kept, SameReading;
    OneRead(s, Finish(s, k, reason), DoneEvent(reason, k));
    KeptByStreaming(c, d0, s, Finish(s, k, reason));
  }

  lemma ConclusionKeeps(c: Config, d0: Desk, s: Run, k: nat, resp: Response, blocked: bool)
    requires Kept(c, d0, s) && |StepMessages(s.trace)| == k
    ensures Kept(c, d0, Conclude(s, k, resp, blocked))
    ensures Conclude(s, k, resp, blocked).status == Running ==> Conclude(s, k, resp, blocked) == s
  {
    hide Kept, SameReading, StepMessages, IsResponseDone;
    if blocked {
      var notice := MessageEvent("Run halted by reflection policy (" + BLOCKED + ")", k);
      OneRead(s, Emit(s, notice), notice);
      KeptByStreaming(c, d0, s, Emit(s, notice));
      FinishKeeps(c, d0, Emit(s, notice), k, BLOCKED);
    } else {
      FinishKeeps(c, d0, s, k, resp.finishReason);
    }
  }

  lemma JudgementKeeps(c: Config, d0: Desk, s: Run, k: nat, resp: Response, tools: seq<Observation>)
    requires s.status == Running && Spoken(c, d0, s, k, resp, None)
    ensures var r := JudgePhase(c, s, k, resp, tools);
            Kept(c, d0, r) && (r.status == Running ==> Whole(c, d0, r, k))
  {
    hide TestPhase, ReflectPhase, Conclude, IsResponseDone, Spoken, Kept, Clear, StepMessages, IsLast, IsBlank;
    TestsKeep(c, d0, s, k, resp);
    var (s1, test) := TestPhase(c, s, k, IsResponseDone(resp));
    ReflectionKeeps(c, d0, s1, k, resp, tools, test);
    var (s2, blocked) := ReflectPhase(c, s1, k, resp, tools, test);
    if s2.status == Running {
      ConclusionKeeps(c, d0, s2, k, resp, blocked);
    }
  }

  lemma StepKeeps(c: Config, d0: Desk, s: Run, k: nat)
    requires 1 <= k && s.status == Running && Whole(c, d0, s, k - 1)
    ensures var r := Step(c, s, k);
            Kept(c, d0, r) && (r.status == Running ==> Whole(c, d0, r, k))
  {
    hide RoleCall, SpeakPhase, JudgePhase, Kept, Clear, Spoken, StepMessages, SameReading, Since;
    if c.oracle.Cancelled(s.desk.tick) {
      OneRead(s, Step(c, s, k), ErrorEvent("cancelled"));
      KeptByStreaming(c, d0, s, Step(c, s, k));
    } else {
      var s0 := Tick(s).(pending := [], starts := s.starts + [s.desk.tick]);
      RoleCallLogged(c, s0, CodeJob);
      var (s1, r) := RoleCall(c, s0, CodeJob);
      if r.Err? {
        if s1.status == Hung {
          ReadAlike(s, Step(c, s, k));
        } else {
          OneRead(s, Step(c, s, k), ErrorEvent(r.error));
        }
        SinceIgnoresTicks(s, s0, s1);
        KeptBySilence(c, d0, s, Step(c, s, k));
      } else {
        var resp := r.value.response;
        SinceIgnoresTicks(s, s0, s1);
        AnswerOpens(c, d0, s, k, s1, resp);
        SpeechKeeps(c, d0, s1, k, resp, s.pending);
        var (s2, tools) := SpeakPhase(c, s1, k, resp, s.pending);
        SpokenIsKept(c, d0, s2, k, resp);
        if s2.status == Running {
          JudgementKeeps(c, d0, s2, k, resp, tools);
        }
      }
    }
  }

  lemma SinceIgnoresTicks(s: Run, s0: Run, s1: Run)
    requires s0.desk.calls == s.desk.calls && s0.desk.calls <= s1.desk.calls
    ensures Since(s.desk, s1.desk, Coding) == Since(s0.desk, s1.desk, Coding)
    ensures Since(s.desk, s1.desk, Reflecting) == Since(s0.desk, s1.desk, Reflecting)
  {
  }

  lemma SpokenIsKept(c: Config, d0: Desk, s: Run, k: nat, resp: Response)
    requires Spoken(c, d0, s, k, resp, None)
    ensures Kept(c, d0, s)
  {
    hide Kept;
  }

  lemma {:induction false} StepsKeep(c: Config, d0: Desk, s: Run, k: nat)
    requires 1 <= k <= c.agent.cfg.MaxSteps() + 1 && s.status == Running && Whole(c, d0, s, k - 1)
    ensures Kept(c, d0, Steps(c, s, k))
    decreases c.agent.cfg.MaxSteps() + 1 - k
  {
    hide Step, Kept, Clear, StepMessages;
    if k > c.agent.cfg.MaxSteps() {
      FinishKeeps(c, d0, s, c.agent.cfg.MaxSteps(), "max_steps");
    } else {
      StepKeeps(c, d0, s, k);
      if Step(c, s, k).status == Running {
        StepsKeep(c, d0, Step(c, s, k), k + 1);
      }
    }
  }

  lemma BeginIsWhole(c: Config, desk: Desk)
    ensures Whole(c, desk, Begin(desk), 0)
  {
    NoneSince(desk, desk, Coding);
    NoneSince(desk, desk, Reflecting);
  }

  /** No event of a step and no answered call of coder or critic. */
  lemma WholeBySilence(c: Config, d0: Desk, s: Run, r: Run)
    requires Whole(c, d0, s, 0) && SameReading(s, r) && r.reflections == s.reflections
    requires OnlyPlans(s.desk, r.desk)
    ensures Whole(c, d0, r, 0)
  {
    hide Kept, StepMessages, TestOf, ReflectionOf, Since;
    KeptBySilence(c, d0, s, r);
  }

  lemma PrologueKeeps(c: Config, desk: Desk)
    ensures Whole(c, desk, Prologue(c, desk), 0)
  {
    hide RoleCall, RunTools, Whole, SameReading, IsBlank, OnlyPlans;
    var s := Begin(desk);
    BeginIsWhole(c, desk);
    var (s1, seen) := if c.tools.Some? then RunTools(c.oracle, s, [], c.req.tools) else (s, []);
    ToolsRead(c.oracle, s, [], c.req.tools);
    ReadAlike(s, s);
    NothingLogged(s.desk, s1.desk);
    WholeBySilence(c, desk, s, s1);
    var s2 := s1.(pending := seen);
    ReadAlike(s1, s2);
    NothingLogged(s1.desk, s2.desk);
    WholeBySilence(c, desk, s1, s2);
    RoleCallLogged(c, s2, PlanJob);
    var (s3, r) := RoleCall(c, s2, PlanJob);
    var s4 := PlanPhase(c, s2);
    if c.agent.cfg.enablePlan && s1.status == Running {
      if s3.status == Hung || (r.Ok? && IsBlank(r.value.text)) {
        ReadAlike(s2, s4);
      } else {
        OneRead(s2, s4, if r.Err? then ErrorEvent(r.error) else PlanEvent(r.value.text));
      }
      WholeBySilence(c, desk, s2, s4);
    }
  }

  lemma NothingLogged(d: Desk, d': Desk)
    requires d'.calls == d.calls
    ensures OnlyPlans(d, d')
  {
    NoneSince(d, d', Coding);
    NoneSince(d, d', Reflecting);
  }

  lemma RunKeeps(c: Config, desk: Desk)
    ensures Kept(c, desk, RunTask(c, desk))
  {
    hide Prologue, Steps, Kept, Clear, StepMessages;
    PrologueKeeps(c, desk);
    if Prologue(c, desk).status == Running {
      StepsKeep(c, desk, Prologue(c, desk), 1);
    }
  }

  // ---- the laws ----

  /** The messages that open the steps are the answers to the coder calls, in order. */
  lemma MessagesAreAnswers(c: Config, desk: Desk)
    ensures var r := RunTask(c, desk);
            && desk.calls <= r.desk.calls
            && var answers := CallsAt(r.desk.calls[|desk.calls|..], Coding);
            && |answers| == |StepMessages(r.trace)|
            && forall i | 0 <= i < |answers| :: answers[i].reply.message.content == StepMessages(r.trace)[i]
  {
    hide RunTask, CallsAt, StepMessages, Reviews;
    RunKeeps(c, desk);
  }

  /** The text the coder had last from the assistant in step `i + 1`: the critique before, or the end of the history. */
  function Before(desk: Desk, session: string, critiques: seq<ProviderCall>, i: nat): string
    requires i < |critiques| && forall p | p in critiques :: p.reply.Replied?
  {
    if i == 0 then LastAssistant(HistoryOf(desk.sessions, session))
    else
      assert critiques[i - 1] in critiques;
      "Reflection: " + TrimSpace(critiques[i - 1].reply.message.content)
  }

  /** What the critic is shown in a step, and what becomes of the answer. */
  ghost predicate Criticised(c: Config, desk: Desk, trace: seq<Event>, answers: seq<ProviderCall>,
                             critiques: seq<ProviderCall>, i: nat)
    requires i < |critiques| <= |answers| && i < |ToolsByStep(trace)|
    requires (forall p | p in answers :: p.reply.Replied?) && (forall p | p in critiques :: p.reply.Replied?)
  {
    assert answers[i] in answers && critiques[i] in critiques;
    var prompt, reply, cfg := critiques[i].prompt, answers[i].reply, c.agent.cfg;
    var text := TrimSpace(critiques[i].reply.message.content);
    && prompt.ReflectPrompt?
    && prompt.task == c.req.prompt
    && prompt.lastResponse == reply.message.content
    && prompt.context.tools == ToolsByStep(trace)[i]
    && prompt.context.test == TestOf(trace, i + 1)
    && (TestOf(trace, i + 1).Some? <==> cfg.enableTestRun && !IsBlank(cfg.testCommand) && IsLast(reply))
    && (c.req.sessionId != "" ==>
          IsDiff(cfg.enableSelfDiff, Before(desk, c.req.sessionId, critiques, i), reply.message.content,
                 prompt.context.selfDiff))
    && ReflectionOf(trace, i + 1) == if IsBlank(text) then None else Some(text)
  }

  /** What the bookkeeping of a run says of a step, said of the log and the stream. */
  lemma ReviewIsCriticism(c: Config, desk: Desk, r: Run, answers: seq<ProviderCall>, critiques: seq<ProviderCall>,
                          i: nat)
    requires i < |critiques| == |r.reflections| <= |answers| && i < |ToolsByStep(r.trace)|
    requires (forall p | p in answers :: p.reply.Replied?) && (forall p | p in critiques :: p.reply.Replied?)
    requires Reviews(c, r.trace, answers[i], critiques[i], r.reflections[i], i + 1)
    requires i > 0 ==> Reviews(c, r.trace, answers[i - 1], critiques[i - 1], r.reflections[i - 1], i)
    requires r.reflections[i].tools == ToolsByStep(r.trace)[i]
    requires c.req.sessionId != "" ==> Chained(LastAssistant(Mine(c, desk)), r.reflections)
    ensures Criticised(c, desk, r.trace, answers, critiques, i)
  {
    hide ToolsByStep, TestOf, ReflectionOf, LastAssistant, HistoryOf, IsDiff, IsLast, IsBlank, TrimSpace;
  }

  /** Every answered call of the critic, in order: it is shown the task, the coder's answer of its step, the successful
      tool executions of the step, the report of the step's tests if they were due, and the difference to the text
      before; its trimmed answer is the step's reflection in the stream.  A run that is done with reflection on has
      one for every step. */
  lemma CriticSeesTheStep(c: Config, desk: Desk)
    requires c.agent.cfg.enableReflect
    ensures var r := RunTask(c, desk);
            && desk.calls <= r.desk.calls
            && var answers := CallsAt(r.desk.calls[|desk.calls|..], Coding);
               var critiques := CallsAt(r.desk.calls[|desk.calls|..], Reflecting);
            && |critiques| <= |answers| && |critiques| <= |ToolsByStep(r.trace)|
            && (forall i | 0 <= i < |critiques| :: Criticised(c, desk, r.trace, answers, critiques, i))
            && (IsDone(r.trace) ==> |critiques| == |ToolsByStep(r.trace)|)
  {
    hide RunTask, CallsAt, StepMessages, ToolsByStep, IsDone, Criticised, Reviews, Chained;
    RunKeeps(c, desk);
    ObservationsAreConserved(c, desk);
    var r := RunTask(c, desk);
    var answers := CallsAt(r.desk.calls[|desk.calls|..], Coding);
    var critiques := CallsAt(r.desk.calls[|desk.calls|..], Reflecting);
    if c.req.sessionId != "" {
      ReflectionsAreChained(c, desk);
    }
    forall i | 0 <= i < |critiques| ensures Criticised(c, desk, r.trace, answers, critiques, i) {
      assert ToolsHanded(r.reflections)[i] == ToolsByStep(r.trace)[i];
      ReviewIsCriticism(c, desk, r, answers, critiques, i);
    }
  }
}
