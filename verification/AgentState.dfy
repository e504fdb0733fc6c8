/** The agent's calls on values: its sessions, the provider calls it makes, and what each call does to them.
    Everything outside the agent is an oracle read at the current tick; each reading advances the tick. */
module AgentState {
  import opened Outcomes
  import opened Text
  import opened ModelRegistry

  datatype Role = System | User | Assistant | ToolRole

  datatype ChatMessage = ChatMessage(role: Role, content: string)

  datatype Session = Session(history: seq<ChatMessage>, plan: string, lastReflection: string)

  const NEW_SESSION := Session([], "", "")

  type Sessions = map<string, Session>

  datatype ContextFile = ContextFile(path: string, content: string)

  datatype Request = Request(sessionId: string, model: string, prompt: string, context: seq<ContextFile>)

  datatype Response = Response(message: ChatMessage, finishReason: string, previousAssistant: string)

  /** A tool result handed to a reflection. */
  datatype Observation = Observation(name: string, output: string)

  datatype TestReport = TestReport(output: string, exitCode: int, error: Option<string>, attempts: nat)

  datatype ReflectionContext = ReflectionContext(tools: seq<Observation>, test: Option<TestReport>, selfDiff: string)

  datatype AgentConfig = AgentConfig(
    maxSteps: int,
    enablePlan: bool,
    enableReflect: bool,
    reflectionPolicy: string,
    enableSelfDiff: bool,
    enableTestRun: bool,
    testCommand: string,
    testRetries: int,
    maxContextBytes: int)
  {
    function MaxSteps(): nat { if maxSteps > 0 then maxSteps else 1 }

    predicate TestRunEnabled() { enableTestRun && !IsBlank(testCommand) }

    function TestRetries(): nat { if testRetries < 0 then 0 else testRetries }

    function MaxContextBytes(): nat { if maxContextBytes < 0 then 0 else maxContextBytes }

    function ReflectionPolicy(): string {
      if IsBlank(reflectionPolicy) then "block_on_critical" else ToLower(TrimSpace(reflectionPolicy))
    }
  }

  // ---- the outside world ----

  /** What a prompt is built from; the wording of the planning and reflection prompts is not modelled. */
  datatype Prompt =
    | PlanPrompt(task: string)
    | ChatPrompt(messages: seq<ChatMessage>)
    | ReflectPrompt(task: string, lastResponse: string, plan: string, context: ReflectionContext)

  datatype Reply = Replied(message: ChatMessage, finishReason: string) | Failed(error: string)

  datatype ToolCall = ToolCall(name: string, args: string)

  datatype ExecResult = ExecResult(stdout: string, stderr: string, exitCode: int, error: Option<string>)

  /** Everything the run reads from outside, by tick.  `deadline` is the tick from which the request's context is
      cancelled.  `sendLoses` says which branch a send takes when both are ready. */
  datatype Oracle = Oracle(
    chat: (nat, string, Prompt) -> Reply,
    tool: (nat, ToolCall) -> Result<string>,
    exec: (nat, seq<string>) -> ExecResult,
    nanos: nat -> nat,
    deadline: Option<nat>,
    sendLoses: nat -> bool,
    toolCalls: string -> seq<ToolCall>,
    blocksApply: string -> bool)
  {
    predicate Cancelled(tick: nat) {
      deadline.Some? && deadline.value <= tick
    }
  }

  /** Where in the agent a provider call is made.  `InnerPlan` is the planning call inside a coder call. */
  datatype Site = OuterPlan | InnerPlan | Coding | Reflecting

  datatype ProviderCall = ProviderCall(site: Site, session: string, model: string, prompt: Prompt, reply: Reply)

  /** The agent, with the tick and the log of the provider calls made. */
  datatype Desk = Desk(tick: nat, sessions: Sessions, calls: seq<ProviderCall>)

  datatype Setup = Setup(cfg: AgentConfig, catalog: Catalog, systemPrompt: string)

  // ---- sessions ----

  function SessionKey(o: Oracle, tick: nat, id: string): string {
    if id == "" then "sess-" + Decimal(o.nanos(tick)) else id
  }

  /** The session of an id, created when missing; an empty id stands for a new id made from the clock. */
  function EnsureSession(o: Oracle, d: Desk, id: string): (r: (Desk, string))
    ensures r.1 in r.0.sessions && r.0.calls == d.calls
    ensures id != "" ==> r.1 == id
    ensures forall k | k in d.sessions :: k in r.0.sessions && r.0.sessions[k] == d.sessions[k]
    ensures forall k | k in r.0.sessions && k !in d.sessions :: k == r.1 && r.0.sessions[k] == NEW_SESSION
  {
    var key := SessionKey(o, d.tick, id);
    var sessions := if key in d.sessions then d.sessions else d.sessions[key := NEW_SESSION];
    (Desk(d.tick + 1, sessions, d.calls), key)
  }

  function LastAssistant(history: seq<ChatMessage>): string {
    if history == [] then ""
    else
      var last := history[|history| - 1];
      if last.role == Assistant then last.content else LastAssistant(history[..|history| - 1])
  }

  function UserPrompt(prompt: string, context: seq<ContextFile>): string {
    if context == [] then prompt else prompt + "\n\nContext:\n" + ContextBlocks(context)
  }

  function ContextBlocks(context: seq<ContextFile>): string {
    if context == [] then ""
    else
      var f := context[0];
      "File: " + f.path + "\n" + f.content
      + (if |f.content| > 0 && f.content[|f.content| - 1] == '\n' then "" else "\n")
      + "---\n" + ContextBlocks(context[1..])
  }

  /** System prompt, stored plan, stored reflection, history, then the new user message. */
  function ChatMessages(systemPrompt: string, s: Session, user: ChatMessage): seq<ChatMessage> {
    [ChatMessage(System, systemPrompt)]
    + (if s.plan != "" then [ChatMessage(Assistant, "Planned steps:\n" + s.plan)] else [])
    + (if s.lastReflection != "" then [ChatMessage(Assistant, "Previous reflection:\n" + s.lastReflection)] else [])
    + s.history
    + [user]
  }

  function ReflectionMessage(reflection: string): ChatMessage {
    ChatMessage(Assistant, "Reflection: " + reflection)
  }

  // ---- the three calls ----

  function Chat(o: Oracle, d: Desk, site: Site, session: string, model: string, prompt: Prompt): (r: (Desk, Reply))
    ensures r.0.sessions == d.sessions
    ensures r.0.calls == d.calls + [ProviderCall(site, session, model, prompt, r.1)]
  {
    var reply := o.chat(d.tick, model, prompt);
    (d.(tick := d.tick + 1, calls := d.calls + [ProviderCall(site, session, model, prompt, reply)]), reply)
  }

  function Store(d: Desk, key: string, s: Session): Desk {
    d.(sessions := d.sessions[key := s])
  }

  /** Ask for a plan and store it. */
  function MakePlan(o: Oracle, d: Desk, site: Site, key: string, model: string, task: string): (Desk, Result<string>)
    requires key in d.sessions
  {
    var (d2, reply) := Chat(o, d, site, key, model, PlanPrompt(task));
    match reply
    case Failed(e) => (d2, Err(e))
    case Replied(m, _) =>
      var plan := TrimSpace(m.content);
      (Store(d2, key, d.sessions[key].(plan := plan)), Ok(plan))
  }

  function PlanCall(a: Setup, o: Oracle, d: Desk, site: Site, req: Request): (Desk, Result<string>) {
    if !a.cfg.enablePlan then (d, Ok(""))
    else if IsBlank(req.prompt) then (d, Err("prompt is required"))
    else
      var (d1, key) := EnsureSession(o, d, req.sessionId);
      if d1.sessions[key].plan != "" then (d1, Ok(d1.sessions[key].plan)) else
        match a.catalog.Resolve(req.model)
        case Err(e) => (d1, Err(e))
        case Ok(r) => MakePlan(o, d1, site, key, r.route.name, req.prompt)
  }

  /** The coder turn proper: send the prompt, and append the user message and the answer to the history. */
  function Converse(a: Setup, o: Oracle, d: Desk, key: string, model: string, req: Request): (Desk, Result<Response>)
    requires key in d.sessions
  {
    var s := d.sessions[key];
    var user := ChatMessage(User, UserPrompt(req.prompt, req.context));
    var (d2, reply) := Chat(o, d, Coding, key, model, ChatPrompt(ChatMessages(a.systemPrompt, s, user)));
    match reply
    case Failed(e) => (d2, Err(e))
    case Replied(m, finish) =>
      (Store(d2, key, s.(history := s.history + [user, m])), Ok(Response(m, finish, LastAssistant(s.history))))
  }

  function RunCall(a: Setup, o: Oracle, d: Desk, req: Request): (Desk, Result<Response>) {
    if req.prompt == "" then (d, Err("prompt is required")) else
      match a.catalog.Resolve(req.model)
      case Err(e) => (d, Err(e))
      case Ok(r) =>
        var (d1, planned) := if a.cfg.enablePlan then PlanCall(a, o, d, InnerPlan, req) else (d, Ok(""));
        if planned.Err? then (d1, Err(planned.error)) else
          var (d2, key) := EnsureSession(o, d1, req.sessionId);
          Converse(a, o, d2, key, r.route.name, req)
  }

  /** Ask for a reflection; store it and append it to the history. */
  function Reconsider(o: Oracle, d: Desk, key: string, model: string, prompt: Prompt): (Desk, Result<string>)
    requires key in d.sessions
  {
    var s := d.sessions[key];
    var (d2, reply) := Chat(o, d, Reflecting, key, model, prompt);
    match reply
    case Failed(e) => (d2, Err(e))
    case Replied(m, _) =>
      var reflection := TrimSpace(m.content);
      (Store(d2, key, s.(lastReflection := reflection, history := s.history + [ReflectionMessage(reflection)])),
       Ok(reflection))
  }

  function ReflectCall(a: Setup, o: Oracle, d: Desk, req: Request, last: Response, context: ReflectionContext)
      : (Desk, Result<string>)
  {
    if !a.cfg.enableReflect then (d, Ok(""))
    else if IsBlank(last.message.content) then (d, Err("last message is required for reflection"))
    else
      var (d1, key) := EnsureSession(o, d, req.sessionId);
      match a.catalog.Resolve(req.model)
      case Err(e) => (d1, Err(e))
      case Ok(r) =>
        Reconsider(o, d1, key, r.route.name,
                   ReflectPrompt(req.prompt, last.message.content, d1.sessions[key].plan, context))
  }

  // ---- the history is what the successful provider calls added ----

  /** What a provider call adds to the history of its session: a pair of messages for an answered coder call, one
      reflection for an answered reflection, nothing otherwise. */
  function Added(c: ProviderCall): seq<ChatMessage> {
    if c.reply.Failed? then []
    else match c.site
      case Coding =>
        if c.prompt.ChatPrompt? && |c.prompt.messages| > 0 then
          [c.prompt.messages[|c.prompt.messages| - 1], c.reply.message]
        else []
      case Reflecting => [ReflectionMessage(TrimSpace(c.reply.message.content))]
      case _ => []
  }

  function AddedTo(calls: seq<ProviderCall>, key: string): seq<ChatMessage> {
    if calls == [] then []
    else
      var last := calls[|calls| - 1];
      AddedTo(calls[..|calls| - 1], key) + if last.session == key then Added(last) else []
  }

  function HistoryOf(sessions: Sessions, key: string): seq<ChatMessage> {
    if key in sessions then sessions[key].history else []
  }

  /** `d` continues `d0`: no session is lost, every history is the old one followed by what the new provider calls
      on that session added, and a plan once stored stays. */
  ghost predicate Continues(d0: Desk, d: Desk) {
    && d0.calls <= d.calls
    && d0.tick <= d.tick
    && d0.sessions.Keys <= d.sessions.Keys
    && (forall k :: HistoryOf(d.sessions, k) == HistoryOf(d0.sessions, k) + AddedTo(d.calls[|d0.calls|..], k))
    && (forall k | k in d0.sessions && d0.sessions[k].plan != "" :: d.sessions[k].plan == d0.sessions[k].plan)
  }

  lemma {:induction false} AddedToConcat(xs: seq<ProviderCall>, ys: seq<ProviderCall>, key: string)
    ensures AddedTo(xs + ys, key) == AddedTo(xs, key) + AddedTo(ys, key)
  {
    if ys == [] {
      assert xs + ys == xs;
    } else {
      assert (xs + ys)[..|xs + ys| - 1] == xs + ys[..|ys| - 1];
      AddedToConcat(xs, ys[..|ys| - 1], key);
    }
  }

  lemma ContinuesTransitive(d0: Desk, d1: Desk, d2: Desk)
    requires Continues(d0, d1) && Continues(d1, d2)
    ensures Continues(d0, d2)
  {
    forall k ensures HistoryOf(d2.sessions, k) == HistoryOf(d0.sessions, k) + AddedTo(d2.calls[|d0.calls|..], k) {
      assert d2.calls[|d0.calls|..] == d1.calls[|d0.calls|..] + d2.calls[|d1.calls|..];
      AddedToConcat(d1.calls[|d0.calls|..], d2.calls[|d1.calls|..], k);
    }
  }

  /** One provider call, made on an ensured session, whose outcome is stored. */
  lemma OneCallContinues(d0: Desk, d: Desk, c: ProviderCall)
    requires d.calls == d0.calls + [c] && d0.tick <= d.tick
    requires d0.sessions.Keys <= d.sessions.Keys
    requires forall k :: HistoryOf(d.sessions, k) == HistoryOf(d0.sessions, k) + if k == c.session then Added(c) else []
    requires forall k | k in d0.sessions && d0.sessions[k].plan != "" :: d.sessions[k].plan == d0.sessions[k].plan
    ensures Continues(d0, d)
  {
    assert d.calls[|d0.calls|..] == [c];
    assert forall k :: AddedTo([c], k) == [] + if k == c.session then Added(c) else [];
  }

  lemma NoCallContinues(d0: Desk, d: Desk)
    requires d.calls == d0.calls && d0.tick <= d.tick
    requires d0.sessions.Keys <= d.sessions.Keys
    requires forall k :: HistoryOf(d.sessions, k) == HistoryOf(d0.sessions, k)
    requires forall k | k in d0.sessions && d0.sessions[k].plan != "" :: d.sessions[k].plan == d0.sessions[k].plan
    ensures Continues(d0, d)
  {
    assert d.calls[|d0.calls|..] == [];
  }

  lemma EnsureContinues(o: Oracle, d: Desk, id: string)
    ensures Continues(d, EnsureSession(o, d, id).0)
  {
    NoCallContinues(d, EnsureSession(o, d, id).0);
  }

  lemma MakePlanContinues(o: Oracle, d: Desk, site: Site, key: string, model: string, task: string)
    requires key in d.sessions && d.sessions[key].plan == ""
    requires site == OuterPlan || site == InnerPlan
    ensures Continues(d, MakePlan(o, d, site, key, model, task).0)
  {
    var d' := MakePlan(o, d, site, key, model, task).0;
    OneCallContinues(d, d', d'.calls[|d.calls|]);
  }

  lemma PlanContinues(a: Setup, o: Oracle, d: Desk, site: Site, req: Request)
    requires site == OuterPlan || site == InnerPlan
    ensures Continues(d, PlanCall(a, o, d, site, req).0)
  {
    hide MakePlan, Continues;
    NothingContinues(d);
    var (d1, key) := EnsureSession(o, d, req.sessionId);
    EnsureContinues(o, d, req.sessionId);
    if a.catalog.Resolve(req.model).Ok? && d1.sessions[key].plan == "" {
      var model := a.catalog.Resolve(req.model).value.route.name;
      MakePlanContinues(o, d1, site, key, model, req.prompt);
      ContinuesTransitive(d, d1, MakePlan(o, d1, site, key, model, req.prompt).0);
    }
  }

  lemma ConverseContinues(a: Setup, o: Oracle, d: Desk, key: string, model: string, req: Request)
    requires key in d.sessions
    ensures Continues(d, Converse(a, o, d, key, model, req).0)
  {
    var d' := Converse(a, o, d, key, model, req).0;
    OneCallContinues(d, d', d'.calls[|d.calls|]);
  }

  lemma RunContinues(a: Setup, o: Oracle, d: Desk, req: Request)
    ensures Continues(d, RunCall(a, o, d, req).0)
  {
    hide Converse, PlanCall, Continues;
    NothingContinues(d);
    if req.prompt != "" && a.catalog.Resolve(req.model).Ok? {
      var d1 := if a.cfg.enablePlan then PlanCall(a, o, d, InnerPlan, req).0 else d;
      var (d2, key) := EnsureSession(o, d1, req.sessionId);
      var model := a.catalog.Resolve(req.model).value.route.name;
      PlanContinues(a, o, d, InnerPlan, req);
      EnsureContinues(o, d1, req.sessionId);
      ConverseContinues(a, o, d2, key, model, req);
      ContinuesTransitive(d1, d2, Converse(a, o, d2, key, model, req).0);
      ContinuesTransitive(d, d1, Converse(a, o, d2, key, model, req).0);
    }
  }

  lemma ReconsiderContinues(o: Oracle, d: Desk, key: string, model: string, prompt: Prompt)
    requires key in d.sessions
    ensures Continues(d, Reconsider(o, d, key, model, prompt).0)
  {
    var d' := Reconsider(o, d, key, model, prompt).0;
    OneCallContinues(d, d', d'.calls[|d.calls|]);
  }

  lemma ReflectContinues(a: Setup, o: Oracle, d: Desk, req: Request, last: Response, context: ReflectionContext)
    ensures Continues(d, ReflectCall(a, o, d, req, last, context).0)
  {
    hide Reconsider, Continues;
    NothingContinues(d);
    var (d1, key) := EnsureSession(o, d, req.sessionId);
    EnsureContinues(o, d, req.sessionId);
    if a.catalog.Resolve(req.model).Ok? {
      var model := a.catalog.Resolve(req.model).value.route.name;
      var prompt := ReflectPrompt(req.prompt, last.message.content, d1.sessions[key].plan, context);
      ReconsiderContinues(o, d1, key, model, prompt);
      ContinuesTransitive(d, d1, Reconsider(o, d1, key, model, prompt).0);
    }
  }

  lemma NothingContinues(d: Desk)
    ensures Continues(d, d)
  {
    NoCallContinues(d, d);
  }

  lemma PlanningLeavesHistories(a: Setup, o: Oracle, d: Desk, site: Site, req: Request, key: string)
    ensures HistoryOf(PlanCall(a, o, d, site, req).0.sessions, key) == HistoryOf(d.sessions, key)
  {
    hide TrimSpace, IsBlank, SessionKey;
  }

  /** A failed call leaves every history as it was. */
  lemma FailedCallsAddNothing(a: Setup, o: Oracle, d: Desk, req: Request, last: Response, context: ReflectionContext,
                              key: string)
    ensures RunCall(a, o, d, req).1.Err? ==>
              HistoryOf(RunCall(a, o, d, req).0.sessions, key) == HistoryOf(d.sessions, key)
    ensures ReflectCall(a, o, d, req, last, context).1.Err? ==>
              HistoryOf(ReflectCall(a, o, d, req, last, context).0.sessions, key) == HistoryOf(d.sessions, key)
  {
    hide PlanCall, TrimSpace, IsBlank, SessionKey, UserPrompt, ChatMessages, LastAssistant, ReflectionMessage;
    PlanningLeavesHistories(a, o, d, InnerPlan, req, key);
  }
}
