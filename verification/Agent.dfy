/** The agent as the program has it: a map from ids to session objects, updated in place. */
module Agent {
  import opened Outcomes
  import opened Text
  import opened ModelRegistry
  import opened AgentState

  /** The outside world: an oracle, the tick of the next reading, and the provider calls made. */
  class World {
    const oracle: Oracle
    var tick: nat
    var calls: seq<ProviderCall>

    constructor (oracle: Oracle)
      ensures this.oracle == oracle && tick == 0 && calls == []
    {
      this.oracle, tick, calls := oracle, 0, [];
    }

    /** The tick of this reading; the next reading is a tick later. */
    method Tick() returns (now: nat)
      modifies this`tick
      ensures now == old(tick) && tick == old(tick) + 1
    {
      now := tick;
      tick := tick + 1;
    }

    method Chat(site: Site, session: string, model: string, prompt: Prompt) returns (reply: Reply)
      modifies this
      ensures reply == oracle.chat(old(tick), model, prompt)
      ensures tick == old(tick) + 1
      ensures calls == old(calls) + [ProviderCall(site, session, model, prompt, reply)]
    {
      reply := oracle.chat(tick, model, prompt);
      calls := calls + [ProviderCall(site, session, model, prompt, reply)];
      tick := tick + 1;
    }
  }

  class SessionRecord {
    const id: string
    var history: seq<ChatMessage>
    var plan: string
    var lastReflection: string

    constructor (id: string)
      ensures this.id == id && View() == NEW_SESSION
    {
      this.id, history, plan, lastReflection := id, [], "", "";
    }

    function View(): Session
      reads this
    {
      Session(history, plan, lastReflection)
    }
  }

  class Agent {
    const setup: Setup
    const world: World
    var sessions: map<string, SessionRecord>

    /** Each session record is filed under its own id, so no two ids share one. */
    ghost predicate Valid()
      reads this, sessions.Values
    {
      forall k | k in sessions :: sessions[k].id == k
    }

    function Stored(): Sessions
      reads this, sessions.Values
    {
      map k | k in sessions :: sessions[k].View()
    }

    function View(): Desk
      reads this, world, sessions.Values
    {
      Desk(world.tick, Stored(), world.calls)
    }

    constructor (setup: Setup, world: World)
      ensures this.setup == setup && this.world == world
      ensures Valid() && sessions == map[]
    {
      this.setup, this.world, sessions := setup, world, map[];
    }

    /** Every id keeps its record: records are added, never replaced. */
    twostate predicate KeepsRecords()
      reads this
    {
      forall k | k in old(sessions) :: k in sessions && sessions[k] == old(sessions)[k]
    }

    method EnsureSession(id: string) returns (s: SessionRecord)
      requires Valid()
      modifies this, world
      ensures Valid() && KeepsRecords() && fresh(sessions.Values - old(sessions.Values))
      ensures (View(), s.id) == AgentState.EnsureSession(world.oracle, old(View()), id)
      ensures s.id in sessions && sessions[s.id] == s
    {
      var now := world.Tick();
      var key := if id == "" then "sess-" + Decimal(world.oracle.nanos(now)) else id;
      if key in sessions {
        s := sessions[key];
        assert Stored() == old(Stored());
      } else {
        s := new SessionRecord(key);
        sessions := sessions[key := s];
        assert Stored() == old(Stored())[key := NEW_SESSION];
      }
    }

    method LastAssistantContent(s: SessionRecord) returns (content: string)
      ensures content == LastAssistant(s.history)
    {
      var i := |s.history|;
      assert s.history[..i] == s.history;
      while i > 0
        invariant 0 <= i <= |s.history|
        invariant LastAssistant(s.history) == LastAssistant(s.history[..i])
      {
        i := i - 1;
        assert s.history[..i + 1][..i] == s.history[..i];
        if s.history[i].role == Assistant {
          return s.history[i].content;
        }
      }
      return "";
    }

    method AppendHistory(s: SessionRecord, user: ChatMessage, assistant: ChatMessage)
      modifies s`history
      ensures s.history == old(s.history) + [user, assistant]
    {
      s.history := s.history + [user, assistant];
    }

    method SetPlan(s: SessionRecord, plan: string)
      modifies s`plan
      ensures s.plan == plan
    {
      s.plan := plan;
    }

    method SetReflection(s: SessionRecord, reflection: string)
      modifies s`lastReflection
      ensures s.lastReflection == reflection
    {
      s.lastReflection := reflection;
    }

    method AppendReflection(s: SessionRecord, reflection: string)
      modifies s`history
      ensures s.history == old(s.history) + [ReflectionMessage(reflection)]
    {
      s.history := s.history + [ReflectionMessage(reflection)];
    }

    ghost predicate Filed(s: SessionRecord)
      reads this, sessions.Values, s
    {
      Valid() && s.id in sessions && sessions[s.id] == s
    }

    lemma StoredHas(s: SessionRecord)
      requires Filed(s)
      ensures s.id in Stored() && Stored()[s.id] == s.View()
      ensures Stored()[s.id := s.View()] == Stored()
    {
    }

    /** The records as they are stored depend on the changed one only. */
    twostate lemma StoredAfter(s: SessionRecord)
      requires old(Filed(s)) && sessions == old(sessions)
      requires forall k | k in sessions && sessions[k] != s :: sessions[k].View() == old(sessions[k].View())
      ensures Filed(s) && Stored() == old(Stored())[s.id := s.View()]
    {
    }

    method MakePlan(s: SessionRecord, site: Site, model: string, task: string) returns (r: Result<string>)
      requires Filed(s)
      modifies world, s
      ensures Filed(s)
      ensures (View(), r) == AgentState.MakePlan(world.oracle, old(View()), site, s.id, model, task)
    {
      hide TrimSpace, Stored;
      StoredHas(s);
      var reply := world.Chat(site, s.id, model, PlanPrompt(task));
      if reply.Failed? {
        StoredAfter(s);
        return Err(reply.error);
      }
      var plan := TrimSpace(reply.message.content);
      SetPlan(s, plan);
      StoredAfter(s);
      return Ok(plan);
    }

    method Converse(s: SessionRecord, model: string, req: Request) returns (r: Result<Response>)
      requires Filed(s)
      modifies world, s
      ensures Filed(s)
      ensures (View(), r) == AgentState.Converse(setup, world.oracle, old(View()), s.id, model, req)
    {
      hide UserPrompt, ChatMessages, LastAssistant, Stored;
      StoredHas(s);
      var user := ChatMessage(User, UserPrompt(req.prompt, req.context));
      var previous := LastAssistantContent(s);
      var messages := ChatMessages(setup.systemPrompt, s.View(), user);
      var reply := world.Chat(Coding, s.id, model, ChatPrompt(messages));
      if reply.Failed? {
        StoredAfter(s);
        return Err(reply.error);
      }
      AppendHistory(s, user, reply.message);
      StoredAfter(s);
      return Ok(Response(reply.message, reply.finishReason, previous));
    }

    method Reconsider(s: SessionRecord, model: string, prompt: Prompt) returns (r: Result<string>)
      requires Filed(s)
      modifies world, s
      ensures Filed(s)
      ensures (View(), r) == AgentState.Reconsider(world.oracle, old(View()), s.id, model, prompt)
    {
      hide TrimSpace, ReflectionMessage, Stored;
      StoredHas(s);
      var reply := world.Chat(Reflecting, s.id, model, prompt);
      if reply.Failed? {
        StoredAfter(s);
        return Err(reply.error);
      }
      var reflection := TrimSpace(reply.message.content);
      SetReflection(s, reflection);
      AppendReflection(s, reflection);
      StoredAfter(s);
      return Ok(reflection);
    }

    /** Builds a plan for the session unless it has one. */
    method Plan(site: Site, req: Request) returns (r: Result<string>)
      requires Valid()
      modifies this, world, sessions.Values
      ensures Valid() && KeepsRecords() && fresh(sessions.Values - old(sessions.Values))
      ensures (View(), r) == PlanCall(setup, world.oracle, old(View()), site, req)
    {
      if !setup.cfg.enablePlan {
        return Ok("");
      }
      if IsBlank(req.prompt) {
        return Err("prompt is required");
      }
      var s := EnsureSession(req.sessionId);
      assert View().sessions[s.id] == s.View();
      if s.plan != "" {
        return Ok(s.plan);
      }
      var route := setup.catalog.Resolve(req.model);
      if route.Err? {
        return Err(route.error);
      }
      hide AgentState.MakePlan;
      r := MakePlan(s, site, route.value.route.name, req.prompt);
    }

    /** One coder turn, planning first when planning is on. */
    method Run(req: Request) returns (r: Result<Response>)
      requires Valid()
      modifies this, world, sessions.Values
      ensures Valid() && KeepsRecords() && fresh(sessions.Values - old(sessions.Values))
      ensures (View(), r) == RunCall(setup, world.oracle, old(View()), req)
    {
      hide PlanCall, AgentState.Converse;
      if req.prompt == "" {
        return Err("prompt is required");
      }
      var route := setup.catalog.Resolve(req.model);
      if route.Err? {
        return Err(route.error);
      }
      if setup.cfg.enablePlan {
        var planned := Plan(InnerPlan, req);
        if planned.Err? {
          return Err(planned.error);
        }
      }
      var s := EnsureSession(req.sessionId);
      r := Converse(s, route.value.route.name, req);
    }

    /** Reflects on the last response and stores the reflection. */
    method Reflect(req: Request, last: Response, context: ReflectionContext) returns (r: Result<string>)
      requires Valid()
      modifies this, world, sessions.Values
      ensures Valid() && KeepsRecords() && fresh(sessions.Values - old(sessions.Values))
      ensures (View(), r) == ReflectCall(setup, world.oracle, old(View()), req, last, context)
    {
      hide AgentState.Reconsider;
      if !setup.cfg.enableReflect {
        return Ok("");
      }
      if IsBlank(last.message.content) {
        return Err("last message is required for reflection");
      }
      var s := EnsureSession(req.sessionId);
      assert View().sessions[s.id] == s.View();
      var route := setup.catalog.Resolve(req.model);
      if route.Err? {
        return Err(route.error);
      }
      r := Reconsider(s, route.value.route.name, ReflectPrompt(req.prompt, last.message.content, s.plan, context));
    }
  }
}
