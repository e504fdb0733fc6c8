/** What the models are sent.  Every prompt is told from the sessions at the start and the provider calls made before
    it, as they stand in the log. */
module Conversation {
  import opened Outcomes
  import opened Text
  import opened ModelRegistry
  import opened AgentState

  function SessionOf(sessions: Sessions, key: string): Session {
    if key in sessions then sessions[key] else Session([], "", "")
  }

  /** What an answered call leaves in its session: a planning call its plan; a coder call the message sent last and the
      answer; a reflection itself, and a message in the history. */
  function Answered(s: Session, call: ProviderCall): Session
    requires call.reply.Replied?
  {
    var text := TrimSpace(call.reply.message.content);
    match call.site
    case Coding =>
      var sent := if call.prompt.ChatPrompt? then call.prompt.messages else [];
      s.(history := s.history + (if sent == [] then [] else [sent[|sent| - 1]]) + [call.reply.message])
    case Reflecting =>
      s.(lastReflection := text, history := s.history + [ChatMessage(Assistant, "Reflection: " + text)])
    case _ => s.(plan := text)
  }

  /** A session after provider calls; failed ones, and those on other sessions, leave it as it is. */
  function After(s: Session, calls: seq<ProviderCall>, key: string): Session {
    if calls == [] then s
    else
      var last, before := calls[|calls| - 1], After(s, calls[..|calls| - 1], key);
      if last.session == key && last.reply.Replied? then Answered(before, last) else before
  }

  /** The messages of a coder call: the system's, the stored plan and the stored reflection if there are any, the whole
      history, and the user's. */
  ghost predicate Converses(systemPrompt: string, s: Session, user: string, m: seq<ChatMessage>) {
    var h := |s.history|;
    var notes := (if s.plan != "" then 1 else 0) + if s.lastReflection != "" then 1 else 0;
    && |m| == 1 + notes + h + 1
    && m[0] == ChatMessage(System, systemPrompt)
    && (s.plan != "" ==> m[1] == ChatMessage(Assistant, "Planned steps:\n" + s.plan))
    && (s.lastReflection != "" ==> m[notes] == ChatMessage(Assistant, "Previous reflection:\n" + s.lastReflection))
    && m[|m| - 1 - h..|m| - 1] == s.history
    && m[|m| - 1] == ChatMessage(User, user)
  }

  /** What is fixed for the prompts of a run. */
  datatype Matter = Matter(oracle: Oracle, systemPrompt: string, task: string, context: seq<ContextFile>)

  /** The reply is the model's to the prompt. */
  ghost predicate IsReplied(o: Oracle, call: ProviderCall) {
    exists tick: nat :: call.reply == o.chat(tick, call.model, call.prompt)
  }

  /** The prompt of a call on a session in the given state, and the reply to it.  A plan is asked for only when none is
      stored. */
  ghost predicate Fits(t: Matter, s: Session, call: ProviderCall) {
    && IsReplied(t.oracle, call)
    && match call.site
       case Coding =>
         call.prompt.ChatPrompt? && Converses(t.systemPrompt, s, UserPrompt(t.task, t.context), call.prompt.messages)
       case Reflecting => call.prompt.ReflectPrompt? && call.prompt.task == t.task && call.prompt.plan == s.plan
       case _ => call.prompt == PlanPrompt(t.task) && s.plan == ""
  }

  /** Call `i` of the log fits its session as it was then. */
  ghost predicate FitsAt(t: Matter, d0: Desk, calls: seq<ProviderCall>, i: nat)
    requires |d0.calls| <= i < |calls|
  {
    var key := calls[i].session;
    Fits(t, After(SessionOf(d0.sessions, key), calls[|d0.calls|..i], key), calls[i])
  }

  /** The sessions of `d` are those of `d0` after the calls made since, and the prompts of these calls fit. */
  ghost predicate Told(t: Matter, d0: Desk, d: Desk) {
    && d0.calls <= d.calls
    && (forall k :: SessionOf(d.sessions, k) == After(SessionOf(d0.sessions, k), d.calls[|d0.calls|..], k))
    && (forall i | |d0.calls| <= i < |d.calls| :: FitsAt(t, d0, d.calls, i))
  }

  // ---- one call after another ----

  lemma {:induction false} AfterConcat(s: Session, xs: seq<ProviderCall>, ys: seq<ProviderCall>, key: string)
    ensures After(s, xs + ys, key) == After(After(s, xs, key), ys, key)
  {
    hide Answered;
    if ys == [] {
      assert xs + ys == xs;
    } else {
      assert (xs + ys)[..|xs + ys| - 1] == xs + ys[..|ys| - 1];
      AfterConcat(s, xs, ys[..|ys| - 1], key);
    }
  }

  lemma ToldTransitive(t: Matter, d0: Desk, d1: Desk, d2: Desk)
    requires Told(t, d0, d1) && Told(t, d1, d2)
    ensures Told(t, d0, d2)
  {
    hide Answered, After, Fits, SessionOf;
    var n := |d0.calls|;
    forall k ensures SessionOf(d2.sessions, k) == After(SessionOf(d0.sessions, k), d2.calls[n..], k) {
      assert d2.calls[n..] == d1.calls[n..] + d2.calls[|d1.calls|..];
      AfterConcat(SessionOf(d0.sessions, k), d1.calls[n..], d2.calls[|d1.calls|..], k);
    }
    forall i | n <= i < |d2.calls| ensures FitsAt(t, d0, d2.calls, i) {
      var k := d2.calls[i].session;
      if i < |d1.calls| {
        assert FitsAt(t, d0, d1.calls, i);
        assert d2.calls[n..i] == d1.calls[n..i];
      } else {
        assert FitsAt(t, d1, d2.calls, i);
        assert d2.calls[n..i] == d1.calls[n..] + d2.calls[|d1.calls|..i];
        AfterConcat(SessionOf(d0.sessions, k), d1.calls[n..], d2.calls[|d1.calls|..i], k);
      }
    }
  }

  lemma NothingTold(t: Matter, d0: Desk, d: Desk)
    requires d.calls == d0.calls && forall k :: SessionOf(d.sessions, k) == SessionOf(d0.sessions, k)
    ensures Told(t, d0, d)
  {
    assert d.calls[|d0.calls|..] == [];
  }

  lemma AfterOne(s: Session, call: ProviderCall, key: string)
    ensures After(s, [], key) == s
    ensures After(s, [call], key) == if call.session == key && call.reply.Replied? then Answered(s, call) else s
  {
    hide Answered;
    assert [call][..0] == [];
  }

  lemma OneCallTold(t: Matter, d0: Desk, d: Desk, call: ProviderCall)
    requires d.calls == d0.calls + [call]
    requires Fits(t, SessionOf(d0.sessions, call.session), call)
    requires forall k | k != call.session || call.reply.Failed? :: SessionOf(d.sessions, k) == SessionOf(d0.sessions, k)
    requires call.reply.Replied? ==>
               SessionOf(d.sessions, call.session) == Answered(SessionOf(d0.sessions, call.session), call)
    ensures Told(t, d0, d)
  {
    hide Answered, Fits, SessionOf, After;
    var n := |d0.calls|;
    assert d.calls[n..] == [call] && d.calls[n..n] == [];
    forall k ensures SessionOf(d.sessions, k) == After(SessionOf(d0.sessions, k), d.calls[n..], k) {
      AfterOne(SessionOf(d0.sessions, k), call, k);
    }
    AfterOne(SessionOf(d0.sessions, call.session), call, call.session);
  }

  // ---- the calls of the agent ----

  lemma EnsureTold(t: Matter, d: Desk, id: string)
    ensures Told(t, d, EnsureSession(t.oracle, d, id).0)
  {
    NothingTold(t, d, EnsureSession(t.oracle, d, id).0);
  }

  lemma MakePlanTold(t: Matter, d: Desk, site: Site, key: string, model: string)
    requires key in d.sessions && d.sessions[key].plan == "" && (site == OuterPlan || site == InnerPlan)
    ensures Told(t, d, MakePlan(t.oracle, d, site, key, model, t.task).0)
  {
    hide TrimSpace, Told;
    var d' := MakePlan(t.oracle, d, site, key, model, t.task).0;
    OneCallTold(t, d, d', d'.calls[|d.calls|]);
  }

  lemma PlanTold(t: Matter, a: Setup, d: Desk, site: Site, req: Request)
    requires req.prompt == t.task && (site == OuterPlan || site == InnerPlan)
    ensures Told(t, d, PlanCall(a, t.oracle, d, site, req).0)
  {
    hide MakePlan, Told, IsBlank;
    NothingTold(t, d, d);
    var (d1, key) := EnsureSession(t.oracle, d, req.sessionId);
    EnsureTold(t, d, req.sessionId);
    if a.catalog.Resolve(req.model).Ok? && d1.sessions[key].plan == "" {
      var model := a.catalog.Resolve(req.model).value.route.name;
      MakePlanTold(t, d1, site, key, model);
      ToldTransitive(t, d, d1, MakePlan(t.oracle, d1, site, key, model, req.prompt).0);
    }
  }

  lemma MessagesConverse(systemPrompt: string, s: Session, user: string)
    ensures Converses(systemPrompt, s, user, ChatMessages(systemPrompt, s, ChatMessage(User, user)))
  {
  }

  lemma ConverseTold(t: Matter, a: Setup, d: Desk, key: string, model: string, req: Request)
    requires key in d.sessions
    requires a.systemPrompt == t.systemPrompt && req.prompt == t.task && req.context == t.context
    ensures Told(t, d, Converse(a, t.oracle, d, key, model, req).0)
  {
    hide TrimSpace, Told, ChatMessages, Converses, UserPrompt, LastAssistant;
    var d' := Converse(a, t.oracle, d, key, model, req).0;
    var s, user := d.sessions[key], UserPrompt(req.prompt, req.context);
    MessagesConverse(a.systemPrompt, s, user);
    LastIsUser(a.systemPrompt, s, ChatMessage(User, user));
    var call := d'.calls[|d.calls|];
    if call.reply.Replied? {
      assert s.history + [ChatMessage(User, user)] + [call.reply.message]
          == s.history + [ChatMessage(User, user), call.reply.message];
    }
    OneCallTold(t, d, d', call);
  }

  lemma LastIsUser(systemPrompt: string, s: Session, user: ChatMessage)
    ensures var m := ChatMessages(systemPrompt, s, user); m != [] && m[|m| - 1] == user
  {
  }

  lemma RunTold(t: Matter, a: Setup, d: Desk, req: Request)
    requires a.systemPrompt == t.systemPrompt && req.prompt == t.task && req.context == t.context
    ensures Told(t, d, RunCall(a, t.oracle, d, req).0)
  {
    hide Converse, PlanCall, Told;
    NothingTold(t, d, d);
    if req.prompt != "" && a.catalog.Resolve(req.model).Ok? {
      var d1 := if a.cfg.enablePlan then PlanCall(a, t.oracle, d, InnerPlan, req).0 else d;
      var (d2, key) := EnsureSession(t.oracle, d1, req.sessionId);
      var model := a.catalog.Resolve(req.model).value.route.name;
      PlanTold(t, a, d, InnerPlan, req);
      EnsureTold(t, d1, req.sessionId);
      ConverseTold(t, a, d2, key, model, req);
      ToldTransitive(t, d1, d2, Converse(a, t.oracle, d2, key, model, req).0);
      ToldTransitive(t, d, d1, Converse(a, t.oracle, d2, key, model, req).0);
    }
  }

  lemma ReconsiderTold(t: Matter, d: Desk, key: string, model: string, prompt: Prompt)
    requires key in d.sessions
    requires prompt.ReflectPrompt? && prompt.task == t.task && prompt.plan == d.sessions[key].plan
    ensures Told(t, d, Reconsider(t.oracle, d, key, model, prompt).0)
  {
    hide TrimSpace, Told;
    var d' := Reconsider(t.oracle, d, key, model, prompt).0;
    OneCallTold(t, d, d', d'.calls[|d.calls|]);
  }

  lemma ReflectTold(t: Matter, a: Setup, d: Desk, req: Request, last: Response, context: ReflectionContext)
    requires req.prompt == t.task
    ensures Told(t, d, ReflectCall(a, t.oracle, d, req, last, context).0)
  {
    hide Reconsider, Told, IsBlank;
    NothingTold(t, d, d);
    var (d1, key) := EnsureSession(t.oracle, d, req.sessionId);
    EnsureTold(t, d, req.sessionId);
    if a.catalog.Resolve(req.model).Ok? {
      var model := a.catalog.Resolve(req.model).value.route.name;
      var prompt := ReflectPrompt(req.prompt, last.message.content, d1.sessions[key].plan, context);
      ReconsiderTold(t, d1, key, model, prompt);
      ToldTransitive(t, d, d1, Reconsider(t.oracle, d1, key, model, prompt).0);
    }
  }

  // ---- what the messages say ----

  lemma {:induction false} BlocksGrow(context: seq<ContextFile>, f: ContextFile)
    ensures ContextBlocks(context + [f]) == ContextBlocks(context) + ContextBlocks([f])
  {
    if context == [] {
      assert [] + [f] == [f];
    } else {
      assert (context + [f])[1..] == context[1..] + [f];
      BlocksGrow(context[1..], f);
    }
  }

  lemma OneBlock(f: ContextFile)
    ensures var nl := f.content != "" && f.content[|f.content| - 1] == '\n';
            ContextBlocks([f]) == "File: " + f.path + "\n" + f.content + (if nl then "---\n" else "\n---\n")
  {
    assert [f][1..] == [];
    assert "---\n" + ContextBlocks([]) == "---\n";
    var head := "File: " + f.path + "\n" + f.content;
    assert head + "" + "---\n" == head + "---\n";
    assert head + "\n" + "---\n" == head + "\n---\n";
  }

  /** The user's message is the task, and then, under a heading, every context file in order: its path, its content, a
      line break unless the content ends in one, and a line of dashes. */
  lemma UserPromptGrows(task: string, context: seq<ContextFile>, f: ContextFile)
    ensures UserPrompt(task, []) == task
    ensures var nl := f.content != "" && f.content[|f.content| - 1] == '\n';
            UserPrompt(task, context + [f])
            == (if context == [] then task + "\n\nContext:\n" else UserPrompt(task, context))
               + ("File: " + f.path + "\n" + f.content + if nl then "---\n" else "\n---\n")
  {
    hide ContextBlocks;
    BlocksGrow(context, f);
    OneBlock(f);
    if context == [] {
      assert context + [f] == [f];
    }
  }

  /** The last message of the assistant is found, whatever others follow it; without one the text is empty. */
  lemma {:induction false} LastAssistantIs(before: seq<ChatMessage>, m: ChatMessage, others: seq<ChatMessage>)
    requires forall x | x in others :: x.role != Assistant
    ensures LastAssistant(others) == ""
    ensures m.role == Assistant ==> LastAssistant(before + [m] + others) == m.content
  {
    var all := before + [m] + others;
    if others != [] {
      var rest := others[..|others| - 1];
      assert all[..|all| - 1] == before + [m] + rest && others[|others| - 1] in others;
      LastAssistantIs(before, m, rest);
    } else {
      assert all[|all| - 1] == m;
    }
  }
}
