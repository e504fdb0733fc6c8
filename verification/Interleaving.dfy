/** Concurrent agent calls on shared sessions.  Every access to shared state is a move of its own: a call ensures its
    session, reads one field, asks the provider, or makes one write; any number of calls move in any order. */
module Interleaving {
  import opened Outcomes
  import opened Text
  import opened ModelRegistry
  import opened AgentState
  import RunMachine

  type Answer = RunMachine.Answer

  /** A session object with its id; calls hold on to it by its number. */
  datatype Record = Record(id: string, session: Session)

  /** A write to a session by a call. */
  datatype Write =
    | PlanSet(caller: nat, target: nat, plan: string)
    | PairAppended(caller: nat, target: nat, user: ChatMessage, answer: ChatMessage)
    | ReflectionSet(caller: nat, target: nat, text: string)
    | ReflectionAppended(caller: nat, target: nat, text: string)

  /** The agent's state and, beside it, the log of the writes made. */
  datatype Shared = Shared(
    tick: nat, ids: map<string, nat>, records: seq<Record>, calls: seq<ProviderCall>, log: seq<Write>)

  datatype Op = PlanOp | CodeOp | ReflectOp(last: Response, context: ReflectionContext)

  /** Where a call is, with what it has read so far.  `seen` is the length of the log when the plan was read. */
  datatype Place =
    | Begin
    | LookForPlan(ref: nat)
    | AskPlan(ref: nat, seen: nat)
    | StorePlan(ref: nat, seen: nat, plan: string)
    | EnsureAgain
    | ReadPrevious(ref: nat)
    | ReadPlan(ref: nat, previous: string)
    | ReadReflection(ref: nat, previous: string, plan: string)
    | ReadHistory(ref: nat, previous: string, plan: string, reflection: string)
    | AskCoder(ref: nat, previous: string, messages: seq<ChatMessage>)
    | AppendPair(ref: nat, previous: string, user: ChatMessage, answer: ChatMessage, finishReason: string)
    | ReadPlanToReflect(ref: nat, last: Response, context: ReflectionContext)
    | AskCritic(ref: nat, prompt: Prompt)
    | SetReflection(ref: nat, text: string)
    | AppendReflection(ref: nat, text: string)
    | Returned(result: Result<Answer>)
  {
    /** The record the call holds, if it holds one. */
    function Holds(): Option<nat> {
      if Begin? || EnsureAgain? || Returned? then None else Some(this.ref)
    }
  }

  datatype Call = Call(op: Op, req: Request, place: Place)

  datatype Scene = Scene(shared: Shared, calls: seq<Call>)

  const START := Scene(Shared(0, map[], [], [], []), [])

  // ---- moves ----

  /** What a move does to the shared state. */
  datatype Effect =
    | Silent
    | Ensure(key: string)
    | Ask(call: ProviderCall)
    | Commit(write: Write)

  function Apply(s: Session, w: Write): Session {
    match w
    case PlanSet(_, _, plan) => s.(plan := plan)
    case PairAppended(_, _, user, answer) => s.(history := s.history + [user, answer])
    case ReflectionSet(_, _, text) => s.(lastReflection := text)
    case ReflectionAppended(_, _, text) => s.(history := s.history + [ReflectionMessage(text)])
  }

  function RefFor(sh: Shared, key: string): nat {
    if key in sh.ids then sh.ids[key] else |sh.records|
  }

  function Affect(sh: Shared, e: Effect): Shared
    requires e.Commit? ==> e.write.target < |sh.records|
  {
    match e
    case Silent => sh
    case Ensure(key) =>
      if key in sh.ids then sh.(tick := sh.tick + 1)
      else sh.(tick := sh.tick + 1,
               ids := sh.ids[key := |sh.records|],
               records := sh.records + [Record(key, NEW_SESSION)])
    case Ask(call) => sh.(tick := sh.tick + 1, calls := sh.calls + [call])
    case Commit(w) =>
      var r := sh.records[w.target];
      sh.(records := sh.records[w.target := r.(session := Apply(r.session, w))], log := sh.log + [w])
  }

  function Fail(e: string): (Effect, Place) {
    (Silent, Returned(Err(e)))
  }

  function Telling(t: string): Place {
    Returned(Ok(RunMachine.TextAnswer(t)))
  }

  /** A plan is there: a planning call returns it, a coder call goes on. */
  function Planned(c: Call, plan: string): Place {
    if c.op.CodeOp? then EnsureAgain else Telling(plan)
  }

  function BeginMove(a: Setup, o: Oracle, sh: Shared, c: Call): (Effect, Place) {
    var key := SessionKey(o, sh.tick, c.req.sessionId);
    match c.op
    case PlanOp =>
      if !a.cfg.enablePlan then (Silent, Telling(""))
      else if IsBlank(c.req.prompt) then Fail("prompt is required")
      else (Ensure(key), LookForPlan(RefFor(sh, key)))
    case CodeOp =>
      if c.req.prompt == "" then Fail("prompt is required")
      else if a.catalog.Resolve(c.req.model).Err? then Fail(a.catalog.Resolve(c.req.model).error)
      else if !a.cfg.enablePlan then (Silent, EnsureAgain)
      else if IsBlank(c.req.prompt) then Fail("prompt is required")
      else (Ensure(key), LookForPlan(RefFor(sh, key)))
    case ReflectOp(last, context) =>
      if !a.cfg.enableReflect then (Silent, Telling(""))
      else if IsBlank(last.message.content) then Fail("last message is required for reflection")
      else (Ensure(key), ReadPlanToReflect(RefFor(sh, key), last, context))
  }

  function PlanSite(op: Op): Site {
    if op.CodeOp? then InnerPlan else OuterPlan
  }

  /** The registry id of the model a request resolves to; every call resolves it before it asks. */
  function RouteName(a: Setup, req: Request): string {
    match a.catalog.Resolve(req.model) case Ok(r) => r.route.name case Err(_) => ""
  }

  function UserMessage(req: Request): ChatMessage {
    ChatMessage(User, UserPrompt(req.prompt, req.context))
  }

  function Asking(o: Oracle, sh: Shared, site: Site, ref: nat, model: string, prompt: Prompt): ProviderCall
    requires ref < |sh.records|
  {
    ProviderCall(site, sh.records[ref].id, model, prompt, o.chat(sh.tick, model, prompt))
  }

  /** The next move of call number `n`. */
  function Decide(a: Setup, o: Oracle, sh: Shared, n: nat, c: Call): (Effect, Place)
    requires c.place.Holds().Some? ==> c.place.ref < |sh.records|
  {
    var model := a.catalog.Resolve(c.req.model);
    match c.place
    case Begin => BeginMove(a, o, sh, c)
    case LookForPlan(ref) =>
      var plan := sh.records[ref].session.plan;
      if plan != "" then (Silent, Planned(c, plan))
      else if model.Err? then Fail(model.error)
      else (Silent, AskPlan(ref, |sh.log|))
    case AskPlan(ref, seen) =>
      var call := Asking(o, sh, PlanSite(c.op), ref, RouteName(a, c.req), PlanPrompt(c.req.prompt));
      (Ask(call), match call.reply
                  case Failed(e) => Returned(Err(e))
                  case Replied(m, _) => StorePlan(ref, seen, TrimSpace(m.content)))
    case StorePlan(ref, seen, plan) => (Commit(PlanSet(n, ref, plan)), Planned(c, plan))
    case EnsureAgain =>
      var key := SessionKey(o, sh.tick, c.req.sessionId);
      (Ensure(key), ReadPrevious(RefFor(sh, key)))
    case ReadPrevious(ref) => (Silent, ReadPlan(ref, LastAssistant(sh.records[ref].session.history)))
    case ReadPlan(ref, previous) => (Silent, ReadReflection(ref, previous, sh.records[ref].session.plan))
    case ReadReflection(ref, previous, plan) =>
      (Silent, ReadHistory(ref, previous, plan, sh.records[ref].session.lastReflection))
    case ReadHistory(ref, previous, plan, reflection) =>
      var seen := Session(sh.records[ref].session.history, plan, reflection);
      (Silent, AskCoder(ref, previous, ChatMessages(a.systemPrompt, seen, UserMessage(c.req))))
    case AskCoder(ref, previous, messages) =>
      var call := Asking(o, sh, Coding, ref, RouteName(a, c.req), ChatPrompt(messages));
      (Ask(call), match call.reply
                  case Failed(e) => Returned(Err(e))
                  case Replied(m, finish) => AppendPair(ref, previous, UserMessage(c.req), m, finish))
    case AppendPair(ref, previous, user, answer, finish) =>
      (Commit(PairAppended(n, ref, user, answer)),
       Returned(Ok(RunMachine.CodeAnswer(Response(answer, finish, previous)))))
    case ReadPlanToReflect(ref, last, context) =>
      if model.Err? then Fail(model.error)
      else
        var plan := sh.records[ref].session.plan;
        (Silent, AskCritic(ref, ReflectPrompt(c.req.prompt, last.message.content, plan, context)))
    case AskCritic(ref, prompt) =>
      var call := Asking(o, sh, Reflecting, ref, RouteName(a, c.req), prompt);
      (Ask(call), match call.reply
                  case Failed(e) => Returned(Err(e))
                  case Replied(m, _) => SetReflection(ref, TrimSpace(m.content)))
    case SetReflection(ref, text) => (Commit(ReflectionSet(n, ref, text)), AppendReflection(ref, text))
    case AppendReflection(ref, text) => (Commit(ReflectionAppended(n, ref, text)), Telling(text))
    case Returned(_) => (Silent, c.place)
  }

  function Next(a: Setup, o: Oracle, sh: Shared, n: nat, c: Call): (Shared, Call)
    requires c.place.Holds().Some? ==> c.place.ref < |sh.records|
  {
    var (e, place) := Decide(a, o, sh, n, c);
    (Affect(sh, e), c.(place := place))
  }

  datatype Move = StartCall(op: Op, req: Request) | Advance(n: nat)

  /** The calls hold records that exist. */
  predicate Fits(s: Scene) {
    forall n | 0 <= n < |s.calls| :: s.calls[n].place.Holds().Some? ==> s.calls[n].place.ref < |s.shared.records|
  }

  function Moved(a: Setup, o: Oracle, s: Scene, m: Move): Scene
    requires Fits(s)
  {
    match m
    case StartCall(op, req) => s.(calls := s.calls + [Call(op, req, Begin)])
    case Advance(n) =>
      if n >= |s.calls| then s else
        var (shared, call) := Next(a, o, s.shared, n, s.calls[n]);
        Scene(shared, s.calls[n := call])
  }

  // ---- what the log says ----

  /** A session rebuilt from the writes made to it. */
  function Replay(log: seq<Write>, ref: nat): Session {
    if log == [] then NEW_SESSION
    else
      var w, before := log[|log| - 1], Replay(log[..|log| - 1], ref);
      if w.target == ref then Apply(before, w) else before
  }

  /** What a write adds to a history: a whole pair, one reflection, or nothing. */
  function Block(w: Write): seq<ChatMessage> {
    match w
    case PairAppended(_, _, user, answer) => [user, answer]
    case ReflectionAppended(_, _, text) => [ReflectionMessage(text)]
    case _ => []
  }

  function BlocksTo(log: seq<Write>, ref: nat): seq<ChatMessage> {
    if log == [] then []
    else
      var w := log[|log| - 1];
      BlocksTo(log[..|log| - 1], ref) + if w.target == ref then Block(w) else []
  }

  function BlocksBy(log: seq<Write>, n: nat): seq<ChatMessage> {
    if log == [] then []
    else
      var w := log[|log| - 1];
      BlocksBy(log[..|log| - 1], n) + if w.caller == n then Block(w) else []
  }

  lemma {:induction false} HistoryIsReplayed(log: seq<Write>, ref: nat)
    ensures Replay(log, ref).history == BlocksTo(log, ref)
  {
    if log != [] {
      HistoryIsReplayed(log[..|log| - 1], ref);
    }
  }

  lemma {:induction false} NoWritesNoSession(log: seq<Write>, ref: nat)
    requires forall w | w in log :: w.target != ref
    ensures Replay(log, ref) == NEW_SESSION
  {
    if log != [] {
      assert log[|log| - 1] in log;
      assert forall w | w in log[..|log| - 1] :: w in log;
      NoWritesNoSession(log[..|log| - 1], ref);
    }
  }

  lemma {:induction false} NoWritesNoBlocks(log: seq<Write>, n: nat)
    requires forall w | w in log :: w.caller != n
    ensures BlocksBy(log, n) == []
  {
    if log != [] {
      assert log[|log| - 1] in log;
      assert forall w | w in log[..|log| - 1] :: w in log;
      NoWritesNoBlocks(log[..|log| - 1], n);
    }
  }

  /** What a call has added to the histories, as its result tells: a coder call that answered added the prompt and the
      answer, a reflection that was made added itself, and any other call added nothing. */
  function Share(a: Setup, c: Call): seq<ChatMessage> {
    if !c.place.Returned? || c.place.result.Err? then []
    else match c.place.result.value
      case CodeAnswer(r) => [UserMessage(c.req), r.message]
      case TextAnswer(t) => if c.op.ReflectOp? && a.cfg.enableReflect then [ReflectionMessage(t)] else []
  }

  // ---- the invariant ----

  /** Every id has one record, filed under that id, and every record has an id. */
  ghost predicate OneRecordPerId(sh: Shared) {
    && (forall k | k in sh.ids :: sh.ids[k] < |sh.records| && sh.records[sh.ids[k]].id == k)
    && (forall r | 0 <= r < |sh.records| :: sh.records[r].id in sh.ids && sh.ids[sh.records[r].id] == r)
  }

  predicate OnOwnSession(sh: Shared, req: Request, ref: nat) {
    ref < |sh.records| && (req.sessionId != "" ==> sh.records[ref].id == req.sessionId)
  }

  /** A call is at a place of its own kind. */
  predicate InPlace(a: Setup, c: Call) {
    match c.place
    case AppendPair(_, _, user, _, _) => c.op.CodeOp? && user == UserMessage(c.req)
    case ReadPlanToReflect(_, _, _) => c.op.ReflectOp? && a.cfg.enableReflect
    case AskCritic(_, _) => c.op.ReflectOp? && a.cfg.enableReflect
    case SetReflection(_, _) => c.op.ReflectOp? && a.cfg.enableReflect
    case AppendReflection(_, _) => c.op.ReflectOp? && a.cfg.enableReflect
    case Returned(_) => true
    case Begin => true
    case LookForPlan(_) => !c.op.ReflectOp?
    case AskPlan(_, _) => !c.op.ReflectOp?
    case StorePlan(_, _, _) => !c.op.ReflectOp?
    case _ => c.op.CodeOp?
  }

  /** A call about to store a plan saw a session without one. */
  ghost predicate SawNoPlan(sh: Shared, c: Call) {
    c.place.AskPlan? || c.place.StorePlan? ==>
      c.place.seen <= |sh.log| && Replay(sh.log[..c.place.seen], c.place.ref).plan == ""
  }

  /** Until it stores its plan, a call has written nothing. */
  ghost predicate NothingYet(sh: Shared, n: nat, c: Call) {
    c.place.Begin? || c.place.LookForPlan? || c.place.AskPlan? || c.place.StorePlan? ==>
      forall w | w in sh.log :: w.caller != n
  }

  ghost predicate CallSound(a: Setup, sh: Shared, n: nat, c: Call) {
    && (c.place.Holds().Some? ==> OnOwnSession(sh, c.req, c.place.ref))
    && InPlace(a, c)
    && SawNoPlan(sh, c)
    && NothingYet(sh, n, c)
    && BlocksBy(sh.log, n) == Share(a, c)
  }

  ghost predicate LogSound(s: Scene) {
    forall w | w in s.shared.log :: w.caller < |s.calls| && OnOwnSession(s.shared, s.calls[w.caller].req, w.target)
  }

  ghost predicate Replayed(sh: Shared) {
    forall r | 0 <= r < |sh.records| :: sh.records[r].session == Replay(sh.log, r)
  }

  ghost predicate Sound(a: Setup, s: Scene) {
    && OneRecordPerId(s.shared)
    && Replayed(s.shared)
    && LogSound(s)
    && CallsSound(a, s)
  }

  ghost predicate CallsSound(a: Setup, s: Scene) {
    forall n | 0 <= n < |s.calls| :: CallSound(a, s.shared, n, s.calls[n])
  }

  /** `t` comes later: ids keep their records and the log only grows. */
  ghost predicate Later(s: Shared, t: Shared) {
    && (forall k | k in s.ids :: k in t.ids && t.ids[k] == s.ids[k])
    && |s.records| <= |t.records|
    && (forall r | 0 <= r < |s.records| :: t.records[r].id == s.records[r].id)
    && s.log <= t.log
  }

  // ---- every move keeps the invariant ----

  lemma AffectLater(sh: Shared, e: Effect)
    requires OneRecordPerId(sh) && (e.Commit? ==> e.write.target < |sh.records|)
    ensures Later(sh, Affect(sh, e)) && OneRecordPerId(Affect(sh, e))
    ensures e.Ensure? ==>
              RefFor(sh, e.key) < |Affect(sh, e).records| && Affect(sh, e).records[RefFor(sh, e.key)].id == e.key
  {
  }

  lemma AffectReplayed(sh: Shared, e: Effect)
    requires Replayed(sh) && forall w | w in sh.log :: w.target < |sh.records|
    requires e.Commit? ==> e.write.target < |sh.records|
    ensures Replayed(Affect(sh, e))
  {
    if e.Commit? {
      assert (sh.log + [e.write])[..|sh.log|] == sh.log;
    } else if e.Ensure? {
      NoWritesNoSession(sh.log, |sh.records|);
    }
  }

  /** A move of call `n` writes in its own name, on the record it holds. */
  lemma DecideCommits(a: Setup, o: Oracle, sh: Shared, n: nat, c: Call)
    requires c.place.Holds().Some? ==> c.place.ref < |sh.records|
    ensures var (e, place) := Decide(a, o, sh, n, c);
            e.Commit? ==> e.write.caller == n && Some(e.write.target) == c.place.Holds()
  {
    hide LastAssistant, ChatMessages, TrimSpace, IsBlank, SessionKey, UserPrompt, Asking, RouteName, RefFor;
  }

  lemma DecideInPlace(a: Setup, o: Oracle, sh: Shared, n: nat, c: Call)
    requires c.place.Holds().Some? ==> c.place.ref < |sh.records|
    requires InPlace(a, c)
    ensures InPlace(a, c.(place := Decide(a, o, sh, n, c).1))
  {
    hide LastAssistant, ChatMessages, TrimSpace, IsBlank, SessionKey, UserPrompt, Asking, RouteName, RefFor;
  }

  lemma DecideOnOwn(a: Setup, o: Oracle, sh: Shared, n: nat, c: Call)
    requires OneRecordPerId(sh) && (c.place.Holds().Some? ==> OnOwnSession(sh, c.req, c.place.ref))
    ensures var (e, place) := Decide(a, o, sh, n, c);
            && (place.Holds().Some? && e.Ensure? ==>
                  place.ref == RefFor(sh, e.key) && (c.req.sessionId != "" ==> e.key == c.req.sessionId))
            && (place.Holds().Some? && !e.Ensure? ==> place.Holds() == c.place.Holds())
  {
    hide LastAssistant, ChatMessages, TrimSpace, IsBlank, InPlace;
  }

  lemma DecideSees(a: Setup, o: Oracle, sh: Shared, n: nat, c: Call)
    requires c.place.Holds().Some? ==> c.place.ref < |sh.records|
    requires Replayed(sh) && SawNoPlan(sh, c)
    ensures var (e, place) := Decide(a, o, sh, n, c);
            && (place.AskPlan? || place.StorePlan? ==> !e.Commit?)
            && SawNoPlan(sh, c.(place := place))
            && (place.Begin? || place.LookForPlan? || place.AskPlan? || place.StorePlan? ==>
                  !e.Commit? && (c.place.Begin? || c.place.LookForPlan? || c.place.AskPlan?))
  {
    assert sh.log[..|sh.log|] == sh.log;
    hide LastAssistant, ChatMessages, TrimSpace, IsBlank, SessionKey, Replay;
  }

  /** What a move adds to the histories is what its outcome says. */
  lemma DecideShares(a: Setup, o: Oracle, sh: Shared, n: nat, c: Call)
    requires c.place.Holds().Some? ==> c.place.ref < |sh.records|
    requires InPlace(a, c)
    ensures var (e, place) := Decide(a, o, sh, n, c);
            Share(a, c.(place := place)) == Share(a, c) + if e.Commit? then Block(e.write) else []
  {
    hide LastAssistant, ChatMessages, TrimSpace, IsBlank, SessionKey, UserPrompt;
  }

  lemma DecideSound(a: Setup, o: Oracle, sh: Shared, n: nat, c: Call)
    requires OneRecordPerId(sh) && Replayed(sh) && CallSound(a, sh, n, c)
    ensures var (e, place) := Decide(a, o, sh, n, c);
            && (e.Commit? ==> e.write.caller == n && Some(e.write.target) == c.place.Holds())
            && CallSound(a, Affect(sh, e), n, c.(place := place))
  {
    var (e, place) := Decide(a, o, sh, n, c);
    DecideCommits(a, o, sh, n, c);
    DecideInPlace(a, o, sh, n, c);
    DecideOnOwn(a, o, sh, n, c);
    DecideSees(a, o, sh, n, c);
    DecideShares(a, o, sh, n, c);
    AffectLater(sh, e);
    if e.Commit? {
      assert (sh.log + [e.write])[..|sh.log|] == sh.log;
    }
    hide Decide, InPlace, Share, Replay, Replayed;
  }

  lemma OthersBlocks(log: seq<Write>, w: Write, m: nat)
    requires w.caller != m
    ensures BlocksBy(log + [w], m) == BlocksBy(log, m)
  {
    assert (log + [w])[..|log|] == log;
  }

  lemma OthersStaySound(a: Setup, sh: Shared, e: Effect, n: nat, m: nat, c: Call)
    requires OneRecordPerId(sh) && CallSound(a, sh, m, c) && m != n
    requires e.Commit? ==> e.write.caller == n && e.write.target < |sh.records|
    ensures CallSound(a, Affect(sh, e), m, c)
  {
    hide BlocksBy, Share, InPlace, Replay, OneRecordPerId;
    AffectLater(sh, e);
    if e.Commit? {
      OthersBlocks(sh.log, e.write, m);
    }
    if SawNoPlan(sh, c) && (c.place.AskPlan? || c.place.StorePlan?) {
      assert Affect(sh, e).log[..c.place.seen] == sh.log[..c.place.seen];
    }
  }

  lemma NewCallIsSound(a: Setup, sh: Shared, n: nat, op: Op, req: Request)
    requires forall w | w in sh.log :: w.caller < n
    ensures CallSound(a, sh, n, Call(op, req, Begin))
  {
    NoWritesNoBlocks(sh.log, n);
  }

  lemma StartIsSound(a: Setup, s: Scene, op: Op, req: Request)
    requires Sound(a, s)
    ensures Sound(a, s.(calls := s.calls + [Call(op, req, Begin)]))
  {
    hide OneRecordPerId, Replayed, CallSound;
    NewCallIsSound(a, s.shared, |s.calls|, op, req);
  }

  lemma LogStaysSound(s: Scene, e: Effect, n: nat, call: Call)
    requires OneRecordPerId(s.shared) && LogSound(s) && n < |s.calls| && call.req == s.calls[n].req
    requires e.Commit? ==> e.write.caller == n && OnOwnSession(s.shared, call.req, e.write.target)
    ensures LogSound(Scene(Affect(s.shared, e), s.calls[n := call]))
  {
    AffectLater(s.shared, e);
    if e.Commit? {
      assert forall w :: w in s.shared.log + [e.write] <==> w in s.shared.log || w == e.write;
    }
    hide OneRecordPerId;
  }

  lemma CallsStaySound(a: Setup, s: Scene, e: Effect, n: nat, call: Call)
    requires OneRecordPerId(s.shared) && CallsSound(a, s) && n < |s.calls|
    requires e.Commit? ==> e.write.caller == n && e.write.target < |s.shared.records|
    requires CallSound(a, Affect(s.shared, e), n, call)
    ensures CallsSound(a, Scene(Affect(s.shared, e), s.calls[n := call]))
  {
    hide CallSound, Affect, OneRecordPerId;
    var calls := s.calls[n := call];
    forall k | 0 <= k < |calls| ensures CallSound(a, Affect(s.shared, e), k, calls[k]) {
      if k != n {
        OthersStaySound(a, s.shared, e, n, k, s.calls[k]);
      }
    }
  }

  lemma AdvanceIsSound(a: Setup, o: Oracle, s: Scene, n: nat)
    requires Sound(a, s) && n < |s.calls| && Fits(s)
    ensures Sound(a, Moved(a, o, s, Advance(n))) && Later(s.shared, Moved(a, o, s, Advance(n)).shared)
  {
    hide Decide, Affect, Share, Replay, BlocksBy, InPlace, SawNoPlan, OneRecordPerId, Replayed, Later, Fits;
    assert CallSound(a, s.shared, n, s.calls[n]);
    var (e, place) := Decide(a, o, s.shared, n, s.calls[n]);
    var call := s.calls[n].(place := place);
    DecideSound(a, o, s.shared, n, s.calls[n]);
    AffectLater(s.shared, e);
    AffectReplayed(s.shared, e);
    LogStaysSound(s, e, n, call);
    CallsStaySound(a, s, e, n, call);
  }

  lemma MovedIsSound(a: Setup, o: Oracle, s: Scene, m: Move)
    requires Sound(a, s)
    ensures Fits(s) && Sound(a, Moved(a, o, s, m)) && Later(s.shared, Moved(a, o, s, m).shared)
  {
    assert Fits(s);
    match m
    case StartCall(op, req) => StartIsSound(a, s, op, req);
    case Advance(n) =>
      if n < |s.calls| {
        AdvanceIsSound(a, o, s, n);
      }
  }

  // ---- every schedule ----

  lemma LaterTransitive(s: Shared, t: Shared, u: Shared)
    requires Later(s, t) && Later(t, u)
    ensures Later(s, u)
  {
  }

  /** The moves made one after the other. */
  ghost function Execute(a: Setup, o: Oracle, s: Scene, moves: seq<Move>): (r: Scene)
    requires Sound(a, s)
    ensures Sound(a, r) && Later(s.shared, r.shared)
    decreases |moves|
  {
    if moves == [] then s
    else
      MovedIsSound(a, o, s, moves[0]);
      var r := Execute(a, o, Moved(a, o, s, moves[0]), moves[1..]);
      LaterTransitive(s.shared, Moved(a, o, s, moves[0]).shared, r.shared);
      r
  }

  lemma StartIsEmpty(a: Setup)
    ensures Sound(a, START)
  {
  }

  lemma {:induction false} BlocksToConcat(xs: seq<Write>, ys: seq<Write>, ref: nat)
    ensures BlocksTo(xs + ys, ref) == BlocksTo(xs, ref) + BlocksTo(ys, ref)
  {
    if ys == [] {
      assert xs + ys == xs;
    } else {
      assert (xs + ys)[..|xs + ys| - 1] == xs + ys[..|ys| - 1];
      BlocksToConcat(xs, ys[..|ys| - 1], ref);
    }
  }

  /** The scene a schedule leads to from the start. */
  ghost function Reached(a: Setup, o: Oracle, moves: seq<Move>): (r: Scene)
    ensures Sound(a, r)
  {
    StartIsEmpty(a);
    Execute(a, o, START, moves)
  }

  /** Whatever the schedule: a history is the concatenation of the whole blocks written to it, each by a call on that
      session; and what each call has written is one pair if it answered, one reflection if it reflected, nothing if it
      failed or only planned. */
  lemma HistoriesAreWholeBlocks(a: Setup, o: Oracle, moves: seq<Move>, k: string)
    requires k in Reached(a, o, moves).shared.ids
    ensures var s := Reached(a, o, moves);
            var ref := s.shared.ids[k];
            && ref < |s.shared.records|
            && s.shared.records[ref].session.history == BlocksTo(s.shared.log, ref)
            && (forall w | w in s.shared.log :: w.caller < |s.calls|)
            && (forall w | w in s.shared.log && w.target == ref :: s.calls[w.caller].req.sessionId in ["", k])
            && (forall n | 0 <= n < |s.calls| :: BlocksBy(s.shared.log, n) == Share(a, s.calls[n]))
  {
    hide Reached, Share, BlocksBy, BlocksTo, Replay, InPlace, SawNoPlan, NothingYet;
    var s := Reached(a, o, moves);
    HistoryIsReplayed(s.shared.log, s.shared.ids[k]);
    forall n | 0 <= n < |s.calls| ensures BlocksBy(s.shared.log, n) == Share(a, s.calls[n]) {
      assert CallSound(a, s.shared, n, s.calls[n]);
    }
  }

  /** Whatever happens later, an id keeps its record and its history is only added to. */
  lemma HistoriesOnlyGrow(a: Setup, o: Oracle, s: Scene, moves: seq<Move>, k: string)
    requires Sound(a, s) && k in s.shared.ids
    ensures var t := Execute(a, o, s, moves);
            var ref := s.shared.ids[k];
            && k in t.shared.ids && t.shared.ids[k] == ref
            && ref < |s.shared.records| <= |t.shared.records|
            && |s.shared.log| <= |t.shared.log|
            && t.shared.records[ref].session.history
               == s.shared.records[ref].session.history + BlocksTo(t.shared.log[|s.shared.log|..], ref)
  {
    hide Execute, CallsSound, LogSound, BlocksTo, Replay;
    var t := Execute(a, o, s, moves);
    var ref := s.shared.ids[k];
    HistoryIsReplayed(s.shared.log, ref);
    HistoryIsReplayed(t.shared.log, ref);
    assert t.shared.log == s.shared.log + t.shared.log[|s.shared.log|..];
    BlocksToConcat(s.shared.log, t.shared.log[|s.shared.log|..], ref);
  }

  // ---- a call that is left alone ----

  /** The agent's state as one call sees it. */
  function DeskOf(sh: Shared): Desk
    requires forall k | k in sh.ids :: sh.ids[k] < |sh.records|
  {
    Desk(sh.tick, map k | k in sh.ids :: sh.records[sh.ids[k]].session, sh.calls)
  }

  /** Moves left before a call returns, at most. */
  function Left(p: Place): nat {
    match p
    case Begin => 12
    case LookForPlan(_) => 11
    case AskPlan(_, _) => 10
    case StorePlan(_, _, _) => 9
    case EnsureAgain => 8
    case ReadPrevious(_) => 7
    case ReadPlan(_, _) => 6
    case ReadReflection(_, _, _) => 5
    case ReadHistory(_, _, _, _) => 4
    case AskCoder(_, _, _) => 3
    case AppendPair(_, _, _, _, _) => 2
    case ReadPlanToReflect(_, _, _) => 4
    case AskCritic(_, _) => 3
    case SetReflection(_, _) => 2
    case AppendReflection(_, _) => 1
    case Returned(_) => 0
  }

  /** The state can be moved on: records are filed, and the call holds one that exists. */
  ghost predicate Ready(sh: Shared, c: Call) {
    OneRecordPerId(sh) && (c.place.Holds().Some? ==> OnOwnSession(sh, c.req, c.place.ref))
  }

  lemma NextIsReady(a: Setup, o: Oracle, sh: Shared, n: nat, c: Call)
    requires Ready(sh, c)
    ensures var (sh', c') := Next(a, o, sh, n, c); Ready(sh', c') && c'.op == c.op && c'.req == c.req
  {
    DecideOnOwn(a, o, sh, n, c);
    var (e, place) := Decide(a, o, sh, n, c);
    DecideCommits(a, o, sh, n, c);
    AffectLater(sh, e);
    hide Decide;
  }

  lemma NextIsLess(a: Setup, o: Oracle, sh: Shared, n: nat, c: Call)
    requires (c.place.Holds().Some? ==> c.place.ref < |sh.records|) && !c.place.Returned?
    ensures Left(Next(a, o, sh, n, c).1.place) < Left(c.place)
  {
    hide LastAssistant, ChatMessages, TrimSpace, IsBlank, SessionKey, UserPrompt, Asking, RouteName, RefFor;
  }

  /** Call `n` moved until it returns, nothing else moving. */
  ghost function Alone(a: Setup, o: Oracle, sh: Shared, n: nat, c: Call): (r: (Shared, Call))
    requires Ready(sh, c)
    ensures Ready(r.0, r.1) && r.1.place.Returned?
    decreases Left(c.place)
  {
    if c.place.Returned? then (sh, c)
    else
      NextIsReady(a, o, sh, n, c);
      NextIsLess(a, o, sh, n, c);
      var (sh', c') := Next(a, o, sh, n, c);
      Alone(a, o, sh', n, c')
  }

  lemma DeskEnsure(o: Oracle, sh: Shared, id: string)
    requires OneRecordPerId(sh)
    ensures var key := SessionKey(o, sh.tick, id);
            var sh' := Affect(sh, Ensure(key));
            && OneRecordPerId(sh')
            && RefFor(sh, key) < |sh'.records| && sh'.records[RefFor(sh, key)].id == key
            && (DeskOf(sh'), key) == EnsureSession(o, DeskOf(sh), id)
  {
    var key := SessionKey(o, sh.tick, id);
    AffectLater(sh, Ensure(key));
    var sh' := Affect(sh, Ensure(key));
    assert DeskOf(sh').sessions == EnsureSession(o, DeskOf(sh), id).0.sessions;
  }

  lemma RecordIsSession(sh: Shared, ref: nat)
    requires OneRecordPerId(sh) && ref < |sh.records|
    ensures sh.records[ref].id in DeskOf(sh).sessions
    ensures DeskOf(sh).sessions[sh.records[ref].id] == sh.records[ref].session
  {
  }

  lemma DeskCommit(sh: Shared, w: Write)
    requires OneRecordPerId(sh) && w.target < |sh.records|
    ensures var sh' := Affect(sh, Commit(w));
            var id := sh.records[w.target].id;
            && OneRecordPerId(sh')
            && id in DeskOf(sh).sessions
            && DeskOf(sh') == Store(DeskOf(sh), id, Apply(DeskOf(sh).sessions[id], w))
  {
    AffectLater(sh, Commit(w));
    RecordIsSession(sh, w.target);
    var id := sh.records[w.target].id;
    assert DeskOf(Affect(sh, Commit(w))).sessions == DeskOf(sh).sessions[id := Apply(DeskOf(sh).sessions[id], w)];
  }

  /** Where a plan leaves a call. */
  function AfterPlan(c: Call, r: Result<string>): Place {
    match r case Err(e) => Returned(Err(e)) case Ok(plan) => Planned(c, plan)
  }

  /** `(sh, c)` goes on to `(sh', c')` when left alone. */
  ghost predicate GoesOn(a: Setup, o: Oracle, n: nat, sh: Shared, c: Call, sh': Shared, c': Call) {
    && Ready(sh, c) && Ready(sh', c') && c'.op == c.op && c'.req == c.req
    && Alone(a, o, sh, n, c) == Alone(a, o, sh', n, c')
  }

  lemma OneMove(a: Setup, o: Oracle, sh: Shared, n: nat, c: Call) returns (sh': Shared, c': Call)
    requires Ready(sh, c) && !c.place.Returned?
    ensures (sh', c') == Next(a, o, sh, n, c) && GoesOn(a, o, n, sh, c, sh', c')
  {
    NextIsReady(a, o, sh, n, c);
    var next := Next(a, o, sh, n, c);
    hide Next;
    sh', c' := next.0, next.1;
  }

  lemma AskThenStore(a: Setup, o: Oracle, sh: Shared, n: nat, c: Call) returns (sh': Shared, c': Call)
    requires Ready(sh, c) && c.place.AskPlan?
    ensures GoesOn(a, o, n, sh, c, sh', c')
    ensures sh.records[c.place.ref].id in DeskOf(sh).sessions
    ensures (DeskOf(sh'), c'.place)
            == var id := sh.records[c.place.ref].id;
               var (d, r) := MakePlan(o, DeskOf(sh), PlanSite(c.op), id, RouteName(a, c.req), c.req.prompt);
               (d, AfterPlan(c, r))
  {
    hide TrimSpace, Alone;
    RecordIsSession(sh, c.place.ref);
    var sh1, c1 := OneMove(a, o, sh, n, c);
    sh', c' := sh1, c1;
    if c1.place.StorePlan? {
      sh', c' := OneMove(a, o, sh1, n, c1);
      DeskCommit(sh1, PlanSet(n, c1.place.ref, c1.place.plan));
    }
  }

  lemma EnsureAlone(a: Setup, o: Oracle, sh: Shared, n: nat, c: Call) returns (sh': Shared, c': Call)
    requires Ready(sh, c) && !c.place.Returned?
    requires Decide(a, o, sh, n, c).0 == Ensure(SessionKey(o, sh.tick, c.req.sessionId))
    ensures GoesOn(a, o, n, sh, c, sh', c') && c'.place == Decide(a, o, sh, n, c).1
    ensures var key := SessionKey(o, sh.tick, c.req.sessionId);
            var ref := RefFor(sh, key);
            && ref < |sh'.records| && sh'.records[ref].id == key
            && (DeskOf(sh'), key) == EnsureSession(o, DeskOf(sh), c.req.sessionId)
            && sh'.records[ref].session == DeskOf(sh').sessions[key]
  {
    hide Alone, Decide;
    DeskEnsure(o, sh, c.req.sessionId);
    sh', c' := OneMove(a, o, sh, n, c);
    RecordIsSession(sh', RefFor(sh, SessionKey(o, sh.tick, c.req.sessionId)));
    hide DeskOf, OneRecordPerId, EnsureSession, SessionKey;
  }

  lemma PlanAlone(a: Setup, o: Oracle, sh: Shared, n: nat, c: Call) returns (sh': Shared, c': Call)
    requires Ready(sh, c) && c.place.Begin? && !c.op.ReflectOp? && a.cfg.enablePlan && !IsBlank(c.req.prompt)
    requires c.op.CodeOp? ==> a.catalog.Resolve(c.req.model).Ok? && c.req.prompt != ""
    ensures GoesOn(a, o, n, sh, c, sh', c')
    ensures (DeskOf(sh'), c'.place)
            == var (d, r) := PlanCall(a, o, DeskOf(sh), PlanSite(c.op), c.req); (d, AfterPlan(c, r))
  {
    hide MakePlan, TrimSpace, IsBlank, Alone, Asking, EnsureSession, SessionKey, OneRecordPerId, DeskOf;
    var sh1, c1 := EnsureAlone(a, o, sh, n, c);
    var sh2, c2 := OneMove(a, o, sh1, n, c1);
    sh', c' := sh2, c2;
    if c2.place.AskPlan? {
      hide Ready;
      sh', c' := AskThenStore(a, o, sh2, n, c2);
    }
  }

  /** The four reads before the provider is asked see one and the same session. */
  lemma ReadsAlone(a: Setup, o: Oracle, sh: Shared, n: nat, c: Call) returns (c': Call)
    requires Ready(sh, c) && c.place.ReadPrevious?
    ensures GoesOn(a, o, n, sh, c, sh, c')
    ensures var ref := c.place.ref;
            var session := sh.records[ref].session;
            c'.place == AskCoder(ref, LastAssistant(session.history),
                                 ChatMessages(a.systemPrompt, session, UserMessage(c.req)))
  {
    hide Alone, ChatMessages, UserMessage, LastAssistant, OneRecordPerId;
    var sh1, c1 := OneMove(a, o, sh, n, c);
    var sh2, c2 := OneMove(a, o, sh1, n, c1);
    var sh3, c3 := OneMove(a, o, sh2, n, c2);
    var sh4, c4 := OneMove(a, o, sh3, n, c3);
    c' := c4;
    hide Next;
  }

  /** From the coder's own look at the session to its answer. */
  lemma ConverseAlone(a: Setup, o: Oracle, sh: Shared, n: nat, c: Call) returns (sh': Shared, c': Call)
    requires Ready(sh, c) && c.place.ReadPrevious?
    ensures GoesOn(a, o, n, sh, c, sh', c')
    ensures sh.records[c.place.ref].id in DeskOf(sh).sessions
    ensures (DeskOf(sh'), c'.place)
            == var (d, r) := Converse(a, o, DeskOf(sh), sh.records[c.place.ref].id, RouteName(a, c.req), c.req);
               (d, Returned(RunMachine.AsCode(r)))
  {
    hide Alone, TrimSpace, ChatMessages, UserPrompt, LastAssistant, DeskOf, OneRecordPerId, Affect, Next;
    RecordIsSession(sh, c.place.ref);
    var ref := c.place.ref;
    var c1 := ReadsAlone(a, o, sh, n, c);
    var call := Asking(o, sh, Coding, ref, RouteName(a, c.req), ChatPrompt(c1.place.messages));
    var sh2, c2 := AskAlone(a, o, sh, n, c1, call);
    sh', c' := sh2, c2;
    if c2.place.AppendPair? {
      sh', c' := CommitAlone(a, o, sh2, n, c2, PairAppended(n, ref, c2.place.user, c2.place.answer));
    }
  }

  lemma CommitAlone(a: Setup, o: Oracle, sh: Shared, n: nat, c: Call, w: Write) returns (sh': Shared, c': Call)
    requires Ready(sh, c) && !c.place.Returned? && Decide(a, o, sh, n, c).0 == Commit(w) && w.target < |sh.records|
    ensures GoesOn(a, o, n, sh, c, sh', c') && c'.place == Decide(a, o, sh, n, c).1
    ensures |sh'.records| == |sh.records| && sh'.records[w.target].id == sh.records[w.target].id
    ensures var id, d := sh.records[w.target].id, DeskOf(sh);
            id in d.sessions && DeskOf(sh') == Store(d, id, Apply(d.sessions[id], w))
  {
    hide Alone, Decide;
    DeskCommit(sh, w);
    sh', c' := OneMove(a, o, sh, n, c);
    hide DeskOf, OneRecordPerId, Apply;
  }

  lemma AskAlone(a: Setup, o: Oracle, sh: Shared, n: nat, c: Call, call: ProviderCall) returns (sh': Shared, c': Call)
    requires Ready(sh, c) && !c.place.Returned? && Decide(a, o, sh, n, c).0 == Ask(call)
    ensures GoesOn(a, o, n, sh, c, sh', c') && c'.place == Decide(a, o, sh, n, c).1
    ensures sh'.ids == sh.ids && sh'.records == sh.records
    ensures var d := DeskOf(sh); d.tick == sh.tick && DeskOf(sh') == d.(tick := d.tick + 1, calls := d.calls + [call])
  {
    hide Alone, Decide;
    sh', c' := OneMove(a, o, sh, n, c);
  }

  lemma StoreReflectionAlone(a: Setup, o: Oracle, sh: Shared, n: nat, c: Call) returns (sh': Shared, c': Call)
    requires Ready(sh, c) && c.place.SetReflection?
    ensures GoesOn(a, o, n, sh, c, sh', c') && c'.place == Telling(c.place.text)
    ensures var id, d := sh.records[c.place.ref].id, DeskOf(sh);
            && id in d.sessions
            && DeskOf(sh') == var s := d.sessions[id];
                 Store(d, id, s.(lastReflection := c.place.text,
                                 history := s.history + [ReflectionMessage(c.place.text)]))
  {
    hide Alone, DeskOf, Next, OneRecordPerId;
    var ref, text := c.place.ref, c.place.text;
    var sh1, c1 := CommitAlone(a, o, sh, n, c, ReflectionSet(n, ref, text));
    sh', c' := CommitAlone(a, o, sh1, n, c1, ReflectionAppended(n, ref, text));
  }

  lemma ReconsiderAlone(a: Setup, o: Oracle, sh: Shared, n: nat, c: Call) returns (sh': Shared, c': Call)
    requires Ready(sh, c) && c.place.AskCritic?
    ensures GoesOn(a, o, n, sh, c, sh', c')
    ensures sh.records[c.place.ref].id in DeskOf(sh).sessions
    ensures (DeskOf(sh'), c'.place)
            == var (d, r) := Reconsider(o, DeskOf(sh), sh.records[c.place.ref].id, RouteName(a, c.req), c.place.prompt);
               (d, Returned(RunMachine.AsText(r)))
  {
    hide Alone, TrimSpace, DeskOf, OneRecordPerId, Affect, Next;
    RecordIsSession(sh, c.place.ref);
    var call := Asking(o, sh, Reflecting, c.place.ref, RouteName(a, c.req), c.place.prompt);
    var sh1, c1 := AskAlone(a, o, sh, n, c, call);
    sh', c' := sh1, c1;
    if c1.place.SetReflection? {
      sh', c' := StoreReflectionAlone(a, o, sh1, n, c1);
    }
  }

  lemma CodeAlone(a: Setup, o: Oracle, sh: Shared, n: nat, c: Call) returns (sh': Shared, c': Call)
    requires Ready(sh, c) && c.place.EnsureAgain?
    ensures GoesOn(a, o, n, sh, c, sh', c')
    ensures (DeskOf(sh'), c'.place)
            == var (d, key) := EnsureSession(o, DeskOf(sh), c.req.sessionId);
               var (d', r) := Converse(a, o, d, key, RouteName(a, c.req), c.req);
               (d', Returned(RunMachine.AsCode(r)))
  {
    hide Alone, Converse, EnsureSession, SessionKey, OneRecordPerId, DeskOf;
    var sh1, c1 := EnsureAlone(a, o, sh, n, c);
    sh', c' := ConverseAlone(a, o, sh1, n, c1);
  }

  /** What a call comes to when it is the only one moving. */
  function Atomic(a: Setup, o: Oracle, d: Desk, c: Call): (Desk, Result<Answer>) {
    match c.op
    case PlanOp => var (d', r) := PlanCall(a, o, d, OuterPlan, c.req); (d', RunMachine.AsText(r))
    case CodeOp => var (d', r) := RunCall(a, o, d, c.req); (d', RunMachine.AsCode(r))
    case ReflectOp(last, context) =>
      var (d', r) := ReflectCall(a, o, d, c.req, last, context); (d', RunMachine.AsText(r))
  }

  lemma PlanningIsAtomic(a: Setup, o: Oracle, sh: Shared, n: nat, c: Call)
    requires Ready(sh, c) && c.place.Begin? && c.op.PlanOp?
    ensures var (sh', c') := Alone(a, o, sh, n, c);
            (DeskOf(sh'), c'.place) == var (d, r) := Atomic(a, o, DeskOf(sh), c); (d, Returned(r))
  {
    if a.cfg.enablePlan && !IsBlank(c.req.prompt) {
      var sh', c' := PlanAlone(a, o, sh, n, c);
      hide PlanCall;
    } else {
      var sh', c' := OneMove(a, o, sh, n, c);
    }
  }

  lemma CodingIsAtomic(a: Setup, o: Oracle, sh: Shared, n: nat, c: Call)
    requires Ready(sh, c) && c.place.Begin? && c.op.CodeOp?
    ensures var (sh', c') := Alone(a, o, sh, n, c);
            (DeskOf(sh'), c'.place) == var (d, r) := Atomic(a, o, DeskOf(sh), c); (d, Returned(r))
  {
    hide Converse, EnsureSession, IsBlank, DeskOf;
    if c.req.prompt != "" && a.catalog.Resolve(c.req.model).Ok? && (a.cfg.enablePlan ==> !IsBlank(c.req.prompt)) {
      var sh1, c1 := sh, c;
      if a.cfg.enablePlan {
        sh1, c1 := PlanAlone(a, o, sh, n, c);
      } else {
        sh1, c1 := OneMove(a, o, sh, n, c);
      }
      if c1.place.EnsureAgain? {
        var sh', c' := CodeAlone(a, o, sh1, n, c1);
      }
    } else {
      var sh', c' := OneMove(a, o, sh, n, c);
    }
  }

  lemma ReflectAlone(a: Setup, o: Oracle, sh: Shared, n: nat, c: Call) returns (sh': Shared, c': Call)
    requires Ready(sh, c) && c.place.ReadPlanToReflect? && a.catalog.Resolve(c.req.model).Ok?
    ensures GoesOn(a, o, n, sh, c, sh', c')
    ensures sh.records[c.place.ref].id in DeskOf(sh).sessions
    ensures (DeskOf(sh'), c'.place)
            == var id, d := sh.records[c.place.ref].id, DeskOf(sh);
               var plan := d.sessions[id].plan;
               var prompt := ReflectPrompt(c.req.prompt, c.place.last.message.content, plan, c.place.context);
               var (d', r) := Reconsider(o, d, id, RouteName(a, c.req), prompt);
               (d', Returned(RunMachine.AsText(r)))
  {
    hide Alone, Reconsider;
    RecordIsSession(sh, c.place.ref);
    var sh1, c1 := OneMove(a, o, sh, n, c);
    assert sh1 == sh && c1.place.AskCritic? && c1.place.ref == c.place.ref;
    hide Next;
    sh', c' := ReconsiderAlone(a, o, sh1, n, c1);
  }

  lemma ReflectingIsAtomic(a: Setup, o: Oracle, sh: Shared, n: nat, c: Call)
    requires Ready(sh, c) && c.place.Begin? && c.op.ReflectOp?
    ensures var (sh', c') := Alone(a, o, sh, n, c);
            (DeskOf(sh'), c'.place) == var (d, r) := Atomic(a, o, DeskOf(sh), c); (d, Returned(r))
  {
    hide EnsureSession, Reconsider, SessionKey, OneRecordPerId, DeskOf, IsBlank;
    if a.cfg.enableReflect && !IsBlank(c.op.last.message.content) {
      var sh1, c1 := EnsureAlone(a, o, sh, n, c);
      if a.catalog.Resolve(c.req.model).Ok? {
        var sh', c' := ReflectAlone(a, o, sh1, n, c1);
      } else {
        var sh', c' := OneMove(a, o, sh1, n, c1);
        assert c'.place == Returned(Err(a.catalog.Resolve(c.req.model).error)) && sh' == sh1;
      }
    } else {
      var sh', c' := OneMove(a, o, sh, n, c);
      assert sh' == sh;
    }
  }

  /** A call that is left alone does to the agent exactly what the call does as one step, and returns the same. */
  lemma AloneIsAtomic(a: Setup, o: Oracle, sh: Shared, n: nat, c: Call)
    requires Ready(sh, c) && c.place.Begin?
    ensures var (sh', c') := Alone(a, o, sh, n, c);
            (DeskOf(sh'), c'.place) == var (d, r) := Atomic(a, o, DeskOf(sh), c); (d, Returned(r))
  {
    match c.op
    case PlanOp => PlanningIsAtomic(a, o, sh, n, c);
    case CodeOp => CodingIsAtomic(a, o, sh, n, c);
    case ReflectOp(_, _) => ReflectingIsAtomic(a, o, sh, n, c);
  }
}
