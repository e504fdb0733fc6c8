/** What overlapping calls on one session can do: a plan lost, and a reflection stored that is not the last one of the
    history; with the exact condition for each. */
module Overlaps {
  import opened Outcomes
  import opened Text
  import opened ModelRegistry
  import opened AgentState
  import opened Interleaving
  import RunMachine

  // ---- plans ----

  /** The write at `i` is the last one that sets the plan of a record. */
  predicate LastPlanSet(log: seq<Write>, i: nat, ref: nat) {
    && i < |log| && log[i].PlanSet? && log[i].target == ref
    && forall j | i < j < |log| :: !(log[j].PlanSet? && log[j].target == ref)
  }

  lemma {:induction false} PlanIsLastSet(log: seq<Write>, ref: nat, i: nat)
    requires LastPlanSet(log, i, ref)
    ensures Replay(log, ref).plan == log[i].plan
  {
    if i < |log| - 1 {
      PlanIsLastSet(log[..|log| - 1], ref, i);
    }
  }

  /** A record without a plan after the first `from` writes has one now only if a later write set it. */
  lemma {:induction false} PlanWasSetSince(log: seq<Write>, ref: nat, from: nat) returns (i: nat)
    requires from <= |log| && Replay(log[..from], ref).plan == "" && Replay(log, ref).plan != ""
    ensures from <= i && LastPlanSet(log, i, ref)
  {
    assert log[..|log|] == log;
    var init := log[..|log| - 1];
    if log[|log| - 1].PlanSet? && log[|log| - 1].target == ref {
      i := |log| - 1;
    } else {
      assert init[..from] == log[..from];
      i := PlanWasSetSince(init, ref, from);
    }
  }

  /** A call that stores its plan replaces one exactly when the last plan stored by another call since this one looked
      is not blank. */
  lemma PlanIsReplacedIff(a: Setup, s: Scene, n: nat)
    requires Sound(a, s) && n < |s.calls| && s.calls[n].place.StorePlan?
    ensures var sh, here := s.shared, s.calls[n].place;
            && here.ref < |sh.records|
            && (sh.records[here.ref].session.plan != "" <==>
                exists i :: here.seen <= i && LastPlanSet(sh.log, i, here.ref) && sh.log[i].plan != "")
            && (forall w | w in sh.log :: w.caller != n)
  {
    assert CallSound(a, s.shared, n, s.calls[n]);
    var log, ref, seen := s.shared.log, s.calls[n].place.ref, s.calls[n].place.seen;
    hide BlocksBy, Share, InPlace, Replay, LogSound;
    if Replay(log, ref).plan != "" {
      var i := PlanWasSetSince(log, ref, seen);
      PlanIsLastSet(log, ref, i);
    }
    forall i | seen <= i && LastPlanSet(log, i, ref) ensures Replay(log, ref).plan == log[i].plan {
      PlanIsLastSet(log, ref, i);
    }
  }

  // ---- schedules ----

  lemma {:induction false} ExecuteConcat(a: Setup, o: Oracle, s: Scene, xs: seq<Move>, ys: seq<Move>)
    requires Sound(a, s)
    ensures Execute(a, o, s, xs + ys) == Execute(a, o, Execute(a, o, s, xs), ys)
    decreases |xs|
  {
    if xs == [] {
      assert xs + ys == ys;
    } else {
      MovedIsSound(a, o, s, xs[0]);
      assert (xs + ys)[0] == xs[0] && (xs + ys)[1..] == xs[1..] + ys;
      ExecuteConcat(a, o, Moved(a, o, s, xs[0]), xs[1..], ys);
    }
  }

  lemma InTurn(a: Setup, o: Oracle, s: Scene, m1: seq<Move>, m2: seq<Move>, m3: seq<Move>, m4: seq<Move>)
    requires Sound(a, s)
    ensures Execute(a, o, s, m1 + m2 + m3 + m4)
            == Execute(a, o, Execute(a, o, Execute(a, o, Execute(a, o, s, m1), m2), m3), m4)
  {
    hide Execute, Sound, Later;
    ExecuteConcat(a, o, s, m1 + m2 + m3, m4);
    ExecuteConcat(a, o, s, m1 + m2, m3);
    ExecuteConcat(a, o, s, m1, m2);
  }

  lemma OneExecuted(a: Setup, o: Oracle, s: Scene, m: Move)
    requires Sound(a, s)
    ensures Fits(s) && Sound(a, Moved(a, o, s, m)) && Execute(a, o, s, [m]) == Moved(a, o, s, m)
  {
    MovedIsSound(a, o, s, m);
  }

  /** The scene after three moves of call `n`. */
  lemma ThreeAdvances(a: Setup, o: Oracle, s: Scene, n: nat) returns (s1: Scene, s2: Scene, s3: Scene)
    requires Sound(a, s)
    ensures Fits(s) && s1 == Moved(a, o, s, Advance(n))
    ensures Fits(s1) && s2 == Moved(a, o, s1, Advance(n))
    ensures Fits(s2) && s3 == Moved(a, o, s2, Advance(n))
    ensures Sound(a, s3) && s3 == Execute(a, o, s, [Advance(n), Advance(n), Advance(n)])
  {
    hide Moved, Sound, Fits;
    var m := Advance(n);
    OneExecuted(a, o, s, m);
    s1 := Moved(a, o, s, m);
    OneExecuted(a, o, s1, m);
    s2 := Moved(a, o, s1, m);
    OneExecuted(a, o, s2, m);
    s3 := Moved(a, o, s2, m);
    ExecuteConcat(a, o, s, [m], [m]);
    ExecuteConcat(a, o, s, [m, m], [m]);
    assert [m] + [m] == [m, m] && [m, m] + [m] == [m, m, m];
  }

  /** The id's session, if there is one, has no plan. */
  predicate Unplanned(sh: Shared, id: string) {
    id in sh.ids ==> sh.ids[id] < |sh.records| && sh.records[sh.ids[id]].session.plan == ""
  }

  /** What a planning or a reflecting call asks in a session without a plan. */
  function Question(op: Op, req: Request): Prompt {
    match op
    case ReflectOp(last, context) => ReflectPrompt(req.prompt, last.message.content, "", context)
    case _ => PlanPrompt(req.prompt)
  }

  /** The call asks the provider: what it needs is switched on and given. */
  predicate Asks(a: Setup, op: Op, req: Request) {
    && req.sessionId != "" && a.catalog.Resolve(req.model).Ok?
    && match op
       case PlanOp => a.cfg.enablePlan && !IsBlank(req.prompt)
       case ReflectOp(last, _) => a.cfg.enableReflect && !IsBlank(last.message.content)
       case CodeOp => false
  }

  /** Where the call waits to store what it was told. */
  function Waiting(op: Op, ref: nat, seen: nat, text: string): Place {
    if op.ReflectOp? then SetReflection(ref, text) else StorePlan(ref, seen, text)
  }

  function Told(a: Setup, o: Oracle, tick: nat, op: Op, req: Request): Reply {
    o.chat(tick, RouteName(a, req), Question(op, req))
  }

  lemma MovesToWait(a: Setup, o: Oracle, sh: Shared, n: nat, c: Call)
    requires OneRecordPerId(sh) && c.place.Begin? && Asks(a, c.op, c.req) && Unplanned(sh, c.req.sessionId)
    requires Told(a, o, sh.tick + 1, c.op, c.req).Replied?
    ensures var key, text := c.req.sessionId, TrimSpace(Told(a, o, sh.tick + 1, c.op, c.req).message.content);
            var (sh1, c1) := Next(a, o, sh, n, c);
            && c1.place.Holds() == Some(RefFor(sh, key)) && c1.place.ref < |sh1.records| && sh1.log == sh.log
            && Unplanned(sh1, key) && key in sh1.ids && sh1.ids[key] == RefFor(sh, key)
            && (var (sh2, c2) := Next(a, o, sh1, n, c1);
                && sh2 == sh1 && c2.place.Holds() == c1.place.Holds()
                && (var (sh3, c3) := Next(a, o, sh2, n, c2);
                    && sh3 == sh1.(tick := sh.tick + 2, calls := sh3.calls)
                    && c3 == c.(place := Waiting(c.op, RefFor(sh, key), |sh.log|, text))))
  {
    hide TrimSpace, IsBlank;
  }

  /** A planning or reflecting call on a session without a plan asks; after three moves it waits to store the answer. */
  lemma AsksAndWaits(a: Setup, o: Oracle, s: Scene, n: nat)
    requires Sound(a, s) && n < |s.calls| && s.calls[n].place.Begin?
    requires Asks(a, s.calls[n].op, s.calls[n].req) && Unplanned(s.shared, s.calls[n].req.sessionId)
    requires Told(a, o, s.shared.tick + 1, s.calls[n].op, s.calls[n].req).Replied?
    ensures var c, key := s.calls[n], s.calls[n].req.sessionId;
            var text := TrimSpace(Told(a, o, s.shared.tick + 1, c.op, c.req).message.content);
            var t := Execute(a, o, s, [Advance(n), Advance(n), Advance(n)]);
            && Sound(a, t)
            && t.shared.tick == s.shared.tick + 2 && t.shared.log == s.shared.log
            && Unplanned(t.shared, key) && key in t.shared.ids && t.shared.ids[key] == RefFor(s.shared, key)
            && t.calls == s.calls[n := c.(place := Waiting(c.op, RefFor(s.shared, key), |s.shared.log|, text))]
  {
    hide Execute, TrimSpace, IsBlank, Next, Fits, RouteName, Later, Asks, Told;
    hide CallsSound, Replayed, LogSound, OneRecordPerId;
    MovesToWait(a, o, s.shared, n, s.calls[n]);
    var s1, s2, s3 := ThreeAdvances(a, o, s, n);
    assert s1.calls[n] == Next(a, o, s.shared, n, s.calls[n]).1;
    assert s2.calls[n] == Next(a, o, s1.shared, n, s1.calls[n]).1;
  }

  /** Two calls of one request, started from nothing, both waiting to store what they were told. */
  lemma BothWait(a: Setup, o: Oracle, op: Op, req: Request) returns (moves: seq<Move>)
    requires Asks(a, op, req) && Told(a, o, 1, op, req).Replied? && Told(a, o, 3, op, req).Replied?
    ensures var s := Reached(a, o, moves);
            && s.shared.log == [] && req.sessionId in s.shared.ids
            && s.calls == [Call(op, req, Waiting(op, s.shared.ids[req.sessionId], 0,
                                                 TrimSpace(Told(a, o, 1, op, req).message.content))),
                           Call(op, req, Waiting(op, s.shared.ids[req.sessionId], 0,
                                                 TrimSpace(Told(a, o, 3, op, req).message.content)))]
  {
    hide Execute, TrimSpace, Sound, Fits, Later, Asks, Told, Waiting;
    StartIsEmpty(a);
    var start := StartCall(op, req);
    var asks, asksToo := [Advance(0), Advance(0), Advance(0)], [Advance(1), Advance(1), Advance(1)];
    OneExecuted(a, o, START, start);
    var s1 := Moved(a, o, START, start);
    OneExecuted(a, o, s1, start);
    var s2 := Moved(a, o, s1, start);
    AsksAndWaits(a, o, s2, 0);
    var s3 := Execute(a, o, s2, asks);
    AsksAndWaits(a, o, s3, 1);
    InTurn(a, o, START, [start], [start], asks, asksToo);
    moves := [start] + [start] + asks + asksToo;
  }

  /** A move that writes. */
  lemma WritingMove(a: Setup, o: Oracle, s: Scene, n: nat, w: Write)
    requires Sound(a, s) && n < |s.calls| && Fits(s)
    requires Decide(a, o, s.shared, n, s.calls[n]).0 == Commit(w) && w.target < |s.shared.records|
    ensures var t := Moved(a, o, s, Advance(n));
            && Sound(a, t) && Fits(t) && Execute(a, o, s, [Advance(n)]) == t
            && |t.shared.records| == |s.shared.records|
            && t.shared.records[w.target].session == Apply(s.shared.records[w.target].session, w)
            && t.calls == s.calls[n := s.calls[n].(place := Decide(a, o, s.shared, n, s.calls[n]).1)]
  {
    hide Decide, Sound, Execute;
    OneExecuted(a, o, s, Advance(n));
    MovedIsSound(a, o, Moved(a, o, s, Advance(n)), Advance(n));
  }

  /** Calls at places that hold a record of their own. */
  lemma HeldExists(a: Setup, s: Scene, n: nat)
    requires Sound(a, s) && n < |s.calls|
    ensures Fits(s) && (s.calls[n].place.Holds().Some? ==> s.calls[n].place.ref < |s.shared.records|)
  {
    assert CallSound(a, s.shared, n, s.calls[n]);
  }

  /** Two planning calls on one session that have both asked for a plan: the plan that the first stores, and returns,
      is replaced by the second's. */
  lemma OverlapReplacesPlan(a: Setup, o: Oracle, s: Scene, n: nat, m: nat)
    requires Sound(a, s) && n < |s.calls| && m < |s.calls| && n != m
    requires s.calls[n].place.StorePlan? && s.calls[m].place.StorePlan? && s.calls[n].place.ref == s.calls[m].place.ref
    ensures var t := Execute(a, o, s, [Advance(n)]);
            var u := Execute(a, o, t, [Advance(m)]);
            var ref := s.calls[n].place.ref;
            && n < |t.calls| && t.calls[n].place == Planned(s.calls[n], s.calls[n].place.plan)
            && ref < |t.shared.records| && t.shared.records[ref].session.plan == s.calls[n].place.plan
            && ref < |u.shared.records| && u.shared.records[ref].session.plan == s.calls[m].place.plan
  {
    hide Sound, Execute, Moved, Fits, Later;
    HeldExists(a, s, n);
    var ref := s.calls[n].place.ref;
    WritingMove(a, o, s, n, PlanSet(n, ref, s.calls[n].place.plan));
    var t := Moved(a, o, s, Advance(n));
    WritingMove(a, o, t, m, PlanSet(m, ref, s.calls[m].place.plan));
  }

  /** The two moves that store a reflection. */
  lemma ReflectionMoves(a: Setup, o: Oracle, s: Scene, n: nat)
    requires Sound(a, s) && n < |s.calls| && Fits(s)
    requires s.calls[n].place.SetReflection? || s.calls[n].place.AppendReflection?
    ensures var t := Moved(a, o, s, Advance(n));
            var here, ref := s.calls[n].place, s.calls[n].place.ref;
            && Sound(a, t) && Fits(t) && Execute(a, o, s, [Advance(n)]) == t
            && ref < |s.shared.records| == |t.shared.records|
            && var session := s.shared.records[ref].session;
            if here.SetReflection? then
              && t.shared.records[ref].session == session.(lastReflection := here.text)
              && t.calls == s.calls[n := s.calls[n].(place := AppendReflection(ref, here.text))]
            else
              && t.shared.records[ref].session == session.(history := session.history + [ReflectionMessage(here.text)])
              && t.calls == s.calls[n := s.calls[n].(place := Telling(here.text))]
  {
    hide Sound, Execute, Moved, Fits, ReflectionMessage, Later;
    HeldExists(a, s, n);
    var here := s.calls[n].place;
    WritingMove(a, o, s, n, if here.SetReflection? then ReflectionSet(n, here.ref, here.text)
                            else ReflectionAppended(n, here.ref, here.text));
  }

  /** Two reflections on one session, both made and not yet stored: stored in turn, the reflection that is handed to
      the next coder call is not the one the history ends with. */
  lemma OverlappingReflectionsCross(a: Setup, o: Oracle, s: Scene, n: nat, m: nat)
    requires Sound(a, s) && n < |s.calls| && m < |s.calls| && n != m
    requires s.calls[n].place.SetReflection? && s.calls[m].place.SetReflection?
    requires s.calls[n].place.ref == s.calls[m].place.ref
    ensures var t := Execute(a, o, s, [Advance(n), Advance(m), Advance(m), Advance(n)]);
            var ref, x, y := s.calls[n].place.ref, s.calls[n].place.text, s.calls[m].place.text;
            && ref < |s.shared.records| && ref < |t.shared.records|
            && t.shared.records[ref].session.lastReflection == y
            && t.shared.records[ref].session.history
               == s.shared.records[ref].session.history + [ReflectionMessage(y), ReflectionMessage(x)]
  {
    hide Sound, Execute, Moved, Fits, ReflectionMessage, Later, Telling, OnOwnSession;
    HeldExists(a, s, n);
    InTurn(a, o, s, [Advance(n)], [Advance(m)], [Advance(m)], [Advance(n)]);
    assert [Advance(n)] + [Advance(m)] + [Advance(m)] + [Advance(n)]
        == [Advance(n), Advance(m), Advance(m), Advance(n)];
    ReflectionMoves(a, o, s, n);
    var t1 := Moved(a, o, s, Advance(n));
    ReflectionMoves(a, o, t1, m);
    var t2 := Moved(a, o, t1, Advance(m));
    ReflectionMoves(a, o, t2, m);
    ReflectionMoves(a, o, Moved(a, o, t2, Advance(m)), n);
  }

  /** The session of an id. */
  function SessionOf(sh: Shared, id: string): Session {
    if id in sh.ids && sh.ids[id] < |sh.records| then sh.records[sh.ids[id]].session else NEW_SESSION
  }

  /** From nothing: a plan that is not blank, stored and returned by the first of two planning calls, is replaced by a
      different one. */
  lemma PlanIsLost(a: Setup, o: Oracle, req: Request) returns (moves: seq<Move>)
    requires Asks(a, PlanOp, req) && Told(a, o, 1, PlanOp, req).Replied? && Told(a, o, 3, PlanOp, req).Replied?
    requires TrimSpace(Told(a, o, 1, PlanOp, req).message.content) != ""
    requires TrimSpace(Told(a, o, 1, PlanOp, req).message.content)
          != TrimSpace(Told(a, o, 3, PlanOp, req).message.content)
    ensures var t, u := Reached(a, o, moves), Reached(a, o, moves + [Advance(1)]);
            var plan := SessionOf(t.shared, req.sessionId).plan;
            && plan != "" && |t.calls| == 2 && t.calls[0].place == Returned(Ok(RunMachine.TextAnswer(plan)))
            && SessionOf(u.shared, req.sessionId).plan != plan
  {
    hide Execute, TrimSpace, Sound, Fits, Later, Asks, Told, Moved, OneRecordPerId;
    var both := BothWait(a, o, PlanOp, req);
    var s := Reached(a, o, both);
    SessionStays(a, o, s, [Advance(0)], req.sessionId);
    OverlapReplacesPlan(a, o, s, 0, 1);
    moves := both + [Advance(0)];
    ExecuteConcat(a, o, START, both, [Advance(0)]);
    ExecuteConcat(a, o, START, moves, [Advance(1)]);
    SessionStays(a, o, Execute(a, o, s, [Advance(0)]), [Advance(1)], req.sessionId);
    CallsStay(a, o, s, 0);
  }

  lemma SessionStays(a: Setup, o: Oracle, s: Scene, moves: seq<Move>, id: string)
    requires Sound(a, s) && id in s.shared.ids
    ensures var t := Execute(a, o, s, moves); id in t.shared.ids && t.shared.ids[id] == s.shared.ids[id]
  {
    hide Execute, CallsSound, Replayed, LogSound;
  }

  lemma CallsStay(a: Setup, o: Oracle, s: Scene, n: nat)
    requires Sound(a, s)
    ensures |Execute(a, o, s, [Advance(n)]).calls| == |s.calls|
  {
    hide Execute, CallsSound, Replayed, LogSound, OneRecordPerId, Later, Next;
    OneExecuted(a, o, s, Advance(n));
  }

  /** From nothing: two reflections after which the stored one is not the last one of the history. */
  lemma ReflectionIsLost(a: Setup, o: Oracle, op: Op, req: Request) returns (moves: seq<Move>)
    requires op.ReflectOp? && Asks(a, op, req) && Told(a, o, 1, op, req).Replied? && Told(a, o, 3, op, req).Replied?
    ensures var session := SessionOf(Reached(a, o, moves).shared, req.sessionId);
            var first := TrimSpace(Told(a, o, 1, op, req).message.content);
            var second := TrimSpace(Told(a, o, 3, op, req).message.content);
            && session.lastReflection == second
            && session.history == [ReflectionMessage(second), ReflectionMessage(first)]
  {
    hide Execute, TrimSpace, Fits, Later, Asks, Told, Moved, ReflectionMessage, CallsSound, LogSound;
    var both := BothWait(a, o, op, req);
    var s := Reached(a, o, both);
    var cross := [Advance(0), Advance(1), Advance(1), Advance(0)];
    OverlappingReflectionsCross(a, o, s, 0, 1);
    SessionStays(a, o, s, cross, req.sessionId);
    ExecuteConcat(a, o, START, both, cross);
    moves := both + cross;
  }

  // ---- when the stored reflection is the last one of the history ----

  /** The write at `i` is the last one that stores a reflection for a record. */
  predicate LastReflectionSet(log: seq<Write>, i: nat, ref: nat) {
    && i < |log| && log[i].ReflectionSet? && log[i].target == ref
    && forall j | i < j < |log| :: !(log[j].ReflectionSet? && log[j].target == ref)
  }

  /** The write at `i` is the last one that appends a reflection to a record's history. */
  predicate LastReflectionAppended(log: seq<Write>, i: nat, ref: nat) {
    && i < |log| && log[i].ReflectionAppended? && log[i].target == ref
    && forall j | i < j < |log| :: !(log[j].ReflectionAppended? && log[j].target == ref)
  }

  lemma {:induction false} StoredIsLastSet(log: seq<Write>, ref: nat, i: nat)
    requires LastReflectionSet(log, i, ref)
    ensures Replay(log, ref).lastReflection == log[i].text
  {
    if i < |log| - 1 {
      StoredIsLastSet(log[..|log| - 1], ref, i);
    }
  }

  lemma {:induction false} LastSetFrom(log: seq<Write>, ref: nat, i: nat) returns (k: nat)
    requires i < |log| && log[i].ReflectionSet? && log[i].target == ref
    ensures i <= k && LastReflectionSet(log, k, ref)
    decreases |log| - i
  {
    if j :| i < j < |log| && log[j].ReflectionSet? && log[j].target == ref {
      k := LastSetFrom(log, ref, j);
    } else {
      k := i;
    }
  }

  /** The call has stored the reflection before the first `until` writes are over. */
  ghost predicate StoredBefore(log: seq<Write>, until: nat, n: nat, ref: nat, text: string) {
    exists i | 0 <= i < until && i < |log| :: log[i] == ReflectionSet(n, ref, text)
  }

  /** A reflection is stored before the same call appends it. */
  ghost predicate StoresFirst(s: Scene) {
    && (forall n | 0 <= n < |s.calls| && s.calls[n].place.AppendReflection? ::
          StoredBefore(s.shared.log, |s.shared.log|, n, s.calls[n].place.ref, s.calls[n].place.text))
    && (forall j | 0 <= j < |s.shared.log| && s.shared.log[j].ReflectionAppended? ::
          StoredBefore(s.shared.log, j, s.shared.log[j].caller, s.shared.log[j].target, s.shared.log[j].text))
  }

  lemma DecideReflects(a: Setup, o: Oracle, sh: Shared, n: nat, c: Call)
    requires c.place.Holds().Some? ==> c.place.ref < |sh.records|
    ensures var (e, place) := Decide(a, o, sh, n, c);
            && (place.AppendReflection? ==> e == Commit(ReflectionSet(n, place.ref, place.text)))
            && (e.Commit? && e.write.ReflectionAppended? ==>
                  e.write.caller == n && c.place == AppendReflection(e.write.target, e.write.text))
  {
    hide LastAssistant, ChatMessages, TrimSpace, IsBlank, SessionKey, UserPrompt, Asking, RouteName, RefFor;
  }

  lemma StoredStays(log: seq<Write>, w: Write, until: nat, n: nat, ref: nat, text: string)
    requires StoredBefore(log, until, n, ref, text)
    ensures StoredBefore(log + [w], until, n, ref, text)
  {
    var i :| 0 <= i < until && i < |log| && log[i] == ReflectionSet(n, ref, text);
    assert (log + [w])[i] == ReflectionSet(n, ref, text);
  }

  lemma MoveStoresFirst(a: Setup, o: Oracle, s: Scene, m: Move)
    requires Fits(s) && StoresFirst(s)
    ensures StoresFirst(Moved(a, o, s, m))
  {
    if m.Advance? && m.n < |s.calls| {
      hide Decide, Fits;
      DecideReflects(a, o, s.shared, m.n, s.calls[m.n]);
      DecideCommits(a, o, s.shared, m.n, s.calls[m.n]);
      var (e, place) := Decide(a, o, s.shared, m.n, s.calls[m.n]);
      var log, t := s.shared.log, Moved(a, o, s, m);
      assert t.shared.log == if e.Commit? then log + [e.write] else log;
      forall n | 0 <= n < |t.calls| && t.calls[n].place.AppendReflection?
        ensures StoredBefore(t.shared.log, |t.shared.log|, n, t.calls[n].place.ref, t.calls[n].place.text)
      {
        if n != m.n && e.Commit? {
          StoredStays(log, e.write, |log|, n, s.calls[n].place.ref, s.calls[n].place.text);
        } else if n == m.n {
          assert t.shared.log[|log|] == ReflectionSet(n, place.ref, place.text);
        }
      }
      forall j | 0 <= j < |t.shared.log| && t.shared.log[j].ReflectionAppended?
        ensures StoredBefore(t.shared.log, j, t.shared.log[j].caller, t.shared.log[j].target, t.shared.log[j].text)
      {
        if e.Commit? {
          var n := if j < |log| then log[j].caller else m.n;
          var w := t.shared.log[j];
          StoredStays(log, e.write, j, n, w.target, w.text);
        }
      }
    }
  }

  lemma {:induction false} AlwaysStoresFirst(a: Setup, o: Oracle, s: Scene, moves: seq<Move>)
    requires Sound(a, s) && StoresFirst(s)
    ensures StoresFirst(Execute(a, o, s, moves))
    decreases |moves|
  {
    hide Sound, StoresFirst, Later, Moved;
    if moves != [] {
      MovedIsSound(a, o, s, moves[0]);
      MoveStoresFirst(a, o, s, moves[0]);
      AlwaysStoresFirst(a, o, Moved(a, o, s, moves[0]), moves[1..]);
    }
  }

  /** For every schedule, of a session in whose history the last reflection is the one appended by the write at `j`: the
      same call stored that reflection before; and it is still the stored one exactly when no call has stored a
      reflection of that session since then, or the last one that did stored the same text. */
  lemma ReflectionStaysIff(a: Setup, o: Oracle, moves: seq<Move>, ref: nat, j: nat) returns (i: nat)
    requires var sh := Reached(a, o, moves).shared; ref < |sh.records| && LastReflectionAppended(sh.log, j, ref)
    ensures var sh := Reached(a, o, moves).shared;
            var reflection := sh.log[j].text;
            && i < j && sh.log[i] == ReflectionSet(sh.log[j].caller, ref, reflection)
            && sh.records[ref].session.history
               == BlocksTo(sh.log[..j], ref) + [ReflectionMessage(reflection)] + BlocksTo(sh.log[j + 1..], ref)
            && (sh.records[ref].session.lastReflection == reflection <==>
                forall k: nat | i < k && LastReflectionSet(sh.log, k, ref) :: sh.log[k].text == reflection)
  {
    hide Execute, CallsSound, LogSound, OneRecordPerId, Later, Replay, BlocksTo, ReflectionMessage;
    StartIsEmpty(a);
    AlwaysStoresFirst(a, o, START, moves);
    var sh := Reached(a, o, moves).shared;
    var log := sh.log;
    assert StoredBefore(log, j, log[j].caller, ref, log[j].text);
    i :| 0 <= i < j && log[i] == ReflectionSet(log[j].caller, ref, log[j].text);
    var k := LastSetFrom(log, ref, i);
    StoredIsLastSet(log, ref, k);
    HistoryIsReplayed(log, ref);
    HistoryAround(log, ref, j);
  }

  lemma HistoryAround(log: seq<Write>, ref: nat, j: nat)
    requires j < |log| && log[j].ReflectionAppended? && log[j].target == ref
    ensures BlocksTo(log, ref)
         == BlocksTo(log[..j], ref) + [ReflectionMessage(log[j].text)] + BlocksTo(log[j + 1..], ref)
  {
    assert log == log[..j + 1] + log[j + 1..] && log[..j + 1][..j] == log[..j];
    BlocksToConcat(log[..j + 1], log[j + 1..], ref);
  }
}
