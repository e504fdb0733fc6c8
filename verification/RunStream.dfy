/** Every run's stream is in the grammar, and it is closed exactly when the run has ended. */
module RunStream {
  import opened Outcomes
  import opened Text
  import opened Strategy
  import opened FallbackWalk
  import opened AgentState
  import opened RunMachine
  import opened RunGrammar

  function At(c: Config, s: Run): Place {
    PlaceAfter(s.trace, c.agent.cfg.MaxSteps())
  }

  /** The stream of a run is in the grammar, and closed just when the run has ended. */
  ghost predicate InStep(c: Config, s: Run) {
    && At(c, s) != Astray
    && (At(c, s) == Closed <==> s.status == Ended)
  }

  lemma Emitted(c: Config, s: Run, e: Event)
    ensures At(c, Emit(s, e)) == Read(At(c, s), e, c.agent.cfg.MaxSteps())
    ensures At(c, Stop(s, e)) == Read(At(c, s), e, c.agent.cfg.MaxSteps())
  {
    hide Read, ReadAll;
    ReadOne(s.trace, e, c.agent.cfg.MaxSteps());
  }

  /** A message between two steps opens the next one. */
  lemma MessageOpens(c: Config, s: Run, step: nat, content: string)
    requires Between(At(c, s)) && step == StepOf(At(c, s)) + 1 && step <= c.agent.cfg.MaxSteps()
    ensures At(c, Emit(s, MessageEvent(content, step))) == Speaking(step, 0, Fields(content)[0..])
  {
    hide ReadAll, Fields, IsBlank;
    Emitted(c, s, MessageEvent(content, step));
  }

  lemma {:induction false} TokensInStream(c: Config, s: Run, tokens: seq<string>, step: nat, idx: nat)
    requires idx <= |tokens| && s.status == Running
    requires At(c, s) == Speaking(step, idx, tokens[idx..])
    ensures var r := EmitTokens(c.oracle, s, tokens, step, idx);
            && InStep(c, r) && r.status != Hung
            && (r.status == Running ==> At(c, r) == Speaking(step, |tokens|, []))
    decreases |tokens| - idx
  {
    hide ReadAll, Fields, IsBlank;
    if idx < |tokens| {
      Emitted(c, Tick(s), ErrorEvent("cancelled"));
      var e := TokenEvent(tokens[idx], step * 1000 + idx);
      Emitted(c, Tick(s), e);
      assert tokens[idx..][1..] == tokens[idx + 1..];
      if !(c.oracle.Cancelled(s.desk.tick) && c.oracle.sendLoses(s.desk.tick)) {
        TokensInStream(c, Emit(Tick(s), e), tokens, step, idx + 1);
      }
    }
  }

  lemma {:induction false} ToolsInStream(c: Config, s: Run, seen: seq<Observation>, calls: seq<ToolCall>)
    requires s.status == Running
    requires At(c, s).Opening? || Spoken(At(c, s))
    ensures var r := RunTools(c.oracle, s, seen, calls).0;
            && InStep(c, r) && r.status != Hung
            && (r.status == Running ==>
                  && (At(c, s).Opening? <==> At(c, r).Opening?)
                  && (Spoken(At(c, s)) ==> Spoken(At(c, r)) && StepOf(At(c, r)) == StepOf(At(c, s))))
    decreases |calls|
  {
    hide ReadAll, Fields, IsBlank;
    if calls != [] {
      var name := calls[0].name;
      match RunTool(c.oracle, s.desk.tick, calls[0])
      case Err(e) => Emitted(c, Tick(s), ToolFailed(name, e));
      case Ok(output) =>
        Emitted(c, Tick(s), ToolEvent(name, output));
        ToolsInStream(c, Emit(Tick(s), ToolEvent(name, output)), seen + [Observation(name, output)], calls[1..]);
    }
  }

  lemma SpeechInStream(c: Config, s: Run, step: nat, resp: Response, given: seq<Observation>)
    requires s.status == Running
    requires Between(At(c, s)) && step == StepOf(At(c, s)) + 1 && step <= c.agent.cfg.MaxSteps()
    ensures var r := SpeakPhase(c, s, step, resp, given).0;
            && InStep(c, r) && r.status != Hung
            && (r.status == Running ==> Spoken(At(c, r)) && StepOf(At(c, r)) == step)
  {
    hide Read, ReadAll, EmitTokens, RunTools, Fields, Between;
    var tokens := Fields(resp.message.content);
    var m := MessageEvent(resp.message.content, step);
    MessageOpens(c, s, step, resp.message.content);
    TokensInStream(c, Emit(s, m), tokens, step, 0);
    var s1 := EmitTokens(c.oracle, Emit(s, m), tokens, step, 0);
    if s1.status == Running && c.tools.Some? {
      ToolsInStream(c, s1.(tokens := s1.tokens + |tokens|), given, c.oracle.toolCalls(resp.message.content));
    }
  }

  lemma ReflectionInStream(c: Config, s: Run, step: nat, resp: Response, tools: seq<Observation>,
                           test: Option<TestReport>)
    requires s.status == Running && StepOf(At(c, s)) == step
    requires Spoken(At(c, s)) || At(c, s) == Tested(step)
    ensures var (r, blocked) := ReflectPhase(c, s, step, resp, tools, test);
            && InStep(c, r)
            && (r.status == Running ==> At(c, r) == At(c, s) || At(c, r) == Judged(step, At(c, s).Tested?))
            && (r.status == Running && blocked ==> At(c, r).Judged?)
  {
    hide RoleCall, ReadAll, Fields, IsBlank, Blocks, ContextFor;
    if c.agent.cfg.enableReflect {
      var (s1, r) := RoleCall(c, s, ReflectJob(resp, ContextFor(c, resp, tools, test)));
      if r.Err? {
        Emitted(c, s1, ErrorEvent(r.error));
      } else {
        var s2 := s1.(reflections := s1.reflections + [Reflected(resp.previousAssistant, tools, r.value.text)]);
        Emitted(c, s2, ReflectEvent(r.value.text, step));
      }
    }
  }

  lemma FinishInStream(c: Config, s: Run, step: nat, reason: string)
    requires StepOf(At(c, s)) == step
    requires Spoken(At(c, s)) || At(c, s).Tested? || At(c, s).Judged? || (At(c, s).Halting? && reason == BLOCKED)
    ensures At(c, Finish(s, step, reason)) == Closed
  {
    hide ReadAll, Fields, IsBlank;
    Emitted(c, s.(metrics := s.metrics + [RunMetric(reason, s.tokens)]), DoneEvent(reason, step));
  }

  lemma TestInStream(c: Config, s: Run, step: nat, done: bool)
    requires s.status == Running && Spoken(At(c, s)) && StepOf(At(c, s)) == step
    ensures var (r, test) := TestPhase(c, s, step, done);
            && r.status == Running && StepOf(At(c, r)) == step
            && (if test.Some? then done && At(c, r) == Tested(step) else r == s)
  {
    hide RunTests, ReadAll, Fields, IsBlank;
    var (tick, report) := RunTests(c, s.desk.tick);
    Emitted(c, s.(desk := s.desk.(tick := tick)), TestEvent(step, report));
  }

  lemma ConclusionInStream(c: Config, s: Run, step: nat, resp: Response, blocked: bool)
    requires s.status == Running && StepOf(At(c, s)) == step
    requires Spoken(At(c, s)) || At(c, s).Tested? || At(c, s).Judged?
    requires At(c, s).Tested? || At(c, s) == Judged(step, true) ==> IsResponseDone(resp)
    requires blocked ==> At(c, s).Judged?
    ensures var r := Conclude(s, step, resp, blocked);
            InStep(c, r) && (r.status == Running ==> Between(At(c, r)) && StepOf(At(c, r)) == step)
  {
    hide ReadAll, Fields, IsBlank, IsResponseDone;
    if blocked {
      var notice := MessageEvent("Run halted by reflection policy (" + BLOCKED + ")", step);
      Emitted(c, s, notice);
      FinishInStream(c, Emit(s, notice), step, BLOCKED);
    } else if IsResponseDone(resp) {
      FinishInStream(c, s, step, resp.finishReason);
    }
  }

  lemma JudgementInStream(c: Config, s: Run, step: nat, resp: Response, tools: seq<Observation>)
    requires s.status == Running && Spoken(At(c, s)) && StepOf(At(c, s)) == step
    ensures var r := JudgePhase(c, s, step, resp, tools);
            InStep(c, r) && (r.status == Running ==> Between(At(c, r)) && StepOf(At(c, r)) == step)
  {
    hide TestPhase, ReflectPhase, Conclude, IsResponseDone, Read, ReadAll;
    TestInStream(c, s, step, IsResponseDone(resp));
    var (s1, test) := TestPhase(c, s, step, IsResponseDone(resp));
    ReflectionInStream(c, s1, step, resp, tools, test);
    var (s2, blocked) := ReflectPhase(c, s1, step, resp, tools, test);
    if s2.status == Running {
      ConclusionInStream(c, s2, step, resp, blocked);
    }
  }

  lemma StepInStream(c: Config, s: Run, step: nat)
    requires s.status == Running
    requires Between(At(c, s)) && step == StepOf(At(c, s)) + 1 && step <= c.agent.cfg.MaxSteps()
    ensures var r := Step(c, s, step);
            && InStep(c, r)
            && (r.status == Running ==> Between(At(c, r)) && StepOf(At(c, r)) == step)
  {
    hide RoleCall, SpeakPhase, JudgePhase, Read, ReadAll;
    if c.oracle.Cancelled(s.desk.tick) {
      ErrorCloses(c, Tick(s), "cancelled");
    } else {
      var (s1, r) := RoleCall(c, Tick(s).(pending := [], starts := s.starts + [s.desk.tick]), CodeJob);
      if r.Err? {
        ErrorCloses(c, s1, r.error);
      } else if s1.status == Running {
        SpeechInStream(c, s1, step, r.value.response, s.pending);
        var (s2, tools) := SpeakPhase(c, s1, step, r.value.response, s.pending);
        if s2.status == Running {
          JudgementInStream(c, s2, step, r.value.response, tools);
        }
      }
    }
  }

  lemma ErrorCloses(c: Config, s: Run, error: string)
    requires Between(At(c, s))
    ensures At(c, Stop(s, ErrorEvent(error))) == Closed
  {
    hide ReadAll, Fields, IsBlank;
    Emitted(c, s, ErrorEvent(error));
  }

  lemma {:induction false} StepsInStream(c: Config, s: Run, step: nat)
    requires s.status == Running && 1 <= step <= c.agent.cfg.MaxSteps() + 1
    requires Between(At(c, s)) && step == StepOf(At(c, s)) + 1
    ensures InStep(c, Steps(c, s, step)) && Steps(c, s, step).status != Running
    decreases c.agent.cfg.MaxSteps() + 1 - step
  {
    hide Step, Read, ReadAll;
    if step > c.agent.cfg.MaxSteps() {
      FinishInStream(c, s, c.agent.cfg.MaxSteps(), "max_steps");
    } else {
      StepInStream(c, s, step);
      if Step(c, s, step).status == Running {
        StepsInStream(c, Step(c, s, step), step + 1);
      }
    }
  }

  lemma PlanInStream(c: Config, s: Run)
    requires s.status == Running && At(c, s).Opening?
    ensures var r := PlanPhase(c, s);
            InStep(c, r) && (r.status == Running ==> At(c, r).Opening? || At(c, r).Planned?)
  {
    hide RoleCall, ReadAll, Fields, IsBlank;
    if c.agent.cfg.enablePlan {
      var (s1, r) := RoleCall(c, s, PlanJob);
      if r.Err? {
        Emitted(c, s1, ErrorEvent(r.error));
      } else {
        Emitted(c, s1, PlanEvent(r.value.text));
      }
    }
  }

  lemma PrologueInStream(c: Config, desk: Desk)
    ensures var r := Prologue(c, desk);
            InStep(c, r) && (r.status == Running ==> At(c, r).Opening? || At(c, r).Planned?)
  {
    hide PlanPhase, RunTools, Read;
    var s := Begin(desk);
    assert At(c, s) == Opening;
    ToolsInStream(c, s, [], c.req.tools);
    var (s1, seen) := if c.tools.Some? then RunTools(c.oracle, s, [], c.req.tools) else (s, []);
    if s1.status == Running {
      PlanInStream(c, s1.(pending := seen));
    }
  }

  /** Every run's stream is in the grammar, and the run has sent its terminal event exactly when it has ended; a run
      that has not ended hangs. */
  lemma RunInGrammar(c: Config, desk: Desk)
    ensures var r := RunTask(c, desk);
            && InGrammar(r.trace, c.agent.cfg.MaxSteps())
            && (PlaceAfter(r.trace, c.agent.cfg.MaxSteps()) == Closed <==> r.status == Ended)
            && r.status != Running
  {
    hide Prologue, Steps, Read, ReadAll;
    PrologueInStream(c, desk);
    var s := Prologue(c, desk);
    if s.status == Running {
      StepsInStream(c, s, 1);
    }
  }
}
