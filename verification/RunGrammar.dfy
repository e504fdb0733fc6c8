/** The grammar of a run's event stream, as an automaton, and what being in it means. */
module RunGrammar {
  import opened Outcomes
  import opened Text
  import opened AgentState
  import opened RunMachine

  /** Where a reader of the stream is.  `Speaking` is after the message of a step, with `next` of its words streamed
      and `rest` to come; `Acting` is after a tool the model asked for, `Tested` after the test, `Judged` after the
      reflection (`last` when the step was tested), `Halting` after the notice that the run is halted, `Closed` after
      the terminal event. */
  datatype Place =
    | Opening
    | Planned
    | Speaking(step: nat, next: nat, rest: seq<string>)
    | Acting(step: nat)
    | Tested(step: nat)
    | Judged(step: nat, last: bool)
    | Halting(step: nat)
    | Closed
    | Astray

  /** The step a place belongs to, 0 before the first. */
  function StepOf(p: Place): nat {
    match p
    case Speaking(k, _, _) => k
    case Acting(k) => k
    case Tested(k) => k
    case Judged(k, _) => k
    case Halting(k) => k
    case _ => 0
  }

  /** All words of the step's message are out, and the step is not judged yet. */
  predicate Spoken(p: Place) {
    (p.Speaking? && p.rest == []) || p.Acting?
  }

  /** A place where the next step may begin. */
  predicate Between(p: Place) {
    p.Opening? || p.Planned? || Spoken(p) || (p.Judged? && !p.last)
  }

  predicate Terminal(e: Event) {
    e.ToolFailed? || e.DoneEvent? || e.ErrorEvent?
  }

  function Read(p: Place, e: Event, maxSteps: nat): Place {
    match e
    case ToolEvent(_, _) =>
      if p.Opening? then Opening else if Spoken(p) then Acting(StepOf(p)) else Astray
    case ToolFailed(_, _) =>
      if p.Opening? || Spoken(p) then Closed else Astray
    case PlanEvent(m) =>
      if p.Opening? && !IsBlank(m) then Planned else Astray
    case MessageEvent(m, k) =>
      if Between(p) && k == StepOf(p) + 1 && k <= maxSteps then Speaking(k, 0, Fields(m))
      else if p.Judged? && k == p.step then Halting(k)
      else Astray
    case TokenEvent(t, n) =>
      if p.Speaking? && p.rest != [] && t == p.rest[0] && n == p.step * 1000 + p.next then
        Speaking(p.step, p.next + 1, p.rest[1..])
      else Astray
    case TestEvent(k, _) =>
      if Spoken(p) && k == StepOf(p) then Tested(k) else Astray
    case ReflectEvent(m, k) =>
      if (Spoken(p) || p.Tested?) && k == StepOf(p) && !IsBlank(m) then Judged(k, p.Tested?) else Astray
    case DoneEvent(reason, k) =>
      if p.Halting? && k == p.step && reason == BLOCKED then Closed
      else if (Spoken(p) || p.Tested? || p.Judged?) && k == StepOf(p) then Closed
      else Astray
    case ErrorEvent(_) =>
      if p.Closed? || p.Astray? || p.Halting? || (p.Judged? && p.last) then Astray else Closed
  }

  function ReadAll(p: Place, trace: seq<Event>, maxSteps: nat): Place {
    if trace == [] then p
    else Read(ReadAll(p, trace[..|trace| - 1], maxSteps), trace[|trace| - 1], maxSteps)
  }

  function PlaceAfter(trace: seq<Event>, maxSteps: nat): Place {
    ReadAll(Opening, trace, maxSteps)
  }

  /** The stream is one the grammar allows, finished or not. */
  predicate InGrammar(trace: seq<Event>, maxSteps: nat) {
    PlaceAfter(trace, maxSteps) != Astray
  }

  lemma ReadOne(trace: seq<Event>, e: Event, maxSteps: nat)
    ensures PlaceAfter(trace + [e], maxSteps) == Read(PlaceAfter(trace, maxSteps), e, maxSteps)
  {
    assert (trace + [e])[..|trace|] == trace;
  }

  lemma ReadPrefix(trace: seq<Event>, i: nat, maxSteps: nat)
    requires i < |trace|
    ensures PlaceAfter(trace[..i + 1], maxSteps) == Read(PlaceAfter(trace[..i], maxSteps), trace[i], maxSteps)
  {
    assert trace[..i + 1] == trace[..i] + [trace[i]];
    ReadOne(trace[..i], trace[i], maxSteps);
  }

  // ---- what the grammar says ----

  lemma {:induction false} AstrayStays(trace: seq<Event>, i: nat, maxSteps: nat)
    requires i <= |trace| && InGrammar(trace, maxSteps)
    ensures PlaceAfter(trace[..i], maxSteps) != Astray
    ensures i < |trace| ==> PlaceAfter(trace[..i], maxSteps) != Closed
    decreases |trace| - i
  {
    if i < |trace| {
      AstrayStays(trace, i + 1, maxSteps);
      ReadPrefix(trace, i, maxSteps);
    } else {
      assert trace[..i] == trace;
    }
  }

  /** A stream in the grammar closes exactly with its last event, and that event is its only terminal one. */
  lemma OneTerminalEvent(trace: seq<Event>, maxSteps: nat)
    requires InGrammar(trace, maxSteps)
    ensures forall i | 0 <= i < |trace| ::
              Terminal(trace[i]) <==> i == |trace| - 1 && PlaceAfter(trace, maxSteps) == Closed
  {
    forall i | 0 <= i < |trace|
      ensures Terminal(trace[i]) <==> i == |trace| - 1 && PlaceAfter(trace, maxSteps) == Closed
    {
      ReadPrefix(trace, i, maxSteps);
      AstrayStays(trace, i, maxSteps);
      AstrayStays(trace, i + 1, maxSteps);
      if i == |trace| - 1 {
        assert trace[..i + 1] == trace;
      }
    }
  }

  predicate StepBound(p: Place, maxSteps: nat) {
    p.Speaking? || p.Acting? || p.Tested? || p.Judged? || p.Halting? ==> 1 <= StepOf(p) <= maxSteps
  }

  lemma {:induction false} PlaceWithinSteps(trace: seq<Event>, maxSteps: nat)
    ensures StepBound(PlaceAfter(trace, maxSteps), maxSteps)
  {
    if trace != [] {
      PlaceWithinSteps(trace[..|trace| - 1], maxSteps);
    }
  }

  predicate CarriesStep(e: Event, k: int) {
    match e
    case MessageEvent(_, s) => s == k
    case TestEvent(s, _) => s == k
    case ReflectEvent(_, s) => s == k
    case DoneEvent(_, s) => s == k
    case _ => false
  }

  /** Step numbers run from 1 to the maximum. */
  lemma StepsInRange(trace: seq<Event>, maxSteps: nat, i: nat, k: int)
    requires InGrammar(trace, maxSteps)
    requires i < |trace| && CarriesStep(trace[i], k)
    ensures 1 <= k <= maxSteps
  {
    ReadPrefix(trace, i, maxSteps);
    AstrayStays(trace, i + 1, maxSteps);
    PlaceWithinSteps(trace[..i], maxSteps);
    PlaceWithinSteps(trace[..i + 1], maxSteps);
  }

  /** After the test of step `k` nothing belongs to a later step. */
  predicate FinalStep(p: Place, k: nat) {
    p == Tested(k) || p == Judged(k, true) || p == Halting(k) || p == Closed
  }

  lemma {:induction false} TestedPlaces(trace: seq<Event>, maxSteps: nat, i: nat, j: nat)
    requires InGrammar(trace, maxSteps)
    requires i < j <= |trace| && trace[i].TestEvent?
    ensures FinalStep(PlaceAfter(trace[..j], maxSteps), trace[i].step)
    decreases j
  {
    ReadPrefix(trace, j - 1, maxSteps);
    AstrayStays(trace, j, maxSteps);
    if i < j - 1 {
      TestedPlaces(trace, maxSteps, i, j - 1);
    }
  }

  /** A stream has at most one test event, and everything after it belongs to the same step: a reflection, the
      notice of a halt, the end. */
  lemma TestOnlyInLastStep(trace: seq<Event>, maxSteps: nat, i: nat, j: nat)
    requires InGrammar(trace, maxSteps)
    requires i < j < |trace| && trace[i].TestEvent?
    ensures CarriesStep(trace[j], trace[i].step) || trace[j].ErrorEvent?
    ensures !trace[j].TestEvent? && !trace[j].ToolEvent? && !trace[j].TokenEvent?
  {
    TestedPlaces(trace, maxSteps, i, j);
    ReadPrefix(trace, j, maxSteps);
    AstrayStays(trace, j + 1, maxSteps);
  }

  /** A message that does not open a new step is a halt notice: it follows a reflection of that step, and a done
      event with the blocked reason is all that can come after it. */
  lemma HaltNoticeInContext(trace: seq<Event>, maxSteps: nat, i: nat)
    requires InGrammar(trace, maxSteps)
    requires i < |trace| && trace[i].MessageEvent?
    requires trace[i].step != StepOf(PlaceAfter(trace[..i], maxSteps)) + 1
    ensures 0 < i && trace[i - 1].ReflectEvent? && trace[i - 1].step == trace[i].step
    ensures i + 1 < |trace| ==> trace[i + 1] == DoneEvent(BLOCKED, trace[i].step)
  {
    ReadPrefix(trace, i, maxSteps);
    AstrayStays(trace, i + 1, maxSteps);
    assert PlaceAfter(trace[..i], maxSteps).Judged?;
    assert i > 0;
    ReadPrefix(trace, i - 1, maxSteps);
    if i + 1 < |trace| {
      ReadPrefix(trace, i + 1, maxSteps);
      AstrayStays(trace, i + 2, maxSteps);
    }
  }

  // ---- token numbers ----

  predicate ShortMessages(trace: seq<Event>) {
    forall i | 0 <= i < |trace| && trace[i].MessageEvent? :: |Fields(trace[i].message)| <= 1000
  }

  /** Every token number used so far is below this. */
  function Ceiling(p: Place): int {
    if p.Speaking? then p.step * 1000 + p.next else StepOf(p) * 1000 + 1000
  }

  lemma CeilingGrows(p: Place, e: Event, maxSteps: nat)
    requires p.Speaking? ==> p.next + |p.rest| <= 1000
    requires e.MessageEvent? ==> |Fields(e.message)| <= 1000
    requires Read(p, e, maxSteps) != Astray
    ensures var q := Read(p, e, maxSteps);
            && (q.Speaking? ==> q.next + |q.rest| <= 1000)
            && (q != Closed ==> Ceiling(p) <= Ceiling(q))
            && (e.TokenEvent? ==> Ceiling(p) <= e.number < Ceiling(q))
  {
  }

  lemma NothingRead(trace: seq<Event>, maxSteps: nat)
    ensures PlaceAfter(trace[..0], maxSteps) == Opening
  {
  }

  lemma {:induction false} TokensBelowCeiling(trace: seq<Event>, maxSteps: nat, j: nat)
    requires InGrammar(trace, maxSteps) && ShortMessages(trace) && j <= |trace|
    ensures var p := PlaceAfter(trace[..j], maxSteps);
            && (p.Speaking? ==> p.next + |p.rest| <= 1000)
            && (p != Closed ==> forall i | 0 <= i < j && trace[i].TokenEvent? :: trace[i].number < Ceiling(p))
    decreases j
  {
    hide Read, ReadAll, Fields;
    NothingRead(trace, maxSteps);
    if j > 0 {
      TokensBelowCeiling(trace, maxSteps, j - 1);
      ReadPrefix(trace, j - 1, maxSteps);
      AstrayStays(trace, j, maxSteps);
      AstrayStays(trace, j - 1, maxSteps);
      CeilingGrows(PlaceAfter(trace[..j - 1], maxSteps), trace[j - 1], maxSteps);
    }
  }

  /** With at most 1000 words in every message, token numbers strictly increase over the whole run. */
  lemma TokenNumbersIncrease(trace: seq<Event>, maxSteps: nat, i: nat, j: nat)
    requires InGrammar(trace, maxSteps) && ShortMessages(trace)
    requires i < j < |trace| && trace[i].TokenEvent? && trace[j].TokenEvent?
    ensures trace[i].number < trace[j].number
  {
    TokensBelowCeiling(trace, maxSteps, j);
    ReadPrefix(trace, j, maxSteps);
    AstrayStays(trace, j + 1, maxSteps);
  }

  /** A token's number gives back its step and its place in the message exactly when fewer than 1000 words of the
      message came before it. */
  lemma TokenNumberDecodesIff(trace: seq<Event>, maxSteps: nat, i: nat)
    requires InGrammar(trace, maxSteps)
    requires i < |trace| && trace[i].TokenEvent?
    ensures var p := PlaceAfter(trace[..i], maxSteps);
            && p.Speaking?
            && (trace[i].number / 1000 == p.step && trace[i].number % 1000 == p.next <==> p.next < 1000)
  {
    ReadPrefix(trace, i, maxSteps);
    AstrayStays(trace, i + 1, maxSteps);
  }
}
