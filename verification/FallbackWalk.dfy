/** The runner's use of the strategy: selecting a model for a role, and walking the fallbacks after a model has
    failed.  The walk asks the strategy for "the next fallback after x", which is the first fallback that is not
    blank and not x; it remembers the ids it has probed and skips them.  It need not end. */
module FallbackWalk {
  import opened Outcomes
  import opened Text
  import opened ModelRegistry
  import opened Strategy

  /** An accepted selection, as it is counted and recorded. */
  datatype Usage = Usage(role: string, model: string, expensive: bool)

  /** A selected model id, and the accepted selection behind it if there is one. */
  datatype Selection = Selection(model: string, usage: Option<Usage>)

  function CostOf(u: Option<Usage>): nat {
    if u.Some? && u.value.expensive then 1 else 0
  }

  /** The model a role starts with.  A selection that fails, or that yields a route without a name, leaves the
      requested id in place and is not counted. */
  function Select(strategy: Option<Engine>, role: string, override: string, used: nat): Selection {
    var requested := FirstNonEmpty([override]);
    if strategy.None? then Selection(requested, None) else
      match Budgeted(strategy.value, role, requested, used)
      case Chosen(_, route, expensive) =>
        if route.name == "" then Selection(requested, None)
        else Selection(route.name, Some(Usage(role, route.name, expensive)))
      case _ => Selection(requested, None)
  }

  method SelectModel(strategy: Option<Engine>, role: string, override: string, expensiveUsed: nat)
      returns (model: string, usage: Option<Usage>, used: nat)
    ensures Selection(model, usage) == Select(strategy, role, override, expensiveUsed)
    ensures used == expensiveUsed + CostOf(usage)
  {
    model, usage, used := FirstNonEmpty([override]), None, expensiveUsed;
    if strategy.None? {
      return;
    }
    var choice := PickWithBudget(strategy.value, role, model, expensiveUsed);
    if !choice.Chosen? || choice.route.name == "" {
      return;
    }
    if choice.expensive {
      used := used + 1;
    }
    model := choice.route.name;
    usage := Some(Usage(role, model, choice.expensive));
  }

  /** The first fallback that is not blank and not `current`, or the empty string. */
  function NextFallback(fallbacks: seq<string>, current: string): (r: string)
    ensures r != "" ==> !IsBlank(r) && r in fallbacks && r != current
    ensures r == "" <==> forall fb | fb in fallbacks :: IsBlank(fb) || fb == current
  {
    if fallbacks == [] then ""
    else if IsBlank(fallbacks[0]) || fallbacks[0] == current then
      assert forall fb :: fb in fallbacks <==> fb == fallbacks[0] || fb in fallbacks[1..];
      NextFallback(fallbacks[1..], current)
    else fallbacks[0]
  }

  /** The next fallback is at the first place in the list that holds neither a blank id nor the current one. */
  lemma {:induction false} NextFallbackIsFirst(fallbacks: seq<string>, current: string, i: nat)
    requires i < |fallbacks| && !IsBlank(fallbacks[i]) && fallbacks[i] != current
    requires forall j | 0 <= j < i :: IsBlank(fallbacks[j]) || fallbacks[j] == current
    ensures NextFallback(fallbacks, current) == fallbacks[i]
  {
    if i > 0 {
      assert IsBlank(fallbacks[0]) || fallbacks[0] == current;
      NextFallbackIsFirst(fallbacks[1..], current, i - 1);
    }
  }

  /** What probing `fb` after `current` failed gives: a selection to fall back to, or nothing. */
  function Probe(e: Engine, role: string, current: string, fb: string, used: nat): (r: Option<Usage>)
    ensures r.Some? ==> r.value.model != "" && r.value.model != current && r.value.role == role
  {
    match Budgeted(e, role, fb, used)
    case Chosen(_, route, expensive) =>
      if route.name == "" || route.name == current then None else Some(Usage(role, route.name, expensive))
    case _ => None
  }

  /** Probing after `current` has failed, as a function of the fallback id. */
  function Prober(e: Engine, role: string, current: string, used: nat): string -> Option<Usage> {
    (fb: string) => Probe(e, role, current, fb, used)
  }

  /** The loop, one iteration at a time: `fb` is the loop variable, `probed` the ids evaluated so far. */
  datatype Walk =
    | Walking(fb: string, tried: set<string>, probed: seq<string>)
    | Finished(usage: Option<Usage>, probed: seq<string>)

  function Start(fbs: seq<string>, current: string): Walk {
    Walking(NextFallback(fbs, current), if current != "" then {current} else {}, [])
  }

  function Iterate(fbs: seq<string>, probe: string -> Option<Usage>, w: Walk): Walk {
    if w.Finished? then w
    else if w.fb == "" then Finished(None, w.probed)
    else
      var next := NextFallback(fbs, w.fb);
      if w.fb in w.tried then w.(fb := next)
      else if probe(w.fb).Some? then Finished(probe(w.fb), w.probed + [w.fb])
      else Walking(next, w.tried + {w.fb}, w.probed + [w.fb])
  }

  /** The walk after `n` iterations. */
  function After(fbs: seq<string>, current: string, probe: string -> Option<Usage>, n: nat): Walk {
    if n == 0 then Start(fbs, current) else Iterate(fbs, probe, After(fbs, current, probe, n - 1))
  }

  ghost predicate Ends(fbs: seq<string>, current: string, probe: string -> Option<Usage>) {
    exists n: nat :: After(fbs, current, probe, n).Finished?
  }

  /** All fallbacks that are not blank are the same id. */
  predicate OneFallback(fbs: seq<string>) {
    forall x, y | x in fbs && y in fbs :: IsBlank(x) || IsBlank(y) || x == y
  }

  /** The first fallback that is not blank, and the first that differs from it. */
  function FirstId(fbs: seq<string>): string { NextFallback(fbs, "") }

  function SecondId(fbs: seq<string>): string { NextFallback(fbs, FirstId(fbs)) }

  /** The ids the walk can evaluate, in order: at most two. */
  function Probes(fbs: seq<string>, current: string): seq<string> {
    var a, b := FirstId(fbs), SecondId(fbs);
    (if a != "" && a != current then [a] else []) + (if b != "" && b != current then [b] else [])
  }

  /** The probe of an id, unless it is empty or the failed model. */
  function Try(current: string, probe: string -> Option<Usage>, id: string): Option<Usage> {
    if id == "" || id == current then None else probe(id)
  }

  function FirstAccepted(fbs: seq<string>, current: string, probe: string -> Option<Usage>): Option<Usage> {
    var first := Try(current, probe, FirstId(fbs));
    if first.Some? then first else Try(current, probe, SecondId(fbs))
  }

  datatype Outcome = Picked(usage: Usage) | Nothing | Endless

  /** What the walk comes to, decided without running it. */
  function Verdict(fbs: seq<string>, current: string, probe: string -> Option<Usage>): Outcome {
    match FirstAccepted(fbs, current, probe)
    case Some(u) => Picked(u)
    case None => if OneFallback(fbs) then Nothing else Endless
  }

  // ---- how the next fallback alternates ----

  lemma NextDependsOnFirst(fbs: seq<string>, x: string)
    ensures NextFallback(fbs, x) == if x == FirstId(fbs) then SecondId(fbs) else FirstId(fbs)
  {
    NextSkips(fbs, x);
  }

  lemma {:induction false} NextSkips(fbs: seq<string>, x: string)
    ensures x != NextFallback(fbs, "") ==> NextFallback(fbs, x) == NextFallback(fbs, "")
  {
    if fbs != [] && (IsBlank(fbs[0]) || fbs[0] == "") {
      NextSkips(fbs[1..], x);
    }
  }

  lemma OneFallbackIff(fbs: seq<string>)
    ensures OneFallback(fbs) <==> SecondId(fbs) == ""
    ensures SecondId(fbs) != "" ==> FirstId(fbs) != "" && FirstId(fbs) != SecondId(fbs)
  {
    assert IsBlank("");
  }

  // ---- what every iteration keeps ----

  /** The part of the probe list that `tried` covers. */
  function Covered(fbs: seq<string>, current: string, tried: set<string>): seq<string> {
    var a, b := FirstId(fbs), SecondId(fbs);
    (if a != "" && a != current && a in tried then [a] else [])
    + (if b != "" && b != current && b in tried then [b] else [])
  }

  ghost predicate Reachable(fbs: seq<string>, current: string, probe: string -> Option<Usage>, w: Walk) {
    var a, b := FirstId(fbs), SecondId(fbs);
    && |w.probed| <= 2
    && match w
       case Walking(fb, tried, probed) =>
         && probed == Covered(fbs, current, tried)
         && "" !in tried && (current != "" ==> current in tried)
         && (forall id | id in tried && id != current :: probe(id) == None)
         && (a == "" || a in tried || (fb == a && (b in tried ==> b == current)))
         && fb in {a, b}
       case Finished(usage, probed) =>
         && probed <= Probes(fbs, current)
         && usage == FirstAccepted(fbs, current, probe)
         && (usage.Some? || OneFallback(fbs))
  }

  lemma IterateKeeps(fbs: seq<string>, current: string, probe: string -> Option<Usage>, w: Walk)
    requires Reachable(fbs, current, probe, w)
    ensures Reachable(fbs, current, probe, Iterate(fbs, probe, w))
  {
    var a, b := FirstId(fbs), SecondId(fbs);
    NextDependsOnFirst(fbs, a);
    NextDependsOnFirst(fbs, b);
    OneFallbackIff(fbs);
    if w.Walking? && w.fb != "" && w.fb !in w.tried && probe(w.fb) == None {
      assert w.probed + [w.fb] == Covered(fbs, current, w.tried + {w.fb});
    }
  }

  lemma {:induction false} AfterReachable(fbs: seq<string>, current: string, probe: string -> Option<Usage>, n: nat)
    ensures Reachable(fbs, current, probe, After(fbs, current, probe, n))
  {
    if n == 0 {
      NextDependsOnFirst(fbs, current);
    } else {
      AfterReachable(fbs, current, probe, n - 1);
      IterateKeeps(fbs, current, probe, After(fbs, current, probe, n - 1));
    }
  }

  lemma EndsWithinThree(fbs: seq<string>, current: string, probe: string -> Option<Usage>)
    requires Verdict(fbs, current, probe) != Endless
    ensures After(fbs, current, probe, 3).Finished?
  {
    hide NextFallback, OneFallback;
    var a, b := FirstId(fbs), SecondId(fbs);
    NextDependsOnFirst(fbs, current);
    NextDependsOnFirst(fbs, a);
    OneFallbackIff(fbs);
    var w0, w1, w2 := After(fbs, current, probe, 0), After(fbs, current, probe, 1), After(fbs, current, probe, 2);
    assert w1 == Iterate(fbs, probe, w0);
    assert w2 == Iterate(fbs, probe, w1);
    if a != "" && a != current {
      assert w0.fb == a && a !in w0.tried;
      assert w1.Finished? || w1.fb == b;
    } else {
      assert w0.fb == b;
    }
  }

  lemma {:induction false} FinishedStays(fbs: seq<string>, current: string, probe: string -> Option<Usage>, n: nat,
                                         m: nat)
    requires n <= m && After(fbs, current, probe, n).Finished?
    ensures After(fbs, current, probe, m) == After(fbs, current, probe, n)
  {
    if n < m {
      FinishedStays(fbs, current, probe, n, m - 1);
    }
  }

  /** The walk ends exactly when all fallbacks that are not blank are equal or one of the at most two ids it
      evaluates is accepted; it then ends within three iterations and returns what the verdict says. */
  lemma WalkEndsIff(fbs: seq<string>, current: string, probe: string -> Option<Usage>)
    ensures Ends(fbs, current, probe) <==>
            OneFallback(fbs) || exists id | id in Probes(fbs, current) :: probe(id).Some?
    ensures Ends(fbs, current, probe) <==> Verdict(fbs, current, probe) != Endless
    ensures Ends(fbs, current, probe) <==> After(fbs, current, probe, 3).Finished?
    ensures forall n: nat :: |After(fbs, current, probe, n).probed| <= 2
    ensures forall n: nat | After(fbs, current, probe, n).Finished? ::
              Verdict(fbs, current, probe) ==
              match After(fbs, current, probe, n).usage case Some(u) => Picked(u) case None => Nothing
  {
    forall n: nat ensures Reachable(fbs, current, probe, After(fbs, current, probe, n)) {
      AfterReachable(fbs, current, probe, n);
    }
    if Verdict(fbs, current, probe) != Endless {
      EndsWithinThree(fbs, current, probe);
    }
  }

  // ---- comparison with a plain in-order walk ----

  /** Every fallback in list order, leaving out the blank ones and the failed model. */
  function PlainWalk(ids: seq<string>, current: string, probe: string -> Option<Usage>): Option<Usage> {
    if ids == [] then None
    else if !IsBlank(ids[0]) && ids[0] != current && probe(ids[0]).Some? then probe(ids[0])
    else PlainWalk(ids[1..], current, probe)
  }

  lemma {:induction false} PlainWalkPasses(ids: seq<string>, current: string, probe: string -> Option<Usage>, x: string)
    requires x == current || IsBlank(x) || probe(x) == None
    ensures var y := NextFallback(ids, x);
            y != "" && y != current && probe(y).Some? ==> PlainWalk(ids, current, probe) == probe(y)
  {
    if ids != [] {
      PlainWalkPasses(ids[1..], current, probe, x);
    }
  }

  lemma {:induction false} PlainWalkFinds(ids: seq<string>, current: string, probe: string -> Option<Usage>)
    ensures PlainWalk(ids, current, probe).Some? ==>
              exists id | id in ids :: !IsBlank(id) && id != current && probe(id).Some?
  {
    if ids != [] {
      PlainWalkFinds(ids[1..], current, probe);
    }
  }

  /** Any model the walk returns is the one the plain in-order walk returns, and the two differ only when the walk
      does not end. */
  lemma WalkAgreesWithPlainWalk(fbs: seq<string>, current: string, probe: string -> Option<Usage>)
    ensures var plain := PlainWalk(fbs, current, probe);
            match Verdict(fbs, current, probe)
            case Picked(u) => plain == Some(u)
            case Nothing => plain == None
            case Endless => !Ends(fbs, current, probe)
  {
    var a := FirstId(fbs);
    WalkEndsIff(fbs, current, probe);
    assert IsBlank("");
    PlainWalkPasses(fbs, current, probe, "");
    if a == current || probe(a) == None {
      PlainWalkPasses(fbs, current, probe, a);
    }
    PlainWalkFinds(fbs, current, probe);
  }

  // ---- the walk over a strategy ----

  function VerdictFor(e: Engine, role: string, current: string, used: nat): Outcome {
    Verdict(e.cfg.fallbacks, current, Prober(e, role, current, used))
  }

  ghost predicate EndsFor(e: Engine, role: string, current: string, used: nat) {
    Ends(e.cfg.fallbacks, current, Prober(e, role, current, used))
  }

  /** A registered model that is not blank, asked for with budget left, is what the strategy chooses. */
  lemma AskedForIsChosen(e: Engine, role: string, id: string, used: nat)
    requires e.registry.Some? && e.registry.value.Named()
    requires !IsBlank(id) && e.registry.value.Resolvable(id)
    requires !OverBudget(e.cfg, used)
    ensures Budgeted(e, role, id, used) == Choose(e.registry.value, e.registry.value.Resolve(id).value)
  {
    assert PreferredId(e.cfg, role, id) == id;
    assert FirstAt(e.registry.value, Candidates(e.cfg, role, id), 0);
  }

  /** With every fallback registered and budget left, the first probe is accepted, so the walk ends. */
  lemma FirstProbeAccepted(e: Engine, role: string, current: string, used: nat)
    requires e.registry.Some? && e.registry.value.Named()
    requires forall fb | fb in e.cfg.fallbacks :: e.registry.value.Resolvable(fb)
    requires !OverBudget(e.cfg, used)
    requires NextFallback(e.cfg.fallbacks, current) != ""
    ensures var fb := NextFallback(e.cfg.fallbacks, current);
            VerdictFor(e, role, current, used) == Picked(Usage(role, fb, e.registry.value.IsExpensive(fb)))
  {
    hide Budgeted;
    var fb := NextFallback(e.cfg.fallbacks, current);
    AskedForIsChosen(e, role, fb, used);
    NextDependsOnFirst(e.cfg.fallbacks, current);
    OneFallbackIff(e.cfg.fallbacks);
  }

  /** A cheap and an expensive model, both fallbacks, with a budget of one expensive use. */
  const CHEAP_AND_DEAR := Engine(
    Some(Catalog(map["p" := Provider("p", Ollama)],
                 map["cheap" := ModelRoute("cheap", "p", "m1", 0.0, 0),
                     "dear" := ModelRoute("dear", "p", "m2", 0.0, 0)],
                 "cheap",
                 map["dear" := true])),
    StrategyConfig("", "", "", "", map[], ["cheap", "dear"], 1))

  lemma CheapAndDearNames()
    ensures !IsBlank("cheap") && !IsBlank("dear")
    ensures NextFallback(["cheap", "dear"], "") == "cheap"
    ensures NextFallback(["cheap", "dear"], "cheap") == "dear"
  {
    BlankIsAllSpace("cheap");
    BlankIsAllSpace("dear");
    hide IsBlank;
    assert !IsSpace("cheap"[0]) && !IsSpace("dear"[0]);
    assert ["cheap", "dear"][1..] == ["dear"];
  }

  lemma CheapAndDearChoice()
    ensures var choice := Budgeted(CHEAP_AND_DEAR, "coder", "dear", 1);
            choice.Chosen? && choice.route.name == "cheap"
  {
    var e := CHEAP_AND_DEAR;
    CheapAndDearNames();
    assert PreferredId(e.cfg, "coder", "dear") == "dear";
    assert FirstAt(e.registry.value, Candidates(e.cfg, "coder", "dear"), 0);
    assert FirstAt(e.registry.value, e.cfg.fallbacks, 0);
  }

  /** With the budget spent, a failure of the cheap model sends the walk round for ever: the expensive fallback is
      dropped to the model that has just failed. */
  lemma SpentBudgetCanHang()
    ensures CHEAP_AND_DEAR.registry.value.Named()
    ensures forall fb | fb in CHEAP_AND_DEAR.cfg.fallbacks :: CHEAP_AND_DEAR.registry.value.Resolvable(fb)
    ensures VerdictFor(CHEAP_AND_DEAR, "coder", "cheap", 1) == Endless
    ensures !EndsFor(CHEAP_AND_DEAR, "coder", "cheap", 1)
  {
    hide Budgeted, NextFallback, IsBlank;
    var e := CHEAP_AND_DEAR;
    var probe := Prober(e, "coder", "cheap", 1);
    CheapAndDearChoice();
    CheapAndDearNames();
    assert FirstId(e.cfg.fallbacks) == "cheap" && SecondId(e.cfg.fallbacks) == "dear";
    assert probe("dear") == None;
    OneFallbackIff(e.cfg.fallbacks);
    WalkEndsIff(e.cfg.fallbacks, "cheap", probe);
  }

  method ProbeFallback(e: Engine, role: string, current: string, fb: string, used: nat) returns (r: Option<Usage>)
    ensures r == Probe(e, role, current, fb, used)
  {
    var choice := PickWithBudget(e, role, fb, used);
    if !choice.Chosen? || choice.route.name == "" || choice.route.name == current {
      return None;
    }
    return Some(Usage(role, choice.route.name, choice.expensive));
  }

  /** The walk as the runner makes it, cut off after `fuel` iterations. */
  method PickFallbackModel(e: Engine, role: string, current: string, expensiveUsed: nat, fuel: nat)
      returns (w: Walk, used: nat)
    ensures w == After(e.cfg.fallbacks, current, Prober(e, role, current, expensiveUsed), fuel)
    ensures used == expensiveUsed + if w.Finished? then CostOf(w.usage) else 0
  {
    hide Probe;
    ghost var probe := Prober(e, role, current, expensiveUsed);
    var tried: set<string> := if current != "" then {current} else {};
    var probed: seq<string> := [];
    var fb := NextFallback(e.cfg.fallbacks, current);
    var n := 0;
    while n < fuel
      invariant n <= fuel
      invariant After(e.cfg.fallbacks, current, probe, n) == Walking(fb, tried, probed)
    {
      n := n + 1;
      if fb == "" {
        FinishedStays(e.cfg.fallbacks, current, probe, n, fuel);
        return Finished(None, probed), expensiveUsed;
      }
      if fb !in tried {
        tried, probed := tried + {fb}, probed + [fb];
        var usage := ProbeFallback(e, role, current, fb, expensiveUsed);
        if usage.Some? {
          FinishedStays(e.cfg.fallbacks, current, probe, n, fuel);
          return Finished(usage, probed), expensiveUsed + CostOf(usage);
        }
      }
      fb := NextFallback(e.cfg.fallbacks, fb);
    }
    return Walking(fb, tried, probed), expensiveUsed;
  }
}
