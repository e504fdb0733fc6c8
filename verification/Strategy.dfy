/** Choosing a model for a role, and choosing it within the budget for expensive models. */
module Strategy {
  import opened Outcomes
  import opened Text
  import opened ModelRegistry

  datatype StrategyConfig = StrategyConfig(
    defaultModel: string,
    plannerModel: string,
    coderModel: string,
    criticModel: string,
    overrides: map<string, string>,
    fallbacks: seq<string>,
    maxExpensive: int)

  /** A strategy engine; the registry may be missing. */
  datatype Engine = Engine(registry: Option<Catalog>, cfg: StrategyConfig)

  /** What a selection yields: no provider because there is no registry, an error, or a route. */
  datatype Choice =
    | NoProvider
    | Unresolved
    | Chosen(provider: Provider, route: ModelRoute, expensive: bool)

  function RoleModel(role: string, cfg: StrategyConfig): string {
    if role == "planner" then cfg.plannerModel
    else if role == "critic" || role == "reflect" then cfg.criticModel
    else cfg.coderModel
  }

  /** The highest-priority id that is not blank: request override, role override, role model, default. */
  function PreferredId(cfg: StrategyConfig, role: string, override: string): string {
    var role := ToLower(TrimSpace(role));
    FirstNonEmpty([
      override,
      if role in cfg.overrides then cfg.overrides[role] else "",
      RoleModel(role, cfg),
      cfg.defaultModel])
  }

  /** The ids a selection may end with, in order; the last, empty one stands for the registry default. */
  function Candidates(cfg: StrategyConfig, role: string, override: string): seq<string> {
    var preferred := PreferredId(cfg, role, override);
    (if preferred != "" then [preferred] else []) + cfg.fallbacks + [""]
  }

  /** `i` is the position of the first id that resolves. */
  ghost predicate FirstAt(c: Catalog, ids: seq<string>, i: nat) {
    i < |ids| && c.Resolvable(ids[i]) && forall j | 0 <= j < i :: !c.Resolvable(ids[j])
  }

  function FirstResolvable(c: Catalog, ids: seq<string>): (r: Option<Resolved>)
    ensures r.Some? <==> exists i | 0 <= i < |ids| :: c.Resolvable(ids[i])
    ensures forall i: nat | FirstAt(c, ids, i) :: r.Some? && c.Resolve(ids[i]) == Ok(r.value)
  {
    if ids == [] then None
    else if c.Resolvable(ids[0]) then
      assert forall i: nat | FirstAt(c, ids, i) :: i == 0;
      Some(c.Resolve(ids[0]).value)
    else
      assert forall i: nat | FirstAt(c, ids, i) :: 0 < i && FirstAt(c, ids[1..], i - 1);
      assert forall i | 1 <= i < |ids| :: ids[i] == ids[1..][i - 1];
      FirstResolvable(c, ids[1..])
  }

  /** A sequence with a resolvable id has a first one. */
  lemma {:induction false} FirstExists(c: Catalog, ids: seq<string>)
    requires exists i | 0 <= i < |ids| :: c.Resolvable(ids[i])
    ensures exists i: nat :: FirstAt(c, ids, i)
  {
    if c.Resolvable(ids[0]) {
      assert FirstAt(c, ids, 0);
    } else {
      var k :| 0 <= k < |ids| && c.Resolvable(ids[k]);
      assert ids[1..][k - 1] == ids[k];
      FirstExists(c, ids[1..]);
      var i: nat :| FirstAt(c, ids[1..], i);
      assert FirstAt(c, ids, i + 1);
    }
  }

  function Choose(c: Catalog, r: Resolved): Choice {
    Chosen(r.provider, r.route, c.IsExpensive(r.route.name))
  }

  /** The choice made without looking at the budget. */
  function Unbudgeted(e: Engine, role: string, override: string): Choice {
    if e.registry.None? then NoProvider else
      match FirstResolvable(e.registry.value, Candidates(e.cfg, role, override))
      case None => Unresolved
      case Some(r) => Choose(e.registry.value, r)
  }

  predicate OverBudget(cfg: StrategyConfig, used: nat) {
    cfg.maxExpensive > 0 && used >= cfg.maxExpensive
  }

  /** The budgeted choice: once the budget is spent an expensive choice gives way to the first fallback that
      resolves, and if that is expensive too, to the strategy's default model. */
  function Budgeted(e: Engine, role: string, override: string, used: nat): Choice {
    var first := Unbudgeted(e, role, override);
    if !first.Chosen? || !first.expensive || !OverBudget(e.cfg, used) then first else
      var c := e.registry.value;
      var second := match FirstResolvable(c, e.cfg.fallbacks)
                    case None => first
                    case Some(r) => Choose(c, r);
      if second.expensive && e.cfg.defaultModel != "" && c.Resolvable(e.cfg.defaultModel) then
        Choose(c, c.Resolve(e.cfg.defaultModel).value)
      else second
  }

  /** The scan over the fallbacks that both selection methods make. */
  method FirstFallback(c: Catalog, ids: seq<string>) returns (r: Option<Resolved>)
    ensures r == FirstResolvable(c, ids)
    ensures r.None? ==> forall id | id in ids :: !c.Resolvable(id)
  {
    for i := 0 to |ids|
      invariant forall j | 0 <= j < i :: !c.Resolvable(ids[j])
    {
      var got := c.Resolve(ids[i]);
      if got.Ok? {
        assert FirstAt(c, ids, i);
        return Some(got.value);
      }
    }
    return None;
  }

  /** The model a role gets: the first candidate, in order, that the registry resolves. */
  method ResolveModel(e: Engine, role: string, override: string) returns (r: Option<Result<Resolved>>)
    ensures match Unbudgeted(e, role, override)
            case NoProvider => r == None
            case Unresolved => r.Some? && r.value.Err?
            case Chosen(p, route, x) =>
              r == Some(Ok(Resolved(p, route))) && x == e.registry.value.IsExpensive(route.name)
  {
    if e.registry.None? {
      return None;
    }
    var c := e.registry.value;
    var modelID := PreferredId(e.cfg, role, override);
    ghost var head := if modelID != "" then [modelID] else [];
    if modelID != "" {
      var got := c.Resolve(modelID);
      if got.Ok? {
        assert FirstAt(c, Candidates(e.cfg, role, override), 0);
        return Some(got);
      }
    }
    FirstOfParts(c, head, e.cfg.fallbacks, "");
    var fallback := FirstFallback(c, e.cfg.fallbacks);
    if fallback.Some? {
      return Some(Ok(fallback.value));
    }
    var last := c.Resolve("");
    return Some(last);
  }

  /** The first resolvable id of a list in three parts, when nothing in the first part resolves. */
  lemma {:induction false} FirstOfParts(c: Catalog, head: seq<string>, middle: seq<string>, last: string)
    requires forall id | id in head :: !c.Resolvable(id)
    ensures FirstResolvable(c, head + middle + [last]) ==
            match FirstResolvable(c, middle)
            case Some(r) => Some(r)
            case None => if c.Resolvable(last) then Some(c.Resolve(last).value) else None
  {
    if head != [] {
      assert (head + middle + [last])[1..] == head[1..] + middle + [last];
      FirstOfParts(c, head[1..], middle, last);
    } else if middle != [] {
      assert (head + middle + [last])[1..] == head + middle[1..] + [last];
      FirstOfParts(c, head, middle[1..], last);
    } else {
      assert head + middle + [last] == [last];
    }
  }

  /** What a selection without budget yields: the route of the first candidate that resolves, and a failure
      exactly when none does. */
  lemma UnbudgetedIsFirstCandidate(e: Engine, role: string, override: string)
    requires e.registry.Some?
    ensures var c, ids, choice := e.registry.value, Candidates(e.cfg, role, override), Unbudgeted(e, role, override);
            && (choice == Unresolved <==> forall id | id in ids :: !c.Resolvable(id))
            && (choice != Unresolved ==>
                  exists i: nat :: FirstAt(c, ids, i) && choice == Choose(c, c.Resolve(ids[i]).value))
  {
    var c, ids := e.registry.value, Candidates(e.cfg, role, override);
    if exists i | 0 <= i < |ids| :: c.Resolvable(ids[i]) {
      FirstExists(c, ids);
    }
  }

  /** The id wanted for a role, its name in lower case: the one the request brings, or the role's override, or the
      role's own model, or the default; the empty one if all of them are blank. */
  predicate Wanted(cfg: StrategyConfig, role: string, override: string, id: string) {
    if !IsBlank(override) then id == override
    else if role in cfg.overrides && !IsBlank(cfg.overrides[role]) then id == cfg.overrides[role]
    else if role == "planner" && !IsBlank(cfg.plannerModel) then id == cfg.plannerModel
    else if role in ["critic", "reflect"] && !IsBlank(cfg.criticModel) then id == cfg.criticModel
    else if role !in ["planner", "critic", "reflect"] && !IsBlank(cfg.coderModel) then id == cfg.coderModel
    else id == if IsBlank(cfg.defaultModel) then "" else cfg.defaultModel
  }

  lemma WantedIsPreferred(cfg: StrategyConfig, role: string, override: string, id: string)
    requires Wanted(cfg, ToLower(TrimSpace(role)), override, id)
    ensures PreferredId(cfg, role, override) == id && (id == "" <==> IsBlank(id))
  {
    hide IsBlank, TrimSpace, ToLower, FirstNonEmpty;
    EmptyIsBlank();
    var r := ToLower(TrimSpace(role));
    var own := if r in cfg.overrides then cfg.overrides[r] else "";
    var vals := [override, own, RoleModel(r, cfg), cfg.defaultModel];
    assert PreferredId(cfg, role, override) == FirstNonEmpty(vals);
    assert vals[0] == override && vals[1] == own && vals[2] == RoleModel(r, cfg) && vals[3] == cfg.defaultModel;
    assert forall v | v in vals :: v == vals[0] || v == vals[1] || v == vals[2] || v == vals[3];
  }

  /** The model a role gets, case by case: the wanted id if it resolves; if it does not, or none is wanted, the first
      fallback that resolves, and after them the registry's default. */
  lemma RoleGetsItsModel(e: Engine, role: string, override: string, id: string)
    requires e.registry.Some? && Wanted(e.cfg, ToLower(TrimSpace(role)), override, id)
    ensures var c, got, rest := e.registry.value, Unbudgeted(e, role, override), e.cfg.fallbacks + [""];
            if id in c.models && c.models[id].provider in c.providers && id != "" then
              got == Chosen(c.providers[c.models[id].provider], c.models[id], c.IsExpensive(c.models[id].name))
            else if exists k | 0 <= k < |rest| :: c.Resolvable(rest[k]) then
              exists i: nat :: FirstAt(c, rest, i) && got == Choose(c, c.Resolve(rest[i]).value)
            else got == Unresolved
  {
    hide Wanted, PreferredId, IsBlank, ToLower, TrimSpace;
    WantedIsPreferred(e.cfg, role, override, id);
    var c, ids, rest := e.registry.value, Candidates(e.cfg, role, override), e.cfg.fallbacks + [""];
    if id == "" {
      assert ids == rest;
      UnbudgetedIsFirstCandidate(e, role, override);
    } else {
      assert ids == [id] + rest && ids[1..] == rest;
      if !c.Resolvable(id) && exists k | 0 <= k < |rest| :: c.Resolvable(rest[k]) {
        FirstExists(c, rest);
      }
    }
  }

  method PickWithBudget(e: Engine, role: string, override: string, used: nat) returns (choice: Choice)
    ensures choice == Budgeted(e, role, override, used)
  {
    var found := ResolveModel(e, role, override);
    if found.None? {
      return NoProvider;
    }
    if found.value.Err? {
      return Unresolved;
    }
    var c := e.registry.value;
    var prov, route := found.value.value.provider, found.value.value.route;
    var isExp := c.IsExpensive(route.name);
    if e.cfg.maxExpensive > 0 && isExp && used >= e.cfg.maxExpensive {
      var fallback := FirstFallback(c, e.cfg.fallbacks);
      if fallback.Some? {
        prov, route := fallback.value.provider, fallback.value.route;
        isExp := c.IsExpensive(route.name);
      }
    }
    if e.cfg.maxExpensive > 0 && isExp && used >= e.cfg.maxExpensive && e.cfg.defaultModel != "" {
      var got := c.Resolve(e.cfg.defaultModel);
      if got.Ok? {
        prov, route := got.value.provider, got.value.route;
        isExp := c.IsExpensive(route.name);
      }
    }
    return Chosen(prov, route, isExp);
  }

  /** A cheap model to escape to: the first fallback that resolves is cheap, or the strategy default is. */
  predicate HasCheapEscape(e: Engine)
    requires e.registry.Some?
  {
    var c := e.registry.value;
    || (match FirstResolvable(c, e.cfg.fallbacks)
        case None => false
        case Some(r) => !c.IsExpensive(r.route.name))
    || (&& e.cfg.defaultModel != ""
        && c.Resolvable(e.cfg.defaultModel)
        && !c.IsExpensive(c.Resolve(e.cfg.defaultModel).value.route.name))
  }

  predicate PrefersExpensive(e: Engine, role: string, override: string) {
    var first := Unbudgeted(e, role, override);
    first.Chosen? && first.expensive
  }

  /** When the budget is spent, an expensive model is still chosen exactly when the role prefers one and there
      is no cheap escape. */
  lemma SpentBudgetStillExpensiveIff(e: Engine, role: string, override: string, used: nat)
    requires e.registry.Some? && OverBudget(e.cfg, used)
    ensures var choice := Budgeted(e, role, override, used);
            choice.Chosen? && choice.expensive <==> PrefersExpensive(e, role, override) && !HasCheapEscape(e)
  {
  }

  /** One selection request. */
  datatype Ask = Ask(role: string, override: string)

  function Cost(choice: Choice): nat {
    if choice.Chosen? && choice.expensive then 1 else 0
  }

  /** The budget counter after a sequence of selections. */
  function Spent(e: Engine, asks: seq<Ask>, used: nat): (r: nat)
    ensures used <= r
  {
    if asks == [] then used
    else Spent(e, asks[1..], used + Cost(Budgeted(e, asks[0].role, asks[0].override, used)))
  }

  lemma OneAskKeepsBudget(e: Engine, a: Ask, used: nat)
    requires e.registry.Some? && 0 < e.cfg.maxExpensive && used <= e.cfg.maxExpensive
    requires HasCheapEscape(e) || !PrefersExpensive(e, a.role, a.override)
    ensures used + Cost(Budgeted(e, a.role, a.override, used)) <= e.cfg.maxExpensive
  {
    if OverBudget(e.cfg, used) {
      SpentBudgetStillExpensiveIff(e, a.role, a.override, used);
    }
  }

  lemma {:induction false} EscapeKeepsBudget(e: Engine, asks: seq<Ask>, used: nat)
    requires e.registry.Some? && 0 < e.cfg.maxExpensive && used <= e.cfg.maxExpensive
    requires HasCheapEscape(e) || forall a: Ask :: !PrefersExpensive(e, a.role, a.override)
    ensures Spent(e, asks, used) <= e.cfg.maxExpensive
  {
    hide Budgeted, PrefersExpensive, HasCheapEscape;
    if asks != [] {
      var a := asks[0];
      OneAskKeepsBudget(e, a, used);
      var used' := used + Cost(Budgeted(e, a.role, a.override, used));
      EscapeKeepsBudget(e, asks[1..], used');
      assert Spent(e, asks, used) == Spent(e, asks[1..], used');
    }
  }

  lemma {:induction false} RepeatedAskSpends(e: Engine, a: Ask, n: nat, used: nat)
    requires e.registry.Some? && 0 < e.cfg.maxExpensive
    requires PrefersExpensive(e, a.role, a.override) && !HasCheapEscape(e)
    ensures Spent(e, seq(n, _ => a), used) == used + n
  {
    if n > 0 {
      if OverBudget(e.cfg, used) {
        SpentBudgetStillExpensiveIff(e, a.role, a.override, used);
      }
      assert seq(n, _ => a)[1..] == seq(n - 1, _ => a);
      RepeatedAskSpends(e, a, n - 1, used + 1);
    }
  }

  /** The budget is a limit on every sequence of selections exactly when there is a cheap escape or no request
      prefers an expensive model. */
  lemma BudgetIsLimitIff(e: Engine)
    requires e.registry.Some? && 0 < e.cfg.maxExpensive
    ensures (forall asks :: Spent(e, asks, 0) <= e.cfg.maxExpensive)
       <==> HasCheapEscape(e) || forall a: Ask :: !PrefersExpensive(e, a.role, a.override)
  {
    if HasCheapEscape(e) || forall a: Ask :: !PrefersExpensive(e, a.role, a.override) {
      forall asks ensures Spent(e, asks, 0) <= e.cfg.maxExpensive {
        EscapeKeepsBudget(e, asks, 0);
      }
    } else {
      var a: Ask :| PrefersExpensive(e, a.role, a.override);
      RepeatedAskSpends(e, a, e.cfg.maxExpensive + 1, 0);
    }
  }

  // ---- registered models ----

  lemma {:induction false} FirstResolvableIsRegistered(k: Catalog, ids: seq<string>)
    requires k.Named() && "" !in k.models
    ensures match FirstResolvable(k, ids)
            case None => true
            case Some(r) => r.route.name != "" && k.Resolvable(r.route.name) && k.Resolve(r.route.name) == Ok(r)
  {
    if ids != [] && !k.Resolvable(ids[0]) {
      FirstResolvableIsRegistered(k, ids[1..]);
    }
  }

  lemma BudgetedIsRegistered(e: Engine, role: string, override: string, used: nat)
    requires e.registry.Some? && e.registry.value.Named() && "" !in e.registry.value.models
    ensures match Budgeted(e, role, override, used)
            case NoProvider => false
            case Unresolved => !e.registry.value.Resolvable(FirstNonEmpty([override]))
            case Chosen(_, route, x) =>
              && route.name != "" && e.registry.value.Resolvable(route.name)
              && x == e.registry.value.IsExpensive(route.name)
  {
    var k, ids := e.registry.value, Candidates(e.cfg, role, override);
    FirstResolvableIsRegistered(k, ids);
    FirstResolvableIsRegistered(k, e.cfg.fallbacks);
    if IsBlank(override) {
      assert ids[|ids| - 1] == "";
    } else {
      assert PreferredId(e.cfg, role, override) == override;
      assert ids[0] == override;
    }
  }
}
