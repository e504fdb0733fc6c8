/** Validation of a configuration, and the registry built from it. */
module ConfigCheck {
  import opened Outcomes
  import opened Text
  import opened ModelRegistry
  import opened Strategy
  import opened AgentState
  import opened FallbackWalk

  datatype ModelConfig = ModelConfig(
    provider: string, model: string, temperature: real, maxTokens: int, isDefault: bool, expensive: bool)

  /** The parts of a configuration that are validated; a provider is its type. */
  datatype AppConfig = AppConfig(
    providers: map<string, string>,
    models: map<string, ModelConfig>,
    strategy: StrategyConfig,
    agent: AgentConfig,
    testTimeoutSeconds: int,
    sandboxTimeoutSeconds: int,
    execTimeoutSeconds: int,
    semanticMaxFiles: int,
    semanticMaxFileBytes: int,
    transport: string)

  /** What validation can complain about. */
  datatype Problem =
    | NoProviders
    | NoModels
    | ProviderWithoutType(name: string)
    | ModelWithoutProvider(name: string)
    | UnknownProvider(name: string)
    | TemperatureOutOfRange(name: string)
    | NegativeMaxTokens(name: string)
    | NoDefaultModel
    | NoSteps
    | NegativeContextBytes
    | NoTestCommand
    | NegativeTestRetries
    | NegativeTestTimeout
    | UnknownPolicy
    | NoSandboxTimeout
    | NoExecTimeout
    | UnknownStrategyModel(name: string)
    | UnknownFallback(name: string)
    | UnknownOverride(name: string)
    | NegativeMaxExpensive
    | NegativeSemanticMaxFiles
    | NegativeSemanticMaxFileBytes
    | UnknownTransport

  function StrategyModels(s: StrategyConfig): seq<string> {
    [s.defaultModel, s.plannerModel, s.coderModel, s.criticModel]
  }

  ghost predicate Holds(c: AppConfig, p: Problem) {
    match p
    case NoProviders => c.providers == map[]
    case NoModels => c.models == map[]
    case ProviderWithoutType(n) => n in c.providers && c.providers[n] == ""
    case ModelWithoutProvider(n) => n in c.models && c.models[n].provider == ""
    case UnknownProvider(n) => n in c.models && c.models[n].provider !in c.providers
    case TemperatureOutOfRange(n) => n in c.models && !(0.0 <= c.models[n].temperature <= 2.0)
    case NegativeMaxTokens(n) => n in c.models && c.models[n].maxTokens < 0
    case NoDefaultModel => forall n | n in c.models :: !c.models[n].isDefault
    case NoSteps => c.agent.maxSteps <= 0
    case NegativeContextBytes => c.agent.maxContextBytes < 0
    case NoTestCommand => c.agent.enableTestRun && IsBlank(c.agent.testCommand)
    case NegativeTestRetries => c.agent.testRetries < 0
    case NegativeTestTimeout => c.testTimeoutSeconds < 0
    case UnknownPolicy =>
      ToLower(TrimSpace(c.agent.reflectionPolicy)) !in {"", "block_on_critical", "never_block", "warn_only"}
    case NoSandboxTimeout => c.sandboxTimeoutSeconds <= 0
    case NoExecTimeout => c.execTimeoutSeconds <= 0
    case UnknownStrategyModel(n) => n in StrategyModels(c.strategy) && !IsBlank(n) && n !in c.models
    case UnknownFallback(n) => n in c.strategy.fallbacks && n !in c.models
    case UnknownOverride(n) => n in c.strategy.overrides.Values && n !in c.models
    case NegativeMaxExpensive => c.strategy.maxExpensive < 0
    case NegativeSemanticMaxFiles => c.semanticMaxFiles < 0
    case NegativeSemanticMaxFileBytes => c.semanticMaxFileBytes < 0
    case UnknownTransport => ToLower(TrimSpace(c.transport)) !in {"", "connect", "ndjson"}
  }

  /** The check a problem is found by; the checks are made in this order. */
  function Stage(p: Problem): nat {
    match p
    case NoProviders => 0
    case NoModels => 1
    case ProviderWithoutType(_) => 2
    case ModelWithoutProvider(_) => 3
    case UnknownProvider(_) => 3
    case TemperatureOutOfRange(_) => 3
    case NegativeMaxTokens(_) => 3
    case NoDefaultModel => 4
    case NoSteps => 5
    case NegativeContextBytes => 6
    case NoTestCommand => 7
    case NegativeTestRetries => 8
    case NegativeTestTimeout => 9
    case UnknownPolicy => 10
    case NoSandboxTimeout => 11
    case NoExecTimeout => 12
    case UnknownStrategyModel(_) => 13
    case UnknownFallback(_) => 14
    case UnknownOverride(_) => 15
    case NegativeMaxExpensive => 16
    case NegativeSemanticMaxFiles => 17
    case NegativeSemanticMaxFileBytes => 18
    case UnknownTransport => 19
  }

  ghost predicate Valid(c: AppConfig) {
    forall p :: !Holds(c, p)
  }

  /** No problem of an earlier check holds. */
  ghost predicate CleanBefore(c: AppConfig, stage: nat) {
    forall p | Stage(p) < stage :: !Holds(c, p)
  }

  method CheckProviders(c: AppConfig) returns (r: Option<Problem>)
    ensures r.Some? ==> Stage(r.value) == 2 && Holds(c, r.value)
    ensures r.None? ==> forall p | Stage(p) == 2 :: !Holds(c, p)
  {
    var todo := c.providers.Keys;
    while todo != {}
      invariant todo <= c.providers.Keys
      invariant forall n | n in c.providers && n !in todo :: c.providers[n] != ""
    {
      var name :| name in todo;
      if c.providers[name] == "" {
        return Some(ProviderWithoutType(name));
      }
      todo := todo - {name};
    }
    return None;
  }

  ghost predicate ModelFine(c: AppConfig, n: string)
    requires n in c.models
  {
    var m := c.models[n];
    m.provider != "" && m.provider in c.providers && 0.0 <= m.temperature <= 2.0 && 0 <= m.maxTokens
  }

  method CheckModels(c: AppConfig) returns (r: Option<Problem>)
    ensures r.Some? ==> 3 <= Stage(r.value) <= 4 && Holds(c, r.value)
    ensures r.Some? && Stage(r.value) == 4 ==> forall p | Stage(p) == 3 :: !Holds(c, p)
    ensures r.None? ==> forall p | 3 <= Stage(p) <= 4 :: !Holds(c, p)
  {
    var todo := c.models.Keys;
    var defaultFound := false;
    while todo != {}
      invariant todo <= c.models.Keys
      invariant forall n | n in c.models && n !in todo :: ModelFine(c, n)
      invariant defaultFound <==> exists n | n in c.models && n !in todo :: c.models[n].isDefault
    {
      var name :| name in todo;
      var m := c.models[name];
      if m.provider == "" {
        return Some(ModelWithoutProvider(name));
      }
      if m.provider !in c.providers {
        return Some(UnknownProvider(name));
      }
      if m.temperature < 0.0 || m.temperature > 2.0 {
        return Some(TemperatureOutOfRange(name));
      }
      if m.maxTokens < 0 {
        return Some(NegativeMaxTokens(name));
      }
      if m.isDefault {
        defaultFound := true;
      }
      todo := todo - {name};
    }
    if !defaultFound {
      return Some(NoDefaultModel);
    }
    return None;
  }

  method CheckSettings(c: AppConfig) returns (r: Option<Problem>)
    ensures r.Some? ==> 5 <= Stage(r.value) <= 12 && Holds(c, r.value)
    ensures r.Some? ==> forall p | 5 <= Stage(p) < Stage(r.value) :: !Holds(c, p)
    ensures r.None? ==> forall p | 5 <= Stage(p) <= 12 :: !Holds(c, p)
  {
    if c.agent.maxSteps <= 0 { return Some(NoSteps); }
    if c.agent.maxContextBytes < 0 { return Some(NegativeContextBytes); }
    if c.agent.enableTestRun && IsBlank(c.agent.testCommand) { return Some(NoTestCommand); }
    if c.agent.testRetries < 0 { return Some(NegativeTestRetries); }
    if c.testTimeoutSeconds < 0 { return Some(NegativeTestTimeout); }
    if ToLower(TrimSpace(c.agent.reflectionPolicy)) !in {"", "block_on_critical", "never_block", "warn_only"} {
      return Some(UnknownPolicy);
    }
    if c.sandboxTimeoutSeconds <= 0 { return Some(NoSandboxTimeout); }
    if c.execTimeoutSeconds <= 0 { return Some(NoExecTimeout); }
    return None;
  }

  method CheckReferences(c: AppConfig) returns (r: Option<Problem>)
    ensures r.Some? ==> 13 <= Stage(r.value) <= 19 && Holds(c, r.value)
    ensures r.Some? ==> forall p | 13 <= Stage(p) < Stage(r.value) :: !Holds(c, p)
    ensures r.None? ==> forall p | 13 <= Stage(p) <= 19 :: !Holds(c, p)
  {
    hide TrimSpace, ToLower, IsBlank;
    var ids := StrategyModels(c.strategy);
    for i := 0 to |ids|
      invariant forall j | 0 <= j < i :: IsBlank(ids[j]) || ids[j] in c.models
    {
      if !IsBlank(ids[i]) && ids[i] !in c.models {
        return Some(UnknownStrategyModel(ids[i]));
      }
    }
    for i := 0 to |c.strategy.fallbacks|
      invariant forall j | 0 <= j < i :: c.strategy.fallbacks[j] in c.models
    {
      if c.strategy.fallbacks[i] !in c.models {
        return Some(UnknownFallback(c.strategy.fallbacks[i]));
      }
    }
    var todo := c.strategy.overrides.Values;
    while todo != {}
      invariant todo <= c.strategy.overrides.Values
      invariant forall n | n in c.strategy.overrides.Values && n !in todo :: n in c.models
    {
      var name :| name in todo;
      if name !in c.models {
        return Some(UnknownOverride(name));
      }
      todo := todo - {name};
    }
    if c.strategy.maxExpensive < 0 { return Some(NegativeMaxExpensive); }
    if c.semanticMaxFiles < 0 { return Some(NegativeSemanticMaxFiles); }
    if c.semanticMaxFileBytes < 0 { return Some(NegativeSemanticMaxFileBytes); }
    if ToLower(TrimSpace(c.transport)) !in {"", "connect", "ndjson"} { return Some(UnknownTransport); }
    return None;
  }

  /** Accepts exactly the configurations without a problem; otherwise reports a problem that holds, and none of an
      earlier check does. */
  method Validate(c: AppConfig) returns (r: Option<Problem>)
    ensures r.None? <==> Valid(c)
    ensures r.Some? ==> Holds(c, r.value) && CleanBefore(c, Stage(r.value))
  {
    if |c.providers| == 0 {
      assert c.providers == map[] && Holds(c, NoProviders);
      return Some(NoProviders);
    }
    assert c.providers != map[];
    if |c.models| == 0 {
      assert c.models == map[] && Holds(c, NoModels);
      return Some(NoModels);
    }
    assert c.models != map[];
    r := CheckProviders(c);
    if r.None? {
      r := CheckModels(c);
    }
    if r.None? {
      r := CheckSettings(c);
    }
    if r.None? {
      r := CheckReferences(c);
    }
  }

  // ---- the registry ----

  const KNOWN_TYPES := {"openai", "openrouter", "vllm", "lmstudio", "custom", "ollama"}

  function BuildProvider(name: string, kind: string): Option<Provider> {
    if kind !in KNOWN_TYPES then None
    else Some(Provider(name, if kind == "ollama" then Ollama else OpenAICompatible))
  }

  function RouteOf(m: ModelConfig): ModelRoute {
    ModelRoute("", m.provider, m.model, m.temperature, m.maxTokens)
  }

  function RegisterOne(c: Catalog, name: string, m: ModelConfig): Catalog {
    var c1 := c.WithModel(name, RouteOf(m), m.isDefault);
    if m.expensive then c1.(expensive := c1.expensive[name := true]) else c1
  }

  /** The models registered in the given order. */
  function RegisterAll(c: Catalog, models: map<string, ModelConfig>, order: seq<string>): Catalog
    requires forall n | n in order :: n in models
  {
    if order == [] then c
    else
      var last := order[|order| - 1];
      assert forall n | n in order[..|order| - 1] :: n in order;
      RegisterOne(RegisterAll(c, models, order[..|order| - 1]), last, models[last])
  }

  /** A sequence that visits every key once. */
  ghost predicate IsOrder(order: seq<string>, keys: set<string>) {
    && (forall n :: n in order <==> n in keys)
    && (forall i, j | 0 <= i < j < |order| :: order[i] != order[j])
  }

  predicate TypesKnown(c: AppConfig) {
    forall n | n in c.providers :: c.providers[n] in KNOWN_TYPES
  }

  /** The providers a configuration builds, when all types are known. */
  function ProvidersOf(c: AppConfig): map<string, Provider>
    requires TypesKnown(c)
  {
    map n | n in c.providers :: BuildProvider(n, c.providers[n]).value
  }

  /** The catalogue that results from registering the models in the given order. */
  function CatalogOf(c: AppConfig, order: seq<string>): Catalog
    requires TypesKnown(c) && forall n | n in order :: n in c.models
  {
    RegisterAll(EMPTY.(providers := ProvidersOf(c)), c.models, order)
  }

  method BuildRegistry(c: AppConfig) returns (reg: Registry, ok: bool)
    ensures fresh(reg)
    ensures ok ==> TypesKnown(c)
    ensures TypesKnown(c) ==> exists order :: IsOrder(order, c.models.Keys) && reg.View() == CatalogOf(c, order)
    ensures TypesKnown(c) ==> (ok <==> reg.View().Resolvable(""))
  {
    reg := new Registry();
    var todo := c.providers.Keys;
    while todo != {}
      invariant todo <= c.providers.Keys
      invariant forall n | n in c.providers && n !in todo :: c.providers[n] in KNOWN_TYPES
      invariant fresh(reg)
      invariant reg.View() == EMPTY.(providers := reg.providers)
      invariant reg.providers.Keys == c.providers.Keys - todo
      invariant forall n | n in reg.providers :: Some(reg.providers[n]) == BuildProvider(n, c.providers[n])
    {
      var name :| name in todo;
      var p := BuildProvider(name, c.providers[name]);
      if p.None? {
        return reg, false;
      }
      reg.RegisterProvider(name, p.value);
      todo := todo - {name};
    }
    assert reg.providers == ProvidersOf(c);
    todo := c.models.Keys;
    ghost var order: seq<string> := [];
    while todo != {}
      invariant todo <= c.models.Keys
      invariant fresh(reg)
      invariant IsOrder(order, c.models.Keys - todo)
      invariant reg.View() == CatalogOf(c, order)
    {
      var name :| name in todo;
      var m := c.models[name];
      ghost var order' := order + [name];
      assert order'[..|order'| - 1] == order;
      reg.RegisterModel(name, RouteOf(m), m.isDefault);
      if m.expensive {
        reg.MarkExpensive(name, true);
      }
      todo := todo - {name};
      order := order';
    }
    ok := reg.View().Resolvable("");
  }

  // ---- the laws ----

  lemma RegisterOneContent(k: Catalog, name: string, m: ModelConfig)
    ensures var k' := RegisterOne(k, name, m);
            && k'.providers == k.providers && k'.models == k.models[name := RouteOf(m).(name := name)]
            && (forall n :: k'.IsExpensive(n) <==> k.IsExpensive(n) || (n == name && m.expensive))
  {
  }

  /** Whatever the order, the registry holds the configured models under their names with their flags. */
  lemma {:induction false} RegisteredContent(c: AppConfig, order: seq<string>)
    requires TypesKnown(c) && forall n | n in order :: n in c.models
    ensures var k := CatalogOf(c, order);
            && k.Named() && k.providers == ProvidersOf(c)
            && (forall n :: n in k.models <==> n in order)
            && (forall n | n in order :: k.models[n] == RouteOf(c.models[n]).(name := n))
            && (forall n :: k.IsExpensive(n) <==> n in order && c.models[n].expensive)
  {
    hide RegisterOne, RouteOf, ProvidersOf;
    if order != [] {
      var rest, last := order[..|order| - 1], order[|order| - 1];
      assert forall n :: n in order <==> n in rest || n == last;
      RegisteredContent(c, rest);
      RegisterOneContent(CatalogOf(c, rest), last, c.models[last]);
    }
  }

  /** The registry of a configuration, read off: each provider of the kind its type says, for the six types that are
      known; each model with the route and the flag it is configured with; and nothing else. */
  lemma RegistryHoldsConfig(c: AppConfig, order: seq<string>)
    requires IsOrder(order, c.models.Keys)
    ensures TypesKnown(c) <==> forall n | n in c.providers ::
              c.providers[n] in ["openai", "openrouter", "vllm", "lmstudio", "custom", "ollama"]
    ensures TypesKnown(c) ==>
              var k := CatalogOf(c, order);
              && k.providers.Keys == c.providers.Keys && k.models.Keys == c.models.Keys
              && (forall n | n in c.providers ::
                    k.providers[n] == Provider(n, if c.providers[n] == "ollama" then Ollama else OpenAICompatible))
              && (forall n | n in c.models ::
                    var m := c.models[n];
                    && k.models[n] == ModelRoute(n, m.provider, m.model, m.temperature, m.maxTokens)
                    && (k.IsExpensive(n) <==> m.expensive))
  {
    hide CatalogOf;
    if TypesKnown(c) {
      RegisteredContent(c, order);
    }
  }

  /** The default model is the last flagged one in the order, if it has a name. */
  lemma {:induction false} DefaultByOrder(c: AppConfig, order: seq<string>, i: nat)
    requires TypesKnown(c) && forall n | n in order :: n in c.models
    requires i < |order| && c.models[order[i]].isDefault && order[i] != ""
    requires forall j | i < j < |order| :: !c.models[order[j]].isDefault
    ensures CatalogOf(c, order).defaultModel == order[i]
  {
    var rest, last := order[..|order| - 1], order[|order| - 1];
    assert last in order && order[i] in order;
    assert forall n | n in rest :: n in order;
    if i < |order| - 1 {
      DefaultByOrder(c, rest, i);
    }
  }

  /** `d` is the default model whatever the order of registration. */
  ghost predicate AlwaysDefault(c: AppConfig, d: string)
    requires TypesKnown(c)
  {
    forall order | IsOrder(order, c.models.Keys) :: CatalogOf(c, order).defaultModel == d
  }

  predicate Flagged(c: AppConfig, n: string) {
    n in c.models && c.models[n].isDefault
  }

  predicate OneDefault(c: AppConfig) {
    forall m, n | m in c.models && n in c.models && Flagged(c, m) && Flagged(c, n) :: m == n
  }

  /** One model only is marked default, and if its name is empty there is no other model. */
  predicate DefaultSettled(c: AppConfig) {
    OneDefault(c) && (Flagged(c, "") ==> c.models.Keys == {""})
  }

  /** A sequence that visits `keys`, ending with a given one. */
  lemma {:induction false} OrderEndingWith(keys: set<string>, last: string) returns (order: seq<string>)
    requires last in keys
    ensures IsOrder(order, keys) && order[|order| - 1] == last
  {
    var todo := keys - {last};
    var front: seq<string> := [];
    while todo != {}
      invariant todo <= keys - {last}
      invariant IsOrder(front, keys - {last} - todo)
    {
      var n :| n in todo;
      front := front + [n];
      todo := todo - {n};
    }
    assert keys - {last} - todo == keys - {last};
    order := front + [last];
    assert forall n :: n in order <==> n in front || n == last;
  }

  lemma DefaultIsTheFlagged(c: AppConfig, order: seq<string>, flagged: string)
    requires TypesKnown(c) && IsOrder(order, c.models.Keys) && OneDefault(c)
    requires Flagged(c, flagged) && flagged != ""
    ensures CatalogOf(c, order).defaultModel == flagged
  {
    assert flagged in order;
    var i: nat :| i < |order| && order[i] == flagged;
    forall j | i < j < |order| ensures !c.models[order[j]].isDefault {
      assert order[j] in order;
    }
    DefaultByOrder(c, order, i);
  }

  /** A flagged model registered last is the default. */
  lemma LastFlagged(c: AppConfig, order: seq<string>)
    requires TypesKnown(c) && IsOrder(order, c.models.Keys)
    requires order != [] && Flagged(c, order[|order| - 1])
    ensures CatalogOf(c, order).defaultModel == order[|order| - 1]
  {
    assert forall n | n in order[..|order| - 1] :: n in order;
  }

  /** A flagged model without a name gives way to whatever is registered next. */
  lemma NamelessGivesWay(c: AppConfig, n: string) returns (order: seq<string>)
    requires TypesKnown(c) && Flagged(c, "") && n in c.models && n != ""
    ensures IsOrder(order, c.models.Keys) && CatalogOf(c, order).defaultModel == n
  {
    var front := OrderEndingWith(c.models.Keys - {n}, "");
    order := front + [n];
    assert order[..|order| - 1] == front;
    assert forall k :: k in order <==> k in front || k == n;
    assert front[..|front| - 1] <= front && forall k | k in front[..|front| - 1] :: k in front;
    assert CatalogOf(c, front).defaultModel == "";
  }

  lemma UnsettledDefault(c: AppConfig, d: string)
    requires TypesKnown(c) && !DefaultSettled(c)
    ensures !AlwaysDefault(c, d)
  {
    if !OneDefault(c) {
      var m, n :| m in c.models && n in c.models && Flagged(c, m) && Flagged(c, n) && m != n;
      var endsM := OrderEndingWith(c.models.Keys, m);
      var endsN := OrderEndingWith(c.models.Keys, n);
      LastFlagged(c, endsM);
      LastFlagged(c, endsN);
    } else {
      var n :| n in c.models && n != "";
      var endsN := NamelessGivesWay(c, n);
      var ends := OrderEndingWith(c.models.Keys, "");
      LastFlagged(c, ends);
    }
  }

  lemma SettledDefault(c: AppConfig, flagged: string)
    requires TypesKnown(c) && DefaultSettled(c) && Flagged(c, flagged)
    ensures AlwaysDefault(c, flagged)
  {
    forall order | IsOrder(order, c.models.Keys) ensures CatalogOf(c, order).defaultModel == flagged {
      if flagged != "" {
        DefaultIsTheFlagged(c, order, flagged);
      } else {
        assert "" in order;
        assert order[|order| - 1] in order;
        LastFlagged(c, order);
      }
    }
  }

  /** For a valid configuration, the registry's default model is the same for every order of registration exactly when
      one model only is marked default and it has a name (or is the only model); then it is that model. */
  lemma DefaultIndependentIff(c: AppConfig)
    requires Valid(c) && TypesKnown(c)
    ensures DefaultSettled(c) <==> exists d :: AlwaysDefault(c, d)
    ensures DefaultSettled(c) ==> forall n | Flagged(c, n) :: AlwaysDefault(c, n)
  {
    assert !Holds(c, NoDefaultModel);
    var flagged :| flagged in c.models && c.models[flagged].isDefault;
    assert Flagged(c, flagged);
    hide AlwaysDefault;
    if DefaultSettled(c) {
      forall n | Flagged(c, n) ensures AlwaysDefault(c, n) {
        SettledDefault(c, n);
      }
    } else {
      forall d ensures !AlwaysDefault(c, d) {
        UnsettledDefault(c, d);
      }
    }
  }

  /** A valid configuration builds a registry if every provider type is a known one, which validation does not ask. */
  lemma ValidBuilds(c: AppConfig, order: seq<string>)
    requires Valid(c) && TypesKnown(c) && IsOrder(order, c.models.Keys)
    ensures CatalogOf(c, order).Resolvable("")
  {
    RegisteredContent(c, order);
    DefaultRegistered(c, order);
    var d := CatalogOf(c, order).defaultModel;
    assert d in c.models by {
      assert !Holds(c, NoModels);
      var n :| n in c.models;
      assert n in order;
    }
    assert !Holds(c, UnknownProvider(d));
  }

  lemma {:induction false} DefaultRegistered(c: AppConfig, order: seq<string>)
    requires TypesKnown(c) && (forall n | n in order :: n in c.models)
    ensures order != [] ==> CatalogOf(c, order).defaultModel in order
    ensures order == [] ==> CatalogOf(c, order).defaultModel == ""
  {
    if order != [] {
      var rest, last := order[..|order| - 1], order[|order| - 1];
      assert forall n | n in rest :: n in order;
      assert last in order;
      DefaultRegistered(c, rest);
    }
  }

  /** With a valid configuration, the registry resolves exactly the configured ids and the empty id. */
  lemma ResolvesConfigured(c: AppConfig, order: seq<string>)
    requires Valid(c) && TypesKnown(c) && IsOrder(order, c.models.Keys)
    ensures CatalogOf(c, order).Named()
    ensures forall n :: CatalogOf(c, order).Resolvable(n) <==> n == "" || n in c.models
  {
    RegisteredContent(c, order);
    ValidBuilds(c, order);
    var k := CatalogOf(c, order);
    forall n ensures k.Resolvable(n) <==> n == "" || n in c.models {
      if n in c.models {
        assert !Holds(c, UnknownProvider(n));
      }
    }
  }

  lemma FallbacksAreConfigured(c: AppConfig)
    requires Valid(c)
    ensures forall fb | fb in c.strategy.fallbacks :: fb in c.models
  {
    assert forall fb | fb in c.strategy.fallbacks :: !Holds(c, UnknownFallback(fb));
  }

  /** With a valid configuration and the registry built from it, every role and every requested model id yields a
      route: the preferred id if it is configured, else the first fallback, else the registry default.  Only a model
      id that the request itself brings can be unknown. */
  lemma ValidSelectionIsTotal(c: AppConfig, order: seq<string>, role: string, override: string)
    requires Valid(c) && TypesKnown(c) && IsOrder(order, c.models.Keys)
    ensures var k := CatalogOf(c, order);
            var preferred := PreferredId(c.strategy, role, override);
            var id := if preferred != "" && preferred in c.models then preferred
                      else if c.strategy.fallbacks != [] then c.strategy.fallbacks[0]
                      else "";
            && k.Resolvable(id)
            && Unbudgeted(Engine(Some(k), c.strategy), role, override) == Choose(k, k.Resolve(id).value)
            && (preferred != "" && preferred !in c.models ==> preferred == override)
  {
    hide Holds, Valid, CatalogOf, PreferredId, Unbudgeted, Choose;
    FallbacksAreConfigured(c);
    ResolvesConfigured(c, order);
    PreferredIsKnown(c, role, override);
    FirstOfResolvable(CatalogOf(c, order), c.strategy, role, override);
  }

  /** With a valid configuration, budget left and a fallback other than the failed model, the fallback walk takes the
      first such fallback. */
  lemma ValidFallbackIsPicked(c: AppConfig, order: seq<string>, role: string, failed: string, used: nat)
    requires Valid(c) && TypesKnown(c) && IsOrder(order, c.models.Keys)
    requires !OverBudget(c.strategy, used) && NextFallback(c.strategy.fallbacks, failed) != ""
    ensures var k, fb := CatalogOf(c, order), NextFallback(c.strategy.fallbacks, failed);
            VerdictFor(Engine(Some(k), c.strategy), role, failed, used) == Picked(Usage(role, fb, k.IsExpensive(fb)))
  {
    hide CatalogOf, VerdictFor, NextFallback, Holds, Valid;
    FallbacksAreConfigured(c);
    ResolvesConfigured(c, order);
    FirstProbeAccepted(Engine(Some(CatalogOf(c, order)), c.strategy), role, failed, used);
  }

  /** Over a registry that resolves every fallback and has a default. */
  lemma FirstOfResolvable(k: Catalog, s: StrategyConfig, role: string, override: string)
    requires k.Resolvable("") && forall fb | fb in s.fallbacks :: k.Resolvable(fb)
    ensures var preferred := PreferredId(s, role, override);
            var id := if preferred != "" && k.Resolvable(preferred) then preferred
                      else if s.fallbacks != [] then s.fallbacks[0]
                      else "";
            k.Resolvable(id) && Unbudgeted(Engine(Some(k), s), role, override) == Choose(k, k.Resolve(id).value)
  {
    hide PreferredId;
    var preferred := PreferredId(s, role, override);
    var head := if preferred != "" then [preferred] else [];
    if preferred != "" && k.Resolvable(preferred) {
      assert Candidates(s, role, override)[0] == preferred;
    } else {
      FirstOfParts(k, head, s.fallbacks, "");
      if s.fallbacks != [] {
        assert s.fallbacks[0] in s.fallbacks;
      }
    }
  }

  lemma PreferredIsKnown(c: AppConfig, role: string, override: string)
    requires Valid(c)
    ensures var preferred := PreferredId(c.strategy, role, override);
            preferred != "" && preferred !in c.models ==> preferred == override
  {
    hide FirstNonEmpty, IsBlank, ToLower, TrimSpace;
    var r := ToLower(TrimSpace(role));
    var overridden := if r in c.strategy.overrides then c.strategy.overrides[r] else "";
    assert !Holds(c, UnknownOverride(overridden));
    assert RoleModel(r, c.strategy) in StrategyModels(c.strategy) by {
      var ids := StrategyModels(c.strategy);
      assert ids[1] == c.strategy.plannerModel && ids[2] == c.strategy.coderModel && ids[3] == c.strategy.criticModel;
    }
    assert !Holds(c, UnknownStrategyModel(RoleModel(r, c.strategy)));
    assert StrategyModels(c.strategy)[0] == c.strategy.defaultModel;
    assert !Holds(c, UnknownStrategyModel(c.strategy.defaultModel));
  }
}
