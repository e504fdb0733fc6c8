/** The model registry: providers, model routes, the default model and the expensive flags. */
module ModelRegistry {
  import opened Outcomes

  datatype ProviderKind = OpenAICompatible | Ollama

  datatype Provider = Provider(name: string, kind: ProviderKind)

  datatype ModelRoute = ModelRoute(name: string, provider: string, model: string, temperature: real, maxTokens: int)

  datatype Resolved = Resolved(provider: Provider, route: ModelRoute)

  /** What a registry holds, as a value. */
  datatype Catalog = Catalog(
    providers: map<string, Provider>,
    models: map<string, ModelRoute>,
    defaultModel: string,
    expensive: map<string, bool>)
  {
    /** Registration stores each route under its own name. */
    ghost predicate Named() {
      forall id | id in models :: models[id].name == id
    }

    predicate IsExpensive(id: string) {
      id in expensive && expensive[id]
    }

    predicate Resolvable(id: string) {
      var key := if id == "" then defaultModel else id;
      key in models && models[key].provider in providers
    }

    function Resolve(id: string): (r: Result<Resolved>)
      ensures r.Ok? <==> Resolvable(id)
      ensures Named() && r.Ok? ==> r.value.route.name == if id == "" then defaultModel else id
    {
      var key := if id == "" then defaultModel else id;
      if key !in models then
        Err("model is not registered")
      else if models[key].provider !in providers then
        Err("provider is not registered")
      else
        Ok(Resolved(providers[models[key].provider], models[key]))
    }

    function WithModel(name: string, route: ModelRoute, isDefault: bool): Catalog {
      this.(models := models[name := route.(name := name)],
            defaultModel := if isDefault || defaultModel == "" then name else defaultModel)
    }
  }

  const EMPTY := Catalog(map[], map[], "", map[])

  class Registry {
    var providers: map<string, Provider>
    var models: map<string, ModelRoute>
    var defaultModel: string
    var expensive: map<string, bool>

    function View(): Catalog
      reads this
    {
      Catalog(providers, models, defaultModel, expensive)
    }

    constructor ()
      ensures View() == EMPTY
    {
      providers, models, defaultModel, expensive := map[], map[], "", map[];
    }

    method RegisterProvider(name: string, p: Provider)
      modifies this
      ensures View() == old(View()).(providers := old(providers)[name := p])
    {
      providers := providers[name := p];
    }

    method RegisterModel(name: string, route: ModelRoute, isDefault: bool)
      modifies this
      ensures View() == old(View()).WithModel(name, route, isDefault)
      ensures old(View()).Named() ==> View().Named()
    {
      models := models[name := route.(name := name)];
      if isDefault || defaultModel == "" {
        defaultModel := name;
      }
    }

    method MarkExpensive(id: string, flag: bool)
      modifies this
      ensures View() == old(View()).(expensive := old(expensive)[id := flag])
      ensures forall x :: View().IsExpensive(x) <==> if x == id then flag else old(View()).IsExpensive(x)
    {
      expensive := expensive[id := flag];
    }
  }
}
