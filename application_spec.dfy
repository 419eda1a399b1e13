/** The persisted record of an Application: a mutable object whose fields
    start at fixed defaults and are overwritten by setters; the reconciler
    updates its status and url in place. */
module AppSpecs {
  import opened K8s

  /** One declared module of an application: a gateway or a microservice. */
  datatype ModuleDescr = ModuleDescr(name: string, moduleType: string, port: Option<string>)

  /** The structured definition the descriptor parser produces. */
  datatype AppDefinition = AppDefinition(name: string, version: string, jdlContent: string, modules: seq<ModuleDescr>)

  const DefaultRegistry := "jhipster-registry"
  const DefaultGateway := "gateway"
  const UnknownStatus := "UNKNOWN"
  const NoUrlYet := "NO URL YET."

  /** The value of an ApplicationSpec at one moment, as it goes over the wire. */
  datatype SpecState = SpecState(
    version: Option<string>,
    selector: Option<string>,
    modules: Option<set<ModuleDescr>>,
    registry: string,
    gateway: string,
    status: string,
    url: string,
    microservices: seq<string>,
    definition: Option<AppDefinition>)

  class ApplicationSpec {
    var version: Option<string>
    var selector: Option<string>
    var modules: Option<set<ModuleDescr>>
    var registry: string
    var gateway: string
    var status: string
    var url: string
    /** The declared microservice names the health check looks for. */
    var microservices: seq<string>
    /** The definition the application was created from. */
    var definition: Option<AppDefinition>

    function Value(): SpecState
      reads this
    {
      SpecState(version, selector, modules, registry, gateway, status, url, microservices, definition)
    }

    constructor ()
      ensures version == None && selector == None && modules == None
      ensures registry == DefaultRegistry && gateway == DefaultGateway
      ensures status == UnknownStatus && url == NoUrlYet
      ensures microservices == [] && definition == None
    {
      version, selector, modules := None, None, None;
      registry, gateway := DefaultRegistry, DefaultGateway;
      status, url := UnknownStatus, NoUrlYet;
      microservices, definition := [], None;
    }

    method GetVersion() returns (v: Option<string>)
      ensures v == version
    {
      v := version;
    }

    method SetVersion(v: Option<string>)
      modifies this
      ensures Value() == old(Value()).(version := v)
    {
      version := v;
    }

    method GetSelector() returns (s: Option<string>)
      ensures s == selector
    {
      s := selector;
    }

    method SetSelector(s: Option<string>)
      modifies this
      ensures Value() == old(Value()).(selector := s)
    {
      selector := s;
    }

    method GetModules() returns (ms: Option<set<ModuleDescr>>)
      ensures ms == modules
    {
      ms := modules;
    }

    method SetModules(ms: Option<set<ModuleDescr>>)
      modifies this
      ensures Value() == old(Value()).(modules := ms)
    {
      modules := ms;
    }

    method GetUrl() returns (u: string)
      ensures u == url
    {
      u := url;
    }

    method SetUrl(u: string)
      modifies this
      ensures Value() == old(Value()).(url := u)
    {
      url := u;
    }

    method GetStatus() returns (s: string)
      ensures s == status
    {
      s := status;
    }

    method SetStatus(s: string)
      modifies this
      ensures Value() == old(Value()).(status := s)
    {
      status := s;
    }

    method GetRegistry() returns (r: string)
      ensures r == registry
    {
      r := registry;
    }

    method SetRegistry(r: string)
      modifies this
      ensures Value() == old(Value()).(registry := r)
    {
      registry := r;
    }

    method GetGateway() returns (g: string)
      ensures g == gateway
    {
      g := gateway;
    }

    method SetGateway(g: string)
      modifies this
      ensures Value() == old(Value()).(gateway := g)
    {
      gateway := g;
    }

    method GetMicroservices() returns (ms: seq<string>)
      ensures ms == microservices
    {
      ms := microservices;
    }

    method SetAppDefinition(d: AppDefinition)
      modifies this
      ensures Value() == old(Value()).(definition := Some(d))
    {
      definition := Some(d);
    }
  }

  /** Setting the status, then the url, leaves every other field as it was. */
  method StatusThenUrl(spec: ApplicationSpec, s: string, u: string)
    modifies spec
    ensures spec.Value() == old(spec.Value()).(status := s, url := u)
    ensures spec.version == old(spec.version) && spec.modules == old(spec.modules)
    ensures spec.registry == old(spec.registry) && spec.gateway == old(spec.gateway)
  {
    spec.SetStatus(s);
    spec.SetUrl(u);
  }
}
