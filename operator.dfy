/** The controller core: discovery of the four required resource-type
    definitions, loading of existing instances, watch registration and the
    handlers the watches drive, reconciliation of every tracked application,
    and creation/deletion of whole applications. The in-memory desired state
    is kept in maps keyed by name; the cluster is a `Cluster` whose write
    calls are logged. */
module Operator {
  import opened K8s
  import opened AppSpecs
  import opened Client

  const HealthyStatus := "HEALTHY"
  const UnhealthyStatus := "UNHEALTHY"
  const NotAvailable := "N/A"
  const RegistryName := "jhipster-registry"
  const RegistryPort := "8761"
  const ServiceVersion := "1.0"
  const DefaultGatewayPort := "8080"
  const ForegroundDeletion := "foregroundDeletion"
  const GatewayKindName := "Gateway"

  // ---------------------------------------------------------------------
  // Required-type discovery

  /** The definition has metadata and that metadata carries `name`. */
  predicate Names(crd: Crd, name: string) {
    crd.metadata.Some? && crd.metadata.value.name == Some(name)
  }

  predicate Listed(items: seq<Crd>, name: string) {
    exists i :: 0 <= i < |items| && Names(items[i], name)
  }

  /** A found-slot after scanning `items`: the last definition of that name, or the slot's old value. */
  function LastMatch(items: seq<Crd>, name: string, prior: Option<Crd>): Option<Crd> {
    if items == [] then prior
    else if Names(items[|items| - 1], name) then Some(items[|items| - 1])
    else LastMatch(items[..|items| - 1], name, prior)
  }

  /** A found-slot after discovery; a listing that threw leaves it alone. */
  function Scan(listing: Option<seq<Crd>>, name: string, prior: Option<Crd>): Option<Crd> {
    match listing
    case None => prior
    case Some(items) => LastMatch(items, name, prior)
  }

  lemma {:induction false} LastMatchFound(items: seq<Crd>, name: string, prior: Option<Crd>)
    ensures LastMatch(items, name, prior).Some? <==> prior.Some? || Listed(items, name)
    ensures LastMatch(items, name, prior) == prior
         || (LastMatch(items, name, prior).value in items && Names(LastMatch(items, name, prior).value, name))
  {
    if items != [] {
      var p, last := items[..|items| - 1], items[|items| - 1];
      LastMatchFound(p, name, prior);
      if Names(last, name) {
        assert Names(items[|items| - 1], name);
      } else {
        if Listed(items, name) {
          var i :| 0 <= i < |items| && Names(items[i], name);
          assert p[i] == items[i];
        }
        if Listed(p, name) {
          var i :| 0 <= i < |p| && Names(p[i], name);
          assert items[i] == p[i];
        }
      }
    }
  }

  /** Starting from empty slots, discovery fills all four exactly when all four names are listed. */
  lemma FreshDiscovery(items: seq<Crd>, ms: string, gw: string, rg: string, ap: string)
    ensures (LastMatch(items, ms, None).Some? && LastMatch(items, gw, None).Some?
             && LastMatch(items, rg, None).Some? && LastMatch(items, ap, None).Some?)
        <==> (Listed(items, ms) && Listed(items, gw) && Listed(items, rg) && Listed(items, ap))
  {
    LastMatchFound(items, ms, None);
    LastMatchFound(items, gw, None);
    LastMatchFound(items, rg, None);
    LastMatchFound(items, ap, None);
  }

  // ---------------------------------------------------------------------
  // Loading and watching

  /** A kind's cursor after loading: the first listed item's version, or unchanged. */
  function FirstVersion<S>(items: seq<Resource<S>>, prior: Option<string>): Option<string> {
    if items == [] then prior else items[0].metadata.resourceVersion
  }

  /** Loading one kind: a non-empty listing moves the cursor to its first item's version and puts every
      item into the store under its name. */
  method LoadKind<S>(m: map<string, Resource<S>>, cursor: Option<string>, items: seq<Resource<S>>)
    returns (r: map<string, Resource<S>>, v: Option<string>)
    ensures r == AddAll(m, items) && v == FirstVersion(items, cursor)
  {
    r, v := m, cursor;
    if items != [] {
      v := items[0].metadata.resourceVersion;
      r := AddEach(m, items);
    }
  }

  /** The watches registration opens, in registration order, given which are already registered. */
  function WatchCalls(msDone: bool, rgDone: bool, gwDone: bool, apDone: bool,
                      msFrom: Option<string>, rgFrom: Option<string>, gwFrom: Option<string>, apFrom: Option<string>): seq<Call>
  {
    (if msDone then [] else [WatchOpened(MicroServiceKind, msFrom)])
    + (if rgDone then [] else [WatchOpened(RegistryKind, rgFrom)])
    + (if gwDone then [] else [WatchOpened(GatewayKind, gwFrom)])
    + (if apDone then [] else [WatchOpened(ApplicationKind, apFrom)])
  }

  /** Each kind is watched at most once, and only the kinds not yet registered. */
  lemma WatchCallsOnlyPending(msDone: bool, rgDone: bool, gwDone: bool, apDone: bool,
                              msFrom: Option<string>, rgFrom: Option<string>, gwFrom: Option<string>, apFrom: Option<string>)
    ensures var calls := WatchCalls(msDone, rgDone, gwDone, apDone, msFrom, rgFrom, gwFrom, apFrom);
      && (forall i :: 0 <= i < |calls| ==> calls[i].WatchOpened?)
      && (forall i, j :: 0 <= i < j < |calls| ==> calls[i].kind != calls[j].kind)
      && (WatchOpened(MicroServiceKind, msFrom) in calls <==> !msDone)
      && (WatchOpened(RegistryKind, rgFrom) in calls <==> !rgDone)
      && (WatchOpened(GatewayKind, gwFrom) in calls <==> !gwDone)
      && (WatchOpened(ApplicationKind, apFrom) in calls <==> !apDone)
      && (msDone && rgDone && gwDone && apDone ==> calls == [])
  {
  }

  /** How one MicroService, Gateway or Registry event changes that kind's collection. */
  function ApplyServiceEvent(m: map<string, Service>, action: Action, s: Service): (r: map<string, Service>)
    ensures action == Added ==> s.metadata.name in r && r[s.metadata.name] == s
    ensures action == Deleted ==> s.metadata.name !in r
    ensures action == Added || action == Deleted ==> r.Keys - {s.metadata.name} == m.Keys - {s.metadata.name}
    ensures forall k :: k in r && k != s.metadata.name ==> k in m && r[k] == m[k]
    ensures action != Added && action != Deleted ==> r == m
  {
    if action == Added then m[s.metadata.name := s]
    else if action == Deleted then m - {s.metadata.name}
    else m
  }

  /** An ADDED followed by a DELETED for the same resource leaves its name out of the collection. */
  lemma AddedThenDeleted(m: map<string, Service>, s: Service)
    ensures ApplyServiceEvent(ApplyServiceEvent(m, Added, s), Deleted, s) == m - {s.metadata.name}
  {
  }

  // ---------------------------------------------------------------------
  // The store's invariant

  /** Every application is stored under its own name, and no two names share a spec object. */
  ghost predicate StoreValid(apps: map<string, Application>) {
    && (forall n :: n in apps ==> apps[n].metadata.name == n)
    && (forall n, k :: n in apps && k in apps && n != k && apps[n].spec != null ==> apps[n].spec != apps[k].spec)
  }

  /** The spec objects of listed applications are their own: not shared with each other or with the store. */
  ghost predicate FreshSpecs(apps: map<string, Application>, items: seq<Application>) {
    && (forall i, j :: 0 <= i < j < |items| && items[i].spec != null ==> items[i].spec != items[j].spec)
    && (forall i, n :: 0 <= i < |items| && n in apps && items[i].spec != null ==> items[i].spec != apps[n].spec)
  }

  /** A received application's spec is not held by the store under another name. */
  ghost predicate SpecUnshared(apps: map<string, Application>, app: Application) {
    app.spec == null || forall n :: n in apps && n != app.metadata.name ==> apps[n].spec != app.spec
  }

  lemma {:induction false} LoadKeepsValid(m: map<string, Application>, items: seq<Application>)
    requires StoreValid(m) && FreshSpecs(m, items)
    ensures StoreValid(AddAll(m, items))
  {
    if items != [] {
      var p, last := items[..|items| - 1], items[|items| - 1];
      assert forall i :: 0 <= i < |p| ==> p[i] == items[i];
      LoadKeepsValid(m, p);
      var q := AddAll(m, p);
      forall k | k in q && k != last.metadata.name && last.spec != null
        ensures q[k].spec != last.spec
      {
        AddAllValues(m, p, k);
      }
      assert AddAll(m, items) == q[last.metadata.name := last];
    }
  }

  // ---------------------------------------------------------------------
  // Reconciliation

  /** The health rule: every declared microservice name is present in the store. */
  predicate IsAppHealthy(v: SpecState, microServices: map<string, Service>) {
    forall m :: m in v.microservices ==> m in microServices
  }

  /** A microservice event moves an application's health only through the name it carries: ADDED never
      makes a healthy application unhealthy, DELETED of a declared name makes it unhealthy, and DELETED
      of any other name leaves its health as it was. */
  lemma HealthUnderServiceEvents(v: SpecState, microServices: map<string, Service>, action: Action, s: Service)
    ensures action == Added && IsAppHealthy(v, microServices) ==>
              IsAppHealthy(v, ApplyServiceEvent(microServices, action, s))
    ensures action == Deleted && s.metadata.name in v.microservices ==>
              !IsAppHealthy(v, ApplyServiceEvent(microServices, action, s))
    ensures action == Deleted && s.metadata.name !in v.microservices ==>
              (IsAppHealthy(v, ApplyServiceEvent(microServices, action, s)) <==> IsAppHealthy(v, microServices))
  {
    var r := ApplyServiceEvent(microServices, action, s);
    if action == Deleted && s.metadata.name !in v.microservices {
      forall m | m in v.microservices ensures m in r <==> m in microServices {
        assert m != s.metadata.name;
        assert m in r.Keys - {s.metadata.name} <==> m in microServices.Keys - {s.metadata.name};
      }
    }
  }

  /** Java's string concatenation prints a null version as "null". */
  function VersionText(v: Option<string>): string {
    match v
    case Some(s) => s
    case None => "null"
  }

  function AppUrl(ip: string, name: string, version: Option<string>): string {
    "http://" + ip + "/apps/" + name + "/" + VersionText(version) + "/"
  }

  /** The spec value one reconciliation pass leaves behind for application `name`. */
  function Reconciled(name: string, v: SpecState, microServices: map<string, Service>, ip: string): (r: SpecState)
    ensures r.status == HealthyStatus <==> IsAppHealthy(v, microServices)
    ensures r.status == UnhealthyStatus <==> !IsAppHealthy(v, microServices)
    ensures r.url == NotAvailable <==> !IsAppHealthy(v, microServices)
    ensures IsAppHealthy(v, microServices) ==> r.url == AppUrl(ip, name, v.version)
    ensures r == v.(status := r.status, url := r.url)
  {
    if IsAppHealthy(v, microServices) then v.(status := HealthyStatus, url := AppUrl(ip, name, v.version))
    else v.(status := UnhealthyStatus, url := NotAvailable)
  }

  /** A second pass over an unchanged store and address changes nothing. */
  lemma ReconcileIdempotent(name: string, v: SpecState, microServices: map<string, Service>, ip: string)
    ensures IsAppHealthy(Reconciled(name, v, microServices, ip), microServices) == IsAppHealthy(v, microServices)
    ensures Reconciled(name, Reconciled(name, v, microServices, ip), microServices, ip) == Reconciled(name, v, microServices, ip)
  {
  }

  function ReconciledAll(specs: map<string, SpecState>, microServices: map<string, Service>, ip: string): map<string, SpecState> {
    map n | n in specs :: Reconciled(n, specs[n], microServices, ip)
  }

  /** The url map after the applications of `order` recorded theirs, in order: healthy ones overwrite their entry. */
  function RecordUrls(urls: map<string, string>, order: seq<string>, specs: map<string, SpecState>,
                      microServices: map<string, Service>, ip: string): map<string, string>
    requires forall n :: n in order ==> n in specs
  {
    if order == [] then urls
    else
      var n := order[|order| - 1];
      var prev := RecordUrls(urls, order[..|order| - 1], specs, microServices, ip);
      if IsAppHealthy(specs[n], microServices) then prev[n := AppUrl(ip, n, specs[n].version)] else prev
  }

  /** A name has a url afterwards exactly when it had one or a healthy pass recorded one; recorded ones
      point at the application's versioned path, the others are untouched. */
  lemma {:induction false} RecordUrlsMeaning(urls: map<string, string>, order: seq<string>, specs: map<string, SpecState>,
                                             microServices: map<string, Service>, ip: string)
    requires forall n :: n in order ==> n in specs
    ensures forall k :: k in RecordUrls(urls, order, specs, microServices, ip)
                   <==> k in urls || (k in order && IsAppHealthy(specs[k], microServices))
    ensures forall k :: k in order && IsAppHealthy(specs[k], microServices) ==>
              RecordUrls(urls, order, specs, microServices, ip)[k] == AppUrl(ip, k, specs[k].version)
    ensures forall k :: k in urls && !(k in order && IsAppHealthy(specs[k], microServices)) ==>
              RecordUrls(urls, order, specs, microServices, ip)[k] == urls[k]
  {
    if order != [] {
      var p := order[..|order| - 1];
      RecordUrlsMeaning(urls, p, specs, microServices, ip);
      assert order == p + [order[|order| - 1]];
    }
  }

  /** One createOrReplace per application of `order`, in that order, carrying its spec value from `specs`. */
  function Upserts(apps: map<string, Application>, order: seq<string>, specs: map<string, SpecState>): seq<Call>
    requires forall n :: n in order ==> n in apps && n in specs
  {
    if order == [] then []
    else
      var n := order[|order| - 1];
      Upserts(apps, order[..|order| - 1], specs) + [AppUpserted(Resource(apps[n].metadata, Some(specs[n])))]
  }

  /** The i-th write-back is the createOrReplace of the i-th application of `order`. */
  lemma {:induction false} UpsertsAt(apps: map<string, Application>, order: seq<string>, specs: map<string, SpecState>)
    requires forall n :: n in order ==> n in apps && n in specs
    ensures |Upserts(apps, order, specs)| == |order|
    ensures forall i :: 0 <= i < |order| ==>
              Upserts(apps, order, specs)[i] == AppUpserted(Resource(apps[order[i]].metadata, Some(specs[order[i]])))
  {
    if order != [] {
      var p := order[..|order| - 1];
      assert forall i :: 0 <= i < |p| ==> p[i] == order[i];
      UpsertsAt(apps, p, specs);
    }
  }

  predicate Distinct(s: seq<string>) {
    forall i, j :: 0 <= i < j < |s| ==> s[i] != s[j]
  }

  // ---------------------------------------------------------------------
  // Creating an application

  function OwnerOf(stored: StoredApp): OwnerReference {
    OwnerReference(stored.uid, stored.name, stored.kind, stored.apiVersion, true, true)
  }

  function GatewayPort(port: Option<string>): Option<string> {
    if port == None || port == Some("") then Some(DefaultGatewayPort) else port
  }

  /** The create call for one declared module. */
  function ModuleCall(md: ModuleDescr, kindOf: string -> string, owner: OwnerReference, labels: map<string, string>): Call {
    var meta := ObjectMeta(md.name, None, None, labels, [owner], [ForegroundDeletion], None);
    if kindOf(md.moduleType) == GatewayKindName then
      ServiceCreated(GatewayKind, Resource(meta, Some(ServiceSpec(md.name, ServiceVersion, GatewayPort(md.port)))))
    else
      ServiceCreated(MicroServiceKind, Resource(meta, Some(ServiceSpec(md.name, ServiceVersion, md.port))))
  }

  function ModuleCalls(mods: seq<ModuleDescr>, kindOf: string -> string, owner: OwnerReference, labels: map<string, string>): seq<Call> {
    if mods == [] then []
    else ModuleCalls(mods[..|mods| - 1], kindOf, owner, labels) + [ModuleCall(mods[|mods| - 1], kindOf, owner, labels)]
  }

  lemma {:induction false} ModuleCallsAt(mods: seq<ModuleDescr>, kindOf: string -> string, owner: OwnerReference, labels: map<string, string>)
    ensures |ModuleCalls(mods, kindOf, owner, labels)| == |mods|
    ensures forall i :: 0 <= i < |mods| ==> ModuleCalls(mods, kindOf, owner, labels)[i] == ModuleCall(mods[i], kindOf, owner, labels)
  {
    if mods != [] {
      var p := mods[..|mods| - 1];
      ModuleCallsAt(p, kindOf, owner, labels);
      assert forall i :: 0 <= i < |p| ==> p[i] == mods[i];
    }
  }

  /** The spec value of a freshly created application. */
  function NewAppSpec(def: AppDefinition): SpecState {
    SpecState(Some(def.version), None, None, DefaultRegistry, DefaultGateway, UnknownStatus, NoUrlYet, [], Some(def))
  }

  /** The create calls `newApp` issues, in order. */
  function NewAppCalls(def: AppDefinition, kindOf: string -> string, stored: StoredApp): seq<Call> {
    var labels := map[AppLabel := def.name];
    var owner := OwnerOf(stored);
    var appMeta := ObjectMeta(def.name, None, None, map[], [], [ForegroundDeletion], Some(def.jdlContent));
    var registryMeta := ObjectMeta(RegistryName, None, None, labels, [owner], [ForegroundDeletion], None);
    [AppCreated(Resource(appMeta, Some(NewAppSpec(def)))),
     ServiceCreated(RegistryKind, Resource(registryMeta, Some(ServiceSpec(RegistryName, ServiceVersion, Some(RegistryPort)))))]
    + ModuleCalls(def.modules, kindOf, owner, labels)
  }

  /** A subordinate points at the stored application, carries its label and the cascading finalizer. */
  predicate OwnedBy(r: Service, stored: StoredApp, app: string) {
    && r.metadata.ownerReferences
       == [OwnerReference(stored.uid, stored.name, stored.kind, stored.apiVersion, true, true)]
    && r.metadata.labels == map[AppLabel := app]
    && r.metadata.finalizers == [ForegroundDeletion]
  }

  /** The call creates the Gateway or MicroService the classifier picks for `md`, with its port rule. */
  predicate CreatesModule(c: Call, md: ModuleDescr, kindOf: string -> string, stored: StoredApp, app: string) {
    && c.ServiceCreated?
    && c.service.metadata.name == md.name
    && OwnedBy(c.service, stored, app)
    && c.service.spec.Some?
    && c.service.spec.value.serviceName == md.name
    && c.service.spec.value.serviceVersion == ServiceVersion
    && (if kindOf(md.moduleType) == GatewayKindName
        then c.kind == GatewayKind
             && c.service.spec.value.servicePort
                == (if md.port.None? || md.port.value == "" then Some(DefaultGatewayPort) else md.port)
        else c.kind == MicroServiceKind && c.service.spec.value.servicePort == md.port)
  }

  /** One Application, then the fixed Registry, then one Gateway or MicroService per module in order. */
  lemma NewAppShape(def: AppDefinition, kindOf: string -> string, stored: StoredApp)
    ensures var calls := NewAppCalls(def, kindOf, stored);
      && |calls| == |def.modules| + 2
      && calls[0].AppCreated?
      && calls[0].app.metadata.name == def.name
      && calls[0].app.metadata.finalizers == [ForegroundDeletion]
      && calls[0].app.metadata.jdl == Some(def.jdlContent)
      && calls[0].app.spec.Some?
      && calls[0].app.spec.value.version == Some(def.version)
      && calls[0].app.spec.value.status == UnknownStatus
      && calls[0].app.spec.value.definition == Some(def)
      && calls[1].ServiceCreated? && calls[1].kind == RegistryKind
      && calls[1].service.metadata.name == RegistryName
      && calls[1].service.spec == Some(ServiceSpec(RegistryName, ServiceVersion, Some(RegistryPort)))
      && OwnedBy(calls[1].service, stored, def.name)
      && forall i :: 0 <= i < |def.modules| ==> CreatesModule(calls[i + 2], def.modules[i], kindOf, stored, def.name)
  {
    ModuleCallsAt(def.modules, kindOf, OwnerOf(stored), map[AppLabel := def.name]);
  }

  /** The "store" example: a microservice keeps its port, a gateway with an empty port gets 8080. */
  lemma StoreExample(kindOf: string -> string, stored: StoredApp)
    requires kindOf("microservice") != GatewayKindName && kindOf("gateway") == GatewayKindName
    requires stored.name == "store"
    ensures var def := AppDefinition("store", "1.0", "", [ModuleDescr("catalog", "microservice", Some("8081")),
                                                          ModuleDescr("web", "gateway", Some(""))]);
      var calls := NewAppCalls(def, kindOf, stored);
      && |calls| == 4
      && (forall i :: 1 <= i < 4 ==> calls[i].ServiceCreated? && OwnedBy(calls[i].service, stored, "store"))
      && calls[2].kind == MicroServiceKind && calls[2].service.metadata.name == "catalog"
      && calls[2].service.spec == Some(ServiceSpec("catalog", ServiceVersion, Some("8081")))
      && calls[3].kind == GatewayKind && calls[3].service.metadata.name == "web"
      && calls[3].service.spec == Some(ServiceSpec("web", ServiceVersion, Some("8080")))
  {
    var def := AppDefinition("store", "1.0", "", [ModuleDescr("catalog", "microservice", Some("8081")),
                                                  ModuleDescr("web", "gateway", Some(""))]);
    NewAppShape(def, kindOf, stored);
    var calls := NewAppCalls(def, kindOf, stored);
    assert CreatesModule(calls[2], def.modules[0], kindOf, stored, def.name);
    assert CreatesModule(calls[3], def.modules[1], kindOf, stored, def.name);
  }

  // ---------------------------------------------------------------------
  // The operator

  class AppsOperator {
    var on: bool
    var initDone: bool
    var crdsFound: bool

    var microServiceCrd: Option<Crd>
    var gatewayCrd: Option<Crd>
    var registryCrd: Option<Crd>
    var applicationCrd: Option<Crd>

    var microServiceWatchRegistered: bool
    var gatewayWatchRegistered: bool
    var registryWatchRegistered: bool
    var applicationWatchRegistered: bool

    var appsResourceVersion: Option<string>
    var microServicesResourceVersion: Option<string>
    var registriesResourceVersion: Option<string>
    var gatewaysResourceVersion: Option<string>

    /** The in-memory desired state: applications, subordinates and urls, by name. */
    var apps: map<string, Application>
    var microServices: map<string, Service>
    var gateways: map<string, Service>
    var registries: map<string, Service>
    var appUrls: map<string, string>

    const cluster: Cluster
    /** The names of the four required resource-type definitions. */
    const microServiceCrdName: string
    const gatewayCrdName: string
    const registryCrdName: string
    const applicationCrdName: string

    ghost predicate Valid()
      reads this`apps
    {
      StoreValid(apps)
    }

    /** The spec objects of the tracked applications. */
    ghost function Specs(): set<ApplicationSpec?>
      reads this`apps
    {
      set n | n in apps && apps[n].spec != null :: apps[n].spec
    }

    ghost function SpecValues(): map<string, SpecState>
      reads this`apps, Specs()
    {
      map n | n in apps && apps[n].spec != null :: apps[n].spec.Value()
    }

    predicate AllCrdsFound()
      reads this`microServiceCrd, this`applicationCrd, this`gatewayCrd, this`registryCrd
    {
      microServiceCrd.Some? && applicationCrd.Some? && gatewayCrd.Some? && registryCrd.Some?
    }

    predicate AllWatchesRegistered()
      reads this`applicationWatchRegistered, this`microServiceWatchRegistered
      reads this`gatewayWatchRegistered, this`registryWatchRegistered
    {
      applicationWatchRegistered && microServiceWatchRegistered && gatewayWatchRegistered && registryWatchRegistered
    }

    /** The four found-slots are what scanning the cluster's listing over the given starting slots yields. */
    ghost predicate ScannedFrom(microServiceCrd0: Option<Crd>, gatewayCrd0: Option<Crd>,
                                registryCrd0: Option<Crd>, applicationCrd0: Option<Crd>)
      reads this`microServiceCrd, this`gatewayCrd, this`registryCrd, this`applicationCrd, cluster`crdListing
    {
      (microServiceCrd, gatewayCrd, registryCrd, applicationCrd)
      == (Scan(cluster.crdListing, microServiceCrdName, microServiceCrd0),
          Scan(cluster.crdListing, gatewayCrdName, gatewayCrd0),
          Scan(cluster.crdListing, registryCrdName, registryCrd0),
          Scan(cluster.crdListing, applicationCrdName, applicationCrd0))
    }

    /** The call log is `calls0` followed by a watch, from its kind's cursor, for every kind not yet watched. */
    ghost predicate WatchedFrom(calls0: seq<Call>, microServiceDone: bool, registryDone: bool,
                                gatewayDone: bool, applicationDone: bool)
      reads this`microServicesResourceVersion, this`registriesResourceVersion
      reads this`gatewaysResourceVersion, this`appsResourceVersion, cluster`calls
    {
      cluster.calls == calls0
        + WatchCalls(microServiceDone, registryDone, gatewayDone, applicationDone,
                     microServicesResourceVersion, registriesResourceVersion,
                     gatewaysResourceVersion, appsResourceVersion)
    }

    /** The four collections and cursors are what loading the cluster's listings over the given
        starting values yields. */
    ghost predicate LoadedFrom(apps0: map<string, Application>, microServices0: map<string, Service>,
                               gateways0: map<string, Service>, registries0: map<string, Service>,
                               appsVersion0: Option<string>, microServicesVersion0: Option<string>,
                               gatewaysVersion0: Option<string>, registriesVersion0: Option<string>)
      reads this`apps, this`microServices, this`gateways, this`registries
      reads this`appsResourceVersion, this`microServicesResourceVersion
      reads this`gatewaysResourceVersion, this`registriesResourceVersion
      reads cluster`applications, cluster`microServices, cluster`gateways, cluster`registries
    {
      (apps, microServices, gateways, registries,
       appsResourceVersion, microServicesResourceVersion, gatewaysResourceVersion, registriesResourceVersion)
      == (AddAll(apps0, cluster.applications), AddAll(microServices0, cluster.microServices),
          AddAll(gateways0, cluster.gateways), AddAll(registries0, cluster.registries),
          FirstVersion(cluster.applications, appsVersion0),
          FirstVersion(cluster.microServices, microServicesVersion0),
          FirstVersion(cluster.gateways, gatewaysVersion0),
          FirstVersion(cluster.registries, registriesVersion0))
    }

    constructor (cluster: Cluster, microServiceCrdName: string, gatewayCrdName: string,
                 registryCrdName: string, applicationCrdName: string)
      ensures this.cluster == cluster
      ensures this.microServiceCrdName == microServiceCrdName && this.gatewayCrdName == gatewayCrdName
      ensures this.registryCrdName == registryCrdName && this.applicationCrdName == applicationCrdName
      ensures on && !initDone && !crdsFound
      ensures microServiceCrd == None && gatewayCrd == None && registryCrd == None && applicationCrd == None
      ensures !microServiceWatchRegistered && !gatewayWatchRegistered
      ensures !registryWatchRegistered && !applicationWatchRegistered
      ensures appsResourceVersion == None && microServicesResourceVersion == None
      ensures registriesResourceVersion == None && gatewaysResourceVersion == None
      ensures apps == map[] && microServices == map[] && gateways == map[] && registries == map[] && appUrls == map[]
      ensures Valid()
    {
      this.cluster := cluster;
      this.microServiceCrdName, this.gatewayCrdName := microServiceCrdName, gatewayCrdName;
      this.registryCrdName, this.applicationCrdName := registryCrdName, applicationCrdName;
      on, initDone, crdsFound := true, false, false;
      microServiceCrd, gatewayCrd, registryCrd, applicationCrd := None, None, None, None;
      microServiceWatchRegistered, gatewayWatchRegistered := false, false;
      registryWatchRegistered, applicationWatchRegistered := false, false;
      appsResourceVersion, microServicesResourceVersion := None, None;
      registriesResourceVersion, gatewaysResourceVersion := None, None;
      apps, microServices, gateways, registries, appUrls := map[], map[], map[], map[], map[];
    }

    method IsOn() returns (r: bool)
      ensures r == on
    {
      r := on;
    }

    method SetOn(value: bool)
      modifies this`on
      ensures on == value
    {
      on := value;
    }

    method IsInitDone() returns (r: bool)
      ensures r == initDone
    {
      r := initDone;
    }

    /** Scans the listed definitions into the four found-slots; succeeds only when all four are filled. */
    method AreRequiredCRDsPresent() returns (found: bool)
      modifies this`microServiceCrd, this`gatewayCrd, this`registryCrd, this`applicationCrd
      ensures ScannedFrom(old(microServiceCrd), old(gatewayCrd), old(registryCrd), old(applicationCrd))
      ensures found <==> cluster.crdListing.Some? && AllCrdsFound()
    {
      if cluster.crdListing.None? {
        // registering the kinds or listing the definitions threw
        return false;
      }
      var items := cluster.crdListing.value;
      for i := 0 to |items|
        invariant microServiceCrd == LastMatch(items[..i], microServiceCrdName, old(microServiceCrd))
        invariant gatewayCrd == LastMatch(items[..i], gatewayCrdName, old(gatewayCrd))
        invariant registryCrd == LastMatch(items[..i], registryCrdName, old(registryCrd))
        invariant applicationCrd == LastMatch(items[..i], applicationCrdName, old(applicationCrd))
      {
        assert items[..i + 1][..i] == items[..i];
        var crd := items[i];
        if crd.metadata.Some? {
          var name := crd.metadata.value.name;
          if name == Some(microServiceCrdName) {
            microServiceCrd := Some(crd);
          }
          if name == Some(gatewayCrdName) {
            gatewayCrd := Some(crd);
          }
          if name == Some(registryCrdName) {
            registryCrd := Some(crd);
          }
          if name == Some(applicationCrdName) {
            applicationCrd := Some(crd);
          }
        }
      }
      assert items[..|items|] == items;
      found := AllCrdsFound();
    }

    /** Loads every existing instance of the four kinds and captures each kind's cursor. */
    method LoadExistingResources() returns (ok: bool)
      requires Valid() && FreshSpecs(apps, cluster.applications)
      modifies this`apps, this`microServices, this`gateways, this`registries
      modifies this`appsResourceVersion, this`microServicesResourceVersion
      modifies this`gatewaysResourceVersion, this`registriesResourceVersion
      ensures Valid() && ok
      ensures LoadedFrom(old(apps), old(microServices), old(gateways), old(registries),
                         old(appsResourceVersion), old(microServicesResourceVersion),
                         old(gatewaysResourceVersion), old(registriesResourceVersion))
    {
      LoadKeepsValid(apps, cluster.applications);
      apps, appsResourceVersion := LoadKind(apps, appsResourceVersion, cluster.applications);
      assert Valid();
      microServices, microServicesResourceVersion :=
        LoadKind(microServices, microServicesResourceVersion, cluster.microServices);
      gateways, gatewaysResourceVersion := LoadKind(gateways, gatewaysResourceVersion, cluster.gateways);
      registries, registriesResourceVersion := LoadKind(registries, registriesResourceVersion, cluster.registries);
      ok := true;
    }

    method RegisterMicroServiceWatch()
      modifies this`microServiceWatchRegistered, cluster`calls
      ensures microServiceWatchRegistered
      ensures cluster.calls == old(cluster.calls) + [WatchOpened(MicroServiceKind, microServicesResourceVersion)]
    {
      cluster.WatchFrom(MicroServiceKind, microServicesResourceVersion);
      microServiceWatchRegistered := true;
    }

    method RegisterRegistryWatch()
      modifies this`registryWatchRegistered, cluster`calls
      ensures registryWatchRegistered
      ensures cluster.calls == old(cluster.calls) + [WatchOpened(RegistryKind, registriesResourceVersion)]
    {
      cluster.WatchFrom(RegistryKind, registriesResourceVersion);
      registryWatchRegistered := true;
    }

    method RegisterGatewayWatch()
      modifies this`gatewayWatchRegistered, cluster`calls
      ensures gatewayWatchRegistered
      ensures cluster.calls == old(cluster.calls) + [WatchOpened(GatewayKind, gatewaysResourceVersion)]
    {
      cluster.WatchFrom(GatewayKind, gatewaysResourceVersion);
      gatewayWatchRegistered := true;
    }

    method RegisterApplicationWatch()
      modifies this`applicationWatchRegistered, cluster`calls
      ensures applicationWatchRegistered
      ensures cluster.calls == old(cluster.calls) + [WatchOpened(ApplicationKind, appsResourceVersion)]
    {
      cluster.WatchFrom(ApplicationKind, appsResourceVersion);
      applicationWatchRegistered := true;
    }

    /** Registers the watches not registered yet; afterwards all four are. */
    method WatchOurCRDs() returns (ok: bool)
      modifies this`microServiceWatchRegistered, this`registryWatchRegistered
      modifies this`gatewayWatchRegistered, this`applicationWatchRegistered, cluster`calls
      ensures ok && AllWatchesRegistered()
      ensures WatchedFrom(old(cluster.calls), old(microServiceWatchRegistered), old(registryWatchRegistered),
                          old(gatewayWatchRegistered), old(applicationWatchRegistered))
      ensures old(AllWatchesRegistered()) ==> cluster.calls == old(cluster.calls)
    {
      if !microServiceWatchRegistered {
        RegisterMicroServiceWatch();
      }
      if !registryWatchRegistered {
        RegisterRegistryWatch();
      }
      if !gatewayWatchRegistered {
        RegisterGatewayWatch();
      }
      if !applicationWatchRegistered {
        RegisterApplicationWatch();
      }
      ok := AllWatchesRegistered();
    }

    /** Loads the existing instances, then registers the missing watches. */
    method Init() returns (ok: bool)
      requires Valid() && FreshSpecs(apps, cluster.applications)
      modifies this`apps, this`microServices, this`gateways, this`registries
      modifies this`appsResourceVersion, this`microServicesResourceVersion
      modifies this`gatewaysResourceVersion, this`registriesResourceVersion
      modifies this`microServiceWatchRegistered, this`registryWatchRegistered
      modifies this`gatewayWatchRegistered, this`applicationWatchRegistered, cluster`calls
      ensures Valid() && ok && AllWatchesRegistered()
      ensures LoadedFrom(old(apps), old(microServices), old(gateways), old(registries),
                         old(appsResourceVersion), old(microServicesResourceVersion),
                         old(gatewaysResourceVersion), old(registriesResourceVersion))
      ensures WatchedFrom(old(cluster.calls), old(microServiceWatchRegistered), old(registryWatchRegistered),
                          old(gatewayWatchRegistered), old(applicationWatchRegistered))
    {
      var loaded := LoadExistingResources();
      ok := false;
      if loaded {
        ok := WatchOurCRDs();
      }
    }

    /** Everything `init` may change: `initDone`, the store, the cursors, the watch flags and the call log. */
    ghost function InitState(): (bool, map<string, Application>, map<string, Service>, map<string, Service>,
                                 map<string, Service>, Option<string>, Option<string>, Option<string>,
                                 Option<string>, bool, bool, bool, bool, seq<Call>)
      reads this`initDone, this`apps, this`microServices, this`gateways, this`registries
      reads this`appsResourceVersion, this`microServicesResourceVersion
      reads this`gatewaysResourceVersion, this`registriesResourceVersion
      reads this`microServiceWatchRegistered, this`registryWatchRegistered
      reads this`gatewayWatchRegistered, this`applicationWatchRegistered, cluster`calls
    {
      (initDone, apps, microServices, gateways, registries,
       appsResourceVersion, microServicesResourceVersion, gatewaysResourceVersion, registriesResourceVersion,
       microServiceWatchRegistered, registryWatchRegistered, gatewayWatchRegistered, applicationWatchRegistered,
       cluster.calls)
    }

    /** Discovery gates initialisation: `init` runs only when all four definitions were found. */
    method Bootstrap()
      requires Valid() && FreshSpecs(apps, cluster.applications)
      modifies this`crdsFound, this`initDone
      modifies this`microServiceCrd, this`gatewayCrd, this`registryCrd, this`applicationCrd
      modifies this`apps, this`microServices, this`gateways, this`registries
      modifies this`appsResourceVersion, this`microServicesResourceVersion
      modifies this`gatewaysResourceVersion, this`registriesResourceVersion
      modifies this`microServiceWatchRegistered, this`registryWatchRegistered
      modifies this`gatewayWatchRegistered, this`applicationWatchRegistered, cluster`calls
      ensures Valid()
      ensures ScannedFrom(old(microServiceCrd), old(gatewayCrd), old(registryCrd), old(applicationCrd))
      ensures crdsFound <==> cluster.crdListing.Some? && AllCrdsFound()
      ensures crdsFound ==> initDone && AllWatchesRegistered()
      ensures crdsFound ==>
        LoadedFrom(old(apps), old(microServices), old(gateways), old(registries),
                   old(appsResourceVersion), old(microServicesResourceVersion),
                   old(gatewaysResourceVersion), old(registriesResourceVersion))
      ensures crdsFound ==>
        WatchedFrom(old(cluster.calls), old(microServiceWatchRegistered), old(registryWatchRegistered),
                    old(gatewayWatchRegistered), old(applicationWatchRegistered))
      ensures !crdsFound ==> InitState() == old(InitState())
    {
      var found := AreRequiredCRDsPresent();
      assert InitState() == old(InitState());
      if found {
        initDone := Init();
      }
      crdsFound := found;
    }

    /** The Application watch: ADDED stores the app and backfills its labelled subordinates, DELETED drops it. */
    method OnApplicationEvent(action: Action, app: Application)
      requires Valid() && SpecUnshared(apps, app)
      modifies this`apps, this`microServices, this`gateways, this`registries
      ensures Valid()
      ensures action == Added ==> apps == old(apps)[app.metadata.name := app]
      ensures action == Added ==> microServices == AddAll(old(microServices), Labelled(cluster.microServices, app.metadata.name))
      ensures action == Added ==> gateways == AddAll(old(gateways), Labelled(cluster.gateways, app.metadata.name))
      ensures action == Added ==> registries == AddAll(old(registries), Labelled(cluster.registries, app.metadata.name))
      ensures action == Deleted ==> apps == old(apps) - {app.metadata.name}
      ensures action != Added ==> microServices == old(microServices) && gateways == old(gateways)
      ensures action != Added ==> registries == old(registries)
      ensures action != Added && action != Deleted ==> apps == old(apps)
    {
      var name := app.metadata.name;
      if action == Added {
        apps := apps[name := app];
        var microServiceForAppList := Labelled(cluster.microServices, name);
        microServices := AddEach(microServices, microServiceForAppList);
        var gatewayForAppList := Labelled(cluster.gateways, name);
        gateways := AddEach(gateways, gatewayForAppList);
        var registryForAppList := Labelled(cluster.registries, name);
        registries := AddEach(registries, registryForAppList);
      }
      if action == Deleted {
        apps := apps - {name};
      }
      // a missing spec is only logged
    }

    method OnMicroServiceEvent(action: Action, microService: Service)
      modifies this`microServices
      ensures microServices == ApplyServiceEvent(old(microServices), action, microService)
    {
      if action == Added {
        microServices := microServices[microService.metadata.name := microService];
      }
      if action == Deleted {
        microServices := microServices - {microService.metadata.name};
      }
    }

    method OnRegistryEvent(action: Action, registry: Service)
      modifies this`registries
      ensures registries == ApplyServiceEvent(old(registries), action, registry)
    {
      if action == Added {
        registries := registries[registry.metadata.name := registry];
      }
      if action == Deleted {
        registries := registries - {registry.metadata.name};
      }
    }

    method OnGatewayEvent(action: Action, gateway: Service)
      modifies this`gateways
      ensures gateways == ApplyServiceEvent(old(gateways), action, gateway)
    {
      if action == Added {
        gateways := gateways[gateway.metadata.name := gateway];
      }
      if action == Deleted {
        gateways := gateways - {gateway.metadata.name};
      }
    }

    /** An Application ADDED then DELETED leaves the store without that name and otherwise as before. */
    method ApplicationAddedThenDeleted(app: Application)
      requires Valid() && SpecUnshared(apps, app)
      modifies this`apps, this`microServices, this`gateways, this`registries
      ensures Valid()
      ensures app.metadata.name !in apps
      ensures apps == old(apps) - {app.metadata.name}
    {
      OnApplicationEvent(Added, app);
      OnApplicationEvent(Deleted, app);
    }

    /** How far a reconciliation pass has got: the applications of `order` have been reconciled, written
        back and had their urls recorded, in that order; every other spec still holds its starting value. */
    ghost predicate Progress(order: seq<string>, v0: map<string, SpecState>, calls0: seq<Call>,
                             urls0: map<string, string>, ip: string)
      reads this`apps, this`appUrls, this`microServices, cluster`calls, Specs()
    {
      && (forall n :: n in order ==> n in apps && apps[n].spec != null && n in v0)
      && (forall n :: n in apps && apps[n].spec != null ==>
            n in v0 && apps[n].spec.Value() == if n in order then Reconciled(n, v0[n], microServices, ip) else v0[n])
      && cluster.calls == calls0 + Upserts(apps, order, ReconciledAll(v0, microServices, ip))
      && appUrls == RecordUrls(urls0, order, v0, microServices, ip)
    }

    /** Derives status and url of every tracked application and writes each back once.
        A tracked application without a spec aborts the pass where it is met. */
    method Reconcile(externalIp: string) returns (completed: bool, ghost order: seq<string>)
      requires Valid()
      modifies this`appUrls, cluster`calls, Specs()
      ensures Valid() && apps == old(apps)
      ensures Distinct(order)
      ensures forall n :: n in order ==> n in apps && apps[n].spec != null
      ensures completed <==> forall n :: n in apps ==> apps[n].spec != null
      ensures completed ==> forall n :: n in apps ==> n in order
      ensures forall n :: n in apps && apps[n].spec != null ==>
        apps[n].spec.Value()
        == if n in order then Reconciled(n, old(apps[n].spec.Value()), microServices, externalIp)
           else old(apps[n].spec.Value())
      ensures cluster.calls == old(cluster.calls) + Upserts(apps, order, ReconciledAll(old(SpecValues()), microServices, externalIp))
      ensures appUrls == RecordUrls(old(appUrls), order, old(SpecValues()), microServices, externalIp)
    {
      ghost var v0 := SpecValues();
      var todo := apps.Keys;
      order := [];
      completed := true;
      while todo != {}
        invariant todo <= apps.Keys
        invariant Distinct(order)
        invariant forall n :: n in order ==> n !in todo
        invariant forall n :: n in apps ==> n in todo || n in order
        invariant Progress(order, v0, old(cluster.calls), old(appUrls), externalIp)
        decreases todo
      {
        var appName :| appName in todo;
        var app := apps[appName];
        if app.spec == null {
          completed := false;
          return;
        }
        ReconcileStep(appName, order, v0, old(cluster.calls), old(appUrls), externalIp);
        order := order + [appName];
        todo := todo - {appName};
      }
    }

    /** One iteration of the pass: reconciling `appName` extends the progress by that name. */
    method ReconcileStep(appName: string, ghost order: seq<string>, ghost v0: map<string, SpecState>,
                         ghost calls0: seq<Call>, ghost urls0: map<string, string>, externalIp: string)
      requires Valid() && appName in apps && apps[appName].spec != null && appName !in order
      requires Progress(order, v0, calls0, urls0, externalIp)
      modifies this`appUrls, cluster`calls, apps[appName].spec
      ensures Progress(order + [appName], v0, calls0, urls0, externalIp)
    {
      var app := apps[appName];
      assert app.metadata.name == appName && v0[appName] == app.spec.Value();
      label Before:
      ReconcileApp(app, externalIp);
      assert (order + [appName])[..|order|] == order;
      forall n | n in apps && apps[n].spec != null && n != appName
        ensures apps[n].spec.Value() == old@Before(apps[n].spec.Value())
      {
        assert apps[n].spec != app.spec;
      }
    }

    /** One pass of the loop body for a tracked application with a spec: status and url set, url
        recorded when healthy, then the application written back. */
    method ReconcileApp(app: Application, externalIp: string)
      requires app.spec != null
      modifies this`appUrls, app.spec, cluster`calls
      ensures app.spec.Value() == Reconciled(app.metadata.name, old(app.spec.Value()), microServices, externalIp)
      ensures appUrls == if IsAppHealthy(old(app.spec.Value()), microServices)
                         then old(appUrls)[app.metadata.name := AppUrl(externalIp, app.metadata.name, old(app.spec.version))]
                         else old(appUrls)
      ensures cluster.calls == old(cluster.calls) + [AppUpserted(Resource(app.metadata, Some(app.spec.Value())))]
    {
      var spec := app.spec;
      if IsAppHealthy(spec.Value(), microServices) {
        spec.SetStatus(HealthyStatus);
        var url := AppUrl(externalIp, app.metadata.name, spec.version);
        appUrls := appUrls[app.metadata.name := url];
        spec.SetUrl(url);
      } else {
        spec.SetStatus(UnhealthyStatus);
        spec.SetUrl(NotAvailable);
      }
      cluster.CreateOrReplace(app);
    }

    /** Creates the Application, the fixed Registry and one Gateway or MicroService per module. */
    method NewApp(def: AppDefinition, kindOf: string -> string, stored: StoredApp)
      modifies cluster`calls
      ensures cluster.calls == old(cluster.calls) + NewAppCalls(def, kindOf, stored)
    {
      var objectMeta := ObjectMeta(def.name, None, None, map[], [], [ForegroundDeletion], Some(def.jdlContent));
      var spec := new ApplicationSpec();
      spec.SetAppDefinition(def);
      spec.SetVersion(Some(def.version));
      assert spec.Value() == NewAppSpec(def);
      var app: Application := Resource(objectMeta, spec);
      cluster.CreateApplication(app);

      var ownerReference := OwnerReference(stored.uid, stored.name, stored.kind, stored.apiVersion, true, true);
      var labels := map[AppLabel := def.name];

      var registryMeta := ObjectMeta(RegistryName, None, None, labels, [ownerReference], [ForegroundDeletion], None);
      var registry: Service := Resource(registryMeta, Some(ServiceSpec(RegistryName, ServiceVersion, Some(RegistryPort))));
      cluster.CreateService(RegistryKind, registry);
      assert cluster.calls == old(cluster.calls) + NewAppCalls(def, kindOf, stored)[..2];

      CreateModules(def.modules, kindOf, ownerReference, labels);
    }

    /** The `forEach` over the declared modules: one Gateway or MicroService create each, in order. */
    method CreateModules(mods: seq<ModuleDescr>, kindOf: string -> string, ownerReference: OwnerReference, labels: map<string, string>)
      modifies cluster`calls
      ensures cluster.calls == old(cluster.calls) + ModuleCalls(mods, kindOf, ownerReference, labels)
    {
      for i := 0 to |mods|
        invariant cluster.calls == old(cluster.calls) + ModuleCalls(mods[..i], kindOf, ownerReference, labels)
      {
        assert mods[..i + 1][..i] == mods[..i];
        var md := mods[i];
        var meta := ObjectMeta(md.name, None, None, labels, [ownerReference], [ForegroundDeletion], None);
        if kindOf(md.moduleType) == GatewayKindName {
          var port := if md.port.None? || md.port.value == "" then Some(DefaultGatewayPort) else md.port;
          var gateway: Service := Resource(meta, Some(ServiceSpec(md.name, ServiceVersion, port)));
          cluster.CreateService(GatewayKind, gateway);
        } else {
          var microService: Service := Resource(meta, Some(ServiceSpec(md.name, ServiceVersion, md.port)));
          cluster.CreateService(MicroServiceKind, microService);
        }
      }
      assert mods[..|mods|] == mods;
    }

    /** Issues one delete for the application tracked under `appName` (a null one when none is). */
    method DeleteApp(appName: string)
      modifies cluster`calls
      ensures cluster.calls == old(cluster.calls) + [AppDeleted(if appName in apps then Some(Snapshot(apps[appName])) else None)]
    {
      var app: Option<Application> := if appName in apps then Some(apps[appName]) else None;
      cluster.Delete(app);
    }
  }
}
