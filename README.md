# jhipster-operator: the AppsOperator controller core

This project models the controller core of the JHipster Kubernetes operator. The operator watches four custom
resource kinds: Application, MicroService, Gateway and Registry. It keeps an in-memory desired state of them
and reconciles each application's status and url against that state. It also creates and deletes whole
applications.

The model is imperative, as the Java code is.

- **`Operator.AppsOperator`** is a class with the operator's fields:
  - the four found-definition slots;
  - `crdsFound`, `initDone` and `on`;
  - the four `…WatchRegistered` flags and the four resource-version cursors;
  - the in-memory store, as maps keyed by name (applications, microservices, gateways, registries, urls).
- **`Client.Cluster`** stands for the cluster behind the typed clients. It holds:
  - the definitions listing;
  - the listed instances of each kind;
  - a log of the write calls the operator issues (watch, create, createOrReplace, delete).
- **`AppSpecs.ApplicationSpec`** is the mutable spec record, with its field defaults, getters and setters.
  The reconciler changes it in place.

The loops are `while`/`for` loops with invariants:

- discovery;
- loading each kind;
- the labelled backfill in the Application watch;
- the reconcile pass;
- the per-module creates in `newApp`.

Each loop method is proved against a pure function:

| loop | function |
|---|---|
| discovery | `LastMatch`/`Scan` |
| loading a kind | `AddAll`/`FirstVersion` |
| write-backs and urls of a reconcile pass | `Reconciled`/`Upserts`/`RecordUrls` |
| `newApp` creates | `ModuleCalls`/`NewAppCalls` |

Lemmas state what those functions mean.

`AppService`, `K8SCoreRuntime` and `JDLParser`, which lie outside AppsOperator.java and ApplicationSpec.java,
become parameters or state:

- The external IP is a string argument of `Reconcile`.
- The module-kind classifier `JDLParser.fromJDLServiceToKind` is a function argument `kindOf` of `NewApp`.
- What the platform returns from creating the Application (uid, name, kind, apiVersion) is an argument `stored`.
- `AppService` is the operator's maps. Its health check is `IsAppHealthy`: every microservice name the spec
  declares is present in the microservice store.
- `K8SCoreRuntime`'s definition listing is `Cluster.crdListing`. `None` stands for a listing, or a kind
  registration, that threw.

## Model

| member | source | states |
|---|---|---|
| K8s.LabelledMembers | src/main/java/tech/jhipster/operator/AppsOperator.java:257-275 | a `withLabel("app", name)` listing holds exactly the listed resources carrying that label |
| K8s.AddAllKeys | src/main/java/tech/jhipster/operator/AppsOperator.java:196-199 | after handing every listed item to the store, its names are the old names plus the listed names |
| K8s.AddAllLastWins | src/main/java/tech/jhipster/operator/AppsOperator.java:196-199 | the store holds, under a name, the last listed item of that name |
| K8s.AddAllKeeps | src/main/java/tech/jhipster/operator/AppsOperator.java:196-199 | names that no listed item carries keep their old entry |
| K8s.AddAllValues | src/main/java/tech/jhipster/operator/AppsOperator.java:196-199 | every stored value is the old one or a listed item of that name |
| K8s.AddEach | src/main/java/tech/jhipster/operator/AppsOperator.java:207-209 | the `forEach` that adds each item leaves the store equal to `AddAll` of the items |
| AppSpecs.ApplicationSpec.constructor | src/main/java/tech/jhipster/operator/crds/app/ApplicationSpec.java:16-26 | a fresh spec has no version, selector or modules, registry "jhipster-registry", gateway "gateway", status "UNKNOWN" and url "NO URL YET." |
| AppSpecs.ApplicationSpec.GetVersion | src/main/java/tech/jhipster/operator/crds/app/ApplicationSpec.java:28-30 | returns the version field |
| AppSpecs.ApplicationSpec.SetVersion | src/main/java/tech/jhipster/operator/crds/app/ApplicationSpec.java:32-34 | the spec's value afterwards is the old value with only the version replaced |
| AppSpecs.ApplicationSpec.GetSelector | src/main/java/tech/jhipster/operator/crds/app/ApplicationSpec.java:36-38 | returns the selector field |
| AppSpecs.ApplicationSpec.SetSelector | src/main/java/tech/jhipster/operator/crds/app/ApplicationSpec.java:40-42 | only the selector changes |
| AppSpecs.ApplicationSpec.GetModules | src/main/java/tech/jhipster/operator/crds/app/ApplicationSpec.java:44-46 | returns the module set |
| AppSpecs.ApplicationSpec.SetModules | src/main/java/tech/jhipster/operator/crds/app/ApplicationSpec.java:48-50 | only the module set changes |
| AppSpecs.ApplicationSpec.GetUrl | src/main/java/tech/jhipster/operator/crds/app/ApplicationSpec.java:52-54 | returns the url field |
| AppSpecs.ApplicationSpec.SetUrl | src/main/java/tech/jhipster/operator/crds/app/ApplicationSpec.java:56-58 | only the url changes |
| AppSpecs.ApplicationSpec.GetStatus | src/main/java/tech/jhipster/operator/crds/app/ApplicationSpec.java:60-62 | returns the status field |
| AppSpecs.ApplicationSpec.SetStatus | src/main/java/tech/jhipster/operator/crds/app/ApplicationSpec.java:64-66 | only the status changes |
| AppSpecs.ApplicationSpec.GetRegistry | src/main/java/tech/jhipster/operator/crds/app/ApplicationSpec.java:68-70 | returns the registry field |
| AppSpecs.ApplicationSpec.SetRegistry | src/main/java/tech/jhipster/operator/crds/app/ApplicationSpec.java:72-74 | only the registry changes |
| AppSpecs.ApplicationSpec.GetGateway | src/main/java/tech/jhipster/operator/crds/app/ApplicationSpec.java:76-78 | returns the gateway field |
| AppSpecs.ApplicationSpec.SetGateway | src/main/java/tech/jhipster/operator/crds/app/ApplicationSpec.java:80-82 | only the gateway changes |
| AppSpecs.ApplicationSpec.GetMicroservices | src/main/java/tech/jhipster/operator/AppsOperator.java:390 | returns the declared microservice names (a field the operator uses that ApplicationSpec.java does not declare) |
| AppSpecs.ApplicationSpec.SetAppDefinition | src/main/java/tech/jhipster/operator/AppsOperator.java:453 | only the stored definition changes (a setter the operator uses that ApplicationSpec.java does not declare) |
| AppSpecs.StatusThenUrl | src/main/java/tech/jhipster/operator/crds/app/ApplicationSpec.java:56-66 | `setStatus` then `setUrl` changes status and url only; version, modules, registry and gateway keep their values |
| Client.Cluster.WatchFrom | src/main/java/tech/jhipster/operator/AppsOperator.java:251 | opening a watch from a cursor appends exactly that watch to the call log |
| Client.Cluster.CreateApplication | src/main/java/tech/jhipster/operator/AppsOperator.java:457 | `create(app)` appends one Application create carrying the spec's current value |
| Client.Cluster.CreateService | src/main/java/tech/jhipster/operator/AppsOperator.java:488 | `create` of a subordinate appends one create of that kind |
| Client.Cluster.CreateOrReplace | src/main/java/tech/jhipster/operator/AppsOperator.java:408 | `createOrReplace(app)` appends one upsert carrying the spec's current value |
| Client.Cluster.Delete | src/main/java/tech/jhipster/operator/AppsOperator.java:538 | `delete(app)` appends one delete, of nothing when given null |
| Operator.LastMatchFound | src/main/java/tech/jhipster/operator/AppsOperator.java:87-104 | a slot ends filled iff it was filled or a definition with metadata of that name is listed; it holds its old value or a listed definition of that name |
| Operator.FreshDiscovery | src/main/java/tech/jhipster/operator/AppsOperator.java:86-118 | from empty slots, all four slots are filled iff all four names occur among the listed metadata names |
| Operator.LoadKind | src/main/java/tech/jhipster/operator/AppsOperator.java:192-200 | loading one kind: a non-empty listing moves the cursor to item 0's version (an empty one leaves it), and every item goes into the store |
| Operator.WatchCallsOnlyPending | src/main/java/tech/jhipster/operator/AppsOperator.java:162-175 | registration opens only watches, one per kind at most, exactly for the kinds not yet registered; all registered means no calls |
| Operator.ApplyServiceEvent | src/main/java/tech/jhipster/operator/AppsOperator.java:302-311 | ADDED stores the resource under its name, DELETED removes the name, any other name is untouched, any other action changes nothing |
| Operator.AddedThenDeleted | src/main/java/tech/jhipster/operator/AppsOperator.java:302-308 | ADDED then DELETED of one resource leaves the collection without its name and otherwise as before |
| Operator.LoadKeepsValid | src/main/java/tech/jhipster/operator/AppsOperator.java:196-199 | loading applications with their own spec objects keeps every app under its own name, with no spec object shared |
| Operator.IsAppHealthy | src/main/java/tech/jhipster/operator/AppsOperator.java:388 | the health check `appService.isAppHealthy(app)`: every declared microservice name is a key of the microservice store |
| Operator.HealthUnderServiceEvents | src/main/java/tech/jhipster/operator/AppsOperator.java:302-308 | a MicroService ADDED never makes a healthy application unhealthy; DELETED of a declared name makes it unhealthy; DELETED of another name leaves its health as it was |
| Operator.AppUrl | src/main/java/tech/jhipster/operator/AppsOperator.java:393 | the url text `"http://" + ip + "/apps/" + name + "/" + version + "/"`, with a null version printed as "null" (`VersionText`) |
| Operator.Reconciled | src/main/java/tech/jhipster/operator/AppsOperator.java:388-407 | status is "HEALTHY" iff healthy and "UNHEALTHY" iff not; url is `http://ip/apps/name/version/` when healthy and "N/A" iff not; other fields unchanged |
| Operator.ReconcileIdempotent | src/main/java/tech/jhipster/operator/AppsOperator.java:379-412 | with an unchanged store and IP a second pass leaves the spec value as the first left it |
| Operator.RecordUrlsMeaning | src/main/java/tech/jhipster/operator/AppsOperator.java:392-394 | a name has a url after the pass iff it had one or was reconciled healthy; recorded urls are the versioned path; others untouched |
| Operator.UpsertsAt | src/main/java/tech/jhipster/operator/AppsOperator.java:408 | the pass's i-th write-back is the createOrReplace of the i-th reconciled application, with its reconciled value |
| Operator.ModuleCallsAt | src/main/java/tech/jhipster/operator/AppsOperator.java:491-531 | there is one create per declared module, the i-th for the i-th module |
| Operator.NewAppShape | src/main/java/tech/jhipster/operator/AppsOperator.java:445-533 | one Application (name, jdl, finalizer, version, status UNKNOWN), then Registry "jhipster-registry" 1.0 port 8761, then a Gateway or MicroService per module with the port rule; all subordinates share owner reference, `{app: name}` label and finalizer |
| Operator.StoreExample | src/main/java/tech/jhipster/operator/AppsOperator.java:491-529 | for "store" with a microservice on 8081 and a gateway with an empty port: four creates, the microservice keeps 8081, the gateway gets 8080 |
| Operator.AppsOperator.constructor | src/main/java/tech/jhipster/operator/AppsOperator.java:37-54 | a fresh operator is on, not initialised, has no slots filled, no watch registered, no cursors and an empty store |
| Operator.AppsOperator.IsOn | src/main/java/tech/jhipster/operator/AppsOperator.java:431-433 | returns `on` |
| Operator.AppsOperator.SetOn | src/main/java/tech/jhipster/operator/AppsOperator.java:435-437 | `on` becomes the given value, nothing else changes |
| Operator.AppsOperator.IsInitDone | src/main/java/tech/jhipster/operator/AppsOperator.java:439-441 | returns `initDone` |
| Operator.AppsOperator.AllCrdsFound | src/main/java/tech/jhipster/operator/AppsOperator.java:151-156 | `allCRDsFound`: true exactly when none of the four definition slots is null |
| Operator.AppsOperator.AllWatchesRegistered | src/main/java/tech/jhipster/operator/AppsOperator.java:238-243 | `areAllCRDWatchesRegistered`: true exactly when all four watch flags are set |
| Operator.AppsOperator.AreRequiredCRDsPresent | src/main/java/tech/jhipster/operator/AppsOperator.java:78-124 | the slots are the scan of the listing over their old values; true iff the listing did not throw and all four slots are non-null (`allCRDsFound`, 151-156) |
| Operator.AppsOperator.LoadExistingResources | src/main/java/tech/jhipster/operator/AppsOperator.java:190-232 | all four kinds loaded from their listings, each cursor moved to item 0's version or left; the result is true; the store stays valid |
| Operator.AppsOperator.RegisterMicroServiceWatch | src/main/java/tech/jhipster/operator/AppsOperator.java:298-319 | opens one MicroService watch from its cursor and sets its flag |
| Operator.AppsOperator.RegisterRegistryWatch | src/main/java/tech/jhipster/operator/AppsOperator.java:325-348 | opens one Registry watch from its cursor and sets its flag |
| Operator.AppsOperator.RegisterGatewayWatch | src/main/java/tech/jhipster/operator/AppsOperator.java:350-373 | opens one Gateway watch from its cursor and sets its flag |
| Operator.AppsOperator.RegisterApplicationWatch | src/main/java/tech/jhipster/operator/AppsOperator.java:249-292 | opens one Application watch from its cursor and sets its flag |
| Operator.AppsOperator.WatchOurCRDs | src/main/java/tech/jhipster/operator/AppsOperator.java:162-183 | opens exactly the watches whose flag was false, in order; then all four flags are set (`areAllCRDWatchesRegistered`, 238-243) and the result is true; a second call opens nothing |
| Operator.AppsOperator.Init | src/main/java/tech/jhipster/operator/AppsOperator.java:126-146 | loads all four kinds (`LoadedFrom`: collections and cursors from the listings), then opens exactly the watches not yet registered (`WatchedFrom`); the result is true, all watches are registered and the store stays valid |
| Operator.AppsOperator.Bootstrap | src/main/java/tech/jhipster/operator/AppsOperator.java:68-73 | `crdsFound` is the discovery result; only on success does init run: `initDone` is set, the store and cursors are loaded (`LoadedFrom`) and exactly the pending watches opened (`WatchedFrom`); on failure `initDone`, store, cursors, flags and calls are untouched (`InitState`) |
| Operator.AppsOperator.OnApplicationEvent | src/main/java/tech/jhipster/operator/AppsOperator.java:253-284 | ADDED stores the app under its name and backfills every labelled MicroService, Gateway and Registry; DELETED removes the name; any other action changes nothing; a null spec changes nothing more |
| Operator.AppsOperator.OnMicroServiceEvent | src/main/java/tech/jhipster/operator/AppsOperator.java:302-312 | the microservice store becomes `ApplyServiceEvent` of the event |
| Operator.AppsOperator.OnRegistryEvent | src/main/java/tech/jhipster/operator/AppsOperator.java:329-341 | the registry store becomes `ApplyServiceEvent` of the event |
| Operator.AppsOperator.OnGatewayEvent | src/main/java/tech/jhipster/operator/AppsOperator.java:354-366 | the gateway store becomes `ApplyServiceEvent` of the event |
| Operator.AppsOperator.ApplicationAddedThenDeleted | src/main/java/tech/jhipster/operator/AppsOperator.java:255-282 | an Application ADDED then DELETED leaves the applications as before minus that name |
| Operator.AppsOperator.Reconcile | src/main/java/tech/jhipster/operator/AppsOperator.java:379-412 | each tracked app is visited at most once, and every one is visited when none has a null spec; each visited spec becomes `Reconciled`, the rest keep their value; exactly one createOrReplace per visited app, in visit order; the url map is `RecordUrls` of the visits |
| Operator.AppsOperator.ReconcileStep | src/main/java/tech/jhipster/operator/AppsOperator.java:386-408 | one iteration extends the pass's progress by one app, leaving every other spec unchanged |
| Operator.AppsOperator.ReconcileApp | src/main/java/tech/jhipster/operator/AppsOperator.java:386-408 | the app's spec becomes `Reconciled`; the url is recorded only when healthy; one createOrReplace carrying the new value is issued |
| Operator.AppsOperator.NewApp | src/main/java/tech/jhipster/operator/AppsOperator.java:445-533 | the calls issued are exactly `NewAppCalls` of the definition (see `NewAppShape`) |
| Operator.AppsOperator.CreateModules | src/main/java/tech/jhipster/operator/AppsOperator.java:491-531 | issues exactly `ModuleCalls` of the modules, in order |
| Operator.AppsOperator.DeleteApp | src/main/java/tech/jhipster/operator/AppsOperator.java:535-539 | issues exactly one delete: of the tracked app's current value, or of null when the name is not tracked |

## Behaviour of the code worth noting

- **Discovery result.** `areRequiredCRDsPresent` assigns a slot only when a definition of its name is listed,
  and never clears one. A second discovery over a listing that no longer holds a definition therefore still
  reports it found. `AreRequiredCRDsPresent` states the result over the slots' old values (`ScannedFrom`).
  The "true iff all four names are listed" reading holds from fresh slots (`FreshDiscovery`).
- **Deleting an unknown name.** `deleteApp` with a name the store does not hold passes null to `delete`. The
  model logs that as `AppDeleted(None)`.
- **Null version.** A URL built for a spec without a version contains the text "null", as Java string
  concatenation prints it (`VersionText`).

## Left out

- Logging, `printStackTrace`, Spring wiring, Jackson annotations and `ApplicationSpec.toString`. They carry no
  state the core uses.
- The fabric8 client. It becomes the abstract `Cluster`: listings are fields and writes are appended to a log.
  The following are library wrappers and are not modelled:
  - `registerCustomKind`;
  - building the four typed clients (`customResourcesClient`/`inNamespace`, AppsOperator.java:134-138);
  - the namespace.
- Watch connection lifetime and the empty `onClose` handlers.
- The asynchronous delivery of watch events. Each event is a sequential call of its handler.
- `AppService`, `K8SCoreRuntime.findExternalIP` and `JDLParser`, whose sources are not part of this model.
  - The store is the operator's maps, keyed by each resource's own name.
  - The health rule: every declared microservice name is a key of the microservice store (`IsAppHealthy`).
  - The IP and the classifier are arguments.
- JHipsterOperatorController.java. It is an HTTP layer that forwards to `newApp`, `deleteApp` and `bootstrap`
  and toggles `on`; the toggle is `IsOn`/`SetOn`.
- Exceptions thrown by `create`, `createOrReplace`, `delete`, a listing inside `init`, or the three
  `withLabel(...).list()` calls of the Application watch (AppsOperator.java:257, 263, 269). The model's writes
  and listings always succeed. A listing that throws during discovery is `crdListing == None`, and no definition is then
  recorded.
- An exception partway through the discovery loop, after some slots were assigned. It is not modelled.
- Repeated IP lookups. `findExternalIP` is called once per healthy application. `Reconcile` takes one address for
  the whole pass, so it assumes the address does not change during a pass.
- Per-application failure isolation and retries in `reconcile`. The code has neither.
- The null pointer raised by a tracked application with a null spec. It becomes `Reconcile` returning
  `completed == false` and stopping the pass at that application.
- The order `keySet().forEach` visits applications in. Java leaves it unspecified, and `Reconcile` picks any
  remaining name on each step; the ghost result `order` records the order it used.
- Null lists from `withLabel(...).list().getItems()`. They are modelled as empty, which is what the null checks
  of AppsOperator.java:258, 264 and 270 amount to.
- A null declared-microservice list. The model has no null list: `microservices` is a sequence, and an
  application declaring none is healthy (`IsAppHealthy` holds vacuously), so it gets status "HEALTHY" and a url.
  The Java code differs for a null list. Only the unhealthy branch checks for null (AppsOperator.java:399); the
  healthy branch calls `getMicroservices().forEach` unguarded (AppsOperator.java:390). If `isAppHealthy` accepts
  a null list, the pass therefore stops with a null pointer at that application; if it rejects it, the
  application becomes "UNHEALTHY" with url "N/A". Which of the two happens depends on `AppService`, which is not
  part of this model.
- Null arguments to the string setters of `ApplicationSpec`. Version and selector are `Option`s; registry,
  gateway, status and url are plain strings, because nothing in the core sets them to null.
- Aliasing of the maps and of the spec objects, which covers two paths:
  - Read from the cluster: loading and the Application watch require that received applications bring their
    own spec objects (`FreshSpecs`, `SpecUnshared`), as deserialisation does.
  - The store itself: `Valid()` says no two tracked names share one.
