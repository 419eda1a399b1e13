/** The cluster as the operator sees it through its typed clients: the
    listed definitions and instances of each kind, and the log of the write
    calls (watch, create, createOrReplace, delete) the operator issues. */
module Client {
  import opened K8s
  import opened AppSpecs

  /** An Application resource held in memory; its spec object may be null. */
  type Application = Resource<ApplicationSpec?>

  /** An Application resource as sent to the cluster: the spec's value at that moment. */
  type AppResource = Resource<Option<SpecState>>

  function Snapshot(app: Application): AppResource
    reads app.spec
  {
    Resource(app.metadata, if app.spec == null then None else Some(app.spec.Value()))
  }

  /** What the platform reports back about an Application it has just created. */
  datatype StoredApp = StoredApp(uid: Option<string>, name: string, kind: string, apiVersion: string)

  datatype Call =
    | WatchOpened(kind: Kind, fromVersion: Option<string>)
    | AppCreated(app: AppResource)
    | ServiceCreated(kind: Kind, service: Service)
    | AppUpserted(app: AppResource)
    | AppDeleted(target: Option<AppResource>)

  class Cluster {
    /** The definitions listing; None when registering the kinds or listing throws. */
    var crdListing: Option<seq<Crd>>
    var applications: seq<Application>
    var microServices: seq<Service>
    var gateways: seq<Service>
    var registries: seq<Service>
    var calls: seq<Call>

    method WatchFrom(kind: Kind, fromVersion: Option<string>)
      modifies this`calls
      ensures calls == old(calls) + [WatchOpened(kind, fromVersion)]
    {
      calls := calls + [WatchOpened(kind, fromVersion)];
    }

    method CreateApplication(app: Application)
      modifies this`calls
      ensures calls == old(calls) + [AppCreated(Snapshot(app))]
    {
      calls := calls + [AppCreated(Snapshot(app))];
    }

    method CreateService(kind: Kind, service: Service)
      modifies this`calls
      ensures calls == old(calls) + [ServiceCreated(kind, service)]
    {
      calls := calls + [ServiceCreated(kind, service)];
    }

    method CreateOrReplace(app: Application)
      modifies this`calls
      ensures calls == old(calls) + [AppUpserted(Snapshot(app))]
    {
      calls := calls + [AppUpserted(Snapshot(app))];
    }

    /** `delete(app)`, where None stands for the null a failed lookup passes. */
    method Delete(app: Option<Application>)
      modifies this`calls
      ensures calls == old(calls) + [AppDeleted(if app.None? then None else Some(Snapshot(app.value)))]
    {
      calls := calls + [AppDeleted(if app.None? then None else Some(Snapshot(app.value)))];
    }
  }
}
