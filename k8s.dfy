/** The part of the Kubernetes object model the operator touches: object
    metadata, typed custom resources, resource-type definitions and watch
    actions, and the by-name collections the in-memory desired state keeps. */
module K8s {

  datatype Option<+T> = None | Some(value: T)

  /** The four custom kinds the operator manages. */
  datatype Kind = ApplicationKind | MicroServiceKind | GatewayKind | RegistryKind

  /** What a watch reports about a resource. */
  datatype Action = Added | Modified | Deleted | Error

  datatype OwnerReference = OwnerReference(
    uid: Option<string>,
    name: string,
    kind: string,
    apiVersion: string,
    controller: bool,
    blockOwnerDeletion: bool)

  /** Object metadata; `jdl` is the additional property carrying the raw descriptor. */
  datatype ObjectMeta = ObjectMeta(
    name: string,
    uid: Option<string>,
    resourceVersion: Option<string>,
    labels: map<string, string>,
    ownerReferences: seq<OwnerReference>,
    finalizers: seq<string>,
    jdl: Option<string>)

  /** A typed custom resource: its metadata and its (possibly missing) spec. */
  datatype Resource<S> = Resource(metadata: ObjectMeta, spec: S)

  datatype ServiceSpec = ServiceSpec(serviceName: string, serviceVersion: string, servicePort: Option<string>)

  /** A MicroService, Gateway or Registry resource. */
  type Service = Resource<Option<ServiceSpec>>

  /** A custom resource definition as listed by the cluster; metadata and name may be null. */
  datatype CrdMeta = CrdMeta(name: Option<string>)
  datatype Crd = Crd(metadata: Option<CrdMeta>)

  const AppLabel := "app"

  predicate HasAppLabel<S>(r: Resource<S>, app: string) {
    AppLabel in r.metadata.labels && r.metadata.labels[AppLabel] == app
  }

  /** The resources a `withLabel("app", app)` listing returns, in listing order. */
  function Labelled<S>(items: seq<Resource<S>>, app: string): seq<Resource<S>> {
    if items == [] then []
    else
      var last := items[|items| - 1];
      Labelled(items[..|items| - 1], app) + (if HasAppLabel(last, app) then [last] else [])
  }

  lemma {:induction false} LabelledMembers<S>(items: seq<Resource<S>>, app: string)
    ensures forall x :: x in Labelled(items, app) <==> x in items && HasAppLabel(x, app)
  {
    if items != [] {
      var p, last := items[..|items| - 1], items[|items| - 1];
      LabelledMembers(p, app);
      assert items == p + [last];
    }
  }

  /** The store after each item is put under its own name, in order. */
  function AddAll<S>(m: map<string, Resource<S>>, items: seq<Resource<S>>): map<string, Resource<S>> {
    if items == [] then m
    else
      var last := items[|items| - 1];
      AddAll(m, items[..|items| - 1])[last.metadata.name := last]
  }

  function NamesOf<S>(items: seq<Resource<S>>): set<string> {
    set i | 0 <= i < |items| :: items[i].metadata.name
  }

  /** The store's names are the old names plus every listed item's name. */
  lemma {:induction false} AddAllKeys<S>(m: map<string, Resource<S>>, items: seq<Resource<S>>)
    ensures AddAll(m, items).Keys == m.Keys + NamesOf(items)
  {
    if items != [] {
      var p, last := items[..|items| - 1], items[|items| - 1];
      AddAllKeys(m, p);
      forall k | k in NamesOf(items) ensures k in NamesOf(p) + {last.metadata.name} {
        var i :| 0 <= i < |items| && items[i].metadata.name == k;
        if i < |p| { assert p[i] == items[i]; }
      }
      forall k | k in NamesOf(p) ensures k in NamesOf(items) {
        var i :| 0 <= i < |p| && p[i].metadata.name == k;
        assert items[i] == p[i];
      }
      assert NamesOf(items) == NamesOf(p) + {last.metadata.name};
    }
  }

  /** The last listed item of a name is what the store holds under that name. */
  lemma {:induction false} AddAllLastWins<S>(m: map<string, Resource<S>>, items: seq<Resource<S>>, i: nat)
    requires i < |items|
    requires forall j :: i < j < |items| ==> items[j].metadata.name != items[i].metadata.name
    ensures items[i].metadata.name in AddAll(m, items)
    ensures AddAll(m, items)[items[i].metadata.name] == items[i]
  {
    var p := items[..|items| - 1];
    if i < |p| {
      assert p[i] == items[i];
      assert forall j :: i < j < |p| ==> p[j] == items[j];
      AddAllLastWins(m, p, i);
    }
  }

  /** Entries that no listed item names are left as they were. */
  lemma {:induction false} AddAllKeeps<S>(m: map<string, Resource<S>>, items: seq<Resource<S>>, k: string)
    requires k in m
    requires forall i :: 0 <= i < |items| ==> items[i].metadata.name != k
    ensures k in AddAll(m, items) && AddAll(m, items)[k] == m[k]
  {
    if items != [] {
      var p := items[..|items| - 1];
      assert forall i :: 0 <= i < |p| ==> p[i] == items[i];
      AddAllKeeps(m, p, k);
    }
  }

  /** Every value in the store came from the old store or from an item of that name. */
  lemma {:induction false} AddAllValues<S>(m: map<string, Resource<S>>, items: seq<Resource<S>>, k: string)
    requires k in AddAll(m, items)
    ensures (k in m && AddAll(m, items)[k] == m[k])
         || (exists i :: 0 <= i < |items| && items[i] == AddAll(m, items)[k] && items[i].metadata.name == k)
  {
    if items != [] {
      var p, last := items[..|items| - 1], items[|items| - 1];
      if k != last.metadata.name {
        AddAllValues(m, p, k);
        if !(k in m && AddAll(m, p)[k] == m[k]) {
          var i :| 0 <= i < |p| && p[i] == AddAll(m, p)[k] && p[i].metadata.name == k;
          assert items[i] == p[i];
        }
      } else {
        assert items[|items| - 1] == AddAll(m, items)[k];
      }
    }
  }

  /** The `forEach` that hands each listed item to the store. */
  method AddEach<S>(m: map<string, Resource<S>>, items: seq<Resource<S>>) returns (r: map<string, Resource<S>>)
    ensures r == AddAll(m, items)
  {
    r := m;
    var i := 0;
    while i < |items|
      invariant 0 <= i <= |items|
      invariant r == AddAll(m, items[..i])
    {
      assert items[..i + 1][..i] == items[..i];
      r := r[items[i].metadata.name := items[i]];
      i := i + 1;
    }
    assert items[..|items|] == items;
  }
}
