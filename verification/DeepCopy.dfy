/**
 The generated deep copies, over the heap.

 A struct is a value whose fields may point elsewhere: `Cell` is what a pointer points to, `Dict` a map, an array a
 slice; each may be nil, and each may be shared with another struct.  `View` is the content of a struct including which
 parts are nil, `Pointers` every mutable object below it.  A copy has the same view and reaches nothing but objects
 that did not exist before, so writing through one of the two never shows in the other.
 */
module DeepCopy {
  import opened Types

  class Cell<T> {
    var value: T

    constructor (value: T)
      ensures this.value == value
    {
      this.value := value;
    }
  }

  class Dict {
    var entries: map<string, string>

    constructor ()
      ensures entries == map[]
    {
      entries := map[];
    }
  }

  function Deref<T>(c: Cell?<T>): Option<T>
    reads c
  {
    if c == null then None else Some(c.value)
  }

  function Entries(d: Dict?): StringMap
    reads d
  {
    if d == null then None else Some(d.entries)
  }

  function Items<T>(a: array?<T>): Option<seq<T>>
    reads a
  {
    if a == null then None else Some(a[..])
  }

  /** Nil, or allocated by the method that says so. */
  twostate predicate New(new o: object?) {
    o != null ==> fresh(o)
  }

  // ---------------------------------------------------------------- pointers, maps and slices

  method CopyCell<T>(c: Cell?<T>) returns (r: Cell?<T>)
    ensures Deref(r) == old(Deref(c)) && New(r)
  {
    if c == null { return null; }
    r := new Cell(c.value);
  }

  /** Whatever order the keys come in. */
  method CopyDict(d: Dict?) returns (r: Dict?)
    ensures Entries(r) == old(Entries(d)) && New(r)
  {
    if d == null { return null; }
    r := new Dict();
    var left := d.entries.Keys;
    while left != {}
      invariant left <= d.entries.Keys && fresh(r) && d.entries == old(d.entries)
      invariant r.entries == map k | k in d.entries && k !in left :: d.entries[k]
      decreases left
    {
      var k :| k in left;
      r.entries := r.entries[k := d.entries[k]];
      left := left - {k};
    }
    assert r.entries == d.entries;
  }

  method CopyArray<T(0)>(a: array?<T>) returns (r: array?<T>)
    ensures Items(r) == old(Items(a)) && New(r)
  {
    if a == null { return null; }
    r := new T[a.Length];
    for i := 0 to a.Length
      invariant r[..i] == a[..i] && fresh(r) && a[..] == old(a[..])
    {
      r[i] := a[i];
    }
    assert r[..] == a[..];
  }

  // ---------------------------------------------------------------- the nested structs

  datatype IngressStruct = IngressStruct(
    enabled: bool, className: Cell?<string>, host: string, tlsSecretName: string, annotations: Dict?)
  {
    function Pointers(): set<object?> {
      {className, annotations}
    }

    function View(): IngressSpec
      reads Pointers()
    {
      IngressSpec(enabled, Deref(className), host, tlsSecretName, Entries(annotations))
    }

    method DeepCopied() returns (out: IngressStruct)
      ensures out.View() == old(View()) && IngressIsNew(out)
    {
      out := this;
      if className != null { var c := CopyCell(className); out := out.(className := c); }
      if annotations != null { var d := CopyDict(annotations); out := out.(annotations := d); }
    }
  }

  twostate predicate IngressIsNew(new s: IngressStruct) {
    New(s.className) && New(s.annotations)
  }

  datatype ExposureStruct = ExposureStruct(serviceType: ServiceType, port: int, nodePort: int, annotations: Dict?)
  {
    function Pointers(): set<object?> {
      {annotations}
    }

    function View(): ExposureSpec
      reads Pointers()
    {
      ExposureSpec(serviceType, port, nodePort, Entries(annotations))
    }

    method DeepCopied() returns (out: ExposureStruct)
      ensures out.View() == old(View()) && New(out.annotations)
    {
      out := this;
      if annotations != null { var d := CopyDict(annotations); out := out.(annotations := d); }
    }
  }

  datatype PersistenceView = PersistenceView(
    enabled: bool, size: string, storageClassName: Option<string>, accessModes: Option<seq<string>>)

  datatype PersistenceStruct = PersistenceStruct(
    enabled: bool, size: string, storageClassName: Cell?<string>, accessModes: array?<string>)
  {
    function Pointers(): set<object?> {
      {storageClassName, accessModes}
    }

    function View(): PersistenceView
      reads Pointers()
    {
      PersistenceView(enabled, size, Deref(storageClassName), Items(accessModes))
    }

    method DeepCopied() returns (out: PersistenceStruct)
      ensures out.View() == old(View()) && PersistenceIsNew(out)
    {
      out := this;
      if storageClassName != null { var c := CopyCell(storageClassName); out := out.(storageClassName := c); }
      if accessModes != null { var a := CopyArray(accessModes); out := out.(accessModes := a); }
    }
  }

  twostate predicate PersistenceIsNew(new s: PersistenceStruct) {
    New(s.storageClassName) && New(s.accessModes)
  }

  datatype ResourcesView = ResourcesView(limits: StringMap, requests: StringMap, claims: Option<seq<string>>)

  datatype ResourcesStruct = ResourcesStruct(limits: Dict?, requests: Dict?, claims: array?<string>)
  {
    function Pointers(): set<object?> {
      {limits, requests, claims}
    }

    function View(): ResourcesView
      reads Pointers()
    {
      ResourcesView(Entries(limits), Entries(requests), Items(claims))
    }

    method DeepCopied() returns (out: ResourcesStruct)
      ensures out.View() == old(View()) && ResourcesIsNew(out)
    {
      var l := CopyDict(limits);
      var r := CopyDict(requests);
      var c := CopyArray(claims);
      out := ResourcesStruct(l, r, c);
    }
  }

  twostate predicate ResourcesIsNew(new s: ResourcesStruct) {
    New(s.limits) && New(s.requests) && New(s.claims)
  }

  datatype AffinityView = AffinityView(node: Option<Opaque>, pod: Option<Opaque>, antiPod: Option<Opaque>)

  datatype AffinityStruct = AffinityStruct(node: Cell?<Opaque>, pod: Cell?<Opaque>, antiPod: Cell?<Opaque>)
  {
    function Pointers(): set<object?> {
      {node, pod, antiPod}
    }

    function View(): AffinityView
      reads Pointers()
    {
      AffinityView(Deref(node), Deref(pod), Deref(antiPod))
    }

    method DeepCopied() returns (out: AffinityStruct)
      ensures out.View() == old(View()) && AffinityIsNew(out)
    {
      var n := CopyCell(node);
      var p := CopyCell(pod);
      var a := CopyCell(antiPod);
      out := AffinityStruct(n, p, a);
    }
  }

  twostate predicate AffinityIsNew(new s: AffinityStruct) {
    New(s.node) && New(s.pod) && New(s.antiPod)
  }

  function BelowAffinity(a: Cell?<AffinityStruct>): set<object?>
    reads a
  {
    {a} + if a == null then {} else a.value.Pointers()
  }

  function SeenAffinity(a: Cell?<AffinityStruct>): Option<AffinityView>
    reads a, BelowAffinity(a)
  {
    if a == null then None else Some(a.value.View())
  }

  twostate predicate NewAffinity(new a: Cell?<AffinityStruct>)
    reads a
  {
    New(a) && (a != null ==> AffinityIsNew(a.value))
  }

  method CopyAffinity(a: Cell?<AffinityStruct>) returns (r: Cell?<AffinityStruct>)
    ensures SeenAffinity(r) == old(SeenAffinity(a)) && NewAffinity(r)
  {
    hide Deref, Items, Entries;
    if a == null { return null; }
    var value := a.value.DeepCopied();
    r := new Cell(value);
  }

  datatype InternalView = InternalView(
    image: string, imagePullPolicy: string, storageSize: string, storageClassName: Option<string>,
    resources: ResourcesView, rootPasswordSecret: Option<SecretRef>, nodeSelector: StringMap,
    tolerations: Option<seq<Opaque>>, affinity: Option<AffinityView>)

  datatype InternalStruct = InternalStruct(
    image: string, imagePullPolicy: string, storageSize: string, storageClassName: Cell?<string>,
    resources: ResourcesStruct, rootPasswordSecret: Cell?<SecretRef>, nodeSelector: Dict?, tolerations: array?<Opaque>,
    affinity: Cell?<AffinityStruct>)
  {
    function Pointers(): set<object?>
      reads affinity
    {
      {storageClassName, rootPasswordSecret, nodeSelector, tolerations} + resources.Pointers() + BelowAffinity(affinity)
    }

    function View(): InternalView
      reads affinity, Pointers()
    {
      InternalView(image, imagePullPolicy, storageSize, Deref(storageClassName), resources.View(),
                   Deref(rootPasswordSecret), Entries(nodeSelector), Items(tolerations), SeenAffinity(affinity))
    }

    method DeepCopied() returns (out: InternalStruct)
      ensures out.View() == old(View()) && InternalIsNew(out)
    {
      hide Deref, Items, Entries;
      var resources', affinity' := CopyNested();
      var class', root, selector, tolerated := CopyPlain();
      out := this.(storageClassName := class', resources := resources', rootPasswordSecret := root,
                   nodeSelector := selector, tolerations := tolerated, affinity := affinity');
    }

    method CopyNested() returns (resources': ResourcesStruct, affinity': Cell?<AffinityStruct>)
      ensures resources'.View() == old(resources.View()) && ResourcesIsNew(resources')
      ensures SeenAffinity(affinity') == old(SeenAffinity(affinity)) && NewAffinity(affinity')
    {
      hide Deref, Items, Entries;
      resources' := resources.DeepCopied();
      affinity' := CopyAffinity(affinity);
    }

    method CopyPlain()
      returns (class': Cell?<string>, root: Cell?<SecretRef>, selector: Dict?, tolerated: array?<Opaque>)
      ensures Deref(class') == old(Deref(storageClassName)) && New(class')
      ensures Deref(root) == old(Deref(rootPasswordSecret)) && New(root)
      ensures Entries(selector) == old(Entries(nodeSelector)) && New(selector)
      ensures Items(tolerated) == old(Items(tolerations)) && New(tolerated)
    {
      hide Deref, Items, Entries;
      class' := CopyCell(storageClassName);
      root := CopyCell(rootPasswordSecret);
      selector := CopyDict(nodeSelector);
      tolerated := CopyArray(tolerations);
    }
  }

  twostate predicate InternalIsNew(new s: InternalStruct)
    reads s.affinity
  {
    && New(s.storageClassName) && New(s.rootPasswordSecret) && New(s.nodeSelector) && New(s.tolerations)
    && ResourcesIsNew(s.resources) && NewAffinity(s.affinity)
  }

  datatype DatabaseView = DatabaseView(
    mode: Mode, name: string, user: string, tablePrefix: string, internal: Option<InternalView>,
    external: Option<ExternalDb>)

  datatype DatabaseStruct = DatabaseStruct(
    mode: Mode, name: string, user: string, tablePrefix: string, internal: Cell?<InternalStruct>,
    external: Cell?<ExternalDb>)
  {
    /** The one pointer behind a pointer that must be followed to know what is below. */
    function Inner(): set<object?>
      reads internal
    {
      if internal == null then {} else {internal.value.affinity}
    }

    function Pointers(): set<object?>
      reads internal, Inner()
    {
      {internal, external} + if internal == null then {} else internal.value.Pointers()
    }

    function View(): DatabaseView
      reads internal, Inner(), Pointers()
    {
      DatabaseView(mode, name, user, tablePrefix, if internal == null then None else Some(internal.value.View()),
                   Deref(external))
    }

    method DeepCopied() returns (out: DatabaseStruct)
      ensures out.View() == old(View()) && DatabaseIsNew(out)
    {
      hide Deref, Items, Entries;
      out := this;
      if internal != null {
        var value := internal.value.DeepCopied();
        var copy := new Cell(value);
        out := out.(internal := copy);
      }
      if external != null { var c := CopyCell(external); out := out.(external := c); }
    }
  }

  twostate predicate DatabaseIsNew(new s: DatabaseStruct)
    reads s.internal, s.Inner()
  {
    New(s.internal) && (s.internal != null ==> InternalIsNew(s.internal.value)) && New(s.external)
  }

  // ---------------------------------------------------------------- the spec

  // The fields of a spec that are not structs of their own come in two groups here, to keep each copy small.

  datatype ContainerView = ContainerView(
    image: string, imagePullPolicy: string, imagePullSecrets: Option<seq<string>>, replicas: Option<int>,
    siteUrl: string, env: Option<seq<EnvVar>>, autoscaling: AutoscalingSpec,
    maxUnavailable: Option<string>, maxSurge: Option<string>)

  datatype ContainerStruct = ContainerStruct(
    image: string, imagePullPolicy: string, imagePullSecrets: array?<string>, replicas: Cell?<int>,
    siteUrl: string, env: array?<EnvVar>, autoscaling: AutoscalingSpec, maxUnavailable: Cell?<string>,
    maxSurge: Cell?<string>)
  {
    function Pointers(): set<object?> {
      {imagePullSecrets, replicas, env, maxUnavailable, maxSurge}
    }

    function View(): ContainerView
      reads Pointers()
    {
      ContainerView(image, imagePullPolicy, Items(imagePullSecrets), Deref(replicas), siteUrl, Items(env),
                    autoscaling, Deref(maxUnavailable), Deref(maxSurge))
    }

    method DeepCopied() returns (out: ContainerStruct)
      ensures out.View() == old(View()) && ContainerIsNew(out)
    {
      hide Deref, Items, Entries;
      var secrets := CopyArray(imagePullSecrets);
      var count := CopyCell(replicas);
      var variables := CopyArray(env);
      var unavailable := CopyCell(maxUnavailable);
      var surge := CopyCell(maxSurge);
      out := this.(imagePullSecrets := secrets, replicas := count, env := variables, maxUnavailable := unavailable,
                   maxSurge := surge);
    }
  }

  twostate predicate ContainerIsNew(new s: ContainerStruct) {
    New(s.imagePullSecrets) && New(s.replicas) && New(s.env) && New(s.maxUnavailable) && New(s.maxSurge)
  }

  datatype PlacementView = PlacementView(
    podAnnotations: StringMap, podLabels: StringMap, nodeSelector: StringMap, tolerations: Option<seq<Opaque>>)

  datatype PlacementStruct = PlacementStruct(
    podAnnotations: Dict?, podLabels: Dict?, nodeSelector: Dict?, tolerations: array?<Opaque>)
  {
    function Pointers(): set<object?> {
      {podAnnotations, podLabels, nodeSelector, tolerations}
    }

    function View(): PlacementView
      reads Pointers()
    {
      PlacementView(Entries(podAnnotations), Entries(podLabels), Entries(nodeSelector), Items(tolerations))
    }

    method DeepCopied() returns (out: PlacementStruct)
      ensures out.View() == old(View()) && PlacementIsNew(out)
    {
      hide Deref, Items, Entries;
      var annotations := CopyDict(podAnnotations);
      var labels := CopyDict(podLabels);
      var selector := CopyDict(nodeSelector);
      var tolerated := CopyArray(tolerations);
      out := PlacementStruct(annotations, labels, selector, tolerated);
    }
  }

  twostate predicate PlacementIsNew(new s: PlacementStruct) {
    New(s.podAnnotations) && New(s.podLabels) && New(s.nodeSelector) && New(s.tolerations)
  }

  datatype SpecView = SpecView(
    container: ContainerView, resources: ResourcesView, placement: PlacementView, affinity: Option<AffinityView>,
    database: DatabaseView, service: ExposureSpec, ingress: IngressSpec, persistence: PersistenceView)

  datatype SpecStruct = SpecStruct(
    container: ContainerStruct, resources: ResourcesStruct, placement: PlacementStruct, affinity: Cell?<AffinityStruct>,
    database: DatabaseStruct, service: ExposureStruct, ingress: IngressStruct, persistence: PersistenceStruct)
  {
    function Inner(): set<object?>
      reads database.internal
    {
      {affinity, database.internal} + database.Inner()
    }

    function Pointers(): set<object?>
      reads Inner()
    {
      container.Pointers() + resources.Pointers() + placement.Pointers() + BelowAffinity(affinity) + database.Pointers()
      + service.Pointers() + ingress.Pointers() + persistence.Pointers()
    }

    function View(): SpecView
      reads Inner(), Pointers()
    {
      SpecView(container.View(), resources.View(), placement.View(), SeenAffinity(affinity), database.View(),
               service.View(), ingress.View(), persistence.View())
    }

    method DeepCopied() returns (out: SpecStruct)
      ensures out.View() == old(View()) && SpecIsNew(out)
    {
      hide Deref, Items, Entries;
      var database', affinity', container', resources', placement', service', ingress', persistence' := CopyParts();
      out := SpecStruct(container', resources', placement', affinity', database', service', ingress', persistence');
    }

    method CopyParts()
      returns (database': DatabaseStruct, affinity': Cell?<AffinityStruct>, container': ContainerStruct,
               resources': ResourcesStruct, placement': PlacementStruct, service': ExposureStruct,
               ingress': IngressStruct, persistence': PersistenceStruct)
      ensures database'.View() == old(database.View()) && DatabaseIsNew(database')
      ensures SeenAffinity(affinity') == old(SeenAffinity(affinity)) && NewAffinity(affinity')
      ensures container'.View() == old(container.View()) && ContainerIsNew(container')
      ensures resources'.View() == old(resources.View()) && ResourcesIsNew(resources')
      ensures placement'.View() == old(placement.View()) && PlacementIsNew(placement')
      ensures service'.View() == old(service.View()) && New(service'.annotations)
      ensures ingress'.View() == old(ingress.View()) && IngressIsNew(ingress')
      ensures persistence'.View() == old(persistence.View()) && PersistenceIsNew(persistence')
    {
      hide Deref, Items, Entries;
      database', affinity' := CopyDeep();
      container', resources', placement', service', ingress', persistence' := CopyInline();
    }

    method CopyDeep() returns (database': DatabaseStruct, affinity': Cell?<AffinityStruct>)
      ensures database'.View() == old(database.View()) && DatabaseIsNew(database')
      ensures SeenAffinity(affinity') == old(SeenAffinity(affinity)) && NewAffinity(affinity')
    {
      hide Deref, Items, Entries;
      database' := database.DeepCopied();
      affinity' := CopyAffinity(affinity);
    }

    method CopyInline()
      returns (container': ContainerStruct, resources': ResourcesStruct, placement': PlacementStruct,
               service': ExposureStruct, ingress': IngressStruct, persistence': PersistenceStruct)
      ensures container'.View() == old(container.View()) && ContainerIsNew(container')
      ensures resources'.View() == old(resources.View()) && ResourcesIsNew(resources')
      ensures placement'.View() == old(placement.View()) && PlacementIsNew(placement')
      ensures service'.View() == old(service.View()) && New(service'.annotations)
      ensures ingress'.View() == old(ingress.View()) && IngressIsNew(ingress')
      ensures persistence'.View() == old(persistence.View()) && PersistenceIsNew(persistence')
    {
      hide Deref, Items, Entries;
      container', placement' := CopyPod();
      service', ingress', persistence' := CopyRest();
      resources' := resources.DeepCopied();
    }

    method CopyPod() returns (container': ContainerStruct, placement': PlacementStruct)
      ensures container'.View() == old(container.View()) && ContainerIsNew(container')
      ensures placement'.View() == old(placement.View()) && PlacementIsNew(placement')
    {
      hide Deref, Items, Entries;
      container' := container.DeepCopied();
      placement' := placement.DeepCopied();
    }

    method CopyRest() returns (service': ExposureStruct, ingress': IngressStruct, persistence': PersistenceStruct)
      ensures service'.View() == old(service.View()) && New(service'.annotations)
      ensures ingress'.View() == old(ingress.View()) && IngressIsNew(ingress')
      ensures persistence'.View() == old(persistence.View()) && PersistenceIsNew(persistence')
    {
      hide Deref, Items, Entries;
      service' := service.DeepCopied();
      ingress' := ingress.DeepCopied();
      persistence' := persistence.DeepCopied();
    }
  }

  twostate predicate SpecIsNew(new s: SpecStruct)
    reads s.Inner()
  {
    && ContainerIsNew(s.container) && ResourcesIsNew(s.resources) && NewAffinity(s.affinity)
    && PlacementIsNew(s.placement) && DatabaseIsNew(s.database)
    && New(s.service.annotations) && IngressIsNew(s.ingress) && PersistenceIsNew(s.persistence)
  }

  twostate lemma PartsShareNothing(o: object, new copy: SpecStruct)
    requires SpecIsNew(copy)
    ensures o !in copy.container.Pointers() && o !in copy.resources.Pointers() && o !in copy.placement.Pointers()
    ensures o !in copy.service.Pointers() && o !in copy.ingress.Pointers() && o !in copy.persistence.Pointers()
  {
    hide NewAffinity, DatabaseIsNew;
  }

  twostate lemma DeepPartsShareNothing(o: object, new a: Cell?<AffinityStruct>, new db: DatabaseStruct)
    ensures NewAffinity(a) ==> o !in BelowAffinity(a)
    ensures DatabaseIsNew(db) ==> o !in db.Pointers()
  {
  }

  /** Nothing that existed before the copy was made, so nothing its source reaches, is reachable from the copy. */
  twostate lemma CopySharesNothing(o: object, new copy: SpecStruct)
    requires SpecIsNew(copy)
    ensures o !in copy.Pointers()
  {
    hide BelowAffinity, NewAffinity, DatabaseIsNew;
    PartsShareNothing(o, copy);
    DeepPartsShareNothing(o, copy.affinity, copy.database);
  }

  /** `in.DeepCopyInto(out)`: overwrites what `to` points to. */
  method SpecDeepCopyInto(from: Cell<SpecStruct>, to: Cell<SpecStruct>)
    modifies to
    ensures to.value.View() == old(from.value.View())
    ensures SpecIsNew(to.value) && (from != to ==> from.value == old(from.value))
  {
    hide Deref, Items, Entries, SpecStruct.View, BelowAffinity, AffinityIsNew, InternalIsNew;
    var copy := from.value.DeepCopied();
    CopySharesNothing(to, copy);
    assert to !in copy.Inner() && to !in copy.Pointers();
    to.value := copy;
  }

  /** `in.DeepCopy()`: nil stays nil. */
  method SpecDeepCopy(from: Cell?<SpecStruct>) returns (copy: Cell?<SpecStruct>)
    ensures copy == null <==> from == null
    ensures copy != null ==> copy.value.View() == old(from.value.View()) && fresh(copy)
    ensures copy != null ==> SpecIsNew(copy.value)
  {
    hide Deref, Items, Entries;
    if from == null { return null; }
    var value := from.value.DeepCopied();
    label copied:
    copy := new Cell(value);
    assert value.View() == old@copied(value.View());
  }

  // ---------------------------------------------------------------- the status

  datatype StatusView = StatusView(
    observedGeneration: int, phase: Phase, url: string, replicas: int, readyReplicas: int, databaseHost: string,
    conditions: Option<seq<Condition>>)

  datatype StatusStruct = StatusStruct(
    observedGeneration: int, phase: Phase, url: string, replicas: int, readyReplicas: int, databaseHost: string,
    conditions: array?<Condition>)
  {
    function View(): StatusView
      reads conditions
    {
      StatusView(observedGeneration, phase, url, replicas, readyReplicas, databaseHost, Items(conditions))
    }

    method DeepCopied() returns (out: StatusStruct)
      ensures out.View() == old(View()) && New(out.conditions)
    {
      out := this;
      if conditions != null { var a := CopyArray(conditions); out := out.(conditions := a); }
    }
  }

  method StatusDeepCopyInto(from: Cell<StatusStruct>, to: Cell<StatusStruct>)
    modifies to
    ensures to.value.View() == old(from.value.View()) && New(to.value.conditions)
  {
    var copy := from.value.DeepCopied();
    to.value := copy;
  }

  method StatusDeepCopy(from: Cell?<StatusStruct>) returns (copy: Cell?<StatusStruct>)
    ensures copy == null <==> from == null
    ensures copy != null ==> copy.value.View() == old(from.value.View()) && fresh(copy) && New(copy.value.conditions)
  {
    if from == null { return null; }
    var value := from.value.DeepCopied();
    label copied:
    copy := new Cell(value);
    assert value.View() == old@copied(value.View());
  }
}
