/**
 The reconcile loop as the operator runs it: methods that call the API server one request at a time and update the
 resource in memory as they go.

 The answers come from an arbitrary stream, so everything here holds whatever the server does.  The client carries the
 machine's pass along as a ghost monitor and accepts a request only if it is the one the machine would make next; a
 method that calls the server out of turn, with the wrong object, or once too often does not verify.  What the methods
 ensure is the machine's pass at their end, and the machine is what all theorems about runs are proved of.
 */
module Reconciler {
  import opened Types
  import opened Names
  import opened Conditions
  import opened Defaults
  import opened Drift
  import opened Server
  import opened Machine
  import opened Builders
  import opened BuilderMethods
  import Quiet

  class Client {
    const answers: nat -> Response
    var calls: nat
    ghost var pass: Pass

    ghost predicate Expects(req: Request)
      reads this
    {
      !pass.Finished? && Call(pass) == req
    }

    constructor (answers: nat -> Response, ghost pass: Pass)
      ensures this.pass == pass && calls == 0 && this.answers == answers
    {
      this.answers := answers;
      this.calls := 0;
      this.pass := pass;
    }

    /** Reads are typed: an answer of another kind is a decoding error. */
    method Get(key: Key) returns (r: Response)
      requires Expects(Request.Get(key))
      modifies this
      ensures pass == Next(old(pass), r)
      ensures r.Found? ==> KindOf(r.obj.body) == key.kind
      ensures !r.Found? ==> r.Refused?
    {
      r := answers(calls);
      if !r.Refused? && !(r.Found? && KindOf(r.obj.body) == key.kind) { r := Refused(Other); }
      calls := calls + 1;
      pass := Next(pass, r);
    }

    method Write(req: Request) returns (error: Option<Error>)
      requires !req.Get? && Expects(req)
      modifies this
      ensures pass == Next(old(pass), if error.Some? then Refused(error.value) else Done)
    {
      var r := answers(calls);
      error := if r.Refused? then Some(r.error) else None;
      calls := calls + 1;
      pass := Next(pass, if error.Some? then Refused(error.value) else Done);
    }
  }

  /** The resource in memory, updated in place. */
  class Resource {
    const key: Key
    var meta: Meta
    var generation: nat
    var spec: WordPressSpec
    var status: WordPressStatus

    constructor (key: Key, meta: Meta, generation: nat, spec: WordPressSpec, status: WordPressStatus)
      ensures Value() == WordPress(key, meta, generation, spec, status)
    {
      this.key := key;
      this.meta := meta;
      this.generation := generation;
      this.spec := spec;
      this.status := status;
    }

    function Value(): WordPress
      reads this
    {
      WordPress(key, meta, generation, spec, status)
    }

    method SetCondition(c: Condition)
      modifies this`status
      ensures status == old(status).(conditions := Conditions.SetCondition(old(status).conditions, c))
    {
      status := status.(conditions := Conditions.SetCondition(status.conditions, c));
    }

    /** `applyDefaults`, one section of the spec after the other. */
    method ApplyDefaults()
      modifies this`spec
      ensures spec == Defaulted(old(spec))
    {
      hide Or, OrNumber, DefaultDatabase, DefaultAutoscaling;
      DefaultContainer();
      DefaultExposure();
      DefaultPersistence();
      var db := DefaultedDatabase(spec.database);
      spec := spec.(database := db);
      var a := DefaultedAutoscaling(spec.autoscaling);
      spec := spec.(autoscaling := a);
    }

    method DefaultContainer()
      modifies this`spec
      ensures spec == old(spec).(image := Or(old(spec).image, "wordpress:6.5-apache"),
                                 imagePullPolicy := Or(old(spec).imagePullPolicy, "IfNotPresent"),
                                 replicas := if old(spec).replicas.None? then Some(1) else old(spec).replicas)
    {
      if spec.image == "" { spec := spec.(image := "wordpress:6.5-apache"); }
      if spec.imagePullPolicy == "" { spec := spec.(imagePullPolicy := "IfNotPresent"); }
      if spec.replicas == None { spec := spec.(replicas := Some(1)); }
    }

    method DefaultExposure()
      modifies this`spec
      ensures spec == old(spec).(service := old(spec).service.(
                serviceType := if old(spec).service.serviceType.NoServiceType? then ClusterIP
                               else old(spec).service.serviceType,
                port := OrNumber(old(spec).service.port, 80)))
    {
      if spec.service.serviceType.NoServiceType? { spec := spec.(service := spec.service.(serviceType := ClusterIP)); }
      if spec.service.port == 0 { spec := spec.(service := spec.service.(port := 80)); }
    }

    method DefaultPersistence()
      modifies this`spec
      ensures spec == old(spec).(persistence := old(spec).persistence.(
                size := Or(old(spec).persistence.size, "5Gi"),
                accessModes := if old(spec).persistence.accessModes == [] then ["ReadWriteOnce"]
                               else old(spec).persistence.accessModes))
    {
      if spec.persistence.size == "" { spec := spec.(persistence := spec.persistence.(size := "5Gi")); }
      if |spec.persistence.accessModes| == 0 {
        spec := spec.(persistence := spec.persistence.(accessModes := ["ReadWriteOnce"]));
      }
    }
  }

  method DefaultedDatabase(given: DatabaseSpec) returns (db: DatabaseSpec)
    ensures db == DefaultDatabase(given)
  {
    db := given;
    if db.mode == NoMode { db := db.(mode := Internal); }
    db := db.(name := Or(db.name, "wordpress"), user := Or(db.user, "wordpress"),
              tablePrefix := Or(db.tablePrefix, "wp_"));
    if db.mode == Internal {
      // A nil section is allocated first.
      var internal := if db.internal == None then EMPTY_INTERNAL else db.internal.value;
      internal := DefaultedInternal(internal);
      db := db.(internal := Some(internal));
    }
    if db.mode == External && db.external.Some? && db.external.value.port == 0 {
      db := db.(external := Some(db.external.value.(port := 3306)));
    }
  }

  method DefaultedInternal(given: InternalDb) returns (internal: InternalDb)
    ensures internal == DefaultInternal(given)
  {
    internal := given;
    if internal.image == "" { internal := internal.(image := "mysql:8.0"); }
    if internal.imagePullPolicy == "" { internal := internal.(imagePullPolicy := "IfNotPresent"); }
    if internal.storageSize == "" { internal := internal.(storageSize := "5Gi"); }
  }

  method DefaultedAutoscaling(given: AutoscalingSpec) returns (a: AutoscalingSpec)
    ensures a == DefaultAutoscaling(given)
  {
    a := given;
    if a.enabled {
      if a.minReplicas == 0 { a := a.(minReplicas := 1); }
      if a.maxReplicas == 0 { a := a.(maxReplicas := 5); }
      if a.targetCpu == 0 { a := a.(targetCpu := 80); }
    }
  }

  /** The machine's pass and the resource in memory are about the same thing. */
  ghost predicate Tracks(p: Pass, wp: Resource)
    reads wp
  {
    && p.Working? && p.key == wp.key
    && p.wp == WordPress(wp.key, wp.meta, wp.generation, wp.spec, p.wp.status)
    && p.status == wp.status
  }

  function ErrorOf(r: Response): Option<Error> { if r.Refused? then Some(r.error) else None }

  class Controller {
    const client: Client
    const quantities: Quantities
    const draw: Draw

    constructor (client: Client, quantities: Quantities, draw: Draw)
      ensures this.client == client && this.quantities == quantities && this.draw == draw
    {
      this.client := client;
      this.quantities := quantities;
      this.draw := draw;
    }

    /** The pass in the monitor builds what this controller's builders build. */
    ghost predicate Serves(p: Pass, wp: Resource)
      reads wp
    {
      Tracks(p, wp) && p.render == Builder(quantities, draw)
    }

    lemma BuildsFor(p: Pass, wp: Resource, c: Child)
      requires Serves(p, wp)
      ensures p.render(p.wp, c) == Build(wp.Value(), c, quantities, draw)
    {
      BuildLooksAt(p.wp, wp.Value(), c, quantities, draw);
    }

    /** `applyService`. */
    method ApplyService(key: Key, desired: Object, ghost p: Pass, ghost c: Child) returns (error: Option<Error>)
      requires p.Working? && (c.DbService? || c.SiteService?) && Wanted(p.wp.spec, c)
      requires client.pass == p.(at := Reading(c)) && key == ChildKey(c, p.key) && key.kind == ServiceKind
      requires p.render(p.wp, c) == Some(desired) && desired.body.ServiceBody?
      modifies client
      ensures client.pass == if error.Some? then Fail(p, c, error.value) else Proceed(p, c)
    {
      hide ChildKey, Proceed;
      forall q: Pass, at | q.Working? { Quiet.ProceedIgnoresPoint(q, c, at); }
      var r := client.Get(key);
      if r == Refused(NotFound) {
        error := client.Write(Create(key, desired));
        return;
      }
      if r.Refused? { return Some(r.error); }
      var existing := r.obj;
      var patch := existing;
      patch := patch.(meta := patch.meta.(labels := desired.meta.labels));
      patch := patch.(meta := patch.meta.(annotations := desired.meta.annotations));
      var spec := patch.body.service;
      spec := spec.(serviceType := desired.body.service.serviceType);
      spec := spec.(selector := desired.body.service.selector);
      spec := spec.(sessionAffinity := desired.body.service.sessionAffinity);
      spec := spec.(ports := desired.body.service.ports);
      patch := patch.(body := ServiceBody(spec));
      assert patch == Merge(existing, desired);
      if existing.body.service != patch.body.service || existing.meta.labels != patch.meta.labels
         || existing.meta.annotations != patch.meta.annotations
      {
        error := client.Write(Update(key, patch));
        return;
      }
      return None;
    }

    /** What the database helper leaves to its caller: `q` is the pass with the status as it is now in memory. */
    ghost predicate DatabaseDone(q: Pass, requeue: nat, error: Option<Error>)
      reads client
      requires q.Working?
    {
      && (requeue == 0 || (requeue == WAIT_FOR_SECRET && error.None?))
      && client.pass == if error.Some? then Jump(q, FetchingLatest(0, ThenReturn(error.value)))
                        else if requeue != 0 then Jump(q, FetchingLatest(0, ThenWait))
                        else AfterDatabase(q)
    }

    /** `reconcileDatabase`. */
    method ReconcileDatabase(wp: Resource, ghost p: Pass) returns (requeue: nat, error: Option<Error>)
      requires Serves(p, wp) && client.pass == Begin(p)
      requires wp.spec.database.mode.External? ==> wp.spec.database.external.Some?
      requires !wp.spec.database.mode.External? ==> wp.spec.database.internal.Some?
      modifies client, wp`status
      ensures Serves(p.(status := wp.status), wp) && DatabaseDone(p.(status := wp.status), requeue, error)
    {
      hide AfterDatabase, Approach, Conditions.SetCondition, Build;
      if wp.spec.database.mode == External {
        requeue, error := CheckExternalSecret(wp, p);
        return;
      }
      error := EnsureSecret(wp, p);
      if error.Some? { return 0, error; }

      BuildsFor(p, wp, DbService);
      BuildIs(wp.Value(), quantities, draw);
      Quiet.ApproachWanted(p, DbService);
      var key := Key(ServiceKind, wp.key.ns, DatabaseName(wp.key.name));
      error := ApplyService(key, HeadlessService(wp.Value()), p, DbService);
      if error.Some? { return 0, error; }

      error := EnsureStatefulSet(wp, p);
      return 0, error;
    }

    method CheckExternalSecret(wp: Resource, ghost p: Pass) returns (requeue: nat, error: Option<Error>)
      requires Serves(p, wp) && client.pass == Jump(p, CheckingSecret) && wp.spec.database.external.Some?
      modifies client, wp`status
      ensures Serves(p.(status := wp.status), wp) && DatabaseDone(p.(status := wp.status), requeue, error)
    {
      hide AfterDatabase, Conditions.SetCondition;
      forall q: Pass, at | q.Working? { Quiet.AfterDatabaseIgnoresPoint(q, at); }
      var name := wp.spec.database.external.value.passwordSecret.name;
      var r := client.Get(Key(SecretKind, wp.key.ns, name));
      if r.Refused? {
        if r.error == NotFound {
          wp.SetCondition(Condition(DatabaseReady, false, ExternalSecretMissing, SecretName(name)));
          return 30, None;
        }
        return 0, Some(r.error);
      }
      wp.SetCondition(Condition(DatabaseReady, true, ExternalDatabase, Plain));
      return 0, None;
    }

    /** The credentials Secret is created if it is missing and never touched again. */
    method EnsureSecret(wp: Resource, ghost p: Pass) returns (error: Option<Error>)
      requires Serves(p, wp) && client.pass == Approach(p, DbSecret) && Wanted(wp.spec, DbSecret)
      modifies client
      ensures client.pass == if error.Some? then Fail(p, DbSecret, error.value) else Approach(p, DbService)
    {
      hide ChildKey, Build, Approach;
      SecretKeyIs(p.key);
      ApproachIs(p, DbSecret);
      BuildsFor(p, wp, DbSecret);
      BuildIs(wp.Value(), quantities, draw);
      var desired := SecretObject(wp.Value(), draw);
      if desired == None { return Some(Other); }
      SecretIsNeverUpdated(wp.Value(), draw);
      forall q: Pass, at | q.Working? { ApproachIgnoresPoint(q, DbService, at); }
      hide SecretObject, Merge, NeedsUpdate;
      var key := Key(SecretKind, wp.key.ns, SecretNameOf(wp.key.name));
      var r := client.Get(key);
      if r == Refused(NotFound) {
        error := client.Write(Create(key, desired.value));
        return;
      }
      return ErrorOf(r);
    }

    /** Creates the StatefulSet, or updates its pod template and replica count; then judges readiness by the StatefulSet
        as it was read, which is the zero value if it was not there. */
    method EnsureStatefulSet(wp: Resource, ghost p: Pass) returns (error: Option<Error>)
      requires Serves(p, wp) && client.pass == Approach(p, DbStatefulSet) && Wanted(wp.spec, DbStatefulSet)
      requires wp.spec.database.internal.Some?
      modifies client, wp`status
      ensures Serves(p.(status := wp.status), wp) && DatabaseDone(p.(status := wp.status), 0, error)
    {
      hide ChildKey, Build, AfterDatabase, Conditions.SetCondition, Approach;
      BuildsFor(p, wp, DbStatefulSet);
      BuildIs(wp.Value(), quantities, draw);
      var built := BuildStatefulSet(wp.Value(), quantities);
      ApproachIs(p, DbStatefulSet);
      if built == None { return Some(Other); }
      StatefulSetBuilt(wp.Value(), quantities);
      StatefulSetKeyIs(p.key);
      var readyPods;
      error, readyPods :=
        ApplyStatefulSet(Key(StatefulSetKind, wp.key.ns, DatabaseName(wp.key.name)), built.value, p);
      if error.Some? { return; }
      if readyPods >= 1 {
        wp.SetCondition(Condition(DatabaseReady, true, MySQLReady, Plain));
      } else {
        wp.SetCondition(Condition(DatabaseReady, false, MySQLNotReady, Plain));
      }
    }

    method ApplyStatefulSet(key: Key, desired: Object, ghost p: Pass) returns (error: Option<Error>, readyPods: int)
      requires p.Working? && Wanted(p.wp.spec, DbStatefulSet) && client.pass == Jump(p, Reading(DbStatefulSet))
      requires key == ChildKey(DbStatefulSet, p.key) && key.kind == StatefulSetKind
      requires p.render(p.wp, DbStatefulSet) == Some(desired) && desired.body.StatefulSetBody?
      modifies client
      ensures client.pass == if error.Some? then Jump(p, FetchingLatest(0, ThenReturn(error.value)))
                             else AfterDatabase(Mark(p, DatabaseCondition(readyPods)))
    {
      hide ChildKey, AfterDatabase, Conditions.SetCondition;
      forall q: Pass, at | q.Working? { Quiet.AfterDatabaseIgnoresPoint(q, at); }
      readyPods := 0;
      var r := client.Get(key);
      if r == Refused(NotFound) {
        error := client.Write(Create(key, desired));
        return;
      }
      if r.Refused? { return Some(r.error), 0; }
      var existing := r.obj;
      var spec := existing.body.statefulSet;
      spec := spec.(replicas := desired.body.statefulSet.replicas);
      spec := spec.(template := desired.body.statefulSet.template);
      var patch := existing.(body := StatefulSetBody(spec, existing.body.readyPods));
      assert patch == Merge(existing, desired);
      readyPods := existing.body.readyPods;
      if existing.body.statefulSet.template != spec.template || existing.body.statefulSet.replicas != spec.replicas {
        error := client.Write(Update(key, patch));
        return;
      }
      error := None;
    }

    /** `reconcilePVC`: the claim is created if it is missing and never resized. */
    method ReconcileClaim(wp: Resource, ghost p: Pass) returns (error: Option<Error>)
      requires Serves(p, wp) && client.pass == AfterDatabase(p)
      modifies client
      ensures client.pass == if error.Some? then Finish(p, Swallow(error.value)) else ApproachDeployment(p)
    {
      hide ChildKey, Build, ApproachDeployment, Approach;
      Quiet.ClaimWanted(wp.spec);
      if !wp.spec.persistence.enabled { return None; }
      BuildsFor(p, wp, ContentClaim);
      BuildIs(wp.Value(), quantities, draw);
      ApproachIs(p, ContentClaim);
      if wp.spec.persistence.size !in quantities { return Some(Other); }
      var desired := ClaimObject(wp.Value(), quantities).value;
      ClaimIsNeverUpdated(wp.Value(), quantities);
      forall q: Pass, at | q.Working? { ApproachDeploymentIgnoresPoint(q, at); }
      PlainKeys(p.key);
      hide ClaimObject, Merge, NeedsUpdate;
      var key := Key(ClaimKind, wp.key.ns, ContentName(wp.key.name));
      var r := client.Get(key);
      if r == Refused(NotFound) {
        error := client.Write(Create(key, desired));
        return;
      }
      return ErrorOf(r);
    }

    /** `reconcileWordPressDeployment`. */
    method ReconcileDeployment(wp: Resource, ghost p: Pass) returns (error: Option<Error>)
      requires Serves(p, wp) && client.pass == ApproachDeployment(p)
      requires wp.spec.database.mode.External? ==> wp.spec.database.external.Some?
      modifies client, wp`status
      ensures Serves(p.(status := wp.status), wp)
      ensures
        var q := p.(status := wp.status);
        client.pass == if error.Some? then Finish(q, Swallow(error.value)) else Approach(q, SiteService)
    {
      hide ChildKey, Build, Approach;
      var host, port := ResolvedHost(wp.Value()), ResolvedPort(wp.Value());
      wp.status := wp.status.(databaseHost := host);
      ghost var q := p.(status := wp.status);
      var dbEnv := [EnvVar("WORDPRESS_DB_PASSWORD", FromSecret(PasswordSource(wp.Value())))];
      var desired := BuildDeployment(wp.Value(), host, port, dbEnv);
      BuildsFor(q, wp, Deployment);
      BuildIs(wp.Value(), quantities, draw);
      Quiet.AlwaysWanted(wp.spec);
      ApproachIs(q, Deployment);
      PlainKeys(p.key);
      DeploymentBuilt(wp.Value());
      hide DeploymentObject, ResolvedHost;
      error := ApplyDeployment(Key(DeploymentKind, wp.key.ns, wp.key.name), desired, q);
    }

    method ApplyDeployment(key: Key, desired: Object, ghost p: Pass) returns (error: Option<Error>)
      requires p.Working? && Wanted(p.wp.spec, Deployment) && client.pass == Jump(p, Reading(Deployment))
      requires key == ChildKey(Deployment, p.key) && key.kind == DeploymentKind
      requires p.render(p.wp, Deployment) == Some(desired) && desired.body.DeploymentBody?
      modifies client
      ensures client.pass == if error.Some? then Finish(p, Swallow(error.value)) else Approach(p, SiteService)
    {
      hide ChildKey, Approach;
      forall q: Pass, at | q.Working? { ApproachIgnoresPoint(q, SiteService, at); }
      var r := client.Get(key);
      if r == Refused(NotFound) {
        error := client.Write(Create(key, desired));
        return;
      }
      if r.Refused? { return Some(r.error); }
      var existing := r.obj;
      var spec := existing.body.deployment;
      spec := spec.(replicas := desired.body.deployment.replicas);
      spec := spec.(strategy := desired.body.deployment.strategy);
      spec := spec.(template := desired.body.deployment.template);
      var patch := existing.(meta := existing.meta.(labels := desired.meta.labels),
                             body := existing.body.(deployment := spec));
      assert patch == Merge(existing, desired);
      if !DeploymentEqual(existing, patch) {
        error := client.Write(Update(key, patch));
        return;
      }
      return None;
    }

    /** `reconcileWordPressService`. */
    method ReconcileService(wp: Resource, ghost p: Pass) returns (error: Option<Error>)
      requires Serves(p, wp) && client.pass == Approach(p, SiteService)
      modifies client
      ensures client.pass == if error.Some? then Finish(p, Swallow(error.value)) else Approach(p, SiteIngress)
    {
      hide ChildKey, Build, Approach;
      var desired := BuildService(wp.Value());
      BuildsFor(p, wp, SiteService);
      BuildIs(wp.Value(), quantities, draw);
      Quiet.AlwaysWanted(wp.spec);
      ApproachIs(p, SiteService);
      PlainKeys(p.key);
      ServiceBuilt(wp.Value());
      hide SiteServiceObject;
      error := ApplyService(Key(ServiceKind, wp.key.ns, wp.key.name), desired, p, SiteService);
    }

    /** `reconcileIngress`. */
    method ReconcileIngress(wp: Resource, ghost p: Pass) returns (error: Option<Error>)
      requires Serves(p, wp) && client.pass == Approach(p, SiteIngress)
      modifies client, wp`status
      ensures Serves(p.(status := wp.status), wp)
      ensures
        var q := p.(status := wp.status);
        client.pass == if error.Some? then Finish(q, Swallow(error.value)) else Approach(q, Autoscaler)
    {
      hide ChildKey, Build, Approach;
      PlainKeys(p.key);
      var key := Key(IngressKind, wp.key.ns, wp.key.name);
      if !wp.spec.ingress.enabled {
        UnwantedApproach(p, SiteIngress);
        error := WithdrawIngress(key, wp, p);
        return;
      }
      var desired := BuildIngress(wp.Value());
      BuildsFor(p, wp, SiteIngress);
      BuildIs(wp.Value(), quantities, draw);
      ApproachIs(p, SiteIngress);
      IngressBuilt(wp.Value());
      hide IngressObject;
      error := ApplyIngress(key, desired, wp, p);
    }

    /** The half of `reconcileIngress` for an Ingress that is not wanted. */
    method WithdrawIngress(key: Key, wp: Resource, ghost p: Pass) returns (error: Option<Error>)
      requires Serves(p, wp) && !Wanted(p.wp.spec, SiteIngress) && client.pass == Jump(p, Reading(SiteIngress))
      requires key == ChildKey(SiteIngress, p.key) && key.kind == IngressKind
      modifies client, wp`status
      ensures Serves(p.(status := wp.status), wp)
      ensures
        var q := p.(status := wp.status);
        client.pass == if error.Some? then Finish(q, Swallow(error.value)) else Approach(q, Autoscaler)
    {
      hide ChildKey, RemoveCondition, Approach;
      forall q: Pass, at | q.Working? { ApproachIgnoresPoint(q, Autoscaler, at); }
      var r := client.Get(key);
      if r == Refused(NotFound) {
        wp.status := wp.status.(conditions := RemoveCondition(wp.status.conditions, IngressConfigured));
        return None;
      }
      if r.Refused? { return Some(r.error); }
      if r.obj.meta.controller == Some(wp.meta.uid) {
        error := client.Write(Delete(key));
        return;
      }
      return None;
    }

    method ApplyIngress(key: Key, desired: Object, wp: Resource, ghost p: Pass) returns (error: Option<Error>)
      requires Serves(p, wp) && Wanted(p.wp.spec, SiteIngress) && client.pass == Jump(p, Reading(SiteIngress))
      requires key == ChildKey(SiteIngress, p.key) && key.kind == IngressKind
      requires p.render(p.wp, SiteIngress) == Some(desired) && desired.body.IngressBody?
      modifies client, wp`status
      ensures Serves(p.(status := wp.status), wp)
      ensures
        var q := p.(status := wp.status);
        client.pass == if error.Some? then Finish(q, Swallow(error.value)) else Approach(q, Autoscaler)
    {
      hide ChildKey, Conditions.SetCondition, Approach;
      forall q: Pass, at | q.Working? { ApproachIgnoresPoint(q, Autoscaler, at); }
      var r := client.Get(key);
      if r == Refused(NotFound) {
        error := client.Write(Create(key, desired));
        if error.Some? { return; }
        wp.SetCondition(Condition(IngressConfigured, true, Created, Plain));
        return None;
      }
      if r.Refused? { return Some(r.error); }
      var existing := r.obj;
      var patch := existing.(meta := existing.meta.(labels := desired.meta.labels));
      patch := patch.(meta := patch.meta.(annotations := desired.meta.annotations));
      patch := patch.(body := desired.body);
      assert patch == Merge(existing, desired);
      if existing.body.ingress != patch.body.ingress || existing.meta.labels != patch.meta.labels
         || existing.meta.annotations != patch.meta.annotations
      {
        error := client.Write(Update(key, patch));
        if error.Some? { return; }
      }
      wp.SetCondition(Condition(IngressConfigured, true, Reconciled, Plain));
      return None;
    }

    /** `reconcileHPA`. */
    method ReconcileAutoscaler(wp: Resource, ghost p: Pass) returns (error: Option<Error>)
      requires Serves(p, wp) && client.pass == Approach(p, Autoscaler)
      modifies client
      ensures client.pass == if error.Some? then Finish(p, Swallow(error.value)) else Jump(p, ReadingStatus)
    {
      hide ChildKey, Build, Approach;
      PlainKeys(p.key);
      var key := Key(AutoscalerKind, wp.key.ns, AutoscalerName(wp.key.name));
      if !wp.spec.autoscaling.enabled {
        UnwantedApproach(p, Autoscaler);
        var r := client.Get(key);
        if r == Refused(NotFound) { return None; }
        if r.Refused? { return Some(r.error); }
        if r.obj.meta.controller == Some(wp.meta.uid) {
          error := client.Write(Delete(key));
          return;
        }
        return None;
      }
      var desired := AutoscalerObject(wp.Value());
      BuildsFor(p, wp, Autoscaler);
      BuildIs(wp.Value(), quantities, draw);
      ApproachIs(p, Autoscaler);
      AutoscalerBuilt(wp.Value());
      hide AutoscalerObject;
      error := ApplyAutoscaler(key, desired, p);
    }

    method ApplyAutoscaler(key: Key, desired: Object, ghost p: Pass) returns (error: Option<Error>)
      requires p.Working? && Wanted(p.wp.spec, Autoscaler) && client.pass == Jump(p, Reading(Autoscaler))
      requires key == ChildKey(Autoscaler, p.key) && key.kind == AutoscalerKind
      requires p.render(p.wp, Autoscaler) == Some(desired) && desired.body.AutoscalerBody?
      modifies client
      ensures client.pass == if error.Some? then Finish(p, Swallow(error.value)) else Jump(p, ReadingStatus)
    {
      hide ChildKey;
      var r := client.Get(key);
      if r == Refused(NotFound) {
        error := client.Write(Create(key, desired));
        return;
      }
      if r.Refused? { return Some(r.error); }
      var existing := r.obj;
      var patch := existing.(meta := existing.meta.(labels := desired.meta.labels), body := desired.body);
      assert patch == Merge(existing, desired);
      if existing.body.autoscaler != patch.body.autoscaler || existing.meta.labels != patch.meta.labels {
        error := client.Write(Update(key, patch));
        return;
      }
      return None;
    }

    /** `persistStatus`: copy the status aside, then read the latest resource, put the copy on it and write it back;
        begin again on a conflict, at most five times. */
    method PersistStatus(wp: Resource, ghost p: Pass, ghost after: After) returns (error: Option<Error>)
      requires Tracks(p, wp) && client.pass == Jump(p, FetchingLatest(0, after)) && wp.key.kind == WordPressKind
      modifies client
      ensures client.pass == Persisted(p, after, error)
    {
      hide Persisted;
      forall at, e { PersistedIgnoresPoint(p, at, after, e); }
      var desired := wp.status;
      error := None;
      for attempt := 0 to 5
        invariant attempt < 5 ==> client.pass == Jump(p, FetchingLatest(attempt, after))
        invariant attempt == 5 ==> client.pass == Persisted(p, after, error)
      {
        var r := client.Get(wp.key);
        if r.Refused? {
          error := Some(r.error);
          if error != Some(Conflict) { return; }
        } else {
          var latest := r.obj;
          latest := latest.(body := latest.body.(status := desired));
          error := client.Write(Request.UpdateStatus(wp.key, latest));
          if error != Some(Conflict) { return; }
        }
      }
    }

    /** `markFailed`. */
    method MarkFailed(wp: Resource, why: SpecError, ghost p: Pass) returns (error: Option<Error>)
      requires Tracks(p, wp) && wp.key.kind == WordPressKind
      requires client.pass == Jump(p.(status := FailedStatus(p.status, why)), FetchingLatest(0, ThenGiveUp))
      modifies client, wp`status
      ensures client.pass == Finish(p, None)
    {
      wp.status := wp.status.(phase := Failed);
      wp.SetCondition(Condition(ReadyCondition, false, InvalidSpec, Rejected(why)));
      error := PersistStatus(wp, p.(status := wp.status), ThenGiveUp);
    }

    /** `updateStatus`. */
    method UpdateStatus(wp: Resource, ghost p: Pass) returns (error: Option<Error>)
      requires Tracks(p, wp) && client.pass == Jump(p, ReadingStatus) && wp.key.kind == WordPressKind
      modifies client, wp`status
      ensures Tracks(p.(status := wp.status), wp)
      ensures
        client.pass == if error.Some? then Finish(p, Swallow(error.value))
                       else Finished(p.key, p.render,
                                     Result(None, if wp.status.phase.Ready? then 0 else WAIT_FOR_READY))
    {
      PlainKeys(p.key);
      hide ChildKey, Conditions.SetCondition, ComputeUrl;
      var total, ready := 0, 0;
      var r := client.Get(Key(DeploymentKind, wp.key.ns, wp.key.name));
      if r.Refused? && r.error != NotFound { return Some(r.error); }
      if r.Found? { total, ready := r.obj.body.replicas, r.obj.body.readyReplicas; }
      SetReported(wp, p, total, ready);
      error := PersistStatus(wp, p.(status := wp.status), ThenReport);
    }

    /** The part of `updateStatus` between its read and its write. */
    method SetReported(wp: Resource, ghost p: Pass, total: int, ready: int)
      requires Tracks(p, wp)
      modifies wp`status
      ensures wp.status == ReportedStatus(p.wp, p.status, total, ready)
    {
      hide Conditions.SetCondition, ComputeUrl;
      wp.status := wp.status.(replicas := total, readyReplicas := ready, observedGeneration := wp.generation);
      var depReady := ready > 0 && ready == total;
      if depReady {
        wp.SetCondition(Condition(DeploymentReady, true, AllReplicasReady, Plain));
      } else {
        wp.SetCondition(Condition(DeploymentReady, false, Progressing, ReplicaCount(ready, total)));
      }
      var dbReady := Holds(wp.status.conditions, DatabaseReady);
      if dbReady && depReady {
        wp.status := wp.status.(phase := Ready);
        wp.SetCondition(Condition(ReadyCondition, true, AllReady, Plain));
      } else {
        wp.status := wp.status.(phase := Provisioning);
        wp.SetCondition(Condition(ReadyCondition, false, Progressing, Plain));
      }
      wp.status := wp.status.(url := ComputeUrl(wp.spec));
    }

    /** `handleDeletion`. */
    method HandleDeletion(wp: Resource, ghost p: Pass) returns (error: Option<Error>)
      requires p.Fetching? && p.key == wp.key && wp.meta.deleting && client.pass == Admit(p, wp.Value())
      modifies client, wp`meta
      ensures client.pass == Finish(p, error)
    {
      hide Defaulted, Validate, Begin, DataKey, Without;
      if FINALIZER !in wp.meta.finalizers { return None; }
      var retain := Retained(wp.meta);
      if wp.spec.database.mode == Internal && !retain {
        assert DataKey(p.key).kind == ClaimKind by { DataKeyIs(p.key); }
        var r := client.Get(DataKey(wp.key));
        if r.Found? {
          var refused := client.Write(Delete(DataKey(wp.key)));
          if refused.Some? && refused.value != NotFound { return refused; }
        } else if r.error != NotFound {
          return Some(r.error);
        }
      }
      wp.meta := wp.meta.(finalizers := Without(wp.meta.finalizers, FINALIZER));
      error := client.Write(Update(wp.key, AsObject(wp.Value())));
      if error.Some? { error := Swallow(error.value); }
    }

    /** `Reconcile`. Whatever the API server answers, the method makes exactly the calls of the machine's pass, one
        after the other, and returns the machine's result. */
    method Reconcile(key: Key, ghost render: Render) returns (error: Option<Error>, requeueAfter: nat)
      requires client.pass == Fetching(key, render) && key.kind == WordPressKind
      requires render == Builder(quantities, draw)
      modifies client
      ensures client.pass == Finished(key, render, Result(error, requeueAfter))
    {
      hide Admit, ChildKey;
      ghost var start := Fetching(key, render);
      var r := client.Get(key);
      if r.Refused? {
        if r.error == NotFound { return None, 0; }
        return Some(r.error), 0;
      }
      var o := r.obj;
      var wp := new Resource(key, o.meta, o.body.generation, o.body.spec, o.body.status);
      ghost var cr := wp.Value();
      assert client.pass == Admit(start, cr);

      if wp.meta.deleting {
        error := HandleDeletion(wp, start);
        return error, 0;
      }
      ghost var p := Working(key, render, cr, cr.status, AddingFinalizer);
      AdmitAlive(start, cr);
      if FINALIZER !in wp.meta.finalizers {
        wp.meta := wp.meta.(finalizers := wp.meta.finalizers + [FINALIZER]);
        error := client.Write(Update(key, AsObject(wp.Value())));
        return error, 0;
      }
      wp.ApplyDefaults();
      p := p.(wp := cr.(spec := wp.spec));
      DefaultedSections(cr.spec);
      var invalid := Validate(wp.spec);
      if invalid.Some? {
        var ignored := MarkFailed(wp, invalid.value, p);
        return None, 0;
      }
      ValidSections(wp.spec);
      error, requeueAfter := Drive(wp, p);
    }

    /** The rest of `Reconcile`, once the resource was found worth reconciling. */
    method Drive(wp: Resource, ghost entry: Pass) returns (error: Option<Error>, requeueAfter: nat)
      requires Serves(entry, wp) && client.pass == Begin(entry) && wp.key.kind == WordPressKind
      requires wp.spec.database.mode.External? ==> wp.spec.database.external.Some?
      requires !wp.spec.database.mode.External? ==> wp.spec.database.internal.Some?
      modifies client, wp`status
      ensures client.pass == Finished(entry.key, entry.render, Result(error, requeueAfter))
    {
      hide Begin, AfterDatabase, ApproachDeployment, Approach;
      ghost var p := entry;
      requeueAfter, error := ReconcileDatabase(wp, p);
      p := p.(status := wp.status);
      if error.Some? {
        var ignored := PersistStatus(wp, p, ThenReturn(error.value));
        return Swallow(error.value), 0;
      }
      if requeueAfter != 0 {
        error := PersistStatus(wp, p, ThenWait);
        return;
      }
      error := ReconcileClaim(wp, p);
      if error.Some? { return Swallow(error.value), 0; }
      error := ReconcileDeployment(wp, p);
      p := p.(status := wp.status);
      if error.Some? { return Swallow(error.value), 0; }
      error := ReconcileService(wp, p);
      if error.Some? { return Swallow(error.value), 0; }
      error := ReconcileIngress(wp, p);
      p := p.(status := wp.status);
      if error.Some? { return Swallow(error.value), 0; }
      error := ReconcileAutoscaler(wp, p);
      if error.Some? { return Swallow(error.value), 0; }
      error := UpdateStatus(wp, p);
      if error.Some? { return Swallow(error.value), 0; }
      return None, if wp.status.phase != Ready then 15 else 0;
    }
  }

  lemma PersistedIgnoresPoint(p: Pass, at: Point, after: After, e: Option<Error>)
    requires p.Working?
    ensures Persisted(p.(at := at), after, e) == Persisted(p, after, e)
  {
  }

  lemma DataKeyIs(cr: Key)
    ensures DataKey(cr).kind == ClaimKind
  {
  }

  lemma AdmitAlive(p: Pass, cr: WordPress)
    requires !cr.meta.deleting
    ensures
      var q := Working(p.key, p.render, cr, cr.status, AddingFinalizer);
      var w := q.(wp := cr.(spec := Defaulted(cr.spec)));
      Admit(p, cr) ==
      if !HasFinalizer(cr.meta) then q
      else match Validate(Defaulted(cr.spec))
           case Some(e) => Jump(w.(status := FailedStatus(w.status, e)), FetchingLatest(0, ThenGiveUp))
           case None => Begin(w)
  {
  }

  lemma DefaultedSections(spec: WordPressSpec)
    ensures Defaulted(spec).database.mode.Internal? ==> Defaulted(spec).database.internal.Some?
  {
  }

  lemma ValidSections(spec: WordPressSpec)
    requires Validate(spec).None?
    ensures spec.database.mode.External? ==> spec.database.external.Some?
    ensures spec.database.mode.External? || spec.database.mode.Internal?
  {
  }

  lemma PlainKeys(cr: Key)
    ensures ChildKey(ContentClaim, cr) == Key(ClaimKind, cr.ns, ContentName(cr.name))
    ensures ChildKey(Deployment, cr) == Key(DeploymentKind, cr.ns, cr.name)
    ensures ChildKey(SiteService, cr) == Key(ServiceKind, cr.ns, cr.name)
    ensures ChildKey(SiteIngress, cr) == Key(IngressKind, cr.ns, cr.name)
    ensures ChildKey(Autoscaler, cr) == Key(AutoscalerKind, cr.ns, AutoscalerName(cr.name))
  {
  }

  lemma ClaimIsNeverUpdated(wp: WordPress, q: Quantities)
    requires ClaimObject(wp, q).Some?
    ensures forall o: Object :: !NeedsUpdate(o, Merge(o, ClaimObject(wp, q).value))
  {
  }

  lemma DeploymentBuilt(wp: WordPress)
    ensures DeploymentObject(wp).body.DeploymentBody?
  {
  }

  lemma ServiceBuilt(wp: WordPress)
    ensures SiteServiceObject(wp).body.ServiceBody?
  {
  }

  lemma AutoscalerBuilt(wp: WordPress)
    ensures AutoscalerObject(wp).body.AutoscalerBody?
  {
  }

  lemma IngressBuilt(wp: WordPress)
    ensures IngressObject(wp).body.IngressBody?
  {
  }

  lemma ApproachDeploymentIgnoresPoint(p: Pass, at: Point)
    requires p.Working?
    ensures ApproachDeployment(p.(at := at)) == ApproachDeployment(p)
  {
  }

  lemma UnwantedApproach(p: Pass, c: Child)
    requires p.Working? && !Wanted(p.wp.spec, c)
    ensures Approach(p, c) == Jump(p, Reading(c))
  {
  }

  lemma ApproachIs(p: Pass, c: Child)
    requires p.Working? && Wanted(p.wp.spec, c)
    ensures Approach(p, c) == if p.render(p.wp, c).None? then Fail(p, c, Other) else Jump(p, Reading(c))
  {
  }

  lemma SecretKeyIs(cr: Key)
    ensures ChildKey(DbSecret, cr) == Key(SecretKind, cr.ns, SecretNameOf(cr.name))
  {
  }

  lemma StatefulSetKeyIs(cr: Key)
    ensures ChildKey(DbStatefulSet, cr) == Key(StatefulSetKind, cr.ns, DatabaseName(cr.name))
  {
  }

  lemma BuildIs(wp: WordPress, q: Quantities, d: Draw)
    ensures Build(wp, DbSecret, q, d) == SecretObject(wp, d)
    ensures Build(wp, DbService, q, d) == Some(HeadlessService(wp))
    ensures Build(wp, DbStatefulSet, q, d) == StatefulSetObject(wp, q)
    ensures Build(wp, ContentClaim, q, d) == ClaimObject(wp, q)
    ensures Build(wp, Deployment, q, d) == Some(DeploymentObject(wp))
    ensures Build(wp, SiteService, q, d) == Some(SiteServiceObject(wp))
    ensures Build(wp, SiteIngress, q, d) == Some(IngressObject(wp))
    ensures Build(wp, Autoscaler, q, d) == Some(AutoscalerObject(wp))
  {
    hide SecretObject, HeadlessService, StatefulSetObject, ClaimObject, DeploymentObject, SiteServiceObject,
      IngressObject, AutoscalerObject;
  }

  lemma SecretIsNeverUpdated(wp: WordPress, d: Draw)
    requires SecretObject(wp, d).Some?
    ensures forall o: Object :: !NeedsUpdate(o, Merge(o, SecretObject(wp, d).value))
  {
  }

  lemma StatefulSetBuilt(wp: WordPress, q: Quantities)
    requires StatefulSetObject(wp, q).Some?
    ensures StatefulSetObject(wp, q).value.body.StatefulSetBody?
  {
  }

  lemma ApproachIgnoresPoint(p: Pass, c: Child, at: Point)
    requires p.Working?
    ensures Approach(p.(at := at), c) == Approach(p, c)
  {
  }
}
