/** What an undisturbed pass with the operator's own builders leaves behind: traffic, autoscaling and toggling. */
module Lifecycle {
  import opened Types
  import opened Names
  import opened Conditions
  import opened Defaults
  import opened Drift
  import opened Server
  import opened Machine
  import opened System
  import opened Builders
  import opened Quiet
  import opened Convergence
  import opened Guarantee
  import opened Defaulting
  import Deletion
  import Wiring

  // ---------------------------------------------------------------- the builders build alike

  /** The builders look at nothing of the resource but its key, its identity and its spec; only the passwords differ
      from pass to pass. */
  lemma BuildersAlike(q: Quantities, d: Draw, d': Draw)
    requires d.root.Some? && d.password.Some? && d'.root.Some? && d'.password.Some?
    ensures BuildAlike(Builder(q, d), Builder(q, d'))
  {
    forall wp: WordPress, wp': WordPress, c: Child
      | wp.key == wp'.key && wp.meta.uid == wp'.meta.uid && wp.spec == wp'.spec
      ensures Build(wp, c, q, d).Some? <==> Build(wp', c, q, d').Some?
      ensures c != DbSecret ==> Build(wp, c, q, d) == Build(wp', c, q, d')
    {
      BuildLooksAt(wp, wp', c, q, d);
      OnlySecretsDraw(wp', c, q, d, d');
    }
  }

  lemma OnlySecretsDraw(wp: WordPress, c: Child, q: Quantities, d: Draw, d': Draw)
    requires d.root.Some? && d.password.Some? && d'.root.Some? && d'.password.Some?
    ensures Build(wp, c, q, d).Some? <==> Build(wp, c, q, d').Some?
    ensures c != DbSecret ==> Build(wp, c, q, d) == Build(wp, c, q, d')
  {
  }

  /** Three undisturbed passes of the operator itself, each with passwords of its own: the children are in their final
      state after the first, the status after the second. */
  lemma OperatorConverges(s: Store, key: Key, q: Quantities, d1: Draw, d2: Draw, d3: Draw, k: Key)
    requires Reconcilable(s, key, Builder(q, d1))
    requires forall d | d in {d1, d2, d3} :: d.root.Some? && d.password.Some?
    ensures
      var s1 := QuietPass(s, key, Builder(q, d1)).0;
      var s2 := QuietPass(s1, key, Builder(q, d2)).0;
      var s3 := QuietPass(s2, key, Builder(q, d3)).0;
      && (k != key ==> (k in s1.objects <==> k in s3.objects) && (k in s1.objects ==> s1.objects[k] == s3.objects[k]))
      && key in s2.objects && s2.objects[key].body.WordPressBody? && key in s3.objects
      && s3.objects[key].body.WordPressBody? && s3.objects[key].body.status == s2.objects[key].body.status
  {
    hide Builder, QuietPass, Reconcilable, Sound, BuildAlike;
    Wiring.BuilderIsSound(q, d1);
    Wiring.BuilderIsSound(q, d2);
    Wiring.BuilderIsSound(q, d3);
    BuildersAlike(q, d1, d2);
    BuildersAlike(q, d2, d3);
    SecondPassIsTheLast(s, key, Builder(q, d1), Builder(q, d2), Builder(q, d3), k);
  }

  // ---------------------------------------------------------------- after a pass

  lemma SettledChild(s: Store, key: Key, q: Quantities, d: Draw, c: Child)
    requires Reconcilable(s, key, Builder(q, d)) && Wanted(InMemory(s, key).spec, c)
    ensures
      var wp := InMemory(s, key);
      var s' := QuietPass(s, key, Builder(q, d)).0;
      && ChildKey(c, key) in s'.objects && Build(wp, c, q, d).Some?
      && Agrees(s'.objects[ChildKey(c, key)], Build(wp, c, q, d).value) && WellFormed(s')
  {
    hide QuietPass, Defaulted, Validate, ChildKey, Agrees, QuietStatus, WellFormed, Sound, Build, Visited, StatusPatch;
    var wp := InMemory(s, key);
    OnePassConverges(s, key, Builder(q, d), key);
    var s' := QuietPass(s, key, Builder(q, d)).0;
    assert SettledAt(s', wp, Builder(q, d), c);
    QuietKeepsWellFormed(s, key, Builder(q, d));
  }

  lemma QuietKeepsWellFormed(s: Store, key: Key, render: Render)
    requires Reconcilable(s, key, render)
    ensures WellFormed(QuietPass(s, key, render).0)
  {
    hide RunQuiet, WellFormed, Next, Call;
    RunKeepsWellFormed(s, Fetching(key, render));
  }

  lemma {:induction false} RunKeepsWellFormed(s: Store, p: Pass)
    requires WellFormed(s)
    ensures WellFormed(RunQuiet(s, p).0)
    decreases Rank(p)
  {
    hide WellFormed, Next, Call, Exec, Rank;
    if !p.Finished? {
      var (s', r) := Exec(s, Call(p));
      ExecIsServerStep(s, Call(p));
      RankDecreases(p, r);
      RunKeepsWellFormed(s', Next(p, r));
    }
  }

  /** At the end of an undisturbed pass that wants an Ingress, what is stored hangs together: the Ingress sends to the
      stored Service, at the port that Service has, and that Service sends to the port the stored Deployment's container
      opens. */
  lemma TrafficReachesThePods(s: Store, key: Key, q: Quantities, d: Draw)
    requires Reconcilable(s, key, Builder(q, d)) && Wanted(InMemory(s, key).spec, SiteIngress)
    ensures
      var o := QuietPass(s, key, Builder(q, d)).0.objects;
      var ingress, service, site := ChildKey(SiteIngress, key), ChildKey(SiteService, key), ChildKey(Deployment, key);
      && ingress in o && service in o && site in o
      && o[ingress].body.IngressBody? && o[service].body.ServiceBody? && o[site].body.DeploymentBody?
      && o[ingress].body.ingress.backendService == service.name
      && |o[service].body.service.ports| == 1 && |o[site].body.deployment.template.containers| == 1
      && o[ingress].body.ingress.backendPort == o[service].body.service.ports[0].port
      && |o[site].body.deployment.template.containers[0].ports| == 1
      && o[service].body.service.ports[0].targetPort ==
         o[site].body.deployment.template.containers[0].ports[0].number
  {
    hide QuietPass, Defaulted, Reconcilable, Labels.CommonLabels, Labels.SelectorLabels, SiteEnv, Labels.Merged,
      WaitContainer, ContentName, WellFormed;
    SettledChild(s, key, q, d, SiteIngress);
    SettledChild(s, key, q, d, SiteService);
    SettledChild(s, key, q, d, Deployment);
    var o := QuietPass(s, key, Builder(q, d)).0.objects;
    StoredKinds(QuietPass(s, key, Builder(q, d)).0, key);
  }

  lemma StoredKinds(s: Store, key: Key)
    requires WellFormed(s)
    ensures ChildKey(SiteIngress, key) in s.objects ==> s.objects[ChildKey(SiteIngress, key)].body.IngressBody?
    ensures ChildKey(SiteService, key) in s.objects ==> s.objects[ChildKey(SiteService, key)].body.ServiceBody?
    ensures ChildKey(Deployment, key) in s.objects ==> s.objects[ChildKey(Deployment, key)].body.DeploymentBody?
  {
  }

  // ---------------------------------------------------------------- what the status says

  lemma ReportedReady(wp: WordPress, st: WordPressStatus, total: int, ready: int)
    ensures ReportedStatus(wp, st, total, ready).phase.Ready? <==>
            Holds(st.conditions, DatabaseReady) && 0 < ready == total
    ensures
      var r := ReportedStatus(wp, st, total, ready);
      r.replicas == total && r.readyReplicas == ready && r.observedGeneration == wp.generation &&
      r.databaseHost == st.databaseHost
  {
    FindAfterSet(st.conditions, Condition(DeploymentReady, true, AllReplicasReady, Plain), DatabaseReady);
  }

  lemma IngressNoteKeepsDatabase(s: Store, wp: WordPress, st: WordPressStatus)
    ensures Find(Noted(s, wp, st, SiteIngress).conditions, DatabaseReady) == Find(st.conditions, DatabaseReady)
    ensures Noted(s, wp, st, SiteIngress).databaseHost == st.databaseHost
  {
    hide ChildKey;
    FindAfterSet(st.conditions, INGRESS_CREATED, DatabaseReady);
    FindAfterSet(st.conditions, INGRESS_RECONCILED, DatabaseReady);
    FindAfterRemove(st.conditions, IngressConfigured, DatabaseReady);
  }

  /** The database counts as ready: it is external, or its StatefulSet already had a ready pod when the pass began. */
  predicate DatabaseServes(s: Store, wp: WordPress) {
    var k := ChildKey(DbStatefulSet, wp.key);
    wp.spec.database.mode.External? ||
    (k in s.objects && s.objects[k].body.StatefulSetBody? && s.objects[k].body.readyPods >= 1)
  }

  lemma DatabaseNote(s: Store, wp: WordPress, render: Render)
    ensures
      var st := if wp.spec.database.mode.External? then
                  wp.status.(conditions := SetCondition(wp.status.conditions, EXTERNAL_OK))
                else Noted(Visited(s, wp, render, 2), wp, wp.status, DbStatefulSet);
      Holds(st.conditions, DatabaseReady) <==> DatabaseServes(s, wp)
  {
    hide ChildKey, Visit;
    FindAfterSet(wp.status.conditions, EXTERNAL_OK, DatabaseReady);
    forall n { FindAfterSet(wp.status.conditions, DatabaseCondition(n), DatabaseReady); }
    VisitedStep(s, wp, render, 0);
    VisitedStep(s, wp, render, 1);
    var k := ChildKey(DbStatefulSet, wp.key);
    KeysDiffer(DbStatefulSet, DbSecret, wp.key);
    KeysDiffer(DbStatefulSet, DbService, wp.key);
    VisitFrame(Visited(s, wp, render, 0), wp, render, DbSecret, k);
    VisitFrame(Visited(s, wp, render, 1), wp, render, DbService, k);
  }

  lemma QuietStatusIs(s: Store, wp: WordPress, render: Render)
    ensures
      var k := ChildKey(Deployment, wp.key);
      var o := Visited(s, wp, render, 8).objects;
      var st := QuietStatus(s, wp, render);
      && st.observedGeneration == wp.generation && st.databaseHost == ResolvedHost(wp)
      && (k in o && o[k].body.DeploymentBody? ==>
            && st.replicas == o[k].body.replicas && st.readyReplicas == o[k].body.readyReplicas
            && (st.phase.Ready? <==> 0 < o[k].body.readyReplicas == o[k].body.replicas && DatabaseServes(s, wp)))
  {
    hide ChildKey, Visited, ReportedStatus, ResolvedHost, Noted, SetCondition, DatabaseServes;
    DatabaseNote(s, wp, render);
    var st := if wp.spec.database.mode.External? then
                wp.status.(conditions := SetCondition(wp.status.conditions, EXTERNAL_OK))
              else Noted(Visited(s, wp, render, 2), wp, wp.status, DbStatefulSet);
    var before := st.(databaseHost := ResolvedHost(wp));
    IngressNoteKeepsDatabase(Visited(s, wp, render, 6), wp, before);
    var after := Noted(Visited(s, wp, render, 6), wp, before, SiteIngress);
    forall total, ready { ReportedReady(wp, after, total, ready); }
  }

  /** The status saved by an undisturbed pass tells the truth about the store it leaves: the replica counts are those
      of the stored Deployment, the database host is the one that Deployment connects to, the generation is the one
      that was read; and the phase is Ready exactly if all of at least one replica are ready and the database serves. */
  lemma StatusIsTruthful(s: Store, key: Key, q: Quantities, d: Draw)
    requires Reconcilable(s, key, Builder(q, d))
    ensures
      var o := QuietPass(s, key, Builder(q, d)).0.objects;
      var wp, k := InMemory(s, key), ChildKey(Deployment, key);
      && key in o && o[key].body.WordPressBody? && k in o && o[k].body.DeploymentBody?
      && |o[k].body.deployment.template.containers| == 1
      && var st, env := o[key].body.status, o[k].body.deployment.template.containers[0].env;
         && st.observedGeneration == s.objects[key].body.generation == o[key].body.generation
         && st.replicas == o[k].body.replicas && st.readyReplicas == o[k].body.readyReplicas
         && (st.phase.Ready? <==> 0 < o[k].body.readyReplicas == o[k].body.replicas && DatabaseServes(s, wp))
         && EnvVar("WORDPRESS_DB_HOST", Literal(st.databaseHost + ":" + Decimal(ResolvedPort(wp)))) in env
  {
    hide RunQuiet, Defaulted, Reconcilable, Labels.CommonLabels, Labels.SelectorLabels, Labels.Merged, WaitContainer,
      ContentName, WellFormed, DatabaseServes, Visited, QuietStatus, ChildKey, ResolvedHost, Decimal, ResolvedPort;
    ReconcilableFacts(s, key, Builder(q, d));
    var wp, k := InMemory(s, key), ChildKey(Deployment, key);
    AlwaysWanted(wp.spec);
    SettledChild(s, key, q, d, Deployment);
    StoredKinds(QuietPass(s, key, Builder(q, d)).0, key);
    QuietPassIs(s, key, Builder(q, d));
    NoChildIsResource(Deployment, key);
    QuietStatusIs(s, wp, Builder(q, d));
    assert SiteEnv(wp)[0] == EnvVar("WORDPRESS_DB_HOST", Literal(ResolvedHost(wp) + ":" + Decimal(ResolvedPort(wp))));
  }

  // ---------------------------------------------------------------- who decides the replica count

  /** The replica count an autoscaler chose does not survive a pass: with autoscaling on, the operator writes "no count"
      over whatever is stored, so what is stored is kept exactly if it was "no count" already. With autoscaling off the
      count the user wrote, or one if he wrote none, is back after one pass. */
  lemma ReplicasAfterAPass(s: Store, key: Key, q: Quantities, d: Draw)
    requires Reconcilable(s, key, Builder(q, d))
    requires ChildKey(Deployment, key) in s.objects
    ensures
      var k := ChildKey(Deployment, key);
      var spec := s.objects[key].body.spec;
      var o := QuietPass(s, key, Builder(q, d)).0.objects;
      && k in o && o[k].body.DeploymentBody? && s.objects[k].body.DeploymentBody?
      && (if spec.autoscaling.enabled then
            o[k].body.deployment.replicas == s.objects[k].body.deployment.replicas <==>
            s.objects[k].body.deployment.replicas == None
          else o[k].body.deployment.replicas == if spec.replicas.Some? then spec.replicas else Some(1))
  {
    hide QuietPass, Defaulted, Reconcilable, Labels.CommonLabels, Labels.SelectorLabels, SiteTemplate, WellFormed;
    ReconcilableFacts(s, key, Builder(q, d));
    AlwaysWanted(InMemory(s, key).spec);
    SettledChild(s, key, q, d, Deployment);
    StoredKinds(QuietPass(s, key, Builder(q, d)).0, key);
    ReconcilableIsWellFormed(s, key, Builder(q, d));
    StoredKinds(s, key);
    CountIsKept(s.objects[key].body.spec);
  }

  lemma CountIsKept(spec: WordPressSpec)
    ensures Defaulted(spec).autoscaling.enabled == spec.autoscaling.enabled
    ensures Defaulted(spec).replicas == if spec.replicas.Some? then spec.replicas else Some(1)
  {
    DefaultingOnlyFills(spec);
  }

  /** The metadata of an object as it was created. */
  function Born(k: Key, owner: Option<Uid>, finalizers: seq<string>): Meta {
    Meta(Uid(k, 1), 1, None, None, owner, false, finalizers)
  }

  /** An admitted resource whose spec says no more than this, before its first report. */
  function Newborn(key: Key, database: DatabaseSpec, ingress: IngressSpec, autoscaling: AutoscalingSpec): Object {
    Object(Born(key, None, [FINALIZER]), WordPressBody(1,
        WordPressSpec("", "", "", None, "", "", [], database, ExposureSpec(NoServiceType, 0, 0, None), ingress,
                      PersistenceSpec(false, "", None, []), autoscaling, None, None, None, "", "", None, None),
        WordPressStatus(0, NoPhase, "", 0, 0, "", [])))
  }

  function Elsewhere(): DatabaseSpec {
    DatabaseSpec(External, "", "", "", None, Some(ExternalDb("db", 3306, SecretRef("credentials", "password"))))
  }

  /** A resource with an external database and autoscaling on, its Secret, a Deployment that was scaled to seven, and a
      Service to which somebody added a port. */
  function Scaled(key: Key): Store {
    var secret := Key(SecretKind, key.ns, "credentials");
    var site, service := ChildKey(Deployment, key), ChildKey(SiteService, key);
    var owner := Some(Uid(key, 1));
    var pods := PodTemplate(map[], None, [], [], "", None, "", "", []);
    Store(
      map[key := Newborn(key, Elsewhere(), IngressSpec(false, None, "", "", None), AutoscalingSpec(true, 2, 9, 80)),
          secret := Object(Born(secret, None, []), SecretBody(map[])),
          site := Object(Born(site, owner, []),
                         DeploymentBody(DeploymentSpec(Some(7), map[], Recreate, pods, ""), 7, 7)),
          service := Object(Born(service, owner, []), ServiceBody(ServiceSpec(ClusterIP, "10.0.0.1", "", map[],
                              [ServicePort("http", 80, 80, 0), ServicePort("metrics", 9090, 9090, 0)], "")))],
      map[key := 1, secret := 1, site := 1, service := 1])
  }

  lemma ScaledIsReconcilable(key: Key, q: Quantities, d: Draw)
    requires key.kind.WordPressKind?
    ensures Reconcilable(Scaled(key), key, Builder(q, d))
    ensures InMemory(Scaled(key), key).spec.autoscaling.enabled
  {
    hide Sound, Build, WellFormed;
    Wiring.BuilderIsSound(q, d);
    ScaledIsWellFormed(key);
    var wp := InMemory(Scaled(key), key);
    forall c | Wanted(wp.spec, c) ensures Build(wp, c, q, d).Some? { PlainBuildersSucceed(wp, c, q, d); }
  }

  lemma ScaledIsWellFormed(key: Key)
    requires key.kind.WordPressKind?
    ensures WellFormed(Scaled(key))
  {
    hide ChildKey, Elsewhere;
    var site, service := ChildKey(Deployment, key), ChildKey(SiteService, key);
    assert site.kind.DeploymentKind? && service.kind.ServiceKind? by { ChildKinds(key); }
  }

  lemma ChildKinds(key: Key)
    ensures ChildKey(Deployment, key).kind.DeploymentKind? && ChildKey(SiteService, key).kind.ServiceKind?
  {
  }

  lemma PlainBuildersSucceed(wp: WordPress, c: Child, q: Quantities, d: Draw)
    ensures c.Deployment? || c.SiteService? || c.SiteIngress? || c.Autoscaler? ==> Build(wp, c, q, d).Some?
  {
  }

  /** Both happen: the count chosen by the autoscaler is gone after one undisturbed pass, and so is the added port. */
  lemma ChosenCountAndAddedPortAreLost(key: Key, q: Quantities, d: Draw)
    requires key.kind.WordPressKind?
    ensures
      var s, site, service := Scaled(key), ChildKey(Deployment, key), ChildKey(SiteService, key);
      var o := QuietPass(s, key, Builder(q, d)).0.objects;
      && site in s.objects && s.objects[site].body.DeploymentBody?
      && s.objects[site].body.deployment.replicas == Some(7)
      && site in o && o[site].body.DeploymentBody? && o[site].body.deployment.replicas == None
      && service in s.objects && s.objects[service].body.ServiceBody? && |s.objects[service].body.service.ports| == 2
      && service in o && o[service].body.ServiceBody? && |o[service].body.service.ports| == 1
  {
    hide QuietPass, Defaulted, Reconcilable, WellFormed, Labels.CommonLabels, Labels.SelectorLabels, SiteTemplate;
    ScaledIsReconcilable(key, q, d);
    var s := Scaled(key);
    ReconcilableFacts(s, key, Builder(q, d));
    AlwaysWanted(InMemory(s, key).spec);
    SettledChild(s, key, q, d, Deployment);
    SettledChild(s, key, q, d, SiteService);
    StoredKinds(QuietPass(s, key, Builder(q, d)).0, key);
  }

  lemma ReconcilableIsWellFormed(s: Store, key: Key, render: Render)
    requires Reconcilable(s, key, render)
    ensures WellFormed(s)
  {
  }

  // ---------------------------------------------------------------- switching an Ingress or autoscaler off

  /** After any history, one undisturbed pass leaves the Ingress (the autoscaler) in place if it is enabled; and if it
      is disabled, none under the resource's control except one that only waits for finalizers of its own. */
  lemma ToggledChildFollowsTheSpec(s: Store, key: Key, render: Render, c: Child)
    requires Reconcilable(s, key, render) && (c.SiteIngress? || c.Autoscaler?)
    ensures
      var k := ChildKey(c, key);
      var o := QuietPass(s, key, render).0.objects;
      if Wanted(InMemory(s, key).spec, c) then k in o
      else k !in o || o[k].meta.controller != Some(s.objects[key].meta.uid) || o[k].meta.deleting
  {
    hide QuietPass, Defaulted, Validate, ChildKey, Agrees, QuietStatus, WellFormed, Sound, Visited, StatusPatch;
    OnePassConverges(s, key, render, key);
    assert SettledAt(QuietPass(s, key, render).0, InMemory(s, key), render, c);
  }

  /** The condition of a disabled Ingress lags behind: it is gone after a pass exactly if the Ingress was already gone
      before it, or there was no condition to begin with. */
  lemma IngressConditionLags(s: Store, key: Key, render: Render)
    requires Reconcilable(s, key, render) && !Wanted(InMemory(s, key).spec, SiteIngress)
    ensures
      var s' := QuietPass(s, key, render).0;
      key in s'.objects && s'.objects[key].body.WordPressBody? &&
      (Find(s'.objects[key].body.status.conditions, IngressConfigured).None? <==>
       ChildKey(SiteIngress, key) !in s.objects ||
       Find(s.objects[key].body.status.conditions, IngressConfigured).None?)
  {
    hide QuietPass, Defaulted, Validate, ChildKey, Agrees, WellFormed, Sound, Visit, StatusPatch, SettledAt, Visited,
      ReportedStatus, ResolvedHost, QuietStatus;
    var wp := InMemory(s, key);
    OnePassConverges(s, key, render, key);
    QuietIngressCondition(s, wp, render);
    IngressUntouchedBefore(s, wp, render, 6);
  }

  lemma QuietIngressCondition(s: Store, wp: WordPress, render: Render)
    requires !Wanted(wp.spec, SiteIngress)
    ensures Find(QuietStatus(s, wp, render).conditions, IngressConfigured) ==
            if ChildKey(SiteIngress, wp.key) in Visited(s, wp, render, 6).objects then
              Find(wp.status.conditions, IngressConfigured)
            else None
  {
    hide ChildKey, Visited, ReportedStatus, ResolvedHost, Noted, DatabaseCondition, SetCondition, RemoveCondition;
    var st := if wp.spec.database.mode.External? then
                wp.status.(conditions := SetCondition(wp.status.conditions, EXTERNAL_OK))
              else Noted(Visited(s, wp, render, 2), wp, wp.status, DbStatefulSet);
    var before := st.(databaseHost := ResolvedHost(wp));
    var after := Noted(Visited(s, wp, render, 6), wp, before, SiteIngress);
    FindAfterSet(wp.status.conditions, EXTERNAL_OK, IngressConfigured);
    DatabaseNoteKeepsIngress(Visited(s, wp, render, 2), wp, wp.status);
    IngressNote(Visited(s, wp, render, 6), wp, before);
    forall total, ready { ReportIsStable(wp, after, total, ready); }
  }

  lemma DatabaseNoteKeepsIngress(s: Store, wp: WordPress, st: WordPressStatus)
    ensures Find(Noted(s, wp, st, DbStatefulSet).conditions, IngressConfigured) ==
            Find(st.conditions, IngressConfigured)
  {
    hide ChildKey;
    forall n { FindAfterSet(st.conditions, DatabaseCondition(n), IngressConfigured); }
  }

  lemma IngressNote(s: Store, wp: WordPress, st: WordPressStatus)
    requires !Wanted(wp.spec, SiteIngress)
    ensures Find(Noted(s, wp, st, SiteIngress).conditions, IngressConfigured) ==
            if ChildKey(SiteIngress, wp.key) in s.objects then Find(st.conditions, IngressConfigured) else None
  {
    hide ChildKey;
    FindAfterRemove(st.conditions, IngressConfigured, IngressConfigured);
  }

  /** The first six children are not the Ingress. */
  lemma {:induction false} IngressUntouchedBefore(s: Store, wp: WordPress, render: Render, n: nat)
    requires n <= 6
    ensures ChildKey(SiteIngress, wp.key) in Visited(s, wp, render, n).objects <==>
            ChildKey(SiteIngress, wp.key) in s.objects
    ensures ChildKey(SiteIngress, wp.key) in s.objects ==>
              Visited(s, wp, render, n).objects[ChildKey(SiteIngress, wp.key)] ==
              s.objects[ChildKey(SiteIngress, wp.key)]
  {
    hide Visit, ChildKey;
    if n > 0 {
      IngressUntouchedBefore(s, wp, render, n - 1);
      KeysDiffer(SiteIngress, Nth(n - 1), wp.key);
      VisitFrame(Visited(s, wp, render, n - 1), wp, render, Nth(n - 1), ChildKey(SiteIngress, wp.key));
    }
  }

  /** The Ingress at the resource's name, if any, is the resource's own and nothing delays its deletion. */
  ghost predicate FreelyDeleted(s: Store, key: Key) {
    var k := ChildKey(SiteIngress, key);
    key in s.objects &&
    (k in s.objects ==>
       s.objects[k].meta.controller == Some(s.objects[key].meta.uid) && s.objects[k].meta.finalizers == [])
  }

  lemma IngressIsRemoved(s: Store, key: Key, render: Render)
    requires Reconcilable(s, key, render) && !Wanted(InMemory(s, key).spec, SiteIngress) && FreelyDeleted(s, key)
    ensures ChildKey(SiteIngress, key) !in QuietPass(s, key, render).0.objects
  {
    hide QuietPass, Defaulted, Validate, WellFormed, Sound, Visited, StatusPatch, ReportedStatus, QuietStatus,
      Reconcilable, ChildKey, Visit;
    ReconcilableFacts(s, key, render);
    var wp := InMemory(s, key);
    var k := ChildKey(SiteIngress, key);
    QuietPassIs(s, key, render);
    IngressUntouchedBefore(s, wp, render, 6);
    VisitedStep(s, wp, render, 6);
    VisitedStep(s, wp, render, 7);
    FreeIngressGoes(Visited(s, wp, render, 6), wp, render);
    KeysDiffer(SiteIngress, Autoscaler, key);
    VisitFrame(Visited(s, wp, render, 7), wp, render, Autoscaler, k);
    NoChildIsResource(SiteIngress, key);
  }

  lemma FreeIngressGoes(s: Store, wp: WordPress, render: Render)
    requires !Wanted(wp.spec, SiteIngress)
    requires
      var k := ChildKey(SiteIngress, wp.key);
      k in s.objects ==> s.objects[k].meta.controller == Some(wp.meta.uid) && s.objects[k].meta.finalizers == []
    ensures ChildKey(SiteIngress, wp.key) !in Visit(s, wp, render, SiteIngress).objects
  {
  }

  /** After two passes with the Ingress disabled, and no foreign Ingress in the way, both the Ingress and its
      condition are gone. */
  lemma TwoPassesClearTheIngress(s: Store, key: Key, r1: Render, r2: Render)
    requires Reconcilable(s, key, r1) && Sound(r2) && BuildAlike(r1, r2)
    requires !Wanted(InMemory(s, key).spec, SiteIngress) && FreelyDeleted(s, key)
    ensures
      var s1 := QuietPass(s, key, r1).0;
      var s2 := QuietPass(s1, key, r2).0;
      && ChildKey(SiteIngress, key) !in s1.objects
      && key in s2.objects && s2.objects[key].body.WordPressBody?
      && Find(s2.objects[key].body.status.conditions, IngressConfigured).None?
  {
    hide QuietPass, Defaulted, Reconcilable, Sound, BuildAlike, FreelyDeleted, AllSettled, Visited, ChildKey,
      QuietStatus;
    ReconcilableFacts(s, key, r1);
    IngressIsRemoved(s, key, r1);
    PassThenSettled(s, key, r1, r2);
    var s1 := QuietPass(s, key, r1).0;
    ReportKeepsResource(s, Visited(s, InMemory(s, key), r1, 8), s1, key);
    IngressConditionLags(s1, key, r2);
  }

  // ---------------------------------------------------------------- objects of other owners

  lemma {:induction false} ChildUntouched(s: Store, wp: WordPress, render: Render, c: Child, m: nat, n: nat)
    requires m <= n <= 8 && (n <= Order(c) || Order(c) < m)
    ensures
      var k := ChildKey(c, wp.key);
      var o, o' := Visited(s, wp, render, m).objects, Visited(s, wp, render, n).objects;
      (k in o <==> k in o') && (k in o ==> o'[k] == o[k]) &&
      Tick(Visited(s, wp, render, m), k) == Tick(Visited(s, wp, render, n), k)
    decreases n - m
  {
    hide Visit, ChildKey;
    if m < n {
      ChildUntouched(s, wp, render, c, m, n - 1);
      assert Nth(n - 1) != c by { NthIsOrdered(c, n - 1); }
      KeysDiffer(c, Nth(n - 1), wp.key);
      VisitFrame(Visited(s, wp, render, n - 1), wp, render, Nth(n - 1), ChildKey(c, wp.key));
    }
  }

  lemma NthIsOrdered(c: Child, n: nat)
    requires n < 8 && n != Order(c)
    ensures Nth(n) != c
  {
  }

  lemma VisitedThere(s: Store, wp: WordPress, render: Render, c: Child)
    ensures
      var k := ChildKey(c, wp.key);
      var t := Visited(s, wp, render, Order(c));
      && (k in t.objects <==> k in s.objects) && (k in s.objects ==> t.objects[k] == s.objects[k])
      && Tick(t, k) == Tick(s, k)
      && (k in Visit(t, wp, render, c).objects <==> k in Visited(s, wp, render, 8).objects)
      && (k in Visit(t, wp, render, c).objects ==>
            Visited(s, wp, render, 8).objects[k] == Visit(t, wp, render, c).objects[k])
  {
    hide Visit, ChildKey;
    ChildUntouched(s, wp, render, c, 0, Order(c));
    VisitedStep(s, wp, render, Order(c));
    ChildUntouched(s, wp, render, c, Order(c) + 1, 8);
  }

  /** Updates do not look at the owner. Whoever controls the object at a wanted child's key, one undisturbed pass
      leaves it unchanged exactly if its managed fields already are what the builder asks for; either way it keeps its
      controller. */
  lemma OverwrittenUnlessAgreeing(s: Store, key: Key, render: Render, c: Child)
    requires Reconcilable(s, key, render) && Wanted(InMemory(s, key).spec, c) && ChildKey(c, key) in s.objects
    ensures
      var k := ChildKey(c, key);
      var o := QuietPass(s, key, render).0.objects;
      && render(InMemory(s, key), c).Some? && k in o
      && (o[k] == s.objects[k] <==> Agrees(s.objects[k], render(InMemory(s, key), c).value))
      && o[k].meta.controller == s.objects[k].meta.controller && o[k].meta.uid == s.objects[k].meta.uid
  {
    hide QuietPass, Defaulted, Validate, ChildKey, Agrees, WellFormed, Sound, Visited, StatusPatch, ReportedStatus,
      QuietStatus, Visit, ExternalSecretKey;
    var wp := InMemory(s, key);
    QuietPassIs(s, key, render);
    VisitedThere(s, wp, render, c);
    NoChildIsResource(c, key);
    assert render(wp, c).Some?;
    VisitOverwrites(s, Visited(s, wp, render, Order(c)), wp, render, c);
  }

  lemma VisitOverwrites(s: Store, t: Store, wp: WordPress, render: Render, c: Child)
    requires WellFormed(s) && Sound(render) && Wanted(wp.spec, c) && render(wp, c).Some?
    requires
      var k := ChildKey(c, wp.key);
      k in s.objects && k in t.objects && t.objects[k] == s.objects[k] && Tick(t, k) == Tick(s, k)
    ensures
      var k := ChildKey(c, wp.key);
      var o := Visit(t, wp, render, c).objects;
      && k in o && (o[k] == s.objects[k] <==> Agrees(s.objects[k], render(wp, c).value))
      && o[k].meta.controller == s.objects[k].meta.controller && o[k].meta.uid == s.objects[k].meta.uid
  {
    hide ChildKey, Merge, NeedsUpdate, Agrees;
    var k, desired := ChildKey(c, wp.key), render(wp, c).value;
    assert KindOf(desired.body) == k.kind;
    MergeMeetsDesired(s.objects[k], desired);
    MergeKeepsMeta(s.objects[k], desired);
  }

  /** A resource that wants an Ingress, its Secret, and an Ingress of its name under somebody else's control. */
  function ForeignIngress(key: Key, other: Uid): Store {
    var secret, ingress := Key(SecretKind, key.ns, "credentials"), ChildKey(SiteIngress, key);
    Store(
      map[key := Newborn(key, Elsewhere(), IngressSpec(true, None, "blog", "", None), AutoscalingSpec(false, 0, 0, 0)),
          secret := Object(Born(secret, None, []), SecretBody(map[])),
          ingress := Object(Born(ingress, Some(other), []),
                            IngressBody(IngressRoute(None, "shop", "/", "shop", 80, None)))],
      map[key := 1, secret := 1, ingress := 1])
  }

  lemma ForeignIsReconcilable(key: Key, other: Uid, q: Quantities, d: Draw)
    requires key.kind.WordPressKind?
    ensures Reconcilable(ForeignIngress(key, other), key, Builder(q, d))
    ensures Wanted(InMemory(ForeignIngress(key, other), key).spec, SiteIngress)
    ensures InMemory(ForeignIngress(key, other), key).spec.ingress.host == "blog"
  {
    hide Sound, Build;
    Wiring.BuilderIsSound(q, d);
    var wp := InMemory(ForeignIngress(key, other), key);
    forall c | Wanted(wp.spec, c) ensures Build(wp, c, q, d).Some? { PlainBuildersSucceed(wp, c, q, d); }
  }

  /** It happens: the foreign Ingress is turned to the site, and still belongs to the other owner. */
  lemma ForeignIngressIsOverwritten(key: Key, other: Uid, q: Quantities, d: Draw)
    requires key.kind.WordPressKind?
    ensures
      var s, k := ForeignIngress(key, other), ChildKey(SiteIngress, key);
      var o := QuietPass(s, key, Builder(q, d)).0.objects;
      && k in s.objects && s.objects[k].meta.controller == Some(other) && s.objects[k].body.ingress.host == "shop"
      && k in o && o[k].meta.controller == Some(other) && o[k].meta.uid == s.objects[k].meta.uid
      && o[k].body.IngressBody? && o[k].body.ingress.host == "blog"
  {
    hide QuietPass, Defaulted, Reconcilable, WellFormed, Labels.CommonLabels;
    ForeignIsReconcilable(key, other, q, d);
    var s := ForeignIngress(key, other);
    OverwrittenUnlessAgreeing(s, key, Builder(q, d), SiteIngress);
    SettledChild(s, key, q, d, SiteIngress);
    StoredKinds(QuietPass(s, key, Builder(q, d)).0, key);
  }

  // ---------------------------------------------------------------- the end of a resource

  /** The resource is being deleted and still holds the finalizer. */
  ghost predicate Departing(s: Store, key: Key) {
    && WellFormed(s) && key.kind.WordPressKind?
    && key in s.objects && s.objects[key].body.WordPressBody?
    && s.objects[key].meta.deleting && HasFinalizer(s.objects[key].meta)
  }

  /** Its stored spec, not a defaulted one, says Internal, and its data is not to be retained. */
  predicate GivesUpData(o: Object) {
    o.body.WordPressBody? && o.body.spec.database.mode.Internal? && !Retained(o.meta)
  }

  function AsRead(s: Store, key: Key): WordPress
    requires key in s.objects && s.objects[key].body.WordPressBody?
  {
    var o := s.objects[key];
    WordPress(key, o.meta, o.body.generation, o.body.spec, o.body.status)
  }

  /** The store without the data claim, or with the claim marked. */
  function WithoutData(s: Store, key: Key): Store {
    if DataKey(key) in s.objects then ExecDelete(s, DataKey(key)).0 else s
  }

  /** From looking for the claim to the release. */
  lemma QuietCleanup(s: Store, p: Pass)
    requires p.Working? && p.at == FindingData
    ensures RunQuiet(s, p) == RunQuiet(WithoutData(s, p.key), p.(at := ReleasingResource))
  {
    hide RunQuiet, DataKey;
    StepOnce(s, p);
    if DataKey(p.key) in s.objects { StepOnce(s, p.(at := DeletingData)); }
  }

  /** The release itself. */
  lemma QuietRelease(s: Store, p: Pass)
    requires p.Working? && p.at == ReleasingResource && p.key in s.objects && s.objects[p.key] == AsObject(p.wp)
    requires p.wp.meta.deleting
    ensures
      var fs := Without(p.wp.meta.finalizers, FINALIZER);
      RunQuiet(s, p) ==
      (if fs == [] then Remove(s, p.key) else Put(s, p.key, WithFinalizers(s.objects[p.key], fs)),
       Finished(p.key, p.render, QUIET))
  {
    hide RunQuiet, Without;
    StepOnce(s, p);
    var (s', r) := Exec(s, Call(p));
    RunFinished(s', Next(p, r));
  }

  lemma DataIsReleased(s: Store, key: Key)
    requires WellFormed(s) && key.kind.WordPressKind?
    ensures
      var t, d := WithoutData(s, key), DataKey(key);
      && Deletion.Released(t, d)
      && (forall k :: k != d ==>
            (k in t.objects <==> k in s.objects) && (k in s.objects ==> t.objects[k] == s.objects[k]))
  {
    hide DataKey;
  }

  /** What becomes of a departing resource in one undisturbed pass, from any store. The pass ends quietly and the
      finalizer is gone, with nothing else of the resource changed. The data claim is gone too, or marked, exactly if
      the mode as stored is Internal and the data is not retained; otherwise it is untouched -- also if the stored
      mode is empty, which every other pass treats as Internal. Nothing else changes. */
  lemma QuietDeletion(s: Store, key: Key, render: Render, k: Key)
    requires Departing(s, key)
    ensures
      var (s', p') := QuietPass(s, key, render);
      var o, fs, d := s.objects[key], Without(s.objects[key].meta.finalizers, FINALIZER), DataKey(key);
      && p' == Finished(key, render, QUIET) && FINALIZER !in fs
      && (if fs == [] then key !in s'.objects
          else key in s'.objects && s'.objects[key] == WithFinalizers(o, fs).(
                 meta := WithFinalizers(o, fs).meta.(version := Tick(s, key) + 1)))
      && (if GivesUpData(o) then Deletion.Released(s', d)
          else (d in s'.objects <==> d in s.objects) && (d in s.objects ==> s'.objects[d] == s.objects[d]))
      && (k != key && k != d ==>
            (k in s'.objects <==> k in s.objects) && (k in s.objects ==> s'.objects[k] == s.objects[k]))
  {
    hide RunQuiet, Without, DataKey, WithoutData, Retained;
    var p := Working(key, render, AsRead(s, key), s.objects[key].body.status, AddingFinalizer);
    StepOnce(s, Fetching(key, render));
    Deletion.WithoutKeeps(s.objects[key].meta.finalizers, FINALIZER, FINALIZER);
    DataKeyIsClaim(key);
    var t := if GivesUpData(s.objects[key]) then WithoutData(s, key) else s;
    if GivesUpData(s.objects[key]) {
      QuietCleanup(s, p.(at := FindingData));
      DataIsReleased(s, key);
      DataTicks(s, key);
    }
    QuietRelease(t, p.(at := ReleasingResource));
  }

  /** The annotation decides, by its text alone: with "true" the data claim is as it was, whatever the mode; without the
      annotation, or with any other text, the claim of a resource stored as Internal is gone or marked. */
  lemma RetentionFollowsTheAnnotation(s: Store, key: Key, render: Render)
    requires Departing(s, key)
    ensures
      var notes := s.objects[key].meta.annotations;
      var claim := Key(ClaimKind, key.ns, "data-" + key.name + "-mysql" + "-0");
      var name := "wordpresses.apps.kubesphere.ai/retain-data";
      var s' := QuietPass(s, key, render).0;
      && (notes.Some? && name in notes.value && notes.value[name] == "true" ==>
            (claim in s'.objects <==> claim in s.objects) &&
            (claim in s.objects ==> s'.objects[claim] == s.objects[claim]))
      && (s.objects[key].body.spec.database.mode == Internal ==>
            (notes == None || name !in notes.value || notes.value[name] != "true") ==>
              claim !in s'.objects || s'.objects[claim].meta.deleting)
  {
    hide QuietPass, Departing;
    var claim := Key(ClaimKind, key.ns, "data-" + key.name + "-mysql" + "-0");
    assert "data-" + (key.name + "-mysql") == "data-" + key.name + "-mysql";
    assert DataKey(key) == claim;
    DepartingIsStored(s, key);
    QuietDeletion(s, key, render, key);
  }

  lemma DepartingIsStored(s: Store, key: Key)
    requires Departing(s, key)
    ensures key in s.objects && s.objects[key].body.WordPressBody?
  {
  }

  lemma DataKeyIsClaim(key: Key)
    ensures DataKey(key).kind.ClaimKind?
  {
  }

  lemma DataTicks(s: Store, key: Key)
    requires key.kind.WordPressKind?
    ensures Tick(WithoutData(s, key), key) == Tick(s, key)
  {
  }

  /** A resource stored without a mode leaves its data behind, although every pass before treated it as Internal. */
  lemma EmptyModeKeepsData(s: Store, key: Key, render: Render)
    requires Departing(s, key) && s.objects[key].body.spec.database.mode.NoMode?
    ensures Defaulted(s.objects[key].body.spec).database.mode.Internal?
    ensures
      var o := QuietPass(s, key, render).0.objects;
      DataKey(key) in s.objects ==> DataKey(key) in o && o[DataKey(key)] == s.objects[DataKey(key)]
  {
    hide QuietPass, DataKey;
    QuietDeletion(s, key, render, key);
  }

  /** A resource stored without a mode, on its way out, and its data claim. */
  function Modeless(key: Key): Store {
    var data := DataKey(key);
    var site := Newborn(key, DatabaseSpec(NoMode, "", "", "", None, None), IngressSpec(false, None, "", "", None),
                        AutoscalingSpec(false, 0, 0, 0));
    Store(
      map[key := site.(meta := site.meta.(deleting := true)),
          data := Object(Born(data, None, []), ClaimBody(ClaimSpec(["ReadWriteOnce"], None, "5Gi")))],
      map[key := 1, data := 1])
  }

  /** It happens: the resource is gone after the pass, and its data claim is still there. */
  lemma ModelessLeavesItsData(key: Key, render: Render)
    requires key.kind.WordPressKind?
    ensures
      var s := Modeless(key);
      var o := QuietPass(s, key, render).0.objects;
      && Departing(s, key) && DataKey(key) in s.objects
      && key !in o && DataKey(key) in o && o[DataKey(key)] == s.objects[DataKey(key)]
  {
    hide QuietPass, DataName;
    var s := Modeless(key);
    QuietDeletion(s, key, render, key);
    EmptyModeKeepsData(s, key, render);
    assert [FINALIZER][1..] == [];
    assert Without([FINALIZER], FINALIZER) == [];
  }
}
