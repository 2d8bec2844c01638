/**
 What the user wrote is what ends up stored.

 From the fields of the resource as it is stored -- before any defaulting -- through defaults, validation, builders and
 the merge with whatever the store held, to the fields of the stored objects after one undisturbed pass.  Names,
 formats and defaults are written out here, so each statement stands by itself.
 */
module Outcome {
  import opened Types
  import opened Names
  import opened Drift
  import opened Server
  import opened Machine
  import opened System
  import opened Defaulting
  import opened Builders
  import opened Wiring
  import opened Quiet
  import opened Convergence
  import opened Lifecycle

  // ---------------------------------------------------------------- what every object carries

  /** The labels of every object of the resource. */
  ghost predicate Labelled(labels: StringMap, instance: string, component: string) {
    labels == Some(map["app.kubernetes.io/name" := "wordpress", "app.kubernetes.io/instance" := instance,
                       "app.kubernetes.io/component" := component,
                       "app.kubernetes.io/managed-by" := "wordpress-operator",
                       "app.kubernetes.io/part-of" := "wordpress-operator"])
  }

  ghost predicate Selects(selector: map<string, string>, instance: string, component: string) {
    selector == map["app.kubernetes.io/name" := "wordpress", "app.kubernetes.io/instance" := instance,
                    "app.kubernetes.io/component" := component]
  }

  lemma LabelsAreWritten(instance: string, component: string)
    ensures Labelled(Some(Labels.CommonLabels(instance, component)), instance, component)
    ensures Selects(Labels.SelectorLabels(instance, component), instance, component)
  {
  }

  /** The volumes mounted in the container at `path`. */
  ghost function MountedAt(t: PodTemplate, c: Container, path: string): set<Volume> {
    set m, v | m in c.mounts && m.path == path && v in t.volumes && v.name == m.volume :: v
  }

  /** A freshly created child is just what was built, under the resource's control. */
  lemma CreatedAsBuilt(s: Store, key: Key, q: Quantities, d: Draw, c: Child)
    requires Reconcilable(s, key, Builder(q, d)) && Wanted(InMemory(s, key).spec, c) && ChildKey(c, key) !in s.objects
    ensures
      var o := QuietPass(s, key, Builder(q, d)).0.objects;
      && ChildKey(c, key) in o && Build(InMemory(s, key), c, q, d).Some?
      && var built := Build(InMemory(s, key), c, q, d).value;
         && o[ChildKey(c, key)].body == built.body
         && o[ChildKey(c, key)].meta.labels == built.meta.labels
         && o[ChildKey(c, key)].meta.controller == Some(s.objects[key].meta.uid)
  {
    hide QuietPass, Defaults.Defaulted, Defaults.Validate, ChildKey, WellFormed, Visited, StatusPatch, QuietStatus,
      ExternalSecretKey, Build;
    var wp := InMemory(s, key);
    QuietPassIs(s, key, Builder(q, d));
    VisitedThere(s, wp, Builder(q, d), c);
    NoChildIsResource(c, key);
    assert Builder(q, d)(wp, c).Some?;
  }

  /** A Secret or a claim that is already there stays exactly as it is. */
  lemma NeverUpdated(s: Store, key: Key, q: Quantities, d: Draw, c: Child)
    requires Reconcilable(s, key, Builder(q, d)) && Wanted(InMemory(s, key).spec, c) && ChildKey(c, key) in s.objects
    requires c.DbSecret? || c.ContentClaim?
    ensures
      var o := QuietPass(s, key, Builder(q, d)).0.objects;
      ChildKey(c, key) in o && o[ChildKey(c, key)] == s.objects[ChildKey(c, key)]
  {
    hide QuietPass, Defaults.Defaulted, Defaults.Validate, Build, ExternalSecretKey;
    OverwrittenUnlessAgreeing(s, key, Builder(q, d), c);
    BuilderIsSound(q, d);
  }

  // ---------------------------------------------------------------- the site's Deployment

  /** Image, settings and placement of the site's pods, and how many there are. */
  ghost predicate SiteAsWritten(spec: WordPressSpec, key: Key, o: Object) {
    && o.body.DeploymentBody? && |o.body.deployment.template.containers| == 1
    && Labelled(o.meta.labels, key.name, "wordpress")
    && var d := o.body.deployment;
       var t, c := d.template, d.template.containers[0];
       && d.strategy == RollingUpdate(spec.maxUnavailable, spec.maxSurge)
       && (spec.autoscaling.enabled ==> d.replicas == None)
       && (!spec.autoscaling.enabled && spec.replicas.Some? ==> d.replicas == spec.replicas)
       && (!spec.autoscaling.enabled && spec.replicas.None? ==> d.replicas == Some(1))
       && TextKept(spec.image, c.image, "wordpress:6.5-apache")
       && TextKept(spec.imagePullPolicy, c.imagePullPolicy, "IfNotPresent")
       && c.name == "wordpress" && c.command == [] && c.resources == spec.resources
       && |c.ports| == 1 && c.ports[0] == ContainerPort("http", 80)
       && c.readiness == Probe(HttpGet("/wp-login.php", c.ports[0].number), 20, 10, 5, 6)
       && c.liveness == Probe(TcpSocket(c.ports[0].number), 60, 20, 5, 6)
       && t.annotations == spec.podAnnotations && t.imagePullSecrets == spec.imagePullSecrets
       && t.nodeSelector == spec.nodeSelector && t.tolerations == spec.tolerations && t.affinity == spec.affinity
  }

  /** The pods wait for a database of their own, and only for that. */
  ghost predicate WaitsAsWritten(spec: WordPressSpec, key: Key, o: Object) {
    && o.body.DeploymentBody?
    && var first := o.body.deployment.template.initContainers;
       if spec.database.mode == External then first == []
       else
         && |first| == 1 && first[0].name == "wait-for-db" && first[0].image == "busybox:1.36"
         && first[0].imagePullPolicy == "IfNotPresent" && first[0].env == [] && first[0].mounts == []
         && first[0].command ==
            ["sh", "-c", "until nc -z -w2 " + (key.name + "-mysql." + key.ns + ".svc") + " 3306" +
                         "; do echo 'waiting for mysql'; sleep 3; done"]
  }

  /** The user's pod labels win over the operator's. */
  ghost predicate PodLabelsAsWritten(spec: WordPressSpec, key: Key, o: Object) {
    && o.body.DeploymentBody?
    && var labels := o.body.deployment.template.labels;
       var user := if spec.podLabels.Some? then spec.podLabels.value else map[];
       && o.meta.labels.Some?
       && (forall l :: l in labels <==> l in user || l in o.meta.labels.value)
       && (forall l :: l in labels ==> labels[l] == if l in user then user[l] else o.meta.labels.value[l])
  }

  /** The site's files are on the content claim if and only if persistence is on; otherwise they live and die with the
      pod. */
  ghost predicate ContentAsWritten(spec: WordPressSpec, key: Key, o: Object) {
    && o.body.DeploymentBody? && |o.body.deployment.template.containers| == 1
    && var t := o.body.deployment.template;
       MountedAt(t, t.containers[0], "/var/www/html") ==
       {if spec.persistence.enabled then ClaimVolume("wp-content", key.name + "-content") else EmptyDir("wp-content")}
  }

  lemma SiteBuilt(wp: WordPress, spec: WordPressSpec)
    requires wp.spec == Defaults.Defaulted(spec)
    ensures SiteAsWritten(spec, wp.key, DeploymentObject(wp))
  {
    hide Defaults.Defaulted, Labels.CommonLabels, Labels.SelectorLabels, SiteEnv, Labels.Merged, WaitContainer,
      ContentName, Labelled, DatabaseKept;
    LabelsAreWritten(wp.key.name, "wordpress");
    DefaultingOnlyFills(spec);
  }

  lemma WaitBuilt(wp: WordPress, spec: WordPressSpec)
    requires wp.spec == Defaults.Defaulted(spec) && Defaults.Validate(wp.spec).None?
    ensures WaitsAsWritten(spec, wp.key, DeploymentObject(wp))
  {
    hide Defaults.Defaulted, Labels.CommonLabels, Labels.SelectorLabels, SiteEnv, Labels.Merged, ContentName;
    DefaultingOnlyFills(spec);
    assert WaitHost(wp) == wp.key.name + "-mysql." + wp.key.ns + ".svc";
  }

  lemma PodLabelsBuilt(wp: WordPress, spec: WordPressSpec)
    requires wp.spec == Defaults.Defaulted(spec)
    ensures PodLabelsAsWritten(spec, wp.key, DeploymentObject(wp))
  {
    hide Defaults.Defaulted, Labels.CommonLabels, Labels.SelectorLabels, SiteEnv, WaitContainer, ContentName;
    DefaultingOnlyFills(spec);
    var common := Labels.CommonLabels(wp.key.name, Labels.WORDPRESS);
    assert [spec.podLabels][..0] == [];
    assert Labels.Merged(Some(common), [spec.podLabels]) == common + Labels.Entries(spec.podLabels);
  }

  lemma ContentBuilt(wp: WordPress, spec: WordPressSpec)
    requires wp.spec == Defaults.Defaulted(spec)
    ensures ContentAsWritten(spec, wp.key, DeploymentObject(wp))
  {
    hide Defaults.Defaulted, Labels.CommonLabels, Labels.SelectorLabels, SiteEnv, Labels.Merged, WaitContainer;
    DefaultingOnlyFills(spec);
    var t := SiteTemplate(wp);
    var v := if spec.persistence.enabled then ClaimVolume("wp-content", wp.key.name + "-content")
             else EmptyDir("wp-content");
    assert t.volumes == [v] && t.containers[0].mounts == [Mount("wp-content", "/var/www/html")];
    assert t.containers[0].mounts[0] in t.containers[0].mounts && t.volumes[0] in t.volumes;
    assert v in MountedAt(t, t.containers[0], "/var/www/html");
  }

  /** After one undisturbed pass, from any store: the Deployment runs the user's image with the user's settings where
      the user wrote them, and with the documented defaults where not. */
  lemma SiteIsAsWritten(s: Store, key: Key, q: Quantities, d: Draw)
    requires Reconcilable(s, key, Builder(q, d))
    ensures
      var k, spec := Key(DeploymentKind, key.ns, key.name), s.objects[key].body.spec;
      var o := QuietPass(s, key, Builder(q, d)).0.objects;
      && k in o && SiteAsWritten(spec, key, o[k]) && WaitsAsWritten(spec, key, o[k])
      && PodLabelsAsWritten(spec, key, o[k]) && ContentAsWritten(spec, key, o[k])
      && (spec.persistence.enabled ==> Key(ClaimKind, key.ns, key.name + "-content") in o)
  {
    hide QuietPass, Defaults.Defaulted, Reconcilable, DeploymentObject, WellFormed, SiteAsWritten, WaitsAsWritten,
      PodLabelsAsWritten, ContentAsWritten;
    ReconcilableFacts(s, key, Builder(q, d));
    var wp, spec := InMemory(s, key), s.objects[key].body.spec;
    DeploymentSettles(s, key, q, d);
    var o := QuietPass(s, key, Builder(q, d)).0.objects;
    var k := Key(DeploymentKind, key.ns, key.name);
    SiteBuilt(wp, spec);
    ReconcilableIsValid(s, key, Builder(q, d));
    WaitBuilt(wp, spec);
    PodLabelsBuilt(wp, spec);
    ContentBuilt(wp, spec);
    SameDeployment(spec, key, DeploymentObject(wp), o[k]);
    SwitchesAreKept(spec);
    if spec.persistence.enabled { SettledChild(s, key, q, d, ContentClaim); }
  }

  lemma DeploymentSettles(s: Store, key: Key, q: Quantities, d: Draw)
    requires Reconcilable(s, key, Builder(q, d))
    ensures
      var k := Key(DeploymentKind, key.ns, key.name);
      var o := QuietPass(s, key, Builder(q, d)).0.objects;
      k in o && key in s.objects && s.objects[key].body.WordPressBody? && o[k].body.DeploymentBody?
      && Agrees(o[k], DeploymentObject(InMemory(s, key)))
  {
    hide QuietPass, Defaults.Defaulted, Reconcilable, DeploymentObject, WellFormed, Agrees;
    ReconcilableFacts(s, key, Builder(q, d));
    AlwaysWanted(InMemory(s, key).spec);
    SettledChild(s, key, q, d, Deployment);
    StoredKinds(QuietPass(s, key, Builder(q, d)).0, key);
  }

  /** None of this looks at more than the managed fields. */
  lemma SameDeployment(spec: WordPressSpec, key: Key, built: Object, o: Object)
    requires built.body.DeploymentBody? && o.body.DeploymentBody? && Agrees(o, built)
    ensures SiteAsWritten(spec, key, o) == SiteAsWritten(spec, key, built)
    ensures WaitsAsWritten(spec, key, o) == WaitsAsWritten(spec, key, built)
    ensures PodLabelsAsWritten(spec, key, o) == PodLabelsAsWritten(spec, key, built)
    ensures ContentAsWritten(spec, key, o) == ContentAsWritten(spec, key, built)
  {
    hide TextKept, Labelled, MountedAt;
  }

  lemma ReconcilableIsValid(s: Store, key: Key, render: Render)
    requires Reconcilable(s, key, render)
    ensures Defaults.Validate(InMemory(s, key).spec).None?
  {
  }

  // ---------------------------------------------------------------- what the site's container sees

  function Given(text: string, default: string): string { if text != "" then text else default }

  /** What the operator promises to set in the site's container. */
  function Promised(spec: WordPressSpec, key: Key, name: string): Option<EnvSource> {
    var db := spec.database;
    var elsewhere := db.mode == External && db.external.Some?;
    if name == "WORDPRESS_DB_HOST" then
      Some(Literal(
        if elsewhere then
          db.external.value.host + ":" + Decimal(if db.external.value.port != 0 then db.external.value.port else 3306)
        else (key.name + "-mysql." + key.ns + ".svc") + ":3306"))
    else if name == "WORDPRESS_DB_NAME" then Some(Literal(Given(db.name, "wordpress")))
    else if name == "WORDPRESS_DB_USER" then Some(Literal(Given(db.user, "wordpress")))
    else if name == "WORDPRESS_TABLE_PREFIX" then Some(Literal(Given(db.tablePrefix, "wp_")))
    else if name == "WORDPRESS_DB_PASSWORD" then
      Some(FromSecret(if elsewhere then db.external.value.passwordSecret
                      else SecretRef(key.name + "-mysql-credentials", "wordpress-password")))
    else if (name == "WORDPRESS_HOME" || name == "WORDPRESS_SITEURL") && spec.siteUrl != "" then
      Some(Literal(spec.siteUrl))
    else None
  }

  lemma {:induction false} LookupIsMember(env: seq<EnvVar>, name: string)
    ensures Lookup(env, name).Some? ==> exists i :: 0 <= i < |env| && env[i].name == name
  {
    if env != [] && env[|env| - 1].name != name {
      var rest := env[..|env| - 1];
      LookupIsMember(rest, name);
      if i :| 0 <= i < |rest| && rest[i].name == name { assert env[i].name == name; }
    }
  }

  /** The operator's own variables, one by one. */
  lemma OperatorKeepsPromises(wp: WordPress, spec: WordPressSpec, i: nat)
    requires wp.spec == Defaults.Defaulted(spec) && Defaults.Validate(wp.spec).None? && i < |OperatorEnv(wp)|
    ensures Promised(spec, wp.key, OperatorEnv(wp)[i].name) == Some(OperatorEnv(wp)[i].source)
  {
    hide Defaults.Defaulted, Decimal;
    DefaultingOnlyFills(spec);
    HostsAreWritten(wp.key);
    hide DatabaseName;
  }

  lemma HostsAreWritten(key: Key)
    ensures DatabaseName(key.name) + "." + key.ns + ".svc" == key.name + "-mysql." + key.ns + ".svc"
    ensures DatabaseName(key.name) + "." + key.ns + ".svc" + ":" + Decimal(3306) ==
            (key.name + "-mysql." + key.ns + ".svc") + ":3306"
  {
    hide Decimal;
    DecimalOfMySQL();
    assert DatabaseName(key.name) + "." == key.name + "-mysql.";
    var host := key.name + "-mysql." + key.ns + ".svc";
    assert host + ":" + "3306" == host + ":3306";
  }

  lemma PromisedIsOperator(wp: WordPress, spec: WordPressSpec, name: string)
    requires wp.spec == Defaults.Defaulted(spec)
    requires Promised(spec, wp.key, name).Some?
    ensures exists i :: 0 <= i < |OperatorEnv(wp)| && OperatorEnv(wp)[i].name == name
  {
    hide Defaults.Defaulted, Decimal, ResolvedHost, ResolvedPort, PasswordSource;
    DefaultingOnlyFills(spec);
    var env := OperatorEnv(wp);
    assert env[0].name == "WORDPRESS_DB_HOST" && env[1].name == "WORDPRESS_DB_NAME";
    assert env[2].name == "WORDPRESS_DB_USER" && env[3].name == "WORDPRESS_TABLE_PREFIX";
    assert env[4].name == "WORDPRESS_DB_PASSWORD";
    if spec.siteUrl != "" { assert env[5].name == "WORDPRESS_HOME" && env[6].name == "WORDPRESS_SITEURL"; }
  }

  lemma OperatorLookup(wp: WordPress, spec: WordPressSpec, name: string)
    requires wp.spec == Defaults.Defaulted(spec) && Defaults.Validate(wp.spec).None?
    ensures Lookup(OperatorEnv(wp), name) == Promised(spec, wp.key, name)
  {
    hide Defaults.Defaulted, Defaults.Validate, Promised, OperatorEnv, Lookup;
    var env := OperatorEnv(wp);
    LookupIsMember(env, name);
    if Promised(spec, wp.key, name).Some? { PromisedIsOperator(wp, spec, name); }
    if i :| 0 <= i < |env| && env[i].name == name {
      forall j | i < j < |env| ensures env[j].name != env[i].name { OperatorNamesDiffer(wp, i, j); }
      LookupOnly(env, i);
      OperatorKeepsPromises(wp, spec, i);
    }
  }

  /** Under every name at all, the site's container sees what the user set under that name; else what the operator
      promises; else nothing.  In External mode that is the user's host, port, and password Secret with its key; in
      Internal mode the headless Service and the generated Secret. */
  lemma EnvironmentIsAsWritten(s: Store, key: Key, q: Quantities, d: Draw, name: string)
    requires Reconcilable(s, key, Builder(q, d))
    ensures
      var k, spec := Key(DeploymentKind, key.ns, key.name), s.objects[key].body.spec;
      var o := QuietPass(s, key, Builder(q, d)).0.objects;
      && k in o && o[k].body.DeploymentBody? && |o[k].body.deployment.template.containers| == 1
      && Lookup(o[k].body.deployment.template.containers[0].env, name) ==
         if Lookup(spec.env, name).Some? then Lookup(spec.env, name) else Promised(spec, key, name)
  {
    hide QuietPass, Defaults.Defaulted, Reconcilable, WellFormed, Promised, OperatorEnv, Lookup, WaitContainer,
      Labels.CommonLabels, Labels.SelectorLabels, Labels.Merged, ContentName;
    ReconcilableFacts(s, key, Builder(q, d));
    ReconcilableIsValid(s, key, Builder(q, d));
    var wp, spec := InMemory(s, key), s.objects[key].body.spec;
    DeploymentSettles(s, key, q, d);
    DefaultingOnlyFills(spec);
    LookupAppend(OperatorEnv(wp), wp.spec.env, name);
    OperatorLookup(wp, spec, name);
  }

  // ---------------------------------------------------------------- Services, Ingress, autoscaler

  ghost predicate ServiceAsWritten(spec: WordPressSpec, key: Key, o: Object) {
    && o.body.ServiceBody? && |o.body.service.ports| == 1
    && Labelled(o.meta.labels, key.name, "wordpress") && o.meta.annotations == spec.service.annotations
    && var port := o.body.service.ports[0];
       && (spec.service.serviceType == NoServiceType ==> o.body.service.serviceType == ClusterIP)
       && (spec.service.serviceType != NoServiceType ==> o.body.service.serviceType == spec.service.serviceType)
       && o.body.service.sessionAffinity == "" && Selects(o.body.service.selector, key.name, "wordpress")
       && port.name == "http" && NumberKept(spec.service.port, port.port, 80) && port.targetPort == 80
       // A node port is taken over for that type of Service alone, and only if there is one.
       && (spec.service.serviceType == NodePort && spec.service.nodePort > 0 ==>
             port.nodePort == spec.service.nodePort)
       && (spec.service.serviceType != NodePort || spec.service.nodePort <= 0 ==> port.nodePort == 0)
  }

  ghost predicate HeadlessAsWritten(key: Key, o: Object) {
    && o.body.ServiceBody? && Labelled(o.meta.labels, key.name, "mysql") && o.meta.annotations == None
    && o.body.service.serviceType == ClusterIP && o.body.service.sessionAffinity == "None"
    && Selects(o.body.service.selector, key.name, "mysql")
    && o.body.service.ports == [ServicePort("mysql", 3306, 3306, 0)]
  }

  /** One rule for everything below the host, to the site's Service at its port; TLS for that host if and only if a
      Secret is named, and with that Secret. */
  ghost predicate IngressAsWritten(spec: WordPressSpec, key: Key, o: Object) {
    && o.body.IngressBody?
    && Labelled(o.meta.labels, key.name, "wordpress") && o.meta.annotations == spec.ingress.annotations
    && var route := o.body.ingress;
       && route.className == spec.ingress.className && route.host == spec.ingress.host && route.path == "/"
       && route.backendService == key.name && NumberKept(spec.service.port, route.backendPort, 80)
       && (route.tls.Some? <==> spec.ingress.tlsSecretName != "")
       && (route.tls.Some? ==>
             route.tls.value.hosts == [spec.ingress.host] && route.tls.value.secretName == spec.ingress.tlsSecretName)
  }

  ghost predicate AutoscalerAsWritten(spec: WordPressSpec, key: Key, o: Object) {
    && o.body.AutoscalerBody? && Labelled(o.meta.labels, key.name, "wordpress")
    && o.body.autoscaler.targetDeployment == key.name
    && NumberKept(spec.autoscaling.minReplicas, o.body.autoscaler.minReplicas, 1)
    && NumberKept(spec.autoscaling.maxReplicas, o.body.autoscaler.maxReplicas, 5)
    && NumberKept(spec.autoscaling.targetCpu, o.body.autoscaler.cpuUtilization, 80)
  }

  lemma RoutesBuilt(wp: WordPress, spec: WordPressSpec, o: Object)
    requires wp.spec == Defaults.Defaulted(spec) && Defaults.Validate(wp.spec).None?
    ensures Agrees(o, SiteServiceObject(wp)) && o.body.ServiceBody? ==> ServiceAsWritten(spec, wp.key, o)
    ensures Agrees(o, HeadlessService(wp)) && o.body.ServiceBody? ==> HeadlessAsWritten(wp.key, o)
    ensures spec.ingress.enabled && Agrees(o, IngressObject(wp)) && o.body.IngressBody? ==>
              IngressAsWritten(spec, wp.key, o)
    ensures spec.autoscaling.enabled && Agrees(o, AutoscalerObject(wp)) && o.body.AutoscalerBody? ==>
              AutoscalerAsWritten(spec, wp.key, o)
  {
    hide Defaults.Defaulted, Labels.CommonLabels, Labels.SelectorLabels, Labelled, Selects, DatabaseKept;
    LabelsAreWritten(wp.key.name, "wordpress");
    LabelsAreWritten(wp.key.name, "mysql");
    DefaultingOnlyFills(spec);
  }

  lemma SwitchesAreKept(spec: WordPressSpec)
    ensures Wanted(Defaults.Defaulted(spec), SiteIngress) <==> spec.ingress.enabled
    ensures Wanted(Defaults.Defaulted(spec), Autoscaler) <==> spec.autoscaling.enabled
    ensures Wanted(Defaults.Defaulted(spec), ContentClaim) <==> spec.persistence.enabled
    ensures forall c: Child | c.DbSecret? || c.DbService? || c.DbStatefulSet? ::
              Wanted(Defaults.Defaulted(spec), c) <==> spec.database.mode != External
  {
    hide Defaults.Defaulted;
    DefaultingOnlyFills(spec);
  }

  lemma KindsAreKept(s: Store, k: Key)
    requires WellFormed(s) && k in s.objects
    ensures KindOf(s.objects[k].body) == k.kind
  {
  }

  /** A wanted child with a builder that cannot fail agrees with what is built; its key is spelled out. */
  lemma SettledUnder(s: Store, key: Key, q: Quantities, d: Draw, c: Child, k: Key)
    requires Reconcilable(s, key, Builder(q, d)) && Wanted(InMemory(s, key).spec, c) && k == ChildKey(c, key)
    ensures
      var o := QuietPass(s, key, Builder(q, d)).0.objects;
      && k in o && Build(InMemory(s, key), c, q, d).Some? && KindOf(o[k].body) == k.kind
      && Agrees(o[k], Build(InMemory(s, key), c, q, d).value)
  {
    hide QuietPass, Defaults.Defaulted, Reconcilable, WellFormed, Agrees, Build, ChildKey;
    SettledChild(s, key, q, d, c);
    KindsAreKept(QuietPass(s, key, Builder(q, d)).0, k);
  }

  /** The site's Service is of the user's type, at the user's port. */
  lemma ServiceIsAsWritten(s: Store, key: Key, q: Quantities, d: Draw)
    requires Reconcilable(s, key, Builder(q, d))
    ensures
      var k, o := Key(ServiceKind, key.ns, key.name), QuietPass(s, key, Builder(q, d)).0.objects;
      k in o && ServiceAsWritten(s.objects[key].body.spec, key, o[k])
  {
    hide QuietPass, Defaults.Defaulted, Reconcilable, WellFormed, Agrees, SiteServiceObject, ServiceAsWritten;
    ReconcilableFacts(s, key, Builder(q, d));
    ReconcilableIsValid(s, key, Builder(q, d));
    AlwaysWanted(InMemory(s, key).spec);
    var k := Key(ServiceKind, key.ns, key.name);
    SettledUnder(s, key, q, d, SiteService, k);
    RoutesBuilt(InMemory(s, key), s.objects[key].body.spec, QuietPass(s, key, Builder(q, d)).0.objects[k]);
  }

  /** An enabled Ingress serves the user's host, with TLS as the user asked. */
  lemma IngressIsAsWritten(s: Store, key: Key, q: Quantities, d: Draw)
    requires Reconcilable(s, key, Builder(q, d)) && s.objects[key].body.spec.ingress.enabled
    ensures
      var k, o := Key(IngressKind, key.ns, key.name), QuietPass(s, key, Builder(q, d)).0.objects;
      k in o && IngressAsWritten(s.objects[key].body.spec, key, o[k])
  {
    hide QuietPass, Defaults.Defaulted, Reconcilable, WellFormed, Agrees, IngressObject, IngressAsWritten, Wanted;
    ReconcilableFacts(s, key, Builder(q, d));
    ReconcilableIsValid(s, key, Builder(q, d));
    SwitchesAreKept(s.objects[key].body.spec);
    var k := Key(IngressKind, key.ns, key.name);
    SettledUnder(s, key, q, d, SiteIngress, k);
    RoutesBuilt(InMemory(s, key), s.objects[key].body.spec, QuietPass(s, key, Builder(q, d)).0.objects[k]);
  }

  /** An enabled autoscaler keeps the Deployment within the user's bounds, at the user's target. */
  lemma AutoscalerIsAsWritten(s: Store, key: Key, q: Quantities, d: Draw)
    requires Reconcilable(s, key, Builder(q, d)) && s.objects[key].body.spec.autoscaling.enabled
    ensures
      var k, o := Key(AutoscalerKind, key.ns, key.name + "-hpa"), QuietPass(s, key, Builder(q, d)).0.objects;
      && k in o && AutoscalerAsWritten(s.objects[key].body.spec, key, o[k])
      && o[k].body.autoscaler.minReplicas <= o[k].body.autoscaler.maxReplicas
  {
    hide QuietPass, Defaults.Defaulted, Reconcilable, WellFormed, Agrees, AutoscalerObject, AutoscalerAsWritten,
      Wanted;
    ReconcilableFacts(s, key, Builder(q, d));
    ReconcilableIsValid(s, key, Builder(q, d));
    SwitchesAreKept(s.objects[key].body.spec);
    var k := Key(AutoscalerKind, key.ns, key.name + "-hpa");
    SettledUnder(s, key, q, d, Autoscaler, k);
    var o := QuietPass(s, key, Builder(q, d)).0.objects[k];
    RoutesBuilt(InMemory(s, key), s.objects[key].body.spec, o);
    CountIsKept(s.objects[key].body.spec);
    BoundsDoNotCross(InMemory(s, key), o);
  }

  lemma BoundsDoNotCross(wp: WordPress, o: Object)
    requires Defaults.Validate(wp.spec).None? && wp.spec.autoscaling.enabled
    requires o.body.AutoscalerBody? && Agrees(o, AutoscalerObject(wp))
    ensures o.body.autoscaler.minReplicas <= o.body.autoscaler.maxReplicas
  {
  }

  // ---------------------------------------------------------------- the database's objects

  /** The generated credentials: written once, when there are none, and then left alone. */
  lemma SecretIsAsWritten(s: Store, key: Key, q: Quantities, d: Draw)
    requires Reconcilable(s, key, Builder(q, d)) && s.objects[key].body.spec.database.mode != External
    ensures
      var k, db := Key(SecretKind, key.ns, key.name + "-mysql-credentials"), s.objects[key].body.spec.database;
      var o := QuietPass(s, key, Builder(q, d)).0.objects;
      && k in o && (k in s.objects ==> o[k] == s.objects[k])
      && (k !in s.objects ==>
            && d.root.Some? && d.password.Some? && Labelled(o[k].meta.labels, key.name, "mysql")
            && o[k].body == SecretBody(map["mysql-root-password" := d.root.value,
                                           "wordpress-password" := d.password.value,
                                           "wordpress-user" := Given(db.user, "wordpress"),
                                           "wordpress-database" := Given(db.name, "wordpress")]))
  {
    hide QuietPass, Defaults.Defaulted, Reconcilable, WellFormed, Wanted, Labels.CommonLabels, Labelled;
    ReconcilableFacts(s, key, Builder(q, d));
    var wp, spec := InMemory(s, key), s.objects[key].body.spec;
    SwitchesAreKept(spec);
    if ChildKey(DbSecret, key) in s.objects {
      NeverUpdated(s, key, q, d, DbSecret);
    } else {
      CreatedAsBuilt(s, key, q, d, DbSecret);
      DefaultingOnlyFills(spec);
      LabelsAreWritten(key.name, "mysql");
    }
  }

  /** The site's content claim: as the user asked if there was none, and otherwise left alone. */
  lemma ClaimIsAsWritten(s: Store, key: Key, q: Quantities, d: Draw)
    requires Reconcilable(s, key, Builder(q, d)) && s.objects[key].body.spec.persistence.enabled
    ensures
      var k, asked := Key(ClaimKind, key.ns, key.name + "-content"), s.objects[key].body.spec.persistence;
      var o := QuietPass(s, key, Builder(q, d)).0.objects;
      && k in o && (k in s.objects ==> o[k] == s.objects[k])
      && (k !in s.objects ==>
            && Labelled(o[k].meta.labels, key.name, "wordpress") && o[k].body.ClaimBody?
            && o[k].body.claim.accessModes == (if asked.accessModes == [] then ["ReadWriteOnce"] else asked.accessModes)
            && o[k].body.claim.storageClassName == asked.storageClassName
            && Given(asked.size, "5Gi") in q && o[k].body.claim.storage == q[Given(asked.size, "5Gi")])
  {
    hide QuietPass, Defaults.Defaulted, Reconcilable, WellFormed, Wanted, Labels.CommonLabels, Labelled, DatabaseKept;
    ReconcilableFacts(s, key, Builder(q, d));
    var wp, spec := InMemory(s, key), s.objects[key].body.spec;
    SwitchesAreKept(spec);
    if ChildKey(ContentClaim, key) in s.objects {
      NeverUpdated(s, key, q, d, ContentClaim);
    } else {
      CreatedAsBuilt(s, key, q, d, ContentClaim);
      DefaultingOnlyFills(spec);
      LabelsAreWritten(key.name, "wordpress");
    }
  }

  /** The headless Service; its cluster IP is "None" from the start and never changed. */
  lemma HeadlessIsAsWritten(s: Store, key: Key, q: Quantities, d: Draw)
    requires Reconcilable(s, key, Builder(q, d)) && s.objects[key].body.spec.database.mode != External
    ensures
      var k := Key(ServiceKind, key.ns, key.name + "-mysql");
      var o := QuietPass(s, key, Builder(q, d)).0.objects;
      && k in o && HeadlessAsWritten(key, o[k])
      && (k !in s.objects ==> o[k].body.service.clusterIp == "None")
  {
    hide QuietPass, Defaults.Defaulted, Reconcilable, WellFormed, Agrees, HeadlessAsWritten, Wanted;
    ReconcilableFacts(s, key, Builder(q, d));
    ReconcilableIsValid(s, key, Builder(q, d));
    SwitchesAreKept(s.objects[key].body.spec);
    var k := Key(ServiceKind, key.ns, key.name + "-mysql");
    SettledUnder(s, key, q, d, DbService, k);
    RoutesBuilt(InMemory(s, key), s.objects[key].body.spec, QuietPass(s, key, Builder(q, d)).0.objects[k]);
    if k !in s.objects { CreatedAsBuilt(s, key, q, d, DbService); }
  }

  /** The internal section the user wrote; an absent one counts as empty. */
  function Asked(db: DatabaseSpec): InternalDb {
    if db.internal.Some? then db.internal.value else InternalDb("", "", "", None, "", None, None, "", "")
  }

  /** What the operator sets in the MySQL container. */
  function PromisedToMySQL(spec: WordPressSpec, key: Key, name: string): Option<EnvSource> {
    var own := key.name + "-mysql-credentials";
    if name == "MYSQL_ROOT_PASSWORD" then
      Some(FromSecret(if Asked(spec.database).rootPasswordSecret.Some? then
                        Asked(spec.database).rootPasswordSecret.value
                      else SecretRef(own, "mysql-root-password")))
    else if name == "MYSQL_DATABASE" then Some(Literal(Given(spec.database.name, "wordpress")))
    else if name == "MYSQL_USER" then Some(Literal(Given(spec.database.user, "wordpress")))
    else if name == "MYSQL_PASSWORD" then Some(FromSecret(SecretRef(own, "wordpress-password")))
    else None
  }

  ghost predicate MySQLAsWritten(spec: WordPressSpec, key: Key, o: Object) {
    && o.body.StatefulSetBody? && |o.body.statefulSet.template.containers| == 1
    && var db, t := Asked(spec.database), o.body.statefulSet.template;
       var c, ping := t.containers[0], ["sh", "-c", "mysqladmin ping -h 127.0.0.1 -uroot -p\"$MYSQL_ROOT_PASSWORD\""];
       && o.body.statefulSet.replicas == Some(1)
       && Labelled(Some(t.labels), key.name, "mysql") && t.annotations == None && t.imagePullSecrets == ""
       && t.initContainers == [] && t.volumes == []
       && t.nodeSelector == db.nodeSelector && t.tolerations == db.tolerations && t.affinity == db.affinity
       && TextKept(db.image, c.image, "mysql:8.0") && TextKept(db.imagePullPolicy, c.imagePullPolicy, "IfNotPresent")
       && c.name == "mysql" && c.command == [] && c.resources == db.resources
       && c.ports == [ContainerPort("mysql", 3306)] && c.mounts == [Mount("data", "/var/lib/mysql")]
       && c.readiness == Probe(RunCommand(ping), 30, 10, 5, 3) && c.liveness == Probe(RunCommand(ping), 60, 20, 10, 6)
  }

  ghost predicate MySQLSees(spec: WordPressSpec, key: Key, o: Object, name: string) {
    && o.body.StatefulSetBody? && |o.body.statefulSet.template.containers| == 1
    && Lookup(o.body.statefulSet.template.containers[0].env, name) == PromisedToMySQL(spec, key, name)
  }

  lemma MySQLBuilt(wp: WordPress, spec: WordPressSpec, q: Quantities, o: Object)
    requires wp.spec == Defaults.Defaulted(spec) && wp.spec.database.mode.Internal?
    requires StatefulSetObject(wp, q).Some? && o.body.StatefulSetBody? && Agrees(o, StatefulSetObject(wp, q).value)
    ensures MySQLAsWritten(spec, wp.key, o)
  {
    hide Defaults.Defaulted, Labels.CommonLabels, Labels.SelectorLabels, Labelled, DatabaseEnv, DatabaseName;
    LabelsAreWritten(wp.key.name, "mysql");
    DefaultingOnlyFills(spec);
  }

  lemma DatabaseLookup(wp: WordPress, spec: WordPressSpec, internal: InternalDb, name: string)
    requires wp.spec == Defaults.Defaulted(spec) && wp.spec.database.mode.Internal?
    requires wp.spec.database.internal == Some(internal)
    ensures Lookup(DatabaseEnv(wp, internal), name) == PromisedToMySQL(spec, wp.key, name)
  {
    hide Defaults.Defaulted, Lookup;
    DefaultingOnlyFills(spec);
    var env := DatabaseEnv(wp, internal);
    assert |env[0].name| == 19 && |env[1].name| == 14 && |env[2].name| == 10 && |env[3].name| == 14;
    assert env[1].name[6] == 'D' && env[3].name[6] == 'P';
    LookupIsMember(env, name);
    if i :| 0 <= i < |env| && env[i].name == name { LookupOnly(env, i); }
    assert env[0].name == "MYSQL_ROOT_PASSWORD" && env[1].name == "MYSQL_DATABASE";
    assert env[2].name == "MYSQL_USER" && env[3].name == "MYSQL_PASSWORD";
  }

  /** MySQL runs as the user asked, sees the database, user and passwords it should and nothing else, and keeps its
      files on the claim template's volume.  Storage is fixed when the StatefulSet is created. */
  lemma MySQLIsAsWritten(s: Store, key: Key, q: Quantities, d: Draw, name: string)
    requires Reconcilable(s, key, Builder(q, d)) && s.objects[key].body.spec.database.mode != External
    ensures
      var k, spec := Key(StatefulSetKind, key.ns, key.name + "-mysql"), s.objects[key].body.spec;
      var o := QuietPass(s, key, Builder(q, d)).0.objects;
      && k in o && MySQLAsWritten(spec, key, o[k]) && MySQLSees(spec, key, o[k], name)
      && (k !in s.objects ==>
            var built, size := o[k].body.statefulSet, Given(Asked(spec.database).storageSize, "5Gi");
            && Labelled(o[k].meta.labels, key.name, "mysql") && Selects(built.selector, key.name, "mysql")
            && built.serviceName == key.name + "-mysql" && size in q
            && built.claimTemplates ==
               [ClaimTemplate(o[k].body.statefulSet.template.containers[0].mounts[0].volume,
                              ClaimSpec(["ReadWriteOnce"], Asked(spec.database).storageClassName, q[size]))])
  {
    hide QuietPass, Defaults.Defaulted, Reconcilable, WellFormed, MySQLAsWritten, Wanted, Lookup, DatabaseEnv,
      PromisedToMySQL, Labels.CommonLabels, Labels.SelectorLabels, Labelled, Selects;
    ReconcilableFacts(s, key, Builder(q, d));
    ReconcilableIsValid(s, key, Builder(q, d));
    var wp, spec := InMemory(s, key), s.objects[key].body.spec;
    SwitchesAreKept(spec);
    var k := Key(StatefulSetKind, key.ns, key.name + "-mysql");
    SettledUnder(s, key, q, d, DbStatefulSet, k);
    DefaultingOnlyFills(spec);
    MySQLBuilt(wp, spec, q, QuietPass(s, key, Builder(q, d)).0.objects[k]);
    DatabaseLookup(wp, spec, wp.spec.database.internal.value, name);
    if k !in s.objects {
      CreatedAsBuilt(s, key, q, d, DbStatefulSet);
      LabelsAreWritten(key.name, "mysql");
    }
  }

  /** What the spec does not ask for is not touched: no MySQL objects in External mode, no claim without persistence;
      and a disabled Ingress or autoscaler is not there, or not the resource's own, or on its way out. */
  lemma UnaskedIsLeftAlone(s: Store, key: Key, q: Quantities, d: Draw, k: Key)
    requires Reconcilable(s, key, Builder(q, d))
    ensures
      var spec, o := s.objects[key].body.spec, QuietPass(s, key, Builder(q, d)).0.objects;
      && ((spec.database.mode == External &&
           k in {Key(SecretKind, key.ns, key.name + "-mysql-credentials"),
                 Key(ServiceKind, key.ns, key.name + "-mysql"), Key(StatefulSetKind, key.ns, key.name + "-mysql")})
          || (!spec.persistence.enabled && k == Key(ClaimKind, key.ns, key.name + "-content")) ==>
            (k in o <==> k in s.objects) && (k in o ==> o[k] == s.objects[k]))
      && ((!spec.ingress.enabled && k == Key(IngressKind, key.ns, key.name))
          || (!spec.autoscaling.enabled && k == Key(AutoscalerKind, key.ns, key.name + "-hpa")) ==>
            k in o ==> o[k].meta.controller != Some(s.objects[key].meta.uid) || o[k].meta.deleting)
  {
    hide QuietPass, Defaults.Defaulted, Reconcilable, WellFormed, Wanted, Builder;
    ReconcilableFacts(s, key, Builder(q, d));
    var wp, spec := InMemory(s, key), s.objects[key].body.spec;
    SwitchesAreKept(spec);
    forall c | k == ChildKey(c, key) && !Wanted(wp.spec, c) && !c.SiteIngress? && !c.Autoscaler?
      ensures
        var o := QuietPass(s, key, Builder(q, d)).0.objects;
        (k in o <==> k in s.objects) && (k in o ==> o[k] == s.objects[k])
    {
      UnwantedIsUntouched(s, key, Builder(q, d), c);
    }
    assert ChildKey(DbSecret, key) == Key(SecretKind, key.ns, key.name + "-mysql-credentials");
    assert ChildKey(DbService, key) == Key(ServiceKind, key.ns, key.name + "-mysql");
    assert ChildKey(DbStatefulSet, key) == Key(StatefulSetKind, key.ns, key.name + "-mysql");
    assert ChildKey(ContentClaim, key) == Key(ClaimKind, key.ns, key.name + "-content");
    ToggledChildFollowsTheSpec(s, key, Builder(q, d), SiteIngress);
    ToggledChildFollowsTheSpec(s, key, Builder(q, d), Autoscaler);
  }

  lemma UnwantedIsUntouched(s: Store, key: Key, render: Render, c: Child)
    requires Reconcilable(s, key, render) && !Wanted(InMemory(s, key).spec, c) && !c.SiteIngress? && !c.Autoscaler?
    ensures
      var k, o := ChildKey(c, key), QuietPass(s, key, render).0.objects;
      (k in o <==> k in s.objects) && (k in o ==> o[k] == s.objects[k])
  {
    hide QuietPass, Defaults.Defaulted, Defaults.Validate, ChildKey, Sound, WellFormed, Visited, StatusPatch,
      QuietStatus, Visit;
    var wp := InMemory(s, key);
    QuietPassIs(s, key, render);
    VisitedThere(s, wp, render, c);
    NoChildIsResource(c, key);
    UnwantedIsSkipped(Visited(s, wp, render, Order(c)), wp, render, c);
  }
}
