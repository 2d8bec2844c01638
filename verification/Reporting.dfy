/**
 What the saved status says: after a pass that does its work, and after one that cannot.

 As in Outcome.dfy, the statements speak of the resource as the user wrote it and of the stored objects, with addresses,
 reasons and delays written out.
 */
module Reporting {
  import opened Types
  import opened Names
  import opened Conditions
  import opened Server
  import opened Machine
  import opened System
  import opened Defaulting
  import opened Builders
  import opened Quiet
  import opened Convergence
  import opened Lifecycle
  import opened Outcome

  /** The status that is stored for the resource. */
  function StatusIn(s: Store, key: Key): Option<WordPressStatus> {
    if key in s.objects && s.objects[key].body.WordPressBody? then Some(s.objects[key].body.status) else None
  }

  // ---------------------------------------------------------------- address and host

  lemma QuietAddress(s: Store, wp: WordPress, render: Render)
    ensures QuietStatus(s, wp, render).url == Defaults.ComputeUrl(wp.spec)
    ensures QuietStatus(s, wp, render).databaseHost == ResolvedHost(wp)
  {
    hide Defaults.ComputeUrl, ResolvedHost, Visited, ChildKey, SetCondition, RemoveCondition;
    QuietStatusIs(s, wp, render);
  }

  lemma SavedStatus(s: Store, key: Key, render: Render)
    requires Reconcilable(s, key, render)
    ensures StatusIn(QuietPass(s, key, render).0, key) == Some(QuietStatus(s, InMemory(s, key), render))
  {
    hide QuietPass, Defaults.Defaulted, Defaults.Validate, QuietStatus, Sound, WellFormed, AllSettled;
    OnePassConverges(s, key, render, key);
  }

  /** The address the status gives is the one the user chose; else the host that the stored Ingress serves, with https
      if and only if that Ingress has TLS for that host; else there is none. */
  lemma UrlIsTruthful(s: Store, key: Key, q: Quantities, d: Draw)
    requires Reconcilable(s, key, Builder(q, d))
    ensures
      var spec, k := s.objects[key].body.spec, Key(IngressKind, key.ns, key.name);
      var s' := QuietPass(s, key, Builder(q, d)).0;
      var st := StatusIn(s', key);
      && st.Some?
      && (spec.siteUrl != "" ==> st.value.url == spec.siteUrl)
      && (spec.siteUrl == "" && !spec.ingress.enabled ==> st.value.url == "")
      && (spec.siteUrl == "" && spec.ingress.enabled ==>
            && k in s'.objects && s'.objects[k].body.IngressBody?
            && var route := s'.objects[k].body.ingress;
               var secured := route.tls.Some? && route.host in route.tls.value.hosts;
               route.host != "" && st.value.url == (if secured then "https://" else "http://") + route.host)
  {
    hide QuietPass, Defaults.Defaulted, Defaults.Validate, Reconcilable, WellFormed, QuietStatus, Builder;
    ReconcilableFacts(s, key, Builder(q, d));
    var spec := s.objects[key].body.spec;
    SavedStatus(s, key, Builder(q, d));
    QuietAddress(s, InMemory(s, key), Builder(q, d));
    DefaultingOnlyFills(spec);
    if spec.ingress.enabled {
      IngressIsAsWritten(s, key, q, d);
      ReconcilableIsValid(s, key, Builder(q, d));
      ValidExactlyIf(spec);
      assert "https" + "://" == "https://" && "http" + "://" == "http://";
    }
  }

  /** The database host the status names: the user's in External mode, the headless Service's in Internal mode. */
  lemma HostIsTruthful(s: Store, key: Key, q: Quantities, d: Draw)
    requires Reconcilable(s, key, Builder(q, d))
    ensures
      var db, st := s.objects[key].body.spec.database, StatusIn(QuietPass(s, key, Builder(q, d)).0, key);
      && st.Some?
      && (db.mode == External ==> db.external.Some? && st.value.databaseHost == db.external.value.host)
      && (db.mode != External ==> st.value.databaseHost == key.name + "-mysql." + key.ns + ".svc")
  {
    hide QuietPass, Defaults.Defaulted, Defaults.Validate, Reconcilable, WellFormed, QuietStatus, Builder;
    ReconcilableFacts(s, key, Builder(q, d));
    var spec := s.objects[key].body.spec;
    SavedStatus(s, key, Builder(q, d));
    QuietAddress(s, InMemory(s, key), Builder(q, d));
    DefaultingOnlyFills(spec);
    ReconcilableIsValid(s, key, Builder(q, d));
    ValidExactlyIf(spec);
    HostsAreWritten(key);
  }

  // ---------------------------------------------------------------- conditions and delays

  lemma ReportedConditions(wp: WordPress, st: WordPressStatus, total: int, ready: int)
    ensures
      var r := ReportedStatus(wp, st, total, ready);
      && r.phase == (if Holds(st.conditions, DatabaseReady) && 0 < ready == total then Ready else Provisioning)
      && Find(r.conditions, DeploymentReady) ==
         Some(if 0 < ready == total then Condition(DeploymentReady, true, AllReplicasReady, Plain)
              else Condition(DeploymentReady, false, Progressing, ReplicaCount(ready, total)))
      && Find(r.conditions, ReadyCondition) ==
         Some(if r.phase == Ready then Condition(ReadyCondition, true, AllReady, Plain)
              else Condition(ReadyCondition, false, Progressing, Plain))
  {
    hide Defaults.ComputeUrl;
    var first := if 0 < ready == total then Condition(DeploymentReady, true, AllReplicasReady, Plain)
                 else Condition(DeploymentReady, false, Progressing, ReplicaCount(ready, total));
    forall t { FindAfterSet(st.conditions, first, t); }
    var cs := SetCondition(st.conditions, first);
    FindAfterSet(cs, Condition(ReadyCondition, true, AllReady, Plain), ReadyCondition);
    FindAfterSet(cs, Condition(ReadyCondition, true, AllReady, Plain), DeploymentReady);
    FindAfterSet(cs, Condition(ReadyCondition, false, Progressing, Plain), ReadyCondition);
    FindAfterSet(cs, Condition(ReadyCondition, false, Progressing, Plain), DeploymentReady);
  }

  /** In any pass, disturbed or not: the report follows the answer to the look at the Deployment, and an absent one
      counts as no replicas. */
  lemma ReportFollowsTheAnswer(p: Pass, r: Response)
    requires p.Working? && p.at.ReadingStatus?
    requires r == Refused(NotFound) || (r.Found? && r.obj.body.DeploymentBody?)
    ensures
      var q := Next(p, r);
      var total, ready := if r.Found? then r.obj.body.replicas else 0, if r.Found? then r.obj.body.readyReplicas else 0;
      && q.Working? && q.at == FetchingLatest(0, ThenReport) && q.wp == p.wp
      && q.status.replicas == total && q.status.readyReplicas == ready
      && q.status.observedGeneration == p.wp.generation && q.status.databaseHost == p.status.databaseHost
      && q.status.phase == (if Holds(p.status.conditions, DatabaseReady) && 0 < ready == total then Ready
                            else Provisioning)
      && Find(q.status.conditions, DeploymentReady) ==
         Some(if 0 < ready == total then Condition(DeploymentReady, true, AllReplicasReady, Plain)
              else Condition(DeploymentReady, false, Progressing, ReplicaCount(ready, total)))
  {
    hide SetCondition, ReportedStatus;
    var total, ready := if r.Found? then r.obj.body.replicas else 0, if r.Found? then r.obj.body.readyReplicas else 0;
    ReportedConditions(p.wp, p.status, total, ready);
    ReportedReady(p.wp, p.status, total, ready);
  }

  /** The ready MySQL pods when the pass began. */
  function PodsReady(s: Store, key: Key): int {
    var k := Key(StatefulSetKind, key.ns, key.name + "-mysql");
    if k in s.objects && s.objects[k].body.StatefulSetBody? then s.objects[k].body.readyPods else 0
  }

  lemma PodsAreLookedUp(s: Store, wp: WordPress, render: Render)
    ensures Noted(Visited(s, wp, render, 2), wp, wp.status, DbStatefulSet) ==
            wp.status.(conditions := SetCondition(wp.status.conditions,
                                                  DatabaseCondition(PodsReady(s, wp.key))))
  {
    hide Visit, SetCondition, DatabaseCondition;
    ChildUntouched(s, wp, render, DbStatefulSet, 0, 2);
  }

  lemma IngressIsLookedUp(s: Store, wp: WordPress, render: Render)
    ensures ChildKey(SiteIngress, wp.key) in Visited(s, wp, render, 6).objects <==>
            Key(IngressKind, wp.key.ns, wp.key.name) in s.objects
  {
    hide Visit;
    ChildUntouched(s, wp, render, SiteIngress, 0, 6);
  }

  /** The conditions before the Deployment was looked at. */
  lemma NotedConditions(s: Store, wp: WordPress, render: Render, t: ConditionType)
    ensures
      var st := if wp.spec.database.mode.External? then
                  wp.status.(conditions := SetCondition(wp.status.conditions, EXTERNAL_OK))
                else Noted(Visited(s, wp, render, 2), wp, wp.status, DbStatefulSet);
      var st' := Noted(Visited(s, wp, render, 6), wp, st.(databaseHost := ResolvedHost(wp)), SiteIngress);
      && (t == DatabaseReady ==>
            Find(st'.conditions, t) ==
            Some(if wp.spec.database.mode == External then Condition(DatabaseReady, true, ExternalDatabase, Plain)
                 else if PodsReady(s, wp.key) >= 1 then Condition(DatabaseReady, true, MySQLReady, Plain)
                 else Condition(DatabaseReady, false, MySQLNotReady, Plain)))
      && (t == IngressConfigured && wp.spec.ingress.enabled ==>
            Find(st'.conditions, t) ==
            Some(Condition(IngressConfigured, true,
                           if Key(IngressKind, wp.key.ns, wp.key.name) in s.objects then Reconciled else Created,
                           Plain)))
      && (t != DatabaseReady && t != IngressConfigured ==> Find(st'.conditions, t) == Find(wp.status.conditions, t))
  {
    hide Visited, SetCondition, RemoveCondition, ResolvedHost, PodsReady;
    PodsAreLookedUp(s, wp, render);
    IngressIsLookedUp(s, wp, render);
    var c := if wp.spec.database.mode.External? then EXTERNAL_OK else DatabaseCondition(PodsReady(s, wp.key));
    FindAfterSet(wp.status.conditions, c, t);
    var cs := SetCondition(wp.status.conditions, c);
    FindAfterSet(cs, INGRESS_CREATED, t);
    FindAfterSet(cs, INGRESS_RECONCILED, t);
    FindAfterRemove(cs, IngressConfigured, t);
  }

  lemma QuietConditions(s: Store, wp: WordPress, render: Render, t: ConditionType)
    requires
      var k, o := ChildKey(Deployment, wp.key), Visited(s, wp, render, 8).objects;
      k in o && o[k].body.DeploymentBody?
    ensures
      var site := Visited(s, wp, render, 8).objects[ChildKey(Deployment, wp.key)].body;
      var st, serves := QuietStatus(s, wp, render), wp.spec.database.mode == External || PodsReady(s, wp.key) >= 1;
      var total, ready := site.replicas, site.readyReplicas;
      && st.phase == (if serves && 0 < ready == total then Ready else Provisioning)
      && Find(st.conditions, ReadyCondition) ==
         Some(if st.phase == Ready then Condition(ReadyCondition, true, AllReady, Plain)
              else Condition(ReadyCondition, false, Progressing, Plain))
      && Find(st.conditions, DeploymentReady) ==
         Some(if 0 < ready == total then Condition(DeploymentReady, true, AllReplicasReady, Plain)
              else Condition(DeploymentReady, false, Progressing, ReplicaCount(ready, total)))
      && Find(st.conditions, DatabaseReady) ==
         Some(if wp.spec.database.mode == External then Condition(DatabaseReady, true, ExternalDatabase, Plain)
              else if serves then Condition(DatabaseReady, true, MySQLReady, Plain)
              else Condition(DatabaseReady, false, MySQLNotReady, Plain))
      && (wp.spec.ingress.enabled ==>
            Find(st.conditions, IngressConfigured) ==
            Some(Condition(IngressConfigured, true,
                           if Key(IngressKind, wp.key.ns, wp.key.name) in s.objects then Reconciled else Created,
                           Plain)))
      && (t !in {ReadyCondition, DeploymentReady, DatabaseReady, IngressConfigured} ==>
            Find(st.conditions, t) == Find(wp.status.conditions, t))
  {
    hide ReportedStatus, Visited, Noted, SetCondition, PodsReady, ResolvedHost, ChildKey;
    NotedConditions(s, wp, render, DatabaseReady);
    NotedConditions(s, wp, render, IngressConfigured);
    NotedConditions(s, wp, render, t);
    var st := if wp.spec.database.mode.External? then
                wp.status.(conditions := SetCondition(wp.status.conditions, EXTERNAL_OK))
              else Noted(Visited(s, wp, render, 2), wp, wp.status, DbStatefulSet);
    var before := Noted(Visited(s, wp, render, 6), wp, st.(databaseHost := ResolvedHost(wp)), SiteIngress);
    var site := Visited(s, wp, render, 8).objects[ChildKey(Deployment, wp.key)].body;
    ReportedConditions(wp, before, site.replicas, site.readyReplicas);
    ReportIsStable(wp, before, site.replicas, site.readyReplicas);
  }

  /** Every condition a working pass saves, with its reason, read off the store: the database is external or has a ready
      pod, the Deployment's replicas are all ready or so many of so many are, the Ingress was there or was created; the
      phase and the Ready condition follow from these; a condition of another type is as it was; and the pass asks to be
      run again in 15 seconds unless the phase is Ready. */
  lemma ConditionsAreTruthful(s: Store, key: Key, q: Quantities, d: Draw, t: ConditionType)
    requires Reconcilable(s, key, Builder(q, d))
    ensures
      var spec, site := s.objects[key].body.spec, Key(DeploymentKind, key.ns, key.name);
      var (s', p') := QuietPass(s, key, Builder(q, d));
      var st := StatusIn(s', key);
      && st.Some? && site in s'.objects && s'.objects[site].body.DeploymentBody?
      && p' == Finished(key, Builder(q, d), Result(None, if st.value.phase == Ready then 0 else 15))
      && var cs, total, ready :=
           st.value.conditions, s'.objects[site].body.replicas, s'.objects[site].body.readyReplicas;
         var serves := spec.database.mode == External || PodsReady(s, key) >= 1;
         && st.value.phase == (if serves && 0 < ready == total then Ready else Provisioning)
         && Find(cs, ReadyCondition) ==
            Some(if st.value.phase == Ready then Condition(ReadyCondition, true, AllReady, Plain)
                 else Condition(ReadyCondition, false, Progressing, Plain))
         && Find(cs, DeploymentReady) ==
            Some(if 0 < ready == total then Condition(DeploymentReady, true, AllReplicasReady, Plain)
                 else Condition(DeploymentReady, false, Progressing, ReplicaCount(ready, total)))
         && Find(cs, DatabaseReady) ==
            Some(if spec.database.mode == External then Condition(DatabaseReady, true, ExternalDatabase, Plain)
                 else if serves then Condition(DatabaseReady, true, MySQLReady, Plain)
                 else Condition(DatabaseReady, false, MySQLNotReady, Plain))
         && (spec.ingress.enabled ==>
               Find(cs, IngressConfigured) ==
               Some(Condition(IngressConfigured, true,
                              if Key(IngressKind, key.ns, key.name) in s.objects then Reconciled else Created, Plain)))
         && (t !in {ReadyCondition, DeploymentReady, DatabaseReady, IngressConfigured} ==>
               Find(cs, t) == Find(s.objects[key].body.status.conditions, t))
  {
    hide QuietPass, Defaults.Defaulted, Defaults.Validate, Reconcilable, WellFormed, Builder, Visited,
      QuietStatus, PodsReady;
    ReconcilableFacts(s, key, Builder(q, d));
    var wp, spec := InMemory(s, key), s.objects[key].body.spec;
    SavedStatus(s, key, Builder(q, d));
    DeploymentSettles(s, key, q, d);
    QuietPassIs(s, key, Builder(q, d));
    DefaultingOnlyFills(spec);
    QuietConditions(s, wp, Builder(q, d), t);
  }

  // ---------------------------------------------------------------- passes that cannot do their work

  /** The resource is stored, alive and holds the finalizer. */
  ghost predicate Live(s: Store, key: Key) {
    && WellFormed(s) && key.kind.WordPressKind?
    && key in s.objects && s.objects[key].body.WordPressBody?
    && !s.objects[key].meta.deleting && "wordpresses.apps.kubesphere.ai/finalizer" in s.objects[key].meta.finalizers
  }

  /** In all of the store nothing but the status of the resource may differ. */
  ghost predicate OnlyStatusChanged(s: Store, s': Store, key: Key, st: WordPressStatus) {
    && key in s.objects && s.objects[key].body.WordPressBody?
    && s'.objects == s.objects[key := Object(s.objects[key].meta.(version := Tick(s, key) + 1),
                                             s.objects[key].body.(status := st))]
  }

  lemma PatchChangesStatus(s: Store, key: Key, st: WordPressStatus)
    requires key in s.objects && s.objects[key].body.WordPressBody?
    ensures OnlyStatusChanged(s, Put(s, key, StatusPatch(s.objects[key], st)), key, st)
  {
  }

  /** A rejected spec: the status says Failed, Ready is False with the complaint, every other condition and field is as
      it was, no child is touched, and nothing brings the pass back. */
  lemma RejectedIsReported(s: Store, key: Key, render: Render, why: SpecError, t: ConditionType)
    requires Live(s, key) && Defaults.Validate(Defaults.Defaulted(s.objects[key].body.spec)) == Some(why)
    ensures
      var (s', p') := QuietPass(s, key, render);
      var st, was := StatusIn(s', key), s.objects[key].body.status;
      && p' == Finished(key, render, Result(None, 0))
      && st.Some? && OnlyStatusChanged(s, s', key, st.value)
      && st.value.phase == Failed && st.value == was.(phase := Failed, conditions := st.value.conditions)
      && Find(st.value.conditions, t) ==
         if t == ReadyCondition then Some(Condition(ReadyCondition, false, InvalidSpec, Rejected(why)))
         else Find(was.conditions, t)
  {
    hide RunQuiet, Defaults.Defaulted, Defaults.Validate, StatusPatch, SetCondition, Begin, OnlyStatusChanged;
    var wp := InMemory(s, key);
    var p := Working(key, render, wp, FailedStatus(wp.status, why), FetchingLatest(0, ThenGiveUp));
    StepOnce(s, Fetching(key, render));
    QuietWrite(s, p);
    PatchChangesStatus(s, key, p.status);
    FindAfterSet(wp.status.conditions, Condition(ReadyCondition, false, InvalidSpec, Rejected(why)), t);
    StatusAfter(s, QuietPass(s, key, render).0, key, p.status);
  }

  lemma StatusAfter(s: Store, s': Store, key: Key, st: WordPressStatus)
    requires OnlyStatusChanged(s, s', key, st)
    ensures StatusIn(s', key) == Some(st)
  {
  }

  /** A missing external Secret: DatabaseReady is False and names it, every other condition and field is as it was --
      the phase and the Ready condition too -- no child is touched, and the pass comes back in 30 seconds. */
  lemma MissingSecretIsReported(s: Store, key: Key, render: Render, t: ConditionType)
    requires Live(s, key) && Defaults.Validate(Defaults.Defaulted(s.objects[key].body.spec)).None?
    requires
      var db := s.objects[key].body.spec.database;
      && db.mode == External && db.external.Some?
      && Key(SecretKind, key.ns, db.external.value.passwordSecret.name) !in s.objects
    ensures
      var (s', p') := QuietPass(s, key, render);
      var st, was := StatusIn(s', key), s.objects[key].body.status;
      var name := s.objects[key].body.spec.database.external.value.passwordSecret.name;
      && p' == Finished(key, render, Result(None, 30))
      && st.Some? && OnlyStatusChanged(s, s', key, st.value)
      && st.value == was.(conditions := st.value.conditions)
      && Find(st.value.conditions, t) ==
         if t == DatabaseReady then Some(Condition(DatabaseReady, false, ExternalSecretMissing, SecretName(name)))
         else Find(was.conditions, t)
  {
    hide RunQuiet, Defaults.Defaulted, Defaults.Validate, StatusPatch, SetCondition, Approach, OnlyStatusChanged;
    var wp, spec := InMemory(s, key), s.objects[key].body.spec;
    DefaultingOnlyFills(spec);
    var p := Working(key, render, wp, wp.status, CheckingSecret);
    StepOnce(s, Fetching(key, render));
    StepOnce(s, p);
    var c := Condition(DatabaseReady, false, ExternalSecretMissing,
                       SecretName(spec.database.external.value.passwordSecret.name));
    var w := p.(status := wp.status.(conditions := SetCondition(wp.status.conditions, c)),
                at := FetchingLatest(0, ThenWait));
    QuietWrite(s, w);
    PatchChangesStatus(s, key, w.status);
    FindAfterSet(wp.status.conditions, c, t);
    StatusAfter(s, QuietPass(s, key, render).0, key, w.status);
  }

  /** A resource seen for the first time gets the finalizer, after those it has, and nothing else happens to it or to
      anything; a resource that is gone, or is leaving without the finalizer, is left alone. */
  lemma AdmissionIsExact(s: Store, key: Key, render: Render)
    requires WellFormed(s) && key.kind.WordPressKind?
    ensures
      var (s', p') := QuietPass(s, key, render);
      var name := "wordpresses.apps.kubesphere.ai/finalizer";
      && (key !in s.objects ==> s' == s && p' == Finished(key, render, Result(None, 0)))
      && (key in s.objects && name !in s.objects[key].meta.finalizers ==>
            && p' == Finished(key, render, Result(None, 0))
            && (s.objects[key].meta.deleting ==> s' == s)
            && (!s.objects[key].meta.deleting ==>
                  var o := s.objects[key];
                  s'.objects == s.objects[key := Object(o.meta.(finalizers := o.meta.finalizers + [name],
                                                                version := Tick(s, key) + 1), o.body)]))
  {
    hide RunQuiet, Defaults.Defaulted, Defaults.Validate, Begin, FailedStatus;
    StepOnce(s, Fetching(key, render));
    if key !in s.objects {
      RunFinished(s, Finished(key, render, QUIET));
    } else if FINALIZER !in s.objects[key].meta.finalizers {
      var o := s.objects[key];
      if o.meta.deleting {
        RunFinished(s, Finished(key, render, QUIET));
      } else {
        var wp := WordPress(key, o.meta, o.body.generation, o.body.spec, o.body.status);
        var p := Working(key, render, wp, wp.status, AddingFinalizer);
        StepOnce(s, p);
        RunFinished(Exec(s, Call(p)).0, Finished(key, render, QUIET));
      }
    }
  }
}
