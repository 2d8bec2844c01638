/** One undisturbed pass converges, whatever the store held before; later passes change nothing any more. */
module Convergence {
  import opened Types
  import opened Names
  import opened Conditions
  import opened Defaults
  import opened Drift
  import opened Server
  import opened Machine
  import opened System
  import opened Quiet

  /** Child `c` is as the spec wants it. Wanted: stored, with every managed field as built. Not wanted: absent, or
      somebody else's, or being deleted and only waiting for its own finalizers. */
  ghost predicate SettledAt(s: Store, wp: WordPress, render: Render, c: Child) {
    var k := ChildKey(c, wp.key);
    if Wanted(wp.spec, c) then
      k in s.objects && (render(wp, c).Some? ==> Agrees(s.objects[k], render(wp, c).value))
    else
      c.SiteIngress? || c.Autoscaler? ==>
        k !in s.objects || s.objects[k].meta.controller != Some(wp.meta.uid) || s.objects[k].meta.deleting
  }

  ghost predicate AllSettled(s: Store, wp: WordPress, render: Render) {
    forall c :: SettledAt(s, wp, render, c)
  }

  lemma VisitSettles(s: Store, wp: WordPress, render: Render, c: Child)
    requires Visitable(s, wp, render, c)
    ensures SettledAt(Visit(s, wp, render, c), wp, render, c)
  {
    hide Merge, NeedsUpdate, Agrees, ChildKey;
    var k := ChildKey(c, wp.key);
    if Wanted(wp.spec, c) {
      var desired := render(wp, c).value;
      assert KindOf(desired.body) == ChildKey(c, wp.key).kind;
      AgreesApartFromIdentity(desired, desired);
      if k in s.objects {
        MergeMeetsDesired(s.objects[k], desired);
        AgreesApartFromIdentity(Merge(s.objects[k], desired), desired);
      }
    }
  }

  lemma AgreesApartFromIdentity(o: Object, desired: Object)
    ensures Agrees(desired, desired)
    ensures forall uid, version ::
              Agrees(o.(meta := o.meta.(uid := uid, version := version)), desired) == Agrees(o, desired)
    ensures forall version :: Agrees(o.(meta := o.meta.(version := version)), desired) == Agrees(o, desired)
  {
  }

  lemma SettledSame(s: Store, s': Store, wp: WordPress, render: Render, c: Child)
    requires SettledAt(s, wp, render, c)
    requires
      var k := ChildKey(c, wp.key);
      (k in s'.objects <==> k in s.objects) && (k in s.objects ==> s'.objects[k] == s.objects[k])
    ensures SettledAt(s', wp, render, c)
  {
  }

  lemma KeysDiffer(c: Child, d: Child, cr: Key)
    requires c != d
    ensures ChildKey(c, cr) != ChildKey(d, cr)
  {
  }

  lemma {:induction false} VisitedSettles(s: Store, wp: WordPress, render: Render, n: nat, i: nat)
    requires i < n <= 8 && AllVisitable(s, wp, render)
    ensures SettledAt(Visited(s, wp, render, n), wp, render, Nth(i))
  {
    hide ChildKey, Visit, SettledAt, AllVisitable, Visitable, Visited;
    var t, t' := Visited(s, wp, render, n - 1), Visited(s, wp, render, n);
    VisitedStep(s, wp, render, n - 1);
    AllVisitableFacts(s, wp, render, n - 1);
    if i == n - 1 {
      if Wanted(wp.spec, Nth(i)) || i >= 6 {
        VisitSettles(t, wp, render, Nth(i));
      } else {
        SkippedIsSettled(t', wp, render, Nth(i));
      }
    } else {
      VisitedSettles(s, wp, render, n - 1, i);
      KeysDiffer(Nth(i), Nth(n - 1), wp.key);
      VisitFrame(t, wp, render, Nth(n - 1), ChildKey(Nth(i), wp.key));
      SettledSame(t, t', wp, render, Nth(i));
    }
  }

  lemma SkippedIsSettled(s: Store, wp: WordPress, render: Render, c: Child)
    requires !Wanted(wp.spec, c) && !c.SiteIngress? && !c.Autoscaler?
    ensures SettledAt(s, wp, render, c)
  {
  }

  lemma {:induction false} OthersUntouched(s: Store, wp: WordPress, render: Render, n: nat, k: Key)
    requires n <= 8 && forall c :: k != ChildKey(c, wp.key)
    ensures k in Visited(s, wp, render, n).objects <==> k in s.objects
    ensures k in s.objects ==> Visited(s, wp, render, n).objects[k] == s.objects[k]
  {
    hide Visit, ChildKey;
    if n > 0 {
      OthersUntouched(s, wp, render, n - 1, k);
      VisitFrame(Visited(s, wp, render, n - 1), wp, render, Nth(n - 1), k);
    }
  }

  /** From any store whatsoever -- any subset of the children present, with any contents, owned by anyone -- one
      undisturbed pass ends without an error and leaves every child settled, the resource's spec as it was, and every
      object that is not the resource's untouched. */
  lemma OnePassConverges(s: Store, key: Key, render: Render, other: Key)
    requires Reconcilable(s, key, render)
    ensures
      var (s', p') := QuietPass(s, key, render);
      && p'.Finished? && p'.result.error.None?
      && AllSettled(s', InMemory(s, key), render)
      && key in s'.objects && s'.objects[key].body.WordPressBody?
      && s'.objects[key].body.spec == s.objects[key].body.spec
      && s'.objects[key].body.status == QuietStatus(s, InMemory(s, key), render)
      && (other != key && (forall c :: other != ChildKey(c, key)) ==>
            (other in s'.objects <==> other in s.objects) &&
            (other in s.objects ==> s'.objects[other] == s.objects[other]))
  {
    hide QuietPass, Visited, SettledAt, Defaulted, Validate, QuietStatus, ExternalSecretKey, Sound, WellFormed,
      ChildKey;
    var wp := InMemory(s, key);
    QuietPassIs(s, key, render);
    var t := Visited(s, wp, render, 8);
    var s' := QuietPass(s, key, render).0;
    forall c ensures SettledAt(s', wp, render, c) {
      var i := Order(c);
      VisitedSettles(s, wp, render, 8, i);
      NoChildIsResource(c, key);
      SettledSame(t, s', wp, render, c);
    }
    if forall c :: other != ChildKey(c, key) { OthersUntouched(s, wp, render, 8, other); }
    ResourceUntouched(s, wp, render, 8);
  }

  lemma NoChildIsResource(c: Child, key: Key)
    ensures key.kind.WordPressKind? ==> ChildKey(c, key) != key
  {
  }

  // ---------------------------------------------------------------- later passes

  lemma SettledIsLeftAlone(s: Store, wp: WordPress, render: Render, c: Child)
    requires WellFormed(s) && Sound(render) && SettledAt(s, wp, render, c)
    ensures Visit(s, wp, render, c) == s
  {
    hide Merge, NeedsUpdate, Agrees, ChildKey;
    var k := ChildKey(c, wp.key);
    if Wanted(wp.spec, c) && render(wp, c).Some? {
      var desired := render(wp, c).value;
      assert KindOf(desired.body) == ChildKey(c, wp.key).kind;
      MergeMeetsDesired(s.objects[k], desired);
    }
  }

  lemma {:induction false} SettledStoreIsLeftAlone(s: Store, wp: WordPress, render: Render, n: nat)
    requires n <= 8 && WellFormed(s) && Sound(render) && AllSettled(s, wp, render)
    ensures Visited(s, wp, render, n) == s
  {
    hide Visit, WellFormed, Sound, SettledAt;
    if n > 0 {
      SettledStoreIsLeftAlone(s, wp, render, n - 1);
      SettledIsLeftAlone(s, wp, render, Nth(n - 1));
    }
  }

  /** Two passes build alike if their builders look only at the key, the identity and the spec of the resource --
      except that each draws its own passwords. */
  ghost predicate BuildAlike(render: Render, render': Render) {
    forall wp: WordPress, wp': WordPress, c: Child
      | wp.key == wp'.key && wp.meta.uid == wp'.meta.uid && wp.spec == wp'.spec ::
      && (render(wp, c).Some? <==> render'(wp', c).Some?)
      && (c != DbSecret ==> render(wp, c) == render'(wp', c))
  }

  lemma SettledAlike(s: Store, wp: WordPress, wp': WordPress, render: Render, render': Render)
    requires AllSettled(s, wp, render) && BuildAlike(render, render') && Sound(render) && Sound(render')
    requires wp.key == wp'.key && wp.meta.uid == wp'.meta.uid && wp.spec == wp'.spec
    ensures AllSettled(s, wp', render')
  {
    hide ChildKey;
    forall c ensures SettledAt(s, wp', render', c) {
      assert SettledAt(s, wp, render, c);
      if render(wp, c).Some? && c == DbSecret {
        assert KindOf(render(wp, c).value.body) == ChildKey(c, wp.key).kind;
        assert KindOf(render'(wp', c).value.body) == ChildKey(c, wp'.key).kind;
        SecretKey(wp.key);
      }
    }
  }

  lemma SecretKey(key: Key)
    ensures ChildKey(DbSecret, key).kind.SecretKind?
  {
  }

  /** The status reported over a settled store, from the status `st` the pass read. */
  function SteadyStatus(s: Store, wp: WordPress, st: WordPressStatus): WordPressStatus {
    var a := if wp.spec.database.mode.External? then st.(conditions := SetCondition(st.conditions, EXTERNAL_OK))
             else Noted(s, wp, st, DbStatefulSet);
    var b := Noted(s, wp, a.(databaseHost := ResolvedHost(wp)), SiteIngress);
    var k := ChildKey(Deployment, wp.key);
    if k in s.objects && s.objects[k].body.DeploymentBody? then
      ReportedStatus(wp, b, s.objects[k].body.replicas, s.objects[k].body.readyReplicas)
    else ReportedStatus(wp, b, 0, 0)
  }

  /** A pass over a settled store writes its status and nothing else. */
  lemma SettledPass(s: Store, key: Key, render: Render)
    requires Reconcilable(s, key, render) && AllSettled(s, InMemory(s, key), render)
    ensures
      var wp := InMemory(s, key);
      QuietPass(s, key, render).0 == Put(s, key, StatusPatch(s.objects[key], SteadyStatus(s, wp, wp.status)))
  {
    hide QuietPass, Visited, SettledAt, Defaulted, Validate, ReportedStatus, Noted, Sound, ExternalSecretKey,
      WellFormed, ResolvedHost, ChildKey;
    var wp := InMemory(s, key);
    QuietPassIs(s, key, render);
    SettledStoreIsLeftAlone(s, wp, render, 2);
    SettledStoreIsLeftAlone(s, wp, render, 6);
    SettledStoreIsLeftAlone(s, wp, render, 8);
  }

  // ---------------------------------------------------------------- the status settles too

  /** The status list has exactly what a steady report would put there. */
  ghost predicate Reports(s: Store, wp: WordPress, st: WordPressStatus) {
    var k := ChildKey(DbStatefulSet, wp.key);
    var db := if wp.spec.database.mode.External? then EXTERNAL_OK
              else DatabaseCondition(
                     if k in s.objects && s.objects[k].body.StatefulSetBody? then s.objects[k].body.readyPods else 0);
    var ingress := ChildKey(SiteIngress, wp.key) in s.objects;
    && Find(st.conditions, DatabaseReady) == Some(db)
    && (Wanted(wp.spec, SiteIngress) && ingress ==>
          Find(st.conditions, IngressConfigured) == Some(INGRESS_RECONCILED))
    && (!Wanted(wp.spec, SiteIngress) && !ingress ==> Find(st.conditions, IngressConfigured).None?)
  }

  lemma NotedReports(s: Store, wp: WordPress, st: WordPressStatus)
    requires Wanted(wp.spec, SiteIngress) ==> ChildKey(SiteIngress, wp.key) in s.objects
    ensures
      var a := if wp.spec.database.mode.External? then st.(conditions := SetCondition(st.conditions, EXTERNAL_OK))
               else Noted(s, wp, st, DbStatefulSet);
      Reports(s, wp, Noted(s, wp, a.(databaseHost := ResolvedHost(wp)), SiteIngress))
  {
    hide ChildKey, ResolvedHost;
    var a := if wp.spec.database.mode.External? then st.(conditions := SetCondition(st.conditions, EXTERNAL_OK))
             else Noted(s, wp, st, DbStatefulSet);
    FindAfterSet(st.conditions, EXTERNAL_OK, DatabaseReady);
    forall n { FindAfterSet(st.conditions, DatabaseCondition(n), DatabaseReady); }
    forall t { FindAfterSet(a.conditions, INGRESS_RECONCILED, t); }
    forall t { FindAfterRemove(a.conditions, IngressConfigured, t); }
  }

  /** Reporting again what is already reported changes nothing. */
  lemma ReportIsStable(wp: WordPress, st: WordPressStatus, total: int, ready: int)
    ensures
      var st' := ReportedStatus(wp, st, total, ready);
      && ReportedStatus(wp, st', total, ready) == st'
      && (forall t :: t != DeploymentReady && t != ReadyCondition ==>
            Find(st'.conditions, t) == Find(st.conditions, t))
  {
    hide ComputeUrl;
    var depReady := ready > 0 && ready == total;
    var d := if depReady then Condition(DeploymentReady, true, AllReplicasReady, Plain)
             else Condition(DeploymentReady, false, Progressing, ReplicaCount(ready, total));
    var cs := SetCondition(st.conditions, d);
    var allReady := Holds(cs, DatabaseReady) && depReady;
    var r := if allReady then Condition(ReadyCondition, true, AllReady, Plain)
             else Condition(ReadyCondition, false, Progressing, Plain);
    var cs' := SetCondition(cs, r);
    forall t { FindAfterSet(st.conditions, d, t); }
    forall t { FindAfterSet(cs, r, t); }
    SetSame(cs', d);
    SetSame(cs', r);
  }

  /** What is already noted is noted again without a change. */
  lemma NotedIsStable(s: Store, wp: WordPress, st: WordPressStatus)
    requires Reports(s, wp, st)
    requires Wanted(wp.spec, SiteIngress) ==> ChildKey(SiteIngress, wp.key) in s.objects
    ensures
      && (wp.spec.database.mode.External? ==> SetCondition(st.conditions, EXTERNAL_OK) == st.conditions)
      && (!wp.spec.database.mode.External? ==> Noted(s, wp, st, DbStatefulSet) == st)
      && Noted(s, wp, st, SiteIngress) == st
  {
    hide ChildKey;
    SetSame(st.conditions, Find(st.conditions, DatabaseReady).value);
    if Wanted(wp.spec, SiteIngress) {
      SetSame(st.conditions, INGRESS_RECONCILED);
    } else if ChildKey(SiteIngress, wp.key) !in s.objects {
      RemoveAbsent(st.conditions, IngressConfigured);
    }
  }

  lemma SteadyIsStable(s: Store, wp: WordPress, wp': WordPress, st: WordPressStatus)
    requires Wanted(wp.spec, SiteIngress) ==> ChildKey(SiteIngress, wp.key) in s.objects
    requires wp'.key == wp.key && wp'.spec == wp.spec && wp'.generation == wp.generation
    ensures SteadyStatus(s, wp', SteadyStatus(s, wp, st)) == SteadyStatus(s, wp, st)
  {
    hide ChildKey, ResolvedHost, ReportedStatus, Noted, Reports, SetCondition;
    var a := if wp.spec.database.mode.External? then st.(conditions := SetCondition(st.conditions, EXTERNAL_OK))
             else Noted(s, wp, st, DbStatefulSet);
    var b := Noted(s, wp, a.(databaseHost := ResolvedHost(wp)), SiteIngress);
    NotedReports(s, wp, st);
    var k := ChildKey(Deployment, wp.key);
    var found := k in s.objects && s.objects[k].body.DeploymentBody?;
    var total := if found then s.objects[k].body.replicas else 0;
    var ready := if found then s.objects[k].body.readyReplicas else 0;
    ReportIsStable(wp, b, total, ready);
    var st' := ReportedStatus(wp, b, total, ready);
    ReportsIgnoresTheRest(s, wp, b, st');
    NotedIsStable(s, wp, st');
    SteadyLooksAtSpec(s, wp, wp', st');
    KeepsHost(s, wp, a.(databaseHost := ResolvedHost(wp)), total, ready);
    assert st'.(databaseHost := ResolvedHost(wp)) == st';
    assert st'.(conditions := st'.conditions) == st';
  }

  lemma KeepsHost(s: Store, wp: WordPress, st: WordPressStatus, total: int, ready: int)
    ensures Noted(s, wp, st, SiteIngress).databaseHost == st.databaseHost
    ensures ReportedStatus(wp, st, total, ready).databaseHost == st.databaseHost
    ensures ReportedStatus(wp, Noted(s, wp, st, SiteIngress), total, ready).databaseHost == st.databaseHost
  {
  }

  lemma ReportsIgnoresTheRest(s: Store, wp: WordPress, st: WordPressStatus, st': WordPressStatus)
    requires Reports(s, wp, st)
    requires Find(st'.conditions, DatabaseReady) == Find(st.conditions, DatabaseReady)
    requires Find(st'.conditions, IngressConfigured) == Find(st.conditions, IngressConfigured)
    ensures Reports(s, wp, st')
  {
  }

  lemma SteadyLooksAtSpec(s: Store, wp: WordPress, wp': WordPress, st: WordPressStatus)
    requires wp'.key == wp.key && wp'.spec == wp.spec && wp'.generation == wp.generation
    ensures SteadyStatus(s, wp', st) == SteadyStatus(s, wp, st)
  {
    hide ChildKey, SetCondition, RemoveCondition;
  }

  // ---------------------------------------------------------------- three passes

  lemma {:induction false} SecretsSurvive(s: Store, wp: WordPress, render: Render, n: nat, k: Key)
    requires n <= 8 && k.kind.SecretKind? && k in s.objects
    ensures k in Visited(s, wp, render, n).objects
  {
    hide Merge, NeedsUpdate;
    if n > 0 { SecretsSurvive(s, wp, render, n - 1, k); }
  }

  /** The store after a pass: the children `t`, and the resource with a new status. */
  ghost predicate Reported(s: Store, t: Store, s': Store, key: Key) {
    && key in s.objects && key in t.objects && t.objects[key] == s.objects[key]
    && exists st :: s' == Put(t, key, StatusPatch(s.objects[key], st))
  }

  lemma ReportKeepsResource(s: Store, t: Store, s': Store, key: Key)
    requires Reported(s, t, s', key) && s.objects[key].body.WordPressBody?
    ensures key in s'.objects && s'.objects[key].body.WordPressBody?
    ensures
      var wp, wp' := InMemory(s, key), InMemory(s', key);
      && wp'.key == wp.key && wp'.spec == wp.spec && wp'.generation == wp.generation && wp'.meta.uid == wp.meta.uid
      && wp'.meta.deleting == wp.meta.deleting && wp'.meta.finalizers == wp.meta.finalizers
  {
  }

  lemma ReportKeepsSteady(t: Store, wp: WordPress, o: Object, st: WordPressStatus)
    requires wp.key.kind.WordPressKind?
    ensures SteadyStatus(Put(t, wp.key, o), wp, st) == SteadyStatus(t, wp, st)
  {
    hide SetCondition, RemoveCondition, ReportedStatus, ResolvedHost;
  }

  /** After a pass the resource can be reconciled again. */
  lemma StillReconcilable(s: Store, t: Store, s': Store, key: Key, render: Render, render': Render)
    requires Reconcilable(s, key, render) && Sound(render') && BuildAlike(render, render')
    requires Reported(s, t, s', key) && WellFormed(t)
    requires ExternalSecretKey(InMemory(s, key)) in s.objects ==> ExternalSecretKey(InMemory(s, key)) in t.objects
    ensures Reconcilable(s', key, render')
  {
    hide Defaulted, Validate, Sound;
    ReportKeepsResource(s, t, s', key);
    var wp, wp' := InMemory(s, key), InMemory(s', key);
    var st :| s' == Put(t, key, StatusPatch(s.objects[key], st));
    assert ServerStep(t, s') by { hide InMemory; PutIsServerStep(t, key, StatusPatch(s.objects[key], st)); }
    forall c | Wanted(wp'.spec, c) ensures render'(wp', c).Some? { assert render(wp, c).Some?; }
  }

  /** A pass over any reconcilable store leaves a store that is settled for the next pass, and reconcilable. */
  lemma PassThenSettled(s: Store, key: Key, render: Render, render': Render)
    requires Reconcilable(s, key, render) && Sound(render') && BuildAlike(render, render')
    ensures
      var s' := QuietPass(s, key, render).0;
      && Reconcilable(s', key, render')
      && AllSettled(s', InMemory(s', key), render')
      && Reported(s, Visited(s, InMemory(s, key), render, 8), s', key)
  {
    hide QuietPass, Visited, SettledAt, Defaulted, Validate, QuietStatus, ExternalSecretKey, Sound, WellFormed,
      ChildKey, StatusPatch, BuildAlike;
    var wp := InMemory(s, key);
    var t := Visited(s, wp, render, 8);
    var s' := QuietPass(s, key, render).0;
    QuietPassIs(s, key, render);
    ResourceUntouched(s, wp, render, 8);
    VisitedKeepsWellFormed(s, wp, render, 8);
    OnePassConverges(s, key, render, key);
    ReportKeepsResource(s, t, s', key);
    if ExternalSecretKey(wp) in s.objects {
      Closure.SecretKinds(wp);
      SecretsSurvive(s, wp, render, 8, ExternalSecretKey(wp));
    }
    StillReconcilable(s, t, s', key, render, render');
    SettledAlike(s', wp, InMemory(s', key), render, render');
  }

  /** The whole story: after one undisturbed pass from any store, the second and third pass write nothing but the
      resource's status, and the third writes the status that is already there. */
  lemma SecondPassIsTheLast(s: Store, key: Key, r1: Render, r2: Render, r3: Render, k: Key)
    requires Reconcilable(s, key, r1)
    requires Sound(r2) && Sound(r3) && BuildAlike(r1, r2) && BuildAlike(r2, r3)
    ensures
      var s1 := QuietPass(s, key, r1).0;
      var s2 := QuietPass(s1, key, r2).0;
      var s3 := QuietPass(s2, key, r3).0;
      && (k != key ==> (k in s1.objects <==> k in s2.objects) && (k in s2.objects <==> k in s3.objects))
      && (k != key && k in s1.objects ==> s1.objects[k] == s2.objects[k] == s3.objects[k])
      && key in s2.objects && s2.objects[key].body.WordPressBody?
      && key in s3.objects && s3.objects[key].body.WordPressBody?
      && s3.objects[key].body.status == s2.objects[key].body.status
  {
    hide QuietPass, Visited, SettledAt, Defaulted, Validate, QuietStatus, Sound, WellFormed, BuildAlike, AllSettled,
      SteadyStatus, Reconcilable;
    var s1 := QuietPass(s, key, r1).0;
    PassThenSettled(s, key, r1, r2);
    var s2 := QuietPass(s1, key, r2).0;
    ReconcilableFacts(s1, key, r2);
    var wp1 := InMemory(s1, key);
    SettledPass(s1, key, r2);
    PassThenSettled(s1, key, r2, r3);
    ReconcilableFacts(s2, key, r3);
    var wp2 := InMemory(s2, key);
    SettledPass(s2, key, r3);
    ReportKeepsResource(s1, Visited(s1, wp1, r2, 8), s2, key);
    var st2 := SteadyStatus(s1, wp1, wp1.status);
    assert s2 == Put(s1, key, StatusPatch(s1.objects[key], st2));
    assert wp2.status == st2;
    ReportKeepsSteady(s1, wp2, StatusPatch(s1.objects[key], st2), st2);
    WantedIngressIsStored(s1, wp1, r2);
    SteadyIsStable(s1, wp1, wp2, wp1.status);
  }

  lemma ReconcilableFacts(s: Store, key: Key, render: Render)
    requires Reconcilable(s, key, render)
    ensures key in s.objects && s.objects[key].body.WordPressBody? && key.kind.WordPressKind?
  {
  }

  lemma WantedIngressIsStored(s: Store, wp: WordPress, render: Render)
    requires AllSettled(s, wp, render)
    ensures Wanted(wp.spec, SiteIngress) ==> ChildKey(SiteIngress, wp.key) in s.objects
  {
    assert SettledAt(s, wp, render, SiteIngress);
  }
}
