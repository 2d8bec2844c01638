/**
 A pass that nobody disturbs: every call is answered from the current store and takes effect.

 `QuietPass` runs the machine to its end; `QuietPassIs` says in one line what comes out.
 */
module Quiet {
  import opened Types
  import opened Names
  import opened Conditions
  import opened Defaults
  import opened Drift
  import opened Server
  import opened Machine
  import opened System
  import opened Guarantee
  import opened Closure

  function RunQuiet(s: Store, p: Pass): (Store, Pass)
    decreases Rank(p)
  {
    if p.Finished? then (s, p)
    else
      var (s', r) := Exec(s, Call(p));
      RankDecreases(p, r);
      RunQuiet(s', Next(p, r))
  }

  function QuietPass(s: Store, key: Key, render: Render): (Store, Pass) {
    RunQuiet(s, Fetching(key, render))
  }

  /** What one undisturbed visit to a child does to the store. */
  function Visit(s: Store, wp: WordPress, render: Render, c: Child): Store {
    var k := ChildKey(c, wp.key);
    if Wanted(wp.spec, c) then
      match render(wp, c)
      case None => s
      case Some(desired) =>
        if k !in s.objects then Put(s, k, desired.(meta := desired.meta.(uid := Uid(k, Tick(s, k) + 1))))
        else if !NeedsUpdate(s.objects[k], Merge(s.objects[k], desired)) then s
        else Put(s, k, Merge(s.objects[k], desired))
    else if (c.SiteIngress? || c.Autoscaler?)
            && k in s.objects && s.objects[k].meta.controller == Some(wp.meta.uid) then
      ExecDelete(s, k).0
    else s
  }

  /** ... and to the status in memory. */
  function Noted(s: Store, wp: WordPress, st: WordPressStatus, c: Child): WordPressStatus {
    var k := ChildKey(c, wp.key);
    match c
    case DbStatefulSet =>
      var readyPods := if k in s.objects && s.objects[k].body.StatefulSetBody? then s.objects[k].body.readyPods else 0;
      st.(conditions := SetCondition(st.conditions, DatabaseCondition(readyPods)))
    case SiteIngress =>
      if Wanted(wp.spec, c) then
        st.(conditions := SetCondition(st.conditions, if k in s.objects then INGRESS_RECONCILED else INGRESS_CREATED))
      else if k !in s.objects then st.(conditions := RemoveCondition(st.conditions, IngressConfigured))
      else st
    case _ => st
  }

  ghost predicate Visitable(s: Store, wp: WordPress, render: Render, c: Child) {
    && WellFormed(s) && wp.key.kind.WordPressKind? && Sound(render)
    && (if Wanted(wp.spec, c) then render(wp, c).Some? else c.SiteIngress? || c.Autoscaler?)
  }

  lemma StepOnce(s: Store, p: Pass)
    requires !p.Finished?
    ensures RunQuiet(s, p) == RunQuiet(Exec(s, Call(p)).0, Next(p, Exec(s, Call(p)).1))
  {
  }

  lemma QuietCreate(s: Store, p: Pass, c: Child)
    requires p.Working? && p.wp.key == p.key && p.at == Creating(c) && Visitable(s, p.wp, p.render, c)
    requires Wanted(p.wp.spec, c) && ChildKey(c, p.key) !in s.objects
    ensures RunQuiet(s, p) == RunQuiet(Visit(s, p.wp, p.render, c), Settle(p, c, None))
  {
    hide ChildKey, Settle, Merge, NeedsUpdate, RunQuiet, WithSpec, WellFormed;
    StepOnce(s, p);
    assert KindOf(p.render(p.wp, c).value.body) == ChildKey(c, p.wp.key).kind;
  }

  lemma QuietUpdate(s: Store, p: Pass, c: Child)
    requires p.Working? && p.wp.key == p.key && Visitable(s, p.wp, p.render, c) && Wanted(p.wp.spec, c)
    requires ChildKey(c, p.key) in s.objects && p.at == Updating(c, s.objects[ChildKey(c, p.key)])
    requires NeedsUpdate(p.at.found, Merge(p.at.found, p.render(p.wp, c).value))
    ensures RunQuiet(s, p) == RunQuiet(Visit(s, p.wp, p.render, c), Settle(p, c, Some(p.at.found)))
  {
    hide ChildKey, Settle, Merge, NeedsUpdate, RunQuiet, WithSpec, Sound;
    StepOnce(s, p);
    var desired := p.render(p.wp, c).value;
    MergeKeepsMeta(p.at.found, desired);
    UpdateOfCurrent(s, ChildKey(c, p.key), Merge(p.at.found, desired));
  }

  lemma QuietDelete(s: Store, p: Pass, c: Child, found: Object)
    requires p.Working? && p.wp.key == p.key && Visitable(s, p.wp, p.render, c) && !Wanted(p.wp.spec, c)
    requires ChildKey(c, p.key) in s.objects && s.objects[ChildKey(c, p.key)].meta.controller == Some(p.wp.meta.uid)
    requires p.at == Deleting(c, found)
    ensures RunQuiet(s, p) == RunQuiet(Visit(s, p.wp, p.render, c), Proceed(p, c))
  {
  }

  lemma ProceedIgnoresPoint(p: Pass, c: Child, at: Point)
    requires p.Working?
    ensures Proceed(p.(at := at), c) == Proceed(p, c)
  {
  }

  lemma QuietVisit(s: Store, p: Pass, c: Child)
    requires p.Working? && p.wp.key == p.key && p.at == Reading(c) && Visitable(s, p.wp, p.render, c)
    ensures RunQuiet(s, p) ==
            RunQuiet(Visit(s, p.wp, p.render, c), Proceed(p.(status := Noted(s, p.wp, p.status, c)), c))
  {
    hide ChildKey, Proceed, Merge, NeedsUpdate, RunQuiet, WellFormed, SetCondition, RemoveCondition, Sound;
    StepOnce(s, p);
    var k := ChildKey(c, p.key);
    var q := Next(p, Look(s, k));
    forall q: Pass, at | q.Working? { ProceedIgnoresPoint(q, c, at); }
    if Wanted(p.wp.spec, c) {
      if k !in s.objects {
        QuietCreate(s, q, c);
      } else if NeedsUpdate(s.objects[k], Merge(s.objects[k], p.render(p.wp, c).value)) {
        QuietUpdate(s, q, c);
      }
    } else if k in s.objects && s.objects[k].meta.controller == Some(p.wp.meta.uid) {
      QuietDelete(s, q, c, s.objects[k]);
    }
  }

  // ---------------------------------------------------------------- the whole pass

  /** The store once the first `n` children were visited. */
  function Visited(s: Store, wp: WordPress, render: Render, n: nat): Store
    requires n <= 8
  {
    if n == 0 then s else Visit(Visited(s, wp, render, n - 1), wp, render, Nth(n - 1))
  }

  /** The resource as a pass holds it in memory. */
  function InMemory(s: Store, key: Key): WordPress
    requires key in s.objects && s.objects[key].body.WordPressBody?
  {
    var o := s.objects[key];
    WordPress(key, o.meta, o.body.generation, Defaulted(o.body.spec), o.body.status)
  }

  /** The status a pass reports, given the store `s` in which it began. */
  function QuietStatus(s: Store, wp: WordPress, render: Render): WordPressStatus {
    var st := if wp.spec.database.mode.External? then
                wp.status.(conditions := SetCondition(wp.status.conditions, EXTERNAL_OK))
              else Noted(Visited(s, wp, render, 2), wp, wp.status, DbStatefulSet);
    var st' := Noted(Visited(s, wp, render, 6), wp, st.(databaseHost := ResolvedHost(wp)), SiteIngress);
    var k := ChildKey(Deployment, wp.key);
    var end := Visited(s, wp, render, 8);
    if k in end.objects && end.objects[k].body.DeploymentBody? then
      ReportedStatus(wp, st', end.objects[k].body.replicas, end.objects[k].body.readyReplicas)
    else ReportedStatus(wp, st', 0, 0)
  }

  /** The pass can do its work: the resource is stored, holds the finalizer, is not being deleted and has a valid spec;
      every builder succeeds; and an external password Secret exists. */
  ghost predicate Reconcilable(s: Store, key: Key, render: Render) {
    && WellFormed(s) && Sound(render) && key.kind.WordPressKind?
    && key in s.objects && s.objects[key].body.WordPressBody?
    && !s.objects[key].meta.deleting && HasFinalizer(s.objects[key].meta)
    && var wp := InMemory(s, key);
       && Validate(wp.spec).None?
       && (forall c :: Wanted(wp.spec, c) ==> render(wp, c).Some?)
       && (wp.spec.database.mode.External? ==> ExternalSecretKey(wp) in s.objects)
  }

  lemma VisitKeepsWellFormed(s: Store, wp: WordPress, render: Render, c: Child)
    requires Visitable(s, wp, render, c)
    ensures WellFormed(Visit(s, wp, render, c))
  {
    hide ChildKey, Merge, NeedsUpdate, WithSpec;
    var k := ChildKey(c, wp.key);
    if Wanted(wp.spec, c) {
      var desired := render(wp, c).value;
      assert KindOf(desired.body) == k.kind;
      if k in s.objects {
        MergeKeepsMeta(s.objects[k], desired);
        MergeKind(s.objects[k], desired);
        PutIsServerStep(s, k, Merge(s.objects[k], desired));
      } else {
        PutIsServerStep(s, k, desired.(meta := desired.meta.(uid := Uid(k, Tick(s, k) + 1))));
      }
    } else if k in s.objects {
      ExecIsServerStep(s, Delete(k));
    }
  }

  lemma MergeKind(found: Object, desired: Object)
    ensures KindOf(Merge(found, desired).body) == KindOf(found.body)
  {
  }

  /** A visit touches only its own child. */
  lemma VisitFrame(s: Store, wp: WordPress, render: Render, c: Child, k: Key)
    requires k != ChildKey(c, wp.key)
    ensures k in Visit(s, wp, render, c).objects <==> k in s.objects
    ensures k in s.objects ==> Visit(s, wp, render, c).objects[k] == s.objects[k]
    ensures Tick(Visit(s, wp, render, c), k) == Tick(s, k)
  {
  }

  ghost predicate AllVisitable(s: Store, wp: WordPress, render: Render) {
    && WellFormed(s) && wp.key.kind.WordPressKind? && Sound(render)
    && (forall c :: Wanted(wp.spec, c) ==> render(wp, c).Some?)
  }

  lemma {:induction false} VisitedKeepsWellFormed(s: Store, wp: WordPress, render: Render, n: nat)
    requires n <= 8 && AllVisitable(s, wp, render)
    ensures WellFormed(Visited(s, wp, render, n))
  {
    hide Sound, Visit, WellFormed;
    if n > 0 {
      VisitedKeepsWellFormed(s, wp, render, n - 1);
      var t, c := Visited(s, wp, render, n - 1), Nth(n - 1);
      if Visitable(t, wp, render, c) {
        VisitKeepsWellFormed(t, wp, render, c);
      } else {
        UnwantedIsSkipped(t, wp, render, c);
      }
    }
  }

  lemma UnwantedIsSkipped(s: Store, wp: WordPress, render: Render, c: Child)
    requires !Wanted(wp.spec, c) && !c.SiteIngress? && !c.Autoscaler?
    ensures Visit(s, wp, render, c) == s
  {
  }

  /** From reading the n-th child to reading the next one, if both are visited. */
  lemma VisitNext(s: Store, p: Pass, n: nat)
    requires n < 8 && p.Working? && p.wp.key == p.key && p.at == Reading(Nth(n))
    requires AllVisitable(s, p.wp, p.render) && Visitable(Visited(s, p.wp, p.render, n), p.wp, p.render, Nth(n))
    ensures RunQuiet(Visited(s, p.wp, p.render, n), p) ==
            RunQuiet(Visited(s, p.wp, p.render, n + 1),
                     Proceed(p.(status := Noted(Visited(s, p.wp, p.render, n), p.wp, p.status, Nth(n))), Nth(n)))
  {
    hide RunQuiet, Proceed, Noted, Visit, Visitable, AllVisitable;
    QuietVisit(Visited(s, p.wp, p.render, n), p, Nth(n));
  }

  lemma ApproachWanted(p: Pass, c: Child)
    requires p.Working? && (Wanted(p.wp.spec, c) ==> p.render(p.wp, c).Some?)
    ensures Approach(p, c) == p.(at := Reading(c))
  {
  }

  lemma AllVisitableFacts(s: Store, wp: WordPress, render: Render, n: nat)
    requires AllVisitable(s, wp, render) && n < 8
    ensures Wanted(wp.spec, Nth(n)) ==> render(wp, Nth(n)).Some?
    ensures Wanted(wp.spec, Nth(n)) || n >= 6 ==> Visitable(Visited(s, wp, render, n), wp, render, Nth(n))
    ensures !Wanted(wp.spec, Nth(n)) && n < 6 ==> Visited(s, wp, render, n + 1) == Visited(s, wp, render, n)
  {
    hide Sound, Visit, Visited, WellFormed, Wanted;
    VisitedKeepsWellFormed(s, wp, render, n);
    if !Wanted(wp.spec, Nth(n)) && n < 6 {
      UnwantedIsSkipped(Visited(s, wp, render, n), wp, render, Nth(n));
      VisitedStep(s, wp, render, n);
    }
  }

  lemma VisitedStep(s: Store, wp: WordPress, render: Render, n: nat)
    requires n < 8
    ensures Visited(s, wp, render, n + 1) == Visit(Visited(s, wp, render, n), wp, render, Nth(n))
  {
  }

  lemma PlainStep(s: Store, p: Pass, c: Child)
    requires p.Working?
    ensures c.DbSecret? || c.DbService? || c.Deployment? || c.SiteService? || c.SiteIngress? ==>
              Proceed(p, c) == Approach(p, Following(c))
    ensures !c.DbStatefulSet? && !c.SiteIngress? ==> Noted(s, p.wp, p.status, c) == p.status
    ensures p.(status := p.status) == p
  {
  }

  lemma QuietTail(s: Store, p: Pass)
    requires p.Working? && p.wp.key == p.key && p.at == Reading(Deployment) && AllVisitable(s, p.wp, p.render)
    ensures RunQuiet(Visited(s, p.wp, p.render, 4), p) ==
            RunQuiet(Visited(s, p.wp, p.render, 8),
                     p.(at := ReadingStatus,
                        status := Noted(Visited(s, p.wp, p.render, 6), p.wp, p.status, SiteIngress)))
  {
    hide RunQuiet, Visited, AllVisitable, Approach, Visitable, Visit, Wanted, Noted;
    var wp := p.wp;
    AllVisitableFacts(s, wp, p.render, 4);
    AllVisitableFacts(s, wp, p.render, 5);
    AllVisitableFacts(s, wp, p.render, 6);
    AllVisitableFacts(s, wp, p.render, 7);
    assert Wanted(wp.spec, Deployment) && Wanted(wp.spec, SiteService) by { AlwaysWanted(wp.spec); }
    VisitNext(s, p, 4);
    PlainStep(Visited(s, wp, p.render, 4), p, Deployment);
    var p5 := p.(at := Reading(SiteService));
    ApproachWanted(p, SiteService);
    VisitNext(s, p5, 5);
    PlainStep(Visited(s, wp, p.render, 5), p5, SiteService);
    var p6 := p.(at := Reading(SiteIngress));
    ApproachWanted(p5, SiteIngress);
    VisitNext(s, p6, 6);
    var p7 := p6.(status := Noted(Visited(s, wp, p.render, 6), wp, p.status, SiteIngress));
    ApproachWanted(p7, Autoscaler);
    VisitNext(s, p7.(at := Reading(Autoscaler)), 7);
    PlainStep(Visited(s, wp, p.render, 7), p7.(at := Reading(Autoscaler)), Autoscaler);
  }

  lemma AlwaysWanted(spec: WordPressSpec)
    ensures Wanted(spec, Deployment) && Wanted(spec, SiteService)
  {
  }

  /** From the end of the database helper to the reading of the Deployment's status. */
  lemma QuietAfterDatabase(s: Store, p: Pass)
    requires p.Working? && p.wp.key == p.key && AllVisitable(s, p.wp, p.render)
    ensures RunQuiet(Visited(s, p.wp, p.render, 3), AfterDatabase(p)) ==
            RunQuiet(Visited(s, p.wp, p.render, 8),
                     p.(at := ReadingStatus,
                        status := Noted(Visited(s, p.wp, p.render, 6), p.wp,
                                        p.status.(databaseHost := ResolvedHost(p.wp)), SiteIngress)))
  {
    hide RunQuiet, Visited, AllVisitable, Approach, Visitable, Visit, Wanted, ResolvedHost;
    var wp := p.wp;
    var p4 := p.(status := p.status.(databaseHost := ResolvedHost(wp)));
    AllVisitableFacts(s, wp, p.render, 3);
    AllVisitableFacts(s, wp, p.render, 4);
    AlwaysWanted(wp.spec);
    ApproachWanted(p4, Deployment);
    QuietTail(s, p4.(at := Reading(Deployment)));
    ClaimWanted(wp.spec);
    if wp.spec.persistence.enabled {
      ApproachWanted(p, ContentClaim);
      VisitNext(s, p.(at := Reading(ContentClaim)), 3);
      ApproachWanted(p4.(at := Reading(ContentClaim)), Deployment);
    }
  }

  lemma ClaimWanted(spec: WordPressSpec)
    ensures Wanted(spec, ContentClaim) <==> spec.persistence.enabled
    ensures forall c: Child :: IsDatabase(c) ==> (Wanted(spec, c) <==> !spec.database.mode.External?)
  {
  }

  lemma QuietInternal(s: Store, p: Pass)
    requires p.Working? && p.wp.key == p.key && AllVisitable(s, p.wp, p.render)
    requires !p.wp.spec.database.mode.External?
    ensures RunQuiet(s, Begin(p)) ==
            RunQuiet(Visited(s, p.wp, p.render, 3),
                     AfterDatabase(p.(status := Noted(Visited(s, p.wp, p.render, 2), p.wp, p.status, DbStatefulSet))))
  {
    hide RunQuiet, AllVisitable, Approach, Visitable, Visit, Wanted, AfterDatabase;
    var wp := p.wp;
    ClaimWanted(wp.spec);
    AllVisitableFacts(s, wp, p.render, 0);
    AllVisitableFacts(s, wp, p.render, 1);
    AllVisitableFacts(s, wp, p.render, 2);
    assert IsDatabase(Nth(0)) && IsDatabase(Nth(1)) && IsDatabase(Nth(2));
    var p0, p1, p2 := p.(at := Reading(DbSecret)), p.(at := Reading(DbService)), p.(at := Reading(DbStatefulSet));
    ApproachWanted(p, DbSecret);
    VisitNext(s, p0, 0);
    ApproachWanted(p0, DbService);
    VisitNext(s, p1, 1);
    ApproachWanted(p1, DbStatefulSet);
    VisitNext(s, p2, 2);
    AfterDatabaseIgnoresPoint(p2.(status := Noted(Visited(s, wp, p.render, 2), wp, p.status, DbStatefulSet)), p.at);
  }

  lemma AfterDatabaseIgnoresPoint(p: Pass, at: Point)
    requires p.Working?
    ensures AfterDatabase(p.(at := at)) == AfterDatabase(p)
  {
  }

  lemma QuietExternal(s: Store, p: Pass)
    requires p.Working? && p.wp.key == p.key && AllVisitable(s, p.wp, p.render)
    requires p.wp.spec.database.mode.External? && ExternalSecretKey(p.wp) in s.objects
    ensures RunQuiet(s, Begin(p)) ==
            RunQuiet(Visited(s, p.wp, p.render, 3), AfterDatabase(Mark(p, EXTERNAL_OK)))
  {
    hide RunQuiet, AllVisitable, Approach, Visitable, Visit, Wanted, AfterDatabase, ExternalSecretKey, SetCondition;
    var wp := p.wp;
    ClaimWanted(wp.spec);
    AllVisitableFacts(s, wp, p.render, 0);
    AllVisitableFacts(s, wp, p.render, 1);
    AllVisitableFacts(s, wp, p.render, 2);
    assert IsDatabase(Nth(0)) && IsDatabase(Nth(1)) && IsDatabase(Nth(2));
    StepOnce(s, p.(at := CheckingSecret));
    AfterDatabaseIgnoresPoint(Mark(p, EXTERNAL_OK), CheckingSecret);
  }

  /** Reading the Deployment and writing the status, undisturbed. */
  lemma QuietReport(s: Store, p: Pass)
    requires p.Working? && p.at == ReadingStatus && WellFormed(s) && p.key.kind.WordPressKind?
    requires p.key in s.objects && s.objects[p.key].body.WordPressBody? && p.wp.key == p.key
    ensures
      var k := ChildKey(Deployment, p.key);
      var st := if k in s.objects && s.objects[k].body.DeploymentBody? then
                  ReportedStatus(p.wp, p.status, s.objects[k].body.replicas, s.objects[k].body.readyReplicas)
                else ReportedStatus(p.wp, p.status, 0, 0);
      RunQuiet(s, p) == (Put(s, p.key, StatusPatch(s.objects[p.key], st)),
                         Finished(p.key, p.render, Result(None, if st.phase.Ready? then 0 else WAIT_FOR_READY)))
  {
    hide RunQuiet, ReportedStatus, StatusPatch;
    StepOnce(s, p);
    var k := ChildKey(Deployment, p.key);
    assert k in s.objects ==> s.objects[k].body.DeploymentBody?;
    var q := Next(p, Look(s, k));
    QuietWrite(s, q);
  }

  /** Saving the status, undisturbed, whatever is to follow. */
  lemma QuietWrite(s: Store, p: Pass)
    requires p.Working? && p.at.FetchingLatest? && WellFormed(s)
    requires p.key in s.objects && s.objects[p.key].body.WordPressBody?
    ensures RunQuiet(s, p) == (Put(s, p.key, StatusPatch(s.objects[p.key], p.status)), Persisted(p, p.at.after, None))
  {
    hide RunQuiet, StatusPatch, WithStatus;
    PatchIsTaken(s.objects[p.key], p.status);
    StepOnce(s, p);
    var w := Next(p, Look(s, p.key));
    StepOnce(s, w);
    var (s', r) := Exec(s, Call(w));
    assert s' == Put(s, p.key, StatusPatch(s.objects[p.key], p.status));
    RunFinished(s', Next(w, r));
  }

  /** A status update takes the patch as it is. */
  lemma PatchIsTaken(o: Object, status: WordPressStatus)
    requires o.body.WordPressBody?
    ensures
      var patch := StatusPatch(o, status);
      patch.meta == o.meta && o.(body := WithStatus(o.body, patch.body)) == patch
  {
  }

  lemma RunFinished(s: Store, p: Pass)
    requires p.Finished?
    ensures RunQuiet(s, p) == (s, p)
  {
  }

  lemma {:induction false} ResourceUntouched(s: Store, wp: WordPress, render: Render, n: nat)
    requires n <= 8 && wp.key.kind.WordPressKind?
    ensures wp.key in Visited(s, wp, render, n).objects <==> wp.key in s.objects
    ensures wp.key in s.objects ==> Visited(s, wp, render, n).objects[wp.key] == s.objects[wp.key]
  {
    hide Visit;
    if n > 0 {
      ResourceUntouched(s, wp, render, n - 1);
      assert ChildKey(Nth(n - 1), wp.key).kind != WordPressKind;
      VisitFrame(Visited(s, wp, render, n - 1), wp, render, Nth(n - 1), wp.key);
    }
  }

  /** An undisturbed pass visits every child once and reports, and ends without an error; it asks to be run again unless
      it reports Ready. */
  lemma QuietPassIs(s: Store, key: Key, render: Render)
    requires Reconcilable(s, key, render)
    ensures
      var wp := InMemory(s, key);
      var st := QuietStatus(s, wp, render);
      QuietPass(s, key, render) ==
      (Put(Visited(s, wp, render, 8), key, StatusPatch(s.objects[key], st)),
       Finished(key, render, Result(None, if st.phase.Ready? then 0 else WAIT_FOR_READY)))
  {
    hide RunQuiet, Visited, Begin, AfterDatabase, Defaulted, Validate, Noted, SetCondition, ExternalSecretKey,
      ResolvedHost, Sound, StatusPatch, ReportedStatus, WellFormed;
    var wp := InMemory(s, key);
    StepOnce(s, Fetching(key, render));
    var p := Working(key, render, wp, wp.status, AddingFinalizer);
    assert RunQuiet(s, Fetching(key, render)) == RunQuiet(s, Begin(p));
    assert AllVisitable(s, wp, render);
    var q := if wp.spec.database.mode.External? then Mark(p, EXTERNAL_OK)
             else p.(status := Noted(Visited(s, wp, render, 2), wp, wp.status, DbStatefulSet));
    if wp.spec.database.mode.External? { QuietExternal(s, p); } else { QuietInternal(s, p); }
    QuietAfterDatabase(s, q);
    ResourceUntouched(s, wp, render, 8);
    VisitedKeepsWellFormed(s, wp, render, 8);
    QuietReport(Visited(s, wp, render, 8),
                q.(at := ReadingStatus,
                   status := Noted(Visited(s, wp, render, 6), wp, q.status.(databaseHost := ResolvedHost(wp)),
                                   SiteIngress)));
  }

  // ---------------------------------------------------------------- an undisturbed pass is a run of the system

  /** Worker `id` carries pass `p` in the store `s`, after the run. */
  ghost predicate Carries(s0: Store, actions: seq<Action>, id: nat, s: Store, p: Pass) {
    && IsRun(s0, actions) && |End(s0, actions).trail| > 0
    && id in End(s0, actions).workers && End(s0, actions).workers[id].pass == p && Now(End(s0, actions).trail) == s
  }

  lemma {:induction false} StepsCarry(s0: Store, actions: seq<Action>, id: nat, s: Store, p: Pass)
    returns (more: seq<Action>)
    requires Carries(s0, actions, id, s, p)
    ensures Carries(s0, more, id, RunQuiet(s, p).0, RunQuiet(s, p).1)
    ensures forall i :: |actions| <= i < |more| ==> more[i] == Step(id, Normal)
    ensures actions <= more
    decreases Rank(p)
  {
    hide IsRun, End, Next, Call, Exec, Rank, RunQuiet;
    if p.Finished? {
      RunFinished(s, p);
      more := actions;
    } else {
      RunExtends(s0, actions, Step(id, Normal));
      var (s', r) := Exec(s, Call(p));
      StepOnce(s, p);
      RankDecreases(p, r);
      more := StepsCarry(s0, actions + [Step(id, Normal)], id, s', Next(p, r));
    }
  }

  /** `QuietPass` is what the system does when one pass starts and nobody and nothing interferes: there is a run that
      starts the pass and then takes only its own unhindered steps, and it ends in that store with that result. */
  lemma QuietPassIsARun(s: Store, id: nat, key: Key, render: Render) returns (actions: seq<Action>)
    requires WellFormed(s) && key.kind.WordPressKind? && Sound(render)
    ensures |actions| > 0 && actions[0] == Start(id, key, render)
    ensures forall i :: 0 < i < |actions| ==> actions[i] == Step(id, Normal)
    ensures Carries(s, actions, id, QuietPass(s, key, render).0, QuietPass(s, key, render).1)
  {
    hide RunQuiet, WellFormed, Sound, Carries;
    StartCarries(s, id, key, render);
    actions := StepsCarry(s, [Start(id, key, render)], id, s, Fetching(key, render));
  }

  lemma StartCarries(s: Store, id: nat, key: Key, render: Render)
    requires WellFormed(s) && key.kind.WordPressKind? && Sound(render)
    ensures Carries(s, [Start(id, key, render)], id, s, Fetching(key, render))
  {
    hide WellFormed, Sound, Answer, Call, Next, ServerStep;
    assert IsRun(s, []) && End(s, []) == System([s], map[]);
    RunExtends(s, [], Start(id, key, render));
    assert [] + [Start(id, key, render)] == [Start(id, key, render)];
  }
}
