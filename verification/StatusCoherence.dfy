/** The persisted status never contradicts itself. */
module StatusCoherence {
  import opened Types
  import opened Names
  import opened Conditions
  import opened Defaults
  import opened Drift
  import opened Server
  import opened Machine
  import opened System
  import opened Guarantee
  import opened Safety
  import opened OnePass
  import Generation
  import Observation

  /** Phase and Ready condition agree, and Ready is backed by the Deployment. */
  ghost predicate Backed(st: WordPressStatus) {
    && Unique(st.conditions)
    && (st.phase.Ready? <==> Holds(st.conditions, ReadyCondition))
    && (Holds(st.conditions, ReadyCondition) ==>
          Holds(st.conditions, DeploymentReady) && 0 < st.readyReplicas == st.replicas)
  }

  /** ... and by the database; or, if that is asked for less strictly, the database condition may say instead that the
      external Secret has gone missing since. */
  ghost predicate Sane(st: WordPressStatus, strict: bool) {
    && Backed(st)
    && (Holds(st.conditions, ReadyCondition) ==>
          || Holds(st.conditions, DatabaseReady)
          || (&& !strict && Find(st.conditions, DatabaseReady).Some?
              && Find(st.conditions, DatabaseReady).value.reason == ExternalSecretMissing))
  }

  ghost predicate Strict(st: WordPressStatus) {
    Sane(st, true)
  }

  ghost predicate AllSane(s: Store, strict: bool) {
    forall k :: k in s.objects && s.objects[k].body.WordPressBody? ==> Sane(s.objects[k].body.status, strict)
  }

  /** The external Secret was found missing: the database condition is False, and nothing was done about Ready. */
  ghost predicate Unserved(p: Pass)
    requires p.Working?
  {
    && Find(p.status.conditions, ReadyCondition) == Find(p.wp.status.conditions, ReadyCondition)
    && !Holds(p.status.conditions, DatabaseReady)
  }

  ghost predicate SavedOk(p: Pass, after: After, strict: bool)
    requires p.Working?
  {
    Sane(p.status, strict && !after.ThenWait?) && (after.ThenWait? ==> Unserved(p))
  }

  ghost predicate ChildOk(p: Pass, c: Child, strict: bool)
    requires p.Working?
  {
    if IsDatabase(c) then Sane(p.status, strict) && Wanted(p.wp.spec, c) else Backed(p.status)
  }

  ghost predicate StatusOk(p: Pass, strict: bool) {
    p.Working? ==>
      match p.at
      case CheckingSecret => Sane(p.status, strict) && p.status == p.wp.status
      case Reading(c) => ChildOk(p, c, strict)
      case Creating(c) => ChildOk(p, c, strict)
      case Updating(c, _) => ChildOk(p, c, strict)
      case Deleting(c, _) => Backed(p.status) && !IsDatabase(c)
      case ReadingStatus => Backed(p.status)
      case FetchingLatest(_, after) => SavedOk(p, after, strict)
      case WritingStatus(_, after, _) => SavedOk(p, after, strict)
      case _ => true
  }

  // ---------------------------------------------------------------- each status the code computes

  lemma MarkDatabase(st: WordPressStatus, c: Condition)
    requires Backed(st) && c.ctype == DatabaseReady
    ensures Backed(st.(conditions := SetCondition(st.conditions, c)))
    ensures c.holds || c.reason == ExternalSecretMissing ==>
              Sane(st.(conditions := SetCondition(st.conditions, c)), c.holds)
    ensures !c.holds ==> !Holds(SetCondition(st.conditions, c), DatabaseReady)
    ensures Find(SetCondition(st.conditions, c), ReadyCondition) == Find(st.conditions, ReadyCondition)
  {
    SetKeepsUnique(st.conditions, c);
    forall t { FindAfterSet(st.conditions, c, t); }
  }

  lemma MarkIngress(st: WordPressStatus, c: Condition)
    requires Backed(st) && c.ctype == IngressConfigured
    ensures Backed(st.(conditions := SetCondition(st.conditions, c)))
    ensures Backed(st.(conditions := RemoveCondition(st.conditions, IngressConfigured)))
  {
    SetKeepsUnique(st.conditions, c);
    RemoveKeepsUnique(st.conditions, IngressConfigured);
    forall t { FindAfterSet(st.conditions, c, t); }
    forall t { FindAfterRemove(st.conditions, IngressConfigured, t); }
  }

  lemma FailedIsStrict(st: WordPressStatus, e: SpecError)
    requires Unique(st.conditions)
    ensures Strict(FailedStatus(st, e))
  {
    var c := Condition(ReadyCondition, false, InvalidSpec, Rejected(e));
    SetKeepsUnique(st.conditions, c);
    FindAfterSet(st.conditions, c, ReadyCondition);
  }

  lemma ReportedIsStrict(wp: WordPress, st: WordPressStatus, total: int, ready: int)
    requires Unique(st.conditions)
    ensures Strict(ReportedStatus(wp, st, total, ready))
  {
    var depReady := ready > 0 && ready == total;
    var d := if depReady then Condition(DeploymentReady, true, AllReplicasReady, Plain)
             else Condition(DeploymentReady, false, Progressing, ReplicaCount(ready, total));
    var cs := SetCondition(st.conditions, d);
    var allReady := Holds(cs, DatabaseReady) && depReady;
    var r := if allReady then Condition(ReadyCondition, true, AllReady, Plain)
             else Condition(ReadyCondition, false, Progressing, Plain);
    SetKeepsUnique(st.conditions, d);
    SetKeepsUnique(cs, r);
    forall t { FindAfterSet(st.conditions, d, t); }
    forall t { FindAfterSet(cs, r, t); }
  }

  // ---------------------------------------------------------------- along a pass

  lemma ApproachOk(p: Pass, c: Child, strict: bool)
    requires p.Working? && Backed(p.status) && (IsDatabase(c) ==> Sane(p.status, strict) && Wanted(p.wp.spec, c))
    ensures StatusOk(Approach(p, c), strict)
  {
  }

  lemma AfterDatabaseOk(p: Pass, strict: bool)
    requires p.Working? && Backed(p.status)
    ensures StatusOk(AfterDatabase(p), strict) && StatusOk(ApproachDeployment(p), strict)
  {
  }

  lemma ProceedOk(p: Pass, c: Child, strict: bool)
    requires p.Working? && Backed(p.status)
    requires c.DbSecret? || c.DbService? ==> Sane(p.status, strict) && Wanted(p.wp.spec, c)
    ensures StatusOk(Proceed(p, c), strict)
  {
    hide Backed, Sane, Approach, AfterDatabase, ApproachDeployment;
    ApproachOk(p, if c.DbStatefulSet? || c.Autoscaler? then Deployment else Following(c), strict);
    AfterDatabaseOk(p, strict);
  }

  lemma SettleOk(p: Pass, c: Child, found: Option<Object>, strict: bool)
    requires p.Working? && Backed(p.status) && (IsDatabase(c) ==> Sane(p.status, strict) && Wanted(p.wp.spec, c))
    ensures StatusOk(Settle(p, c, found), strict)
  {
    hide Backed, Sane, Proceed, SetCondition;
    match c
    case DbStatefulSet =>
      var readyPods := if found.Some? && found.value.body.StatefulSetBody? then found.value.body.readyPods else 0;
      MarkDatabase(p.status, DatabaseCondition(readyPods));
      ProceedOk(Mark(p, DatabaseCondition(readyPods)), c, strict);
    case SiteIngress =>
      var cond := if found.None? then INGRESS_CREATED else INGRESS_RECONCILED;
      MarkIngress(p.status, cond);
      ProceedOk(Mark(p, cond), c, strict);
    case _ => ProceedOk(p, c, strict);
  }

  lemma AfterReadOk(p: Pass, r: Response, strict: bool)
    requires p.Working? && p.at.Reading? && StatusOk(p, strict)
    ensures StatusOk(AfterRead(p, p.at.child, r), strict)
  {
    hide Backed, Sane, Proceed, Settle, SetCondition, RemoveCondition, Merge, NeedsUpdate;
    var c := p.at.child;
    assert Backed(p.status) by { SaneIsBacked(p.status, strict); }
    MarkIngress(p.status, INGRESS_CREATED);
    if Wanted(p.wp.spec, c) {
      if r.Found? { SettleOk(p, c, Some(r.obj), strict); }
    } else {
      ProceedOk(p, c, strict);
      var conditions := RemoveCondition(p.status.conditions, IngressConfigured);
      ProceedOk(p.(status := p.status.(conditions := conditions)), c, strict);
    }
  }

  lemma SaneIsBacked(st: WordPressStatus, strict: bool)
    ensures Sane(st, strict) ==> Backed(st) && Unique(st.conditions) && Sane(st, false)
    ensures Backed(st) ==> Unique(st.conditions)
  {
  }

  lemma AdmitOk(p: Pass, cr: WordPress, strict: bool)
    requires Sane(cr.status, strict)
    ensures StatusOk(Admit(p, cr), strict)
  {
    hide Defaulted, Validate, FailedStatus, Approach, Backed;
    if !cr.meta.deleting && HasFinalizer(cr.meta) {
      var w := Working(p.key, p.render, cr.(spec := Defaulted(cr.spec)), cr.status, AddingFinalizer);
      SaneIsBacked(cr.status, strict);
      match Validate(w.wp.spec)
      case Some(e) =>
        FailedIsStrict(cr.status, e);
        SaneIsBacked(FailedStatus(cr.status, e), true);
      case None => if !w.wp.spec.database.mode.External? { ApproachOk(w, DbSecret, strict); }
    }
  }

  lemma NextOk(p: Pass, r: Response, strict: bool)
    requires !p.Finished? && StatusOk(p, strict)
    requires p.Fetching? && r.Found? && r.obj.body.WordPressBody? ==> Sane(r.obj.body.status, strict)
    ensures StatusOk(Next(p, r), strict)
  {
    hide Backed, Sane, Admit, AfterRead, AfterDatabase, Settle, Proceed, ReportedStatus, SetCondition;
    if p.Working? { SaneIsBacked(p.status, strict); }
    match p
    case Fetching(k, _) =>
      if r.Found? && r.obj.body.WordPressBody? {
        AdmitOk(p, WordPress(k, r.obj.meta, r.obj.body.generation, r.obj.body.spec, r.obj.body.status), strict);
      }
    case Finished(_, _, _) =>
    case Working(_, _, wp, status, at) =>
      match at
      case CheckingSecret =>
        MarkDatabase(status, EXTERNAL_OK);
        MarkDatabase(status, SecretMissing(wp));
        AfterDatabaseOk(Mark(p, EXTERNAL_OK), strict);
      case Reading(c) => AfterReadOk(p, r, strict);
      case Creating(c) => SettleOk(p, c, None, strict);
      case Updating(c, found) => SettleOk(p, c, Some(found), strict);
      case Deleting(c, _) => ProceedOk(p, c, strict);
      case ReadingStatus => ReportOk(p, r, strict);
      case _ =>
  }

  lemma ReportOk(p: Pass, r: Response, strict: bool)
    requires p.Working? && p.at.ReadingStatus? && Backed(p.status)
    ensures StatusOk(Next(p, r), strict)
  {
    hide Backed, Sane, ReportedStatus, Unique;
    var total, ready := 0, 0;
    if r.Found? && r.obj.body.DeploymentBody? { total, ready := r.obj.body.replicas, r.obj.body.readyReplicas; }
    SaneIsBacked(p.status, strict);
    ReportedIsStrict(p.wp, p.status, total, ready);
    SaneIsBacked(ReportedStatus(p.wp, p.status, total, ready), true);
  }

  // ---------------------------------------------------------------- over whole runs

  lemma EffectKeepsSane(s: Store, s': Store, p: Pass, strict: bool)
    requires Effect(s, s', p) && Legal(p) && AllSane(s, strict)
    requires s' != s && p.Working? && p.at.WritingStatus? ==> Sane(p.status, strict)
    ensures AllSane(s', strict)
  {
    hide Backed, Sane, Without, Sound, Merge, HasFinalizer, WithSpec;
    if p.Working? && p.at.Updating? && ChildKey(p.at.child, p.key) in s.objects {
      MergeKeepsKind(s.objects[ChildKey(p.at.child, p.key)], Desired(p, p.at.child));
    }
    assert p.Working? && p.at.Creating? ==> KindOf(Desired(p, p.at.child).body) != WordPressKind by {
      if p.Working? && p.at.Creating? { BuiltKind(p, p.at.child); }
    }
  }

  lemma MergeKeepsKind(found: Object, desired: Object)
    ensures Merge(found, desired).body.WordPressBody? ==> Merge(found, desired) == found
  {
  }

  lemma BuiltKind(p: Pass, c: Child)
    requires p.Working? && Sound(p.render) && Buildable(p, c)
    ensures KindOf(Desired(p, c).body) != WordPressKind
  {
  }

  /** Outsiders are only asked not to write such statuses where there were none. */
  ghost function WritesSanely(strict: bool): (Store, Store) -> bool {
    (s: Store, s': Store) => AllSane(s, strict) ==> AllSane(s', strict)
  }

  ghost predicate TrailSane(trail: seq<Store>, strict: bool) {
    forall i :: 0 <= i < |trail| ==> AllSane(trail[i], strict)
  }

  lemma TrailSaneExtends(trail: seq<Store>, s: Store, strict: bool)
    ensures TrailSane(trail + [s], strict) <==> TrailSane(trail, strict) && AllSane(s, strict)
  {
    hide AllSane;
    var t := trail + [s];
    assert t[|trail|] == s;
    forall i | 0 <= i < |trail| ensures t[i] == trail[i] {}
  }

  /** While every stored status is sane, so is every pass in flight. */
  lemma {:induction false} PassesAreOk(s0: Store, actions: seq<Action>, id: nat, strict: bool)
    requires IsRun(s0, actions) && TrailSane(End(s0, actions).trail, strict) && id in End(s0, actions).workers
    ensures StatusOk(End(s0, actions).workers[id].pass, strict)
    decreases |actions|
  {
    hide Inv, AllSane, StatusOk, Answer, Next, Call, Server.IsTrail, TrailSane;
    if actions != [] {
      var before, last := actions[..|actions| - 1], actions[|actions| - 1];
      var sys := End(s0, before);
      if last.Environment? { TrailSaneExtends(sys.trail, last.store, strict); }
      if last.Step? {
        TrailSaneExtends(sys.trail, Answer(sys.trail, Call(sys.workers[last.id].pass), last.outcome).0, strict);
      }
      if id in sys.workers { PassesAreOk(s0, before, id, strict); }
      if last.Start? {
        FetchingOk(last.key, last.render, strict);
      } else if last.Step? && last.id == id {
        RunInv(s0, before);
        StepOk(sys, id, last.outcome, strict);
      }
    }
  }

  lemma StepOk(sys: System, id: nat, outcome: Outcome, strict: bool)
    requires Inv(sys) && Enabled(sys, Step(id, outcome)) && TrailSane(sys.trail, strict)
    requires StatusOk(sys.workers[id].pass, strict)
    ensures StatusOk(Apply(sys, Step(id, outcome)).workers[id].pass, strict)
  {
    hide AllSane, StatusOk, Answer, Next, Call, Server.IsTrail, TrailSane, PassInv;
    var p := sys.workers[id].pass;
    var r := Answer(sys.trail, Call(p), outcome).1;
    InvFacts(sys, id);
    AnswerIsServerStep(sys.trail, Call(p), outcome);
    if p.Fetching? && r.Found? && r.obj.body.WordPressBody? { SeenIsSane(sys.trail, Call(p).key, r.obj, strict); }
    NextOk(p, r, strict);
  }

  /** In every store of every run, every WordPress resource has a coherent status: the phase is Ready exactly when the
      Ready condition is True; then the Deployment condition is True and all of at least one replica are ready; and
      then the database condition is True or says ExternalSecretMissing. No condition type occurs twice. */
  lemma {:induction false} StatusesStayCoherent(s0: Store, actions: seq<Action>)
    requires IsRun(s0, actions) && AllSane(s0, false) && Rely(s0, actions, WritesSanely(false))
    ensures forall i :: 0 <= i < |End(s0, actions).trail| ==> AllSane(End(s0, actions).trail[i], false)
    decreases |actions|
  {
    hide Inv, AllSane, Effect, Legal, Answer, Next, Call, Server.IsTrail, Sane;
    if actions != [] {
      var before, last := actions[..|actions| - 1], actions[|actions| - 1];
      var sys := End(s0, before);
      StatusesStayCoherent(s0, before);
      if last.Step? {
        RunInv(s0, before);
        PassesAreOk(s0, before, last.id, false);
        EffectOfStep(sys, last.id, last.outcome);
        PassIsLegal(sys, last.id);
        EffectKeepsSane(Now(sys.trail), Now(Apply(sys, last).trail), sys.workers[last.id].pass, false);
      }
    }
  }

  lemma InvFacts(sys: System, id: nat)
    requires Inv(sys) && id in sys.workers
    ensures IsTrail(sys.trail) && PassInv(sys.trail, sys.workers[id].pass)
  {
  }

  lemma FetchingOk(key: Key, render: Render, strict: bool)
    ensures StatusOk(Fetching(key, render), strict)
  {
  }

  lemma SeenIsSane(trail: seq<Store>, k: Key, o: Object, strict: bool)
    requires Seen(trail, k, o) && o.body.WordPressBody? && TrailSane(trail, strict)
    ensures Sane(o.body.status, strict)
  {
    var i :| 0 <= i < |trail| && StoredAt(trail, i, k, o);
    assert AllSane(trail[i], strict);
  }

  // ---------------------------------------------------------------- Ready without a database

  /** What the pass is about to save says Ready without a database: it read a Ready resource and found its external
      Secret missing. */
  ghost predicate Stranded(p: Pass)
    requires p.Working?
  {
    (p.at.FetchingLatest? || p.at.WritingStatus?) && p.at.after.ThenWait? &&
    Holds(p.wp.status.conditions, ReadyCondition)
  }

  lemma SavedStrictIff(p: Pass)
    requires p.Working? && StatusOk(p, true) && (p.at.FetchingLatest? || p.at.WritingStatus?)
    ensures Strict(p.status) <==> !Stranded(p)
  {
    hide Backed;
  }

  lemma {:induction false} PassStaysOk(p: Pass, answers: seq<Response>)
    requires p.Fetching? && answers != [] && answers[0].Found? && answers[0].obj.body.WordPressBody?
    requires Strict(answers[0].obj.body.status)
    ensures StatusOk(Feed(p, answers), true)
    decreases |answers|
  {
    hide Next, StatusOk, Sane;
    var before, r := answers[..|answers| - 1], answers[|answers| - 1];
    assert answers == before + [r];
    FeedLast(p, before, r);
    if before == [] {
      FetchingOk(p.key, p.render, true);
      NextOk(p, r, true);
    } else {
      PassStaysOk(p, before);
      Generation.NeverFetchesTwice(p, before);
      if !Feed(p, before).Finished? { NextOk(Feed(p, before), r, true); }
    }
  }

  /** Exactly when Ready loses its database: if the resource a pass read was Ready only with its database, then every
      status the pass is about to save says so too, except if and only if the pass found the external Secret missing and
      the resource it read was Ready. */
  lemma ReadyKeepsItsDatabaseUnless(key: Key, render: Render, answers: seq<Response>)
    requires answers != [] && answers[0].Found? && answers[0].obj.body.WordPressBody?
    requires Strict(answers[0].obj.body.status)
    requires var q := Feed(Fetching(key, render), answers); q.Working? && (q.at.FetchingLatest? || q.at.WritingStatus?)
    ensures
      var q := Feed(Fetching(key, render), answers);
      Strict(q.status) <==>
      !(q.at.after.ThenWait? && Holds(answers[0].obj.body.status.conditions, ReadyCondition))
  {
    hide Feed, StatusOk, Sane;
    var p := Fetching(key, render);
    PassStaysOk(p, answers);
    Generation.PassRemembers(p, answers);
    SavedStrictIff(Feed(p, answers));
  }

  /** No status write that takes effect is of that kind. */
  ghost predicate NoneStranded(s0: Store, actions: seq<Action>)
    requires IsRun(s0, actions)
    decreases |actions|
  {
    actions == [] ||
    var before := actions[..|actions| - 1];
    var last := actions[|actions| - 1];
    var sys := End(s0, before);
    && NoneStranded(s0, before)
    && (last.Step? && Observation.Writes(sys, last.id, last.outcome) ==> !Stranded(sys.workers[last.id].pass))
  }

  lemma StepStrictIff(s0: Store, actions: seq<Action>, id: nat, outcome: Outcome)
    requires IsRun(s0, actions) && Enabled(End(s0, actions), Step(id, outcome))
    requires TrailSane(End(s0, actions).trail, true)
    ensures
      var sys := End(s0, actions);
      AllSane(Now(Apply(sys, Step(id, outcome)).trail), true) <==>
      (Observation.Writes(sys, id, outcome) ==> !Stranded(sys.workers[id].pass))
  {
    hide Effect, Legal, Inv, Answer, Sane, PassInv, StatusOk;
    var sys := End(s0, actions);
    var p, s := sys.workers[id].pass, Now(sys.trail);
    var s' := Now(Apply(sys, Step(id, outcome)).trail);
    CallFacts(s0, actions, id, outcome, p, s, s');
    PassesAreOk(s0, actions, id, true);
    assert AllSane(sys.trail[|sys.trail| - 1], true);
    if Observation.Writes(sys, id, outcome) {
      SavedStrictIff(p);
      StatusWriteIsExact(s0, actions, id, outcome, p, s, s');
      assert s'.objects[p.key].body.status == p.status;
    }
    if !Observation.Writes(sys, id, outcome) || Sane(p.status, true) { EffectKeepsSane(s, s', p, true); }
  }

  /** Over any run: every stored status keeps Ready together with its database, in every store, exactly if no status
      write that takes effect comes from a pass that read a Ready resource and found its external Secret missing. */
  lemma {:induction false} ReadyImpliesDatabaseIff(s0: Store, actions: seq<Action>)
    requires IsRun(s0, actions) && AllSane(s0, true) && Rely(s0, actions, WritesSanely(true))
    ensures TrailSane(End(s0, actions).trail, true) <==> NoneStranded(s0, actions)
    decreases |actions|
  {
    hide AllSane, Stranded, Observation.Writes, TrailSane;
    if actions != [] {
      var before, last := actions[..|actions| - 1], actions[|actions| - 1];
      var sys := End(s0, before);
      ReadyImpliesDatabaseIff(s0, before);
      match last
      case Environment(s) =>
        TrailSaneExtends(sys.trail, s, true);
        TrailSaneNow(sys.trail, true);
      case Step(id, outcome) =>
        TrailSaneExtends(sys.trail, Now(Apply(sys, last).trail), true);
        if TrailSane(sys.trail, true) { StepStrictIff(s0, before, id, outcome); }
      case _ =>
    } else {
      TrailSaneExtends([], s0, true);
      assert [] + [s0] == [s0];
      NoTrailIsSane();
    }
  }

  lemma TrailSaneNow(trail: seq<Store>, strict: bool)
    requires |trail| > 0
    ensures TrailSane(trail, strict) ==> AllSane(Now(trail), strict)
  {
    hide AllSane;
  }

  lemma NoTrailIsSane()
    ensures TrailSane([], true)
  {
  }

  // ---------------------------------------------------------------- it does happen

  /** A resource with an external database, reported Ready with everything that belongs to it. */
  function ReadyExternal(k: Key): Object {
    Object(Meta(Uid(k, 1), 1, None, None, None, false, [FINALIZER]),
           WordPressBody(1,
             WordPressSpec("", "", "", None, "", "", [],
               DatabaseSpec(External, "", "", "", None,
                 Some(ExternalDb("db", 3306, SecretRef("credentials", "password")))),
               ExposureSpec(NoServiceType, 0, 0, None), IngressSpec(false, None, "", "", None),
               PersistenceSpec(false, "", None, []), AutoscalingSpec(false, 0, 0, 0),
               None, None, None, "", "", None, None),
             WordPressStatus(1, Ready, "", 1, 1, "db",
               [EXTERNAL_OK, Condition(DeploymentReady, true, AllReplicasReady, Plain),
                Condition(ReadyCondition, true, AllReady, Plain)])))
  }

  function OnlyThat(k: Key): Store {
    Store(map[k := ReadyExternal(k)], map[k := 1])
  }

  lemma ReadyExternalIsStrict(k: Key)
    requires k.kind.WordPressKind?
    ensures WellFormed(OnlyThat(k)) && AllSane(OnlyThat(k), true)
  {
    ReadyExternalHolds(k);
  }

  lemma PassFindsNoSecret(k: Key, render: Render)
    ensures
      var p := Next(Fetching(k, render), Found(ReadyExternal(k)));
      && p.Working? && p.key == k && p.at == CheckingSecret && p.wp.status == p.status == ReadyExternal(k).body.status
      && p.wp.key == k && Call(p).Get? && Call(p).key.kind.SecretKind?
  {
    hide Validate, Defaulted;
    ValidExternal(k);
  }

  lemma ValidExternal(k: Key)
    ensures
      var spec := Defaulted(ReadyExternal(k).body.spec);
      Validate(spec).None? && spec.database.mode.External?
  {
  }

  /** A Ready site loses its Secret: the next pass runs undisturbed, and leaves the resource Ready=True with
      DatabaseReady=False. */
  lemma ReadyWithoutDatabase(k: Key, render: Render) returns (s0: Store, actions: seq<Action>)
    requires k.kind.WordPressKind? && Sound(render)
    ensures IsRun(s0, actions) && AllSane(s0, true) && |End(s0, actions).trail| > 0
    ensures
      var o := Now(End(s0, actions).trail).objects;
      && k in o && o[k].body.WordPressBody? && o[k].body.status.phase.Ready?
      && Holds(o[k].body.status.conditions, ReadyCondition) && !Holds(o[k].body.status.conditions, DatabaseReady)
  {
    hide Sound, Next, IsRun, End, WellFormed, Find, SetCondition, ReadyExternal, AllSane;
    s0 := OnlyThat(k);
    ReadyExternalIsStrict(k);
    Observation.EmptyRun(s0);
    actions := [Start(0, k, render)];
    assert [] + actions == actions;
    RunExtends(s0, [], Start(0, k, render));
    RunExtends(s0, actions, Step(0, Normal));
    actions := actions + [Step(0, Normal)];
    actions := SaveWithoutSecret(s0, actions, k, render);
  }

  lemma SaveWithoutSecret(s0: Store, before: seq<Action>, k: Key, render: Render) returns (actions: seq<Action>)
    requires k.kind.WordPressKind? && IsRun(s0, before) && |End(s0, before).trail| > 0
    requires Now(End(s0, before).trail) == OnlyThat(k) && 0 in End(s0, before).workers
    requires End(s0, before).workers[0].pass == Next(Fetching(k, render), Found(ReadyExternal(k)))
    ensures IsRun(s0, actions) && |End(s0, actions).trail| > 0
    ensures
      var o := Now(End(s0, actions).trail).objects;
      && k in o && o[k].body.WordPressBody? && o[k].body.status.phase.Ready?
      && Holds(o[k].body.status.conditions, ReadyCondition) && !Holds(o[k].body.status.conditions, DatabaseReady)
  {
    hide Next, IsRun, End, ReadyExternal, Find, SetCondition;
    PassFindsNoSecret(k, render);
    var p := End(s0, before).workers[0].pass;
    RunExtends(s0, before, Step(0, Normal));
    actions := before + [Step(0, Normal)];
    MissingSecretLeavesReadyAlone(p);
    var q := Next(p, Refused(NotFound));
    assert End(s0, actions).workers[0].pass == q;
    RunExtends(s0, actions, Step(0, Normal));
    actions := actions + [Step(0, Normal)];
    Observation.WriteFollows(q, ReadyExternal(k));
    actions := SaveLands(s0, actions, k, q);
    ReadyExternalHolds(k);
  }

  lemma SaveLands(s0: Store, before: seq<Action>, k: Key, q: Pass) returns (actions: seq<Action>)
    requires k.kind.WordPressKind? && IsRun(s0, before) && |End(s0, before).trail| > 0
    requires Now(End(s0, before).trail) == OnlyThat(k) && 0 in End(s0, before).workers
    requires q.Working? && q.key == k
    requires End(s0, before).workers[0].pass == q.(at := WritingStatus(0, ThenWait, ReadyExternal(k)))
    ensures IsRun(s0, actions) && |End(s0, actions).trail| > 0
    ensures
      var o := Now(End(s0, actions).trail).objects;
      k in o && o[k].body.WordPressBody? && o[k].body.status == q.status
  {
    hide Next, IsRun, End;
    RunExtends(s0, before, Step(0, Normal));
    actions := before + [Step(0, Normal)];
  }

  lemma ReadyExternalHolds(k: Key)
    ensures
      var st := ReadyExternal(k).body.status;
      st.phase.Ready? && Holds(st.conditions, ReadyCondition) && Strict(st)
  {
    var cs := ReadyExternal(k).body.status.conditions;
    var d, r := cs[1], cs[2];
    assert cs[1..] == [d, r] && cs[1..][1..] == [r];
    assert Find([r], ReadyCondition) == Some(r);
    assert Find([d, r], ReadyCondition) == Some(r) && Find([d, r], DeploymentReady) == Some(d);
    assert Find(cs, ReadyCondition) == Some(r) && Find(cs, DeploymentReady) == Some(d);
    assert Find(cs, DatabaseReady) == Some(EXTERNAL_OK);
  }

  lemma MissingSecretLeavesReadyAlone(p: Pass)
    requires p.Working? && p.at.CheckingSecret?
    ensures
      var q := Next(p, Refused(NotFound));
      && q.Working? && q == p.(status := q.status, at := FetchingLatest(0, ThenWait))
      && q.status.phase == p.status.phase
      && Find(q.status.conditions, ReadyCondition) == Find(p.status.conditions, ReadyCondition)
      && !Holds(q.status.conditions, DatabaseReady)
  {
    FindAfterSet(p.status.conditions, SecretMissing(p.wp), ReadyCondition);
    FindAfterSet(p.status.conditions, SecretMissing(p.wp), DatabaseReady);
  }
}
