/**
 The whole system: a store that anyone may write, and any number of reconcile passes in flight.

 A run is a sequence of actions chosen by an adversary.  Between any two calls of any pass the environment may replace
 the store by any other store that the server's versioning rules allow; a pass may die between any two calls; a read
 may be answered from any earlier store; a call may be refused, or take effect and still report an error.
 */
module System {
  import opened Types
  import opened Names
  import opened Conditions
  import opened Defaults
  import opened Drift
  import opened Server
  import opened Machine

  /** A pass in flight. */
  datatype Worker = Worker(pass: Pass)

  datatype System = System(trail: seq<Store>, workers: map<nat, Worker>)

  datatype Action =
    | Environment(store: Store)
    | Start(id: nat, key: Key, render: Render)
    | Step(id: nat, outcome: Outcome)
    | Crash(id: nat)

  /** What every builder guarantees: the object is of the child's kind, controlled by the resource, without finalizers;
      and only the builders that draw passwords or parse a quantity can fail. */
  ghost predicate Sound(render: Render) {
    forall wp, c ::
      match render(wp, c)
      case None => c.DbSecret? || c.DbStatefulSet? || c.ContentClaim?
      case Some(o) =>
        && KindOf(o.body) == ChildKey(c, wp.key).kind
        && o.meta.controller == Some(wp.meta.uid)
        && !o.meta.deleting && o.meta.finalizers == []
  }

  function Now(trail: seq<Store>): Store
    requires |trail| > 0
  {
    trail[|trail| - 1]
  }

  /** The effect and the answer of one call. */
  function Answer(trail: seq<Store>, req: Request, outcome: Outcome): (Store, Response)
    requires |trail| > 0 && (outcome.Stale? ==> outcome.i < |trail|)
  {
    match outcome
    case Normal => Exec(Now(trail), req)
    case Stale(i) => if req.Get? then (Now(trail), Look(trail[i], req.key)) else Exec(Now(trail), req)
    case Refuse(conflict) => (Now(trail), Refused(if conflict then Conflict else Other))
    case Lose => (Exec(Now(trail), req).0, Refused(Other))
  }

  ghost predicate Enabled(sys: System, action: Action) {
    && |sys.trail| > 0
    && match action
       case Environment(s) => ServerStep(Now(sys.trail), s)
       case Start(id, key, render) =>
         key.kind.WordPressKind? && Sound(render) && (id in sys.workers ==> sys.workers[id].pass.Finished?)
       case Step(id, outcome) =>
         && id in sys.workers && !sys.workers[id].pass.Finished?
         && (outcome.Stale? ==> outcome.i < |sys.trail|)
       case Crash(id) => id in sys.workers
  }

  ghost function Apply(sys: System, action: Action): System
    requires Enabled(sys, action)
  {
    match action
    case Environment(s) => sys.(trail := sys.trail + [s])
    case Start(id, key, render) =>
      sys.(workers := sys.workers[id := Worker(Fetching(key, render))])
    case Step(id, outcome) =>
      var w := sys.workers[id];
      var (s, r) := Answer(sys.trail, Call(w.pass), outcome);
      System(sys.trail + [s], sys.workers[id := Worker(Next(w.pass, r))])
    case Crash(id) => sys.(workers := sys.workers - {id})
  }

  ghost predicate IsRun(s0: Store, actions: seq<Action>)
    decreases |actions|, 0
  {
    if actions == [] then WellFormed(s0)
    else
      && IsRun(s0, actions[..|actions| - 1])
      && Enabled(End(s0, actions[..|actions| - 1]), actions[|actions| - 1])
  }

  /** The system after a run that began with store `s0` and no pass in flight. */
  ghost function End(s0: Store, actions: seq<Action>): System
    requires IsRun(s0, actions)
    decreases |actions|, 1
  {
    if actions == [] then System([s0], map[])
    else Apply(End(s0, actions[..|actions| - 1]), actions[|actions| - 1])
  }

  lemma RunExtends(s0: Store, actions: seq<Action>, action: Action)
    requires IsRun(s0, actions) && Enabled(End(s0, actions), action)
    ensures IsRun(s0, actions + [action])
    ensures End(s0, actions + [action]) == Apply(End(s0, actions), action)
  {
  }

  // ---------------------------------------------------------------- what is known about a pass in flight

  /** The resource in memory is one that was stored, up to the defaulting of its spec. */
  ghost predicate ReadFrom(trail: seq<Store>, wp: WordPress, raw: WordPressSpec) {
    Seen(trail, wp.key, AsObject(wp.(spec := raw)))
  }

  ghost predicate Known(trail: seq<Store>, wp: WordPress) {
    exists raw :: ReadFrom(trail, wp, raw)
  }

  ghost predicate Admitted(trail: seq<Store>, p: Pass)
    requires p.Working?
  {
    Known(trail, p.wp) && !p.wp.meta.deleting && HasFinalizer(p.wp.meta)
  }

  ghost predicate Leaving(trail: seq<Store>, p: Pass)
    requires p.Working?
  {
    ReadFrom(trail, p.wp, p.wp.spec) && p.wp.meta.deleting && HasFinalizer(p.wp.meta)
  }

  ghost predicate Buildable(p: Pass, c: Child)
    requires p.Working?
  {
    Wanted(p.wp.spec, c) && p.render(p.wp, c).Some?
  }

  ghost predicate PointInv(trail: seq<Store>, p: Pass)
    requires p.Working?
  {
    match p.at
    case AddingFinalizer =>
      ReadFrom(trail, p.wp, p.wp.spec) && !p.wp.meta.deleting && !HasFinalizer(p.wp.meta)
    case CheckingSecret => Admitted(trail, p) && p.wp.spec.database.mode.External?
    case Reading(c) =>
      Admitted(trail, p) && (Buildable(p, c) || (!Wanted(p.wp.spec, c) && (c.SiteIngress? || c.Autoscaler?)))
    case Creating(c) => Admitted(trail, p) && Buildable(p, c)
    case Updating(c, found) =>
      && Admitted(trail, p) && Buildable(p, c) && !c.DbSecret? && !c.ContentClaim?
      && Seen(trail, ChildKey(c, p.key), found)
    case Deleting(c, found) =>
      && Admitted(trail, p) && !Wanted(p.wp.spec, c) && (c.SiteIngress? || c.Autoscaler?)
      && Seen(trail, ChildKey(c, p.key), found) && found.meta.controller == Some(p.wp.meta.uid)
    case ReadingStatus => Admitted(trail, p)
    case FetchingLatest(_, _) => Admitted(trail, p)
    case WritingStatus(_, _, latest) => Admitted(trail, p) && Seen(trail, p.key, latest)
    case FindingData => Leaving(trail, p) && p.wp.spec.database.mode.Internal? && !Retained(p.wp.meta)
    case DeletingData => Leaving(trail, p) && p.wp.spec.database.mode.Internal? && !Retained(p.wp.meta)
    case ReleasingResource => Leaving(trail, p)
  }

  ghost predicate PassInv(trail: seq<Store>, p: Pass) {
    && p.key.kind.WordPressKind? && Sound(p.render)
    && (p.Working? ==> p.wp.key == p.key && PointInv(trail, p))
  }

  ghost predicate Inv(sys: System) {
    && IsTrail(sys.trail)
    && forall id :: id in sys.workers ==> PassInv(sys.trail, sys.workers[id].pass)
  }

  // ---------------------------------------------------------------- the invariant is kept

  ghost predicate Steady(trail: seq<Store>, p: Pass) {
    && p.Working? && p.key.kind.WordPressKind? && Sound(p.render) && p.wp.key == p.key && Admitted(trail, p)
  }

  lemma ApproachInv(trail: seq<Store>, p: Pass, c: Child)
    requires Steady(trail, p) && (Wanted(p.wp.spec, c) || c.SiteIngress? || c.Autoscaler?)
    ensures PassInv(trail, Approach(p, c))
  {
  }

  lemma AfterDatabaseInv(trail: seq<Store>, p: Pass)
    requires Steady(trail, p)
    ensures PassInv(trail, AfterDatabase(p))
    ensures PassInv(trail, ApproachDeployment(p))
  {
  }

  lemma ProceedInv(trail: seq<Store>, p: Pass, c: Child)
    requires Steady(trail, p) && (Wanted(p.wp.spec, c) || c.SiteIngress? || c.Autoscaler?)
    ensures PassInv(trail, Proceed(p, c))
  {
    hide Approach, ApproachDeployment, AfterDatabase;
    match c
    case DbSecret => ApproachInv(trail, p, DbService);
    case DbService => ApproachInv(trail, p, DbStatefulSet);
    case DbStatefulSet | ContentClaim => AfterDatabaseInv(trail, p);
    case Deployment => ApproachInv(trail, p, SiteService);
    case SiteService => ApproachInv(trail, p, SiteIngress);
    case SiteIngress => ApproachInv(trail, p, Autoscaler);
    case Autoscaler =>
  }

  lemma SettleInv(trail: seq<Store>, p: Pass, c: Child, found: Option<Object>)
    requires Steady(trail, p) && Wanted(p.wp.spec, c)
    ensures PassInv(trail, Settle(p, c, found))
  {
    hide Proceed, SetCondition;
    forall q | Steady(trail, q) && q.wp == p.wp { ProceedInv(trail, q, c); }
  }

  lemma SecretsAndClaimsAreLeft(p: Pass, c: Child, found: Object)
    requires p.Working? && p.wp.key == p.key && Sound(p.render) && Buildable(p, c)
    ensures NeedsUpdate(found, Merge(found, p.render(p.wp, c).value)) ==> !c.DbSecret? && !c.ContentClaim?
  {
  }

  lemma AfterReadInv(trail: seq<Store>, p: Pass, r: Response)
    requires Steady(trail, p) && p.at.Reading? && PointInv(trail, p)
    requires r.Found? ==> Seen(trail, ChildKey(p.at.child, p.key), r.obj)
    ensures PassInv(trail, AfterRead(p, p.at.child, r))
  {
    hide Proceed, Settle, ChildKey, RemoveCondition, NeedsUpdate, Merge;
    var c := p.at.child;
    forall q | Steady(trail, q) && q.wp == p.wp { ProceedInv(trail, q, c); }
    if Wanted(p.wp.spec, c) && r.Found? {
      SettleInv(trail, p, c, Some(r.obj));
      SecretsAndClaimsAreLeft(p, c, r.obj);
    }
  }

  lemma AdmitInv(trail: seq<Store>, p: Pass, cr: WordPress)
    requires p.key.kind.WordPressKind? && Sound(p.render) && cr.key == p.key
    requires ReadFrom(trail, cr, cr.spec)
    ensures PassInv(trail, Admit(p, cr))
  {
    hide Defaulted, Validate, Approach, FailedStatus;
    if !cr.meta.deleting && HasFinalizer(cr.meta) {
      var w := Working(p.key, p.render, cr.(spec := Defaulted(cr.spec)), cr.status, AddingFinalizer);
      assert ReadFrom(trail, w.wp, cr.spec);
      if !w.wp.spec.database.mode.External? { ApproachInv(trail, w, DbSecret); }
    }
  }

  lemma FetchedInv(trail: seq<Store>, p: Pass, r: Response)
    requires PassInv(trail, p) && p.Fetching? && (r.Found? ==> Seen(trail, p.key, r.obj))
    ensures PassInv(trail, Next(p, r))
  {
    hide Admit, Sound;
    if r.Found? && r.obj.body.WordPressBody? {
      var cr := WordPress(p.key, r.obj.meta, r.obj.body.generation, r.obj.body.spec, r.obj.body.status);
      assert AsObject(cr.(spec := cr.spec)) == r.obj;
      assert ReadFrom(trail, cr, cr.spec);
      AdmitInv(trail, p, cr);
    }
  }

  predicate AtChild(at: Point) {
    at.Reading? || at.Creating? || at.Updating? || at.Deleting?
  }

  lemma ChildInv(trail: seq<Store>, p: Pass, r: Response)
    requires PassInv(trail, p) && p.Working? && AtChild(p.at)
    requires r.Found? ==> Seen(trail, Call(p).key, r.obj)
    ensures PassInv(trail, Next(p, r))
  {
    hide AfterRead, Settle, Proceed, Sound, Merge, ChildKey;
    match p.at
    case Reading(c) => AfterReadInv(trail, p, r);
    case Creating(c) => SettleInv(trail, p, c, None);
    case Updating(c, found) => SettleInv(trail, p, c, Some(found));
    case Deleting(c, _) => ProceedInv(trail, p, c);
  }

  lemma ElsewhereInv(trail: seq<Store>, p: Pass, r: Response)
    requires PassInv(trail, p) && p.Working? && !AtChild(p.at)
    requires r.Found? ==> Seen(trail, Call(p).key, r.obj)
    ensures PassInv(trail, Next(p, r))
  {
    hide AfterDatabase, Sound, ReportedStatus, SetCondition, ChildKey, Retained, ExternalSecretKey;
    if p.at.CheckingSecret? { AfterDatabaseInv(trail, Mark(p, EXTERNAL_OK)); }
  }

  lemma NextInv(trail: seq<Store>, p: Pass, r: Response)
    requires PassInv(trail, p) && !p.Finished?
    requires r.Found? ==> Seen(trail, Call(p).key, r.obj)
    ensures PassInv(trail, Next(p, r))
  {
    hide Next, PassInv, Seen;
    if p.Fetching? {
      FetchedInv(trail, p, r);
    } else if AtChild(p.at) {
      ChildInv(trail, p, r);
    } else {
      ElsewhereInv(trail, p, r);
    }
  }

  /** What was seen stays seen. */
  lemma PassInvExtends(trail: seq<Store>, s: Store, p: Pass)
    requires PassInv(trail, p)
    ensures PassInv(trail + [s], p)
  {
    hide Sound, ChildKey;
    forall k, o | Seen(trail, k, o) { SeenExtends(trail, s, k, o); }
    if p.Working? {
      if Known(trail, p.wp) {
        var raw :| ReadFrom(trail, p.wp, raw);
        assert ReadFrom(trail + [s], p.wp, raw);
      }
    }
  }

  lemma AnswerIsServerStep(trail: seq<Store>, req: Request, outcome: Outcome)
    requires IsTrail(trail) && (outcome.Stale? ==> outcome.i < |trail|)
    ensures ServerStep(Now(trail), Answer(trail, req, outcome).0)
    ensures Answer(trail, req, outcome).1.Found? ==> Seen(trail, req.key, Answer(trail, req, outcome).1.obj)
  {
    hide ExecCreate, ExecDelete, ExecUpdate, ExecUpdateStatus;
    TrailWellFormed(trail, |trail| - 1);
    ExecIsServerStep(Now(trail), req);
    StayIsServerStep(Now(trail));
    var r := Answer(trail, req, outcome).1;
    if r.Found? {
      var i := if outcome.Stale? && req.Get? then outcome.i else |trail| - 1;
      ExecFinds(Now(trail), req);
      assert StoredAt(trail, i, req.key, r.obj);
    }
  }

  lemma ExecFinds(s: Store, req: Request)
    ensures Exec(s, req).1.Found? ==> req.Get? && Exec(s, req).1 == Look(s, req.key)
  {
  }

  lemma ApplyInv(sys: System, action: Action)
    requires Inv(sys) && Enabled(sys, action)
    ensures Inv(Apply(sys, action))
  {
    hide PassInv, Next, Call, ServerStep, Answer, Sound, IsTrail;
    var sys' := Apply(sys, action);
    match action
    case Environment(s) =>
      TrailExtends(sys.trail, s);
      forall id | id in sys.workers { PassInvExtends(sys.trail, s, sys.workers[id].pass); }
    case Start(id, key, render) =>
      FetchingInv(sys.trail, key, render);
    case Step(id, outcome) =>
      var p := sys.workers[id].pass;
      var (s, r) := Answer(sys.trail, Call(p), outcome);
      AnswerIsServerStep(sys.trail, Call(p), outcome);
      TrailExtends(sys.trail, s);
      NextInv(sys.trail, p, r);
      PassInvExtends(sys.trail, s, Next(p, r));
      forall i | i in sys.workers { PassInvExtends(sys.trail, s, sys.workers[i].pass); }
    case Crash(id) =>
  }

  lemma FetchingInv(trail: seq<Store>, key: Key, render: Render)
    requires key.kind.WordPressKind? && Sound(render)
    ensures PassInv(trail, Fetching(key, render))
  {
  }

  /** The invariant holds after every run. */
  lemma {:induction false} RunInv(s0: Store, actions: seq<Action>)
    requires IsRun(s0, actions)
    ensures Inv(End(s0, actions))
    decreases |actions|
  {
    if actions != [] {
      hide Apply, Enabled, Inv;
      RunInv(s0, actions[..|actions| - 1]);
      ApplyInv(End(s0, actions[..|actions| - 1]), actions[|actions| - 1]);
    }
  }
}
