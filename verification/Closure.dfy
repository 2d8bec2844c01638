/**
 Crash-safe reference closure: a pass writes an object only when everything the object refers to by name is stored.

 The order in which a pass visits its children is what makes this hold at every intermediate state, even if the pass
 dies half-way, calls fail, reads are stale and other passes run at the same time.
 */
module Closure {
  import opened Types
  import opened Names
  import opened Conditions
  import opened Defaults
  import opened Drift
  import opened Server
  import opened Machine
  import opened System
  import opened Guarantee
  import opened Safety
  import Deletion

  // ---------------------------------------------------------------- the references in an object

  const PASSWORD_VARIABLES := ["WORDPRESS_DB_PASSWORD", "MYSQL_PASSWORD"]

  /** The operator's own password variable: the first of its name, as user variables are appended. */
  function PasswordRefs(env: seq<EnvVar>, ns: string): set<Key> {
    if env == [] then {}
    else if env[0].name in PASSWORD_VARIABLES && env[0].source.FromSecret? then
      {Key(SecretKind, ns, env[0].source.ref.name)}
    else PasswordRefs(env[1..], ns)
  }

  function VolumeRefs(volumes: seq<Volume>, ns: string): set<Key> {
    set v | v in volumes && v.ClaimVolume? :: Key(ClaimKind, ns, v.claim)
  }

  function TemplateRefs(t: PodTemplate, ns: string): set<Key> {
    VolumeRefs(t.volumes, ns) + if t.containers == [] then {} else PasswordRefs(t.containers[0].env, ns)
  }

  /** The Secret generated for `cr`, if any variable at all -- the root password, say -- reads it. */
  function GeneratedRefs(t: PodTemplate, cr: Key): set<Key> {
    if exists c, v ::
         c in t.containers && v in c.env && v.source.FromSecret? && v.source.ref.name == SecretNameOf(cr.name)
    then {ChildKey(DbSecret, cr)} else {}
  }

  /** What an object of the resource at `cr` refers to by name among the objects the operator manages, and the password
      Secret WordPress connects with. Secrets that only the user knows -- for TLS, for a root password of his own, in
      variables of his own -- are the user's to provide. */
  function References(body: Body, cr: Key): set<Key> {
    match body
    case StatefulSetBody(spec, _) =>
      {Key(ServiceKind, cr.ns, spec.serviceName)} + TemplateRefs(spec.template, cr.ns)
      + GeneratedRefs(spec.template, cr)
    case DeploymentBody(spec, _, _) => TemplateRefs(spec.template, cr.ns)
    case IngressBody(spec) => {Key(ServiceKind, cr.ns, spec.backendService)}
    case AutoscalerBody(spec) => {Key(DeploymentKind, cr.ns, spec.targetDeployment)}
    case _ => {}
  }

  function PasswordKey(wp: WordPress): Key {
    if wp.spec.database.mode.External? then ExternalSecretKey(wp) else ChildKey(DbSecret, wp.key)
  }

  /** What each child may refer to. */
  function MayReferTo(wp: WordPress, c: Child): set<Key> {
    match c
    case DbStatefulSet => {ChildKey(DbService, wp.key), ChildKey(DbSecret, wp.key)}
    case Deployment =>
      (if wp.spec.persistence.enabled then {ChildKey(ContentClaim, wp.key)} else {}) + {PasswordKey(wp)}
    case SiteIngress => {ChildKey(SiteService, wp.key)}
    case Autoscaler => {ChildKey(Deployment, wp.key)}
    case _ => {}
  }

  ghost predicate Linked(render: Render) {
    forall wp, c :: render(wp, c).Some? ==> References(render(wp, c).value.body, wp.key) <= MayReferTo(wp, c)
  }

  // ---------------------------------------------------------------- targets stay

  /** Nothing ever deletes these but an outsider. */
  ghost predicate Target(k: Key) {
    k.kind.SecretKind? || k.kind.ServiceKind? || k.kind.StatefulSetKind? || k.kind.DeploymentKind? ||
    (k.kind.ClaimKind? && forall cr :: k != DataKey(cr))
  }

  ghost predicate TargetsStay(s: Store, s': Store) {
    forall k :: Target(k) && k in s.objects ==> k in s'.objects
  }

  ghost function KeepsTargets(): (Store, Store) -> bool {
    (s: Store, s': Store) => TargetsStay(s, s')
  }

  lemma CallsKeepTargets(s: Store, s': Store, p: Pass)
    requires Effect(s, s', p) && Legal(p)
    ensures TargetsStay(s, s')
  {
  }

  lemma ContentIsTarget(c: Child, cr: Key)
    requires !c.SiteIngress? && !c.Autoscaler?
    ensures Target(ChildKey(c, cr))
  {
    if c.ContentClaim? {
      forall other ensures ChildKey(c, cr) != DataKey(other) {
        Footprint.DataKeyIsPrivate(other, cr);
      }
    }
  }

  // ---------------------------------------------------------------- what is in place when

  /** The number of children the pass has dealt with. */
  function Progress(p: Pass): nat
    requires p.Working?
  {
    match p.at
    case Reading(c) => Order(c)
    case Creating(c) => Order(c)
    case Updating(c, _) => Order(c)
    case Deleting(c, _) => Order(c)
    case ReadingStatus => 8
    case FetchingLatest(_, after) => if after.ThenReport? then 8 else 0
    case WritingStatus(_, after, _) => if after.ThenReport? then 8 else 0
    case _ => 0
  }

  ghost predicate InPlace(s: Store, wp: WordPress, c: Child) {
    Wanted(wp.spec, c) && !c.SiteIngress? && !c.Autoscaler? ==> ChildKey(c, wp.key) in s.objects
  }

  /** Every wanted child among the first `n` is stored, and so is an external password Secret once the database has been
      dealt with. */
  ghost predicate Laid(s: Store, wp: WordPress, n: nat) {
    && (forall c :: Order(c) < n ==> InPlace(s, wp, c))
    && (n > 2 && wp.spec.database.mode.External? ==> ExternalSecretKey(wp) in s.objects)
  }

  ghost predicate Grounded(s: Store, p: Pass) {
    p.Working? ==> Laid(s, p.wp, Progress(p))
  }

  ghost predicate ReferenceInv(sys: System) {
    && |sys.trail| > 0
    && (forall i :: 0 <= i < |sys.trail| ==> TargetsStay(sys.trail[i], Now(sys.trail)))
    && (forall id :: id in sys.workers ==> Grounded(Now(sys.trail), sys.workers[id].pass))
  }

  lemma LaidStays(s: Store, s': Store, wp: WordPress, n: nat)
    requires Laid(s, wp, n) && TargetsStay(s, s')
    ensures Laid(s', wp, n)
  {
    hide ChildKey, Target;
    forall c | Order(c) < n ensures InPlace(s', wp, c) {
      assert InPlace(s, wp, c);
      if !c.SiteIngress? && !c.Autoscaler? { ContentIsTarget(c, wp.key); }
    }
    SecretIsTarget(ExternalSecretKey(wp));
  }

  lemma SecretIsTarget(k: Key)
    ensures k.kind.SecretKind? ==> Target(k)
  {
  }

  lemma LaidNext(s: Store, wp: WordPress, c: Child)
    requires Laid(s, wp, Order(c)) && InPlace(s, wp, c)
    requires Order(c) == 2 ==> !wp.spec.database.mode.External?
    ensures Laid(s, wp, Order(c) + 1)
  {
  }

  lemma ApproachGrounded(s: Store, p: Pass, c: Child)
    requires p.Working? && Laid(s, p.wp, Order(c))
    ensures Grounded(s, Approach(p, c))
  {
  }

  lemma AfterDatabaseGrounded(s: Store, p: Pass)
    requires p.Working? && Laid(s, p.wp, 3)
    ensures Grounded(s, AfterDatabase(p))
  {
  }

  lemma ProceedGrounded(s: Store, p: Pass, c: Child)
    requires p.Working? && Laid(s, p.wp, Order(c)) && InPlace(s, p.wp, c)
    requires IsDatabase(c) ==> !p.wp.spec.database.mode.External?
    ensures Grounded(s, Proceed(p, c))
  {
    hide Approach, ResolvedHost, Laid, AfterDatabase, InPlace;
    LaidNext(s, p.wp, c);
    match c
    case DbSecret => ApproachGrounded(s, p, DbService);
    case DbService => ApproachGrounded(s, p, DbStatefulSet);
    case DbStatefulSet => AfterDatabaseGrounded(s, p);
    case ContentClaim =>
      ApproachGrounded(s, p.(status := p.status.(databaseHost := ResolvedHost(p.wp))), Deployment);
    case Deployment => ApproachGrounded(s, p, SiteService);
    case SiteService => ApproachGrounded(s, p, SiteIngress);
    case SiteIngress => ApproachGrounded(s, p, Autoscaler);
    case Autoscaler =>
  }

  lemma SettleGrounded(s: Store, p: Pass, c: Child, found: Option<Object>)
    requires p.Working? && Laid(s, p.wp, Order(c)) && InPlace(s, p.wp, c)
    requires IsDatabase(c) ==> !p.wp.spec.database.mode.External?
    ensures Grounded(s, Settle(p, c, found))
  {
    hide Proceed, SetCondition, Laid, InPlace, Grounded;
    forall q: Pass | q.Working? && q.wp == p.wp { ProceedGrounded(s, q, c); }
  }

  lemma AdmitGrounded(s: Store, p: Pass, cr: WordPress)
    ensures Grounded(s, Admit(p, cr))
  {
    hide Defaulted, Validate, FailedStatus;
  }

  lemma AfterReadGrounded(s: Store, p: Pass, c: Child, r: Response)
    requires p.Working? && Laid(s, p.wp, Order(c))
    requires if Wanted(p.wp.spec, c) then r.Found? ==> InPlace(s, p.wp, c) else c.SiteIngress? || c.Autoscaler?
    requires IsDatabase(c) ==> !p.wp.spec.database.mode.External?
    ensures Grounded(s, AfterRead(p, c, r))
  {
    hide Settle, Proceed, Merge, NeedsUpdate, RemoveCondition, ChildKey, ExternalSecretKey;
    if Wanted(p.wp.spec, c) {
      if r.Found? { SettleGrounded(s, p, c, Some(r.obj)); }
    } else {
      ProceedGrounded(s, p, c);
      var conditions := RemoveCondition(p.status.conditions, IngressConfigured);
      ProceedGrounded(s, p.(status := p.status.(conditions := conditions)), c);
    }
  }

  /** The answer to a pass's call puts the child it was about in place. */
  lemma NextGrounded(s: Store, p: Pass, r: Response, trail: seq<Store>)
    requires PassInv(trail, p) && !p.Finished? && Grounded(s, p)
    requires p.Working? && (p.at.Reading? || p.at.Creating? || p.at.Updating?) && Wanted(p.wp.spec, p.at.child) &&
             !r.Refused? && !p.at.child.SiteIngress? && !p.at.child.Autoscaler? ==>
               ChildKey(p.at.child, p.key) in s.objects
    requires p.Working? && p.at.CheckingSecret? && r.Found? ==> ExternalSecretKey(p.wp) in s.objects
    ensures Grounded(s, Next(p, r))
  {
    hide Admit, AfterRead, AfterDatabase, Settle, Proceed, Sound, ReportedStatus, SetCondition, ChildKey, ReadFrom,
      ExternalSecretKey;
    match p
    case Fetching(k, _) =>
      if r.Found? && r.obj.body.WordPressBody? {
        AdmitGrounded(s, p, WordPress(k, r.obj.meta, r.obj.body.generation, r.obj.body.spec, r.obj.body.status));
      }
    case Finished(_, _, _) =>
    case Working(_, _, wp, status, at) =>
      match at
      case CheckingSecret => if r.Found? { AfterDatabaseGrounded(s, Mark(p, EXTERNAL_OK)); }
      case Reading(c) => AfterReadGrounded(s, p, c, r);
      case Creating(c) => if !r.Refused? { SettleGrounded(s, p, c, None); }
      case Updating(c, found) => if !r.Refused? { SettleGrounded(s, p, c, Some(found)); }
      case Deleting(c, _) => if !r.Refused? { ProceedGrounded(s, p, c); }
      case _ =>
  }

  lemma AcceptedIsStored(trail: seq<Store>, req: Request, outcome: Outcome)
    requires |trail| > 0 && (outcome.Stale? ==> outcome.i < |trail|)
    ensures
      var (s, r) := Answer(trail, req, outcome);
      && (!r.Refused? && req.Create? ==> req.key in s.objects)
      && (!r.Refused? && req.Update? ==> req.key in Now(trail).objects)
      && (!r.Refused? && req.Get? ==> exists i :: 0 <= i < |trail| && req.key in trail[i].objects)
  {
  }

  lemma StepGrounded(sys: System, id: nat, outcome: Outcome)
    requires Inv(sys) && ReferenceInv(sys) && Enabled(sys, Step(id, outcome))
    ensures ReferenceInv(Apply(sys, Step(id, outcome)))
  {
    hide PassInv, Next, Effect, Answer, Legal, Grounded, TargetsStay, IsTrail, Call;
    var p := sys.workers[id].pass;
    var (s, r) := Answer(sys.trail, Call(p), outcome);
    var sys' := Apply(sys, Step(id, outcome));
    EffectOfStep(sys, id, outcome);
    PassIsLegal(sys, id);
    CallsKeepTargets(Now(sys.trail), s, p);
    StayTransitive(sys.trail, s);
    forall i | i in sys.workers ensures Grounded(s, sys.workers[i].pass) {
      GroundedStays(Now(sys.trail), s, sys.workers[i].pass);
    }
    AnswerPlaces(sys.trail, p, outcome);
    NextGrounded(s, p, r, sys.trail);
  }

  lemma GroundedStays(s: Store, s': Store, p: Pass)
    requires Grounded(s, p) && TargetsStay(s, s')
    ensures Grounded(s', p)
  {
    hide Laid, TargetsStay, Progress;
    if p.Working? { LaidStays(s, s', p.wp, Progress(p)); }
  }

  lemma StayTransitive(trail: seq<Store>, s: Store)
    requires |trail| > 0 && TargetsStay(Now(trail), s)
    requires forall i :: 0 <= i < |trail| ==> TargetsStay(trail[i], Now(trail))
    ensures forall i :: 0 <= i < |trail + [s]| ==> TargetsStay((trail + [s])[i], s)
  {
  }

  lemma AnswerPlaces(trail: seq<Store>, p: Pass, outcome: Outcome)
    requires IsTrail(trail) && PassInv(trail, p) && !p.Finished? && (outcome.Stale? ==> outcome.i < |trail|)
    requires forall i :: 0 <= i < |trail| ==> TargetsStay(trail[i], Now(trail))
    requires TargetsStay(Now(trail), Answer(trail, Call(p), outcome).0)
    ensures
      var (s, r) := Answer(trail, Call(p), outcome);
      && (p.Working? && (p.at.Reading? || p.at.Creating? || p.at.Updating?) && Wanted(p.wp.spec, p.at.child) &&
          !r.Refused? && !p.at.child.SiteIngress? && !p.at.child.Autoscaler? ==>
            ChildKey(p.at.child, p.key) in s.objects)
      && (p.Working? && p.at.CheckingSecret? && r.Found? ==> ExternalSecretKey(p.wp) in s.objects)
  {
    hide Answer, Sound, ChildKey, Target, Merge, ExternalSecretKey;
    var req := Call(p);
    var (s, r) := Answer(trail, req, outcome);
    AcceptedIsStored(trail, req, outcome);
    StayTransitive(trail, s);
    if p.Working? && !r.Refused? {
      if p.at.CheckingSecret? {
        SecretKinds(p.wp);
        SecretIsTarget(req.key);
      } else if (p.at.Reading? || p.at.Updating?) && !p.at.child.SiteIngress? && !p.at.child.Autoscaler? {
        ContentIsTarget(p.at.child, p.key);
      }
      if req.Get? {
        var i :| 0 <= i < |trail| && req.key in trail[i].objects;
        assert (trail + [s])[i] == trail[i];
      }
    }
  }

  lemma {:induction false} RunReferenceInv(s0: Store, actions: seq<Action>)
    requires IsRun(s0, actions) && Rely(s0, actions, KeepsTargets())
    ensures ReferenceInv(End(s0, actions))
    decreases |actions|
  {
    hide Inv, Target, Grounded;
    if actions != [] {
      var before, last := actions[..|actions| - 1], actions[|actions| - 1];
      var sys := End(s0, before);
      RunReferenceInv(s0, before);
      RunInv(s0, before);
      match last
      case Environment(s) =>
        StayTransitive(sys.trail, s);
        forall i | i in sys.workers { GroundedStays(Now(sys.trail), s, sys.workers[i].pass); }
      case Start(id, key, render) => FetchingGrounded(Now(sys.trail), key, render);
      case Step(id, outcome) => StepGrounded(sys, id, outcome);
      case Crash(id) =>
    } else {
      assert TargetsStay(s0, s0);
    }
  }

  lemma FetchingGrounded(s: Store, key: Key, render: Render)
    ensures Grounded(s, Fetching(key, render))
  {
  }

  lemma {:induction false} PrefixRely(s0: Store, some: seq<Action>, more: seq<Action>,
                                      promise: (Store, Store) -> bool)
    requires IsRun(s0, more) && some <= more && Rely(s0, more, promise)
    ensures IsRun(s0, some) && Rely(s0, some, promise)
    decreases |more|
  {
    if some != more {
      var before := more[..|more| - 1];
      assert some <= before;
      PrefixRely(s0, some, before, promise);
    }
  }

  /** Whatever a child may refer to comes before it. */
  lemma ReferredIsLaid(s: Store, p: Pass, k: Key)
    requires p.Working? && (p.at.Creating? || p.at.Updating?) && Grounded(s, p) && Legal(p) && Linked(p.render)
    requires k in References(Desired(p, p.at.child).body, p.key)
    ensures k in s.objects && Target(k)
  {
    hide Target, References, ChildKey, ExternalSecretKey, Sound;
    var c := p.at.child;
    assert k in MayReferTo(p.wp, c);
    forall d | Order(d) < Order(c) ensures InPlace(s, p.wp, d) {}
    assert Order(DbSecret) < Order(DbService) < Order(DbStatefulSet) < Order(ContentClaim) < Order(Deployment);
    assert Order(Deployment) < Order(SiteService) < Order(SiteIngress) < Order(Autoscaler);
    assert Laid(s, p.wp, Order(c));
    forall d: Child | !d.SiteIngress? && !d.Autoscaler? { ContentIsTarget(d, p.key); }
    SecretIsTarget(k);
    SecretKinds(p.wp);
  }

  lemma SecretKinds(wp: WordPress)
    ensures ExternalSecretKey(wp).kind.SecretKind?
  {
  }

  lemma ReferredStays(s: Store, s': Store, k: Key)
    requires TargetsStay(s, s') && Target(k)
    ensures k in s.objects ==> k in s'.objects
  {
  }

  /** At every point of every run: when a pass creates or updates an object, everything the builder's object refers to
      is already stored -- and stays stored for the rest of every run that goes on from there. */
  lemma ReferencesAlwaysResolve(s0: Store, actions: seq<Action>, more: seq<Action>, id: nat, outcome: Outcome,
                                p: Pass, s: Store, s': Store, k: Key)
    requires CallOfRun(s0, actions, id, outcome, p, s, s') && p.Working? && (p.at.Creating? || p.at.Updating?)
    requires IsRun(s0, more) && actions <= more && Rely(s0, more, KeepsTargets()) && Linked(p.render)
    requires k in References(Desired(p, p.at.child).body, p.key)
    ensures k in s.objects && k in Now(End(s0, more).trail).objects
  {
    hide Effect, Legal, Inv, ChildKey, Target, References, ExternalSecretKey, TargetsStay;
    CallFacts(s0, actions, id, outcome, p, s, s');
    PrefixRely(s0, actions, more, KeepsTargets());
    RunReferenceInv(s0, actions);
    RunReferenceInv(s0, more);
    Deletion.PrefixTrail(s0, actions, more);
    var t := End(s0, more).trail;
    var now := |End(s0, actions).trail| - 1;
    assert t[now] == s;
    ReferredIsLaid(s, p, k);
    assert TargetsStay(t[now], Now(t));
    ReferredStays(s, Now(t), k);
  }
}
