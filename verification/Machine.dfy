/**
 One pass of `Reconcile`, as a machine that makes one API call per step.

 `Call` is the call a pass is about to make, `Next` what it does with the answer.  Whatever runs between two calls
 of the Go code happens inside `Next`.  The machine takes the builders as a parameter: `render(wp, child)` is the
 object the builder of that child returns for the resource as the pass holds it in memory, or None if the builder
 reports an error.  Reconciler.dfy proves that the reconcile helpers, written as methods, behave like this machine.
 */
module Machine {
  import opened Types
  import opened Names
  import opened Conditions
  import opened Defaults
  import opened Drift
  import opened Server

  type Render = (WordPress, Child) -> Option<Object>

  datatype Result = Result(error: Option<Error>, requeueAfter: nat)

  const QUIET := Result(None, 0)
  const WAIT_FOR_SECRET := 30
  const WAIT_FOR_READY := 15
  const WRITE_ATTEMPTS := 5

  /** What follows once the status was written, or could not be. */
  datatype After = ThenGiveUp | ThenReturn(error: Error) | ThenWait | ThenReport

  datatype Point =
    | AddingFinalizer
    | CheckingSecret
    | Reading(child: Child)
    | Creating(child: Child)
    | Updating(child: Child, found: Object)
    | Deleting(child: Child, found: Object)
    | ReadingStatus
    | FetchingLatest(attempt: nat, after: After)
    | WritingStatus(attempt: nat, after: After, latest: Object)
    | FindingData
    | DeletingData
    | ReleasingResource

  /** `wp` is the resource in memory: its spec is defaulted except at AddingFinalizer and while handling a deletion.
      `status` is the status in memory, which the helpers update as they go. */
  datatype Pass =
    | Fetching(key: Key, render: Render)
    | Working(key: Key, render: Render, wp: WordPress, status: WordPressStatus, at: Point)
    | Finished(key: Key, render: Render, result: Result)

  // ---------------------------------------------------------------- small helpers

  function Finish(p: Pass, error: Option<Error>): Pass {
    Finished(p.key, p.render, Result(error, 0))
  }

  /** `ignoreConflict`. */
  function Swallow(e: Error): Option<Error> {
    if e == Conflict then None else Some(e)
  }

  predicate HasFinalizer(m: Meta) { FINALIZER in m.finalizers }

  predicate Retained(m: Meta) {
    m.annotations.Some? && RETAIN_DATA in m.annotations.value && m.annotations.value[RETAIN_DATA] == "true"
  }

  function Without(fs: seq<string>, f: string): seq<string> {
    if fs == [] then [] else if fs[0] == f then Without(fs[1..], f) else [fs[0]] + Without(fs[1..], f)
  }

  function AsObject(wp: WordPress): Object {
    Object(wp.meta, WordPressBody(wp.generation, wp.spec, wp.status))
  }

  function Jump(p: Pass, at: Point): Pass
    requires p.Working?
  {
    p.(at := at)
  }

  function Mark(p: Pass, c: Condition): Pass
    requires p.Working?
  {
    p.(status := p.status.(conditions := SetCondition(p.status.conditions, c)))
  }

  predicate IsDatabase(c: Child) { c.DbSecret? || c.DbService? || c.DbStatefulSet? }

  /** Whether the spec asks for the child. Only an Ingress or an autoscaler is looked for when it is not wanted. */
  predicate Wanted(s: WordPressSpec, c: Child) {
    match c
    case DbSecret | DbService | DbStatefulSet => !s.database.mode.External?
    case ContentClaim => s.persistence.enabled
    case Deployment | SiteService => true
    case SiteIngress => s.ingress.enabled
    case Autoscaler => s.autoscaling.enabled
  }

  function ExternalSecretKey(wp: WordPress): Key {
    Key(SecretKind, wp.key.ns,
        if wp.spec.database.external.Some? then wp.spec.database.external.value.passwordSecret.name else "")
  }

  function ResolvedHost(wp: WordPress): string {
    if wp.spec.database.mode.External? && wp.spec.database.external.Some? then wp.spec.database.external.value.host
    else DatabaseName(wp.key.name) + "." + wp.key.ns + ".svc"
  }

  // ---------------------------------------------------------------- conditions the helpers set

  function DatabaseCondition(readyPods: int): Condition {
    if readyPods >= 1 then Condition(DatabaseReady, true, MySQLReady, Plain)
    else Condition(DatabaseReady, false, MySQLNotReady, Plain)
  }

  function SecretMissing(wp: WordPress): Condition {
    Condition(DatabaseReady, false, ExternalSecretMissing, SecretName(ExternalSecretKey(wp).name))
  }

  const EXTERNAL_OK := Condition(DatabaseReady, true, ExternalDatabase, Plain)
  const INGRESS_CREATED := Condition(IngressConfigured, true, Created, Plain)
  const INGRESS_RECONCILED := Condition(IngressConfigured, true, Reconciled, Plain)

  function FailedStatus(st: WordPressStatus, e: SpecError): WordPressStatus {
    st.(phase := Failed,
        conditions := SetCondition(st.conditions, Condition(ReadyCondition, false, InvalidSpec, Rejected(e))))
  }

  /** `updateStatus`, up to the write: `total` and `ready` are the replica counts of the Deployment just read. */
  function ReportedStatus(wp: WordPress, st: WordPressStatus, total: int, ready: int): WordPressStatus {
    var depReady := ready > 0 && ready == total;
    var cs := SetCondition(st.conditions,
                           if depReady then Condition(DeploymentReady, true, AllReplicasReady, Plain)
                           else Condition(DeploymentReady, false, Progressing, ReplicaCount(ready, total)));
    var allReady := Holds(cs, DatabaseReady) && depReady;
    WordPressStatus(
      wp.generation,
      if allReady then Ready else Provisioning,
      ComputeUrl(wp.spec), total, ready, st.databaseHost,
      SetCondition(cs, if allReady then Condition(ReadyCondition, true, AllReady, Plain)
                       else Condition(ReadyCondition, false, Progressing, Plain)))
  }

  // ---------------------------------------------------------------- moving between children

  /** A helper returns error `e`: the database helper's errors still persist the status first. */
  function Fail(p: Pass, c: Child, e: Error): Pass
    requires p.Working?
  {
    if IsDatabase(c) then Jump(p, FetchingLatest(0, ThenReturn(e))) else Finish(p, Swallow(e))
  }

  /** Build the desired object first, then read the existing one. */
  function Approach(p: Pass, c: Child): Pass
    requires p.Working?
  {
    if Wanted(p.wp.spec, c) && p.render(p.wp, c).None? then Fail(p, c, Other) else Jump(p, Reading(c))
  }

  function ApproachDeployment(p: Pass): Pass
    requires p.Working?
  {
    Approach(p.(status := p.status.(databaseHost := ResolvedHost(p.wp))), Deployment)
  }

  function AfterDatabase(p: Pass): Pass
    requires p.Working?
  {
    if p.wp.spec.persistence.enabled then Approach(p, ContentClaim) else ApproachDeployment(p)
  }

  function Begin(p: Pass): Pass
    requires p.Working?
  {
    if p.wp.spec.database.mode.External? then Jump(p, CheckingSecret) else Approach(p, DbSecret)
  }

  function Proceed(p: Pass, c: Child): Pass
    requires p.Working?
  {
    match c
    case DbSecret => Approach(p, DbService)
    case DbService => Approach(p, DbStatefulSet)
    case DbStatefulSet => AfterDatabase(p)
    case ContentClaim => ApproachDeployment(p)
    case Deployment => Approach(p, SiteService)
    case SiteService => Approach(p, SiteIngress)
    case SiteIngress => Approach(p, Autoscaler)
    case Autoscaler => Jump(p, ReadingStatus)
  }

  /** The wanted child is in place: it was created (`found` is None), or it was read and, if need be, updated. */
  function Settle(p: Pass, c: Child, found: Option<Object>): Pass
    requires p.Working?
  {
    match c
    case DbStatefulSet =>
      var readyPods := if found.Some? && found.value.body.StatefulSetBody? then found.value.body.readyPods else 0;
      Proceed(Mark(p, DatabaseCondition(readyPods)), c)
    case SiteIngress => Proceed(Mark(p, if found.None? then INGRESS_CREATED else INGRESS_RECONCILED), c)
    case _ => Proceed(p, c)
  }

  function AfterRead(p: Pass, c: Child, r: Response): Pass
    requires p.Working?
  {
    match r
    case Found(o) =>
      if !Wanted(p.wp.spec, c) then
        if o.meta.controller == Some(p.wp.meta.uid) then Jump(p, Deleting(c, o)) else Proceed(p, c)
      else if p.render(p.wp, c).Some? && NeedsUpdate(o, Merge(o, p.render(p.wp, c).value)) then
        Jump(p, Updating(c, o))
      else Settle(p, c, Some(o))
    case Refused(NotFound) =>
      if Wanted(p.wp.spec, c) then Jump(p, Creating(c))
      else if c.SiteIngress? then
        Proceed(p.(status := p.status.(conditions := RemoveCondition(p.status.conditions, IngressConfigured))), c)
      else Proceed(p, c)
    case Refused(e) => Fail(p, c, e)
    case Done => Fail(p, c, Other)
  }

  // ---------------------------------------------------------------- the resource itself

  function Admit(p: Pass, cr: WordPress): Pass {
    var q := Working(p.key, p.render, cr, cr.status, AddingFinalizer);
    if cr.meta.deleting then
      if !HasFinalizer(cr.meta) then Finish(p, None)
      else if cr.spec.database.mode.Internal? && !Retained(cr.meta) then Jump(q, FindingData)
      else Jump(q, ReleasingResource)
    else if !HasFinalizer(cr.meta) then q
    else
      var w := q.(wp := cr.(spec := Defaulted(cr.spec)));
      match Validate(w.wp.spec)
      case Some(e) => Jump(w.(status := FailedStatus(w.status, e)), FetchingLatest(0, ThenGiveUp))
      case None => Begin(w)
  }

  function Persisted(p: Pass, after: After, error: Option<Error>): Pass
    requires p.Working?
  {
    match after
    case ThenGiveUp => Finish(p, None)
    case ThenReturn(e) => Finish(p, Swallow(e))
    case ThenWait => Finished(p.key, p.render, Result(error, WAIT_FOR_SECRET))
    case ThenReport =>
      match error
      case Some(e) => Finish(p, Swallow(e))
      case None => Finished(p.key, p.render, Result(None, if p.status.phase.Ready? then 0 else WAIT_FOR_READY))
  }

  /** `RetryOnConflict`: a conflict starts the next attempt, until the attempts are used up. */
  function Retry(p: Pass, attempt: nat, after: After): Pass
    requires p.Working?
  {
    if attempt + 1 < WRITE_ATTEMPTS then Jump(p, FetchingLatest(attempt + 1, after))
    else Persisted(p, after, Some(Conflict))
  }

  // ---------------------------------------------------------------- the machine

  function StatusPatch(latest: Object, status: WordPressStatus): Object {
    match latest.body
    case WordPressBody(g, spec, _) => latest.(body := WordPressBody(g, spec, status))
    case _ => latest
  }

  function Call(p: Pass): Request
    requires !p.Finished?
  {
    match p
    case Fetching(k, _) => Get(k)
    case Working(k, _, wp, status, at) =>
      match at
      case AddingFinalizer =>
        Update(k, AsObject(wp.(meta := wp.meta.(finalizers := wp.meta.finalizers + [FINALIZER]))))
      case CheckingSecret => Get(ExternalSecretKey(wp))
      case Reading(c) => Get(ChildKey(c, k))
      case Creating(c) => Create(ChildKey(c, k), Desired(p, c))
      case Updating(c, found) => Update(ChildKey(c, k), Merge(found, Desired(p, c)))
      case Deleting(c, _) => Delete(ChildKey(c, k))
      case ReadingStatus => Get(ChildKey(Deployment, k))
      case FetchingLatest(_, _) => Get(k)
      case WritingStatus(_, _, latest) => UpdateStatus(k, StatusPatch(latest, status))
      case FindingData => Get(DataKey(k))
      case DeletingData => Delete(DataKey(k))
      case ReleasingResource =>
        Update(k, AsObject(wp.(meta := wp.meta.(finalizers := Without(wp.meta.finalizers, FINALIZER)))))
  }

  function Desired(p: Pass, c: Child): Object
    requires p.Working?
  {
    match p.render(p.wp, c)
    case Some(o) => o
    case None => AsObject(p.wp)
  }

  function Next(p: Pass, r: Response): Pass
    requires !p.Finished?
  {
    match p
    case Fetching(k, _) =>
      (match r
       case Found(o) =>
         if o.body.WordPressBody? then Admit(p, WordPress(k, o.meta, o.body.generation, o.body.spec, o.body.status))
         else Finish(p, Some(Other))
       case Refused(e) => Finish(p, if e == NotFound then None else Some(e))
       case Done => Finish(p, Some(Other)))
    case Working(_, _, wp, status, at) =>
      match at
      case AddingFinalizer => Finish(p, if r.Refused? then Some(r.error) else None)
      case CheckingSecret =>
        if r.Found? then AfterDatabase(Mark(p, EXTERNAL_OK))
        else if r == Refused(NotFound) then Jump(Mark(p, SecretMissing(wp)), FetchingLatest(0, ThenWait))
        else Fail(p, DbSecret, if r.Refused? then r.error else Other)
      case Reading(c) => AfterRead(p, c, r)
      case Creating(c) => if r.Refused? then Fail(p, c, r.error) else Settle(p, c, None)
      case Updating(c, found) => if r.Refused? then Fail(p, c, r.error) else Settle(p, c, Some(found))
      case Deleting(c, _) => if r.Refused? then Fail(p, c, r.error) else Proceed(p, c)
      case ReadingStatus =>
        if r.Found? && r.obj.body.DeploymentBody? then
          Jump(p.(status := ReportedStatus(wp, status, r.obj.body.replicas, r.obj.body.readyReplicas)),
               FetchingLatest(0, ThenReport))
        else if r == Refused(NotFound) then
          Jump(p.(status := ReportedStatus(wp, status, 0, 0)), FetchingLatest(0, ThenReport))
        else Finish(p, if r.Refused? then Swallow(r.error) else Some(Other))
      case FetchingLatest(attempt, after) =>
        if r.Found? then Jump(p, WritingStatus(attempt, after, r.obj))
        else if r == Refused(Conflict) then Retry(p, attempt, after)
        else Persisted(p, after, Some(if r.Refused? then r.error else Other))
      case WritingStatus(attempt, after, _) =>
        if r == Refused(Conflict) then Retry(p, attempt, after)
        else Persisted(p, after, if r.Refused? then Some(r.error) else None)
      case FindingData =>
        if r.Found? then Jump(p, DeletingData)
        else if r == Refused(NotFound) then Jump(p, ReleasingResource)
        else Finish(p, Some(if r.Refused? then r.error else Other))
      case DeletingData =>
        if r.Refused? && r.error != NotFound then Finish(p, Some(r.error)) else Jump(p, ReleasingResource)
      case ReleasingResource => Finish(p, if r.Refused? then Swallow(r.error) else None)
  }

  // ---------------------------------------------------------------- termination

  function ChildRank(c: Child): nat {
    match c
    case DbSecret => 26
    case DbService => 24
    case DbStatefulSet => 22
    case ContentClaim => 20
    case Deployment => 18
    case SiteService => 16
    case SiteIngress => 14
    case Autoscaler => 12
  }

  /** How many more calls a pass can make at most. */
  function Rank(p: Pass): nat {
    match p
    case Fetching(_, _) => 28
    case Finished(_, _, _) => 0
    case Working(_, _, _, _, at) =>
      match at
      case AddingFinalizer => 1
      case CheckingSecret => 22
      case Reading(c) => ChildRank(c) + 1
      case Creating(c) => ChildRank(c)
      case Updating(c, _) => ChildRank(c)
      case Deleting(c, _) => ChildRank(c)
      case ReadingStatus => 11
      case FetchingLatest(attempt, _) => if attempt < WRITE_ATTEMPTS then 2 * (WRITE_ATTEMPTS - attempt) else 2
      case WritingStatus(attempt, _, _) => if attempt < WRITE_ATTEMPTS then 2 * (WRITE_ATTEMPTS - attempt) - 1 else 1
      case FindingData => 3
      case DeletingData => 2
      case ReleasingResource => 1
  }

  lemma ProceedRank(p: Pass, c: Child)
    requires p.Working?
    ensures Rank(Proceed(p, c)) < ChildRank(c)
  {
  }

  lemma AfterDatabaseRank(p: Pass)
    requires p.Working?
    ensures Rank(AfterDatabase(p)) < ChildRank(DbStatefulSet)
  {
  }

  lemma SettleRank(p: Pass, c: Child, found: Option<Object>)
    requires p.Working?
    ensures Rank(Settle(p, c, found)) < ChildRank(c)
  {
  }

  lemma AfterReadRank(p: Pass, c: Child, r: Response)
    requires p.Working?
    ensures Rank(AfterRead(p, c, r)) <= ChildRank(c)
  {
    hide Settle, Proceed, RemoveCondition, Merge, NeedsUpdate, Wanted;
    ProceedRank(p, c);
    ProceedRank(p.(status := p.status.(conditions := RemoveCondition(p.status.conditions, IngressConfigured))), c);
    if r.Found? { SettleRank(p, c, Some(r.obj)); }
  }

  lemma AdmitRank(p: Pass, cr: WordPress)
    ensures Rank(Admit(p, cr)) < 28
  {
  }

  lemma RankDecreases(p: Pass, r: Response)
    requires !p.Finished?
    ensures Rank(Next(p, r)) < Rank(p)
  {
    hide Admit, AfterRead, Settle, Proceed, AfterDatabase, ReportedStatus, SetCondition;
    match p
    case Fetching(k, _) =>
      if r.Found? && r.obj.body.WordPressBody? {
        AdmitRank(p, WordPress(k, r.obj.meta, r.obj.body.generation, r.obj.body.spec, r.obj.body.status));
      }
    case Working(_, _, _, _, at) =>
      match at
      case CheckingSecret => AfterDatabaseRank(Mark(p, EXTERNAL_OK));
      case Reading(c) => AfterReadRank(p, c, r);
      case Creating(c) => SettleRank(p, c, None);
      case Updating(c, found) => SettleRank(p, c, Some(found));
      case Deleting(c, _) => ProceedRank(p, c);
      case _ =>
  }

  // ---------------------------------------------------------------- what a pass never changes

  /** The pass goes on for the same key, and with the same resource in memory; the external Secret is behind it. */
  ghost predicate Continues(p: Pass, q: Pass) {
    && q.key == p.key && q.render == p.render && !q.Fetching?
    && (p.Working? && q.Working? ==> q.wp == p.wp && !q.at.CheckingSecret?)
  }

  lemma ProceedContinues(p: Pass, c: Child)
    requires p.Working?
    ensures Continues(p, Proceed(p, c)) && Continues(p, AfterDatabase(p))
  {
  }

  lemma SettleContinues(p: Pass, c: Child, found: Option<Object>)
    requires p.Working?
    ensures Continues(p, Settle(p, c, found))
  {
    hide Proceed, SetCondition;
    forall q: Pass | q.Working? { ProceedContinues(q, c); }
  }

  lemma AfterReadContinues(p: Pass, c: Child, r: Response)
    requires p.Working?
    ensures Continues(p, AfterRead(p, c, r))
  {
    hide Proceed, Settle, RemoveCondition, Merge, NeedsUpdate, Wanted;
    ProceedContinues(p, c);
    ProceedContinues(p.(status := p.status.(conditions := RemoveCondition(p.status.conditions, IngressConfigured))), c);
    if r.Found? { SettleContinues(p, c, Some(r.obj)); }
  }

  lemma AdmitContinues(p: Pass, cr: WordPress)
    ensures Admit(p, cr).key == p.key && Admit(p, cr).render == p.render && !Admit(p, cr).Fetching?
    ensures Admit(p, cr).Working? ==>
              (Admit(p, cr).wp == cr || Admit(p, cr).wp == cr.(spec := Defaulted(cr.spec))) &&
              (Admit(p, cr).at.CheckingSecret? ==> Admit(p, cr).wp.spec.database.mode.External?)
  {
    hide Defaulted, Validate, FailedStatus, Retained;
  }

  lemma NextContinues(p: Pass, r: Response)
    requires !p.Finished?
    ensures Continues(p, Next(p, r))
  {
    hide Admit, AfterRead, Settle, Proceed, AfterDatabase, ReportedStatus, SetCondition;
    match p
    case Fetching(k, _) =>
      if r.Found? && r.obj.body.WordPressBody? {
        AdmitContinues(p, WordPress(k, r.obj.meta, r.obj.body.generation, r.obj.body.spec, r.obj.body.status));
      }
    case Working(_, _, _, _, at) =>
      match at
      case CheckingSecret => ProceedContinues(Mark(p, EXTERNAL_OK), DbSecret);
      case Reading(c) => AfterReadContinues(p, c, r);
      case Creating(c) => SettleContinues(p, c, None);
      case Updating(c, found) => SettleContinues(p, c, Some(found));
      case Deleting(c, _) => ProceedContinues(p, c);
      case _ =>
  }
}
