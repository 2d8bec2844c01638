/** `status.observedGeneration`: what it says about the children when a pass saves it. */
module Generation {
  import opened Types
  import opened Names
  import opened Conditions
  import opened Defaults
  import opened Drift
  import opened Server
  import opened Machine
  import opened OnePass
  import Closure

  // ---------------------------------------------------------------- a report covers every child

  /** The answer to the pass's call shows that child `c` is now as the spec wants it: it was read and agrees with the
      builder, or its creation or update was accepted; or, if it is not wanted, it is absent, somebody else's, or its
      deletion was accepted. */
  ghost predicate Handles(p: Pass, r: Response, c: Child) {
    p.Working? &&
    match p.at
    case Reading(d) =>
      && d == c
      && (if Wanted(p.wp.spec, c) then
            && r.Found? && p.render(p.wp, c).Some?
            && (KindOf(r.obj.body) == KindOf(p.render(p.wp, c).value.body) ==> Agrees(r.obj, p.render(p.wp, c).value))
          else r == Refused(NotFound) || (r.Found? && r.obj.meta.controller != Some(p.wp.meta.uid)))
    case Creating(d) => d == c && !r.Refused?
    case Updating(d, _) => d == c && !r.Refused?
    case Deleting(d, _) => d == c && !r.Refused?
    case _ => false
  }

  ghost predicate Handled(p: Pass, answers: seq<Response>, c: Child) {
    exists n :: 0 <= n < |answers| && Handles(Feed(p, answers[..n]), answers[n], c)
  }

  /** An Ingress or autoscaler matters even when it is not wanted. */
  predicate Matters(spec: WordPressSpec, c: Child) {
    Wanted(spec, c) || c.SiteIngress? || c.Autoscaler?
  }

  /** How far a pass has come; 0 before it has read the resource. */
  function Reach(p: Pass): nat {
    if p.Working? then Closure.Progress(p) else 0
  }

  /** Nothing is read before it was built, and the external Secret is read in External mode only. */
  ghost predicate Prepared(p: Pass) {
    && (p.Working? && p.at.Reading? && Wanted(p.wp.spec, p.at.child) ==> p.render(p.wp, p.at.child).Some?)
    && (p.Working? && p.at.CheckingSecret? ==> p.wp.spec.database.mode.External?)
  }

  lemma AfterDatabaseReach(p: Pass, c: Child)
    requires p.Working?
    ensures Prepared(AfterDatabase(p)) && Prepared(ApproachDeployment(p))
    ensures Reach(ApproachDeployment(p)) <= 4 && Reach(AfterDatabase(p)) <= 4
    ensures Order(c) < Reach(AfterDatabase(p)) && Matters(p.wp.spec, c) ==> Order(c) < 3
  {
  }

  lemma ClaimIsThird(spec: WordPressSpec, c: Child)
    ensures Order(c) == 3 ==> c.ContentClaim?
    ensures Order(c) < 3 <==> IsDatabase(c)
    ensures Matters(spec, ContentClaim) <==> spec.persistence.enabled
    ensures IsDatabase(c) ==> (Matters(spec, c) <==> !spec.database.mode.External?)
  {
  }

  lemma ProceedReach(p: Pass, c: Child, d: Child)
    requires p.Working?
    ensures Prepared(Proceed(p, c))
    ensures Order(d) < Reach(Proceed(p, c)) && Matters(p.wp.spec, d) ==> Order(d) <= Order(c)
  {
  }

  lemma OrderIsInjective(c: Child, d: Child)
    ensures Order(c) == Order(d) <==> c == d
    ensures Order(c) < 8
  {
  }

  lemma SettleReach(p: Pass, c: Child, found: Option<Object>, d: Child)
    requires p.Working?
    ensures Prepared(Settle(p, c, found))
    ensures Order(d) < Reach(Settle(p, c, found)) && Matters(p.wp.spec, d) ==>
              Order(d) <= Order(c)
  {
    hide Proceed, SetCondition, Matters, Prepared;
    forall q: Pass | q.Working? { ProceedReach(q, c, d); }
  }

  /** Reading child `c` and going on handles it, whatever `d` was before it. */
  lemma AfterReadHandles(p: Pass, c: Child, r: Response, d: Child)
    requires p.Working? && p.at == Reading(c) && Prepared(p) && Matters(p.wp.spec, d)
    ensures
      var q := AfterRead(p, c, r);
      && Prepared(q)
      && (q.Working? && Order(d) < Reach(q) ==> Order(d) < Order(c) || Handles(p, r, d))
  {
    hide Proceed, Settle, SetCondition, RemoveCondition, Merge, NeedsUpdate, Agrees, Matters;
    OrderIsInjective(c, d);
    if Wanted(p.wp.spec, c) {
      if r.Found? {
        SettleReach(p, c, Some(r.obj), d);
        var desired := p.render(p.wp, c).value;
        if KindOf(r.obj.body) == KindOf(desired.body) { MergeMeetsDesired(r.obj, desired); }
      }
    } else {
      ProceedReach(p, c, d);
      var conditions := RemoveCondition(p.status.conditions, IngressConfigured);
      ProceedReach(p.(status := p.status.(conditions := conditions)), c, d);
    }
  }

  /** A step past a child handles it. */
  lemma StepHandles(p: Pass, r: Response, d: Child)
    requires p.Working? && Prepared(p) && Matters(p.wp.spec, d)
    ensures Prepared(Next(p, r))
    ensures Next(p, r).Working? && Order(d) < Reach(Next(p, r)) ==> Order(d) < Reach(p) || Handles(p, r, d)
  {
    hide Proceed, AfterDatabase, AfterRead, Settle, ReportedStatus, SetCondition, Agrees, Matters;
    match p.at
    case CheckingSecret =>
      AfterDatabaseReach(Mark(p, EXTERNAL_OK), d);
      ClaimIsThird(p.wp.spec, d);
    case Reading(c) => AfterReadHandles(p, c, r, d);
    case Creating(c) => OrderIsInjective(c, d); SettleReach(p, c, None, d);
    case Updating(c, found) => OrderIsInjective(c, d); SettleReach(p, c, Some(found), d);
    case Deleting(c, _) => OrderIsInjective(c, d); ProceedReach(p, c, d);
    case _ =>
  }

  lemma FetchedReach(p: Pass, r: Response)
    requires p.Fetching?
    ensures Reach(Next(p, r)) == 0 && Prepared(Next(p, r))
  {
  }

  lemma FinishedReach(p: Pass)
    ensures !p.Working? ==> Reach(p) == 0 && Prepared(p)
  {
  }

  lemma {:induction false} PassHandles(p: Pass, answers: seq<Response>, d: Child)
    requires p.Fetching?
    ensures
      var q := Feed(p, answers);
      && Prepared(q)
      && (q.Working? && Matters(q.wp.spec, d) && Order(d) < Reach(q) ==> Handled(p, answers, d))
    decreases |answers|
  {
    hide Next, Prepared, Reach, Matters, Handles;
    if answers == [] {
      FinishedReach(p);
    } else {
      var before, r := answers[..|answers| - 1], answers[|answers| - 1];
      assert answers == before + [r];
      PassHandles(p, before, d);
      FeedLast(p, before, r);
      var q0 := Feed(p, before);
      if q0.Fetching? {
        FetchedReach(q0, r);
      } else if q0.Working? {
        var q := Next(q0, r);
        NextContinues(q0, r);
        if Matters(q0.wp.spec, d) {
          StepHandles(q0, r, d);
          if q.Working? && Order(d) < Reach(q) {
            if Handles(q0, r, d) {
              assert Handles(Feed(p, answers[..|before|]), answers[|before|], d);
            } else {
              var n :| 0 <= n < |before| && Handles(Feed(p, before[..n]), before[n], d);
              assert before[..n] == answers[..n];
            }
          }
        }
        PreparedStays(q0, r);
      }
    }
  }

  lemma PreparedStays(p: Pass, r: Response)
    requires p.Working? && Prepared(p)
    ensures Prepared(Next(p, r))
  {
    hide Next, Prepared;
    StepHandles(p, r, Deployment);
  }

  /** What the pass holds in memory of the resource it read first. */
  ghost predicate Remembers(p: Pass, first: Object) {
    p.Working? ==>
      && first.body.WordPressBody?
      && p.wp == WordPress(p.key, first.meta, first.body.generation, p.wp.spec, first.body.status)
      && (p.at.FetchingLatest? || p.at.WritingStatus? ==>
            p.status.observedGeneration ==
            if p.at.after.ThenReport? then first.body.generation else first.body.status.observedGeneration)
      && (!p.at.FetchingLatest? && !p.at.WritingStatus? ==>
            p.status.observedGeneration == first.body.status.observedGeneration)
      && (p.at.AddingFinalizer? || p.at.FindingData? || p.at.DeletingData? || p.at.ReleasingResource? ||
          p.wp.spec == Defaulted(first.body.spec))
  }

  /** The part of `Remembers` that holds while children are visited. */
  ghost predicate Carries(p: Pass, first: Object)
    requires p.Working?
  {
    && first.body.WordPressBody?
    && p.wp == WordPress(p.key, first.meta, first.body.generation, Defaulted(first.body.spec), first.body.status)
    && p.status.observedGeneration == first.body.status.observedGeneration
  }

  lemma ApproachRemembers(p: Pass, c: Child, first: Object)
    requires p.Working? && Carries(p, first)
    ensures Remembers(Approach(p, c), first) && Remembers(ApproachDeployment(p), first)
    ensures Remembers(AfterDatabase(p), first)
  {
  }

  lemma ProceedRemembers(p: Pass, c: Child, first: Object)
    requires p.Working? && Carries(p, first)
    ensures Remembers(Proceed(p, c), first)
  {
  }

  lemma SettleRemembers(p: Pass, c: Child, found: Option<Object>, first: Object)
    requires p.Working? && Carries(p, first)
    ensures Remembers(Settle(p, c, found), first)
  {
  }

  lemma NextRemembers(p: Pass, r: Response, first: Object)
    requires p.Working? && Remembers(p, first)
    ensures Remembers(Next(p, r), first)
  {
    hide SetCondition, RemoveCondition, Merge, NeedsUpdate, ResolvedHost, Defaulted, ComputeUrl, Settle, Proceed,
      AfterDatabase, Wanted;
    if p.at.CheckingSecret? {
      ApproachRemembers(Mark(p, EXTERNAL_OK), Deployment, first);
    } else if p.at.Reading? || p.at.Creating? || p.at.Updating? || p.at.Deleting? {
      var c := p.at.child;
      forall q: Pass | q.Working? && Carries(q, first) { ProceedRemembers(q, c, first); }
      SettleRemembers(p, c, None, first);
      SettleRemembers(p, c, if p.at.Updating? then Some(p.at.found) else if r.Found? then Some(r.obj) else None, first);
    }
  }

  lemma FetchedRemembers(p: Pass, r: Response)
    requires p.Fetching?
    ensures r.Found? ==> Remembers(Next(p, r), r.obj)
    ensures !r.Found? || !r.obj.body.WordPressBody? ==> Next(p, r).Finished?
  {
  }

  lemma {:induction false} PassRemembers(p: Pass, answers: seq<Response>)
    requires p.Fetching? && answers != []
    ensures answers[0].Found? ==> Remembers(Feed(p, answers), answers[0].obj)
    ensures !answers[0].Found? ==> !Feed(p, answers).Working?
    decreases |answers|
  {
    hide Next, Remembers;
    var before, r := answers[..|answers| - 1], answers[|answers| - 1];
    assert answers == before + [r];
    FeedLast(p, before, r);
    var q0 := Feed(p, before);
    if before == [] {
      FetchedRemembers(p, r);
    } else {
      PassRemembers(p, before);
      if q0.Working? && answers[0].Found? {
        NextRemembers(q0, r, answers[0].obj);
      } else if q0.Fetching? {
        NeverFetchesTwice(p, before);
      }
    }
    FinishedRemembers(q0, answers[0]);
  }

  lemma FinishedRemembers(p: Pass, r: Response)
    ensures !p.Working? && r.Found? ==> Remembers(p, r.obj)
  {
  }

  lemma {:induction false} NeverFetchesTwice(p: Pass, answers: seq<Response>)
    requires answers != []
    ensures !Feed(p, answers).Fetching?
    decreases |answers|
  {
    hide Next;
    if !p.Finished? {
      NextContinues(p, answers[0]);
      if |answers| > 1 { NeverFetchesTwice(Next(p, answers[0]), answers[1..]); }
    }
  }

  /** A pass that saves a status saves the generation of the resource it read first only if, since then, every child the
      spec of that very generation asks for was handled, and so were the Ingress and the autoscaler it does not ask for.
      A pass that gives up, fails or waits saves the observed generation it found. */
  lemma ObservedIsEarned(key: Key, render: Render, answers: seq<Response>, c: Child)
    requires var q := Feed(Fetching(key, render), answers); q.Working? && (q.at.FetchingLatest? || q.at.WritingStatus?)
    ensures answers != [] && answers[0].Found? && answers[0].obj.body.WordPressBody?
    ensures
      var q := Feed(Fetching(key, render), answers);
      var first := answers[0].obj.body;
      if q.at.after.ThenReport? then
        && q.status.observedGeneration == first.generation
        && (Matters(q.wp.spec, c) ==> Handled(Fetching(key, render), answers, c))
        && q.wp.spec == Defaulted(first.spec)
      else q.status.observedGeneration == first.status.observedGeneration
  {
    hide Next, Handled, Defaulted, Matters, Feed;
    var p := Fetching(key, render);
    assert answers != [] by { NoAnswers(p); }
    PassRemembers(p, answers);
    PassHandles(p, answers, c);
    OrderIsInjective(c, c);
  }

  lemma NoAnswers(p: Pass)
    ensures Feed(p, []) == p
  {
  }
}
