/** The finalizer protocol: the data claim goes before the finalizer, and garbage collection takes the rest. */
module Deletion {
  import opened Types
  import opened Names
  import opened Conditions
  import opened Defaults
  import opened Drift
  import opened Server
  import opened Machine
  import opened System
  import opened Guarantee
  import opened Safety

  /** The claim is absent, or its deletion was accepted and waits for its own finalizers. */
  ghost predicate Released(s: Store, k: Key) {
    k !in s.objects || s.objects[k].meta.deleting
  }

  /** The stored resource asks for its data claim to be deleted along with it. */
  predicate Doomed(wp: WordPress) {
    wp.spec.database.mode.Internal? && !Retained(wp.meta)
  }

  predicate Concerns(action: Action, id: nat) {
    !action.Environment? && action.id == id
  }

  /** Action `n` of the run was a call of worker `id` that took care of the claim at `k`: its look-up found no claim, or
      its delete was accepted or found none. */
  ghost predicate TookCare(s0: Store, actions: seq<Action>, id: nat, n: nat, k: Key) {
    && n < |actions| && actions[n].Step? && actions[n].id == id && IsRun(s0, actions[..n])
    && var sys := End(s0, actions[..n]);
       && Enabled(sys, actions[n]) && id in sys.workers
       && Cares(sys.workers[id].pass, Answer(sys.trail, Call(sys.workers[id].pass), actions[n].outcome).1, k)
  }

  predicate Cares(p: Pass, r: Response, k: Key) {
    && p.Working? && DataKey(p.key) == k
    && (|| (p.at.FindingData? && r == Refused(NotFound))
        || (p.at.DeletingData? && (r == Refused(NotFound) || !r.Refused?)))
  }

  /** ... and that was the last the worker did. */
  ghost predicate CleanedLast(s0: Store, actions: seq<Action>, id: nat, n: nat, k: Key) {
    TookCare(s0, actions, id, n, k) && forall m :: n < m < |actions| ==> !Concerns(actions[m], id)
  }

  ghost predicate CleansFirst(s0: Store, actions: seq<Action>, id: nat, p: Pass) {
    p.Working? && p.at.ReleasingResource? && Doomed(p.wp) ==>
      exists n :: 0 <= n < |actions| && CleanedLast(s0, actions, id, n, DataKey(p.key))
  }

  /** The only ways into ReleasingResource. */
  lemma EnteringRelease(p: Pass, r: Response)
    requires !p.Finished? && Next(p, r).Working? && Next(p, r).at.ReleasingResource?
    ensures !Doomed(Next(p, r).wp) ||
            (p.Working? && p.at.FindingData? && r == Refused(NotFound)) ||
            (p.Working? && p.at.DeletingData? && (r == Refused(NotFound) || !r.Refused?))
  {
    hide Defaulted, Validate, ReportedStatus, SetCondition, FailedStatus, Merge, NeedsUpdate, ResolvedHost, Retained;
    forall q: Pass, c: Child | q.Working? { ProceedStays(q, c); }
    hide Proceed, Approach, ApproachDeployment, AfterDatabase;
  }

  lemma ProceedStays(p: Pass, c: Child)
    requires p.Working?
    ensures Proceed(p, c).Working? ==> !Proceed(p, c).at.ReleasingResource?
    ensures Approach(p, c).Working? ==> !Approach(p, c).at.ReleasingResource?
    ensures AfterDatabase(p).Working? ==> !AfterDatabase(p).at.ReleasingResource?
    ensures ApproachDeployment(p).Working? ==> !ApproachDeployment(p).at.ReleasingResource?
  {
  }

  /** What the worker did stays what it did last while others act. */
  lemma CleansFirstExtends(s0: Store, actions: seq<Action>, more: Action, id: nat, p: Pass)
    requires CleansFirst(s0, actions, id, p) && !Concerns(more, id)
    ensures CleansFirst(s0, actions + [more], id, p)
  {
    hide IsRun, End, DataKey, Doomed, Enabled, Answer, Call;
    if p.Working? && p.at.ReleasingResource? && Doomed(p.wp) {
      var n :| 0 <= n < |actions| && CleanedLast(s0, actions, id, n, DataKey(p.key));
      assert (actions + [more])[..n] == actions[..n];
      assert CleanedLast(s0, actions + [more], id, n, DataKey(p.key));
    }
  }

  /** A worker whose step takes it to the release took care of the claim in that step. */
  lemma StepCleansFirst(s0: Store, actions: seq<Action>, id: nat, outcome: Outcome)
    requires IsRun(s0, actions) && Enabled(End(s0, actions), Step(id, outcome))
    ensures CleansFirst(s0, actions + [Step(id, outcome)], id,
                        Apply(End(s0, actions), Step(id, outcome)).workers[id].pass)
  {
    hide IsRun, End, DataKey, Doomed, Answer, Call, Next;
    var sys := End(s0, actions);
    var p := sys.workers[id].pass;
    var r := Answer(sys.trail, Call(p), outcome).1;
    var q := Next(p, r);
    if q.Working? && q.at.ReleasingResource? && Doomed(q.wp) {
      EnteringRelease(p, r);
      NextContinues(p, r);
      var more := actions + [Step(id, outcome)];
      assert more[..|actions|] == actions;
      assert CleanedLast(s0, more, id, |actions|, DataKey(q.key));
    }
  }

  lemma FetchingCleans(s0: Store, actions: seq<Action>, id: nat, key: Key, render: Render)
    ensures CleansFirst(s0, actions, id, Fetching(key, render))
  {
  }

  lemma {:induction false} RunCleansFirst(s0: Store, actions: seq<Action>, id: nat)
    requires IsRun(s0, actions) && id in End(s0, actions).workers
    ensures CleansFirst(s0, actions, id, End(s0, actions).workers[id].pass)
    decreases |actions|
  {
    hide CleansFirst, Next, Call, Answer;
    if actions != [] {
      var before, last := actions[..|actions| - 1], actions[|actions| - 1];
      assert actions == before + [last];
      if !Concerns(last, id) {
        RunCleansFirst(s0, before, id);
        CleansFirstExtends(s0, before, last, id, End(s0, before).workers[id].pass);
      } else {
        match last
        case Start(i, key, render) => FetchingCleans(s0, actions, id, key, render);
        case Step(i, outcome) => StepCleansFirst(s0, before, id, outcome);
        case _ =>
      }
    }
  }

  /** The finalizer disappears from the stored resource. */
  ghost predicate LetsGo(s: Store, s': Store, k: Key) {
    && k in s.objects && HasFinalizer(s.objects[k].meta)
    && (k !in s'.objects || !HasFinalizer(s'.objects[k].meta))
  }

  lemma {:induction false} WithoutKeeps(fs: seq<string>, f: string, g: string)
    ensures g in Without(fs, f) <==> g in fs && g != f
  {
    if fs != [] { WithoutKeeps(fs[1..], f, g); }
  }

  lemma OnlyReleaseLetsGo(s: Store, s': Store, p: Pass, k: Key)
    requires Effect(s, s', p) && Legal(p) && LetsGo(s, s', k) && k.kind.WordPressKind?
    ensures p.Working? && p.at.ReleasingResource? && k == p.key && s.objects[k] == AsObject(p.wp)
  {
  }

  /** Cleanup precedes release. When the operator removes its finalizer from a resource, that resource is being deleted;
      and if, as stored at that very moment, its mode is Internal and its retaining annotation is absent or says
      anything but "true", then the same handler had looked for the data claim and found none, or had its deletion
      accepted, and has made no call since -- whatever else it read was stale, failed or lost. */
  lemma FinalizerOutlivesTheData(s0: Store, actions: seq<Action>, id: nat, outcome: Outcome, p: Pass,
                                 s: Store, s': Store, k: Key)
    requires CallOfRun(s0, actions, id, outcome, p, s, s') && k.kind.WordPressKind? && LetsGo(s, s', k)
    ensures k == p.key && s.objects[k].meta.deleting && s.objects[k].body.WordPressBody?
    ensures s.objects[k].body.spec.database.mode.Internal? &&
            !Annotated(s.objects[k].meta, "wordpresses.apps.kubesphere.ai/retain-data", "true") ==>
              exists n :: 0 <= n < |actions| && CleanedLast(s0, actions, id, n, DataKey(k))
  {
    hide Apply, Effect, Legal, Inv, PassInv, DataKey, CleanedLast, Enabled;
    CallFacts(s0, actions, id, outcome, p, s, s');
    OnlyReleaseLetsGo(s, s', p, k);
    RunCleansFirst(s0, actions, id);
    ReleaseIsOfDeleted(End(s0, actions).trail, p);
  }

  /** What taking care means for the store: after an accepted delete, or one that found nothing, the claim is gone or
      marked; and a look-up that found nothing was answered from a store without the claim, the one of that moment
      unless the read was stale. */
  lemma CareReleases(s0: Store, actions: seq<Action>, id: nat, n: nat, k: Key)
    requires TookCare(s0, actions, id, n, k)
    ensures
      var sys := End(s0, actions[..n]);
      var outcome := actions[n].outcome;
      if sys.workers[id].pass.at.DeletingData? then Released(Now(Apply(sys, actions[n]).trail), k)
      else k !in (if outcome.Stale? then sys.trail[outcome.i] else Now(sys.trail)).objects
  {
    hide IsRun, End, DataKey, Next;
  }

  lemma ReleaseIsOfDeleted(trail: seq<Store>, p: Pass)
    requires PassInv(trail, p) && p.Working? && p.at.ReleasingResource?
    ensures p.wp.meta.deleting
  {
  }

  // ---------------------------------------------------------------- garbage collection

  predicate Orphaned(s: Store, o: Object) {
    o.meta.controller.Some? && o.meta.controller.value.Uid? &&
    var owner := o.meta.controller.value;
    !(owner.key in s.objects && s.objects[owner.key].meta.uid == owner)
  }

  /** The garbage collector, run to completion: objects whose controller no longer exists go, until none is left. One
      round suffices for children of a WordPress resource, which control nothing themselves. */
  function Collect(s: Store): Store {
    s.(objects := map k | k in s.objects && !Orphaned(s, s.objects[k]) :: s.objects[k])
  }

  lemma OrphansGo(s: Store, k: Key, owner: Uid)
    requires owner.Uid? && !(owner.key in s.objects && s.objects[owner.key].meta.uid == owner)
    ensures k in s.objects && s.objects[k].meta.controller == Some(owner) ==> k !in Collect(s).objects
    ensures k in Collect(s).objects ==> k in s.objects && Collect(s).objects[k] == s.objects[k]
    ensures forall j :: j in s.objects && s.objects[j].meta.controller.None? ==>
              j in Collect(s).objects && Collect(s).objects[j] == s.objects[j]
  {
  }

  lemma CreatedForOwner(s0: Store, actions: seq<Action>, id: nat, outcome: Outcome, p: Pass,
                        s: Store, s': Store, k: Key)
    requires CallOfRun(s0, actions, id, outcome, p, s, s') && k !in s.objects && k in s'.objects
    ensures p.Working? && s'.objects[k].meta.controller == Some(p.wp.meta.uid)
    ensures p.wp.meta.uid.Uid? && p.wp.meta.uid.key == p.key
  {
    hide Effect, Legal, PassInv, Apply;
    CallFacts(s0, actions, id, outcome, p, s, s');
    CreatedObjectsAreOwned(s, s', p, k);
    OwnUid(End(s0, actions).trail, p);
  }

  /** The store after a call is part of the trail of every run that goes on from there. */
  lemma CallIsInTrail(s0: Store, actions: seq<Action>, more: seq<Action>, id: nat, outcome: Outcome,
                      p: Pass, s: Store, s': Store)
    requires CallOfRun(s0, actions, id, outcome, p, s, s') && IsRun(s0, more) && actions + [Step(id, outcome)] <= more
    ensures IsRun(s0, actions) && |End(s0, actions).trail| < |End(s0, more).trail|
    ensures End(s0, more).trail[|End(s0, actions).trail|] == s'
  {
    hide Enabled;
    PrefixTrail(s0, actions + [Step(id, outcome)], more);
    RunExtends(s0, actions, Step(id, outcome));
  }

  /** After the resource is gone and garbage was collected, no object that a pass created for it at any time remains,
      under whatever key, while every object without a controller is untouched. */
  lemma NothingOfTheResourceRemains(s0: Store, actions: seq<Action>, more: seq<Action>, id: nat, outcome: Outcome,
                                    p: Pass, s: Store, s': Store, k: Key)
    requires CallOfRun(s0, actions, id, outcome, p, s, s') && k !in s.objects && k in s'.objects
    requires IsRun(s0, more) && actions + [Step(id, outcome)] <= more && Rely(s0, more, KeepsControllers())
    requires
      var last := Now(End(s0, more).trail);
      p.Working? && !(p.key in last.objects && last.objects[p.key].meta.uid == p.wp.meta.uid)
    ensures
      var last := Now(End(s0, more).trail);
      && (k in Collect(last).objects ==> Collect(last).objects[k].meta.uid != s'.objects[k].meta.uid)
      && (forall j :: j in last.objects && last.objects[j].meta.controller.None? ==>
            j in Collect(last).objects && Collect(last).objects[j] == last.objects[j])
  {
    hide CallOfRun, IsRun, End, Rely, Collect;
    CreatedForOwner(s0, actions, id, outcome, p, s, s', k);
    CallIsInTrail(s0, actions, more, id, outcome, p, s, s');
    var t := End(s0, more).trail;
    OrphansGo(Now(t), k, p.wp.meta.uid);
    if k in Now(t).objects && Now(t).objects[k].meta.uid == s'.objects[k].meta.uid {
      ControllersArePermanent(s0, more, |End(s0, actions).trail|, |t| - 1, k);
    }
  }

  lemma OwnUid(trail: seq<Store>, p: Pass)
    requires PassInv(trail, p) && p.Working? && IsTrail(trail)
    ensures p.wp.meta.uid.Uid? && p.wp.meta.uid.key == p.key
  {
    hide Sound, ChildKey;
    assert Known(trail, p.wp);
    var raw :| ReadFrom(trail, p.wp, raw);
    var o := AsObject(p.wp.(spec := raw));
    assert Seen(trail, p.wp.key, o);
    var i :| 0 <= i < |trail| && StoredAt(trail, i, p.wp.key, o);
    TrailWellFormed(trail, i);
    assert o.meta == p.wp.meta;
  }

  lemma {:induction false} PrefixTrail(s0: Store, some: seq<Action>, more: seq<Action>)
    requires IsRun(s0, more) && some <= more
    ensures IsRun(s0, some)
    ensures End(s0, some).trail <= End(s0, more).trail
    decreases |more|
  {
    if some == more {
    } else {
      var before := more[..|more| - 1];
      assert some <= before;
      PrefixTrail(s0, some, before);
    }
  }
}
