/** Safety over whole runs: credentials, specs, ownership and data claims. */
module Safety {
  import opened Types
  import opened Names
  import opened Drift
  import opened Server
  import opened Machine
  import opened System
  import opened Guarantee
  import opened Footprint

  // ---------------------------------------------------------------- credentials

  ghost predicate SameAt(s: Store, s': Store, k: Key) {
    k in s.objects ==> k in s'.objects && s'.objects[k] == s.objects[k]
  }

  /** What the invariant says about a pass that is about to write, without the trail. */
  ghost predicate Legal(p: Pass) {
    && p.key.kind.WordPressKind? && Sound(p.render)
    && (p.Working? ==>
          && p.wp.key == p.key
          && (p.at.Creating? || p.at.Updating? ==> Buildable(p, p.at.child))
          && (p.at.Updating? ==> !p.at.child.DbSecret? && !p.at.child.ContentClaim?)
          && (p.at.Deleting? ==> p.at.child.SiteIngress? || p.at.child.Autoscaler?))
  }

  lemma PassIsLegal(sys: System, id: nat)
    requires Inv(sys) && id in sys.workers
    ensures Legal(sys.workers[id].pass)
  {
  }

  lemma CallFacts(s0: Store, actions: seq<Action>, id: nat, outcome: Outcome, p: Pass, s: Store, s': Store)
    requires CallOfRun(s0, actions, id, outcome, p, s, s')
    ensures Effect(s, s', p) && Legal(p) && WellFormed(s)
    ensures PassInv(End(s0, actions).trail, p) && IsTrail(End(s0, actions).trail)
  {
    hide Effect, Legal, Apply, PassInv;
    RunInv(s0, actions);
    EveryCallHasItsEffect(s0, actions, id, outcome, p, s, s');
    PassIsLegal(End(s0, actions), id);
    TrailWellFormed(End(s0, actions).trail, |End(s0, actions).trail| - 1);
  }

  /** The only write to a Secret is its creation. */
  lemma StoredSecretsStay(s: Store, s': Store, p: Pass, k: Key)
    requires Effect(s, s', p) && Legal(p) && k.kind.SecretKind?
    ensures SameAt(s, s', k)
  {
  }

  /** The environment may do anything but delete or change what is stored at `k`. */
  ghost function KeepsObject(k: Key): (Store, Store) -> bool {
    (s: Store, s': Store) => SameAt(s, s', k)
  }

  /** Once a Secret is stored it stays exactly as it was first written, although every pass of every resource draws new
      passwords: over any run, with calls refused or lost, reads stale, specs edited, modes switched and passes dying
      half-way, as long as no outsider deletes or changes it. */
  lemma {:induction false} CredentialsNeverRotate(s0: Store, actions: seq<Action>, k: Key, i: nat)
    requires IsRun(s0, actions) && k.kind.SecretKind? && Rely(s0, actions, KeepsObject(k))
    requires i < |End(s0, actions).trail| && k in End(s0, actions).trail[i].objects
    ensures forall j :: i <= j < |End(s0, actions).trail| ==>
              StoredAt(End(s0, actions).trail, j, k, End(s0, actions).trail[i].objects[k])
    decreases |actions|
  {
    hide Effect, Legal, Inv;
    if actions != [] {
      var before, last := actions[..|actions| - 1], actions[|actions| - 1];
      var sys := End(s0, before);
      RunInv(s0, before);
      if last.Step? {
        EffectOfStep(sys, last.id, last.outcome);
        PassIsLegal(sys, last.id);
        StoredSecretsStay(Now(sys.trail), Now(Apply(sys, last).trail), sys.workers[last.id].pass, k);
      }
      if i < |sys.trail| {
        CredentialsNeverRotate(s0, before, k, i);
        assert StoredAt(sys.trail, |sys.trail| - 1, k, sys.trail[i].objects[k]);
        forall j | i <= j < |End(s0, actions).trail|
          ensures StoredAt(End(s0, actions).trail, j, k, End(s0, actions).trail[i].objects[k])
        {
          if j < |sys.trail| { assert StoredAt(sys.trail, j, k, sys.trail[i].objects[k]); }
        }
      }
    }
  }

  // ---------------------------------------------------------------- the custom resources

  /** A resource that is still stored has the spec, generation, labels and annotations it had. */
  ghost predicate SameSpecAt(s: Store, s': Store, k: Key) {
    k in s.objects && k in s'.objects && s.objects[k].body.WordPressBody? ==>
      && s'.objects[k].body.WordPressBody?
      && s'.objects[k].body.spec == s.objects[k].body.spec
      && s'.objects[k].body.generation == s.objects[k].body.generation
      && s'.objects[k].meta.uid == s.objects[k].meta.uid
      && s'.objects[k].meta.labels == s.objects[k].meta.labels
      && s'.objects[k].meta.annotations == s.objects[k].meta.annotations
      && s'.objects[k].meta.deleting == s.objects[k].meta.deleting
  }

  /** No call of any pass changes the spec of any WordPress resource: the defaulted spec never reaches the store, and a
      spec edited by a user while a pass is in flight is not written back over. Only the finalizer list and, through
      its own call, the status change. */
  lemma SpecsBelongToUsers(s0: Store, actions: seq<Action>, id: nat, outcome: Outcome, p: Pass, s: Store, s': Store,
                           k: Key)
    requires CallOfRun(s0, actions, id, outcome, p, s, s') && k.kind.WordPressKind?
    ensures SameSpecAt(s, s', k)
  {
    hide Effect, Legal, CallOfRun;
    CallFacts(s0, actions, id, outcome, p, s, s');
    EffectKeepsSpecs(s, s', p, k);
  }

  lemma EffectKeepsSpecs(s: Store, s': Store, p: Pass, k: Key)
    requires Effect(s, s', p) && Legal(p) && k.kind.WordPressKind?
    ensures SameSpecAt(s, s', k)
  {
  }

  /** The status call writes exactly the status the pass holds in memory over the latest stored object, and nothing
      else: neither the rest of the resource nor any other object changes. */
  lemma StatusWriteIsExact(s0: Store, actions: seq<Action>, id: nat, outcome: Outcome, p: Pass, s: Store, s': Store)
    requires CallOfRun(s0, actions, id, outcome, p, s, s') && p.Working? && p.at.WritingStatus? && s' != s
    ensures p.key in s.objects && s.objects[p.key].body.WordPressBody?
    ensures
      var o := s.objects[p.key];
      s'.objects == s.objects[p.key := Object(o.meta.(version := Tick(s, p.key) + 1),
                                              WordPressBody(o.body.generation, o.body.spec, p.status))]
  {
    hide CallOfRun, PassInv, Sound;
    CallFacts(s0, actions, id, outcome, p, s, s');
  }

  // ---------------------------------------------------------------- no lost updates

  /** An update that takes effect makes the managed fields of the child what the builder wants and keeps everything else
      just as it was stored the moment before, whatever was written since the pass read it: identity, controller,
      finalizers, cluster IP, selector, claim templates, status. No other object changes. */
  lemma UpdatesLoseNothing(s0: Store, actions: seq<Action>, id: nat, outcome: Outcome, p: Pass, s: Store, s': Store)
    requires CallOfRun(s0, actions, id, outcome, p, s, s') && p.Working? && p.at.Updating? && s' != s
    ensures
      var k := ChildKey(p.at.child, p.key);
      && p.render(p.wp, p.at.child).Some? && k in s.objects && k in s'.objects
      && Agrees(s'.objects[k], p.render(p.wp, p.at.child).value)
      && SameUnmanaged(s.objects[k], s'.objects[k].(meta := s'.objects[k].meta.(version := s.objects[k].meta.version)))
      && s'.objects[k].meta.version > s.objects[k].meta.version
      && s'.objects == s.objects[k := s'.objects[k]]
  {
    hide CallOfRun, PassInv, Sound, ChildKey, Merge, Agrees, SameUnmanaged, WellFormed;
    CallFacts(s0, actions, id, outcome, p, s, s');
    var k, desired := ChildKey(p.at.child, p.key), p.render(p.wp, p.at.child).value;
    StoredKind(s, k);
    BuiltKindIs(p);
    MergeMeetsDesired(s.objects[k], desired);
    MergeKeepsMeta(s.objects[k], desired);
    VersionIsNotManaged(Merge(s.objects[k], desired), Tick(s, k) + 1, desired);
  }

  lemma StoredKind(s: Store, k: Key)
    requires WellFormed(s) && k in s.objects
    ensures KindOf(s.objects[k].body) == k.kind && s.objects[k].meta.version <= Tick(s, k)
  {
  }

  lemma BuiltKindIs(p: Pass)
    requires Legal(p) && p.Working? && p.at.Updating?
    ensures p.render(p.wp, p.at.child).Some?
    ensures KindOf(p.render(p.wp, p.at.child).value.body) == ChildKey(p.at.child, p.key).kind
  {
  }

  lemma VersionIsNotManaged(o: Object, version: nat, desired: Object)
    requires Agrees(o, desired)
    ensures Agrees(o.(meta := o.meta.(version := version)), desired)
  {
  }

  // ---------------------------------------------------------------- ownership

  ghost predicate SameControllers(s: Store, s': Store) {
    forall k :: k in s.objects && k in s'.objects && s'.objects[k].meta.uid == s.objects[k].meta.uid ==>
      s'.objects[k].meta.controller == s.objects[k].meta.controller
  }

  ghost function KeepsControllers(): (Store, Store) -> bool {
    (s: Store, s': Store) => SameControllers(s, s')
  }

  lemma EffectKeepsControllers(s: Store, s': Store, p: Pass)
    requires Effect(s, s', p) && Legal(p)
    ensures SameControllers(s, s')
  {
    hide Without, Sound, ChildKey, DataKey, WithSpec;
    if p.Working? && p.at.Updating? && ChildKey(p.at.child, p.key) in s.objects {
      MergeKeepsMeta(s.objects[ChildKey(p.at.child, p.key)], Desired(p, p.at.child));
    }
  }

  /** Every object a pass creates carries the controller reference of the resource the pass read. */
  lemma CreatedObjectsAreOwned(s: Store, s': Store, p: Pass, k: Key)
    requires Effect(s, s', p) && Legal(p) && k !in s.objects && k in s'.objects
    ensures p.Working? && s'.objects[k].meta.controller == Some(p.wp.meta.uid)
  {
  }

  lemma RunKeepsControllers(s0: Store, actions: seq<Action>, i: nat)
    requires IsRun(s0, actions) && Rely(s0, actions, KeepsControllers()) && 0 < i < |End(s0, actions).trail|
    ensures SameControllers(End(s0, actions).trail[i - 1], End(s0, actions).trail[i])
    decreases |actions|
  {
    hide Effect, Legal, Inv;
    if actions != [] {
      var before, last := actions[..|actions| - 1], actions[|actions| - 1];
      var sys := End(s0, before);
      RunInv(s0, before);
      if i < |sys.trail| {
        RunKeepsControllers(s0, before, i);
      } else if last.Step? {
        EffectOfStep(sys, last.id, last.outcome);
        PassIsLegal(sys, last.id);
        EffectKeepsControllers(Now(sys.trail), Now(Apply(sys, last).trail), sys.workers[last.id].pass);
      }
    }
  }

  /** As long as outsiders leave controller references alone, so does the operator: an identity keeps its controller
      for good. */
  lemma {:induction false} ControllersArePermanent(s0: Store, actions: seq<Action>, i: nat, j: nat, k: Key)
    requires IsRun(s0, actions) && Rely(s0, actions, KeepsControllers()) && i <= j < |End(s0, actions).trail|
    requires
      var t := End(s0, actions).trail;
      k in t[i].objects && k in t[j].objects && t[i].objects[k].meta.uid == t[j].objects[k].meta.uid
    ensures
      var t := End(s0, actions).trail;
      t[i].objects[k].meta.controller == t[j].objects[k].meta.controller
    decreases j - i
  {
    hide IsRun, End, Rely, PassInv;
    if i < j {
      RunInv(s0, actions);
      var t := End(s0, actions).trail;
      TrailWellFormed(t, i);
      assert ServerStep(t[j - 1], t[j]);
      assert KeyStep(t[j - 1], t[j], k);
      Unchanged(t, i, j - 1, k);
      RunKeepsControllers(s0, actions, j);
      ControllersArePermanent(s0, actions, i, j - 1, k);
    }
  }

  /** The object at `k` was removed or, if it carries finalizers, marked for removal. */
  ghost predicate Gone(s: Store, s': Store, k: Key) {
    k in s.objects && (k !in s'.objects || (s'.objects[k].meta.deleting && !s.objects[k].meta.deleting))
  }

  lemma GoneMeansDeleting(s: Store, s': Store, p: Pass, k: Key)
    requires Effect(s, s', p) && Legal(p) && Gone(s, s', k) && !k.kind.WordPressKind?
    ensures p.Working?
    ensures (p.at.DeletingData? && k == DataKey(p.key)) ||
            (p.at.Deleting? && k == ChildKey(p.at.child, p.key) && (k.kind.IngressKind? || k.kind.AutoscalerKind?))
  {
  }

  /** A pass deletes an Ingress or an autoscaler only if its resource controls it -- or if somebody put another object
      in its place between the pass's read and its delete. */
  lemma OnlyOwnedObjectsAreDeleted(s0: Store, actions: seq<Action>, id: nat, outcome: Outcome, p: Pass,
                                   s: Store, s': Store, k: Key)
    requires CallOfRun(s0, actions, id, outcome, p, s, s') && Rely(s0, actions, KeepsControllers())
    requires Gone(s, s', k) && (k.kind.IngressKind? || k.kind.AutoscalerKind?)
    ensures p.Working? && p.at.Deleting? && p.at.found.meta.controller == Some(p.wp.meta.uid)
    ensures s.objects[k].meta.uid == p.at.found.meta.uid ==> s.objects[k].meta.controller == Some(p.wp.meta.uid)
  {
    hide Sound, Effect, Legal, PassInv, Apply, Gone, ChildKey, DataKey, Seen;
    CallFacts(s0, actions, id, outcome, p, s, s');
    assert k in s.objects by { GoneIsStored(s, s', k); }
    GoneMeansDeleting(s, s', p, k);
    ClaimsAreNotRoutes(p, k);
    var t := End(s0, actions).trail;
    DeletingKnows(t, p);
    if s.objects[k].meta.uid == p.at.found.meta.uid {
      var i := SeenSomewhere(t, k, p.at.found);
      ControllersArePermanent(s0, actions, i, |t| - 1, k);
    }
  }

  lemma GoneIsStored(s: Store, s': Store, k: Key)
    requires Gone(s, s', k)
    ensures k in s.objects
  {
  }

  lemma ClaimsAreNotRoutes(p: Pass, k: Key)
    ensures k.kind.IngressKind? || k.kind.AutoscalerKind? ==> !k.kind.WordPressKind? && k != DataKey(p.key)
  {
  }

  lemma DeletingKnows(trail: seq<Store>, p: Pass)
    requires PassInv(trail, p) && p.Working? && p.at.Deleting?
    ensures Seen(trail, ChildKey(p.at.child, p.key), p.at.found)
    ensures p.at.found.meta.controller == Some(p.wp.meta.uid)
  {
    hide Sound, Seen, ChildKey;
  }

  lemma SeenSomewhere(trail: seq<Store>, k: Key, o: Object) returns (i: nat)
    requires Seen(trail, k, o)
    ensures i < |trail| && StoredAt(trail, i, k, o)
  {
    i :| 0 <= i < |trail| && StoredAt(trail, i, k, o);
  }

  // ---------------------------------------------------------------- data claims

  /** The annotation `name` is there, with just this text. */
  ghost predicate Annotated(m: Meta, name: string, text: string) {
    match m.annotations
    case Some(entries) => name in entries && entries[name] == text
    case None => false
  }

  /** The only claim a pass ever deletes is the data claim of its own MySQL pod. It does so only if the resource it read
      -- a stored one, not a defaulted one -- was being deleted, held the finalizer, said mode Internal and did not
      carry the retaining annotation with the text "true". That claim is no resource's content claim and no other
      resource's data claim. */
  lemma OnlyDoomedDataIsDeleted(s0: Store, actions: seq<Action>, id: nat, outcome: Outcome, p: Pass,
                                s: Store, s': Store, k: Key, other: Key)
    requires CallOfRun(s0, actions, id, outcome, p, s, s') && Gone(s, s', k) && k.kind.ClaimKind?
    ensures k == DataKey(p.key) && p.Working? && Seen(End(s0, actions).trail, p.key, AsObject(p.wp))
    ensures p.wp.meta.deleting && HasFinalizer(p.wp.meta)
    ensures p.wp.spec.database.mode.Internal?
    ensures !Annotated(p.wp.meta, "wordpresses.apps.kubesphere.ai/retain-data", "true")
    ensures k != ChildKey(ContentClaim, other)
    ensures other.kind.WordPressKind? && k == DataKey(other) ==> other == p.key
  {
    hide Sound, Effect, Legal, PassInv, DataKey, ChildKey, Gone, Seen, Apply;
    CallFacts(s0, actions, id, outcome, p, s, s');
    GoneMeansDeleting(s, s', p, k);
    ClaimsAreNotTheResource(p, k);
    DeletingDataKnows(End(s0, actions).trail, p);
    DataKeyIsPrivate(p.key, other);
  }

  lemma ClaimsAreNotTheResource(p: Pass, k: Key)
    requires k.kind.ClaimKind?
    ensures !k.kind.WordPressKind? && !k.kind.IngressKind? && !k.kind.AutoscalerKind?
    ensures DataKey(p.key).kind.ClaimKind?
  {
  }

  lemma DeletingDataKnows(trail: seq<Store>, p: Pass)
    requires PassInv(trail, p) && p.Working? && p.at.DeletingData?
    ensures p.key.kind.WordPressKind? && Seen(trail, p.key, AsObject(p.wp))
    ensures p.wp.meta.deleting && HasFinalizer(p.wp.meta)
    ensures p.wp.spec.database.mode.Internal?
    ensures !Annotated(p.wp.meta, "wordpresses.apps.kubesphere.ai/retain-data", "true")
  {
  }

  lemma GoneResource(s: Store, s': Store, p: Pass, k: Key)
    requires Effect(s, s', p) && Legal(p) && Gone(s, s', k) && k.kind.WordPressKind?
    ensures k == p.key && s.objects[k].meta.deleting
  {
  }

  /** Nothing but an Ingress, an autoscaler, the data claim of a resource, and a resource being deleted is ever removed
      by the operator. */
  lemma NothingElseIsDeleted(s0: Store, actions: seq<Action>, id: nat, outcome: Outcome, p: Pass,
                             s: Store, s': Store, k: Key)
    requires CallOfRun(s0, actions, id, outcome, p, s, s') && Gone(s, s', k)
    ensures k.kind.IngressKind? || k.kind.AutoscalerKind? || k == DataKey(p.key) ||
            (k == p.key && s.objects[k].meta.deleting)
  {
    hide CallOfRun, Effect, Legal;
    CallFacts(s0, actions, id, outcome, p, s, s');
    if k.kind.WordPressKind? { GoneResource(s, s', p, k); } else { GoneMeansDeleting(s, s', p, k); }
  }
}
