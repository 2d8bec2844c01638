/**
 What one call of a pass can do to the store -- the operator's side of the bargain with everyone else.

 The effect is described against the store as it is when the call arrives, not as the pass read it, with arbitrary
 writes by others in between.  This is where optimistic locking pays off: a write based on an outdated read is refused.
 */
module Guarantee {
  import opened Types
  import opened Names
  import opened Drift
  import opened Server
  import opened Machine
  import opened System

  function WithFinalizers(o: Object, fs: seq<string>): Object {
    o.(meta := o.meta.(finalizers := fs))
  }

  function MarkedDeleting(o: Object): Object {
    o.(meta := o.meta.(deleting := true))
  }

  /** The object at `k` is gone, or marked because it carries finalizers. */
  ghost predicate Deleted(s: Store, s': Store, k: Key) {
    && k in s.objects
    && (s' == Remove(s, k) || (s.objects[k].meta.finalizers != [] && s' == Put(s, k, MarkedDeleting(s.objects[k]))))
  }

  /** The store `s'` after the call that pass `p` is about to make in store `s`. */
  ghost predicate Effect(s: Store, s': Store, p: Pass) {
    s' == s ||
    (p.Working? &&
     match p.at
     case AddingFinalizer =>
       p.key in s.objects &&
       var o := s.objects[p.key];
       && o == AsObject(p.wp) && !o.meta.deleting && !HasFinalizer(o.meta)
       && s' == Put(s, p.key, WithFinalizers(o, o.meta.finalizers + [FINALIZER]))
     case Creating(c) =>
       var k := ChildKey(c, p.key);
       && k !in s.objects
       && s' == Put(s, k, Desired(p, c).(meta := Desired(p, c).meta.(uid := Uid(k, Tick(s, k) + 1))))
     case Updating(c, _) =>
       var k := ChildKey(c, p.key);
       k in s.objects && s' == Put(s, k, Merge(s.objects[k], Desired(p, c)))
     case Deleting(c, _) => Deleted(s, s', ChildKey(c, p.key))
     case WritingStatus(_, _, _) =>
       p.key in s.objects && s' == Put(s, p.key, StatusPatch(s.objects[p.key], p.status))
     case DeletingData => Deleted(s, s', DataKey(p.key))
     case ReleasingResource =>
       p.key in s.objects &&
       var o := s.objects[p.key];
       var fs := Without(o.meta.finalizers, FINALIZER);
       && o == AsObject(p.wp) && o.meta.deleting && HasFinalizer(o.meta)
       && s' == if fs == [] then Remove(s, p.key) else Put(s, p.key, WithFinalizers(o, fs))
     case _ => false)
  }

  /** A write that is not refused was based on the object that is stored now. */
  lemma AcceptedMeansCurrent(trail: seq<Store>, k: Key, o: Object)
    requires IsTrail(trail) && Seen(trail, k, o) && k in Now(trail).objects
    requires Now(trail).objects[k].meta.version == o.meta.version
    ensures Now(trail).objects[k] == o
  {
    assert StoredAt(trail, |trail| - 1, k, Now(trail).objects[k]);
    VersionsIdentify(trail, k, o, Now(trail).objects[k]);
  }

  lemma MergeKeepsMeta(found: Object, desired: Object)
    ensures Merge(found, desired).meta ==
            found.meta.(labels := Merge(found, desired).meta.labels,
                        annotations := Merge(found, desired).meta.annotations)
    ensures WithSpec(found.body, Merge(found, desired).body) == Merge(found, desired).body
  {
  }

  /** An update computed from an object that is still stored. */
  lemma UpdateOfCurrent(s: Store, k: Key, sent: Object)
    requires WellFormed(s)
    requires k in s.objects ==> sent.meta.version == s.objects[k].meta.version ==>
               sent.meta.uid == s.objects[k].meta.uid && sent.meta.deleting == s.objects[k].meta.deleting
    ensures ExecUpdate(s, k, sent).0 == s ||
            (&& k in s.objects && sent.meta.version == s.objects[k].meta.version
             && ExecUpdate(s, k, sent).0 ==
                if sent.meta.deleting && sent.meta.finalizers == [] then Remove(s, k)
                else Put(s, k, Object(sent.meta, WithSpec(s.objects[k].body, sent.body))))
  {
  }

  lemma UpdatingEffect(trail: seq<Store>, p: Pass)
    requires IsTrail(trail) && PassInv(trail, p) && p.Working? && p.at.Updating?
    ensures Effect(Now(trail), Exec(Now(trail), Call(p)).0, p)
  {
    hide ChildKey, Merge, WithSpec, Sound;
    var s, k := Now(trail), ChildKey(p.at.child, p.key);
    var found, desired := p.at.found, Desired(p, p.at.child);
    TrailWellFormed(trail, |trail| - 1);
    MergeKeepsMeta(found, desired);
    if k in s.objects && s.objects[k].meta.version == found.meta.version {
      AcceptedMeansCurrent(trail, k, found);
    }
    UpdateOfCurrent(s, k, Merge(found, desired));
  }

  lemma OwnResourceEffect(trail: seq<Store>, p: Pass)
    requires IsTrail(trail) && PassInv(trail, p) && p.Working?
    requires p.at.AddingFinalizer? || p.at.ReleasingResource? || p.at.WritingStatus?
    ensures Effect(Now(trail), Exec(Now(trail), Call(p)).0, p)
  {
    hide Without, Sound;
    var s, k := Now(trail), p.key;
    TrailWellFormed(trail, |trail| - 1);
    var read := if p.at.WritingStatus? then p.at.latest else AsObject(p.wp);
    if k in s.objects && s.objects[k].meta.version == read.meta.version {
      assert p.wp == p.wp.(spec := p.wp.spec);
      AcceptedMeansCurrent(trail, k, read);
    }
  }

  lemma CreatingOrDeletingEffect(trail: seq<Store>, p: Pass)
    requires PassInv(trail, p) && p.Working? && |trail| > 0
    requires p.at.Creating? || p.at.Deleting? || p.at.DeletingData?
    ensures Effect(Now(trail), Exec(Now(trail), Call(p)).0, p)
  {
  }

  lemma EffectOfStep(sys: System, id: nat, outcome: Outcome)
    requires Inv(sys) && Enabled(sys, Step(id, outcome))
    ensures Effect(Now(sys.trail), Now(Apply(sys, Step(id, outcome)).trail), sys.workers[id].pass)
  {
    hide PassInv, Effect, Next, ExecCreate, ExecDelete, ExecUpdate, ExecUpdateStatus;
    var p := sys.workers[id].pass;
    NoEffect(Now(sys.trail), p);
    assert PassInv(sys.trail, p);
    match p {
      case Fetching(_, _) =>
      case Working(_, _, _, _, at) =>
        match at {
          case AddingFinalizer | ReleasingResource => OwnResourceEffect(sys.trail, p);
          case WritingStatus(_, _, _) => OwnResourceEffect(sys.trail, p);
          case Updating(_, _) => UpdatingEffect(sys.trail, p);
          case Creating(_) | DeletingData => CreatingOrDeletingEffect(sys.trail, p);
          case Deleting(_, _) => CreatingOrDeletingEffect(sys.trail, p);
          case _ =>
        }
    }
  }

  lemma NoEffect(s: Store, p: Pass)
    ensures Effect(s, s, p)
  {
  }

  /** After the run `actions` from `s0`, pass `p` is in flight as worker `id`, and its next call takes the store from
      `s` to `s'`. */
  ghost predicate CallOfRun(s0: Store, actions: seq<Action>, id: nat, outcome: Outcome, p: Pass, s: Store, s': Store) {
    IsRun(s0, actions) &&
    var sys := End(s0, actions);
    && Enabled(sys, Step(id, outcome)) && id in sys.workers && p == sys.workers[id].pass
    && s == Now(sys.trail) && s' == Now(Apply(sys, Step(id, outcome)).trail)
  }

  /** Whatever happened before, and whoever else is writing: every call of every pass has just the described effect on
      the store it meets. */
  lemma EveryCallHasItsEffect(s0: Store, actions: seq<Action>, id: nat, outcome: Outcome, p: Pass, s: Store, s': Store)
    requires CallOfRun(s0, actions, id, outcome, p, s, s')
    ensures Effect(s, s', p)
  {
    hide Effect, Enabled, Apply, Inv;
    RunInv(s0, actions);
    EffectOfStep(End(s0, actions), id, outcome);
  }

  // ---------------------------------------------------------------- what others promise

  /** Every step of the environment respects `promise`. */
  ghost predicate Rely(s0: Store, actions: seq<Action>, promise: (Store, Store) -> bool)
    requires IsRun(s0, actions)
    decreases |actions|
  {
    actions == [] ||
    var before := actions[..|actions| - 1];
    var last := actions[|actions| - 1];
    && Rely(s0, before, promise)
    && (last.Environment? ==> promise(Now(End(s0, before).trail), last.store))
  }
}
