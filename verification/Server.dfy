/**
 The API server as the operator sees it: a versioned object store and the five calls the operator makes on it.

 Every write to a key advances that key's tick, and the tick of the write becomes the resource version of the object
 written.  Resource versions are only ever compared for one key, so a counter per key loses nothing.
 */
module Server {
  import opened Types

  datatype Store = Store(objects: map<Key, Object>, ticks: map<Key, nat>)

  datatype Error = NotFound | Conflict | AlreadyExists | Other

  datatype Request =
    | Get(key: Key)
    | Create(key: Key, obj: Object)
    | Update(key: Key, obj: Object)
    | UpdateStatus(key: Key, obj: Object)
    | Delete(key: Key)

  datatype Response = Found(obj: Object) | Done | Refused(error: Error)

  /** What the adversary lets happen to one call. `Stale(i)` answers a Get from the i-th store of the run. A refused
      call has no effect; a lost call takes effect but its answer is replaced by an error. */
  datatype Outcome = Normal | Stale(i: nat) | Refuse(conflict: bool) | Lose

  function Tick(s: Store, k: Key): nat {
    if k in s.ticks then s.ticks[k] else 0
  }

  function Put(s: Store, k: Key, o: Object): Store {
    Store(s.objects[k := Object(o.meta.(version := Tick(s, k) + 1), o.body)], s.ticks[k := Tick(s, k) + 1])
  }

  function Remove(s: Store, k: Key): Store {
    s.(objects := s.objects - {k})
  }

  function Look(s: Store, k: Key): Response {
    if k in s.objects then Found(s.objects[k]) else Refused(NotFound)
  }

  /** What a spec update may change of the stored body: everything but the status, which has its own call. A change of
      a WordPress spec advances the generation. */
  function WithSpec(stored: Body, sent: Body): Body {
    match (stored, sent)
    case (StatefulSetBody(_, ready), StatefulSetBody(spec, _)) => StatefulSetBody(spec, ready)
    case (DeploymentBody(_, n, ready), DeploymentBody(spec, _, _)) => DeploymentBody(spec, n, ready)
    case (WordPressBody(g, spec, status), WordPressBody(_, spec', _)) =>
      WordPressBody(if spec' == spec then g else g + 1, spec', status)
    case _ => if KindOf(stored) == KindOf(sent) then sent else stored
  }

  function WithStatus(stored: Body, sent: Body): Body {
    match (stored, sent)
    case (WordPressBody(g, spec, _), WordPressBody(_, _, status)) => WordPressBody(g, spec, status)
    case (StatefulSetBody(spec, _), StatefulSetBody(_, ready)) => StatefulSetBody(spec, ready)
    case (DeploymentBody(spec, _, _), DeploymentBody(_, n, ready)) => DeploymentBody(spec, n, ready)
    case _ => stored
  }

  function ExecUpdate(s: Store, k: Key, sent: Object): (Store, Response) {
    if k !in s.objects then (s, Refused(NotFound))
    else
      var stored := s.objects[k];
      if sent.meta.version != stored.meta.version then (s, Refused(Conflict))
      else
        // Identity and the deletion mark cannot be changed by an update.
        var meta := sent.meta.(uid := stored.meta.uid, deleting := stored.meta.deleting);
        if meta.deleting && meta.finalizers == [] then (Remove(s, k), Done)
        else (Put(s, k, Object(meta, WithSpec(stored.body, sent.body))), Done)
  }

  function ExecUpdateStatus(s: Store, k: Key, sent: Object): (Store, Response) {
    if k !in s.objects then (s, Refused(NotFound))
    else
      var stored := s.objects[k];
      if sent.meta.version != stored.meta.version then (s, Refused(Conflict))
      else (Put(s, k, stored.(body := WithStatus(stored.body, sent.body))), Done)
  }

  function ExecCreate(s: Store, k: Key, sent: Object): (Store, Response) {
    if k in s.objects then (s, Refused(AlreadyExists))
    else if KindOf(sent.body) != k.kind then (s, Refused(Other))
    else (Put(s, k, sent.(meta := sent.meta.(uid := Uid(k, Tick(s, k) + 1), deleting := false))), Done)
  }

  /** Deletion names a key, not an identity. An object that carries finalizers is only marked. */
  function ExecDelete(s: Store, k: Key): (Store, Response) {
    if k !in s.objects then (s, Refused(NotFound))
    else
      var stored := s.objects[k];
      if stored.meta.finalizers == [] then (Remove(s, k), Done)
      else if stored.meta.deleting then (s, Done)
      else (Put(s, k, stored.(meta := stored.meta.(deleting := true))), Done)
  }

  function Exec(s: Store, req: Request): (Store, Response) {
    match req
    case Get(k) => (s, Look(s, k))
    case Create(k, o) => ExecCreate(s, k, o)
    case Update(k, o) => ExecUpdate(s, k, o)
    case UpdateStatus(k, o) => ExecUpdateStatus(s, k, o)
    case Delete(k) => ExecDelete(s, k)
  }

  // ---------------------------------------------------------------- store discipline

  ghost predicate WellFormed(s: Store) {
    forall k :: k in s.objects ==>
      && KindOf(s.objects[k].body) == k.kind
      && 0 < s.objects[k].meta.version <= Tick(s, k)
      && s.objects[k].meta.uid.Uid?
      && s.objects[k].meta.uid.key == k
      && s.objects[k].meta.uid.birth <= s.objects[k].meta.version
      && (s.objects[k].meta.deleting ==> s.objects[k].meta.finalizers != [])
  }

  /** One key across one atomic step: either nothing happened to it, or it was removed, or whatever is stored now was
      written now -- over the same object, or as a new object with a new identity. */
  ghost predicate KeyStep(s: Store, s': Store, k: Key) {
    && Tick(s, k) <= Tick(s', k)
    && (k in s'.objects ==>
          || (k in s.objects && s'.objects[k] == s.objects[k])
          || (&& Tick(s, k) < s'.objects[k].meta.version
              && (|| (k in s.objects && s'.objects[k].meta.uid == s.objects[k].meta.uid)
                  || (s'.objects[k].meta.uid.Uid? && Tick(s, k) < s'.objects[k].meta.uid.birth))))
  }

  /** Any number of writes by anyone, as long as the server's versioning rules were kept. */
  ghost predicate ServerStep(s: Store, s': Store) {
    && WellFormed(s')
    && forall k :: KeyStep(s, s', k)
  }

  lemma PutIsServerStep(s: Store, k: Key, o: Object)
    requires WellFormed(s) && KindOf(o.body) == k.kind && (o.meta.deleting ==> o.meta.finalizers != [])
    requires (k in s.objects && o.meta.uid == s.objects[k].meta.uid) || o.meta.uid == Uid(k, Tick(s, k) + 1)
    ensures ServerStep(s, Put(s, k, o))
  {
    var s' := Put(s, k, o);
    forall k' ensures KeyStep(s, s', k') {
      if k' == k {
        assert Tick(s', k) == Tick(s, k) + 1;
      } else {
        assert Tick(s', k') == Tick(s, k');
      }
    }
  }

  lemma RemoveIsServerStep(s: Store, k: Key)
    requires WellFormed(s)
    ensures ServerStep(s, Remove(s, k))
  {
  }

  lemma StayIsServerStep(s: Store)
    requires WellFormed(s)
    ensures ServerStep(s, s)
  {
  }

  lemma ExecIsServerStep(s: Store, req: Request)
    requires WellFormed(s)
    ensures ServerStep(s, Exec(s, req).0)
  {
    StayIsServerStep(s);
    var k := req.key;
    RemoveIsServerStep(s, k);
    var s' := Exec(s, req).0;
    if s' != s && s' != Remove(s, k) {
      PutIsServerStep(s, k, s'.objects[k]);
      assert s' == Put(s, k, s'.objects[k]);
    }
  }

  // ---------------------------------------------------------------- trails

  /** The successive stores of a run. */
  ghost predicate IsTrail(trail: seq<Store>) {
    && |trail| > 0
    && WellFormed(trail[0])
    && forall i :: 0 < i < |trail| ==> ServerStep(trail[i - 1], trail[i])
  }

  ghost predicate Seen(trail: seq<Store>, k: Key, o: Object) {
    exists i :: 0 <= i < |trail| && StoredAt(trail, i, k, o)
  }

  ghost predicate StoredAt(trail: seq<Store>, i: nat, k: Key, o: Object)
    requires i < |trail|
  {
    k in trail[i].objects && trail[i].objects[k] == o
  }

  lemma {:induction false} TrailWellFormed(trail: seq<Store>, i: nat)
    requires IsTrail(trail) && i < |trail|
    ensures WellFormed(trail[i])
  {
    if i > 0 {
      assert ServerStep(trail[i - 1], trail[i]);
    }
  }

  /** Ticks never go back, and an object stored later that is no newer than the tick back then is the object stored
      then. */
  lemma {:induction false} Unchanged(trail: seq<Store>, i: nat, j: nat, k: Key)
    requires IsTrail(trail) && i <= j < |trail|
    ensures Tick(trail[i], k) <= Tick(trail[j], k)
    ensures k in trail[j].objects && trail[j].objects[k].meta.version <= Tick(trail[i], k) ==>
              StoredAt(trail, i, k, trail[j].objects[k])
    decreases j - i
  {
    if i < j {
      Unchanged(trail, i, j - 1, k);
      assert ServerStep(trail[j - 1], trail[j]);
      assert KeyStep(trail[j - 1], trail[j], k);
    }
  }

  /** Resource versions identify contents: two reads of one key that agree on the version read the same object. */
  lemma {:induction false} VersionsIdentify(trail: seq<Store>, k: Key, o: Object, o': Object)
    requires IsTrail(trail) && Seen(trail, k, o) && Seen(trail, k, o') && o.meta.version == o'.meta.version
    ensures o == o'
  {
    var i :| 0 <= i < |trail| && StoredAt(trail, i, k, o);
    var j :| 0 <= j < |trail| && StoredAt(trail, j, k, o');
    TrailWellFormed(trail, i);
    TrailWellFormed(trail, j);
    if i <= j { Unchanged(trail, i, j, k); } else { Unchanged(trail, j, i, k); }
  }

  lemma {:induction false} TrailExtends(trail: seq<Store>, s: Store)
    requires IsTrail(trail) && ServerStep(trail[|trail| - 1], s)
    ensures IsTrail(trail + [s])
  {
  }

  lemma {:induction false} SeenExtends(trail: seq<Store>, s: Store, k: Key, o: Object)
    requires Seen(trail, k, o)
    ensures Seen(trail + [s], k, o)
  {
    var i :| 0 <= i < |trail| && StoredAt(trail, i, k, o);
    assert StoredAt(trail + [s], i, k, o);
  }
}
