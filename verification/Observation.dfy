/** `status.observedGeneration` over whole runs: when it stays within the generation, and when it never goes back. */
module Observation {
  import opened Types
  import opened Names
  import opened Server
  import opened Machine
  import opened System
  import opened Guarantee
  import opened Safety
  import opened Generation

  function Observed(o: Object): int {
    if o.body.WordPressBody? then o.body.status.observedGeneration else 0
  }

  function GenerationOf(o: Object): int {
    if o.body.WordPressBody? then o.body.generation else 0
  }

  /** No resource claims to have been observed at a generation it has not reached. */
  ghost predicate Bounded(s: Store) {
    forall k :: k in s.objects ==> Observed(s.objects[k]) <= GenerationOf(s.objects[k])
  }

  ghost predicate Same(s: Store, s': Store, k: Key) {
    k in s.objects && k in s'.objects && s.objects[k].meta.uid == s'.objects[k].meta.uid
  }

  ghost predicate NotLessAt(f: Object -> int, s: Store, s': Store, k: Key) {
    k.kind.WordPressKind? && Same(s, s', k) ==> f(s.objects[k]) <= f(s'.objects[k])
  }

  /** `f` does not go back for any resource that is still the same resource, by identity and not by name. */
  ghost predicate NotLess(f: Object -> int, s: Store, s': Store) {
    forall k :: NotLessAt(f, s, s', k)
  }

  /** What outsiders promise about generations: they do not go back, and no outsider breaks the bound. Resources may be
      deleted and created anew under old names at any time. */
  ghost function GenerationsKept(): (Store, Store) -> bool {
    (s: Store, s': Store) => NotLess(GenerationOf, s, s') && (Bounded(s) ==> Bounded(s'))
  }

  /** ... and about observed generations: only the operator writes them. */
  ghost function ObservedKept(): (Store, Store) -> bool {
    (s: Store, s': Store) =>
      forall k: Key :: k.kind.WordPressKind? && Same(s, s', k) ==> Observed(s'.objects[k]) == Observed(s.objects[k])
  }

  // ---------------------------------------------------------------- identities over a trail

  /** An identity that was seen and is stored after a step was stored before it. */
  lemma WasThere(s: Store, s': Store, k: Key, uid: Uid)
    requires KeyStep(s, s', k) && k in s'.objects && s'.objects[k].meta.uid == uid
    requires uid.Uid? && uid.birth <= Tick(s, k)
    ensures Same(s, s', k)
  {
  }

  lemma {:induction false} NeverLess(trail: seq<Store>, f: Object -> int, i: nat, j: nat, k: Key)
    requires IsTrail(trail) && i <= j < |trail| && k.kind.WordPressKind? && Same(trail[i], trail[j], k)
    requires forall n :: 0 < n < |trail| ==> NotLess(f, trail[n - 1], trail[n])
    ensures f(trail[i].objects[k]) <= f(trail[j].objects[k])
    decreases j - i
  {
    if i < j {
      TrailWellFormed(trail, i);
      Unchanged(trail, i, j - 1, k);
      assert ServerStep(trail[j - 1], trail[j]);
      WasThere(trail[j - 1], trail[j], k, trail[i].objects[k].meta.uid);
      NeverLess(trail, f, i, j - 1, k);
      assert NotLess(f, trail[j - 1], trail[j]);
      assert NotLessAt(f, trail[j - 1], trail[j], k);
    }
  }

  // ---------------------------------------------------------------- what a call does

  lemma EffectOnResources(s: Store, s': Store, p: Pass, k: Key)
    requires Effect(s, s', p) && Legal(p) && k.kind.WordPressKind?
    ensures k in s'.objects ==> Same(s, s', k) && GenerationOf(s'.objects[k]) == GenerationOf(s.objects[k])
    ensures k in s'.objects && Observed(s'.objects[k]) != Observed(s.objects[k]) ==>
              k == p.key && p.Working? && p.at.WritingStatus? && Observed(s'.objects[k]) == p.status.observedGeneration
  {
  }

  lemma EffectOnOthers(s: Store, s': Store, p: Pass, k: Key)
    requires Effect(s, s', p) && Legal(p) && WellFormed(s) && WellFormed(s')
    requires !k.kind.WordPressKind? && k in s'.objects
    ensures Observed(s'.objects[k]) == 0 && GenerationOf(s'.objects[k]) == 0
  {
  }

  lemma EffectNotLess(s: Store, s': Store, p: Pass)
    requires Effect(s, s', p) && Legal(p)
    ensures NotLess(GenerationOf, s, s')
    ensures p.Working? && p.at.WritingStatus? && p.key in s.objects ==>
              (Observed(s.objects[p.key]) <= p.status.observedGeneration ==> NotLess(Observed, s, s'))
    ensures !p.Working? || !p.at.WritingStatus? || p.key !in s.objects ==> NotLess(Observed, s, s')
  {
    hide Effect, Legal, Observed, GenerationOf;
    forall k: Key | k.kind.WordPressKind? { EffectOnResources(s, s', p, k); }
  }

  /** Everything but a status write keeps the bound. */
  lemma EffectBounded(s: Store, s': Store, p: Pass)
    requires Effect(s, s', p) && Legal(p) && WellFormed(s) && WellFormed(s') && Bounded(s)
    requires s' != s && p.Working? && p.at.WritingStatus? && p.key in s.objects ==>
               p.status.observedGeneration <= GenerationOf(s.objects[p.key])
    ensures Bounded(s')
  {
    hide Effect, Legal, Observed, GenerationOf, WellFormed;
    if s' != s {
      forall k | k in s'.objects ensures Observed(s'.objects[k]) <= GenerationOf(s'.objects[k]) {
        if k.kind.WordPressKind? { EffectOnResources(s, s', p, k); } else { EffectOnOthers(s, s', p, k); }
      }
    }
  }

  // ---------------------------------------------------------------- what a pass in flight knows

  ghost predicate Began(p: Pass) {
    p.Working? ==> exists first :: Remembers(p, first)
  }

  /** The status in memory carries the observed generation that was read, or the generation. */
  lemma BeganWith(p: Pass)
    requires Began(p) && p.Working?
    ensures p.status.observedGeneration == p.wp.status.observedGeneration ||
            p.status.observedGeneration == p.wp.generation
  {
    var first :| Remembers(p, first);
  }

  lemma NextBegan(p: Pass, r: Response)
    requires !p.Finished? && Began(p)
    ensures Began(Next(p, r))
  {
    hide Next, Remembers;
    if p.Fetching? {
      FetchedRemembers(p, r);
    } else {
      var first :| Remembers(p, first);
      NextRemembers(p, r, first);
    }
  }

  lemma {:induction false} RunBegan(s0: Store, actions: seq<Action>, id: nat)
    requires IsRun(s0, actions) && id in End(s0, actions).workers
    ensures Began(End(s0, actions).workers[id].pass)
    decreases |actions|
  {
    hide Next, Call, Answer, Remembers;
    if actions != [] {
      var before, last := actions[..|actions| - 1], actions[|actions| - 1];
      if id in End(s0, before).workers { RunBegan(s0, before, id); }
      if last.Step? && last.id == id {
        var sys := End(s0, before);
        NextBegan(sys.workers[id].pass, Answer(sys.trail, Call(sys.workers[id].pass), last.outcome).1);
      }
    }
  }

  /** The resource in memory was stored once, as far as everything but its spec goes. */
  lemma ReadOnce(trail: seq<Store>, p: Pass) returns (i: nat)
    requires PassInv(trail, p) && IsTrail(trail) && p.Working?
    ensures i < |trail| && p.key in trail[i].objects && WellFormed(trail[i])
    ensures trail[i].objects[p.key].meta == p.wp.meta
    ensures GenerationOf(trail[i].objects[p.key]) == p.wp.generation
    ensures Observed(trail[i].objects[p.key]) == p.wp.status.observedGeneration
  {
    hide Sound, ChildKey, HasFinalizer, Retained;
    assert p.wp == p.wp.(spec := p.wp.spec);
    assert Known(trail, p.wp);
    var raw :| ReadFrom(trail, p.wp, raw);
    var o := AsObject(p.wp.(spec := raw));
    i :| 0 <= i < |trail| && StoredAt(trail, i, p.wp.key, o);
    TrailWellFormed(trail, i);
  }

  // ---------------------------------------------------------------- generations over a run

  lemma {:induction false} GenerationsGrow(s0: Store, actions: seq<Action>, n: nat)
    requires IsRun(s0, actions) && Rely(s0, actions, GenerationsKept()) && 0 < n < |End(s0, actions).trail|
    ensures NotLess(GenerationOf, End(s0, actions).trail[n - 1], End(s0, actions).trail[n])
    decreases |actions|
  {
    hide Effect, Legal, Inv, NotLess, Bounded;
    if actions != [] {
      var before, last := actions[..|actions| - 1], actions[|actions| - 1];
      var sys := End(s0, before);
      RunInv(s0, before);
      if n < |sys.trail| {
        GenerationsGrow(s0, before, n);
      } else if last.Step? {
        EffectOfStep(sys, last.id, last.outcome);
        PassIsLegal(sys, last.id);
        EffectNotLess(Now(sys.trail), Now(Apply(sys, last).trail), sys.workers[last.id].pass);
      }
    }
  }

  /** If what is stored now is still the resource the pass read, its generation has not gone back since. */
  lemma HomeHasGrown(s0: Store, actions: seq<Action>, id: nat, outcome: Outcome, p: Pass, s: Store, s': Store)
    requires CallOfRun(s0, actions, id, outcome, p, s, s') && Rely(s0, actions, GenerationsKept()) && p.Working?
    requires p.key in s.objects && s.objects[p.key].meta.uid == p.wp.meta.uid
    ensures p.wp.generation <= GenerationOf(s.objects[p.key])
  {
    hide Effect, Legal, PassInv, Apply, GenerationOf, NotLess;
    CallFacts(s0, actions, id, outcome, p, s, s');
    var t := End(s0, actions).trail;
    var i := ReadOnce(t, p);
    forall n | 0 < n < |t| { GenerationsGrow(s0, actions, n); }
    LegalKey(p);
    NeverLess(t, GenerationOf, i, |t| - 1, p.key);
  }

  lemma LegalKey(p: Pass)
    requires Legal(p)
    ensures p.key.kind.WordPressKind?
  {
  }

  // ---------------------------------------------------------------- the bound

  /** The write lands on the resource the pass read, or on one that has reached the generation that is written. The code
      never compares the two identities. */
  ghost predicate Fits(s: Store, p: Pass)
    requires p.Working?
  {
    p.key in s.objects ==>
      s.objects[p.key].meta.uid == p.wp.meta.uid || p.status.observedGeneration <= GenerationOf(s.objects[p.key])
  }

  ghost predicate AllBounded(trail: seq<Store>) {
    forall i :: 0 <= i < |trail| ==> Bounded(trail[i])
  }

  /** As long as the bound holds, a status write that takes effect keeps it exactly if it lands on the very resource the
      pass read, or on one of at least the generation it writes. */
  lemma WriteKeepsTheBoundIff(s0: Store, actions: seq<Action>, id: nat, outcome: Outcome, p: Pass, s: Store, s': Store)
    requires CallOfRun(s0, actions, id, outcome, p, s, s') && p.Working? && p.at.WritingStatus? && s' != s
    requires Rely(s0, actions, GenerationsKept()) && AllBounded(End(s0, actions).trail)
    ensures Bounded(s') <==> Fits(s, p)
  {
    hide Effect, Legal, PassInv, Apply, Bounded, Observed, GenerationOf, Rely;
    StatusWriteIsExact(s0, actions, id, outcome, p, s, s');
    var t := End(s0, actions).trail;
    assert Bounded(t[|t| - 1]);
    if s.objects[p.key].meta.uid == p.wp.meta.uid { HomeIsBounded(s0, actions, id, outcome, p, s, s'); }
    SavedBoundedIff(s, s', p.key, p.status);
  }

  /** At home, what is written has been reached. */
  lemma HomeIsBounded(s0: Store, actions: seq<Action>, id: nat, outcome: Outcome, p: Pass, s: Store, s': Store)
    requires CallOfRun(s0, actions, id, outcome, p, s, s') && p.Working?
    requires Rely(s0, actions, GenerationsKept()) && AllBounded(End(s0, actions).trail)
    requires p.key in s.objects && s.objects[p.key].meta.uid == p.wp.meta.uid
    ensures p.status.observedGeneration <= GenerationOf(s.objects[p.key])
  {
    hide Effect, Legal, PassInv, Apply, Observed, GenerationOf, Rely;
    CallFacts(s0, actions, id, outcome, p, s, s');
    HomeHasGrown(s0, actions, id, outcome, p, s, s');
    RunBegan(s0, actions, id);
    BeganWith(p);
    var t := End(s0, actions).trail;
    var i := ReadOnce(t, p);
    BoundedAt(t, i, p.key);
  }

  lemma SavedBoundedIff(s: Store, s': Store, k: Key, status: WordPressStatus)
    requires Bounded(s) && k in s.objects && s.objects[k].body.WordPressBody? && k in s'.objects
    requires s'.objects == s.objects[k := s'.objects[k]]
    requires s'.objects[k].body == WordPressBody(s.objects[k].body.generation, s.objects[k].body.spec, status)
    ensures Bounded(s') <==> status.observedGeneration <= GenerationOf(s.objects[k])
  {
    if status.observedGeneration <= GenerationOf(s.objects[k]) {
      forall j | j in s'.objects ensures Observed(s'.objects[j]) <= GenerationOf(s'.objects[j]) {
        if j != k { assert s'.objects[j] == s.objects[j]; }
      }
    }
  }

  /** Worker `id` is about to write a status, and the write takes effect. */
  ghost predicate Writes(sys: System, id: nat, outcome: Outcome)
    requires Enabled(sys, Step(id, outcome))
  {
    sys.workers[id].pass.Working? && sys.workers[id].pass.at.WritingStatus? &&
    Now(Apply(sys, Step(id, outcome)).trail) != Now(sys.trail)
  }

  ghost predicate EveryWriteFits(s0: Store, actions: seq<Action>)
    requires IsRun(s0, actions)
    decreases |actions|
  {
    actions == [] ||
    var before := actions[..|actions| - 1];
    var last := actions[|actions| - 1];
    var sys := End(s0, before);
    && EveryWriteFits(s0, before)
    && (last.Step? && Writes(sys, last.id, last.outcome) ==> Fits(Now(sys.trail), sys.workers[last.id].pass))
  }

  /** One more call: the bound holds after it exactly if it is no status write or one that fits. */
  lemma StepBoundedIff(s0: Store, actions: seq<Action>, id: nat, outcome: Outcome)
    requires IsRun(s0, actions) && Enabled(End(s0, actions), Step(id, outcome))
    requires Rely(s0, actions, GenerationsKept()) && AllBounded(End(s0, actions).trail)
    ensures
      var sys := End(s0, actions);
      Bounded(Now(Apply(sys, Step(id, outcome)).trail)) <==>
      (Writes(sys, id, outcome) ==> Fits(Now(sys.trail), sys.workers[id].pass))
  {
    hide Effect, Legal, Fits, WellFormed, Bounded, ServerStep, Inv, Answer;
    var sys := End(s0, actions);
    var p := sys.workers[id].pass;
    var s' := Now(Apply(sys, Step(id, outcome)).trail);
    assert Bounded(sys.trail[|sys.trail| - 1]);
    if Writes(sys, id, outcome) {
      WriteKeepsTheBoundIff(s0, actions, id, outcome, p, Now(sys.trail), s');
    } else {
      CallFacts(s0, actions, id, outcome, p, Now(sys.trail), s');
      RunInv(s0, actions);
      InvIsTrail(sys);
      AnswerIsServerStep(sys.trail, Call(p), outcome);
      assert WellFormed(s') by { ServerStepKeeps(Now(sys.trail), s'); }
      EffectBounded(Now(sys.trail), s', p);
    }
  }

  lemma ServerStepKeeps(s: Store, s': Store)
    requires ServerStep(s, s')
    ensures WellFormed(s')
  {
  }

  lemma InvIsTrail(sys: System)
    requires Inv(sys)
    ensures IsTrail(sys.trail)
  {
  }

  lemma AllBoundedExtends(trail: seq<Store>, s: Store)
    ensures AllBounded(trail + [s]) <==> AllBounded(trail) && Bounded(s)
  {
    hide Bounded;
    var t := trail + [s];
    assert t[|trail|] == s;
    forall i | 0 <= i < |trail| ensures t[i] == trail[i] {}
  }

  /** Exactly when no resource ever claims a generation it has not reached, over any run -- with any number of passes in
      flight, stale reads, lost and refused calls, and resources deleted and created anew under the same names: if and
      only if every status write that takes effect lands on the resource its pass read, or on one that has reached the
      generation written. */
  lemma {:induction false} ObservedNeverExceedsIff(s0: Store, actions: seq<Action>)
    requires IsRun(s0, actions) && Bounded(s0) && Rely(s0, actions, GenerationsKept())
    ensures AllBounded(End(s0, actions).trail) <==> EveryWriteFits(s0, actions)
    decreases |actions|
  {
    hide Bounded, Fits, Writes, NotLess;
    if actions != [] {
      var before, last := actions[..|actions| - 1], actions[|actions| - 1];
      var sys := End(s0, before);
      ObservedNeverExceedsIff(s0, before);
      match last
      case Environment(s) =>
        AllBoundedExtends(sys.trail, s);
        if AllBounded(sys.trail) { assert Bounded(sys.trail[|sys.trail| - 1]); }
      case Step(id, outcome) =>
        AllBoundedExtends(sys.trail, Now(Apply(sys, last).trail));
        if AllBounded(sys.trail) { StepBoundedIff(s0, before, id, outcome); }
      case _ =>
    }
  }

  // ---------------------------------------------------------------- never going back

  /** Reads are fresh, and a pass for a resource begins only when no other is in flight for it -- as controller-runtime
      guarantees for one controller. */
  ghost predicate Orderly(s0: Store, actions: seq<Action>)
    requires IsRun(s0, actions)
    decreases |actions|
  {
    actions == [] ||
    var before := actions[..|actions| - 1];
    var last := actions[|actions| - 1];
    && Orderly(s0, before)
    && (last.Step? ==> !last.outcome.Stale?)
    && (last.Start? ==> forall id :: id in End(s0, before).workers && !End(s0, before).workers[id].pass.Finished? ==>
          End(s0, before).workers[id].pass.key != last.key)
  }

  /** At most one pass per resource is in flight. */
  ghost predicate Alone(sys: System) {
    forall id, id' :: id in sys.workers && id' in sys.workers && id != id' ==>
      || sys.workers[id].pass.Finished? || sys.workers[id'].pass.Finished?
      || sys.workers[id].pass.key != sys.workers[id'].pass.key
  }

  /** Nobody has advanced what is observed of the resource since the pass read it. */
  ghost predicate UpToDate(s: Store, p: Pass) {
    p.Working? && p.key in s.objects && s.objects[p.key].meta.uid == p.wp.meta.uid ==>
      Observed(s.objects[p.key]) <= p.wp.status.observedGeneration
  }

  ghost predicate OrderlyInv(sys: System) {
    |sys.trail| > 0 && Alone(sys) && forall id :: id in sys.workers ==> UpToDate(Now(sys.trail), sys.workers[id].pass)
  }

  /** A status write that takes effect is the pass's last call. */
  lemma AcceptedStatusEnds(trail: seq<Store>, p: Pass, outcome: Outcome)
    requires |trail| > 0 && (outcome.Stale? ==> outcome.i < |trail|)
    requires p.Working? && p.at.WritingStatus?
    ensures
      var (s, r) := Answer(trail, Call(p), outcome);
      s != Now(trail) ==> Next(p, r).Finished?
  {
  }

  lemma NextWorksOn(p: Pass, r: Response)
    requires !p.Finished?
    ensures Next(p, r).key == p.key
    ensures p.Working? && Next(p, r).Working? ==> Next(p, r).wp == p.wp
  {
    hide Next;
    NextContinues(p, r);
  }

  lemma FetchedUpToDate(trail: seq<Store>, p: Pass, outcome: Outcome)
    requires |trail| > 0 && p.Fetching? && !outcome.Stale?
    ensures
      var (s, r) := Answer(trail, Call(p), outcome);
      s == Now(trail) && UpToDate(s, Next(p, r))
  {
    hide Next, Carries;
    var (s, r) := Answer(trail, Call(p), outcome);
    NextWorksOn(p, r);
    FetchedRemembers(p, r);
  }

  lemma StepUpToDate(trail: seq<Store>, p: Pass, outcome: Outcome)
    requires IsTrail(trail) && !p.Finished? && UpToDate(Now(trail), p) && Legal(p) && !outcome.Stale?
    requires Effect(Now(trail), Answer(trail, Call(p), outcome).0, p)
    ensures
      var (s, r) := Answer(trail, Call(p), outcome);
      UpToDate(s, Next(p, r))
  {
    hide Effect, Legal, Answer, Next, Call, Observed;
    var (s, r) := Answer(trail, Call(p), outcome);
    LegalKey(p);
    NextWorksOn(p, r);
    if p.Fetching? {
      FetchedUpToDate(trail, p, outcome);
    } else {
      EffectOnResources(Now(trail), s, p, p.key);
      if p.at.WritingStatus? { AcceptedStatusEnds(trail, p, outcome); }
    }
  }

  lemma OtherUpToDate(s: Store, s': Store, p: Pass, other: Pass)
    requires Effect(s, s', p) && Legal(p) && UpToDate(s, other)
    requires other.key.kind.WordPressKind? && (other.Finished? || other.key != p.key)
    ensures UpToDate(s', other)
  {
    hide Effect, Legal, Observed;
    EffectOnResources(s, s', p, other.key);
  }

  lemma EnvironmentUpToDate(trail: seq<Store>, s: Store, p: Pass)
    requires IsTrail(trail) && PassInv(trail, p) && UpToDate(Now(trail), p) && ServerStep(Now(trail), s)
    requires ObservedKept()(Now(trail), s)
    ensures UpToDate(s, p)
  {
    hide Observed, Sound, PointInv;
    if p.Working? && p.key in s.objects && s.objects[p.key].meta.uid == p.wp.meta.uid {
      var i := ReadOnce(trail, p);
      Unchanged(trail, i, |trail| - 1, p.key);
      assert KeyStep(Now(trail), s, p.key);
      WasThere(Now(trail), s, p.key, p.wp.meta.uid);
    }
  }

  lemma StepOrderly(sys: System, id: nat, outcome: Outcome)
    requires Inv(sys) && OrderlyInv(sys) && Enabled(sys, Step(id, outcome)) && !outcome.Stale?
    ensures OrderlyInv(Apply(sys, Step(id, outcome)))
  {
    hide Effect, Legal, Answer, Next, Call, UpToDate, PassInv, IsTrail;
    var p := sys.workers[id].pass;
    var (s, r) := Answer(sys.trail, Call(p), outcome);
    EffectOfStep(sys, id, outcome);
    PassIsLegal(sys, id);
    NextWorksOn(p, r);
    StepUpToDate(sys.trail, p, outcome);
    forall i | i in sys.workers && i != id ensures UpToDate(s, sys.workers[i].pass) {
      PassIsLegal(sys, i);
      LegalKey(sys.workers[i].pass);
      FinishedUpToDate(s, sys.workers[i].pass);
      if !sys.workers[i].pass.Finished? { OtherUpToDate(Now(sys.trail), s, p, sys.workers[i].pass); }
    }
  }

  lemma FinishedUpToDate(s: Store, p: Pass)
    ensures !p.Working? ==> UpToDate(s, p)
  {
  }

  lemma {:induction false} RunOrderly(s0: Store, actions: seq<Action>)
    requires IsRun(s0, actions) && Orderly(s0, actions) && Rely(s0, actions, ObservedKept())
    ensures OrderlyInv(End(s0, actions))
    decreases |actions|
  {
    hide Inv, UpToDate, Observed, PassInv;
    if actions != [] {
      var before, last := actions[..|actions| - 1], actions[|actions| - 1];
      var sys := End(s0, before);
      RunOrderly(s0, before);
      RunInv(s0, before);
      match last
      case Environment(s) =>
        forall i | i in sys.workers ensures UpToDate(s, sys.workers[i].pass) {
          InvFacts(sys, i);
          EnvironmentUpToDate(sys.trail, s, sys.workers[i].pass);
        }
      case Start(id, key, render) => FinishedUpToDate(Now(sys.trail), Fetching(key, render));
      case Step(id, outcome) => StepOrderly(sys, id, outcome);
      case Crash(id) =>
    }
  }

  lemma InvFacts(sys: System, id: nat)
    requires Inv(sys) && id in sys.workers
    ensures IsTrail(sys.trail) && PassInv(sys.trail, sys.workers[id].pass)
  {
  }

  /** The write lands on the resource the pass read, or on one that was observed no further than what is written. */
  ghost predicate Advances(s: Store, p: Pass)
    requires p.Working?
  {
    p.key in s.objects ==>
      s.objects[p.key].meta.uid == p.wp.meta.uid || Observed(s.objects[p.key]) <= p.status.observedGeneration
  }

  ghost predicate EveryWriteAdvances(s0: Store, actions: seq<Action>)
    requires IsRun(s0, actions)
    decreases |actions|
  {
    actions == [] ||
    var before := actions[..|actions| - 1];
    var last := actions[|actions| - 1];
    var sys := End(s0, before);
    && EveryWriteAdvances(s0, before)
    && (last.Step? && Writes(sys, last.id, last.outcome) ==> Advances(Now(sys.trail), sys.workers[last.id].pass))
  }

  lemma StepNotBackIff(s0: Store, actions: seq<Action>, id: nat, outcome: Outcome)
    requires IsRun(s0, actions) && Enabled(End(s0, actions), Step(id, outcome))
    requires OrderlyInv(End(s0, actions)) && AllBounded(End(s0, actions).trail)
    ensures
      var sys := End(s0, actions);
      NotLess(Observed, Now(sys.trail), Now(Apply(sys, Step(id, outcome)).trail)) <==>
      (Writes(sys, id, outcome) ==> Advances(Now(sys.trail), sys.workers[id].pass))
  {
    hide Effect, Legal, Inv, Answer, Bounded, PassInv;
    var sys := End(s0, actions);
    var p, s := sys.workers[id].pass, Now(sys.trail);
    var s' := Now(Apply(sys, Step(id, outcome)).trail);
    CallFacts(s0, actions, id, outcome, p, s, s');
    LegalKey(p);
    EffectNotLess(s, s', p);
    if Writes(sys, id, outcome) {
      StatusWriteIsExact(s0, actions, id, outcome, p, s, s');
      if s.objects[p.key].meta.uid == p.wp.meta.uid {
        RunBegan(s0, actions, id);
        BeganWith(p);
        var i := ReadOnce(sys.trail, p);
        BoundedAt(sys.trail, i, p.key);
      }
      assert NotLessAt(Observed, s, s', p.key) <==> Observed(s.objects[p.key]) <= p.status.observedGeneration;
    } else if s' == s {
      assert NotLess(Observed, s, s');
    }
  }

  lemma BoundedAt(trail: seq<Store>, i: nat, k: Key)
    requires AllBounded(trail) && i < |trail| && k in trail[i].objects
    ensures Observed(trail[i].objects[k]) <= GenerationOf(trail[i].objects[k])
  {
    assert Bounded(trail[i]);
  }

  ghost predicate Stepwise(trail: seq<Store>) {
    forall n :: 0 < n < |trail| ==> NotLess(Observed, trail[n - 1], trail[n])
  }

  lemma StepwiseExtends(trail: seq<Store>, s: Store)
    requires |trail| > 0
    ensures Stepwise(trail + [s]) <==> Stepwise(trail) && NotLess(Observed, Now(trail), s)
  {
    hide NotLess;
    var t := trail + [s];
    assert t[|trail|] == s && t[|trail| - 1] == Now(trail);
    forall i | 0 <= i < |trail| ensures t[i] == trail[i] {}
  }

  lemma {:induction false} StepsNotBackIff(s0: Store, actions: seq<Action>)
    requires IsRun(s0, actions) && Bounded(s0) && Rely(s0, actions, GenerationsKept()) && EveryWriteFits(s0, actions)
    requires Orderly(s0, actions) && Rely(s0, actions, ObservedKept())
    ensures Stepwise(End(s0, actions).trail) <==> EveryWriteAdvances(s0, actions)
    decreases |actions|
  {
    hide Bounded, Fits, Writes, Advances, OrderlyInv, AllBounded, Stepwise, NotLess, Same;
    StepwiseAlone(s0);
    if actions != [] {
      var before, last := actions[..|actions| - 1], actions[|actions| - 1];
      var sys := End(s0, before);
      StepsNotBackIff(s0, before);
      if last.Step? {
        RunOrderly(s0, before);
        ObservedNeverExceedsIff(s0, before);
        StepNotBackIff(s0, before, last.id, last.outcome);
        StepwiseExtends(sys.trail, Now(Apply(sys, last).trail));
      } else if last.Environment? {
        KeptIsNotLess(Now(sys.trail), last.store);
        StepwiseExtends(sys.trail, last.store);
      }
    }
  }

  lemma StepwiseAlone(s: Store)
    ensures Stepwise([s])
  {
  }

  lemma KeptIsNotLess(s: Store, s': Store)
    requires ObservedKept()(s, s')
    ensures NotLess(Observed, s, s')
  {
  }

  /** No resource, as long as it is the same one, is ever observed less far than before. */
  ghost predicate NeverBack(trail: seq<Store>) {
    forall i, j, k: Key :: 0 <= i <= j < |trail| && k.kind.WordPressKind? && Same(trail[i], trail[j], k) ==>
      Observed(trail[i].objects[k]) <= Observed(trail[j].objects[k])
  }

  /** If moreover reads are fresh and passes for one resource do not overlap, then the observed generation of a resource
      never goes back over the run, exactly if every status write that takes effect lands on the resource its pass read,
      or on one that was observed no further. */
  lemma ObservedNeverDecreasesIff(s0: Store, actions: seq<Action>)
    requires IsRun(s0, actions) && Bounded(s0) && Rely(s0, actions, GenerationsKept()) && EveryWriteFits(s0, actions)
    requires Orderly(s0, actions) && Rely(s0, actions, ObservedKept())
    ensures NeverBack(End(s0, actions).trail) <==> EveryWriteAdvances(s0, actions)
  {
    hide IsRun, End, Rely, Orderly, EveryWriteFits, EveryWriteAdvances, Observed, Inv;
    StepsNotBackIff(s0, actions);
    RunInv(s0, actions);
    InvIsTrail(End(s0, actions));
    var t := End(s0, actions).trail;
    if Stepwise(t) {
      forall i, j, k: Key | 0 <= i <= j < |t| && k.kind.WordPressKind? && Same(t[i], t[j], k)
        ensures Observed(t[i].objects[k]) <= Observed(t[j].objects[k])
      {
        NeverLess(t, Observed, i, j, k);
      }
    }
    if NeverBack(t) {
      forall n | 0 < n < |t| ensures NotLess(Observed, t[n - 1], t[n]) {
        forall k: Key | k.kind.WordPressKind? && Same(t[n - 1], t[n], k)
          ensures Observed(t[n - 1].objects[k]) <= Observed(t[n].objects[k])
        {}
      }
    }
  }

  // ---------------------------------------------------------------- the bound does fail

  /** A resource that the schema admits and validation rejects -- its Ingress has no host -- observed at generation
      `seen`. */
  function Hostless(k: Key, birth: nat, generation: nat, seen: int): Object {
    Object(Meta(Uid(k, birth), birth, None, None, None, false, [FINALIZER]),
           WordPressBody(generation,
             WordPressSpec("", "", "", None, "", "", [],
               DatabaseSpec(Internal, "", "", "", None, None),
               ExposureSpec(NoServiceType, 0, 0, None), IngressSpec(true, None, "", "", None),
               PersistenceSpec(false, "", None, []), AutoscalingSpec(false, 0, 0, 0),
               None, None, None, "", "", None, None),
             WordPressStatus(seen, NoPhase, "", 0, 0, "", [])))
  }

  function OnlyResource(k: Key, o: Object, tick: nat): Store {
    Store(map[k := o], map[k := tick])
  }

  lemma ReplacedByServer(k: Key)
    requires k.kind.WordPressKind?
    ensures WellFormed(OnlyResource(k, Hostless(k, 1, 3, 2), 1))
    ensures ServerStep(OnlyResource(k, Hostless(k, 1, 3, 2), 1), OnlyResource(k, Hostless(k, 2, 1, 0), 2))
  {
  }

  lemma ReplacedKeeps(k: Key)
    ensures GenerationsKept()(OnlyResource(k, Hostless(k, 1, 3, 2), 1), OnlyResource(k, Hostless(k, 2, 1, 0), 2))
  {
  }

  lemma RejectsHostless(k: Key, render: Render)
    ensures
      var o := Hostless(k, 1, 3, 2);
      var q := Next(Fetching(k, render), Found(o));
      && q.Working? && q.at == FetchingLatest(0, ThenGiveUp) && q.status.observedGeneration == 2 && q.key == k
      && q.render == render
  {
  }

  lemma RelyExtends(s0: Store, actions: seq<Action>, action: Action, promise: (Store, Store) -> bool)
    requires IsRun(s0, actions + [action]) && IsRun(s0, actions) && Rely(s0, actions, promise)
    requires action.Environment? ==> |End(s0, actions).trail| > 0 && promise(Now(End(s0, actions).trail), action.store)
    ensures Rely(s0, actions + [action], promise)
  {
    hide Enabled, Apply;
    assert (actions + [action])[..|actions|] == actions;
  }

  /** The resource at `k` is of generation 1 and marked as observed at generation 2. */
  ghost predicate MarkedTooFar(s: Store, k: Key) {
    k in s.objects && GenerationOf(s.objects[k]) == 1 && Observed(s.objects[k]) == 2
  }

  /** The bound does fail, although everyone keeps the promises. A resource of generation 3, observed at 2, has an
      Ingress without a host. While a pass is about to save its verdict a user deletes the resource and creates
      another of the same name, and the new one, of generation 1, is marked as observed at generation 2. */
  lemma ReusedNameBreaksTheBound(k: Key, render: Render) returns (s0: Store, actions: seq<Action>)
    requires k.kind.WordPressKind? && Sound(render)
    ensures s0 == OnlyResource(k, Hostless(k, 1, 3, 2), 1) && Bounded(s0)
    ensures IsRun(s0, actions) && Rely(s0, actions, GenerationsKept()) && |End(s0, actions).trail| > 0
    ensures MarkedTooFar(Now(End(s0, actions).trail), k) && !Bounded(Now(End(s0, actions).trail))
  {
    hide Sound, Next, WellFormed, IsRun, End, ServerStep, Rely;
    s0 := OnlyResource(k, Hostless(k, 1, 3, 2), 1);
    ReplacedByServer(k);
    EmptyRun(s0);
    actions := [Start(0, k, render)];
    assert [] + actions == actions;
    RunExtends(s0, [], Start(0, k, render));
    RelyExtends(s0, [], Start(0, k, render), GenerationsKept());
    RunExtends(s0, actions, Step(0, Normal));
    RelyExtends(s0, actions, Step(0, Normal), GenerationsKept());
    actions := actions + [Step(0, Normal)];
    actions := ReplaceAndWrite(s0, actions, k, render);
  }

  /** The rest of that run, from the moment the pass has rejected the spec. */
  lemma ReplaceAndWrite(s0: Store, before: seq<Action>, k: Key, render: Render) returns (actions: seq<Action>)
    requires k.kind.WordPressKind? && IsRun(s0, before) && |End(s0, before).trail| > 0
    requires Rely(s0, before, GenerationsKept())
    requires Now(End(s0, before).trail) == OnlyResource(k, Hostless(k, 1, 3, 2), 1)
    requires 0 in End(s0, before).workers
    requires End(s0, before).workers[0].pass == Next(Fetching(k, render), Found(Hostless(k, 1, 3, 2)))
    ensures IsRun(s0, actions) && Rely(s0, actions, GenerationsKept())
    ensures |End(s0, actions).trail| > 0 && MarkedTooFar(Now(End(s0, actions).trail), k)
  {
    hide Next, WellFormed, IsRun, End, ServerStep, Hostless, Rely, GenerationsKept;
    var s1 := OnlyResource(k, Hostless(k, 2, 1, 0), 2);
    ReplacedByServer(k);
    RejectsHostless(k, render);
    var p := End(s0, before).workers[0].pass;
    RunExtends(s0, before, Environment(s1));
    ReplacedKeeps(k);
    RelyExtends(s0, before, Environment(s1), GenerationsKept());
    actions := before + [Environment(s1)];
    RunExtends(s0, actions, Step(0, Normal));
    RelyExtends(s0, actions, Step(0, Normal), GenerationsKept());
    actions := actions + [Step(0, Normal)];
    WriteFollows(p, s1.objects[k]);
    actions := WriteLands(s0, actions, k);
  }

  lemma WriteLands(s0: Store, before: seq<Action>, k: Key) returns (actions: seq<Action>)
    requires k.kind.WordPressKind? && IsRun(s0, before) && |End(s0, before).trail| > 0
    requires Rely(s0, before, GenerationsKept())
    requires Now(End(s0, before).trail) == OnlyResource(k, Hostless(k, 2, 1, 0), 2)
    requires 0 in End(s0, before).workers
    requires
      var p := End(s0, before).workers[0].pass;
      p.Working? && p.key == k && p.at == WritingStatus(0, ThenGiveUp, Hostless(k, 2, 1, 0)) &&
      p.status.observedGeneration == 2
    ensures IsRun(s0, actions) && Rely(s0, actions, GenerationsKept())
    ensures |End(s0, actions).trail| > 0 && MarkedTooFar(Now(End(s0, actions).trail), k)
  {
    hide Next, WellFormed, IsRun, End, ServerStep, Rely, GenerationsKept;
    RunExtends(s0, before, Step(0, Normal));
    RelyExtends(s0, before, Step(0, Normal), GenerationsKept());
    actions := before + [Step(0, Normal)];
  }

  lemma EmptyRun(s0: Store)
    requires WellFormed(s0)
    ensures IsRun(s0, []) && End(s0, []) == System([s0], map[]) && Rely(s0, [], GenerationsKept())
  {
  }

  lemma WriteFollows(p: Pass, o: Object)
    requires p.Working? && p.at.FetchingLatest?
    ensures
      var q := Next(p, Found(o));
      q == p.(at := WritingStatus(p.at.attempt, p.at.after, o))
  {
  }
}
