/** Passes for two resources with disjoint footprints do not disturb each other, however their calls interleave. */
module TwoResources {
  import opened Types
  import opened Names
  import opened Defaults
  import opened Server
  import opened Machine
  import opened Quiet
  import Footprint

  // ---------------------------------------------------------------- calls on different keys commute

  ghost predicate AgreeAt(s: Store, s': Store, k: Key) {
    && (k in s.objects <==> k in s'.objects) && (k in s.objects ==> s.objects[k] == s'.objects[k])
    && (k in s.ticks <==> k in s'.ticks) && (k in s.ticks ==> s.ticks[k] == s'.ticks[k])
  }

  lemma Extensional(s: Store, s': Store)
    requires forall k :: AgreeAt(s, s', k)
    ensures s == s'
  {
    assert s.objects.Keys == s'.objects.Keys && s.ticks.Keys == s'.ticks.Keys by {
      forall k ensures (k in s.objects <==> k in s'.objects) && (k in s.ticks <==> k in s'.ticks) {
        assert AgreeAt(s, s', k);
      }
    }
    forall k | k in s.objects ensures s.objects[k] == s'.objects[k] { assert AgreeAt(s, s', k); }
    forall k | k in s.ticks ensures s.ticks[k] == s'.ticks[k] { assert AgreeAt(s, s', k); }
    assert s.objects == s'.objects && s.ticks == s'.ticks;
  }

  lemma ExecElsewhere(s: Store, r: Request, k: Key)
    requires k != r.key
    ensures AgreeAt(s, Exec(s, r).0, k)
  {
  }

  /** A call depends on nothing but what is stored at its key. */
  lemma ExecIsLocal(s: Store, s': Store, r: Request)
    requires AgreeAt(s, s', r.key)
    ensures Exec(s, r).1 == Exec(s', r).1 && AgreeAt(Exec(s, r).0, Exec(s', r).0, r.key)
  {
  }

  lemma ExecCommutes(s: Store, a: Request, b: Request)
    requires a.key != b.key || (a.Get? && b.Get?)
    ensures Exec(Exec(s, a).0, b).1 == Exec(s, b).1
    ensures Exec(Exec(s, a).0, b).0 == Exec(Exec(s, b).0, a).0
  {
    hide ExecCreate, ExecDelete, ExecUpdate, ExecUpdateStatus;
    if a.key != b.key {
      var sa, sb := Exec(s, a).0, Exec(s, b).0;
      ExecElsewhere(s, a, b.key);
      ExecElsewhere(s, b, a.key);
      ExecIsLocal(s, sa, b);
      ExecIsLocal(s, sb, a);
      forall k ensures AgreeAt(Exec(sa, b).0, Exec(sb, a).0, k) {
        if k != b.key { ExecElsewhere(sa, b, k); ExecElsewhere(s, b, k); }
        if k != a.key { ExecElsewhere(sb, a, k); ExecElsewhere(s, a, k); }
      }
      Extensional(Exec(sa, b).0, Exec(sb, a).0);
    }
  }

  // ---------------------------------------------------------------- a pass stays within its footprint

  /** Only in External mode is the external Secret read. */
  ghost predicate ReadsNothingOf(wp: WordPress, other: Key) {
    wp.spec.database.mode.External? ==> !MayWrite(other, ExternalSecretKey(wp))
  }

  /** No call of the pass, now or later, is on a key that a pass for `other` may write. */
  ghost predicate Separate(s: Store, p: Pass, other: Key) {
    && p.key.kind.WordPressKind?
    && (forall k :: !(MayWrite(p.key, k) && MayWrite(other, k)))
    && (p.Fetching? && p.key in s.objects && s.objects[p.key].body.WordPressBody? ==>
          ReadsNothingOf(InMemory(s, p.key), other))
    && (p.Working? ==> p.wp.key == p.key && ReadsNothingOf(p.wp, other))
    && (p.Working? && p.at.CheckingSecret? ==> p.wp.spec.database.mode.External?)
  }

  /** A pass reads no key but those it may write and the external Secret, and writes no key but those. */
  lemma CallsStayInside(p: Pass)
    requires !p.Finished? && (p.Working? ==> p.wp.key == p.key)
    ensures MayWrite(p.key, Call(p).key) ||
            (p.Working? && p.at.CheckingSecret? && Call(p) == Get(ExternalSecretKey(p.wp)))
  {
  }

  lemma SeparateNext(s: Store, p: Pass, other: Key)
    requires !p.Finished? && Separate(s, p, other)
    ensures
      var (s', r) := Exec(s, Call(p));
      Separate(s', Next(p, r), other)
  {
    hide Next, Defaulted, MayWrite, ExternalSecretKey, WithSpec, WithStatus;
    var (s', r) := Exec(s, Call(p));
    NextContinues(p, r);
    match p
    case Fetching(k, _) => SeparateFetched(s, p, other);
    case Working(_, _, _, _, _) =>
  }

  lemma SeparateFetched(s: Store, p: Pass, other: Key)
    requires p.Fetching? && Separate(s, p, other)
    ensures
      var q := Next(p, Look(s, p.key));
      q.Working? ==>
        && q.wp.key == p.key && ReadsNothingOf(q.wp, other)
        && (q.at.CheckingSecret? ==> q.wp.spec.database.mode.External?)
  {
    hide Admit, Defaulted, MayWrite;
    if p.key in s.objects && s.objects[p.key].body.WordPressBody? {
      var o := s.objects[p.key];
      var cr := WordPress(p.key, o.meta, o.body.generation, o.body.spec, o.body.status);
      AdmitContinues(p, cr);
      DefaultsKeepTheSecret(cr);
      assert InMemory(s, p.key) == cr.(spec := Defaulted(cr.spec));
    }
  }

  lemma DefaultsKeepTheSecret(wp: WordPress)
    ensures ExternalSecretKey(wp.(spec := Defaulted(wp.spec))) == ExternalSecretKey(wp)
    ensures Defaulted(wp.spec).database.mode.External? <==> wp.spec.database.mode.External?
  {
  }

  /** Another resource's call leaves the separation alone. */
  lemma SeparateFrame(s: Store, p: Pass, q: Pass)
    requires Separate(s, p, q.key) && !q.Finished? && (q.Working? ==> q.wp.key == q.key)
    ensures Separate(Exec(s, Call(q)).0, p, q.key)
  {
    hide MayWrite, Call, Exec, ExternalSecretKey, Defaulted;
    SelfWritten(p.key);
    OnlyOwnKeysChange(s, q, p.key);
  }

  lemma SelfWritten(cr: Key)
    ensures MayWrite(cr, cr)
  {
  }

  lemma OnlyOwnKeysChange(s: Store, q: Pass, k: Key)
    requires !q.Finished? && (q.Working? ==> q.wp.key == q.key) && !MayWrite(q.key, k)
    ensures AgreeAt(s, Exec(s, Call(q)).0, k)
  {
  }

  // ---------------------------------------------------------------- interleavings

  ghost predicate Independent(s: Store, a: Pass, b: Pass) {
    Separate(s, a, b.key) && Separate(s, b, a.key)
  }

  lemma CallsAreIndependent(s: Store, a: Pass, b: Pass)
    requires Independent(s, a, b) && !a.Finished? && !b.Finished?
    ensures Call(a).key != Call(b).key || (Call(a).Get? && Call(b).Get?)
  {
    hide MayWrite, Call, ExternalSecretKey;
    CallsStayInside(a);
    CallsStayInside(b);
  }

  lemma IndependentAfter(s: Store, a: Pass, b: Pass)
    requires Independent(s, a, b) && !a.Finished?
    ensures
      var (s', r) := Exec(s, Call(a));
      Independent(s', Next(a, r), b)
  {
    hide Separate, Exec, Next, Call;
    SeparateNext(s, a, b.key);
    InsideItself(s, a, b.key);
    SeparateFrame(s, b, a);
    NextContinues(a, Exec(s, Call(a)).1);
  }

  lemma InsideItself(s: Store, p: Pass, other: Key)
    requires Separate(s, p, other)
    ensures p.Working? ==> p.wp.key == p.key
  {
  }

  /** Running one pass to its end commutes with a single call of the other. */
  lemma {:induction false} RunThenCall(s: Store, a: Pass, b: Pass)
    requires Independent(s, a, b) && !b.Finished?
    ensures
      var (sa, a') := RunQuiet(s, a);
      var (sb, r) := Exec(s, Call(b));
      Exec(sa, Call(b)).1 == r && RunQuiet(sb, a) == (Exec(sa, Call(b)).0, a')
    decreases Rank(a)
  {
    hide Independent, Exec, Call, Next, Rank, Quiet.RunQuiet;
    if a.Finished? {
      RunFinished(s, a);
      RunFinished(Exec(s, Call(b)).0, a);
    } else {
      var (s1, r1) := Exec(s, Call(a));
      CallsAreIndependent(s, a, b);
      ExecCommutes(s, Call(a), Call(b));
      ExecCommutes(s, Call(b), Call(a));
      StepOnce(s, a);
      StepOnce(Exec(s, Call(b)).0, a);
      IndependentAfter(s, a, b);
      RankDecreases(a, r1);
      RunThenCall(s1, Next(a, r1), b);
    }
  }

  /** Two passes whose calls interleave as `turns` says: true is a call of the first, false of the second. */
  function Weave(s: Store, a: Pass, b: Pass, turns: seq<bool>): (Store, Pass, Pass)
    decreases |turns|
  {
    if turns == [] then (s, a, b)
    else if turns[0] then
      if a.Finished? then Weave(s, a, b, turns[1..])
      else var (s', r) := Exec(s, Call(a)); Weave(s', Next(a, r), b, turns[1..])
    else
      if b.Finished? then Weave(s, a, b, turns[1..])
      else var (s', r) := Exec(s, Call(b)); Weave(s', a, Next(b, r), turns[1..])
  }

  /** Every interleaving of two independent passes that lets both finish has the same outcome -- the same store, down to
      versions and identities, and the same results -- as running one after the other. */
  lemma {:induction false} InterleavingsAgree(s: Store, a: Pass, b: Pass, turns: seq<bool>)
    requires Independent(s, a, b)
    requires var (_, a', b') := Weave(s, a, b, turns); a'.Finished? && b'.Finished?
    ensures
      var (sa, a') := RunQuiet(s, a);
      var (sab, b') := RunQuiet(sa, b);
      Weave(s, a, b, turns) == (sab, a', b')
    decreases |turns|
  {
    hide Independent, Exec, Call, Next, Quiet.RunQuiet;
    if turns == [] {
      RunFinished(s, a);
      RunFinished(s, b);
    } else if turns[0] {
      if a.Finished? {
        InterleavingsAgree(s, a, b, turns[1..]);
      } else {
        var (s1, r) := Exec(s, Call(a));
        StepOnce(s, a);
        IndependentAfter(s, a, b);
        InterleavingsAgree(s1, Next(a, r), b, turns[1..]);
      }
    } else if b.Finished? {
      InterleavingsAgree(s, a, b, turns[1..]);
    } else {
      var (s1, r) := Exec(s, Call(b));
      RunThenCall(s, a, b);
      StepOnce(RunQuiet(s, a).0, b);
      IndependentSymmetric(s, a, b);
      IndependentAfter(s, b, a);
      IndependentSymmetric(s1, Next(b, r), a);
      InterleavingsAgree(s1, a, Next(b, r), turns[1..]);
    }
  }

  lemma IndependentSymmetric(s: Store, a: Pass, b: Pass)
    ensures Independent(s, a, b) <==> Independent(s, b, a)
  {
  }

  /** Two resources of one namespace, neither of which is named like the other's database, and neither of which
      connects to its database with the other's generated Secret: all interleavings of their passes agree with any
      sequential order. */
  lemma TwoPassesCommute(s: Store, a: Key, b: Key, ra: Render, rb: Render, turns: seq<bool>)
    requires a.kind.WordPressKind? && b.kind.WordPressKind? && a.ns == b.ns && a.name != b.name
    requires a.name != b.name + "-mysql" && b.name != a.name + "-mysql"
    requires UsesOwnSecret(s, a, b) && UsesOwnSecret(s, b, a)
    requires var (_, a', b') := Weave(s, Fetching(a, ra), Fetching(b, rb), turns); a'.Finished? && b'.Finished?
    ensures
      var (sa, a') := QuietPass(s, a, ra);
      var (sab, b') := QuietPass(sa, b, rb);
      Weave(s, Fetching(a, ra), Fetching(b, rb), turns) == (sab, a', b')
    ensures
      var (sb, b') := QuietPass(s, b, rb);
      var (sba, a') := QuietPass(sb, a, ra);
      Weave(s, Fetching(a, ra), Fetching(b, rb), turns) == (sba, a', b')
  {
    hide Weave, Quiet.RunQuiet, InMemory, MayWrite;
    var pa, pb := Fetching(a, ra), Fetching(b, rb);
    forall k { Footprint.ApartUnless(a, b, k); }
    ForeignSecret(s, a, b);
    ForeignSecret(s, b, a);
    assert Independent(s, pa, pb);
    InterleavingsAgree(s, pa, pb, turns);
    WeaveFlipped(s, pa, pb, turns);
    InterleavingsAgree(s, pb, pa, Flipped(turns));
  }

  /** The resource at `x` does not connect with the Secret generated for the resource at `y`. */
  ghost predicate UsesOwnSecret(s: Store, x: Key, y: Key) {
    x in s.objects && s.objects[x].body.WordPressBody? && s.objects[x].body.spec.database.mode.External? ==>
      ExternalSecretKey(InMemory(s, x)) != ChildKey(DbSecret, y)
  }

  /** The only Secret a pass may write is the generated one. */
  lemma ForeignSecret(s: Store, x: Key, y: Key)
    requires y.kind.WordPressKind? && UsesOwnSecret(s, x, y)
    ensures x in s.objects && s.objects[x].body.WordPressBody? ==> ReadsNothingOf(InMemory(s, x), y)
  {
    hide Defaulted;
    if x in s.objects && s.objects[x].body.WordPressBody? {
      var o := s.objects[x];
      DefaultsKeepTheSecret(WordPress(x, o.meta, o.body.generation, o.body.spec, o.body.status));
    }
  }

  function Flipped(turns: seq<bool>): seq<bool> {
    if turns == [] then [] else [!turns[0]] + Flipped(turns[1..])
  }

  lemma {:induction false} WeaveFlipped(s: Store, a: Pass, b: Pass, turns: seq<bool>)
    ensures
      var (s', a', b') := Weave(s, a, b, turns);
      Weave(s, b, a, Flipped(turns)) == (s', b', a')
    decreases |turns|
  {
    hide Exec, Call, Next;
    if turns != [] {
      var (first, rest) := (turns[0], turns[1..]);
      assert Flipped(turns)[1..] == Flipped(rest);
      if first && !a.Finished? {
        var (s1, r) := Exec(s, Call(a));
        WeaveFlipped(s1, Next(a, r), b, rest);
      } else if !first && !b.Finished? {
        var (s1, r) := Exec(s, Call(b));
        WeaveFlipped(s1, a, Next(b, r), rest);
      } else {
        WeaveFlipped(s, a, b, rest);
      }
    }
  }
}
