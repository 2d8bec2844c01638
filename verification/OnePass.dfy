/** What one pass does for every possible sequence of answers: when it ends, how it ends, and what it never writes. */
module OnePass {
  import opened Types
  import opened Names
  import opened Conditions
  import opened Defaults
  import opened Drift
  import opened Server
  import opened Machine
  import opened System
  import opened Guarantee
  import opened Safety
  import Convergence

  /** The pass after the given answers, or its end if that comes first. */
  function Feed(p: Pass, answers: seq<Response>): Pass
    decreases |answers|
  {
    if p.Finished? || answers == [] then p else Feed(Next(p, answers[0]), answers[1..])
  }

  /** Whatever the server answers, a pass ends after at most 28 calls; five attempts at the status are part of them. */
  lemma {:induction false} EveryPassEnds(p: Pass, answers: seq<Response>)
    requires Rank(p) <= |answers|
    ensures Feed(p, answers).Finished?
    decreases |answers|
  {
    hide Next, Rank;
    if !p.Finished? {
      RankIsPositive(p);
      RankDecreases(p, answers[0]);
      EveryPassEnds(Next(p, answers[0]), answers[1..]);
    }
  }

  lemma RankIsPositive(p: Pass)
    ensures Rank(p) == 0 <==> p.Finished?
    ensures Rank(p) <= 28
  {
  }

  lemma {:induction false} FeedLast(p: Pass, answers: seq<Response>, r: Response)
    ensures
      var q := Feed(p, answers);
      Feed(p, answers + [r]) == if q.Finished? then q else Next(q, r)
    decreases |answers|
  {
    hide Next;
    var more := answers + [r];
    if !p.Finished? && answers != [] {
      assert more[1..] == answers[1..] + [r];
      FeedLast(Next(p, answers[0]), answers[1..], r);
    } else if !p.Finished? {
      assert more[1..] == [];
    }
  }

  // ---------------------------------------------------------------- every quiet end

  /** No further attempt at the status follows. */
  predicate LastAttempt(attempt: nat, r: Response) {
    r != Refused(Conflict) || attempt + 1 >= WRITE_ATTEMPTS
  }

  datatype QuietEnd = Absent | Released | Admitted | SpecRejected | ConflictSwallowed | SiteReady

  /** Why the answer `r` ends the pass without an error and without asking to be run again, if it does. */
  function WhyQuiet(p: Pass, r: Response): Option<QuietEnd> {
    match p
    case Finished(_, _, _) => None
    case Fetching(_, _) =>
      if r == Refused(NotFound) then Some(Absent)
      else if r.Found? && r.obj.body.WordPressBody? && r.obj.meta.deleting && !HasFinalizer(r.obj.meta) then
        Some(Released)
      else None
    case Working(_, _, _, status, at) =>
      match at
      case AddingFinalizer => if r.Refused? then None else Some(Admitted)
      case ReleasingResource =>
        if !r.Refused? then Some(Released) else if r == Refused(Conflict) then Some(ConflictSwallowed) else None
      case Reading(c) => if r == Refused(Conflict) && !IsDatabase(c) then Some(ConflictSwallowed) else None
      case Creating(c) => if r == Refused(Conflict) && !IsDatabase(c) then Some(ConflictSwallowed) else None
      case Updating(c, _) => if r == Refused(Conflict) && !IsDatabase(c) then Some(ConflictSwallowed) else None
      case Deleting(c, _) => if r == Refused(Conflict) && !IsDatabase(c) then Some(ConflictSwallowed) else None
      case ReadingStatus => if r == Refused(Conflict) then Some(ConflictSwallowed) else None
      case FetchingLatest(attempt, after) =>
        if r.Found? || !LastAttempt(attempt, r) then None else WhyQuietAfter(p, r, after)
      case WritingStatus(attempt, after, _) =>
        if !LastAttempt(attempt, r) then None else WhyQuietAfter(p, r, after)
      case _ => None
  }

  function WhyQuietAfter(p: Pass, r: Response, after: After): Option<QuietEnd>
    requires p.Working?
  {
    match after
    case ThenGiveUp => Some(SpecRejected)
    case ThenReturn(e) => if e == Conflict then Some(ConflictSwallowed) else None
    case ThenWait => None
    case ThenReport =>
      if r == Refused(Conflict) then Some(ConflictSwallowed)
      else if p.at.WritingStatus? && !r.Refused? && p.status.phase.Ready? then Some(SiteReady)
      else None
  }

  lemma ApproachIsNeverQuiet(p: Pass, c: Child)
    requires p.Working?
    ensures Approach(p, c).Finished? ==> Approach(p, c).result != QUIET
    ensures ApproachDeployment(p).Finished? ==> ApproachDeployment(p).result != QUIET
    ensures AfterDatabase(p).Finished? ==> AfterDatabase(p).result != QUIET
  {
  }

  lemma ProceedIsNeverQuiet(p: Pass, c: Child)
    requires p.Working?
    ensures Proceed(p, c).Finished? ==> Proceed(p, c).result != QUIET
  {
  }

  lemma SettleIsNeverQuiet(p: Pass, c: Child, found: Option<Object>)
    requires p.Working?
    ensures Settle(p, c, found).Finished? ==> Settle(p, c, found).result != QUIET
  {
  }

  lemma AdmitEnds(p: Pass, cr: WordPress)
    ensures Admit(p, cr).Finished? ==> (Admit(p, cr).result == QUIET <==> cr.meta.deleting && !HasFinalizer(cr.meta))
    ensures cr.meta.deleting && !HasFinalizer(cr.meta) ==> Admit(p, cr).Finished?
  {
  }

  lemma AfterReadEnds(p: Pass, c: Child, r: Response)
    requires p.Working?
    ensures
      var q := AfterRead(p, c, r);
      q.Finished? && q.result == QUIET <==> r == Refused(Conflict) && !IsDatabase(c)
  {
  }

  lemma QuietEnds(p: Pass, r: Response)
    requires !p.Finished?
    ensures Next(p, r).Finished? && Next(p, r).result == QUIET <==> WhyQuiet(p, r).Some?
  {
    hide Proceed, AfterDatabase, Settle, SetCondition, ReportedStatus, AfterRead, Admit;
    match p
    case Fetching(k, _) =>
      if r.Found? && r.obj.body.WordPressBody? {
        AdmitEnds(p, WordPress(k, r.obj.meta, r.obj.body.generation, r.obj.body.spec, r.obj.body.status));
      }
    case Working(_, _, _, _, at) =>
      match at
      case CheckingSecret => ApproachIsNeverQuiet(Mark(p, EXTERNAL_OK), Deployment);
      case Reading(c) => AfterReadEnds(p, c, r);
      case Creating(c) => SettleIsNeverQuiet(p, c, None);
      case Updating(c, found) => SettleIsNeverQuiet(p, c, Some(found));
      case Deleting(c, _) => ProceedIsNeverQuiet(p, c);
      case _ =>
  }

  /** Exactly when a pass gives up: it ends with no error and no delay if and only if one of its answers was a reason
      to -- the resource is absent; it is being deleted and was released, now or before; it was just admitted by
      adding the finalizer; its spec was rejected; a conflict was swallowed; or a status that says Ready was saved. */
  lemma {:induction false} GivesUpExactlyIf(key: Key, render: Render, answers: seq<Response>)
    requires Feed(Fetching(key, render), answers).Finished?
    ensures
      var p := Fetching(key, render);
      Feed(p, answers).result == QUIET <==>
      exists n :: 0 <= n < |answers| && WhyQuiet(Feed(p, answers[..n]), answers[n]).Some?
    decreases |answers|
  {
    hide Next, WhyQuiet;
    var p := Fetching(key, render);
    var before, r := answers[..|answers| - 1], answers[|answers| - 1];
    assert answers == before + [r];
    FeedLast(p, before, r);
    var q := Feed(p, before);
    forall n | 0 <= n < |before| ensures answers[..n] == before[..n] && answers[n] == before[n] {}
    if q.Finished? {
      GivesUpExactlyIf(key, render, before);
      FinishedHasNoReason(q, r);
      if n :| 0 <= n < |before| && WhyQuiet(Feed(p, before[..n]), before[n]).Some? {
        assert WhyQuiet(Feed(p, answers[..n]), answers[n]).Some?;
      }
    } else {
      QuietEnds(q, r);
      forall n | 0 <= n < |before| ensures WhyQuiet(Feed(p, answers[..n]), answers[n]).None? {
        assert before[..n + 1] == before[..n] + [before[n]];
        FeedLast(p, before[..n], before[n]);
        UnfinishedPrefix(p, before, n);
        UnfinishedPrefix(p, before, n + 1);
        QuietEnds(Feed(p, before[..n]), before[n]);
      }
      if WhyQuiet(q, r).Some? { assert WhyQuiet(Feed(p, answers[..|before|]), answers[|before|]).Some?; }
    }
  }

  lemma FinishedHasNoReason(p: Pass, r: Response)
    ensures p.Finished? ==> WhyQuiet(p, r).None?
  {
  }

  lemma {:induction false} UnfinishedPrefix(p: Pass, answers: seq<Response>, n: nat)
    requires n <= |answers| && !Feed(p, answers).Finished?
    ensures !Feed(p, answers[..n]).Finished?
    decreases |answers| - n
  {
    hide Next;
    if n == |answers| {
      assert answers[..n] == answers;
    } else {
      UnfinishedPrefix(p, answers, n + 1);
      assert answers[..n + 1] == answers[..n] + [answers[n]];
      FeedLast(p, answers[..n], answers[n]);
    }
  }

  // ---------------------------------------------------------------- giving up

  /** In the middle of reconciling a valid resource, with no conflict met yet. */
  ghost predicate InGoodStanding(p: Pass) {
    p.Working? &&
    match p.at
    case AddingFinalizer | FindingData | DeletingData | ReleasingResource => false
    case FetchingLatest(_, after) => !after.ThenGiveUp? && after != ThenReturn(Conflict)
    case WritingStatus(_, after, _) => !after.ThenGiveUp? && after != ThenReturn(Conflict)
    case _ => true
  }

  /** The answer ends the pass with the status saved and the site Ready. */
  ghost predicate ReportsReady(p: Pass, r: Response) {
    p.Working? && p.at.WritingStatus? && p.at.after.ThenReport? && !r.Refused? && p.status.phase.Ready?
  }

  lemma StandingProceed(p: Pass, c: Child)
    requires p.Working?
    ensures
      var q := Proceed(p, c);
      if q.Finished? then q.result != QUIET else InGoodStanding(q)
  {
  }

  lemma StandingAfterDatabase(p: Pass)
    requires p.Working?
    ensures
      var q := AfterDatabase(p);
      if q.Finished? then q.result != QUIET else InGoodStanding(q)
  {
  }

  lemma StandingNext(p: Pass, r: Response)
    requires InGoodStanding(p) && r != Refused(Conflict)
    ensures
      var q := Next(p, r);
      if q.Finished? then q.result == QUIET <==> ReportsReady(p, r) else InGoodStanding(q)
  {
    hide Proceed, AfterDatabase, SetCondition, RemoveCondition, ReportedStatus, Merge, NeedsUpdate, Wanted;
    forall q: Pass, c: Child | q.Working? { StandingProceed(q, c); }
    forall q: Pass | q.Working? { StandingAfterDatabase(q); }
  }

  lemma {:induction false} QuietMeansReady(p: Pass, answers: seq<Response>)
    requires InGoodStanding(p) && Refused(Conflict) !in answers
    requires Feed(p, answers).Finished?
    ensures Feed(p, answers).result == QUIET <==>
            exists n :: 0 <= n < |answers| && ReportsReady(Feed(p, answers[..n]), answers[n])
    decreases |answers|
  {
    hide InGoodStanding, ReportsReady, Next;
    GoodIsWorking(p);
    if answers != [] {
      var q := Next(p, answers[0]);
      StandingNext(p, answers[0]);
      assert Feed(p, answers[..0]) == p;
      if q.Finished? {
        forall n | 0 < n < |answers| ensures !ReportsReady(Feed(p, answers[..n]), answers[n]) {
          assert answers[..n][0] == answers[0];
          assert Feed(q, answers[..n][1..]) == q;
          FinishedReportsNothing(q, answers[n]);
        }
      } else {
        var rest := answers[1..];
        QuietMeansReady(q, rest);
        forall n | 0 <= n < |rest|
          ensures Feed(p, answers[..n + 1]) == Feed(q, rest[..n]) && answers[n + 1] == rest[n]
        {
          assert answers[..n + 1][1..] == rest[..n];
        }
        UnfinishedReportsNothing(p, answers[0]);
        if m :| 0 <= m < |answers| && ReportsReady(Feed(p, answers[..m]), answers[m]) {
          assert ReportsReady(Feed(q, rest[..m - 1]), rest[m - 1]);
        }
      }
    }
  }

  lemma GoodIsWorking(p: Pass)
    ensures InGoodStanding(p) ==> p.Working?
  {
  }

  lemma FinishedReportsNothing(p: Pass, r: Response)
    requires p.Finished?
    ensures !ReportsReady(p, r)
  {
  }

  lemma UnfinishedReportsNothing(p: Pass, r: Response)
    requires !p.Finished? && !Next(p, r).Finished?
    ensures !ReportsReady(p, r)
  {
  }

  lemma BeginStanding(p: Pass)
    requires p.Working?
    ensures
      var q := Begin(p);
      if q.Finished? then q.result != QUIET else InGoodStanding(q)
  {
  }

  /** A pass for a live, valid resource that holds the finalizer, in which no call met a conflict, ends without an error
      and without asking to be run again exactly when it saved a status that says Ready. So it never gives up silently:
      unless the site is Ready or a conflict was swallowed, either an error or a delay brings it back. */
  lemma GivesUpOnlyWhenReady(key: Key, render: Render, cr: Object, answers: seq<Response>)
    requires cr.body.WordPressBody? && !cr.meta.deleting && HasFinalizer(cr.meta)
    requires Validate(Defaulted(cr.body.spec)).None? && Refused(Conflict) !in answers
    requires Feed(Fetching(key, render), [Found(cr)] + answers).Finished?
    ensures
      var start := Next(Fetching(key, render), Found(cr));
      Feed(Fetching(key, render), [Found(cr)] + answers).result == QUIET <==>
      exists n :: 0 <= n < |answers| && ReportsReady(Feed(start, answers[..n]), answers[n])
  {
    hide Defaulted, Validate, Begin, ReportsReady, InGoodStanding;
    var start := Next(Fetching(key, render), Found(cr));
    assert ([Found(cr)] + answers)[1..] == answers;
    var wp := WordPress(key, cr.meta, cr.body.generation, cr.body.spec, cr.body.status);
    var p := Working(key, render, wp.(spec := Defaulted(wp.spec)), wp.status, AddingFinalizer);
    assert start == Begin(p);
    BeginStanding(p);
    if start.Finished? {
      forall n | 0 <= n < |answers| ensures !ReportsReady(Feed(start, answers[..n]), answers[n]) {
        FinishedReportsNothing(start, answers[n]);
      }
    } else {
      QuietMeansReady(start, answers);
    }
  }

  /** The other ways a pass ends quietly: there is no resource, it is on its way out, it just got the finalizer, or its
      spec is invalid -- the last whatever becomes of the status write. */
  lemma QuietWithoutWork(key: Key, render: Render, first: Response, answers: seq<Response>)
    requires Feed(Fetching(key, render), [first] + answers).Finished?
    ensures first == Refused(NotFound) ==> Feed(Fetching(key, render), [first] + answers).result == QUIET
    ensures first.Found? && first.obj.body.WordPressBody? &&
            first.obj.meta.deleting && !HasFinalizer(first.obj.meta) ==>
              Feed(Fetching(key, render), [first] + answers).result == QUIET
    ensures first.Found? && first.obj.body.WordPressBody? &&
            !first.obj.meta.deleting && !HasFinalizer(first.obj.meta) ==>
              (Feed(Fetching(key, render), [first] + answers).result == QUIET <==>
               answers != [] && !answers[0].Refused?)
    ensures first.Found? && first.obj.body.WordPressBody? && !first.obj.meta.deleting && HasFinalizer(first.obj.meta) &&
            Validate(Defaulted(first.obj.body.spec)).Some? ==>
              Feed(Fetching(key, render), [first] + answers).result == QUIET
  {
    hide Defaulted, Validate, Begin, FailedStatus, Retained;
    var start := Next(Fetching(key, render), first);
    assert ([first] + answers)[1..] == answers;
    if start.Working? && start.at.FetchingLatest? && start.at.after.ThenGiveUp? { GiveUpIsQuiet(start, answers); }
    if start.Working? && start.at.AddingFinalizer? && answers != [] {
      assert Feed(start, answers) == Next(start, answers[0]);
    }
  }

  lemma {:induction false} GiveUpIsQuiet(p: Pass, answers: seq<Response>)
    requires p.Working? && Feed(p, answers).Finished?
    requires (p.at.FetchingLatest? || p.at.WritingStatus?) && p.at.after.ThenGiveUp?
    ensures Feed(p, answers).result == QUIET
    decreases |answers|
  {
    if answers != [] && !Next(p, answers[0]).Finished? { GiveUpIsQuiet(Next(p, answers[0]), answers[1..]); }
  }

  // ---------------------------------------------------------------- what is never written

  /** In External mode no pass creates, updates or deletes any of the MySQL objects of its resource. */
  lemma ExternalModeLeavesMySQLAlone(s0: Store, actions: seq<Action>, id: nat, outcome: Outcome, p: Pass,
                                     s: Store, s': Store, c: Child)
    requires CallOfRun(s0, actions, id, outcome, p, s, s') && IsDatabase(c)
    requires p.Working? && p.wp.spec.database.mode.External?
    ensures
      var k := ChildKey(c, p.key);
      (k in s.objects <==> k in s'.objects) && (k in s.objects ==> s'.objects[k] == s.objects[k])
  {
    hide Apply, Effect, Legal, PassInv, ChildKey;
    CallFacts(s0, actions, id, outcome, p, s, s');
    var trail := End(s0, actions).trail;
    ExternalVisitsNoDatabase(trail, p, c);
    EffectElsewhere(s, s', p, c);
  }

  /** The pass is not at a database child, nor on its way out. */
  ghost predicate AwayFrom(p: Pass, c: Child)
    requires p.Working?
  {
    && !p.at.DeletingData?
    && (p.at.Creating? || p.at.Updating? || p.at.Deleting? ==> p.at.child != c)
  }

  lemma ExternalVisitsNoDatabase(trail: seq<Store>, p: Pass, c: Child)
    requires PassInv(trail, p) && p.Working? && p.wp.spec.database.mode.External? && IsDatabase(c)
    ensures AwayFrom(p, c) && p.key.kind.WordPressKind?
  {
    hide Sound, ChildKey;
  }

  lemma EffectElsewhere(s: Store, s': Store, p: Pass, c: Child)
    requires Effect(s, s', p) && p.Working? && AwayFrom(p, c) && p.key.kind.WordPressKind? && IsDatabase(c)
    ensures
      var k := ChildKey(c, p.key);
      (k in s.objects <==> k in s'.objects) && (k in s.objects ==> s'.objects[k] == s.objects[k])
  {
    hide Without, StatusPatch, Merge, ChildKey, HasFinalizer;
    DatabaseKinds(c, p.key);
    if p.at.Creating? || p.at.Updating? || p.at.Deleting? { Convergence.KeysDiffer(p.at.child, c, p.key); }
  }

  lemma DatabaseKinds(c: Child, cr: Key)
    ensures IsDatabase(c) && cr.kind.WordPressKind? ==> ChildKey(c, cr) != cr && ChildKey(c, cr) != DataKey(cr)
  {
  }

  // ---------------------------------------------------------------- saving the status

  /** The pass reads its resource or writes the status `st` to it, and makes no other call. */
  ghost predicate OnlySaves(q: Pass, key: Key, st: WordPressStatus) {
    q.Finished? ||
    (&& q.Working? && q.key == key
     && (|| Call(q) == Get(key)
         || (&& Call(q).UpdateStatus? && Call(q).key == key
             && (Call(q).obj.body.WordPressBody? ==> Call(q).obj.body.status == st))))
  }

  /** How a pass ends that saved its status for the reason `after`, or could not (`error`). */
  ghost predicate EndsAs(q: Pass, after: After, st: WordPressStatus, error: Option<Error>) {
    && q.Finished?
    && match after
       case ThenGiveUp => q.result == Result(None, 0)
       case ThenReturn(e) => q.result == Result(if e == Conflict then None else Some(e), 0)
       case ThenWait => q.result == Result(error, 30)
       case ThenReport =>
         if error.Some? then q.result == Result(if error == Some(Conflict) then None else error, 0)
         else q.result == Result(None, if st.phase == Ready then 0 else 15)
  }

  /** From there to the end, whatever the answers. */
  lemma {:induction false} SavingIsAllThatFollows(p: Pass, answers: seq<Response>)
    requires p.Working? && (p.at.FetchingLatest? || p.at.WritingStatus?)
    ensures OnlySaves(Feed(p, answers), p.key, p.status)
    ensures Feed(p, answers).Finished? ==>
              exists error :: EndsAs(Feed(p, answers), p.at.after, p.status, error)
    decreases |answers|
  {
    hide EndsAs;
    if answers != [] {
      SavingGoesOn(p, answers[0]);
      if !Next(p, answers[0]).Finished? { SavingIsAllThatFollows(Next(p, answers[0]), answers[1..]); }
    }
  }

  lemma SavingGoesOn(p: Pass, r: Response)
    requires p.Working? && (p.at.FetchingLatest? || p.at.WritingStatus?)
    ensures
      var q := Next(p, r);
      if q.Finished? then exists error :: EndsAs(q, p.at.after, p.status, error)
      else q.Working? && q.key == p.key && q.status == p.status &&
           (q.at.FetchingLatest? || q.at.WritingStatus?) && q.at.after == p.at.after
  {
    var q := Next(p, r);
    if q.Finished? {
      assert EndsAs(q, p.at.after, p.status, None) || EndsAs(q, p.at.after, p.status, Some(Conflict)) ||
             EndsAs(q, p.at.after, p.status, Some(Other)) ||
             (r.Refused? && EndsAs(q, p.at.after, p.status, Some(r.error)));
    }
  }

  /** Answers that meet a conflict each time: at the read, or at the write after a read of the given object. */
  function Contended(conflicts: seq<Option<Object>>): seq<Response> {
    if conflicts == [] then []
    else
      (match conflicts[0]
       case None => [Refused(Conflict)]
       case Some(o) => [Found(o), Refused(Conflict)]) + Contended(conflicts[1..])
  }

  lemma FeedTwice(p: Pass, a: seq<Response>, b: seq<Response>)
    ensures Feed(p, a + b) == Feed(Feed(p, a), b)
    decreases |a|
  {
    hide Next;
    if a == [] {
      assert a + b == b;
    } else if !p.Finished? {
      assert (a + b)[1..] == a[1..] + b;
      FeedTwice(Next(p, a[0]), a[1..], b);
    }
  }

  lemma OneConflict(p: Pass, conflict: Option<Object>)
    requires p.Working? && p.at.FetchingLatest? && p.at.attempt < 5
    ensures
      var q := Feed(p, Contended([conflict]));
      if p.at.attempt < 4 then q == p.(at := FetchingLatest(p.at.attempt + 1, p.at.after))
      else EndsAs(q, p.at.after, p.status, Some(Conflict))
  {
    hide Next, EndsAs;
    ConflictStarts(p);
    assert [conflict][1..] == [] && [Refused(Conflict)] + [] == [Refused(Conflict)];
    assert [Refused(Conflict)][1..] == [];
    if conflict.Some? {
      var w := p.(at := WritingStatus(p.at.attempt, p.at.after, conflict.value));
      assert Next(p, Found(conflict.value)) == w by { ReadGoesOn(p, conflict.value); }
      ConflictStarts(w);
      assert [Found(conflict.value), Refused(Conflict)] + [] == [Found(conflict.value), Refused(Conflict)];
      assert [Found(conflict.value), Refused(Conflict)][1..] == [Refused(Conflict)];
    }
  }

  lemma ReadGoesOn(p: Pass, latest: Object)
    requires p.Working? && p.at.FetchingLatest?
    ensures Next(p, Found(latest)) == p.(at := WritingStatus(p.at.attempt, p.at.after, latest))
  {
  }

  lemma ConflictStarts(p: Pass)
    requires p.Working? && (p.at.FetchingLatest? || p.at.WritingStatus?) && p.at.attempt < 5
    ensures
      var q := Next(p, Refused(Conflict));
      if p.at.attempt < 4 then q == p.(at := FetchingLatest(p.at.attempt + 1, p.at.after))
      else EndsAs(q, p.at.after, p.status, Some(Conflict))
  {
  }

  lemma {:induction false} ConflictsCount(p: Pass, conflicts: seq<Option<Object>>)
    requires p.Working? && p.at.FetchingLatest? && 0 < |conflicts| <= 5 - p.at.attempt
    ensures
      var q := Feed(p, Contended(conflicts));
      if p.at.attempt + |conflicts| < 5 then q == p.(at := FetchingLatest(p.at.attempt + |conflicts|, p.at.after))
      else EndsAs(q, p.at.after, p.status, Some(Conflict))
    decreases |conflicts|
  {
    hide Next, EndsAs;
    OneConflict(p, conflicts[0]);
    assert Contended(conflicts) == Contended([conflicts[0]]) + Contended(conflicts[1..]);
    FeedTwice(p, Contended([conflicts[0]]), Contended(conflicts[1..]));
    if |conflicts| > 1 { ConflictsCount(Feed(p, Contended([conflicts[0]])), conflicts[1..]); }
  }

  /** A status survives up to four conflicts and not five, wherever they strike; any other error stops at once.  Then
      the pass ends as the reason for saving asks: a rejected spec quietly, a failed database helper with the helper's
      error, a missing Secret in 30 seconds, and a report in 15 unless it says Ready. */
  lemma SavedWithinFiveAttempts(p: Pass, conflicts: seq<Option<Object>>, latest: Object, e: Error)
    requires p.Working? && p.at.FetchingLatest? && p.at.attempt == 0 && |conflicts| <= 5 && e != Conflict
    ensures |conflicts| < 5 ==>
              && EndsAs(Feed(p, Contended(conflicts) + [Found(latest), Done]), p.at.after, p.status, None)
              && EndsAs(Feed(p, Contended(conflicts) + [Refused(e)]), p.at.after, p.status, Some(e))
              && EndsAs(Feed(p, Contended(conflicts) + [Found(latest), Refused(e)]), p.at.after, p.status, Some(e))
    ensures |conflicts| == 5 ==> EndsAs(Feed(p, Contended(conflicts)), p.at.after, p.status, Some(Conflict))
  {
    hide EndsAs, Next;
    if conflicts != [] { ConflictsCount(p, conflicts); }
    FeedTwice(p, Contended(conflicts), [Found(latest), Done]);
    FeedTwice(p, Contended(conflicts), [Refused(e)]);
    FeedTwice(p, Contended(conflicts), [Found(latest), Refused(e)]);
    if |conflicts| < 5 { LastAttempts(Feed(p, Contended(conflicts)), latest, e); }
  }

  lemma LastAttempts(p: Pass, latest: Object, e: Error)
    requires p.Working? && p.at.FetchingLatest? && e != Conflict
    ensures EndsAs(Feed(p, [Found(latest), Done]), p.at.after, p.status, None)
    ensures EndsAs(Feed(p, [Refused(e)]), p.at.after, p.status, Some(e))
    ensures EndsAs(Feed(p, [Found(latest), Refused(e)]), p.at.after, p.status, Some(e))
  {
    assert [Found(latest), Done][1..] == [Done] && [Done][1..] == [] && [Refused(e)][1..] == [];
    assert [Found(latest), Refused(e)][1..] == [Refused(e)];
  }

  // ---------------------------------------------------------------- what stops a pass

  lemma ExternalIsChecked(key: Key, render: Render, cr: Object)
    requires cr.body.WordPressBody? && !cr.meta.deleting && HasFinalizer(cr.meta)
    requires Validate(Defaulted(cr.body.spec)).None? && cr.body.spec.database.mode == External
    ensures
      var p := Next(Fetching(key, render), Found(cr));
      && p.Working? && p.at.CheckingSecret? && p.key == key && p.wp.key == key && p.wp.spec == Defaulted(cr.body.spec)
      && p.status == cr.body.status && cr.body.spec.database.external.Some?
      && ExternalSecretKey(p.wp) ==
         Key(SecretKind, key.ns, cr.body.spec.database.external.value.passwordSecret.name)
  {
  }

  /** A pass over a live, valid resource in External mode looks for the Secret that the user names.  If there is none,
      then whatever the further answers, it makes no call but those that save a status in which DatabaseReady is False
      and names the Secret, and nothing else is new; and it asks to be run again in 30 seconds. */
  lemma MissingSecretStopsThePass(key: Key, render: Render, cr: Object, rest: seq<Response>)
    requires cr.body.WordPressBody? && !cr.meta.deleting && HasFinalizer(cr.meta)
    requires Validate(Defaulted(cr.body.spec)).None? && cr.body.spec.database.mode == External
    ensures
      var first := Feed(Fetching(key, render), [Found(cr)]);
      && cr.body.spec.database.external.Some? && !first.Finished? && first.Working?
      && Call(first) == Get(Key(SecretKind, key.ns, cr.body.spec.database.external.value.passwordSecret.name))
    ensures
      var end := Feed(Fetching(key, render), [Found(cr), Refused(NotFound)] + rest);
      var name := cr.body.spec.database.external.value.passwordSecret.name;
      var st := cr.body.status.(conditions := SetCondition(
                  cr.body.status.conditions,
                  Condition(DatabaseReady, false, ExternalSecretMissing, SecretName(name))));
      && OnlySaves(end, key, st) && (end.Finished? ==> end.result.requeueAfter == 30)
  {
    hide Defaulted, Validate, OnlySaves, SetCondition;
    ExternalIsChecked(key, render, cr);
    var start := Fetching(key, render);
    var p := Next(start, Found(cr));
    var q := Next(p, Refused(NotFound));
    var answers := [Found(cr), Refused(NotFound)] + rest;
    assert answers[1..] == [Refused(NotFound)] + rest && answers[1..][1..] == rest;
    assert [Found(cr)][1..] == [];
    assert Feed(start, answers) == Feed(p, answers[1..]) == Feed(q, rest);
    SavingIsAllThatFollows(q, rest);
  }

  /** That there is no such object is no failure of a look-up, nor of the delete that follows one. */
  predicate Excused(p: Pass, e: Error) {
    && e == NotFound
    && (p.Fetching? ||
        (p.Working? && (p.at.Reading? || p.at.CheckingSecret? || p.at.ReadingStatus? || p.at.FindingData?
                        || p.at.DeletingData?)))
  }

  /** The call is one of the database helper's. */
  predicate ForDatabase(p: Pass) {
    p.Working? &&
    (p.at.CheckingSecret?
     || ((p.at.Reading? || p.at.Creating? || p.at.Updating? || p.at.Deleting?)
         && (p.at.child.DbSecret? || p.at.child.DbService? || p.at.child.DbStatefulSet?)))
  }

  /** A refused call, unless it is excused, is the end of the work of a pass: no child is touched any more.  The
      database helper still saves the status it has, and then ends with that error; any other caller ends with the error
      at once.  A conflict is not reported as an error, except by the first read, the admission and the clean-up. */
  lemma FailureStopsThePass(p: Pass, e: Error, rest: seq<Response>)
    requires !p.Finished? && !Excused(p, e) && (p.Working? ==> !p.at.FetchingLatest? && !p.at.WritingStatus?)
    ensures
      var end := Feed(p, [Refused(e)] + rest);
      && (p.Working? ==> OnlySaves(end, p.key, p.status))
      && (!ForDatabase(p) ==> end.Finished?)
      && (ForDatabase(p) && rest == [] ==> !end.Finished?)
      && (end.Finished? ==>
            var hidden := e == Conflict && p.Working? && !p.at.AddingFinalizer? && !p.at.FindingData?
                          && !p.at.DeletingData?;
            end.result == Result(if hidden then None else Some(e), 0))
  {
    hide OnlySaves;
    assert ([Refused(e)] + rest)[1..] == rest;
    var q := Next(p, Refused(e));
    if q.Finished? {
      FinishedSaves(q, p.key, if p.Working? then p.status else WordPressStatus(0, NoPhase, "", 0, 0, "", []));
    } else {
      SavingIsAllThatFollows(q, rest);
    }
  }

  /** So is a builder that fails, before any call for its child: no random bytes for the Secret in Internal mode, or a
      claim size that does not parse in External mode.  The pass ends with an error, so it is run again. */
  lemma FailedBuilderStopsThePass(key: Key, render: Render, cr: Object, secret: Object, rest: seq<Response>)
    requires cr.body.WordPressBody? && !cr.meta.deleting && HasFinalizer(cr.meta)
    requires Validate(Defaulted(cr.body.spec)).None?
    ensures
      var wp := WordPress(key, cr.meta, cr.body.generation, Defaulted(cr.body.spec), cr.body.status);
      var start := Fetching(key, render);
      && (cr.body.spec.database.mode != External && render(wp, DbSecret).None? ==>
            var end := Feed(start, [Found(cr)] + rest);
            && OnlySaves(end, key, cr.body.status)
            && (end.Finished? ==> end.result == Result(Some(Other), 0)))
      && (cr.body.spec.database.mode == External && cr.body.spec.persistence.enabled
          && render(wp, ContentClaim).None? ==>
            Feed(start, [Found(cr), Found(secret)]) == Finished(key, render, Result(Some(Other), 0)))
  {
    hide Defaulted, Validate, OnlySaves, SetCondition;
    var start := Fetching(key, render);
    var wp := WordPress(key, cr.meta, cr.body.generation, Defaulted(cr.body.spec), cr.body.status);
    var p := Working(key, render, wp, wp.status, AddingFinalizer);
    assert Next(start, Found(cr)) == Begin(p);
    SectionsAreKept(cr.body.spec);
    assert ([Found(cr)] + rest)[1..] == rest;
    if cr.body.spec.database.mode == External {
      FirstAnswers(start, Found(cr), Found(secret), Done, Done);
    } else if render(wp, DbSecret).None? {
      SavingIsAllThatFollows(Begin(p), rest);
    }
  }

  lemma SectionsAreKept(spec: WordPressSpec)
    ensures Defaulted(spec).database.mode.External? <==> spec.database.mode == External
    ensures Defaulted(spec).persistence.enabled == spec.persistence.enabled
  {
  }

  lemma FinishedSaves(q: Pass, key: Key, st: WordPressStatus)
    requires q.Finished?
    ensures OnlySaves(q, key, st)
  {
  }

  /** The clean-up of a leaving resource, for every answer to each of its calls.  It goes on to the release if the data
      claim was not there, or was deleted, or was gone by then; the release drops the operator's finalizer and keeps the
      others. */
  lemma CleanUpGoesOn(key: Key, render: Render, cr: Object, look: Response, remove: Response, release: Response)
    requires cr.body.WordPressBody? && cr.meta.deleting && HasFinalizer(cr.meta)
    requires cr.body.spec.database.mode == Internal
    requires !Annotated(cr.meta, "wordpresses.apps.kubesphere.ai/retain-data", "true")
    ensures
      var start := Fetching(key, render);
      var claim := DataKey(key);
      var left := cr.(meta := cr.meta.(finalizers := Without(cr.meta.finalizers, FINALIZER)));
      var found := Feed(start, [Found(cr), look]);
      var end := if look.Found? then [Found(cr), look, remove] else [Found(cr), look];
      && !Feed(start, [Found(cr)]).Finished? && Call(Feed(start, [Found(cr)])) == Get(claim)
      && (look.Found? ==> !found.Finished? && Call(found) == Delete(claim))
      && (look == Refused(NotFound) || (look.Found? && (remove.Refused? ==> remove.error == NotFound)) ==>
            && !Feed(start, end).Finished? && Call(Feed(start, end)) == Update(key, left)
            && Feed(start, end + [release]) ==
               Finished(key, render, Result(if release.Refused? && release.error != Conflict then Some(release.error)
                                            else None, 0)))
  {
    hide Without, Feed;
    var start := Fetching(key, render);
    var wp := WordPress(key, cr.meta, cr.body.generation, cr.body.spec, cr.body.status);
    var p := Working(key, render, wp, wp.status, FindingData);
    assert Next(start, Found(cr)) == p;
    FirstAnswers(start, Found(cr), look, remove, release);
    FirstAnswers(start, Found(cr), look, release, release);
    CleanUpSteps(p, look, remove, release);
    hide Next, Call;
  }

  lemma CleanUpSteps(p: Pass, look: Response, remove: Response, release: Response)
    requires p.Working? && p.at == FindingData
    ensures
      var found := Next(p, look);
      var freed := p.(at := ReleasingResource);
      && Call(p) == Get(DataKey(p.key))
      && (look.Found? ==> found == p.(at := DeletingData) && Call(found) == Delete(DataKey(p.key)))
      && (look == Refused(NotFound) ==> found == freed)
      && (look.Found? && (remove.Refused? ==> remove.error == NotFound) ==> Next(found, remove) == freed)
      && Call(freed) ==
         Update(p.key, AsObject(p.wp.(meta := p.wp.meta.(finalizers := Without(p.wp.meta.finalizers, FINALIZER)))))
      && Next(freed, release) ==
         Finished(p.key, p.render, Result(if release.Refused? && release.error != Conflict then Some(release.error)
                                          else None, 0))
  {
    hide Without, DataKey;
  }

  function Go(p: Pass, r: Response): Pass { if p.Finished? then p else Next(p, r) }

  lemma FirstAnswers(p: Pass, a: Response, b: Response, c: Response, d: Response)
    ensures Feed(p, [a]) == Go(p, a) && Feed(p, [a, b]) == Go(Go(p, a), b)
    ensures Feed(p, [a, b] + [c]) == Feed(p, [a, b, c]) == Go(Go(Go(p, a), b), c)
    ensures Feed(p, [a, b, c] + [d]) == Go(Go(Go(Go(p, a), b), c), d)
  {
    hide Next;
    FeedLast(p, [], a);
    FeedLast(p, [a], b);
    FeedLast(p, [a, b], c);
    FeedLast(p, [a, b, c], d);
    assert [] + [a] == [a] && [a] + [b] == [a, b] && [a, b] + [c] == [a, b, c];
  }
}
