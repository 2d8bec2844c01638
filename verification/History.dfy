/** What a worker of a run has heard from the server, and so what the theorems about one pass say of stored statuses. */
module History {
  import opened Names
  import opened Defaults
  import opened Server
  import opened Machine
  import opened System
  import opened Guarantee
  import opened OnePass
  import opened Generation

  /** The answers worker `id` got since it last started. */
  ghost function Heard(s0: Store, actions: seq<Action>, id: nat): seq<Response>
    requires IsRun(s0, actions)
    decreases |actions|
  {
    if actions == [] then []
    else
      var before, last := actions[..|actions| - 1], actions[|actions| - 1];
      var sys := End(s0, before);
      match last
      case Start(i, _, _) => if i == id then [] else Heard(s0, before, id)
      case Step(i, outcome) =>
        if i == id then Heard(s0, before, id) + [Answer(sys.trail, Call(sys.workers[id].pass), outcome).1]
        else Heard(s0, before, id)
      case _ => Heard(s0, before, id)
  }

  /** Whatever else happens, the pass of a worker is what its own answers made of it. */
  lemma {:induction false} PassIsFed(s0: Store, actions: seq<Action>, id: nat)
    requires IsRun(s0, actions) && id in End(s0, actions).workers
    ensures
      var p := End(s0, actions).workers[id].pass;
      p == Feed(Fetching(p.key, p.render), Heard(s0, actions, id))
    decreases |actions|
  {
    hide Next, Call, Answer, ServerStep, Sound;
    if actions != [] {
      var before, last := actions[..|actions| - 1], actions[|actions| - 1];
      var sys := End(s0, before);
      if last.Start? && last.id == id {
      } else {
        PassIsFed(s0, before, id);
        if last.Step? && last.id == id {
          var p := sys.workers[id].pass;
          var r := Answer(sys.trail, Call(p), last.outcome).1;
          FeedLast(Fetching(p.key, p.render), Heard(s0, before, id), r);
          NextContinues(p, r);
        }
      }
    }
  }

  /** In any run, a status write that takes effect stores the generation of the resource its pass read first only if,
      since then, the pass heard that every child that generation asks for is in place, and that an Ingress or
      autoscaler it does not ask for is out of the way; a write for any other reason stores the observed generation
      the pass read. */
  lemma StoredReportsAreEarned(s0: Store, actions: seq<Action>, id: nat, outcome: Outcome, p: Pass,
                               s: Store, s': Store, c: Child)
    requires CallOfRun(s0, actions, id, outcome, p, s, s') && p.Working? && p.at.WritingStatus? && s' != s
    ensures p.key in s'.objects && s'.objects[p.key].body.WordPressBody?
    ensures
      var heard := Heard(s0, actions, id);
      var saved := s'.objects[p.key].body.status.observedGeneration;
      && heard != [] && heard[0].Found? && heard[0].obj.body.WordPressBody?
      && (if p.at.after.ThenReport? then
            && saved == heard[0].obj.body.generation && p.wp.spec == Defaulted(heard[0].obj.body.spec)
            && (Matters(p.wp.spec, c) ==> Handled(Fetching(p.key, p.render), heard, c))
          else saved == heard[0].obj.body.status.observedGeneration)
  {
    hide Apply, Enabled, IsRun, End, Heard, Feed, Handled, Matters, Defaulted;
    Safety.StatusWriteIsExact(s0, actions, id, outcome, p, s, s');
    PassIsFed(s0, actions, id);
    ObservedIsEarned(p.key, p.render, Heard(s0, actions, id), c);
  }
}
