/** What comes into a stream from outside stays what it was: the caller's request head
    and body, and the engine's answer. The promises of StreamRuns speak of these. */
module StreamInputs {
  import opened Prelude
  import opened Frames
  import opened Stream
  import opened StreamSafety
  import opened StreamSettlement
  import opened StreamRuns

  /** Whatever has come in by `s` is the same in `t`. */
  predicate Kept(s: State, t: State) {
    && t.id == s.id
    && (s.hub.starter == Spawned || s.hub.starter == Returned ==>
          (t.hub.starter == Spawned || t.hub.starter == Returned) && t.hub.body == s.hub.body)
    && (s.hub.starter != NotStarted && s.hub.starter != Admitted ==>
          && t.hub.starter != NotStarted && t.hub.starter != Admitted
          && (s.links.down == [] <==> t.links.down == [])
          && (s.links.down != [] ==> t.links.down[0] == s.links.down[0]))
    && (s.tether.pump.Some? ==> t.tether.pump.Some? && t.tether.pump.value.answer == s.tether.pump.value.answer)
  }

  lemma KeptByHub(s: State, a: Step)
    requires Opening(s) && Enabled(s, a) && (a.ByStarter? || a.BySession? || a.ByWire?)
    ensures Kept(s, Do(s, a))
  {
  }

  lemma KeptByUpload(s: State, a: UploadStep)
    requires Opening(s) && (s.links.down == [] ==> s.session.writerGone || s.hub.starter == Admitted) && UploadCan(s, a)
    ensures Kept(s, UploadDoes(s, a))
  {
  }

  lemma KeptByLoop(s: State, a: LoopStep)
    requires Opening(s) && LoopCan(s, a)
    ensures Kept(s, LoopDoes(s, a))
  {
    LoopFrame(s, a);
  }

  lemma KeptByClient(s: State, a: Step)
    requires Opening(s) && Enabled(s, a) && (a.ByCaller? || a.ByGuard?)
    ensures Kept(s, Do(s, a))
  {
  }

  lemma KeptByTether(s: State, a: Step)
    requires Opening(s) && Enabled(s, a) && (a.ByTether? || a.ByPump?)
    ensures Kept(s, Do(s, a))
  {
  }

  lemma KeptByStep(s: State, a: Step)
    requires Opening(s) && Enabled(s, a)
    ensures Kept(s, Do(s, a))
  {
    match a
    case ByUpload(x) => KeptByUpload(s, x);
    case ByLoop(x) => KeptByLoop(s, x);
    case ByCaller(_) => KeptByClient(s, a);
    case ByGuard(_) => KeptByClient(s, a);
    case ByTether(_) => KeptByTether(s, a);
    case ByPump(_) => KeptByTether(s, a);
    case _ => KeptByHub(s, a);
  }

  lemma {:induction false} KeptInRun(s: State, run: seq<Step>, t: State)
    requires Inv(s) && Execute(s, run) == Some(t)
    ensures Kept(s, t)
    decreases |run|
  {
    if run != [] {
      KeptByStep(s, run[0]);
      StepKeeps(s, run[0]);
      KeptInRun(Do(s, run[0]), run[1..], t);
    }
  }

  /** The state in the middle of a run. */
  lemma {:induction false} Midway(s: State, run: seq<Step>, t: State, i: nat) returns (u: State)
    requires Execute(s, run) == Some(t) && i < |run|
    ensures Execute(s, run[..i]) == Some(u) && Enabled(u, run[i])
    ensures Execute(Do(u, run[i]), run[i + 1..]) == Some(t)
    decreases |run|
  {
    if i == 0 {
      u := s;
    } else {
      u := Midway(Do(s, run[0]), run[1..], t, i - 1);
      assert run[..i][1..] == run[1..][..i - 1] && run[1..][i..] == run[i + 1..];
    }
  }

  /** In every run the body an upload sends is the one the caller brought, OPEN carries
      the caller's request head, and the pump relays the answer its engine gave. */
  lemma InputsAreKept(id: u16, run: seq<Step>, s: State, i: nat)
    requires Reaches(id, run, s) && i < |run|
    ensures match run[i]
      case ByStarter(Spawn(body)) => s.hub.body == body
      case ByStarter(SendOpen(head)) => s.links.down != [] ==> s.links.down[0] == Open(id, head)
      case ByTether(TetherOpen(answer, overloaded)) =>
        !overloaded ==> s.tether.pump.Some? && s.tether.pump.value.answer == answer
      case _ => true
  {
    var u := Midway(Fresh(id), run, s, i);
    ReachableInv(id, [], Fresh(id));
    ReachableInv(id, run[..i], u);
    KeptInRun(Fresh(id), run[..i], u);
    StepKeeps(u, run[i]);
    KeptInRun(Do(u, run[i]), run[i + 1..], s);
  }
}
