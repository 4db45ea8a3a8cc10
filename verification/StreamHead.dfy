/** Waiting for the head: exactly when a caller is told that there is no answer
    although its head has arrived. */
module StreamHead {
  import opened Prelude
  import opened Frames
  import opened Stream
  import opened StreamSafety
  import opened StreamRuns

  const LOOK: Step := ByCaller(ReadHead)
  const LOOK_AGAIN: Step := ByCaller(ReadCompleted)

  /** The frame loop stores a valid head of a stream that is still there. */
  predicate StoresHead(s: State, a: Step) {
    a == ByLoop(HandleHead(true)) && Enabled(s, a) && s.hub.loop.target && s.cell.head == None
  }

  /** Somewhere in a run from `s` the head is stored. */
  predicate StoredDuring(s: State, run: seq<Step>)
    decreases |run|
  {
    run != [] && Enabled(s, run[0]) && (StoresHead(s, run[0]) || StoredDuring(Do(s, run[0]), run[1..]))
  }

  predicate NoLooks(run: seq<Step>) {
    forall i :: 0 <= i < |run| ==> !run[i].ByCaller?
  }

  lemma LoopHead(s: State, a: LoopStep)
    requires LoopCan(s, a)
    ensures var t := LoopDoes(s, a);
      t.client == s.client && (t.cell.head.Some? <==> s.cell.head.Some? || StoresHead(s, ByLoop(a)))
  {
  }

  lemma OtherHead(s: State, a: Step)
    requires Enabled(s, a) && !a.ByLoop? && !a.ByCaller?
    ensures var t := Do(s, a); t.client.at == s.client.at && t.cell.head == s.cell.head
  {
    match a
    case ByUpload(x) => UploadFrame(s, x);
    case BySession(x) => SessionFrame(s, x);
    case ByGuard(x) => GuardFrame(s, x);
    case ByStarter(_) =>
    case ByTether(_) =>
    case ByPump(_) =>
    case ByWire(_) =>
  }

  lemma HeadStep(s: State, a: Step)
    requires Enabled(s, a)
    ensures Do(s, a).cell.head.Some? <==> s.cell.head.Some? || StoresHead(s, a)
    ensures !a.ByCaller? ==> Do(s, a).client.at == s.client.at
  {
    match a
    case ByLoop(x) => LoopHead(s, x);
    case ByCaller(x) => CallerFrame(s, x);
    case _ => OtherHead(s, a);
  }

  lemma {:induction false} HeadDuring(s: State, run: seq<Step>, t: State)
    requires Execute(s, run) == Some(t)
    ensures t.cell.head.Some? <==> s.cell.head.Some? || StoredDuring(s, run)
    ensures NoLooks(run) ==> t.client.at == s.client.at
    decreases |run|
  {
    if run != [] {
      HeadStep(s, run[0]);
      HeadDuring(Do(s, run[0]), run[1..], t);
    }
  }

  /** Between a look for the head and the look for the completion: the answer is
      "none" although a head is there exactly if by the second look the stream was
      over and in between the frame loop stored the head. */
  lemma OverlookedExactly(id: u16, run: seq<Step>, s: State, mid: seq<Step>, t: State)
    requires Reaches(id, run, s) && CallerCan(s, ReadHead) && NoLooks(mid)
    requires Execute(s, [LOOK] + mid) == Some(t) && CallerCan(t, ReadCompleted)
    ensures var u := CallerDoes(t, ReadCompleted);
      && Reaches(id, run + ([LOOK] + mid + [LOOK_AGAIN]), u)
      && (u.client.at == NoAnswer && u.cell.head.Some? <==>
            t.cell.completed && StoredDuring(CallerDoes(s, ReadHead), mid))
  {
    var looked := CallerDoes(s, ReadHead);
    assert ([LOOK] + mid)[1..] == mid;
    HeadDuring(looked, mid, t);
    OneStep(t, LOOK_AGAIN);
    ExecuteTwice(s, [LOOK] + mid, t, [LOOK_AGAIN]);
    ExecuteTwice(Fresh(id), run, s, [LOOK] + mid + [LOOK_AGAIN]);
  }

  /** A head that is there when the caller looks for it is never overlooked. */
  lemma {:induction false} StoredHeadIsSeen(s: State, more: seq<Step>, t: State)
    requires CallerCan(s, ReadHead) && s.cell.head.Some? && Execute(CallerDoes(s, ReadHead), more) == Some(t)
    ensures t.client.at != Waiting && t.client.at != HeadMissing && t.client.at != NoAnswer
  {
    SeenStaysSeen(CallerDoes(s, ReadHead), more, t);
  }

  predicate Seen(at: Caller) {
    at != Waiting && at != HeadMissing && at != NoAnswer
  }

  lemma {:induction false} SeenStaysSeen(s: State, run: seq<Step>, t: State)
    requires Seen(s.client.at) && Execute(s, run) == Some(t)
    ensures Seen(t.client.at)
    decreases |run|
  {
    if run != [] {
      HeadStep(s, run[0]);
      SeenStaysSeen(Do(s, run[0]), run[1..], t);
    }
  }

  // ---- Every such answer ------------------------------------------------------------

  /** The last look a caller took in a run. */
  lemma {:induction false} LastLook(s: State, run: seq<Step>, u: State)
    returns (pre: seq<Step>, t: State, a: CallerStep, post: seq<Step>)
    requires Execute(s, run) == Some(u) && !NoLooks(run)
    ensures run == pre + ([ByCaller(a)] + post) && NoLooks(post)
    ensures Execute(s, pre) == Some(t) && CallerCan(t, a) && Execute(CallerDoes(t, a), post) == Some(u)
    decreases |run|
  {
    var next, rest := Do(s, run[0]), run[1..];
    if NoLooks(rest) {
      pre, t, a, post := [], s, run[0].caller, rest;
    } else {
      pre, t, a, post := LastLook(next, rest, u);
      OneStep(s, run[0]);
      ExecuteTwice(s, [run[0]], next, pre);
      pre := [run[0]] + pre;
    }
  }

  lemma LookLeadsTo(s: State, a: CallerStep)
    requires CallerCan(s, a)
    ensures CallerDoes(s, a).client.at == NoAnswer <==> a == ReadCompleted && s.cell.completed
    ensures CallerDoes(s, a).client.at == HeadMissing <==> a == ReadHead && s.cell.head == None
  {
  }

  lemma LookedTwice(id: u16, run: seq<Step>, u: State) returns (pre: seq<Step>, t: State, post: seq<Step>)
    requires Reaches(id, run, u) && u.client.at == NoAnswer
    ensures run == pre + ([LOOK_AGAIN] + post) && NoLooks(post)
    ensures Reaches(id, pre, t) && CallerCan(t, ReadCompleted) && t.cell.completed
    ensures Execute(CallerDoes(t, ReadCompleted), post) == Some(u)
  {
    HeadDuring(Fresh(id), run, u);
    var a;
    pre, t, a, post := LastLook(Fresh(id), run, u);
    HeadDuring(CallerDoes(t, a), post, u);
    LookLeadsTo(t, a);
  }

  lemma LookedOnce(id: u16, run: seq<Step>, t: State) returns (pre: seq<Step>, s: State, mid: seq<Step>)
    requires Reaches(id, run, t) && t.client.at == HeadMissing
    ensures run == pre + ([LOOK] + mid) && NoLooks(mid)
    ensures Reaches(id, pre, s) && CallerCan(s, ReadHead) && s.cell.head == None
    ensures Execute(CallerDoes(s, ReadHead), mid) == Some(t)
    ensures t.cell.head.Some? <==> StoredDuring(CallerDoes(s, ReadHead), mid)
  {
    HeadDuring(Fresh(id), run, t);
    var a;
    pre, s, a, mid := LastLook(Fresh(id), run, t);
    HeadDuring(CallerDoes(s, a), mid, t);
    LookLeadsTo(s, a);
  }

  /** In every run at whose end the caller has been told that there is no answer,
      this comes from its last two looks, the stream was over by the second one,
      and then a head was there exactly if it was stored between the two. */
  lemma NoAnswerComesFrom(id: u16, run: seq<Step>, u: State)
    returns (pre: seq<Step>, s: State, mid: seq<Step>, t: State, post: seq<Step>)
    requires Reaches(id, run, u) && u.client.at == NoAnswer
    ensures run == pre + ([LOOK] + mid) + ([LOOK_AGAIN] + post) && NoLooks(mid) && NoLooks(post)
    ensures Reaches(id, pre, s) && CallerCan(s, ReadHead) && s.cell.head == None
    ensures Execute(CallerDoes(s, ReadHead), mid) == Some(t) && CallerCan(t, ReadCompleted) && t.cell.completed
    ensures Execute(CallerDoes(t, ReadCompleted), post) == Some(u)
    ensures t.cell.head.Some? <==> StoredDuring(CallerDoes(s, ReadHead), mid)
  {
    var before;
    before, t, post := LookedTwice(id, run, u);
    pre, s, mid := LookedOnce(id, before, t);
  }

  // ---- It happens -------------------------------------------------------------------

  /** A caller is told that there is no answer although its head has arrived: head
      and END both came between its two looks. */
  lemma HeadIsOverlooked() returns (run: seq<Step>, s: State)
    ensures Reaches(1, run, s) && s.client.at == NoAnswer && s.cell.head.Some?
  {
    run, s := HeadAwaited();
    run, s := Go(run, s, ByLoop(Take));
    run, s := Go(run, s, ByLoop(HandleHead(true)));
    run, s := Go(run, s, ByLoop(Take));
    run, s := Go(run, s, ByLoop(HandleEnd));
    run, s := Go(run, s, ByLoop(LoopFinish));
    run, s := Go(run, s, ByCaller(ReadCompleted));
  }

  lemma HeadAwaited() returns (run: seq<Step>, s: State)
    ensures Reaches(1, run, s) && s.client.at == HeadMissing && s.client.guard == Held && s.hub.starter == Returned
    ensures s.cell.inMap && s.cell.head == None && s.hub.loop == Idle && !s.session.loopGone
    ensures s.links.upSeen == 0 && s.links.upWritten == 2 && s.links.up == [RespHead(1, []), End(1, [])]
  {
    run, s := [], Fresh(1);
    run, s := Go(run, s, ByStarter(Admit));
    run, s := Go(run, s, ByStarter(SendOpen([])));
    run, s := Go(run, s, ByStarter(Spawn(Body([], true))));
    run, s := Go(run, s, ByStarter(Install));
    run, s := Go(run, s, ByCaller(ReadHead));
    run, s := Go(run, s, ByWire(HubWrites));
    run, s := Go(run, s, ByTether(TetherOpen(Answer(true, [], [], true), false)));
    run, s := Go(run, s, ByPump(PumpHead));
    run, s := Go(run, s, ByPump(PumpEnd));
    run, s := Go(run, s, ByWire(TetherWrites));
    run, s := Go(run, s, ByWire(TetherWrites));
  }
}
