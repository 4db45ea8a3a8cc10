/** What a caller that goes away leaves behind: nothing that is still handed to it,
    and no abort of an answer it has seen the end of. */
module StreamCaller {
  import opened Prelude
  import opened Frames
  import opened Stream
  import opened StreamSafety
  import opened StreamSettlement
  import opened StreamRuns
  import opened StreamDebts

  /** The tether was told to abort the answer. */
  ghost predicate AbortIn(down: seq<Frame>) {
    exists i :: 0 <= i < |down| && down[i].End? && down[i].reason == []
  }

  /** The caller has seen an end of the stream. */
  predicate SawEnd(k: Client) {
    k.at == Ended || k.at == NoAnswer
  }

  /** The receiver goes with the caller that polled it. */
  predicate ReceiverGone(c: Cell, k: Client) {
    k.guard != Held ==>
      && k.at != HeadMissing && k.at != NotFailed && k.at != CompletionRead
      && (k.at == Streaming || k.at == Ended ==> c.rx == Dropped && c.queue == [])
  }

  /** An end is only seen of a stream that is over. */
  predicate EndIsOver(c: Cell, k: Client) {
    && (SawEnd(k) ==> c.completed)
    && (c.rx == Draining ==> c.completed)
    && (k.at == Ended ==> c.queue == [])
  }

  /** Only a guard that found its stream unfinished aborts it. */
  ghost predicate AbortsUnfinished(down: seq<Frame>, k: Client) {
    && (AbortIn(down) ==> k.guard == Released && !SawEnd(k))
    && (k.guard == MustNotify ==> !SawEnd(k))
  }

  ghost predicate CallerInv(s: State) {
    ReceiverGone(s.cell, s.client) && EndIsOver(s.cell, s.client) && AbortsUnfinished(s.links.down, s.client)
  }

  lemma AbortGrows(down: seq<Frame>, f: Frame)
    ensures AbortIn(down + [f]) <==> AbortIn(down) || (f.End? && f.reason == [])
  {
    assert (down + [f])[|down|] == f;
    if AbortIn(down) {
      var i :| 0 <= i < |down| && down[i].End? && down[i].reason == [];
      assert (down + [f])[i] == down[i];
    }
  }

  lemma CallerByStarter(s: State, a: StarterStep)
    requires Opening(s) && CallerInv(s) && StarterCan(s, a)
    ensures CallerInv(StarterDoes(s, a))
  {
    if a.SendOpen? {
      AbortGrows(s.links.down, Open(s.id, a.head));
    }
  }

  lemma CallerByUpload(s: State, a: UploadStep)
    requires CallerInv(s) && UploadCan(s, a)
    ensures CallerInv(UploadDoes(s, a))
  {
    UploadFrame(s, a);
    AbortGrows(s.links.down, HalfEnd(s.id));
    AbortGrows(s.links.down, End(s.id, REASON));
    if a.UploadNext? {
      AbortGrows(s.links.down, Data(s.id, s.hub.body.chunks[s.hub.upload.sent]));
    }
  }

  lemma CallerByLoop(s: State, a: LoopStep)
    requires CallerInv(s) && LoopCan(s, a) && Delivery(s.cell, s.client, s.tether.pump)
    ensures CallerInv(LoopDoes(s, a))
  {
    LoopFrame(s, a);
    AbortGrows(s.links.down, End(s.id, REASON));
  }

  lemma CallerByCaller(s: State, a: CallerStep)
    requires CallerInv(s) && CallerCan(s, a) && (s.cell.outcome != Undecided ==> s.cell.completed)
    requires Delivery(s.cell, s.client, s.tether.pump) && !AbortIn(s.links.down)
    ensures CallerInv(CallerDoes(s, a))
  {
    CallerFrame(s, a);
  }

  lemma CallerByGuard(s: State, a: GuardStep)
    requires CallerInv(s) && GuardCan(s, a) && Delivery(s.cell, s.client, s.tether.pump)
    ensures CallerInv(GuardDoes(s, a))
  {
    AbortGrows(s.links.down, End(s.id, []));
  }

  lemma CallerByOther(s: State, a: Step)
    requires CallerInv(s) && Enabled(s, a) && (a.BySession? || a.ByTether? || a.ByPump? || a.ByWire?)
    ensures CallerInv(Do(s, a))
  {
  }

  lemma CallerStepKeeps(s: State, a: Step)
    requires Inv(s) && CallerInv(s) && Enabled(s, a)
    ensures CallerInv(Do(s, a))
  {
    match a
    case ByStarter(x) => CallerByStarter(s, x);
    case ByUpload(x) => CallerByUpload(s, x);
    case ByLoop(x) => CallerByLoop(s, x);
    case ByCaller(x) => CallerByCaller(s, x);
    case ByGuard(x) => CallerByGuard(s, x);
    case _ => CallerByOther(s, a);
  }

  lemma {:induction false} CallerRunKeeps(s: State, run: seq<Step>, t: State)
    requires Inv(s) && CallerInv(s) && Execute(s, run) == Some(t)
    ensures CallerInv(t)
    decreases |run|
  {
    if run != [] {
      StepKeeps(s, run[0]);
      CallerStepKeeps(s, run[0]);
      CallerRunKeeps(Do(s, run[0]), run[1..], t);
    }
  }

  lemma ReachableCaller(id: u16, run: seq<Step>, s: State)
    requires Reaches(id, run, s)
    ensures Inv(s) && CallerInv(s)
  {
    ReachableInv(id, [], Fresh(id));
    ReachableInv(id, run, s);
    CallerRunKeeps(Fresh(id), run, s);
  }

  /** Once a caller that streamed has gone, nothing is queued for it any more: the next
      data for it ends the stream. */
  lemma NothingForTheGone(id: u16, run: seq<Step>, s: State)
    requires Reaches(id, run, s) && s.client.guard != Held && (s.client.at == Streaming || s.client.at == Ended)
    ensures s.cell.queue == [] && !Accepts(s.cell)
    ensures LoopCan(s, HandleData) && s.hub.loop.target ==>
      LoopDoes(s, HandleData).hub.loop == Finishing(Store, Failed, true)
  {
    ReachableCaller(id, run, s);
  }

  /** A caller that has seen the end of its stream, or been told that there is no
      answer, and then goes, never makes the hub abort the answer at the tether. */
  lemma SeenIsNotAborted(id: u16, run: seq<Step>, s: State)
    requires Reaches(id, run, s) && SawEnd(s.client)
    ensures s.cell.completed && s.client.guard != MustNotify
    ensures forall i :: 0 <= i < |s.links.down| && s.links.down[i].End? ==> s.links.down[i].reason != []
  {
    ReachableCaller(id, run, s);
  }

  // ---- Going ------------------------------------------------------------------------------

  /** At most `n` steps, all of the guard. */
  predicate OfGuard(own: seq<Step>, n: nat) {
    |own| <= n && forall i :: 0 <= i < |own| ==> own[i].ByGuard?
  }

  lemma GuardOnce(s: State, a: GuardStep) returns (own: seq<Step>, t: State)
    requires Inv(s) && GuardCan(s, a)
    ensures t == GuardDoes(s, a) && Execute(s, own) == Some(t) && Inv(t) && OfGuard(own, 1)
  {
    own, t := [ByGuard(a)], GuardDoes(s, a);
    StepKeeps(s, ByGuard(a));
    OneStep(s, ByGuard(a));
  }

  lemma GuardStopsUpload(s: State) returns (own: seq<Step>, t: State)
    requires Inv(s) && GuardCan(s, Drop)
    ensures Execute(s, own) == Some(t) && Inv(t) && OfGuard(own, 2)
    ensures t.client.guard == UploadStopped && t.cell.uploadAborted
  {
    var u, more;
    own, u := GuardOnce(s, Drop);
    more, t := GuardOnce(u, DropUpload);
    ExecuteTwice(s, own, u, more);
    own := own + more;
  }

  /** The first three steps of a guard that is dropped. */
  lemma GuardTakesOut(s: State) returns (own: seq<Step>, t: State)
    requires Inv(s) && GuardCan(s, Drop)
    ensures Execute(s, own) == Some(t) && Inv(t) && OfGuard(own, 3)
    ensures t.client.guard == Removed && TakenOut(t.cell)
  {
    var u, more;
    own, u := GuardStopsUpload(s);
    more, t := GuardOnce(u, DropRemove);
    ExecuteTwice(s, own, u, more);
    own := own + more;
  }

  /** Out of the map, with its upload stopped. */
  predicate TakenOut(c: Cell) {
    !c.inMap && c.uploadAborted
  }

  lemma GuardGoesOn(s: State, a: GuardStep) returns (own: seq<Step>, t: State)
    requires Inv(s) && GuardCan(s, a) && TakenOut(s.cell) && (a.DropCheck? || a.DropNotify?)
    ensures Execute(s, own) == Some(t) && Inv(t) && OfGuard(own, 1) && TakenOut(t.cell)
    ensures t.client.guard == Released || (a.DropCheck? && t.client.guard == MustNotify)
  {
    own, t := GuardOnce(s, a);
  }

  lemma GuardIsThrough(s: State)
    requires Inv(s) && s.client.guard == Released && !s.cell.inMap
    ensures Settled(s.links, s.session) || HubOwes(s.hub)
  {
  }

  /** The guard's last turns: at most two. */
  lemma GuardLets(s: State, full: bool) returns (more: seq<Step>, t: State)
    requires Inv(s) && s.client.guard == Removed && TakenOut(s.cell)
    ensures Execute(s, more) == Some(t) && OfGuard(more, 2)
    ensures Inv(t) && t.client.guard == Released && TakenOut(t.cell)
  {
    more, t := GuardGoesOn(s, DropCheck);
    if t.client.guard == MustNotify {
      var u, rest := t, [];
      rest, t := GuardGoesOn(u, DropNotify(full));
      ExecuteTwice(s, more, u, rest);
      more := more + rest;
    }
  }

  /** A caller may go whenever it is not in the middle of a look. At most five steps of
      its guard then take the stream out of the map, stop its upload, and settle it with
      the tether unless the hub still owes that. */
  lemma CallerLeaves(id: u16, run: seq<Step>, s: State, full: bool) returns (more: seq<Step>, t: State)
    requires Reaches(id, run, s) && CallerActive(s)
    requires s.client.at == Waiting || s.client.at == Streaming || s.client.at == Ended || s.client.at == NoAnswer
    ensures Execute(s, more) == Some(t) && |more| <= 5 && forall i :: 0 <= i < |more| ==> more[i].ByGuard?
    ensures t.client.guard == Released && !t.cell.inMap && t.cell.uploadAborted
    ensures Settled(t.links, t.session) || HubOwes(t.hub)
  {
    ReachableInv(id, run, s);
    var first, u := GuardTakesOut(s);
    var rest;
    rest, t := GuardLets(u, full);
    ExecuteTwice(s, first, u, rest);
    more := first + rest;
    GuardIsThrough(t);
  }
}
