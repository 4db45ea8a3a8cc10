/** The promises about one stream, for every interleaving of its actors. */
module StreamRuns {
  import opened Prelude
  import opened Frames
  import opened Stream
  import opened StreamSafety
  import opened StreamSettlement
  import opened StreamRequest

  ghost predicate Inv(s: State) {
    ResponseInv(s) && SettlementInv(s) && RequestInv(s)
  }

  ghost predicate Reaches(id: u16, run: seq<Step>, s: State) {
    Execute(Fresh(id), run) == Some(s)
  }

  lemma StepKeeps(s: State, a: Step)
    requires Inv(s) && Enabled(s, a)
    ensures Inv(Do(s, a))
  {
    ResponseStep(s, a);
    SettlementStep(s, a);
    RequestStep(s, a);
  }

  lemma {:induction false} RunKeeps(s: State, run: seq<Step>, t: State)
    requires Inv(s) && Execute(s, run) == Some(t)
    ensures Inv(t)
    decreases |run|
  {
    if run != [] {
      StepKeeps(s, run[0]);
      RunKeeps(Do(s, run[0]), run[1..], t);
    }
  }

  lemma ReachableInv(id: u16, run: seq<Step>, s: State)
    requires Reaches(id, run, s)
    ensures Inv(s)
  {
    RunKeeps(Fresh(id), run, s);
  }

  /** One step more of a run of stream 1. */
  lemma Go(run: seq<Step>, s: State, a: Step) returns (more: seq<Step>, t: State)
    requires Reaches(1, run, s) && Enabled(s, a)
    ensures more == run + [a] && t == Do(s, a) && Reaches(1, more, t)
  {
    more, t := run + [a], Do(s, a);
    OneStep(s, a);
    ExecuteTwice(Fresh(1), run, s, [a]);
  }

  // ---- No fabricated or truncated success -----------------------------------

  predicate EndsCleanly(trace: seq<Item>) {
    Eof in trace && Error !in trace
  }

  lemma FirstEndDecides(k: Client)
    requires k.at != Ended ==> AllChunks(k.trace)
    ensures EndsCleanly(k.trace) ==> k.at == Ended
  {
  }

  /** The polls of a body are chunks, then one error or end, then ends. The chunks
      are always a prefix of the DATA payloads in the order they were sent. A
      body that ends without an error delivered the whole of an answer the engine
      ended properly, and the pump's END with an empty reason was received. */
  lemma NoFabricatedSuccess(id: u16, run: seq<Step>, s: State)
    requires Reaches(id, run, s)
    ensures s.links.upSeen <= |s.links.up|
    ensures WellFormed(s.client.trace)
    ensures ChunksOf(s.client.trace) <= DataOf(s.links.up)
    ensures EndsCleanly(s.client.trace) ==>
      && s.tether.pump.Some? && s.tether.pump.value.answer.headed && s.tether.pump.value.answer.ok
      && ChunksOf(s.client.trace) == NonEmpty(s.tether.pump.value.answer.chunks) == DataOf(s.links.up)
      && CleanEndIn(s.links.up[..s.links.upSeen])
  {
    ReachableInv(id, run, s);
    DataPrefix(s.links.up, s.links.upSeen);
    FirstEndDecides(s.client);
    if s.tether.pump.Some? {
      var p := s.tether.pump.value;
      NonEmptyPrefix(p.answer.chunks, p.read);
    }
  }

  /** A caller that streams got the engine's own head; one told that no answer
      came is told so only of a finished stream. */
  lemma HeadIsTheEngines(id: u16, run: seq<Step>, s: State)
    requires Reaches(id, run, s)
    ensures s.client.at != Waiting && s.client.at != HeadMissing && s.client.at != NoAnswer ==>
      && s.cell.head.Some? && s.tether.pump.Some? && s.tether.pump.value.answer.headed
      && s.cell.head.value == s.tether.pump.value.answer.head
    ensures s.client.at == NoAnswer ==> s.cell.completed
  {
    ReachableInv(id, run, s);
  }

  lemma {:induction false} DataOfSplit(log: seq<Frame>, i: nat)
    requires i <= |log|
    ensures DataOf(log) == DataOf(log[..i]) + DataOf(log[i..])
    decreases |log|
  {
    if i < |log| {
      var front := log[..|log| - 1];
      DataOfSplit(front, i);
      assert front[..i] == log[..i];
      assert log[i..][..|log| - i - 1] == front[i..];
    } else {
      assert log[..i] == log;
    }
  }

  lemma {:induction false} NonEmptySplit(chunks: seq<Bytes>, i: nat)
    requires i <= |chunks|
    ensures NonEmpty(chunks) == NonEmpty(chunks[..i]) + NonEmpty(chunks[i..])
    decreases |chunks|
  {
    if i < |chunks| {
      var front := chunks[..|chunks| - 1];
      NonEmptySplit(front, i);
      assert front[..i] == chunks[..i];
      assert chunks[i..][..|chunks| - i - 1] == front[i..];
    } else {
      assert chunks[..i] == chunks;
    }
  }

  /** Frames the loop has not yet disposed of: the one in hand and those behind. */
  function Pending(s: State): seq<Frame>
    requires s.links.upSeen <= |s.links.up| && (s.hub.loop.Holding? ==> s.links.upSeen > 0)
  {
    if s.hub.loop.Holding? then s.links.up[s.links.upSeen - 1..] else s.links.up[s.links.upSeen..]
  }

  /** While the stream is in the hub's map, no payload is anywhere but delivered,
      queued, on the link, or still with the pump. */
  lemma Conservation(id: u16, run: seq<Step>, s: State)
    requires Reaches(id, run, s)
    requires s.cell.inMap && s.tether.pump.Some? && s.cell.rx != Dropped
    requires s.hub.loop.Idle? || s.hub.loop.Holding?
    ensures s.links.upSeen <= |s.links.up| && (s.hub.loop.Holding? ==> s.links.upSeen > 0)
    ensures var p := s.tether.pump.value;
      && p.read <= |p.answer.chunks|
      && ChunksOf(s.client.trace) + s.cell.queue + DataOf(Pending(s)) + NonEmpty(p.answer.chunks[p.read..])
         == NonEmpty(p.answer.chunks)
  {
    ReachableInv(id, run, s);
    var p := s.tether.pump.value;
    DataOfSplit(s.links.up, if s.hub.loop.Holding? then s.links.upSeen - 1 else s.links.upSeen);
    NonEmptySplit(p.answer.chunks, p.read);
  }

  // ---- No orphaned engine work ------------------------------------------------

  /** Once a stream whose OPEN was queued has left the hub's map, the tether ended
      it, or an END for it is queued, or the session is ending, as soon as no actor
      is between two of its own steps. */
  lemma NoOrphanedWork(id: u16, run: seq<Step>, s: State)
    requires Reaches(id, run, s)
    requires s.links.down != [] && !s.cell.inMap && !Owed(s.hub, s.client)
    ensures Settled(s.links, s.session)
  {
    ReachableInv(id, run, s);
  }

  /** An END the tether has taken leaves it without a handle, so the pump is
      aborted; and the tether starts at most one pump, for the one OPEN. */
  lemma TetherLetsGo(id: u16, run: seq<Step>, s: State)
    requires Reaches(id, run, s)
    ensures s.links.downSeen <= |s.links.down|
    ensures EndIn(s.links.down[..s.links.downSeen]) ==> !s.tether.handle
    ensures s.tether.pump.Some? ==> forall a :: TetherCan(s, a) ==> !a.TetherOpen?
  {
    ReachableInv(id, run, s);
  }

  // ---- No stranded caller -----------------------------------------------------

  /** The caller has not yet begun to take its stream out of the map. */
  predicate StillThere(k: Client) {
    k.guard == Held || k.guard == BodyDropped || k.guard == UploadStopped
  }

  /** A closed session keeps no stream, and each stream it admitted is decided for
      its caller once the closer has run, unless the caller itself has gone. */
  lemma NoStrandedCaller(id: u16, run: seq<Step>, s: State)
    requires Reaches(id, run, s) && s.session.closed && s.hub.starter != NotStarted
    ensures !s.cell.inMap
    ensures StillThere(s.client) && !s.hub.closer.CloserAt? ==> Terminal(s.cell)
  {
    ReachableInv(id, run, s);
  }

  /** However `install_upload` interleaves with the store and the abort of
      `finish_upload`, the upload of a finished stream has been aborted once no
      actor is between the two; a dropped caller aborts it as well. An upload that has
      been aborted can stop at its next send. */
  lemma UploadIsStopped(id: u16, run: seq<Step>, s: State)
    requires Reaches(id, run, s) && s.hub.starter == Returned
    ensures s.cell.completed && !AbortPending(s.hub) ==> s.cell.uploadAborted && !s.cell.slot
    ensures s.client.guard != Held && s.client.guard != BodyDropped ==> s.cell.uploadAborted
    ensures s.cell.uploadAborted && s.hub.upload.Sending? ==>
      UploadCan(s, UploadStops) && UploadDoes(s, UploadStops).hub.upload == UploadDone
  {
    ReachableInv(id, run, s);
  }

  // ---- The request ------------------------------------------------------------

  /** The engine reads a prefix of the caller's non-empty chunks in order, and its
      request body ends normally only if it has all of a body that ended properly. */
  lemma RequestIsFaithful(id: u16, run: seq<Step>, s: State)
    requires Reaches(id, run, s)
    ensures NonEmpty(s.tether.consumed) <= NonEmpty(s.hub.body.chunks)
    ensures s.tether.request == Normal ==>
      s.hub.body.ok && NonEmpty(s.tether.consumed) == NonEmpty(s.hub.body.chunks)
  {
    ReachableInv(id, run, s);
    RequestMeaning(s);
  }
}
