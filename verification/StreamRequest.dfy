/** What every step of a stream keeps about its request: the engine reads a
    prefix of the caller's body, and a normal end only after all of it. */
module StreamRequest {
  import opened Prelude
  import opened Frames
  import opened Stream
  import opened StreamSafety

  /** A frame the hub may send after the payloads `before` of this body. */
  predicate FitsBody(f: Frame, before: seq<Bytes>, b: Body) {
    && (f.Data? ==> f.bytes != [])
    && (f.HalfEnd? ==> b.ok && before == NonEmpty(b.chunks))
  }

  ghost predicate AllFitBody(down: seq<Frame>, b: Body) {
    forall i :: 0 <= i < |down| ==> FitsBody(down[i], DataOf(down[..i]), b)
  }

  ghost predicate NoInput(down: seq<Frame>) {
    forall i :: 0 <= i < |down| ==> !down[i].Data? && !down[i].HalfEnd?
  }

  /** The upload task's side of the log. */
  ghost predicate Uploaded(down: seq<Frame>, upload: Upload, b: Body) {
    && (upload == NoUpload ==> NoInput(down))
    && DataOf(down) <= NonEmpty(b.chunks)
    && AllFitBody(down, b)
    && (upload.Sending? ==> upload.sent <= |b.chunks| && DataOf(down) == NonEmpty(b.chunks[..upload.sent]))
  }

  /** Only a final message may be empty: it is the one HALF_END became. */
  predicate EndsOnce(consumed: seq<Bytes>, request: RequestEnd) {
    && (forall i :: 0 <= i < |consumed| - 1 ==> consumed[i] != [])
    && (request == Normal <==> consumed != [] && consumed[|consumed| - 1] == [])
  }

  /** The tether's side of the log: what was handed to the pump, in order. */
  ghost predicate Fed(t: Tether, taken: seq<Frame>) {
    && t.consumed <= MessagesOf(taken)
    && (t.reading ==> t.consumed + t.input <= MessagesOf(taken) && t.request == Unfinished)
    && (t.reading && t.handle ==> t.consumed + t.input == MessagesOf(taken))
    && EndsOnce(t.consumed, t.request)
    && (t.pump.None? ==> !t.handle && !t.reading && t.consumed == [])
  }

  ghost predicate RequestInv(s: State) {
    && Opening(s)
    && Uploaded(s.links.down, s.hub.upload, s.hub.body)
    && Fed(s.tether, s.links.down[..s.links.downSeen])
  }

  lemma AllFitBodyGrows(down: seq<Frame>, f: Frame, b: Body)
    requires AllFitBody(down, b) && FitsBody(f, DataOf(down), b)
    ensures AllFitBody(down + [f], b)
  {
    var all := down + [f];
    forall i | 0 <= i < |all| ensures FitsBody(all[i], DataOf(all[..i]), b) {
      if i < |down| {
        assert all[..i] == down[..i];
      } else {
        assert all[..i] == down;
      }
    }
  }

  lemma UploadedOther(down: seq<Frame>, upload: Upload, b: Body, f: Frame)
    requires Uploaded(down, upload, b) && !f.Data? && !f.HalfEnd?
    ensures Uploaded(down + [f], upload, b)
  {
    LogGrows(down, f);
    AllFitBodyGrows(down, f, b);
  }

  lemma UploadedStarts(down: seq<Frame>, b: Body, c: Body)
    requires Uploaded(down, NoUpload, b)
    ensures Uploaded(down, Sending(0), c)
  {
    NoInputNoData(down);
  }

  lemma {:induction false} NoInputNoData(down: seq<Frame>)
    requires NoInput(down)
    ensures DataOf(down) == [] && MessagesOf(down) == []
  {
    if down != [] {
      NoInputNoData(down[..|down| - 1]);
    }
  }

  lemma UploadedNext(down: seq<Frame>, sent: nat, b: Body, id: u16)
    requires Uploaded(down, Sending(sent), b) && sent < |b.chunks|
    ensures b.chunks[sent] == [] ==> Uploaded(down, Sending(sent + 1), b)
    ensures b.chunks[sent] != [] ==> Uploaded(down + [Data(id, b.chunks[sent])], Sending(sent + 1), b)
  {
    NextNonEmpty(b.chunks, sent);
    NonEmptyPrefix(b.chunks, sent + 1);
    var f := Data(id, b.chunks[sent]);
    LogGrows(down, f);
    if b.chunks[sent] != [] {
      AllFitBodyGrows(down, f, b);
    }
  }

  lemma UploadedEnd(down: seq<Frame>, b: Body, id: u16)
    requires Uploaded(down, Sending(|b.chunks|), b) && b.ok
    ensures Uploaded(down + [HalfEnd(id)], UploadDone, b)
  {
    LogGrows(down, HalfEnd(id));
    assert b.chunks[..|b.chunks|] == b.chunks;
    AllFitBodyGrows(down, HalfEnd(id), b);
  }

  lemma UploadedStops(down: seq<Frame>, upload: Upload, next: Upload, b: Body)
    requires Uploaded(down, upload, b) && !next.Sending? && next != NoUpload
    ensures Uploaded(down, next, b)
  {
  }

  lemma FedSame(t: Tether, down: seq<Frame>, more: seq<Frame>, downSeen: nat)
    requires downSeen <= |down| && down <= more && Fed(t, down[..downSeen])
    ensures Fed(t, more[..downSeen])
  {
    assert more[..downSeen] == down[..downSeen];
  }

  // ---- Each actor -----------------------------------------------------------

  lemma UploadedByNext(s: State)
    requires Uploaded(s.links.down, s.hub.upload, s.hub.body) && UploadCan(s, UploadNext)
    ensures var t := UploadDoes(s, UploadNext); Uploaded(t.links.down, t.hub.upload, t.hub.body)
  {
    UploadedNext(s.links.down, s.hub.upload.sent, s.hub.body, s.id);
    UploadedStops(s.links.down, s.hub.upload, Checking, s.hub.body);
  }

  lemma UploadedByEnd(s: State)
    requires Uploaded(s.links.down, s.hub.upload, s.hub.body) && UploadCan(s, UploadEnd)
    ensures var t := UploadDoes(s, UploadEnd); Uploaded(t.links.down, t.hub.upload, t.hub.body)
  {
    if s.hub.body.ok {
      UploadedEnd(s.links.down, s.hub.body, s.id);
    }
    UploadedStops(s.links.down, s.hub.upload, Checking, s.hub.body);
  }

  lemma UploadedByReport(s: State, full: bool)
    requires Uploaded(s.links.down, s.hub.upload, s.hub.body) && UploadCan(s, UploadReport(full))
    ensures var t := UploadDoes(s, UploadReport(full)); Uploaded(t.links.down, t.hub.upload, t.hub.body)
  {
    UploadedStops(s.links.down, s.hub.upload, UploadDone, s.hub.body);
    UploadedOther(s.links.down, UploadDone, s.hub.body, End(s.id, REASON));
  }

  lemma UploadedByUpload(s: State, a: UploadStep)
    requires Uploaded(s.links.down, s.hub.upload, s.hub.body) && UploadCan(s, a)
    ensures var t := UploadDoes(s, a); Uploaded(t.links.down, t.hub.upload, t.hub.body)
  {
    match a
    case UploadNext => UploadedByNext(s);
    case UploadEnd => UploadedByEnd(s);
    case UploadReport(full) => UploadedByReport(s, full);
    case _ => UploadedStops(s.links.down, s.hub.upload, UploadDoes(s, a).hub.upload, s.hub.body);
  }

  lemma RequestUpload(s: State, a: UploadStep)
    requires RequestInv(s) && UploadCan(s, a)
    ensures RequestInv(UploadDoes(s, a))
  {
    OpeningUpload(s, a);
    UploadFrame(s, a);
    UploadedByUpload(s, a);
    FedSame(s.tether, s.links.down, UploadDoes(s, a).links.down, s.links.downSeen);
  }

  /** Actors of the hub that at most add an END or the OPEN, `f`. */
  lemma RequestQuiet(s: State, t: State, f: Frame)
    requires RequestInv(s) && Opening(t)
    requires t.tether == s.tether && t.links.downSeen == s.links.downSeen
    requires t.hub.upload == s.hub.upload && t.hub.body == s.hub.body
    requires f.Open? || f.End?
    requires t.links.down == s.links.down || t.links.down == s.links.down + [f]
    ensures RequestInv(t)
  {
    FedSame(s.tether, s.links.down, t.links.down, s.links.downSeen);
    UploadedOther(s.links.down, s.hub.upload, s.hub.body, f);
  }

  lemma RequestStarter(s: State, a: StarterStep)
    requires RequestInv(s) && StarterCan(s, a)
    ensures RequestInv(StarterDoes(s, a))
  {
    OpeningStarter(s, a);
    if a.Spawn? {
      UploadedStarts(s.links.down, s.hub.body, a.body);
    } else {
      RequestQuiet(s, StarterDoes(s, a), Open(s.id, if a.SendOpen? then a.head else []));
    }
  }

  lemma RequestLoop(s: State, a: LoopStep)
    requires RequestInv(s) && LoopCan(s, a)
    ensures RequestInv(LoopDoes(s, a))
  {
    OpeningLoop(s, a);
    LoopFrame(s, a);
    RequestQuiet(s, LoopDoes(s, a), End(s.id, REASON));
  }

  lemma RequestGuard(s: State, a: GuardStep)
    requires RequestInv(s) && GuardCan(s, a)
    ensures RequestInv(GuardDoes(s, a))
  {
    OpeningGuard(s, a);
    RequestQuiet(s, GuardDoes(s, a), End(s.id, []));
  }

  lemma RequestSession(s: State, a: SessionStep)
    requires RequestInv(s) && SessionCan(s, a)
    ensures RequestInv(SessionDoes(s, a))
  {
    OpeningSession(s, a);
    RequestQuiet(s, SessionDoes(s, a), End(s.id, []));
  }

  lemma RequestCaller(s: State, a: CallerStep)
    requires RequestInv(s) && CallerCan(s, a)
    ensures RequestInv(CallerDoes(s, a))
  {
    OpeningCaller(s, a);
    CallerFrame(s, a);
    RequestQuiet(s, CallerDoes(s, a), End(s.id, []));
  }

  lemma FedIgnores(t: Tether, taken: seq<Frame>, f: Frame)
    requires Fed(t, taken) && (!t.handle || !t.reading || (!f.Data? && !f.HalfEnd?))
    ensures Fed(t, taken + [f])
  {
    LogGrows(taken, f);
  }

  lemma FedDrops(t: Tether, taken: seq<Frame>, f: Frame)
    requires Fed(t, taken)
    ensures Fed(t.(handle := false), taken + [f])
  {
    LogGrows(taken, f);
  }

  lemma FedQueues(t: Tether, taken: seq<Frame>, f: Frame)
    requires Fed(t, taken) && t.handle && t.reading && (f.Data? || f.HalfEnd?)
    ensures Fed(t.(input := t.input + [if f.Data? then f.bytes else []]), taken + [f])
  {
    var message := if f.Data? then f.bytes else [];
    LogGrows(taken, f);
    Assoc(t.consumed, t.input, [message]);
  }

  lemma FedOpens(down: seq<Frame>, n: nat, answer: Answer)
    requires OpenFirst(down) && n < |down| && down[n].Open?
    ensures Fed(Tether(true, [], true, [], Unfinished, Some(Pump(answer, Connecting, 0))), down[..n + 1])
  {
    assert n == 0;
    NextOf(down, 0);
  }

  /** The tether takes the next frame, whose effect on its own half is `t`. */
  lemma FedTakes(s: State, t: Tether)
    requires NextDown(s) && Fed(s.tether, s.links.down[..s.links.downSeen])
    requires var f := s.links.down[s.links.downSeen];
      || t == s.tether.(handle := false)
      || ((f.Data? || f.HalfEnd?) && (!s.tether.handle || !s.tether.reading) && t == s.tether)
      || (f.Data? && s.tether.handle && s.tether.reading && t == s.tether.(input := s.tether.input + [f.bytes]))
      || (f.HalfEnd? && s.tether.handle && s.tether.reading && t == s.tether.(input := s.tether.input + [[]]))
    ensures Fed(t, s.links.down[..s.links.downSeen + 1])
  {
    var down, n := s.links.down, s.links.downSeen;
    assert down[..n + 1] == down[..n] + [down[n]];
    if t == s.tether.(handle := false) {
      FedDrops(s.tether, down[..n], down[n]);
    } else if t == s.tether {
      FedIgnores(s.tether, down[..n], down[n]);
    } else {
      FedQueues(s.tether, down[..n], down[n]);
    }
  }

  lemma FedTether(s: State, a: TetherStep)
    requires RequestInv(s) && TetherCan(s, a)
    ensures var t := TetherDoes(s, a);
      && t.links.down == s.links.down && t.links.downSeen <= |t.links.down|
      && Fed(t.tether, t.links.down[..t.links.downSeen])
  {
    match a
    case TetherOpen(answer, overloaded) =>
      if overloaded {
        assert s.links.downSeen == 0;
        FedTakes(s, s.tether.(handle := false));
      } else {
        FedOpens(s.links.down, s.links.downSeen, answer);
      }
    case TetherInput(full) => FedTakes(s, TetherDoes(s, a).tether);
    case TetherEnd => FedTakes(s, s.tether.(handle := false));
    case TetherReap =>
    case TetherGone =>
  }

  lemma RequestTether(s: State, a: TetherStep)
    requires RequestInv(s) && TetherCan(s, a)
    ensures RequestInv(TetherDoes(s, a))
  {
    OpeningTether(s, a);
    FedTether(s, a);
  }

  lemma FedReceives(t: Tether, taken: seq<Frame>)
    requires Fed(t, taken) && t.reading && t.input != []
    ensures var u := t.(input := t.input[1..], consumed := t.consumed + [t.input[0]]);
      Fed(if t.input[0] == [] then u.(request := Normal, reading := false) else u, taken)
  {
    assert t.consumed + [t.input[0]] + t.input[1..] == t.consumed + t.input;
  }

  lemma FedPump(s: State, a: PumpStep)
    requires s.links.downSeen <= |s.links.down| && Fed(s.tether, s.links.down[..s.links.downSeen]) && PumpCan(s, a)
    ensures Fed(PumpDoes(s, a).tether, s.links.down[..s.links.downSeen])
  {
    if a.PumpReceive? {
      FedReceives(s.tether, s.links.down[..s.links.downSeen]);
    }
  }

  lemma PumpFrame(s: State, a: PumpStep)
    requires PumpCan(s, a)
    ensures var t := PumpDoes(s, a);
      t.links.down == s.links.down && t.links.downSeen == s.links.downSeen && t.hub == s.hub
  {
  }

  lemma RequestPump(s: State, a: PumpStep)
    requires RequestInv(s) && PumpCan(s, a)
    ensures RequestInv(PumpDoes(s, a))
  {
    OpeningPump(s, a);
    PumpFrame(s, a);
    FedPump(s, a);
  }

  lemma RequestStep(s: State, a: Step)
    requires RequestInv(s) && Enabled(s, a)
    ensures RequestInv(Do(s, a))
  {
    match a
    case ByStarter(x) => RequestStarter(s, x);
    case ByUpload(x) => RequestUpload(s, x);
    case ByLoop(x) => RequestLoop(s, x);
    case BySession(x) => RequestSession(s, x);
    case ByCaller(x) => RequestCaller(s, x);
    case ByGuard(x) => RequestGuard(s, x);
    case ByTether(x) => RequestTether(s, x);
    case ByPump(x) => RequestPump(s, x);
    case ByWire(_) =>
  }

  // ---- What the engine has read ---------------------------------------------

  lemma {:induction false} MessagesAreData(log: seq<Frame>, b: Body)
    requires AllFitBody(log, b)
    ensures NonEmpty(MessagesOf(log)) == DataOf(log)
  {
    if log != [] {
      var front := log[..|log| - 1];
      forall i | 0 <= i < |front| ensures FitsBody(front[i], DataOf(front[..i]), b) {
        assert front[..i] == log[..i];
      }
      MessagesAreData(front, b);
      var f := log[|log| - 1];
      assert FitsBody(f, DataOf(log[..|log| - 1]), b);
      var m := MessagesOf(log);
      if f.Data? || f.HalfEnd? {
        assert m[..|m| - 1] == MessagesOf(front);
      } else {
        assert m == MessagesOf(front) && DataOf(log) == DataOf(front);
      }
    }
  }

  /** Messages that end with the empty one stop at a HALF_END frame. */
  lemma {:induction false} EmptyMessageIsHalfEnd(log: seq<Frame>, b: Body, messages: seq<Bytes>)
    requires AllFitBody(log, b) && messages <= MessagesOf(log)
    requires messages != [] && messages[|messages| - 1] == []
    ensures b.ok && NonEmpty(messages) == NonEmpty(b.chunks)
  {
    var front, f := log[..|log| - 1], log[|log| - 1];
    forall i | 0 <= i < |front| ensures FitsBody(front[i], DataOf(front[..i]), b) {
      assert front[..i] == log[..i];
    }
    assert FitsBody(f, DataOf(log[..|log| - 1]), b);
    if |messages| <= |MessagesOf(front)| {
      EmptyMessageIsHalfEnd(front, b, messages);
    } else {
      assert messages == MessagesOf(log);
      assert f.HalfEnd?;
      MessagesAreData(front, b);
      assert messages[..|messages| - 1] == MessagesOf(front);
    }
  }

  lemma {:induction false} NonEmptyMonotone(a: seq<Bytes>, b: seq<Bytes>)
    requires a <= b
    ensures NonEmpty(a) <= NonEmpty(b)
  {
    NonEmptyPrefix(b, |a|);
    assert b[..|a|] == a;
  }

  lemma AllFitBodyPrefix(down: seq<Frame>, n: nat, b: Body)
    requires AllFitBody(down, b) && n <= |down|
    ensures AllFitBody(down[..n], b)
  {
    forall i | 0 <= i < n ensures FitsBody(down[..n][i], DataOf(down[..n][..i]), b) {
      assert down[..n][..i] == down[..i];
    }
  }

  /** The engine has read a prefix of the caller's non-empty chunks, in order; its
      request ends normally only after all of a properly ended caller body. */
  lemma RequestMeaning(s: State)
    requires RequestInv(s)
    ensures NonEmpty(s.tether.consumed) <= NonEmpty(s.hub.body.chunks)
    ensures s.tether.request == Normal ==>
      s.hub.body.ok && NonEmpty(s.tether.consumed) == NonEmpty(s.hub.body.chunks)
  {
    var down, n, b := s.links.down, s.links.downSeen, s.hub.body;
    AllFitBodyPrefix(down, n, b);
    MessagesAreData(down[..n], b);
    NonEmptyMonotone(s.tether.consumed, MessagesOf(down[..n]));
    DataPrefix(down, n);
    if s.tether.request == Normal {
      EmptyMessageIsHalfEnd(down[..n], b, s.tether.consumed);
    }
  }
}
