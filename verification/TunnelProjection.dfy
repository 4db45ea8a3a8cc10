/** Sharing is invisible to a stream: whatever a session does, each stream takes
    a run of its own steps and nothing else happens to it. */
module TunnelProjection {
  import opened Prelude
  import opened Frames
  import opened Stream
  import opened Tunnel

  // ---- The frames of one stream ---------------------------------------------

  lemma OfGrows(log: seq<Frame>, f: Frame, id: u16)
    ensures Of(log + [f], id) == Of(log, id) + if IdOf(f) == Some(id) then [f] else []
  {
    assert (log + [f])[..|log|] == log;
  }

  lemma OfNext(log: seq<Frame>, n: nat, id: u16)
    requires n < |log|
    ensures Of(log[..n + 1], id) == Of(log[..n], id) + if IdOf(log[n]) == Some(id) then [log[n]] else []
  {
    assert log[..n + 1] == log[..n] + [log[n]];
    OfGrows(log[..n], log[n], id);
  }

  lemma {:induction false} OfPrefix(log: seq<Frame>, n: nat, id: u16)
    requires n <= |log|
    ensures Of(log[..n], id) <= Of(log, id)
    decreases |log| - n
  {
    if n < |log| {
      OfNext(log, n, id);
      OfPrefix(log, n + 1, id);
    } else {
      assert log[..n] == log;
    }
  }

  /** Taking the head of a link takes the head of exactly one stream's frames. */
  lemma OfTake(log: seq<Frame>, n: nat, id: u16)
    requires n < |log|
    ensures IdOf(log[n]) == Some(id) ==>
      && |Of(log[..n], id)| < |Of(log, id)| && Of(log, id)[|Of(log[..n], id)|] == log[n]
      && |Of(log[..n + 1], id)| == |Of(log[..n], id)| + 1
    ensures IdOf(log[n]) != Some(id) ==> Of(log[..n + 1], id) == Of(log[..n], id)
  {
    OfNext(log, n, id);
    OfPrefix(log, n + 1, id);
  }

  // ---- What a stream's step can do to the session -----------------------------

  predicate Extends(before: seq<Frame>, after: seq<Frame>, id: u16) {
    after == before ||
    (|after| == |before| + 1 && after == before + [after[|before|]] && IdOf(after[|before|]) == Some(id))
  }

  predicate OnlyFlags(n: Session, o: Session) {
    && o == n.(cancelled := o.cancelled, loopGone := o.loopGone)
    && (n.cancelled ==> o.cancelled) && (n.loopGone ==> o.loopGone)
  }

  predicate SameWritten(l: Links, k: Links) {
    k.upWritten == l.upWritten && k.downWritten == l.downWritten
  }

  predicate Ordinary(a: Step) {
    && !a.ByWire?
    && (a.BySession? ==> a.session == CloseFail)
    && (a.ByTether? ==> a.tether != TetherStep.TetherGone)
  }

  lemma EffectsStarter(s: State, a: StarterStep)
    requires StarterCan(s, a)
    ensures var t := StarterDoes(s, a);
      && t.id == s.id && OnlyFlags(s.session, t.session) && t.links.up == s.links.up
      && SameWritten(s.links, t.links)
      && t.links.downSeen == s.links.downSeen && Extends(s.links.down, t.links.down, s.id)
      && t.links.upSeen == s.links.upSeen && t.hub.loop == s.hub.loop
  {
  }

  lemma EffectsUpload(s: State, a: UploadStep)
    requires UploadCan(s, a)
    ensures var t := UploadDoes(s, a);
      && t.id == s.id && OnlyFlags(s.session, t.session) && t.links.up == s.links.up
      && SameWritten(s.links, t.links)
      && t.links.downSeen == s.links.downSeen && Extends(s.links.down, t.links.down, s.id)
      && t.links.upSeen == s.links.upSeen && t.hub.loop == s.hub.loop
  {
  }

  lemma EffectsGuard(s: State, a: GuardStep)
    requires GuardCan(s, a)
    ensures var t := GuardDoes(s, a);
      && t.id == s.id && OnlyFlags(s.session, t.session) && t.links.up == s.links.up
      && SameWritten(s.links, t.links)
      && t.links.downSeen == s.links.downSeen && Extends(s.links.down, t.links.down, s.id)
      && t.links.upSeen == s.links.upSeen && t.hub.loop == s.hub.loop
  {
  }

  lemma EffectsCaller(s: State, a: CallerStep)
    requires CallerCan(s, a)
    ensures var t := CallerDoes(s, a);
      && t.id == s.id && OnlyFlags(s.session, t.session) && t.links.up == s.links.up
      && SameWritten(s.links, t.links)
      && t.links.downSeen == s.links.downSeen && Extends(s.links.down, t.links.down, s.id)
      && t.links.upSeen == s.links.upSeen && t.hub.loop == s.hub.loop
  {
  }

  lemma EffectsLoop(s: State, a: LoopStep)
    requires LoopCan(s, a)
    ensures var t := LoopDoes(s, a);
      && t.id == s.id && OnlyFlags(s.session, t.session) && t.links.up == s.links.up
      && SameWritten(s.links, t.links)
      && t.links.downSeen == s.links.downSeen && Extends(s.links.down, t.links.down, s.id)
      && t.links.upSeen == s.links.upSeen + (if a == Take then 1 else 0)
  {
  }

  lemma EffectsTether(s: State, a: TetherStep)
    requires TetherCan(s, a) && a != TetherStep.TetherGone
    ensures var t := TetherDoes(s, a);
      && t.id == s.id && t.session == s.session && t.links.down == s.links.down && t.hub == s.hub
      && SameWritten(s.links, t.links)
      && t.links.upSeen == s.links.upSeen && Extends(s.links.up, t.links.up, s.id)
      && t.links.downSeen == s.links.downSeen + (if a == TetherReap then 0 else 1)
  {
  }

  lemma EffectsPump(s: State, a: PumpStep)
    requires PumpCan(s, a)
    ensures var t := PumpDoes(s, a);
      && t.id == s.id && t.session == s.session && t.links.down == s.links.down && t.hub == s.hub
      && SameWritten(s.links, t.links)
      && t.links.upSeen == s.links.upSeen && Extends(s.links.up, t.links.up, s.id)
      && t.links.downSeen == s.links.downSeen
  {
  }

  lemma Effects(s: State, a: Step)
    requires Enabled(s, a) && Ordinary(a)
    ensures var t := Do(s, a);
      && t.id == s.id && OnlyFlags(s.session, t.session)
      && SameWritten(s.links, t.links)
      && Extends(s.links.up, t.links.up, s.id) && Extends(s.links.down, t.links.down, s.id)
      && t.links.upSeen == s.links.upSeen + (if a == ByLoop(Take) then 1 else 0)
      && t.links.downSeen == s.links.downSeen + (if a.ByTether? && a.tether != TetherReap then 1 else 0)
      && (!a.ByLoop? ==> t.hub.loop == s.hub.loop)
  {
    match a
    case ByStarter(x) => EffectsStarter(s, x);
    case ByUpload(x) => EffectsUpload(s, x);
    case ByLoop(x) => EffectsLoop(s, x);
    case BySession(x) =>
    case ByCaller(x) => EffectsCaller(s, x);
    case ByGuard(x) => EffectsGuard(s, x);
    case ByTether(x) => EffectsTether(s, x);
    case ByPump(x) => EffectsPump(s, x);
  }

  // ---- Links ------------------------------------------------------------------

  /** A log and how far it has been taken, as one stream sees them. */
  function Seen(log: seq<Frame>, seen: nat, id: u16): (seq<Frame>, nat)
    requires seen <= |log|
  {
    (Of(log, id), |Of(log[..seen], id)|)
  }

  lemma SeenGrows(log: seq<Frame>, seen: nat, f: Frame, id: u16)
    requires seen <= |log|
    ensures Seen(log + [f], seen, id) ==
      (if IdOf(f) == Some(id) then Of(log, id) + [f] else Of(log, id), |Of(log[..seen], id)|)
  {
    OfGrows(log, f, id);
    assert (log + [f])[..seen] == log[..seen];
    assert Of(log, id) + [] == Of(log, id);
  }

  lemma SeenTakes(log: seq<Frame>, seen: nat, id: u16)
    requires seen < |log|
    ensures Seen(log, seen + 1, id) ==
      (Of(log, id), if IdOf(log[seen]) == Some(id) then |Of(log[..seen], id)| + 1 else |Of(log[..seen], id)|)
  {
    OfTake(log, seen, id);
  }

  lemma UpLifted(m: Multi, id: u16, a: Step, j: u16)
    requires Able(m, Act(id, a))
    ensures var n, v, w := Lift(m, id, a), View(m, id), Do(View(m, id), a);
      && n.upSeen <= n.upWritten <= |n.up|
      && Seen(n.up, n.upSeen, j) == (if j == id then (w.links.up, w.links.upSeen) else Seen(m.up, m.upSeen, j))
      && Seen(n.up, n.upWritten, j).1 == Seen(m.up, m.upWritten, j).1
  {
    var v, w := View(m, id), Do(View(m, id), a);
    Effects(v, a);
    if a == ByLoop(Take) {
      SeenTakes(m.up, m.upSeen, j);
    } else if w.links.up != v.links.up {
      SeenGrows(m.up, m.upSeen, w.links.up[|v.links.up|], j);
      SeenGrows(m.up, m.upWritten, w.links.up[|v.links.up|], j);
    }
  }

  lemma DownLifted(m: Multi, id: u16, a: Step, j: u16)
    requires Able(m, Act(id, a))
    ensures var n, v, w := Lift(m, id, a), View(m, id), Do(View(m, id), a);
      && n.downSeen <= n.downWritten <= |n.down|
      && Seen(n.down, n.downSeen, j) ==
         (if j == id then (w.links.down, w.links.downSeen) else Seen(m.down, m.downSeen, j))
      && Seen(n.down, n.downWritten, j).1 == Seen(m.down, m.downWritten, j).1
  {
    var v, w := View(m, id), Do(View(m, id), a);
    Effects(v, a);
    if a.ByTether? && a.tether != TetherReap {
      SeenTakes(m.down, m.downSeen, j);
    } else if w.links.down != v.links.down {
      SeenGrows(m.down, m.downSeen, w.links.down[|v.links.down|], j);
      SeenGrows(m.down, m.downWritten, w.links.down[|v.links.down|], j);
    }
  }

  // ---- Views ------------------------------------------------------------------

  /** The acting stream takes exactly its step. */
  lemma ViewSelf(m: Multi, id: u16, a: Step)
    requires Able(m, Act(id, a))
    ensures Indexed(Lift(m, id, a)) && View(Lift(m, id, a), id) == Do(View(m, id), a)
  {
    UpLifted(m, id, a, id);
    DownLifted(m, id, a, id);
    Effects(View(m, id), a);
  }

  /** Every other stream sees at most the session's flags change. */
  lemma ViewOther(m: Multi, id: u16, a: Step, j: u16)
    requires Able(m, Act(id, a)) && j != id
    ensures Indexed(Lift(m, id, a))
    ensures View(Lift(m, id, a), j) == View(m, j).(session := Lift(m, id, a).session)
    ensures OnlyFlags(m.session, Lift(m, id, a).session)
  {
    UpLifted(m, id, a, j);
    DownLifted(m, id, a, j);
    Effects(View(m, id), a);
  }

  /** The steps by which a stream notices new flags. */
  function Notice(n: Session, o: Session): seq<Step> {
    (if o.loopGone && !n.loopGone then [BySession(LoopGone)] else [])
    + (if o.cancelled && !n.cancelled then [BySession(Cancel)] else [])
  }

  lemma NoticeFlags(s: State, o: Session)
    requires OnlyFlags(s.session, o)
    ensures Execute(s, Notice(s.session, o)) == Some(s.(session := o))
  {
    var n := s.session;
    var t := s.(session := n.(loopGone := o.loopGone));
    if o.cancelled && !n.cancelled {
      assert Execute(t, [BySession(Cancel)]) == Some(s.(session := o));
    }
    if o.loopGone && !n.loopGone {
      var run := Notice(n, o);
      assert run[1..] == if o.cancelled && !n.cancelled then [BySession(Cancel)] else [];
    }
  }

  /** The run of its own steps a stream takes while the session takes one. */
  function Own(m: Multi, a: MultiStep, j: u16): seq<Step>
    requires Able(m, a)
  {
    match a
    case Act(id, step) => if id == j then [step] else Notice(m.session, Perform(m, a).session)
    case Close => [BySession(CloseDrain)]
    case Flag(flag) => [BySession(flag)]
    case TetherEnds => [ByTether(TetherStep.TetherGone)]
    case Write => if IdOf(m.down[m.downWritten]) == Some(j) then [ByWire(HubWrites)] else []
    case TetherWrite => if IdOf(m.up[m.upWritten]) == Some(j) then [ByWire(TetherWrites)] else []
    case HubTakesControl => Notice(m.session, Perform(m, a).session)
    case _ => []
  }

  /** Frames that belong to no stream are none of a stream's. */
  lemma ViewHubSent(m: Multi, f: Frame, j: u16)
    requires Indexed(m) && IdOf(f) == None
    ensures var n := m.(down := m.down + [f]); Indexed(n) && View(n, j) == View(m, j)
  {
    SeenGrows(m.down, m.downSeen, f, j);
    SeenGrows(m.down, m.downWritten, f, j);
  }

  lemma ViewTetherSent(m: Multi, f: Frame, j: u16)
    requires Indexed(m) && IdOf(f) == None
    ensures var n := m.(up := m.up + [f]); Indexed(n) && View(n, j) == View(m, j)
  {
    SeenGrows(m.up, m.upSeen, f, j);
    SeenGrows(m.up, m.upWritten, f, j);
  }

  lemma ViewHubAnswers(m: Multi, f: Frame, j: u16)
    requires Indexed(m)
    ensures var n := HubAnswers(m, f);
      Indexed(n) && View(n, j) == View(m, j).(session := n.session) && OnlyFlags(m.session, n.session)
  {
    ViewHubSent(m, Pong, j);
  }

  lemma ViewHubTakes(m: Multi, j: u16)
    requires Able(m, HubTakesControl)
    ensures var n := Perform(m, HubTakesControl);
      && Indexed(n) && View(n, j) == View(m, j).(session := n.session)
      && OnlyFlags(m.session, n.session)
  {
    var taken := m.(upSeen := m.upSeen + 1);
    SeenTakes(m.up, m.upSeen, j);
    assert View(taken, j) == View(m, j);
    ViewHubAnswers(taken, m.up[m.upSeen], j);
  }

  lemma ViewTetherTakes(m: Multi, j: u16)
    requires Able(m, TetherTakesControl)
    ensures Indexed(Perform(m, TetherTakesControl)) && View(Perform(m, TetherTakesControl), j) == View(m, j)
  {
    SeenTakes(m.down, m.downSeen, j);
    ViewTetherSent(m.(downSeen := m.downSeen + 1), Pong, j);
  }

  /** The hub's writer writes a frame, of this stream or of another. */
  lemma ViewHubWrites(m: Multi, j: u16)
    requires Able(m, Write)
    ensures Indexed(Perform(m, Write))
    ensures IdOf(m.down[m.downWritten]) != Some(j) ==> View(Perform(m, Write), j) == View(m, j)
    ensures IdOf(m.down[m.downWritten]) == Some(j) ==>
      WireCan(View(m, j), HubWrites) && View(Perform(m, Write), j) == WireDoes(View(m, j), HubWrites)
  {
    SeenTakes(m.down, m.downWritten, j);
    OfPrefix(m.down, m.downWritten + 1, j);
  }

  lemma ViewTetherWrites(m: Multi, j: u16)
    requires Able(m, TetherWrite)
    ensures Indexed(Perform(m, TetherWrite))
    ensures IdOf(m.up[m.upWritten]) != Some(j) ==> View(Perform(m, TetherWrite), j) == View(m, j)
    ensures IdOf(m.up[m.upWritten]) == Some(j) ==>
      WireCan(View(m, j), TetherWrites) && View(Perform(m, TetherWrite), j) == WireDoes(View(m, j), TetherWrites)
  {
    SeenTakes(m.up, m.upWritten, j);
    OfPrefix(m.up, m.upWritten + 1, j);
  }

  lemma ViewWritten(m: Multi, a: MultiStep, j: u16)
    requires Able(m, a) && (a.Write? || a.TetherWrite?)
    ensures Indexed(Perform(m, a))
    ensures Execute(View(m, j), Own(m, a, j)) == Some(View(Perform(m, a), j))
  {
    if a.Write? {
      ViewHubWrites(m, j);
    } else {
      ViewTetherWrites(m, j);
    }
    if Own(m, a, j) != [] {
      OneStep(View(m, j), Own(m, a, j)[0]);
    }
  }

  lemma ViewControl(m: Multi, a: MultiStep, j: u16)
    requires Able(m, a)
    requires a.Reserve? || a.Number? || a.Refuse? || a.HubPings? || a.TetherTakesControl? || a.TetherControl?
    ensures Indexed(Perform(m, a)) && View(Perform(m, a), j) == View(m, j)
  {
    if a.HubPings? {
      ViewHubSent(m, Ping, j);
    } else if a.TetherControl? {
      ViewTetherSent(m, a.frame, j);
    } else if a.TetherTakesControl? {
      ViewTetherTakes(m, j);
    }
  }

  lemma ViewWhole(m: Multi, a: MultiStep, j: u16)
    requires Able(m, a) && (a.Close? || a.Flag? || a.TetherEnds?)
    ensures Indexed(Perform(m, a))
    ensures Enabled(View(m, j), Own(m, a, j)[0]) && View(Perform(m, a), j) == Do(View(m, j), Own(m, a, j)[0])
  {
  }

  lemma ProjectStep(m: Multi, a: MultiStep, j: u16)
    requires Able(m, a)
    ensures Indexed(Perform(m, a))
    ensures Execute(View(m, j), Own(m, a, j)) == Some(View(Perform(m, a), j))
  {
    if a.Act? {
      if a.id == j {
        ViewSelf(m, j, a.step);
        OneStep(View(m, j), a.step);
      } else {
        ViewOther(m, a.id, a.step, j);
        NoticeFlags(View(m, j), Perform(m, a).session);
      }
    } else if a.Close? || a.Flag? || a.TetherEnds? {
      ViewWhole(m, a, j);
      OneStep(View(m, j), Own(m, a, j)[0]);
    } else if a.Write? || a.TetherWrite? {
      ViewWritten(m, a, j);
    } else if a.HubTakesControl? {
      ViewHubTakes(m, j);
      NoticeFlags(View(m, j), Perform(m, a).session);
    } else {
      ViewControl(m, a, j);
    }
  }

  /** A stream's part in a run of the session. */
  function OwnRun(m: Multi, run: seq<MultiStep>, j: u16): seq<Step>
    requires Play(m, run).Some?
    decreases |run|
  {
    if run == [] then [] else Own(m, run[0], j) + OwnRun(Perform(m, run[0]), run[1..], j)
  }

  /** Multiplexing is a refinement: in any run of a session, what each stream
      goes through is a run of that stream on its own. */
  lemma {:induction false} Projection(m: Multi, run: seq<MultiStep>, j: u16)
    requires Indexed(m) && Play(m, run).Some?
    ensures Indexed(Play(m, run).value)
    ensures Execute(View(m, j), OwnRun(m, run, j)) == Some(View(Play(m, run).value, j))
    decreases |run|
  {
    if run != [] {
      var next := Perform(m, run[0]);
      ProjectStep(m, run[0], j);
      Projection(next, run[1..], j);
      ExecuteTwice(View(m, j), Own(m, run[0], j), View(next, j), OwnRun(next, run[1..], j));
    }
  }
}
