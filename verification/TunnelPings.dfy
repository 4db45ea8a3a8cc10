/** Keepalives: whatever else a session does, each PING an end has taken it has
    answered once, or the hub's loop has ended. */
module TunnelPings {
  import opened Prelude
  import opened Frames
  import opened Stream
  import opened StreamRuns
  import opened Tunnel
  import opened TunnelProjection
  import opened TunnelRuns

  function Times(log: seq<Frame>, f: Frame): nat {
    if log == [] then 0 else Times(log[..|log| - 1], f) + if log[|log| - 1] == f then 1 else 0
  }

  lemma TimesGrows(log: seq<Frame>, g: Frame, f: Frame)
    ensures Times(log + [g], f) == Times(log, f) + if g == f then 1 else 0
  {
    assert (log + [g])[..|log|] == log;
  }

  lemma TimesTakes(log: seq<Frame>, n: nat, f: Frame)
    requires n < |log|
    ensures Times(log[..n + 1], f) == Times(log[..n], f) + if log[n] == f then 1 else 0
  {
    assert log[..n + 1][..n] == log[..n];
  }

  /** A link on which PONG answers what was taken from the other. */
  predicate Answers(out: seq<Frame>, taken: seq<Frame>, ended: bool) {
    && Times(out, Pong) <= Times(taken, Ping)
    && (!ended ==> Times(out, Pong) == Times(taken, Ping))
  }

  predicate Pinged(m: Multi) {
    && Indexed(m)
    && Answers(m.down, m.up[..m.upSeen], m.session.loopGone)
    && Answers(m.up, m.down[..m.downSeen], false)
  }

  /** One more frame that is neither PING nor PONG changes nothing. */
  lemma OutGrows(out: seq<Frame>, taken: seq<Frame>, ended: bool, f: Frame)
    requires Answers(out, taken, ended) && f != Pong
    ensures Answers(out + [f], taken, ended)
  {
    TimesGrows(out, f, Pong);
  }

  lemma TakesOther(out: seq<Frame>, log: seq<Frame>, n: nat, ended: bool)
    requires n < |log| && Answers(out, log[..n], ended) && log[n] != Ping
    ensures Answers(out, log[..n + 1], ended)
  {
    TimesTakes(log, n, Ping);
  }

  lemma TakesPing(out: seq<Frame>, log: seq<Frame>, n: nat, ended: bool)
    requires n < |log| && Answers(out, log[..n], ended) && log[n] == Ping
    ensures Answers(out + [Pong], log[..n + 1], ended) && Answers(out, log[..n + 1], true)
  {
    TimesTakes(log, n, Ping);
    TimesGrows(out, Pong, Pong);
  }

  /** A log as an end sees it that takes nothing from it. */
  lemma SamePrefix(log: seq<Frame>, f: Frame, n: nat)
    requires n <= |log|
    ensures (log + [f])[..n] == log[..n]
  {
  }

  lemma PingedDown(m: Multi, id: u16, a: Step)
    requires Pinged(m) && Able(m, Act(id, a))
    ensures var n := Lift(m, id, a);
      n.upSeen <= |n.up| && Answers(n.down, n.up[..n.upSeen], n.session.loopGone)
  {
    var v, w, n := View(m, id), Do(View(m, id), a), Lift(m, id, a);
    Effects(v, a);
    if a == ByLoop(Take) {
      TakesOther(m.down, m.up, m.upSeen, m.session.loopGone);
    } else {
      if w.links.up != v.links.up {
        SamePrefix(m.up, w.links.up[|v.links.up|], m.upSeen);
      }
      if w.links.down != v.links.down {
        OutGrows(m.down, m.up[..m.upSeen], m.session.loopGone, w.links.down[|v.links.down|]);
      }
    }
  }

  lemma PingedUp(m: Multi, id: u16, a: Step)
    requires Pinged(m) && Able(m, Act(id, a))
    ensures var n := Lift(m, id, a);
      n.downSeen <= |n.down| && Answers(n.up, n.down[..n.downSeen], false)
  {
    var v, w, n := View(m, id), Do(View(m, id), a), Lift(m, id, a);
    Effects(v, a);
    if a.ByTether? && a.tether != TetherReap {
      TakesOther(m.up, m.down, m.downSeen, false);
      if w.links.up != v.links.up {
        OutGrows(m.up, m.down[..m.downSeen + 1], false, w.links.up[|v.links.up|]);
      }
    } else {
      if w.links.up != v.links.up {
        OutGrows(m.up, m.down[..m.downSeen], false, w.links.up[|v.links.up|]);
      }
      if w.links.down != v.links.down {
        SamePrefix(m.down, w.links.down[|v.links.down|], m.downSeen);
      }
    }
  }

  lemma PingedHubTakes(m: Multi)
    requires Pinged(m) && Able(m, HubTakesControl)
    ensures Pinged(Perform(m, HubTakesControl))
  {
    if m.up[m.upSeen] == Ping {
      TakesPing(m.down, m.up, m.upSeen, m.session.loopGone);
      SamePrefix(m.down, Pong, m.downSeen);
    } else {
      TakesOther(m.down, m.up, m.upSeen, m.session.loopGone);
    }
  }

  lemma PingedTetherTakes(m: Multi)
    requires Pinged(m) && Able(m, TetherTakesControl)
    ensures Pinged(Perform(m, TetherTakesControl))
  {
    if m.down[m.downSeen] == Ping {
      TakesPing(m.up, m.down, m.downSeen, false);
      SamePrefix(m.up, Pong, m.upSeen);
    } else {
      TakesOther(m.up, m.down, m.downSeen, false);
    }
  }

  lemma PingedSent(m: Multi, a: MultiStep)
    requires Pinged(m) && Able(m, a) && (a.HubPings? || a.TetherControl?)
    ensures Pinged(Perform(m, a))
  {
    if a.HubPings? {
      OutGrows(m.down, m.up[..m.upSeen], m.session.loopGone, Ping);
      SamePrefix(m.down, Ping, m.downSeen);
    } else {
      OutGrows(m.up, m.down[..m.downSeen], false, a.frame);
      SamePrefix(m.up, a.frame, m.upSeen);
    }
  }

  lemma PingedStep(m: Multi, a: MultiStep)
    requires Pinged(m) && Able(m, a)
    ensures Pinged(Perform(m, a))
  {
    match a
    case Act(id, step) =>
      PingedDown(m, id, step);
      PingedUp(m, id, step);
      ViewSelf(m, id, step);
    case HubTakesControl => PingedHubTakes(m);
    case TetherTakesControl => PingedTetherTakes(m);
    case HubPings => PingedSent(m, a);
    case TetherControl(_) => PingedSent(m, a);
    case _ =>
  }

  lemma {:induction false} RunPings(m: Multi, run: seq<MultiStep>)
    requires Pinged(m) && Play(m, run).Some?
    ensures Pinged(Play(m, run).value)
    decreases |run|
  {
    if run != [] {
      PingedStep(m, run[0]);
      RunPings(Perform(m, run[0]), run[1..]);
    }
  }

  /** In every run each end has answered every PING it has taken with one PONG, and sent
      no other; the hub may owe answers only once its loop has ended. */
  lemma PingsAreAnswered(run: seq<MultiStep>, m: Multi)
    requires Attains(run, m)
    ensures Indexed(m)
    ensures Times(m.up, Pong) == Times(m.down[..m.downSeen], Ping)
    ensures Times(m.down, Pong) <= Times(m.up[..m.upSeen], Ping)
    ensures !m.session.loopGone ==> Times(m.down, Pong) == Times(m.up[..m.upSeen], Ping)
  {
    RunPings(Start(), run);
  }
}
