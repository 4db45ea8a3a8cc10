/** The refresh loop between the durable store and the registry
    (cargo/src/main.rs), composed with what the store commits and with what the
    registry does to live sessions. */
module ControlPlane {
  import opened Prelude
  import opened RegistrySpec
  import opened Sessions
  import Hub
  import StoreSpec
  import Store

  /** How one read of the store ends. A read that times out is awaited, and what it
      brings in the end is dropped. */
  datatype ReadOutcome = Good(records: seq<Record>) | Unavailable | TimedOut(late: Option<seq<Record>>)

  /** The records a read puts in force. */
  function InForce(outcome: ReadOutcome): seq<Record> {
    if outcome.Good? then outcome.records else []
  }

  /** One round of `refresh_registrations`: the sessions that do not survive are
      stopped and their streams failed, and nothing else of any session changes. */
  method Refresh(registry: Hub.Registry, outcome: ReadOutcome, now: nat)
    requires registry.Valid()
    modifies registry`byCredential, registry`byId, registry`live, registry`state
    modifies Stopped(registry, outcome, now)`closed, Stopped(registry, outcome, now)`aborted,
      Stopped(registry, outcome, now)`streams
    modifies registry.DoomedStreams(InForce(outcome), now)`completed,
      registry.DoomedStreams(InForce(outcome), now)`outcome,
      registry.DoomedStreams(InForce(outcome), now)`slot, registry.DoomedStreams(InForce(outcome), now)`uploadAborted
    ensures registry.Valid()
    ensures exists order :: Replaced(old(registry.state), InForce(outcome), now, registry.state, order)
    ensures Hub.AllFailed(old(registry.DoomedStreams(InForce(outcome), now)))
    ensures !outcome.Good? ==> registry.live == map[]
  {
    if outcome.Good? {
      registry.ReplaceRecords(outcome.records, now);
    } else {
      registry.ClearRecords(now);
    }
  }

  ghost function Stopped(registry: Hub.Registry, outcome: ReadOutcome, now: nat): set<LiveSession>
    reads registry`live, registry`byId
  {
    registry.Doomed(TableOf(InForce(outcome)), now)
  }

  // ---- What a snapshot puts in force -----------------------------------------------

  function TetherOf(db: StoreSpec.Db, id: Id): Tether
    requires id in db.registrations
  {
    var row := db.registrations[id];
    Tether(id, row.name, row.hash, row.active, Some(row.expiresAt))
  }

  function Table(db: StoreSpec.Db): map<Id, Tether> {
    map id | id in db.registrations :: TetherOf(db, id)
  }

  lemma {:induction false} TableOfRows(db: StoreSpec.Db, records: seq<Record>)
    requires forall i :: 0 <= i < |records| ==>
      records[i].id in db.registrations && records[i] == Store.RecordOf(db, records[i].id)
    ensures forall id :: id in TableOf(records) <==> exists i :: 0 <= i < |records| && records[i].id == id
    ensures forall id :: id in TableOf(records) ==> id in db.registrations && TableOf(records)[id] == TetherOf(db, id)
  {
    if records != [] {
      var n := |records| - 1;
      var front := records[..n];
      TableOfRows(db, front);
      forall id ensures id in TableOf(records) <==> exists i :: 0 <= i < |records| && records[i].id == id {
        if i :| 0 <= i < |records| && records[i].id == id && i < n {
          assert front[i].id == id;
        }
        if id in TableOf(front) {
          var i :| 0 <= i < |front| && front[i].id == id;
          assert records[i].id == id;
        }
      }
    }
  }

  /** A complete snapshot puts exactly the registrations in force. */
  lemma SnapshotIsTheTable(db: StoreSpec.Db, records: seq<Record>)
    requires Store.Complete(db, records)
    ensures TableOf(records) == Table(db)
  {
    TableOfRows(db, records);
  }

  // ---- Rotations and revocations reach the sessions ----------------------------------

  /** The credentials of these mutations are new to the store: they are random. */
  predicate Fresh(db: StoreSpec.Db, ms: seq<StoreSpec.Mutation>) {
    forall i, id :: 0 <= i < |ms| && !ms[i].Revoke? && id in db.registrations ==>
      Hash(ms[i].credential) != db.registrations[id].hash
  }

  predicate Withdraws(m: StoreSpec.Mutation, id: Id) {
    m.id == id && (m.Rotate? || m.Revoke?)
  }

  /** After these mutations `id` no longer has this digest, or is not active. */
  predicate Withdrawn(db: StoreSpec.Db, id: Id, hash: Hash) {
    id in db.registrations && (db.registrations[id].hash != hash || !db.registrations[id].active)
  }

  /** Once withdrawn, always withdrawn: nothing brings an old digest back. */
  lemma {:induction false} StaysWithdrawn(db: StoreSpec.Db, ms: seq<StoreSpec.Mutation>, id: Id, hash: Hash)
    requires StoreSpec.Run(db, ms).Some? && Withdrawn(db, id, hash)
    requires forall i :: 0 <= i < |ms| && !ms[i].Revoke? ==> Hash(ms[i].credential) != hash
    ensures Withdrawn(StoreSpec.Run(db, ms).value, id, hash)
    decreases |ms|
  {
    if ms != [] {
      assert !ms[0].Revoke? ==> Hash(ms[0].credential) != hash;
      StaysWithdrawn(StoreSpec.Committed(db, ms[0]), ms[1..], id, hash);
    }
  }

  lemma {:induction false} GetsWithdrawn(db: StoreSpec.Db, ms: seq<StoreSpec.Mutation>, k: nat, id: Id, hash: Hash)
    requires StoreSpec.Run(db, ms).Some? && k < |ms| && Withdraws(ms[k], id)
    requires forall i :: 0 <= i < |ms| && !ms[i].Revoke? ==> Hash(ms[i].credential) != hash
    ensures Withdrawn(StoreSpec.Run(db, ms).value, id, hash)
    decreases |ms|
  {
    assert !ms[0].Revoke? ==> Hash(ms[0].credential) != hash;
    var next := StoreSpec.Committed(db, ms[0]);
    if k == 0 {
      StaysWithdrawn(next, ms[1..], id, hash);
    } else {
      assert ms[1..][k - 1] == ms[k];
      GetsWithdrawn(next, ms[1..], k - 1, id, hash);
    }
  }

  /** The same digest and expiry as before, active, and not expired. */
  predicate Keeps(base: StoreSpec.Db, db: StoreSpec.Db, id: Id, now: nat) {
    && id in base.registrations && id in db.registrations
    && base.registrations[id].hash == db.registrations[id].hash
    && base.registrations[id].expiresAt == db.registrations[id].expiresAt
    && db.registrations[id].active
    && db.registrations[id].expiresAt <= MAX_TIME && now < db.registrations[id].expiresAt * NANOS
  }

  lemma KeepsIsUnchanged(base: StoreSpec.Db, db: StoreSpec.Db, id: Id, now: nat)
    ensures Keeps(base, db, id, now) <==> Unchanged(Table(base), Table(db), id, now)
  {
  }

  /** The registry has the table of `base` in force and now applies a snapshot of
      `db`: the survivors are exactly the sessions whose id kept its digest and
      expiry and is active and unexpired; all others are stopped. */
  lemma SnapshotDecides(r: Registry, base: StoreSpec.Db, db: StoreSpec.Db, records: seq<Record>, now: nat,
                        s: Registry, order: seq<Id>)
    requires r.byId == Table(base) && Store.Complete(db, records) && Replaced(r, records, now, s, order)
    ensures s.byId == Table(db)
    ensures forall id :: id in s.live <==> id in r.live && Keeps(base, db, id, now)
    ensures forall id :: id in r.live && id !in s.live ==> r.live[id] in s.closed && r.live[id] in s.cancelled
  {
    SnapshotIsTheTable(db, records);
    OthersAreStopped(r, records, now, s, order);
    forall id ensures id in s.live <==> id in r.live && Keeps(base, db, id, now) {
      KeepsIsUnchanged(base, db, id, now);
    }
  }

  lemma OthersAreStopped(r: Registry, records: seq<Record>, now: nat, s: Registry, order: seq<Id>)
    requires Replaced(r, records, now, s, order)
    ensures forall id :: id in r.live && id !in s.live ==> r.live[id] in s.closed && r.live[id] in s.cancelled
  {
    forall id | id in r.live && id !in s.live ensures r.live[id] in s.closed && r.live[id] in s.cancelled {
      assert !Unchanged(r.byId, TableOf(records), id, now);
      assert id in order && r.live[id] in Places(r, order);
    }
  }

  /** Whatever the store became by `ms`, an id that was rotated or revoked in
      between keeps no session when its snapshot is applied. */
  lemma SnapshotReachesSessions(r: Registry, base: StoreSpec.Db, ms: seq<StoreSpec.Mutation>, records: seq<Record>,
                                now: nat,
                                s: Registry, order: seq<Id>, k: nat)
    requires r.byId == Table(base) && StoreSpec.Run(base, ms).Some? && Fresh(base, ms)
    requires Store.Complete(StoreSpec.Run(base, ms).value, records) && Replaced(r, records, now, s, order)
    requires k < |ms| && !ms[k].Register?
    ensures var id := ms[k].id;
      id in r.live ==> id !in s.live && r.live[id] in s.closed && r.live[id] in s.cancelled
  {
    var id := ms[k].id;
    SnapshotDecides(r, base, StoreSpec.Run(base, ms).value, records, now, s, order);
    if id in base.registrations {
      GetsWithdrawn(base, ms, k, id, base.registrations[id].hash);
    }
  }

  // ---- Without a snapshot ---------------------------------------------------------------

  predicate Nobody(r: Registry) {
    r.byId == map[] && r.byCredential == map[] && r.live == map[]
  }

  /** What a hub with a store does between snapshots: it never registers by itself. */
  predicate Ordinary(op: Op) {
    op.DoAttach? || op.DoClose? || op.DoDetach? || op.DoRevoke?
  }

  lemma NobodyStays(r: Registry, op: Op, s: Registry)
    requires Nobody(r) && Ordinary(op) && Step(r, op, s)
    ensures Nobody(s)
  {
  }

  /** After a failed or timed-out read nothing is live, and whatever is tried until
      the next good snapshot, nothing is authorized and nothing attaches. */
  lemma {:induction false} FailsClosed(ops: seq<Op>, states: seq<Registry>, credential: Bytes, id: Id, lease: nat,
                                       now: nat)
    requires |states| == |ops| + 1 && Nobody(states[0])
    requires forall i :: 0 <= i < |ops| ==> Ordinary(ops[i]) && Step(states[i], ops[i], states[i + 1])
    ensures var s := states[|ops|];
      s.live == map[] && Authorize(s, credential, lease, now) == None && !MayAttach(s, id, credential, now)
  {
    if ops != [] {
      NobodyStays(states[0], ops[0], states[1]);
      forall i | 0 <= i < |ops[1..]|
        ensures Ordinary(ops[1..][i]) && Step(states[1..][i], ops[1..][i], states[1..][i + 1])
      {
        assert Step(states[i + 1], ops[i + 1], states[i + 2]);
      }
      FailsClosed(ops[1..], states[1..], credential, id, lease, now);
    }
  }

  lemma UnreadableMeansNobody(r: Registry, outcome: ReadOutcome, now: nat, s: Registry, order: seq<Id>)
    requires !outcome.Good? && Replaced(r, InForce(outcome), now, s, order)
    ensures Nobody(s)
  {
    assert TableOf([]) == map[];
  }

  // ---- The whole control plane ------------------------------------------------------------

  /** The store's history, the reader's snapshot if it has one, and which moment of
      the history the registry stands for (None: nobody may do anything). */
  datatype Plane = Plane(history: seq<StoreSpec.Db>, done: seq<StoreSpec.Mutation>, read: Option<nat>,
                         base: Option<nat>, reg: Registry)

  datatype PlaneStep =
    | Mutate(m: StoreSpec.Mutation)
    | Read
    | Apply(records: seq<Record>, now: nat)
    | GiveUp(late: Option<seq<Record>>, now: nat)
    | Serve(op: Op)

  ghost predicate Moves(p: Plane, a: PlaneStep, q: Plane)
    requires p.history != []
  {
    var n := |p.history| - 1;
    match a
    case Mutate(m) =>
      && StoreSpec.Possible(p.history[n], m)
      && q == p.(history := p.history + [StoreSpec.Committed(p.history[n], m)], done := p.done + [m])
    case Read => p.read == None && q == p.(read := Some(n))
    case Apply(records, now) =>
      && p.read.Some? && p.read.value <= n && Store.Complete(p.history[p.read.value], records)
      && (exists order :: Replaced(p.reg, InForce(Good(records)), now, q.reg, order))
      && q == p.(read := None, base := p.read, reg := q.reg)
    case GiveUp(late, now) =>
      && (exists order :: Replaced(p.reg, InForce(TimedOut(late)), now, q.reg, order))
      && q == p.(read := None, base := None, reg := q.reg)
    case Serve(op) => (op.DoAttach? || op.DoClose? || op.DoDetach?) && Step(p.reg, op, q.reg) && q == p.(reg := q.reg)
  }

  /** The registry stands for a moment no later than the one being read. */
  ghost predicate PlaneInv(p: Plane) {
    && |p.history| == |p.done| + 1
    && (forall i :: 0 <= i < |p.done| ==>
          && StoreSpec.Possible(p.history[i], p.done[i])
          && p.history[i + 1] == StoreSpec.Committed(p.history[i], p.done[i]))
    && (p.read.Some? ==> p.read.value < |p.history|)
    && (p.base.Some? ==> p.base.value < |p.history| && p.reg.byId == Table(p.history[p.base.value]))
    && (p.base.Some? && p.read.Some? ==> p.base.value <= p.read.value)
    && (p.base.None? ==> Nobody(p.reg))
    && Inv(p.reg)
  }

  lemma ApplyKeeps(p: Plane, records: seq<Record>, now: nat, q: Plane)
    requires PlaneInv(p) && Moves(p, Apply(records, now), q)
    ensures PlaneInv(q)
  {
    var order := Applied(p, records, now, q);
    SnapshotIsTheTable(p.history[p.read.value], records);
    ReplaceKeeps(p.reg, records, now, q.reg, order);
  }

  lemma GiveUpKeeps(p: Plane, late: Option<seq<Record>>, now: nat, q: Plane)
    requires PlaneInv(p) && Moves(p, GiveUp(late, now), q)
    ensures PlaneInv(q)
  {
    var order :| Replaced(p.reg, InForce(TimedOut(late)), now, q.reg, order);
    UnreadableMeansNobody(p.reg, TimedOut(late), now, q.reg, order);
    ReplaceKeeps(p.reg, [], now, q.reg, order);
  }

  lemma ServeKeeps(p: Plane, op: Op, q: Plane)
    requires PlaneInv(p) && Moves(p, Serve(op), q)
    ensures PlaneInv(q)
  {
    StepKeeps(p.reg, op, q.reg);
    if p.base.None? {
      NobodyStays(p.reg, op, q.reg);
    }
  }

  lemma MoveKeeps(p: Plane, a: PlaneStep, q: Plane)
    requires PlaneInv(p) && Moves(p, a, q)
    ensures PlaneInv(q)
  {
    match a
    case Mutate(m) =>
    case Read =>
    case Apply(records, now) => ApplyKeeps(p, records, now, q);
    case GiveUp(late, now) => GiveUpKeeps(p, late, now, q);
    case Serve(op) => ServeKeeps(p, op, q);
  }

  /** A hub starts only with a complete snapshot in force. */
  ghost predicate Boot(p: Plane) {
    && |p.history| == 1 && p.done == [] && p.read == None && p.base == Some(0)
    && exists records, now, order ::
         Store.Complete(p.history[0], records) && Replaced(Empty(), records, now, p.reg, order)
  }

  lemma BootInv(p: Plane)
    requires Boot(p)
    ensures PlaneInv(p)
  {
    var records, now, order :| Store.Complete(p.history[0], records) && Replaced(Empty(), records, now, p.reg, order);
    SnapshotIsTheTable(p.history[0], records);
    ReplaceKeeps(Empty(), records, now, p.reg, order);
  }

  /** A run: the planes it passes through, from a booted hub. */
  ghost predicate PlaneRun(steps: seq<PlaneStep>, planes: seq<Plane>) {
    && |planes| == |steps| + 1 && Boot(planes[0])
    && forall i :: 0 <= i < |steps| ==> planes[i].history != [] && Moves(planes[i], steps[i], planes[i + 1])
  }

  lemma {:induction false} PlaneRunKeeps(steps: seq<PlaneStep>, planes: seq<Plane>, i: nat)
    requires PlaneRun(steps, planes) && i <= |steps|
    ensures PlaneInv(planes[i])
  {
    if i == 0 {
      BootInv(planes[0]);
    } else {
      PlaneRunKeeps(steps, planes, i - 1);
      MoveKeeps(planes[i - 1], steps[i - 1], planes[i]);
    }
  }

  lemma {:induction false} HistoryRuns(p: Plane, from: nat, to: nat)
    requires PlaneInv(p) && from <= to < |p.history|
    ensures StoreSpec.Run(p.history[from], p.done[from..to]) == Some(p.history[to])
    decreases if from < to then to - from else 0
  {
    if from < to {
      HistoryRuns(p, from + 1, to);
      assert p.done[from..to][1..] == p.done[from + 1..to] && p.done[from..to][0] == p.done[from];
    }
  }

  /** In every run: every installed session was attached under the digest that the
      store held for its id, as active, at the moment the registry stands for; and
      with no such moment nothing is installed, authorized or attached. */
  lemma LiveMatchesStore(steps: seq<PlaneStep>, planes: seq<Plane>, id: Id, credential: Bytes, lease: nat, now: nat)
    requires PlaneRun(steps, planes)
    ensures var p := planes[|steps|];
      && (p.base.Some? ==> p.base.value < |p.history|)
      && (id in p.reg.live ==>
            && p.base.Some? && p.reg.live[id] in p.reg.sessions && id in p.history[p.base.value].registrations
            && p.history[p.base.value].registrations[id].active
            && p.history[p.base.value].registrations[id].hash == p.reg.sessions[p.reg.live[id]].hash)
      && (p.base.None? ==> Authorize(p.reg, credential, lease, now) == None && !MayAttach(p.reg, id, credential, now))
  {
    PlaneRunKeeps(steps, planes, |steps|);
  }

  /** In every run of the store, the refresh loop and the hub: when a snapshot is
      applied, every rotation and revocation committed between the moment the
      registry stood for and the moment of the read has cancelled the session of
      its id. */
  lemma WithdrawalsReachSessions(steps: seq<PlaneStep>, planes: seq<Plane>, records: seq<Record>, now: nat,
                                 q: Plane, k: nat)
    requires PlaneRun(steps, planes)
    requires var p := planes[|steps|]; p.history != [] && Moves(p, Apply(records, now), q) && p.base.Some?
    requires var p := planes[|steps|]; p.base.value <= k < p.read.value && k < |p.done| && !p.done[k].Register?
    requires var p := planes[|steps|];
      p.base.value <= p.read.value <= |p.done| && Fresh(p.history[p.base.value], p.done[p.base.value..p.read.value])
    ensures var p := planes[|steps|]; var id := p.done[k].id;
      id in p.reg.live ==> id !in q.reg.live && p.reg.live[id] in q.reg.closed && p.reg.live[id] in q.reg.cancelled
  {
    var p := planes[|steps|];
    PlaneRunKeeps(steps, planes, |steps|);
    Between(p);
    var order := Applied(p, records, now, q);
    AppliedReaches(p, p.base.value, p.read.value, records, now, q.reg, order, k);
  }

  lemma AppliedReaches(p: Plane, from: nat, to: nat, records: seq<Record>, now: nat, s: Registry, order: seq<Id>,
                       k: nat)
    requires |p.history| == |p.done| + 1 && from <= k < to <= |p.done| && !p.done[k].Register?
    requires p.reg.byId == Table(p.history[from])
    requires StoreSpec.Run(p.history[from], p.done[from..to]) == Some(p.history[to])
    requires Fresh(p.history[from], p.done[from..to])
    requires Store.Complete(p.history[to], records) && Replaced(p.reg, records, now, s, order)
    ensures var id := p.done[k].id;
      id in p.reg.live ==> id !in s.live && p.reg.live[id] in s.closed && p.reg.live[id] in s.cancelled
  {
    assert p.done[from..to][k - from] == p.done[k];
    SnapshotReachesSessions(p.reg, p.history[from], p.done[from..to], records, now, s, order, k - from);
  }

  lemma Between(p: Plane)
    requires PlaneInv(p) && p.base.Some? && p.read.Some?
    ensures |p.history| == |p.done| + 1 && p.base.value <= p.read.value <= |p.done|
    ensures p.reg.byId == Table(p.history[p.base.value])
    ensures StoreSpec.Run(p.history[p.base.value], p.done[p.base.value..p.read.value]) == Some(p.history[p.read.value])
  {
    HistoryRuns(p, p.base.value, p.read.value);
  }

  lemma Applied(p: Plane, records: seq<Record>, now: nat, q: Plane) returns (order: seq<Id>)
    requires p.history != [] && Moves(p, Apply(records, now), q)
    ensures p.read.Some? && p.read.value < |p.history| && Store.Complete(p.history[p.read.value], records)
    ensures Replaced(p.reg, records, now, q.reg, order)
  {
    order :| Replaced(p.reg, InForce(Good(records)), now, q.reg, order);
  }
}
