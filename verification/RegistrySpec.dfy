/** The hub's authority as a value: who is registered, which session is installed
    for whom, and what each registry operation does to that (cargo/src/hub.rs). */
module RegistrySpec {
  import opened Prelude

  const NANOS: nat := 1_000_000_000
  const MAX_TIME: nat := 0x7FFF_FFFF_FFFF_FFFF
  const MAX_DURATION: nat := 0xFFFF_FFFF_FFFF_FFFF * NANOS + 999_999_999

  /** SHA-256 stands for an injective digest. */
  datatype Hash = Hash(of: Bytes)

  type Id = string

  datatype Tether = Tether(id: Id, name: string, hash: Hash, active: bool, expiresAt: Option<nat>)
  {
    /** Time left at `now`, in nanoseconds since the epoch; None when it may not be
        used. */
    function Remaining(now: nat): Option<nat> {
      if !active then None
      else match expiresAt
      case None => Some(MAX_DURATION)
      case Some(seconds) =>
        if seconds > MAX_TIME || seconds * NANOS <= now then None else Some(seconds * NANOS - now)
    }
  }

  /** A registration that is active and has not run out. */
  predicate Unexpired(t: Tether, now: nat) {
    && t.active
    && (t.expiresAt.None?
        || (t.expiresAt.value <= 0x7FFF_FFFF_FFFF_FFFF && now < t.expiresAt.value * 1_000_000_000))
  }

  /** The lifetime of a lease granted at `now`: as asked for, or what is left. */
  function Granted(t: Tether, lease: nat, now: nat): int {
    var left := if t.expiresAt.None? then MAX_DURATION else t.expiresAt.value * NANOS - now;
    if lease < left then lease else left
  }

  /** A row of the durable store. */
  datatype Record = Record(id: Id, name: string, hash: Hash, active: bool, expiresAt: nat)

  /** What befell the place of one id in the table of live sessions. */
  datatype Event = Attached(id: Id, generation: nat) | Evicted(id: Id) | Left(generation: nat)

  datatype Info = Info(id: Id, hash: Hash)

  /** `sessions` holds every session ever attached, `closed` those that have been
      closed, `cancelled` those told to stop, `events` the history of the live
      table. */
  datatype Registry = Registry(
    byCredential: map<Hash, Id>, byId: map<Id, Tether>, live: map<Id, nat>,
    sessions: map<nat, Info>, closed: set<nat>, cancelled: set<nat>, nextGeneration: nat, events: seq<Event>)

  function Empty(): Registry {
    Registry(map[], map[], map[], map[], {}, {}, 1, [])
  }

  // ---- The operations ---------------------------------------------------------

  /** Close a session and tell its loop to stop. */
  function Stop(r: Registry, g: nat): Registry {
    r.(closed := r.closed + {g}, cancelled := r.cancelled + {g})
  }

  /** Remove the installed session of `id`, if any, and stop it. */
  function Evict(r: Registry, id: Id): Registry {
    if id in r.live then
      Stop(r, r.live[id]).(live := r.live - {id}, events := r.events + [Evicted(id)])
    else r
  }

  function Register(r: Registry, id: Id, name: string, credential: Bytes): Registry {
    var hash := Hash(credential);
    var credentials :=
      if id in r.byId && r.byId[id].hash in r.byCredential && r.byCredential[r.byId[id].hash] == id
      then r.byCredential - {r.byId[id].hash} else r.byCredential;
    Evict(r.(byCredential := credentials[hash := id],
             byId := r.byId[id := Tether(id, name, hash, true, None)]), id)
  }

  function Revoke(r: Registry, id: Id): (Registry, bool) {
    var changed := id in r.byId && r.byId[id].active;
    var s := if changed then r.(byId := r.byId[id := r.byId[id].(active := false)]) else r;
    (Evict(s, id), changed)
  }

  /** The lifetime of the granted lease and whose it is. */
  function Authorize(r: Registry, credential: Bytes, lease: nat, now: nat): Option<(Id, nat)> {
    var hash := Hash(credential);
    if hash !in r.byCredential || r.byCredential[hash] !in r.byId then None
    else match r.byId[r.byCredential[hash]].Remaining(now)
    case None => None
    case Some(left) =>
      if left < NANOS then None else Some((r.byCredential[hash], if lease < left then lease else left))
  }

  predicate MayAttach(r: Registry, id: Id, credential: Bytes, now: nat) {
    var hash := Hash(credential);
    && id in r.byId && r.byId[id].Remaining(now).Some? && r.byId[id].hash == hash
    && hash in r.byCredential && r.byCredential[hash] == id
  }

  function Attach(r: Registry, id: Id, credential: Bytes, now: nat): Registry {
    if !MayAttach(r, id, credential, now) then r
    else
      var g := r.nextGeneration;
      var s := if id in r.live then Stop(r, r.live[id]) else r;
      s.(live := r.live[id := g], sessions := r.sessions[g := Info(id, Hash(credential))],
         nextGeneration := g + 1, events := r.events + [Attached(id, g)])
  }

  /** A session's own teardown closes it, then gives up its place. */
  function CloseOwn(r: Registry, g: nat): Registry {
    r.(closed := r.closed + {g})
  }

  function Detach(r: Registry, id: Id, g: nat): Registry {
    if id in r.live && r.live[id] == g then r.(live := r.live - {id}, events := r.events + [Left(g)]) else r
  }

  /** A later record for the same id replaces an earlier one. */
  function TableOf(records: seq<Record>): map<Id, Tether> {
    if records == [] then map[]
    else
      var x := records[|records| - 1];
      TableOf(records[..|records| - 1])[x.id := Tether(x.id, x.name, x.hash, x.active, Some(x.expiresAt))]
  }

  /** Does the session of `id` survive the new table? */
  predicate Unchanged(byId: map<Id, Tether>, table: map<Id, Tether>, id: Id, now: nat) {
    && id in table && id in byId
    && table[id].Remaining(now).Some?
    && table[id].hash == byId[id].hash && table[id].expiresAt == byId[id].expiresAt
  }

  /** An index of the table by credential; when ids share one, any of them. */
  predicate Indexes(credentials: map<Hash, Id>, table: map<Id, Tether>) {
    && (forall h :: h in credentials ==> credentials[h] in table && table[credentials[h]].hash == h)
    && (forall id :: id in table ==> table[id].hash in credentials)
  }

  function Evictions(ids: seq<Id>): seq<Event> {
    if ids == [] then [] else Evictions(ids[..|ids| - 1]) + [Evicted(ids[|ids| - 1])]
  }

  function EvictAll(r: Registry, order: seq<Id>): Registry
    decreases |order|
  {
    if order == [] then r else EvictAll(Evict(r, order[0]), order[1..])
  }

  function Places(r: Registry, ids: seq<Id>): set<nat> {
    set id | id in ids && id in r.live :: r.live[id]
  }

  /** Evicting several ids, each once: which order they go in shows in the history
      only. */
  lemma {:induction false} EvictAllIs(r: Registry, order: seq<Id>)
    requires Distinct(order) && forall id :: id in order ==> id in r.live
    ensures EvictAll(r, order) == r.(
      live := map id | id in r.live && id !in order :: r.live[id],
      closed := r.closed + Places(r, order), cancelled := r.cancelled + Places(r, order),
      events := r.events + Evictions(order))
    decreases |order|
  {
    if order == [] {
      assert (map id | id in r.live && id !in order :: r.live[id]) == r.live;
      assert r.events + Evictions(order) == r.events;
    } else {
      var first, rest := order[0], order[1..];
      var t := Evict(r, first);
      EvictAllIs(t, rest);
      assert order == [first] + rest && first !in rest;
      assert (map id | id in t.live && id !in rest :: t.live[id]) ==
        map id | id in r.live && id !in order :: r.live[id];
      assert {r.live[first]} + Places(t, rest) == Places(r, order);
      assert t.closed + Places(t, rest) == r.closed + Places(r, order);
      assert t.cancelled + Places(t, rest) == r.cancelled + Places(r, order);
      EvictionsFrom(order);
      Assoc(r.events, [Evicted(first)], Evictions(rest));
    }
  }

  lemma {:induction false} EvictionsFrom(ids: seq<Id>)
    requires ids != []
    ensures Evictions(ids) == [Evicted(ids[0])] + Evictions(ids[1..])
  {
    if |ids| > 1 {
      EvictionsFrom(ids[..|ids| - 1]);
      assert ids[..|ids| - 1][1..] == ids[1..][..|ids| - 2];
    }
  }

  /** `order` is the order in which the table of live sessions was walked. */
  ghost predicate Replaced(r: Registry, records: seq<Record>, now: nat, s: Registry, order: seq<Id>) {
    var table := TableOf(records);
    && s.byId == table && Indexes(s.byCredential, table)
    && s.live == (map id | id in r.live && Unchanged(r.byId, table, id, now) :: r.live[id])
    && s.sessions == r.sessions && s.nextGeneration == r.nextGeneration
    && s.closed == r.closed + Places(r, order) && s.cancelled == r.cancelled + Places(r, order)
    && s.events == r.events + Evictions(order)
    && (forall id :: id in order <==> id in r.live && !Unchanged(r.byId, table, id, now))
  }

  /** The same hash and expiry in both tables, active, and not expired. */
  predicate Survives(byId: map<Id, Tether>, table: map<Id, Tether>, id: Id, now: nat) {
    && id in byId && id in table && Unexpired(table[id], now)
    && table[id].hash == byId[id].hash && table[id].expiresAt == byId[id].expiresAt
  }

  /** A replacement leaves exactly the sessions whose registration survives it. */
  lemma ReplacedKeeps(r: Registry, records: seq<Record>, now: nat, s: Registry, order: seq<Id>)
    requires Replaced(r, records, now, s, order)
    ensures forall id :: id in s.live <==> id in r.live && Survives(r.byId, s.byId, id, now)
  {
    forall id ensures Unchanged(r.byId, s.byId, id, now) <==> Survives(r.byId, s.byId, id, now) {
    }
  }

  predicate Distinct(order: seq<Id>) {
    forall i, j :: 0 <= i < j < |order| ==> order[i] != order[j]
  }

  /** `order` lists the ids outside `todo` whose session does not survive. */
  ghost predicate Walked(r: Registry, table: map<Id, Tether>, now: nat, todo: set<Id>, order: seq<Id>) {
    && todo <= r.live.Keys && Distinct(order)
    && forall id :: id in order <==> id in r.live && id !in todo && !Unchanged(r.byId, table, id, now)
  }

  /** Walking the whole live table, then putting the new tables in place, is a
      replacement. */
  lemma WalkedIsReplaced(r: Registry, records: seq<Record>, now: nat, order: seq<Id>, credentials: map<Hash, Id>)
    requires Walked(r, TableOf(records), now, {}, order) && Indexes(credentials, TableOf(records))
    ensures Replaced(r, records, now, EvictAll(r, order).(byCredential := credentials, byId := TableOf(records)), order)
  {
    EvictAllIs(r, order);
  }

  // ---- What every operation keeps ---------------------------------------------

  predicate CredentialsOk(credentials: map<Hash, Id>, byId: map<Id, Tether>) {
    forall h :: h in credentials ==> credentials[h] in byId && byId[credentials[h]].hash == h
  }

  predicate LiveOk(live: map<Id, nat>, sessions: map<nat, Info>, byId: map<Id, Tether>) {
    forall id :: id in live ==>
      && live[id] in sessions && sessions[live[id]].id == id
      && id in byId && byId[id].hash == sessions[live[id]].hash && byId[id].active
  }

  /** Sessions without a place are closed, and a place is held by the newest. */
  predicate SessionsOk(live: map<Id, nat>, sessions: map<nat, Info>, closed: set<nat>, next: nat) {
    && next > 0
    && (forall g :: g in sessions ==> 0 < g < next)
    && (forall g :: g in sessions && !(sessions[g].id in live && live[sessions[g].id] == g) ==> g in closed)
    && (forall g :: g in sessions && sessions[g].id in live ==> g <= live[sessions[g].id])
  }

  /** A session without a place has been told to stop, or left by itself. */
  predicate StoppedOk(live: map<Id, nat>, sessions: map<nat, Info>, cancelled: set<nat>, events: seq<Event>) {
    forall g :: g in sessions && !(sessions[g].id in live && live[sessions[g].id] == g) ==>
      g in cancelled || Left(g) in events
  }

  predicate Displaces(e: Event, id: Id, g: nat) {
    match e
    case Attached(i, _) => i == id
    case Evicted(i) => i == id
    case Left(h) => h == g
  }

  /** By the history alone: `g` was attached under `id` and nothing has displaced
      it since. */
  ghost predicate Holds(events: seq<Event>, id: Id, g: nat) {
    exists i :: 0 <= i < |events| && events[i] == Attached(id, g)
      && forall j :: i < j < |events| ==> !Displaces(events[j], id, g)
  }

  ghost predicate HistoryOk(events: seq<Event>, live: map<Id, nat>) {
    forall id, g :: Holds(events, id, g) <==> id in live && live[id] == g
  }

  ghost predicate Inv(r: Registry) {
    && CredentialsOk(r.byCredential, r.byId)
    && LiveOk(r.live, r.sessions, r.byId)
    && SessionsOk(r.live, r.sessions, r.closed, r.nextGeneration)
    && StoppedOk(r.live, r.sessions, r.cancelled, r.events)
    && HistoryOk(r.events, r.live)
  }

  lemma HoldsGrows(events: seq<Event>, e: Event, id: Id, g: nat)
    ensures Holds(events + [e], id, g) <==> e == Attached(id, g) || (Holds(events, id, g) && !Displaces(e, id, g))
  {
    var all := events + [e];
    if Holds(all, id, g) {
      var i :| 0 <= i < |all| && all[i] == Attached(id, g) && forall j :: i < j < |all| ==> !Displaces(all[j], id, g);
      if i < |events| {
        assert events[i] == Attached(id, g) && forall j :: i < j < |events| ==> !Displaces(events[j], id, g) by {
          forall j | i < j < |events| ensures !Displaces(events[j], id, g) {
            assert all[j] == events[j];
          }
        }
        assert !Displaces(all[|events|], id, g);
      }
    }
    if e == Attached(id, g) {
      assert all[|events|] == e;
    } else if Holds(events, id, g) && !Displaces(e, id, g) {
      var i :| 0 <= i < |events| && events[i] == Attached(id, g)
        && forall j :: i < j < |events| ==> !Displaces(events[j], id, g);
      assert all[i] == Attached(id, g);
    }
  }

  lemma HistoryGrows(events: seq<Event>, live: map<Id, nat>, e: Event, next: map<Id, nat>)
    requires HistoryOk(events, live)
    requires forall id, g :: (id in next && next[id] == g) <==>
      e == Attached(id, g) || (id in live && live[id] == g && !Displaces(e, id, g))
    ensures HistoryOk(events + [e], next)
  {
    forall id, g ensures Holds(events + [e], id, g) <==> id in next && next[id] == g {
      HoldsGrows(events, e, id, g);
    }
  }

  lemma EvictKeeps(r: Registry, id: Id)
    requires CredentialsOk(r.byCredential, r.byId) && SessionsOk(r.live, r.sessions, r.closed, r.nextGeneration)
    requires HistoryOk(r.events, r.live) && LiveOk(r.live - {id}, r.sessions, r.byId)
    requires StoppedOk(r.live, r.sessions, r.cancelled, r.events)
    requires id in r.live ==> r.live[id] in r.sessions && r.sessions[r.live[id]].id == id
    requires forall i, j :: i in r.live && j in r.live && r.live[i] == r.live[j] ==> i == j
    ensures Inv(Evict(r, id))
  {
    if id in r.live {
      HistoryGrows(r.events, r.live, Evicted(id), r.live - {id});
    } else {
      assert r.live - {id} == r.live;
    }
  }

  lemma LiveInjective(r: Registry)
    requires LiveOk(r.live, r.sessions, r.byId)
    ensures forall i, j :: i in r.live && j in r.live && r.live[i] == r.live[j] ==> i == j
  {
  }

  lemma RegisterKeeps(r: Registry, id: Id, name: string, credential: Bytes)
    requires Inv(r)
    ensures Inv(Register(r, id, name, credential))
  {
    LiveInjective(r);
    var hash := Hash(credential);
    var credentials :=
      if id in r.byId && r.byId[id].hash in r.byCredential && r.byCredential[r.byId[id].hash] == id
      then r.byCredential - {r.byId[id].hash} else r.byCredential;
    EvictKeeps(r.(byCredential := credentials[hash := id],
                  byId := r.byId[id := Tether(id, name, hash, true, None)]), id);
  }

  lemma RevokeKeeps(r: Registry, id: Id)
    requires Inv(r)
    ensures Inv(Revoke(r, id).0)
  {
    LiveInjective(r);
    var changed := id in r.byId && r.byId[id].active;
    EvictKeeps(if changed then r.(byId := r.byId[id := r.byId[id].(active := false)]) else r, id);
  }

  lemma AttachKeeps(r: Registry, id: Id, credential: Bytes, now: nat)
    requires Inv(r)
    ensures Inv(Attach(r, id, credential, now))
  {
    if MayAttach(r, id, credential, now) {
      var s := Attach(r, id, credential, now);
      HistoryGrows(r.events, r.live, Attached(id, r.nextGeneration), s.live);
    }
  }

  /** Teardown is the only way a session that still has its place gets closed. */
  lemma DetachKeeps(r: Registry, id: Id, g: nat)
    requires Inv(r) && g in r.sessions && r.sessions[g].id == id
    ensures Inv(CloseOwn(r, g)) && Inv(Detach(CloseOwn(r, g), id, g))
  {
    LiveInjective(r);
    var s := CloseOwn(r, g);
    if id in s.live && s.live[id] == g {
      HistoryGrows(s.events, s.live, Left(g), s.live - {id});
    }
  }

  lemma {:induction false} EvictionsHistory(events: seq<Event>, live: map<Id, nat>, order: seq<Id>)
    requires HistoryOk(events, live)
    ensures HistoryOk(events + Evictions(order), map id | id in live && id !in order :: live[id])
  {
    if order == [] {
      assert events + Evictions(order) == events;
      assert (map id | id in live && id !in order :: live[id]) == live;
    } else {
      var front, last := order[..|order| - 1], order[|order| - 1];
      var middle := map id | id in live && id !in front :: live[id];
      var final := map id | id in live && id !in order :: live[id];
      EvictionsHistory(events, live, front);
      assert forall id :: id in order <==> id in front || id == last;
      HistoryGrows(events + Evictions(front), middle, Evicted(last), final);
      assert events + Evictions(order) == events + Evictions(front) + [Evicted(last)];
    }
  }

  lemma ReplaceKeeps(r: Registry, records: seq<Record>, now: nat, s: Registry, order: seq<Id>)
    requires Inv(r) && Replaced(r, records, now, s, order)
    ensures Inv(s)
  {
    EvictionsHistory(r.events, r.live, order);
    assert s.live == map id | id in r.live && id !in order :: r.live[id];
  }

  // ---- Runs ---------------------------------------------------------------------

  datatype Op =
    | DoRegister(id: Id, name: string, credential: Bytes)
    | DoRevoke(id: Id)
    | DoAttach(id: Id, credential: Bytes, now: nat)
    | DoClose(generation: nat)
    | DoDetach(generation: nat)
    | DoReplace(records: seq<Record>, now: nat)

  /** One registry operation; `clear_records` is a replacement by nothing. Only a
      session that has closed itself detaches, under its own id. */
  ghost predicate Step(r: Registry, op: Op, s: Registry) {
    match op
    case DoRegister(id, name, credential) => s == Register(r, id, name, credential)
    case DoRevoke(id) => s == Revoke(r, id).0
    case DoAttach(id, credential, now) => s == Attach(r, id, credential, now)
    case DoClose(g) => g in r.sessions && s == CloseOwn(r, g)
    case DoDetach(g) => g in r.sessions && g in r.closed && s == Detach(r, r.sessions[g].id, g)
    case DoReplace(records, now) => exists order :: Replaced(r, records, now, s, order)
  }

  /** A run: the states it passes through, one operation apart. */
  ghost predicate Run(ops: seq<Op>, states: seq<Registry>) {
    && |states| == |ops| + 1 && states[0] == Empty()
    && forall i :: 0 <= i < |ops| ==> Step(states[i], ops[i], states[i + 1])
  }

  lemma StepKeeps(r: Registry, op: Op, s: Registry)
    requires Inv(r) && Step(r, op, s)
    ensures Inv(s)
  {
    match op
    case DoRegister(id, name, credential) => RegisterKeeps(r, id, name, credential);
    case DoRevoke(id) => RevokeKeeps(r, id);
    case DoAttach(id, credential, now) => AttachKeeps(r, id, credential, now);
    case DoClose(g) => DetachKeeps(r, r.sessions[g].id, g);
    case DoDetach(g) =>
      assert CloseOwn(r, g) == r;
      DetachKeeps(r, r.sessions[g].id, g);
    case DoReplace(records, now) =>
      var order :| Replaced(r, records, now, s, order);
      ReplaceKeeps(r, records, now, s, order);
  }

  lemma {:induction false} RunKeeps(ops: seq<Op>, states: seq<Registry>)
    requires Run(ops, states)
    ensures Inv(states[|ops|])
  {
    if ops != [] {
      var n := |ops| - 1;
      forall i | 0 <= i < n ensures Step(states[..n + 1][i], ops[..n][i], states[..n + 1][i + 1]) {
        assert Step(states[i], ops[i], states[i + 1]);
      }
      RunKeeps(ops[..n], states[..n + 1]);
      StepKeeps(states[n], ops[n], states[n + 1]);
    }
  }

  /** In every run: a credential always leads to the id whose record holds it, and
      an installed session was attached under the hash its id is registered with
      now, by a record that is still active. */
  lemma RegistryConsistent(ops: seq<Op>, states: seq<Registry>)
    requires Run(ops, states)
    ensures var r := states[|ops|];
      && (forall h :: h in r.byCredential ==> r.byCredential[h] in r.byId && r.byId[r.byCredential[h]].hash == h)
      && (forall id :: id in r.live ==>
            && r.live[id] in r.sessions && r.sessions[r.live[id]].id == id
            && id in r.byId && r.byId[id].active && r.byId[id].hash == r.sessions[r.live[id]].hash)
  {
    RunKeeps(ops, states);
  }

  /** In every run: a session holds the place of its id exactly if it was attached
      there and has neither been followed by another attachment, nor evicted, nor
      left by its own teardown; it is the newest of that id, and every session
      without a place is closed, and cancelled unless it left by itself. So a late
      detach cannot evict a successor. */
  lemma StaleCannotEvict(ops: seq<Op>, states: seq<Registry>)
    requires Run(ops, states)
    ensures var r := states[|ops|];
      && (forall id, g :: (id in r.live && r.live[id] == g) <==> Holds(r.events, id, g))
      && (forall g :: g in r.sessions && r.sessions[g].id in r.live ==> g <= r.live[r.sessions[g].id])
      && (forall g :: g in r.sessions && !(r.sessions[g].id in r.live && r.live[r.sessions[g].id] == g) ==>
            g in r.closed && (g in r.cancelled || Left(g) in r.events))
  {
    RunKeeps(ops, states);
  }

  // ---- Who is let in ----------------------------------------------------------------

  /** Whoever holds the credential of a registration that is active, has not run out
      and has not lost its place in the index may attach, and nobody else. */
  lemma MayAttachIs(r: Registry, id: Id, credential: Bytes, now: nat)
    ensures MayAttach(r, id, credential, now) <==>
      && id in r.byId && Unexpired(r.byId[id], now) && r.byId[id].hash == Hash(credential)
      && Hash(credential) in r.byCredential && r.byCredential[Hash(credential)] == id
  {
  }

  /** Authorization is for the one id whose record holds the credential, and never
      outlives it; whoever is authorized may attach now, whoever may attach with a
      second to spare is authorized, and is granted the lease or what is left. */
  lemma AuthorizedMayAttach(r: Registry, id: Id, credential: Bytes, lease: nat, now: nat)
    requires Inv(r)
    ensures (exists ttl :: Authorize(r, credential, lease, now) == Some((id, ttl))) <==>
      && MayAttach(r, id, credential, now)
      && (r.byId[id].expiresAt.Some? ==> now + NANOS <= r.byId[id].expiresAt.value * NANOS)
    ensures var grant := Authorize(r, credential, lease, now);
      grant.Some? ==>
        var (who, ttl) := grant.value;
        && who in r.byId && r.byId[who].active && r.byId[who].hash == Hash(credential) && ttl <= lease
        && ttl == Granted(r.byId[who], lease, now)
        && (r.byId[who].expiresAt.Some? ==> now + ttl <= r.byId[who].expiresAt.value * NANOS)
  {
    if MayAttach(r, id, credential, now) && r.byId[id].Remaining(now).value >= NANOS {
      var left := r.byId[id].Remaining(now).value;
      assert Authorize(r, credential, lease, now) == Some((id, if lease < left then lease else left));
    }
  }

  /** A revoked id is let in by no credential, and its session is stopped. */
  lemma RevokedIsRefused(r: Registry, id: Id, credential: Bytes, lease: nat, now: nat)
    requires Inv(r)
    ensures var s := Revoke(r, id).0;
      && !MayAttach(s, id, credential, now)
      && (Authorize(s, credential, lease, now).Some? ==> Authorize(s, credential, lease, now).value.0 != id)
      && id !in s.live && (id in r.live ==> r.live[id] in s.closed && r.live[id] in s.cancelled)
  {
  }

  /** Once an id is registered anew only its new credential lets it in. */
  lemma RotatedOut(r: Registry, id: Id, name: string, credential: Bytes, other: Bytes, lease: nat, now: nat)
    requires Inv(r)
    ensures var s := Register(r, id, name, credential);
      && MayAttach(s, id, credential, now)
      && (other != credential ==> !MayAttach(s, id, other, now))
      && (other != credential && Authorize(s, other, lease, now).Some? ==>
            Authorize(s, other, lease, now).value.0 != id)
      && id !in s.live && (id in r.live ==> r.live[id] in s.closed && r.live[id] in s.cancelled)
  {
    RegisterKeeps(r, id, name, credential);
  }

  // ---- Can a registered credential be used? -------------------------------------

  /** Every registered id is reachable by the credential in its record. */
  predicate AllUsable(r: Registry) {
    forall id :: id in r.byId ==> r.byId[id].hash in r.byCredential
  }

  /** `other` was given the credential whose index entry `id` holds. */
  predicate Depends(r: Registry, other: Id, id: Id) {
    && other in r.byId && id in r.byId && other != id
    && r.byId[other].hash == r.byId[id].hash
    && r.byId[id].hash in r.byCredential && r.byCredential[r.byId[id].hash] == id
  }

  /** Registering an id anew drops the index entry of its old credential, which
      locks out another id exactly if that id depends on the entry. */
  lemma RegisterUsable(r: Registry, id: Id, name: string, credential: Bytes)
    requires Inv(r) && AllUsable(r)
    ensures AllUsable(Register(r, id, name, credential)) <==>
      (id in r.byId && r.byId[id].hash == Hash(credential)) || !exists other :: other in r.byId && Depends(r, other, id)
  {
    var s := Register(r, id, name, credential);
    if other :| other in r.byId && Depends(r, other, id) {
      assert other in s.byId && s.byId[other].hash == r.byId[id].hash;
    }
    forall x | x in s.byId && !Depends(r, x, id) ensures s.byId[x].hash in s.byCredential {
      if x != id {
        assert x in r.byId && s.byId[x] == r.byId[x];
      }
    }
  }

  /** Two ids given one credential: rotating the one that holds the index entry
      leaves the other registered and active, but refused. */
  lemma SharedCredentialIsLost()
    ensures var r := Register(Register(Empty(), "a", "", [1]), "b", "", [1]);
      var s := Register(r, "b", "", [2]);
      "a" in s.byId && s.byId["a"].active && s.byId["a"].hash == Hash([1]) && Authorize(s, [1], NANOS, 0) == None
  {
    var a := Register(Empty(), "a", "", [1]);
    assert a.byCredential == map[Hash([1]) := "a"];
    var r := Register(a, "b", "", [1]);
    assert r.byCredential == map[Hash([1]) := "b"];
    var s := Register(r, "b", "", [2]);
    assert s.byCredential == map[Hash([2]) := "b"];
  }

  /** A snapshot leaves every credential of its table usable. */
  lemma ReplaceUsable(r: Registry, records: seq<Record>, now: nat, s: Registry, order: seq<Id>)
    requires Replaced(r, records, now, s, order)
    ensures AllUsable(s)
  {
  }
}
