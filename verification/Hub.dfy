/** The registry object: who may attach, which session serves whom, and where a
    request goes (cargo/src/hub.rs). What each operation does to the tables is
    RegistrySpec; the methods here are proved to do exactly that. */
module Hub {
  import opened Prelude
  import opened Routing
  import opened Sessions
  import Spec = RegistrySpec
  import Machine = Stream
  import Tunnel

  const TETHER_SILENCE: nat := 45 * Spec.NANOS
  const MIN_LEASE: nat := 5 * Spec.NANOS

  /** Every session is filed under its generation. */
  ghost predicate Filed(issued: map<nat, LiveSession>, sessions: map<nat, Spec.Info>, next: nat) {
    && issued.Keys == sessions.Keys
    && (forall g :: g in issued ==> g < next && issued[g].generation == g && issued[g].owner == sessions[g])
  }

  ghost predicate Places(issued: map<nat, LiveSession>, live: map<Spec.Id, LiveSession>, places: map<Spec.Id, nat>) {
    && live.Keys == places.Keys
    && (forall id :: id in live ==>
          places[id] in issued && issued[places[id]] == live[id] && live[id].owner.id == id)
  }

  /** A session is sound, closed exactly if it is known to be, and cancelled at least
      if it is known to be: a caller's guard may cancel it as well. */
  ghost predicate Agrees(s: LiveSession, closed: bool, cancelled: bool)
    reads s
  {
    s.Valid() && s.closed == closed && (cancelled ==> s.aborted)
  }

  /** Failed, with their uploads stopped. */
  ghost predicate AllFailed(states: set<StreamState>)
    reads states
  {
    forall x :: x in states ==> x.Ended(Machine.Failed)
  }

  /** The registry after the sessions of `order` have been stopped and removed. */
  ghost function Dropped(r: Spec.Registry, gone: set<Spec.Id>, order: seq<Spec.Id>): Spec.Registry {
    r.(live := r.live - gone,
       closed := r.closed + Spec.Places(r, order), cancelled := r.cancelled + Spec.Places(r, order),
       events := r.events + Spec.Evictions(order))
  }

  lemma DroppedIsEvicted(r: Spec.Registry, table: map<Spec.Id, Spec.Tether>, now: nat, gone: set<Spec.Id>,
                         order: seq<Spec.Id>)
    requires Spec.Walked(r, table, now, {}, order) && forall id :: id in order <==> id in gone
    ensures Dropped(r, gone, order) == Spec.EvictAll(r, order)
  {
    Spec.EvictAllIs(r, order);
    assert r.live - gone == map id | id in r.live && id !in order :: r.live[id];
  }

  /** The sessions that have a place under these ids, and the places. */
  lemma PlacesOf(issued: map<nat, LiveSession>, live: map<Spec.Id, LiveSession>, r: Spec.Registry,
                 order: seq<Spec.Id>, doomed: set<LiveSession>)
    requires Filed(issued, r.sessions, r.nextGeneration) && Places(issued, live, r.live)
    requires forall s :: s in doomed <==> exists id :: id in live && id in order && live[id] == s
    ensures forall g :: g in Spec.Places(r, order) <==> g in issued && issued[g] in doomed
    ensures forall s :: s in doomed ==> s.generation in issued && issued[s.generation] == s
  {
    forall g | g in issued && issued[g] in doomed ensures g in Spec.Places(r, order) {
      var id :| id in live && id in order && live[id] == issued[g];
      assert r.live[id] == g;
    }
  }

  ghost function StreamsOf(sessions: set<LiveSession>): set<StreamState>
    reads sessions
  {
    set s, i | s in sessions && i in s.streams :: s.streams[i]
  }

  ghost predicate Healthy(issued: map<nat, LiveSession>, closed: set<nat>, cancelled: set<nat>)
    reads issued.Values
  {
    && closed <= issued.Keys && cancelled <= issued.Keys
    && forall g :: g in issued ==> Agrees(issued[g], g in closed, g in cancelled)
  }

  /** The registry after `next` has taken the place of `id`. */
  ghost function Seated(was: Spec.Registry, id: Spec.Id, next: LiveSession): Spec.Registry {
    var s, g := if id in was.live then Spec.Stop(was, was.live[id]) else was, next.generation;
    s.(live := was.live[id := g], sessions := was.sessions[g := next.owner],
       nextGeneration := g + 1, events := was.events + [Spec.Attached(id, g)])
  }

  class Registry {
    var byCredential: map<Spec.Hash, Spec.Id>
    var byId: map<Spec.Id, Spec.Tether>
    var live: map<Spec.Id, LiveSession>
    var nextGeneration: nat
    const lease: nat
    /** Every session ever attached. */
    ghost var issued: map<nat, LiveSession>
    /** The registry as a value. */
    ghost var state: Spec.Registry

    /** `state` is what the fields and the sessions say. */
    ghost predicate Valid()
      reads this, issued.Values
    {
      Tables() && Healthy(issued, state.closed, state.cancelled)
    }

    /** The tables of `state` are the registry's own. */
    ghost predicate Tables()
      reads this
    {
      && state.byCredential == byCredential && state.byId == byId && state.nextGeneration == nextGeneration
      && Filed(issued, state.sessions, nextGeneration)
      && Places(issued, live, state.live)
    }

    ghost predicate Knows(session: LiveSession)
      reads this`issued
    {
      session.generation in issued && issued[session.generation] == session
    }

    /** Who loses the place of `id`. */
    function Displaced(id: Spec.Id): set<LiveSession>
      reads this`live
    {
      if id in live then {live[id]} else {}
    }

    function Victims(id: Spec.Id): set<StreamState>
      reads this`live, Displaced(id)
    {
      if id in live then live[id].streams.Values else {}
    }

    constructor (lease: nat)
      ensures Valid() && state == Spec.Empty() && issued == map[]
      ensures this.lease == if lease < MIN_LEASE then MIN_LEASE else lease
    {
      byCredential, byId, live, nextGeneration, issued, state := map[], map[], map[], 1, map[], Spec.Empty();
      this.lease := if lease < MIN_LEASE then MIN_LEASE else lease;
    }

    /** Close and cancel a session that has lost its place. */
    method Stop(session: LiveSession, ghost victims: set<StreamState>)
      requires Valid() && Knows(session) && victims == session.streams.Values
      modifies this`state, session`closed, session`aborted, session`streams
      modifies victims`completed, victims`outcome, victims`slot, victims`uploadAborted
      ensures Valid() && state == Spec.Stop(old(state), session.generation)
      ensures AllFailed(victims) && live == old(live) && issued == old(issued)
    {
      session.Stop();
      state := Spec.Stop(state, session.generation);
      forall g | g in issued ensures Agrees(issued[g], g in state.closed, g in state.cancelled) {
        assert old(Agrees(issued[g], g in state.closed, g in state.cancelled));
      }
    }

    /** Remove the session of `id` from the live table, close and cancel it. */
    method Evict(id: Spec.Id, ghost doomed: set<LiveSession>, ghost victims: set<StreamState>)
      requires Valid() && doomed == Displaced(id) && victims == Victims(id)
      modifies this`live, this`state
      modifies doomed`closed, doomed`aborted, doomed`streams
      modifies victims`completed, victims`outcome, victims`slot, victims`uploadAborted
      ensures Valid() && state == Spec.Evict(old(state), id)
      ensures live == old(live) - {id} && AllFailed(victims)
    {
      if id in live {
        var previous := live[id];
        Vacate(id, Spec.Evicted(id), {});
        Stop(previous, victims);
      } else {
        assert live - {id} == live;
      }
    }

    method Vacate(id: Spec.Id, ghost event: Spec.Event, ghost failed: set<StreamState>)
      requires Valid() && AllFailed(failed)
      modifies this`live, this`state
      ensures Valid() && AllFailed(failed) && live == old(live) - {id}
      ensures state == old(state).(live := old(state).live - {id}, events := old(state).events + [event])
    {
      live := live - {id};
      state := state.(live := state.live - {id}, events := state.events + [event]);
    }

    /** The credential is digested here and not kept. */
    method Register(id: Spec.Id, name: string, credential: Bytes)
      requires Valid()
      modifies this`byCredential, this`byId, this`live, this`state
      modifies Displaced(id)`closed, Displaced(id)`aborted, Displaced(id)`streams
      modifies Victims(id)`completed, Victims(id)`outcome, Victims(id)`slot, Victims(id)`uploadAborted
      ensures Valid() && state == Spec.Register(old(state), id, name, credential)
      ensures AllFailed(old(Victims(id)))
    {
      ghost var doomed, victims := Displaced(id), Victims(id);
      Enrol(id, Spec.Tether(id, name, Spec.Hash(credential), true, None));
      Evict(id, doomed, victims);
    }

    /** Enter a tether in both tables, forgetting the credential it had. */
    method Enrol(id: Spec.Id, tether: Spec.Tether)
      requires Valid()
      modifies this`byCredential, this`byId, this`state
      ensures Valid() && byId == old(byId)[id := tether]
      ensures state == old(state).(byCredential := byCredential, byId := byId)
      ensures byCredential == (
        if id in old(byId) && old(byId)[id].hash in old(byCredential) && old(byCredential)[old(byId)[id].hash] == id
        then old(byCredential) - {old(byId)[id].hash} else old(byCredential))[tether.hash := id]
    {
      if id in byId && byId[id].hash in byCredential && byCredential[byId[id].hash] == id {
        byCredential := byCredential - {byId[id].hash};
      }
      byCredential := byCredential[tether.hash := id];
      byId := byId[id := tether];
      state := state.(byCredential := byCredential, byId := byId);
    }

    /** Whether anything changed; a live session is evicted in any case. */
    method Revoke(id: Spec.Id) returns (changed: bool)
      requires Valid()
      modifies this`byId, this`live, this`state
      modifies Displaced(id)`closed, Displaced(id)`aborted, Displaced(id)`streams
      modifies Victims(id)`completed, Victims(id)`outcome, Victims(id)`slot, Victims(id)`uploadAborted
      ensures Valid() && (state, changed) == Spec.Revoke(old(state), id)
      ensures AllFailed(old(Victims(id)))
    {
      ghost var doomed, victims := Displaced(id), Victims(id);
      changed := id in byId && byId[id].active;
      if changed {
        byId := byId[id := byId[id].(active := false)];
        state := state.(byId := byId);
      }
      Evict(id, doomed, victims);
    }

    /** Takes only a credential: nothing else the client says matters. */
    method Authorize(credential: Bytes, now: nat) returns (grant: Option<(Spec.Id, nat)>)
      requires Valid()
      ensures grant == Spec.Authorize(state, credential, lease, now)
    {
      var hash := Spec.Hash(credential);
      if hash !in byCredential || byCredential[hash] !in byId {
        return None;
      }
      var id := byCredential[hash];
      match byId[id].Remaining(now)
      case None => return None;
      case Some(left) =>
        if left < Spec.NANOS {
          return None;
        }
        return Some((id, if lease < left then lease else left));
    }

    /** Install a new session for `id`, then close and cancel its predecessor. */
    method Attach(id: Spec.Id, credential: Bytes, now: nat, instant: nat) returns (session: LiveSession?)
      requires Valid()
      modifies this`live, this`nextGeneration, this`issued, this`state
      modifies Displaced(id)`closed, Displaced(id)`aborted, Displaced(id)`streams
      modifies Victims(id)`completed, Victims(id)`outcome, Victims(id)`slot, Victims(id)`uploadAborted
      ensures Valid() && state == Spec.Attach(old(state), id, credential, now)
      ensures session != null <==>
        && id in old(byId) && Spec.Unexpired(old(byId)[id], now) && old(byId)[id].hash == Spec.Hash(credential)
        && Spec.Hash(credential) in old(byCredential) && old(byCredential)[Spec.Hash(credential)] == id
      ensures session == null ==> issued == old(issued) && live == old(live)
      ensures session != null ==>
        && fresh(session) && issued == old(issued)[session.generation := session] && live == old(live)[id := session]
        && session.Valid() && !session.closed && !session.aborted && !session.txClosed
        && session.streams == map[] && session.commands == [] && session.permits == 0
        && session.nextId == 1 && session.lastSeen == instant
        && AllFailed(old(Victims(id)))
    {
      var hash := Spec.Hash(credential);
      if id !in byId || byId[id].Remaining(now).None? || byId[id].hash != hash
        || hash !in byCredential || byCredential[hash] != id {
        return null;
      }
      session := new LiveSession(nextGeneration, Spec.Info(id, hash), instant);
      Seat(id, session, Displaced(id), Victims(id));
    }

    /** Give `next` the place of `id` and stop its predecessor. */
    method Seat(id: Spec.Id, next: LiveSession, ghost doomed: set<LiveSession>, ghost victims: set<StreamState>)
      requires Valid() && next.generation == nextGeneration && next.owner.id == id && next.Valid() && !next.closed
      requires doomed == Displaced(id) && victims == Victims(id) && next !in doomed
      modifies this`live, this`nextGeneration, this`issued, this`state
      modifies doomed`closed, doomed`aborted, doomed`streams
      modifies victims`completed, victims`outcome, victims`slot, victims`uploadAborted
      ensures Valid() && issued == old(issued)[next.generation := next] && live == old(live)[id := next]
      ensures state == Seated(old(state), id, next)
      ensures AllFailed(victims)
    {
      if id in live {
        var previous := live[id];
        Install(id, next);
        Stop(previous, victims);
      } else {
        Install(id, next);
      }
    }

    method Install(id: Spec.Id, next: LiveSession)
      requires Valid() && next.generation == nextGeneration && next.owner.id == id && next.Valid() && !next.closed
      modifies this`live, this`nextGeneration, this`issued, this`state
      ensures Valid() && issued == old(issued)[next.generation := next] && live == old(live)[id := next]
      ensures var was, g := old(state), next.generation;
        state == was.(live := was.live[id := g], sessions := was.sessions[g := next.owner],
                      nextGeneration := g + 1, events := was.events + [Spec.Attached(id, g)])
    {
      var g := next.generation;
      state := state.(live := state.live[id := g], sessions := state.sessions[g := next.owner],
                      nextGeneration := g + 1, events := state.events + [Spec.Attached(id, g)]);
      nextGeneration := nextGeneration + 1;
      live := live[id := next];
      issued := issued[g := next];
    }

    // ---- Teardown

    /** A session whose loop has ended fails its streams and gives up its place, if
        it still has it. */
    method Leave(id: Spec.Id, session: LiveSession)
      requires Valid() && Knows(session) && session.owner.id == id
      modifies this`live, this`state, session`closed, session`streams
      modifies session.streams.Values`completed, session.streams.Values`outcome,
        session.streams.Values`slot, session.streams.Values`uploadAborted
      ensures Valid()
      ensures AllFailed(old(session.streams.Values))
      ensures state == Spec.Detach(Spec.CloseOwn(old(state), session.generation), id, session.generation)
      ensures live == if id in old(live) && old(live)[id] == session then old(live) - {id} else old(live)
    {
      ghost var victims := session.streams.Values;
      CloseOwn(session, victims);
      Detach(id, session, victims);
    }

    method CloseOwn(session: LiveSession, ghost victims: set<StreamState>)
      requires Valid() && Knows(session) && victims == session.streams.Values
      modifies this`state, session`closed, session`streams
      modifies victims`completed, victims`outcome, victims`slot, victims`uploadAborted
      ensures Valid() && state == Spec.CloseOwn(old(state), session.generation)
      ensures AllFailed(victims) && live == old(live)
    {
      session.Close();
      state := Spec.CloseOwn(state, session.generation);
      forall g | g in issued ensures Agrees(issued[g], g in state.closed, g in state.cancelled) {
        assert old(Agrees(issued[g], g in state.closed, g in state.cancelled));
      }
    }

    /** Generations are compared, so a successor keeps its place. */
    method Detach(id: Spec.Id, session: LiveSession, ghost failed: set<StreamState>)
      requires Valid() && Knows(session) && AllFailed(failed)
      modifies this`live, this`state
      ensures Valid() && AllFailed(failed) && state == Spec.Detach(old(state), id, session.generation)
      ensures live == if id in old(live) && old(live)[id] == session then old(live) - {id} else old(live)
    {
      if id in live && live[id].generation == session.generation {
        Vacate(id, Spec.Left(session.generation), failed);
      }
    }

    // ---- Snapshots

    /** The ids whose session does not survive the new table, in the order in which
        the live table is walked. */
    method Losers(table: map<Spec.Id, Spec.Tether>, now: nat) returns (ids: seq<Spec.Id>)
      requires Valid()
      ensures Spec.Walked(state, table, now, {}, ids)
    {
      ids := [];
      var todo := live.Keys;
      while todo != {}
        invariant Spec.Walked(state, table, now, todo, ids)
      {
        var id :| id in todo;
        if !Spec.Unchanged(byId, table, id, now) {
          ids := ids + [id];
        }
        todo := todo - {id};
      }
    }

    /** Close and cancel several sessions and fail their streams. */
    method StopDoomed(doomed: set<LiveSession>, ghost places: set<nat>, ghost states: set<StreamState>)
      requires Valid() && states == StreamsOf(doomed)
      requires forall s :: s in doomed ==> Knows(s)
      requires forall g :: g in places <==> g in issued && issued[g] in doomed
      modifies this`state, doomed`closed, doomed`aborted, doomed`streams
      modifies states`completed, states`outcome, states`slot, states`uploadAborted
      ensures Valid() && AllFailed(states) && live == old(live) && issued == old(issued)
      ensures state == old(state).(closed := old(state).closed + places, cancelled := old(state).cancelled + places)
    {
      StopAll(doomed, states);
      state := state.(closed := state.closed + places, cancelled := state.cancelled + places);
      forall g | g in issued ensures Agrees(issued[g], g in state.closed, g in state.cancelled) {
        assert old(Agrees(issued[g], g in state.closed, g in state.cancelled));
      }
    }

    /** Take these ids out of the live table; streams that have failed stay failed. */
    method Remove(gone: set<Spec.Id>, ghost order: seq<Spec.Id>, ghost failed: set<StreamState>)
      requires Valid() && AllFailed(failed)
      modifies this`live, this`state
      ensures Valid() && AllFailed(failed) && live == old(live) - gone
      ensures state == old(state).(live := old(state).live - gone, events := old(state).events + Spec.Evictions(order))
    {
      live := live - gone;
      state := state.(live := state.live - gone, events := state.events + Spec.Evictions(order));
    }

    /** Stop the sessions that have a place under the ids of `order`. */
    method StopLosers(ghost order: seq<Spec.Id>, doomed: set<LiveSession>, ghost states: set<StreamState>)
      requires Valid() && states == StreamsOf(doomed)
      requires forall s :: s in doomed <==> exists id :: id in live && id in order && live[id] == s
      modifies this`state, doomed`closed, doomed`aborted, doomed`streams
      modifies states`completed, states`outcome, states`slot, states`uploadAborted
      ensures Valid() && AllFailed(states) && live == old(live)
      ensures var places := Spec.Places(old(state), order);
        state == old(state).(closed := old(state).closed + places, cancelled := old(state).cancelled + places)
    {
      PlacesOf(issued, live, state, order, doomed);
      StopDoomed(doomed, Spec.Places(state, order), states);
    }

    /** Stop the sessions of the ids `gone` and take them out of the live table. */
    method Drop(gone: set<Spec.Id>, ghost order: seq<Spec.Id>, doomed: set<LiveSession>, ghost states: set<StreamState>)
      requires Valid() && (forall id :: id in order <==> id in gone) && gone <= live.Keys
      requires doomed == (set id | id in gone :: live[id]) && states == StreamsOf(doomed)
      modifies this`live, this`state
      modifies doomed`closed, doomed`aborted, doomed`streams
      modifies states`completed, states`outcome, states`slot, states`uploadAborted
      ensures Valid() && AllFailed(states) && live == old(live) - gone
      ensures state == Dropped(old(state), gone, order)
    {
      StopLosers(order, doomed, states);
      Remove(gone, order, states);
    }

    /** Stop and remove the sessions that do not survive. */
    method Retain(table: map<Spec.Id, Spec.Tether>, now: nat, ghost order: seq<Spec.Id>,
                  doomed: set<LiveSession>, ghost states: set<StreamState>)
      requires Valid() && Spec.Walked(state, table, now, {}, order)
      requires doomed == Doomed(table, now) && states == StreamsOf(doomed)
      modifies this`live, this`state
      modifies doomed`closed, doomed`aborted, doomed`streams
      modifies states`completed, states`outcome, states`slot, states`uploadAborted
      ensures Valid() && state == Spec.EvictAll(old(state), order) && AllFailed(states)
      ensures live.Items <= old(live).Items
    {
      var gone := set id | id in live && !Spec.Unchanged(byId, table, id, now);
      DroppedIsEvicted(state, table, now, gone, order);
      Drop(gone, order, doomed, states);
    }

    /** Apply a snapshot: keep the sessions whose tether is unchanged and still
        usable, stop all others and fail their streams. */
    method ReplaceRecords(records: seq<Spec.Record>, now: nat)
      requires Valid()
      modifies this`byCredential, this`byId, this`live, this`state
      modifies Doomed(Spec.TableOf(records), now)`closed, Doomed(Spec.TableOf(records), now)`aborted,
        Doomed(Spec.TableOf(records), now)`streams
      modifies DoomedStreams(records, now)`completed, DoomedStreams(records, now)`outcome,
        DoomedStreams(records, now)`slot, DoomedStreams(records, now)`uploadAborted
      ensures Valid()
      ensures exists order :: Spec.Replaced(old(state), records, now, state, order)
      ensures live.Items <= old(live).Items
      ensures forall id :: id in live <==> id in old(live) && Spec.Survives(old(byId), byId, id, now)
      ensures AllFailed(old(DoomedStreams(records, now)))
    {
      var table := TableFrom(records);
      ghost var order := Apply(table, now, Doomed(table, now), DoomedStreams(records, now));
      Spec.WalkedIsReplaced(old(state), records, now, order, byCredential);
      Spec.ReplacedKeeps(old(state), records, now, state, order);
      assert live.Keys == state.live.Keys && old(live).Keys == old(state).live.Keys;
    }

    /** Stop who does not survive the table, then put it in force. */
    method Apply(table: map<Spec.Id, Spec.Tether>, now: nat, doomed: set<LiveSession>, ghost states: set<StreamState>)
      returns (ghost order: seq<Spec.Id>)
      requires Valid() && doomed == Doomed(table, now) && states == StreamsOf(doomed)
      modifies this`byCredential, this`byId, this`live, this`state
      modifies doomed`closed, doomed`aborted, doomed`streams
      modifies states`completed, states`outcome, states`slot, states`uploadAborted
      ensures Valid() && AllFailed(states) && live.Items <= old(live).Items
      ensures Spec.Walked(old(state), table, now, {}, order) && Spec.Indexes(byCredential, table)
      ensures state == Spec.EvictAll(old(state), order).(byCredential := byCredential, byId := table)
    {
      order := Losers(table, now);
      Retain(table, now, order, doomed, states);
      var credentials := IndexOf(table);
      Adopt(credentials, table, states);
    }

    /** The streams of the sessions a snapshot stops. */
    ghost function DoomedStreams(records: seq<Spec.Record>, now: nat): set<StreamState>
      reads this`live, this`byId, live.Values
    {
      StreamsOf(Doomed(Spec.TableOf(records), now))
    }

    method Adopt(credentials: map<Spec.Hash, Spec.Id>, table: map<Spec.Id, Spec.Tether>, ghost failed: set<StreamState>)
      requires Valid() && AllFailed(failed)
      modifies this`byCredential, this`byId, this`state
      ensures Valid() && AllFailed(failed) && byCredential == credentials
      ensures state == old(state).(byCredential := credentials, byId := table)
    {
      byCredential, byId := credentials, table;
      state := state.(byCredential := credentials, byId := table);
    }

    /** The sessions a new table stops. */
    function Doomed(table: map<Spec.Id, Spec.Tether>, now: nat): set<LiveSession>
      reads this`live, this`byId
    {
      set id | id in live && !Spec.Unchanged(byId, table, id, now) :: live[id]
    }

    /** Without a trustworthy snapshot nobody is authorized and nothing is live. */
    method ClearRecords(now: nat)
      requires Valid()
      modifies this`byCredential, this`byId, this`live, this`state
      modifies Doomed(Spec.TableOf([]), now)`closed, Doomed(Spec.TableOf([]), now)`aborted,
        Doomed(Spec.TableOf([]), now)`streams
      modifies DoomedStreams([], now)`completed, DoomedStreams([], now)`outcome,
        DoomedStreams([], now)`slot, DoomedStreams([], now)`uploadAborted
      ensures Valid() && byId == map[] && byCredential == map[] && live == map[]
      ensures exists order :: Spec.Replaced(old(state), [], now, state, order)
      ensures AllFailed(old(DoomedStreams([], now))) && old(DoomedStreams([], now) == StreamsOf(live.Values))
    {
      assert Doomed(Spec.TableOf([]), now) == live.Values;
      ReplaceRecords([], now);
    }

    // ---- Routing

    predicate Eligible(id: Spec.Id, now: nat, instant: nat)
      reads this`live, this`byId, Displaced(id)
    {
      && id in live && id in byId && byId[id].Remaining(now).Some?
      && !live[id].closed && !live[id].txClosed
      && instant <= live[id].lastSeen + TETHER_SILENCE
    }

    /** The session of `id` as the router sees it; `lost` are the ids whose session
        loses its writer while the router is at work. */
    function CandidateOf(id: Spec.Id, lost: set<Spec.Id>): Candidate
      requires id in live
      reads this`live, Displaced(id)
    {
      var s := live[id];
      Candidate(|s.streams|, id, |s.streams| < Tunnel.MAX_CONCURRENT_STREAMS && s.nextId <= Tunnel.MAX_ID,
                if id in lost then Lost else if s.Room() then HasRoom else Full)
    }

    /** One candidate for each eligible session, and no other. */
    predicate Collected(cs: seq<Candidate>, now: nat, instant: nat, lost: set<Spec.Id>)
      reads this`live, this`byId, live.Values
    {
      && (forall c :: c in cs ==> Eligible(c.id, now, instant) && c == CandidateOf(c.id, lost))
      && (forall id :: id in live && Eligible(id, now, instant) ==> CandidateOf(id, lost) in cs)
    }

    method Candidates(now: nat, instant: nat, lost: set<Spec.Id>) returns (cs: seq<Candidate>)
      ensures forall i, j :: 0 <= i < j < |cs| ==> cs[i].id != cs[j].id
      ensures Collected(cs, now, instant, lost)
    {
      cs := [];
      var todo := live.Keys;
      while todo != {}
        invariant todo <= live.Keys
        invariant forall i, j :: 0 <= i < j < |cs| ==> cs[i].id != cs[j].id
        invariant forall c :: c in cs ==> c.id !in todo && Eligible(c.id, now, instant) && c == CandidateOf(c.id, lost)
        invariant forall id :: id in live && Eligible(id, now, instant) ==> id in todo || CandidateOf(id, lost) in cs
      {
        var id :| id in todo;
        todo := todo - {id};
        if Eligible(id, now, instant) {
          cs := cs + [CandidateOf(id, lost)];
        }
      }
    }

    /** Connected, registered, not expired, and heard of within the last 45 seconds. */
    predicate Connected(id: Spec.Id, now: nat, instant: nat)
      reads this`live, this`byId, Displaced(id)
    {
      && id in live && id in byId && Spec.Unexpired(byId[id], now)
      && !live[id].closed && !live[id].txClosed
      && instant <= live[id].lastSeen + 45_000_000_000
    }

    /** A connected session with a free stream and number, whose command queue takes
        the reservation. */
    predicate CanServe(id: Spec.Id, now: nat, instant: nat, lost: set<Spec.Id>)
      reads this`live, this`byId, Displaced(id)
    {
      && Connected(id, now, instant) && id !in lost
      && |live[id].streams| < 64 && live[id].nextId <= 65535 && |live[id].commands| + live[id].permits < 256
    }

    /** `id` can serve, and has fewer streams than any other that can, or as many
        and the smaller name. */
    predicate IsBest(id: Spec.Id, now: nat, instant: nat, lost: set<Spec.Id>)
      reads this`live, this`byId, live.Values
    {
      && CanServe(id, now, instant, lost)
      && forall other :: other in live && CanServe(other, now, instant, lost) && other != id ==>
           || |live[id].streams| < |live[other].streams|
           || (|live[id].streams| == |live[other].streams| && Precedes(id, other))
    }

    /** Somebody is connected, but has no capacity. */
    predicate SomeBusy(now: nat, instant: nat, lost: set<Spec.Id>)
      reads this`live, this`byId, live.Values
    {
      exists id :: id in live && Connected(id, now, instant) && Overloaded(id, lost)
    }

    predicate Overloaded(id: Spec.Id, lost: set<Spec.Id>)
      requires id in live
      reads this`live, Displaced(id)
    {
      || |live[id].streams| >= 64 || live[id].nextId > 65535
      || (id !in lost && |live[id].commands| + live[id].permits >= 256)
    }

    /** The best session if any can serve; otherwise busy exactly if somebody is. */
    predicate RightRoute(host: Spec.Id, served: bool, busy: bool, now: nat, instant: nat, lost: set<Spec.Id>)
      reads this`live, this`byId, live.Values
    {
      if served then IsBest(host, now, instant, lost)
      else (forall id :: id in live ==> !CanServe(id, now, instant, lost)) && busy == SomeBusy(now, instant, lost)
    }

    /** What a candidate says of its session. */
    lemma CandidateIs(id: Spec.Id, now: nat, instant: nat, lost: set<Spec.Id>)
      requires id in live
      ensures Eligible(id, now, instant) <==> Connected(id, now, instant)
      ensures Connected(id, now, instant) ==> (Usable(CandidateOf(id, lost)) <==> CanServe(id, now, instant, lost))
      ensures Saturated(CandidateOf(id, lost)) <==> Overloaded(id, lost)
    {
    }

    lemma ChosenIsBest(cs: seq<Candidate>, c: Candidate, now: nat, instant: nat, lost: set<Spec.Id>)
      requires Collected(cs, now, instant, lost) && c in cs && Usable(c)
      requires forall d :: d in cs && Usable(d) && d != c ==>
        c.load < d.load || (c.load == d.load && Precedes(c.id, d.id))
      ensures IsBest(c.id, now, instant, lost)
    {
      CandidateIs(c.id, now, instant, lost);
      forall other | other in live && CanServe(other, now, instant, lost) && other != c.id
        ensures |live[c.id].streams| < |live[other].streams|
          || (|live[c.id].streams| == |live[other].streams| && Precedes(c.id, other))
      {
        CandidateIs(other, now, instant, lost);
        assert CandidateOf(other, lost) in cs;
      }
    }

    lemma NobodyServes(cs: seq<Candidate>, now: nat, instant: nat, lost: set<Spec.Id>)
      requires Collected(cs, now, instant, lost) && forall c :: c in cs ==> !Usable(c)
      ensures forall id :: id in live ==> !CanServe(id, now, instant, lost)
      ensures SomeBusy(now, instant, lost) <==> exists c :: c in cs && Saturated(c)
      ensures (forall c :: c in cs ==> c.queue == Lost) && lost == {} ==>
        forall id :: id in live ==> !Connected(id, now, instant)
      ensures cs == [] ==> forall id :: id in live ==> !Connected(id, now, instant)
    {
      forall id | id in live
        ensures !CanServe(id, now, instant, lost)
        ensures Connected(id, now, instant) ==> CandidateOf(id, lost) in cs
        ensures Saturated(CandidateOf(id, lost)) <==> Overloaded(id, lost)
      {
        CandidateIs(id, now, instant, lost);
      }
      if c :| c in cs && Saturated(c) {
        CandidateIs(c.id, now, instant, lost);
      }
    }

    /** `reserve_route`, up to the reservation itself. */
    method ChooseRoute(now: nat, instant: nat, lost: set<Spec.Id>) returns (r: Result<Spec.Id>)
      ensures RightRoute(if r.Ok? then r.value else "", r.Ok?, r == Err(TetherBusy), now, instant, lost)
      ensures r.Ok? || r == Err(TetherBusy) || r == Err(NoTether)
      ensures lost == {} ==> (r == Err(NoTether) <==> forall id :: id in live ==> !Connected(id, now, instant))
    {
      var cs := Candidates(now, instant, lost);
      var route := Select(cs);
      match route
      case Chosen(c) =>
        ChosenIsBest(cs, c, now, instant, lost);
        return Ok(c.id);
      case AllBusy =>
        NobodyServes(cs, now, instant, lost);
        return Err(TetherBusy);
      case Nobody =>
        NobodyServes(cs, now, instant, lost);
        return Err(NoTether);
    }

    /** Choosing changes nothing. */
    method PickRoute(now: nat, instant: nat, lost: set<Spec.Id>) returns (r: Result<Spec.Id>)
      ensures old(RightRoute(if r.Ok? then r.value else "", r.Ok?, r == Err(TetherBusy), now, instant, lost))
      ensures r.Ok? ==> r.value in live
      ensures r.Ok? || r == Err(TetherBusy) || r == Err(NoTether)
    {
      r := ChooseRoute(now, instant, lost);
    }

    /** Start a stream on one of the sessions. */
    method ServeOn(session: LiveSession, head: Bytes) returns (r: Result<Forwarded>)
      requires Valid() && session.generation in issued && issued[session.generation] == session
      modifies session`nextId, session`streams, session`commands, session`permits
      ensures Valid() && session.permits == old(session.permits) && live == old(live)
      ensures forall s :: s in live.Values && s != session ==> unchanged(s)
      ensures old(ServeRefusal(session)) == if r.Ok? then None else Some(r.error)
      ensures r.Err? ==> session.streams == old(session.streams) && session.commands == old(session.commands)
      ensures r.Ok? ==> fresh(r.value.state) && fresh(r.value.guard)
      ensures r.Ok? ==>
        Started(old(session.streams), old(session.commands), old(session.nextId), head, session, r.value)
    {
      assert Agrees(session, session.generation in state.closed, session.generation in state.cancelled);
      r := Serve(session, head);
      forall g | g in issued ensures Agrees(issued[g], g in state.closed, g in state.cancelled) {
        assert old(Agrees(issued[g], g in state.closed, g in state.cancelled));
      }
    }

    /** Choose a session and start the stream there, all under the routing lock: once
        a session is chosen nothing can refuse. */
    method ForwardAny(head: Bytes, now: nat, instant: nat, lost: set<Spec.Id>)
      returns (r: Result<Forwarded>, ghost host: Spec.Id)
      requires Valid()
      modifies live.Values`nextId, live.Values`streams, live.Values`commands, live.Values`permits
      ensures Valid() && (r.Ok? ==> host in live)
      ensures forall s :: s in live.Values && (r.Err? || s != live[host]) ==> unchanged(s)
      ensures r.Ok? || r == Err(TetherBusy) || r == Err(NoTether)
      ensures var ok, busy := r.Ok?, r == Err(TetherBusy); old(RightRoute(host, ok, busy, now, instant, lost))
      ensures r.Ok? ==>
        Started(old(live[host].streams), old(live[host].commands), old(live[host].nextId), head, live[host], r.value)
    {
      var route := PickRoute(now, instant, lost);
      if route.Err? {
        return Err(route.error), "";
      }
      host := route.value;
      var session := live[route.value];
      r := ServeOn(session, head);
      assert live[host] == session;
    }

    /** Why a request for a named tether is refused. */
    function ForwardRefusal(id: Spec.Id, now: nat): Option<ForwardError>
      reads this`live, this`byId, Displaced(id)
    {
      if id !in live then Some(NoTether)
      else if id !in byId || !Spec.Unexpired(byId[id], now) then Some(Revoked)
      else ServeRefusal(live[id])
    }

    /** Forward to a named tether; a refusal changes no stream and queues nothing. */
    method Forward(id: Spec.Id, head: Bytes, now: nat) returns (r: Result<Forwarded>)
      requires Valid()
      modifies Displaced(id)`nextId, Displaced(id)`streams, Displaced(id)`commands, Displaced(id)`permits
      ensures Valid()
      ensures old(ForwardRefusal(id, now)) == if r.Ok? then None else Some(r.error)
      ensures r.Err? && id in live ==>
        && live[id].streams == old(live[id].streams) && live[id].commands == old(live[id].commands)
        && live[id].permits == old(live[id].permits)
      ensures r.Ok? ==>
        Started(old(live[id].streams), old(live[id].commands), old(live[id].nextId), head, live[id], r.value)
    {
      if id !in live {
        return Err(NoTether);
      }
      if id !in byId || byId[id].Remaining(now).None? {
        return Err(Revoked);
      }
      r := ServeOn(live[id], head);
    }
  }

  /** The streams of the survivors of a snapshot are none of those it fails. */
  lemma SurvivorsApart(r: Registry, records: seq<Spec.Record>, now: nat)
    requires r.Valid()
    ensures forall id :: id in r.live && Spec.Unchanged(r.byId, Spec.TableOf(records), id, now) ==>
      r.live[id].streams.Values !! r.DoomedStreams(records, now)
  {
    assert forall g, i :: g in r.issued && i in r.issued[g].streams ==> r.issued[g].streams[i].session == g by {
      assert forall g :: g in r.issued ==> Agrees(r.issued[g], g in r.state.closed, g in r.state.cancelled);
    }
  }

  method TableFrom(records: seq<Spec.Record>) returns (table: map<Spec.Id, Spec.Tether>)
    ensures table == Spec.TableOf(records)
  {
    table := map[];
    for i := 0 to |records|
      invariant table == Spec.TableOf(records[..i])
    {
      var x := records[i];
      table := table[x.id := Spec.Tether(x.id, x.name, x.hash, x.active, Some(x.expiresAt))];
      assert records[..i + 1][..i] == records[..i];
    }
    assert records[..|records|] == records;
  }

  method IndexOf(table: map<Spec.Id, Spec.Tether>) returns (credentials: map<Spec.Hash, Spec.Id>)
    ensures Spec.Indexes(credentials, table)
  {
    credentials := map[];
    var todo := table.Keys;
    while todo != {}
      invariant todo <= table.Keys
      invariant forall h :: h in credentials ==> credentials[h] in table && table[credentials[h]].hash == h
      invariant forall id :: id in table.Keys - todo ==> table[id].hash in credentials
    {
      var id :| id in todo;
      credentials := credentials[table[id].hash := id];
      todo := todo - {id};
    }
  }
}
