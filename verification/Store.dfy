/** The durable store at work: transactions that may fail or be cut short at any
    point, and credential files delivered before their digest is committed
    (cargo/src/admin.rs). What a committed transaction means is StoreSpec. */
module Store {
  import opened Prelude
  import opened RegistrySpec
  import Spec = StoreSpec
  import opened Routing

  const NEWLINE: byte := 10

  type Path = string

  /** `synced`: the content and the directory entry would survive a crash. */
  datatype File = File(content: Bytes, synced: bool)

  /** What is on disk at one moment. */
  datatype Disk = Disk(db: Spec.Db, files: map<Path, File>)

  /** Where an operation can fail, in the order in which it gets there. */
  datatype Point =
    | CheckFiles | Begin | Schema | Random | Count | Mutate | Audit
    | OpenParent | Create | Permissions | Write | Sync | SyncParent | Commit

  datatype Result<T> = Ok(value: T) | Err

  /** Registrations are only counted to register one more. */
  predicate FailsPlanning(fail: Option<Point>, name: Option<string>) {
    fail.Some? &&
      (fail.value in {CheckFiles, Begin, Schema, Random, Mutate, Audit} || (fail.value == Count && name.Some?))
  }

  predicate FailsDelivery(fail: Option<Point>) {
    fail.Some? && fail.value in {OpenParent, Create, Permissions, Write, Sync, SyncParent}
  }

  /** An event is only written for a registration that changes. */
  predicate FailsRevoking(fail: Option<Point>, changes: bool) {
    fail.Some? && (fail.value in {CheckFiles, Begin, Schema, Mutate, Commit} || (fail.value == Audit && changes))
  }

  /** A crash keeps what was synchronized and the database as last committed; all
      else is anyone's guess. */
  ghost predicate Survives(before: Disk, after: Disk) {
    && after.db == before.db
    && forall p :: p in before.files && before.files[p].synced ==> p in after.files && after.files[p] == before.files[p]
  }

  /** Every moment of an issuance: files other than the output are untouched, an
      output that existed too, and the new database is only there when the file
      with the credential is synchronized. */
  predicate Sound(d: Disk, before: Disk, db: Spec.Db, output: Path, credential: Bytes) {
    && d.files - {output} == before.files - {output}
    && (output in before.files ==> d == before)
    && (d.db == before.db || (d.db == db && output in d.files && d.files[output] == File(credential + [0x0A], true)))
  }

  /** Whenever an issuance is cut short, a digest that was committed belongs to a
      credential that can be read from its file. */
  lemma CrashSafe(d: Disk, before: Disk, m: Spec.Mutation, output: Path, after: Disk)
    requires Spec.Possible(before.db, m) && !m.Revoke?
    requires Sound(d, before, Spec.Committed(before.db, m), output, m.credential) && Survives(d, after)
    ensures after.db == before.db || (after.db == Spec.Committed(before.db, m) &&
      after.db.registrations[m.id].hash == Hash(m.credential) &&
      output in after.files && after.files[output].content == m.credential + [NEWLINE])
    ensures forall p :: p in before.files && before.files[p].synced ==>
      p in after.files && after.files[p] == before.files[p]
  {
    forall p | p in before.files && before.files[p].synced
      ensures p in after.files && after.files[p] == before.files[p]
    {
      if p != output {
        assert p in before.files - {output};
        assert (before.files - {output})[p] == before.files[p] && (d.files - {output})[p] == d.files[p];
      }
    }
  }

  /** What `issue` would commit: a registration when it is given a label, else a
      rotation. */
  function Issuance(id: Id, name: Option<string>, credential: Bytes, expiry: nat, stamp: Spec.Stamp): Spec.Mutation {
    if name.Some? then Spec.Register(id, name.value, credential, expiry, stamp)
    else Spec.Rotate(id, credential, expiry, stamp)
  }

  /** The row of `id` is active with this digest and expiry, no other row is touched, and
      the log has one more event that says so. */
  predicate Issued(before: Spec.Db, after: Spec.Db, action: Spec.Action, id: Id, name: string, credential: Bytes,
                   expiry: nat, stamp: Spec.Stamp)
  {
    && after.registrations == before.registrations[id := Spec.Row(name, Hash(credential), true, expiry)]
    && Spec.Logged(before, after, stamp, action, id, Some(expiry))
  }

  /** A registration under the label given, or a rotation of the row there is. */
  predicate IssuedAs(before: Spec.Db, after: Spec.Db, id: Id, name: Option<string>, credential: Bytes, expiry: nat,
                     stamp: Spec.Stamp)
  {
    && (name.Some? ==> Issued(before, after, Spec.Registered, id, name.value, credential, expiry, stamp))
    && (name.None? ==>
          && id in before.registrations
          && Issued(before, after, Spec.Rotated, id, before.registrations[id].name, credential, expiry, stamp))
  }

  lemma IssuanceIs(db: Spec.Db, id: Id, name: Option<string>, credential: Bytes, expiry: nat, stamp: Spec.Stamp)
    requires Spec.Inv(db) && Spec.Possible(db, Issuance(id, name, credential, expiry, stamp))
    ensures var after := Spec.Committed(db, Issuance(id, name, credential, expiry, stamp));
      Spec.Inv(after) && IssuedAs(db, after, id, name, credential, expiry, stamp)
  {
    Spec.CommittedKeeps(db, Issuance(id, name, credential, expiry, stamp));
    Spec.CommittedIs(db, Issuance(id, name, credential, expiry, stamp));
  }

  /** The transaction gets to the delivery of the credential. */
  predicate Plannable(db: Spec.Db, id: Id, name: Option<string>, ttl: nat, now: Option<nat>, fail: Option<Point>) {
    && Spec.ValidId(id) && 60 <= ttl <= 86400
    && now.Some? && now.value + ttl <= 0x7FFF_FFFF_FFFF_FFFF
    && (if name.Some? then
          Spec.ValidLabel(name.value) && |db.registrations| < 10_000 && id !in db.registrations
        else id in db.registrations)
    && !FailsPlanning(fail, name)
  }

  /** And there the output file is created. */
  predicate Creates(before: Disk, id: Id, name: Option<string>, ttl: nat, output: Path, now: Option<nat>,
                    fail: Option<Point>) {
    && Plannable(before.db, id, name, ttl, now, fail)
    && output !in before.files && fail != Some(OpenParent) && fail != Some(Create)
  }

  /** Exactly when `issue` succeeds. */
  predicate Issuable(before: Disk, id: Id, name: Option<string>, ttl: nat, output: Path, now: Option<nat>,
                     fail: Option<Point>) {
    && Plannable(before.db, id, name, ttl, now, fail)
    && output !in before.files && !FailsDelivery(fail) && fail != Some(Commit)
  }

  class Store {
    var db: Spec.Db
    var files: map<Path, File>
    /** Everything that was ever on disk, one entry for each durable change. */
    ghost var past: seq<Disk>

    constructor (stamp: Spec.Stamp, files: map<Path, File>)
      ensures Valid() && db == Spec.Initial(stamp) && this.files == files
    {
      this.db, this.files, past := Spec.Initial(stamp), files, [];
      Spec.InitialInv(stamp);
    }

    ghost predicate Valid()
      reads this
    {
      Spec.Inv(db)
    }

    function Now(): Disk
      reads this
    {
      Disk(db, files)
    }

    // ---- Issuing credentials

    /** `register`. */
    method Register(id: Id, name: string, ttl: nat, output: Path, now: Option<nat>, stamp: Spec.Stamp,
                    credential: Bytes, fail: Option<Point>, removable: bool) returns (r: Result<()>)
      requires Valid()
      modifies this
      ensures Valid()
      ensures r.Ok? <==> Issuable(old(Now()), id, Some(name), ttl, output, now, fail)
      ensures IssuedOrNot(r, old(Now()), old(past), id, Some(name), ttl, output, now, stamp,
                          credential, fail, removable)
      ensures r.Ok? ==> now.Some? && Issued(old(db), db, Spec.Registered, id, name, credential, now.value + ttl, stamp)
    {
      if !Spec.ValidLabel(name) {
        return Err;
      }
      r := Issue(id, Some(name), ttl, output, now, stamp, credential, fail, removable);
    }

    /** `rotate`. */
    method Rotate(id: Id, ttl: nat, output: Path, now: Option<nat>, stamp: Spec.Stamp,
                  credential: Bytes, fail: Option<Point>, removable: bool) returns (r: Result<()>)
      requires Valid()
      modifies this
      ensures Valid()
      ensures r.Ok? <==> Issuable(old(Now()), id, None, ttl, output, now, fail)
      ensures IssuedOrNot(r, old(Now()), old(past), id, None, ttl, output, now, stamp, credential, fail, removable)
      ensures r.Ok? ==>
        && now.Some? && id in old(db).registrations
        && Issued(old(db), db, Spec.Rotated, id, old(db).registrations[id].name, credential, now.value + ttl, stamp)
    {
      r := Issue(id, None, ttl, output, now, stamp, credential, fail, removable);
    }

    /** What the outcome of an issuance must be: on success the one mutation and the
        synchronized file; on failure the same database, and the same files exactly
        if no output was created or it could be removed again; and on the way only
        sound states. */
    ghost predicate IssuedOrNot(r: Result<()>, before: Disk, past0: seq<Disk>, id: Id, name: Option<string>, ttl: nat,
                                output: Path, now: Option<nat>, stamp: Spec.Stamp, credential: Bytes,
                                fail: Option<Point>, removable: bool)
      reads this
    {
      && (r.Ok? ==>
            && now.Some?
            && var m := Issuance(id, name, credential, now.value + ttl, stamp);
               && Spec.Possible(before.db, m)
               && db == Spec.Committed(before.db, m)
               && output !in before.files && files == before.files[output := File(credential + [NEWLINE], true)])
      && (r.Err? ==>
            && db == before.db
            && files - {output} == before.files - {output}
            && (files == before.files <==> removable || !Creates(before, id, name, ttl, output, now, fail)))
      && past0 <= past
      && (past != past0 ==>
            && now.Some?
            && var m := Issuance(id, name, credential, now.value + ttl, stamp);
            && Spec.Possible(before.db, m)
            && forall i :: |past0| <= i < |past| ==>
                 Sound(past[i], before, Spec.Committed(before.db, m), output, credential))
    }

    method Issue(id: Id, name: Option<string>, ttl: nat, output: Path, now: Option<nat>, stamp: Spec.Stamp,
                 credential: Bytes, fail: Option<Point>, removable: bool) returns (r: Result<()>)
      requires Valid() && (name.Some? ==> Spec.ValidLabel(name.value))
      modifies this
      ensures Valid()
      ensures r.Ok? <==> Issuable(old(Now()), id, name, ttl, output, now, fail)
      ensures IssuedOrNot(r, old(Now()), old(past), id, name, ttl, output, now, stamp, credential, fail, removable)
      ensures r.Ok? ==> now.Some? && IssuedAs(old(db), db, id, name, credential, now.value + ttl, stamp)
    {
      var planned := Plan(id, name, ttl, now, stamp, credential, fail);
      if planned.Err? {
        return Err;
      }
      IssuanceIs(db, id, name, credential, now.value + ttl, stamp);
      r := DeliverAndCommit(output, credential, fail, removable, planned.value);
    }

    method DeliverAndCommit(output: Path, credential: Bytes, fail: Option<Point>, removable: bool, next: Spec.Db)
      returns (r: Result<()>)
      modifies this
      ensures r.Ok? <==> output !in old(files) && !FailsDelivery(fail) && fail != Some(Commit)
      ensures r.Ok? ==> db == next && files == old(files)[output := File(credential + [NEWLINE], true)]
      ensures r.Err? ==> db == old(db) && files - {output} == old(files) - {output}
      ensures r.Err? ==> (files == old(files) <==>
        removable || output in old(files) || fail == Some(OpenParent) || fail == Some(Create))
      ensures old(past) <= past
      ensures forall i :: |old(past)| <= i < |past| ==> Sound(past[i], old(Now()), next, output, credential)
    {
      var delivered := Deliver(output, credential, fail, removable, next);
      if !delivered {
        return Err;
      }
      if fail == Some(Commit) {
        Discard(output, removable);
        return Err;
      }
      db := next;
      Note();
      return Ok(());
    }

    /** The transaction up to its commit; nothing is written until then. */
    method Plan(id: Id, name: Option<string>, ttl: nat, now: Option<nat>, stamp: Spec.Stamp,
                credential: Bytes, fail: Option<Point>) returns (r: Result<Spec.Db>)
      requires Valid() && (name.Some? ==> Spec.ValidLabel(name.value))
      ensures r.Ok? <==> Plannable(db, id, name, ttl, now, fail)
      ensures r.Ok? ==>
        var m := Issuance(id, name, credential, now.value + ttl, stamp);
        Spec.Possible(db, m) && r.value == Spec.Committed(db, m)
    {
      if !Spec.ValidId(id) || !(Spec.MIN_TTL <= ttl <= Spec.MAX_TTL) {
        return Err;
      }
      var expiry := Spec.Expiry(now, ttl);
      if expiry.None?
        || fail == Some(CheckFiles) || fail == Some(Begin) || fail == Some(Schema) || fail == Some(Random)
      {
        return Err;
      }
      var tx := db;
      var action := Spec.Rotated;
      if name.Some? {
        if fail == Some(Count) || |tx.registrations| >= Spec.MAX_REGISTRATIONS
          || fail == Some(Mutate) || id in tx.registrations
        {
          return Err;
        }
        tx := tx.(registrations := tx.registrations[id := Spec.Row(name.value, Hash(credential), true, expiry.value)]);
        action := Spec.Registered;
      } else {
        if fail == Some(Mutate) || id !in tx.registrations {
          return Err;
        }
        var row := tx.registrations[id];
        row := row.(hash := Hash(credential), active := true, expiresAt := expiry.value);
        tx := tx.(registrations := tx.registrations[id := row]);
      }
      if fail == Some(Audit) {
        return Err;
      }
      return Ok(Spec.Append(tx, stamp, action, Some(id), expiry));
    }

    method Note()
      modifies this`past
      ensures past == old(past) + [Now()]
    {
      past := past + [Now()];
    }

    /** `PendingCredential::create`: a new file, written and synchronized together
        with its directory before the transaction commits; removed again on any
        failure. `next` is what is to be committed. */
    method Deliver(output: Path, credential: Bytes, fail: Option<Point>, removable: bool, ghost next: Spec.Db)
      returns (delivered: bool)
      modifies this`files, this`past
      ensures delivered <==> output !in old(files) && !FailsDelivery(fail)
      ensures delivered ==> files == old(files)[output := File(credential + [NEWLINE], true)]
      ensures !delivered ==> files - {output} == old(files) - {output}
      ensures !delivered ==> (files == old(files) <==>
        removable || output in old(files) || fail == Some(OpenParent) || fail == Some(Create))
      ensures old(past) <= past
      ensures forall i :: |old(past)| <= i < |past| ==> Sound(past[i], old(Now()), next, output, credential)
    {
      if fail == Some(OpenParent) || fail == Some(Create) || output in files {
        return false;
      }
      files := files[output := File([], false)];
      Note();
      delivered := Fill(output, credential, fail);
      if !delivered {
        Discard(output, removable);
      }
    }

    /** Write and synchronize the file just created. */
    method Fill(output: Path, credential: Bytes, fail: Option<Point>) returns (filled: bool)
      requires output in files
      modifies this`files, this`past
      ensures filled <==> fail.None? || fail.value !in {Permissions, Write, Sync, SyncParent}
      ensures output in files && files == old(files)[output := files[output]]
      ensures filled ==> files[output] == File(credential + [NEWLINE], true)
      ensures old(past) <= past
      ensures forall i :: |old(past)| <= i < |past| ==>
        past[i].db == db && past[i].files - {output} == old(files) - {output}
    {
      if fail == Some(Permissions) || fail == Some(Write) {
        return false;
      }
      files := files[output := File(credential + [NEWLINE], false)];
      Note();
      if fail == Some(Sync) || fail == Some(SyncParent) {
        return false;
      }
      files := files[output := File(credential + [NEWLINE], true)];
      Note();
      return true;
    }

    /** `PendingCredential::drop` before commit. */
    method Discard(output: Path, removable: bool)
      modifies this`files, this`past
      ensures files == if removable then old(files) - {output} else old(files)
      ensures past == old(past) + [Now()]
    {
      if removable {
        files := files - {output};
      }
      Note();
    }

    // ---- Revoking

    /** Only an active registration changes, and only then is an event written. */
    method Revoke(id: Id, stamp: Spec.Stamp, fail: Option<Point>) returns (r: Result<bool>)
      requires Valid()
      modifies this`db, this`past
      ensures Valid()
      ensures r.Err? <==> !Spec.ValidId(id) || FailsRevoking(fail, Spec.Possible(old(db), Spec.Revoke(id, stamp)))
      ensures r == Ok(true) ==>
        && Spec.Possible(old(db), Spec.Revoke(id, stamp)) && db == Spec.Committed(old(db), Spec.Revoke(id, stamp))
        && id in db.registrations && !db.registrations[id].active
        && Spec.Logged(old(db), db, stamp, Spec.Revoked, id, None)
      ensures r == Ok(false) ==> !Spec.Possible(old(db), Spec.Revoke(id, stamp))
      ensures r != Ok(true) ==> db == old(db)
    {
      if !Spec.ValidId(id)
        || fail == Some(CheckFiles) || fail == Some(Begin) || fail == Some(Schema) || fail == Some(Mutate)
      {
        return Err;
      }
      var tx := db;
      var changed := id in tx.registrations && tx.registrations[id].active;
      if changed {
        if fail == Some(Audit) {
          return Err;
        }
        Spec.CommittedKeeps(db, Spec.Revoke(id, stamp));
        Spec.CommittedIs(db, Spec.Revoke(id, stamp));
        tx := tx.(registrations := tx.registrations[id := tx.registrations[id].(active := false)]);
        tx := Spec.Append(tx, stamp, Spec.Revoked, Some(id), None);
      }
      if fail == Some(Commit) {
        return Err;
      }
      db := tx;
      Note();
      return Ok(changed);
    }

    // ---- Reading

    /** The first `limit` ids in order. */
    method OrderedIds(limit: nat) returns (ids: seq<Id>)
      ensures Ascending(ids) && forall id :: id in ids ==> id in db.registrations
      ensures |ids| == if |db.registrations| < limit then |db.registrations| else limit
      ensures |db.registrations| <= limit ==> forall id :: id in db.registrations ==> id in ids
    {
      ids := [];
      var todo := db.registrations.Keys;
      assert |todo| == |db.registrations|;
      while todo != {} && |ids| < limit
        invariant todo <= db.registrations.Keys && |ids| + |todo| == |db.registrations| && |ids| <= limit
        invariant Ascending(ids)
        invariant forall id :: id in ids <==> id in db.registrations && id !in todo
        invariant forall id, other :: id in ids && other in todo ==> StringLess(id, other)
        decreases |todo|
      {
        var id := Least(todo);
        ids := ids + [id];
        todo := todo - {id};
      }
    }

    /** All registrations in order of id, or none at all. */
    method Snapshot(fault: bool) returns (r: Result<seq<Record>>)
      ensures r.Ok? ==> Complete(db, r.value) && |r.value| <= Spec.MAX_REGISTRATIONS
      ensures r.Ok? <==> !fault && |db.registrations| <= Spec.MAX_REGISTRATIONS && AllValid(db)
      ensures Valid() && !fault ==> r.Ok?
    {
      if fault {
        return Err;
      }
      var ids := OrderedIds(Spec.MAX_REGISTRATIONS + 1);
      var records: seq<Record> := [];
      for i := 0 to |ids|
        invariant |records| == i <= Spec.MAX_REGISTRATIONS
        invariant forall j :: 0 <= j < i ==>
          records[j] == RecordOf(db, ids[j]) && Spec.ValidRow(ids[j], db.registrations[ids[j]])
      {
        var row := db.registrations[ids[i]];
        if !Spec.ValidId(ids[i]) || !Spec.ValidLabel(row.name) || row.expiresAt == 0 || row.expiresAt > Spec.MAX_I64 {
          return Err;
        }
        records := records + [RecordOf(db, ids[i])];
        if |records| > Spec.MAX_REGISTRATIONS {
          return Err;
        }
      }
      assert forall j :: 0 <= j < |ids| ==> records[j].id == ids[j];
      return Ok(records);
    }

    /** One page of the audit log after a sequence number. */
    method AuditPage(after: nat, fault: bool) returns (r: Result<seq<Spec.AuditRow>>)
      ensures r == if after > Spec.MAX_I64 || fault then Err else Ok(Spec.Page(db.audit, after))
    {
      if after > Spec.MAX_I64 || fault {
        return Err;
      }
      var page: seq<Spec.AuditRow> := [];
      for i := 0 to |db.audit|
        invariant page == Spec.Page(db.audit[..i], after)
      {
        assert db.audit[..i + 1][..i] == db.audit[..i];
        if db.audit[i].sequence > after && |page| < Spec.PAGE {
          page := page + [db.audit[i]];
        }
      }
      assert db.audit[..|db.audit|] == db.audit;
      return Ok(page);
    }
  }

  lemma OnlyKey(files: map<Path, File>, p: Path)
    requires files - {p} == map[] && files != map[]
    ensures p in files
  {
    var other :| other in files;
    assert other != p ==> other in files - {p};
  }

  lemma FirstRegistration(db: Spec.Db)
    requires db.registrations == map[]
    ensures Creates(Disk(db, map[]), "a", Some("a"), 60, "out", Some(0), Some(Sync))
  {
    assert Spec.ValidId("a") && Spec.ValidLabel("a");
  }

  /** A registration whose file cannot be synchronized, in a directory from which it
      cannot be removed either: nothing is registered, and the file stays. */
  method CredentialIsLeft(store: Store, stamp: Spec.Stamp) returns (r: Result<()>)
    requires store.Valid() && store.db.registrations == map[] && store.files == map[]
    modifies store
    ensures r.Err? && store.db == old(store.db) && "out" in store.files
  {
    FirstRegistration(store.db);
    r := store.Register("a", "a", 60, "out", Some(0), stamp, [1], Some(Sync), false);
    OnlyKey(store.files, "out");
  }

  predicate AllValid(db: Spec.Db) {
    forall id :: id in db.registrations ==> Spec.ValidRow(id, db.registrations[id])
  }

  // ---- Snapshots ---------------------------------------------------------------------

  predicate Ascending(ids: seq<Id>) {
    forall i, j :: 0 <= i < j < |ids| ==> StringLess(ids[i], ids[j])
  }

  function RecordOf(db: Spec.Db, id: Id): Record
    requires id in db.registrations
  {
    var row := db.registrations[id];
    Record(id, row.name, row.hash, row.active, row.expiresAt)
  }

  /** Every row is there once, in order of id, and nothing else. */
  ghost predicate Complete(db: Spec.Db, records: seq<Record>) {
    && (forall i :: 0 <= i < |records| ==>
          records[i].id in db.registrations && records[i] == RecordOf(db, records[i].id))
    && (forall i, j :: 0 <= i < j < |records| ==> StringLess(records[i].id, records[j].id))
    && (forall id :: id in db.registrations ==> exists i :: 0 <= i < |records| && records[i].id == id)
  }

  method Least(ids: set<Id>) returns (least: Id)
    requires ids != {}
    ensures least in ids && forall id :: id in ids && id != least ==> StringLess(least, id)
  {
    least :| least in ids;
    var todo := ids - {least};
    while todo != {}
      invariant todo <= ids && least in ids && least !in todo
      invariant forall id :: id in ids && id !in todo && id != least ==> StringLess(least, id)
    {
      var id :| id in todo;
      todo := todo - {id};
      StringTotal(id, least);
      if StringLess(id, least) {
        forall other | other in ids && other !in todo && other != id ensures StringLess(id, other) {
          if other != least {
            StringTransitive(id, least, other);
          }
        }
        least := id;
      }
    }
  }
}
