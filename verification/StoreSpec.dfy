/** The durable store as a value: registrations, the audit log, and what each
    transaction commits (cargo/src/admin.rs). */
module StoreSpec {
  import opened Prelude
  import opened RegistrySpec

  const MAX_REGISTRATIONS: nat := 10_000
  const MAX_I64: nat := 0x7FFF_FFFF_FFFF_FFFF
  const MIN_TTL: nat := 60
  const MAX_TTL: nat := 86400
  const PAGE: nat := 100

  datatype Action = Initialized | Registered | Rotated | Revoked

  datatype Row = Row(name: string, hash: Hash, active: bool, expiresAt: nat)

  datatype AuditRow = AuditRow(sequence: nat, timestamp: nat, operator: nat, action: Action, id: Option<Id>,
                               expiresAt: Option<nat>)

  /** What one committed transaction leaves behind. */
  datatype Db = Db(registrations: map<Id, Row>, audit: seq<AuditRow>)

  // ---- Validation -----------------------------------------------------------------

  predicate IdChar(c: char) {
    'a' <= c <= 'z' || '0' <= c <= '9'
  }

  predicate ValidId(id: string) {
    0 < |id| <= 63 && IdChar(id[0]) && forall i :: 0 <= i < |id| ==> IdChar(id[i]) || id[i] == '-'
  }

  predicate ControlChar(c: char) {
    c < ' ' || '\U{7F}' <= c <= '\U{9F}'
  }

  predicate ValidLabel(name: string) {
    0 < |name| <= 128 && forall i :: 0 <= i < |name| ==> !ControlChar(name[i])
  }

  predicate ValidRow(id: Id, row: Row) {
    ValidId(id) && ValidLabel(row.name) && 0 < row.expiresAt <= MAX_I64
  }

  /** 1 through 63 lower-case letters, digits or hyphens, the first no hyphen. */
  lemma ValidIdIs(id: string)
    ensures ValidId(id) <==>
      && 1 <= |id| <= 63 && id[0] != '-'
      && forall i :: 0 <= i < |id| ==> 97 <= id[i] as int <= 122 || 48 <= id[i] as int <= 57 || id[i] as int == 45
  {
  }

  /** 1 through 128 characters, none of them among the two blocks of controls. */
  lemma ValidLabelIs(name: string)
    ensures ValidLabel(name) <==>
      1 <= |name| <= 128 && forall i :: 0 <= i < |name| ==> 32 <= name[i] as int <= 126 || 160 <= name[i] as int
  {
  }

  /** `now` is None when the clock cannot be read. */
  function Expiry(now: Option<nat>, ttl: nat): Option<nat> {
    if now.None? || now.value + ttl > MAX_I64 then None else Some(now.value + ttl)
  }

  // ---- Transactions -----------------------------------------------------------------

  datatype Stamp = Stamp(time: nat, operator: nat)

  /** One more event; sequence numbers are never used again. */
  function Append(db: Db, stamp: Stamp, action: Action, id: Option<Id>, expiry: Option<nat>): Db {
    var sequence := if db.audit == [] then 1 else db.audit[|db.audit| - 1].sequence + 1;
    db.(audit := db.audit + [AuditRow(sequence, stamp.time, stamp.operator, action, id, expiry)])
  }

  datatype Mutation =
    | Register(id: Id, name: string, credential: Bytes, expiry: nat, stamp: Stamp)
    | Rotate(id: Id, credential: Bytes, expiry: nat, stamp: Stamp)
    | Revoke(id: Id, stamp: Stamp)

  predicate Possible(db: Db, m: Mutation) {
    && ValidId(m.id)
    && match m
       case Register(id, name, _, expiry, _) =>
         id !in db.registrations && |db.registrations| < MAX_REGISTRATIONS && ValidLabel(name) && 0 < expiry <= MAX_I64
       case Rotate(id, _, expiry, _) => id in db.registrations && 0 < expiry <= MAX_I64
       case Revoke(id, _) => id in db.registrations && db.registrations[id].active
  }

  function Committed(db: Db, m: Mutation): Db
    requires Possible(db, m)
  {
    match m
    case Register(id, name, credential, expiry, stamp) =>
      Append(db.(registrations := db.registrations[id := Row(name, Hash(credential), true, expiry)]),
             stamp, Registered, Some(id), Some(expiry))
    case Rotate(id, credential, expiry, stamp) =>
      var row := db.registrations[id].(hash := Hash(credential), active := true, expiresAt := expiry);
      Append(db.(registrations := db.registrations[id := row]), stamp, Rotated, Some(id), Some(expiry))
    case Revoke(id, stamp) =>
      Append(db.(registrations := db.registrations[id := db.registrations[id].(active := false)]),
             stamp, Revoked, Some(id), None)
  }

  function Initial(stamp: Stamp): Db {
    Append(Db(map[], []), stamp, Initialized, None, None)
  }

  // ---- The log and the table ------------------------------------------------------------

  datatype Status = Status(active: bool, expiresAt: nat)

  function Statuses(registrations: map<Id, Row>): map<Id, Status> {
    map id | id in registrations :: Status(registrations[id].active, registrations[id].expiresAt)
  }

  /** What the events say, oldest first; None when an event makes no sense where it
      stands. */
  function Replay(audit: seq<AuditRow>): Option<map<Id, Status>> {
    if audit == [] then None
    else
      var e := audit[|audit| - 1];
      var before := Replay(audit[..|audit| - 1]);
      match e.action
      case Initialized => if |audit| == 1 && e.id == None && e.expiresAt == None then Some(map[]) else None
      case Registered =>
        if before.Some? && e.id.Some? && e.expiresAt.Some? && e.id.value !in before.value
        then Some(before.value[e.id.value := Status(true, e.expiresAt.value)]) else None
      case Rotated =>
        if before.Some? && e.id.Some? && e.expiresAt.Some? && e.id.value in before.value
        then Some(before.value[e.id.value := Status(true, e.expiresAt.value)]) else None
      case Revoked =>
        if before.Some? && e.id.Some? && e.expiresAt.None?
          && e.id.value in before.value && before.value[e.id.value].active
        then Some(before.value[e.id.value := before.value[e.id.value].(active := false)]) else None
  }

  predicate Numbered(audit: seq<AuditRow>) {
    forall i :: 0 <= i < |audit| ==> audit[i].sequence == i + 1
  }

  predicate Inv(db: Db) {
    && Replay(db.audit) == Some(Statuses(db.registrations))
    && Numbered(db.audit)
    && |db.registrations| <= MAX_REGISTRATIONS
    && forall id :: id in db.registrations ==> ValidRow(id, db.registrations[id])
  }

  lemma AppendReplays(db: Db, stamp: Stamp, action: Action, id: Option<Id>, expiry: Option<nat>)
    requires Numbered(db.audit)
    ensures var a := Append(db, stamp, action, id, expiry).audit;
      Numbered(a) && a[..|a| - 1] == db.audit && |a| == |db.audit| + 1
      && a[|a| - 1].action == action && a[|a| - 1].id == id && a[|a| - 1].expiresAt == expiry
  {
  }

  lemma InitialInv(stamp: Stamp)
    ensures Inv(Initial(stamp))
  {
    AppendReplays(Db(map[], []), stamp, Initialized, None, None);
    assert Statuses(map[]) == map[];
  }

  lemma InsertSize<K, V>(m: map<K, V>, k: K, v: V)
    ensures |m[k := v]| == |m| + if k in m then 0 else 1
  {
    if k in m {
      assert m[k := v].Keys == m.Keys;
    } else {
      assert m[k := v].Keys == m.Keys + {k};
    }
    assert |m[k := v].Keys| == |m[k := v]| && |m.Keys| == |m|;
  }

  /** One more event, by this operator at this time, and nothing else. */
  predicate Logged(before: Db, after: Db, stamp: Stamp, action: Action, id: Id, expiry: Option<nat>) {
    after.audit == before.audit
      + [AuditRow(|before.audit| + 1, stamp.time, stamp.operator, action, Some(id), expiry)]
  }

  /** What each mutation makes of its row, and what the log says of it. */
  lemma CommittedIs(db: Db, m: Mutation)
    requires Inv(db) && Possible(db, m)
    ensures var after, rows := Committed(db, m), db.registrations;
      match m
      case Register(id, name, credential, expiry, stamp) =>
        && after.registrations == rows[id := Row(name, Hash(credential), true, expiry)]
        && Logged(db, after, stamp, Registered, id, Some(expiry))
      case Rotate(id, credential, expiry, stamp) =>
        && after.registrations == rows[id := Row(rows[id].name, Hash(credential), true, expiry)]
        && Logged(db, after, stamp, Rotated, id, Some(expiry))
      case Revoke(id, stamp) =>
        && after.registrations == rows[id := Row(rows[id].name, rows[id].hash, false, rows[id].expiresAt)]
        && Logged(db, after, stamp, Revoked, id, None)
  {
  }

  lemma CommittedReplays(db: Db, m: Mutation)
    requires Inv(db) && Possible(db, m)
    ensures Replay(Committed(db, m).audit) == Some(Statuses(Committed(db, m).registrations))
  {
    var after := Committed(db, m);
    assert after.audit[..|after.audit| - 1] == db.audit;
    var id := m.id;
    var row := after.registrations[id];
    assert Statuses(after.registrations) == Statuses(db.registrations)[id := Status(row.active, row.expiresAt)];
  }

  lemma CommittedKeeps(db: Db, m: Mutation)
    requires Inv(db) && Possible(db, m)
    ensures Inv(Committed(db, m))
  {
    CommittedReplays(db, m);
    InsertSize(db.registrations, m.id, Committed(db, m).registrations[m.id]);
  }

  // ---- Runs --------------------------------------------------------------------------

  /** Every successful mutation in turn; a failed one leaves nothing. */
  function Run(db: Db, ms: seq<Mutation>): Option<Db>
    decreases |ms|
  {
    if ms == [] then Some(db)
    else if Possible(db, ms[0]) then Run(Committed(db, ms[0]), ms[1..])
    else None
  }

  lemma {:induction false} RunKeeps(db: Db, ms: seq<Mutation>)
    requires Inv(db) && Run(db, ms).Some?
    ensures Inv(Run(db, ms).value)
    ensures db.audit <= Run(db, ms).value.audit && |Run(db, ms).value.audit| == |db.audit| + |ms|
    decreases |ms|
  {
    if ms != [] {
      CommittedKeeps(db, ms[0]);
      RunKeeps(Committed(db, ms[0]), ms[1..]);
    }
  }

  /** In every run from initialization, folding the audit log gives exactly the ids,
      active flags and expiries in the table; every mutation has exactly one event;
      every row would pass the checks of a snapshot, and there are never too many. */
  lemma LogIsTheTable(stamp: Stamp, ms: seq<Mutation>)
    requires Run(Initial(stamp), ms).Some?
    ensures var db := Run(Initial(stamp), ms).value;
      && Replay(db.audit) == Some(Statuses(db.registrations))
      && |db.audit| == 1 + |ms|
      && |db.registrations| <= MAX_REGISTRATIONS
      && forall id :: id in db.registrations ==> ValidRow(id, db.registrations[id])
  {
    InitialInv(stamp);
    RunKeeps(Initial(stamp), ms);
  }

  // ---- Paging --------------------------------------------------------------------------

  function Min(a: int, b: int): int {
    if a < b then a else b
  }

  /** `WHERE sequence > after ORDER BY sequence LIMIT 100` over rows in order of
      sequence. */
  function Page(audit: seq<AuditRow>, after: nat): seq<AuditRow> {
    if audit == [] then []
    else
      var front := Page(audit[..|audit| - 1], after);
      var e := audit[|audit| - 1];
      if e.sequence > after && |front| < PAGE then front + [e] else front
  }

  lemma {:induction false} PageIs(audit: seq<AuditRow>, after: nat)
    requires Numbered(audit)
    ensures Page(audit, after) == if after >= |audit| then [] else audit[after..Min(|audit|, after + 100)]
  {
    if audit != [] {
      var n := |audit| - 1;
      PageIs(audit[..n], after);
    }
  }

  function NextAfter(page: seq<AuditRow>, after: nat): nat {
    if page == [] then after else page[|page| - 1].sequence
  }

  /** The pages a reader gets from a log that grows while it reads. */
  function Pages(logs: seq<seq<AuditRow>>, after: nat): (pages: seq<seq<AuditRow>>)
    ensures |pages| == |logs|
    decreases |logs|
  {
    if logs == [] then []
    else
      var page := Page(logs[0], after);
      [page] + Pages(logs[1..], NextAfter(page, after))
  }

  /** Each log extends the one before. */
  predicate Growing(logs: seq<seq<AuditRow>>) {
    logs != [] ==>
      Numbered(logs[0]) && (|logs| > 1 ==> logs[0] <= logs[1]) && Growing(logs[1..])
  }

  lemma PageAdvances(log: seq<AuditRow>, after: nat)
    requires Numbered(log) && after <= |log|
    ensures var page := Page(log, after); var next := after + |page|;
      && NextAfter(page, after) == next <= |log| && page == log[after..next]
      && (|page| < PAGE ==> next == |log|)
  {
    PageIs(log, after);
  }

  lemma SliceJoins<T>(all: seq<T>, part: seq<T>, a: nat, b: nat, c: nat)
    requires a <= b <= c <= |all| && b <= |part| && part <= all
    ensures part[a..b] + all[b..c] == all[a..c]
  {
  }

  lemma PagesStep(logs: seq<seq<AuditRow>>, after: nat)
    requires logs != []
    ensures var page := Page(logs[0], after); var more := Pages(logs[1..], NextAfter(page, after));
      && Flat(Pages(logs, after)) == page + Flat(more)
      && Pages(logs, after)[|logs| - 1] == if |logs| > 1 then more[|more| - 1] else page
  {
  }

  /** Asking again after the last sequence number seen visits every event once and
      in order, whatever is appended between pages: the pages make up the final
      log from where the reader began, up to its end once a page is not full. */
  lemma {:induction false} PagingVisitsOnce(logs: seq<seq<AuditRow>>, after: nat)
    requires logs != [] && Growing(logs) && after <= |logs[0]|
    ensures var final, pages := logs[|logs| - 1], Pages(logs, after);
      var end := after + |Flat(pages)|;
      end <= |final| && Flat(pages) == final[after..end] && (|pages[|pages| - 1]| < PAGE ==> end == |final|)
    decreases |logs|
  {
    PageAdvances(logs[0], after);
    PagesStep(logs, after);
    if |logs| > 1 {
      GrowingExtends(logs);
      var next := after + |Page(logs[0], after)|;
      PagingVisitsOnce(logs[1..], next);
      SliceJoins(logs[|logs| - 1], logs[0], after, next, next + |Flat(Pages(logs[1..], next))|);
    } else {
      assert Pages(logs[1..], NextAfter(Page(logs[0], after), after)) == [];
    }
  }

  lemma {:induction false} GrowingExtends(logs: seq<seq<AuditRow>>)
    requires logs != [] && Growing(logs)
    ensures logs[0] <= logs[|logs| - 1]
    decreases |logs|
  {
    if |logs| > 1 {
      GrowingExtends(logs[1..]);
    }
  }
}
