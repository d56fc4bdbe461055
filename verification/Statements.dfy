/**
 The meaning of each SQL statement of engine/store.go, as a function from table
 to table. `now` stands for `now()`, a `Clock` for the `clock_timestamp()`
 readings a statement makes at each row.
 */
module Statements {
  import opened Messages

  // ---- claim -------------------------------------------------------------

  /** What `gen_random_uuid()` and `clock_timestamp()` returned for one claimed row. */
  datatype Grant = Grant(token: Token, stamped: Time)

  predicate Claimable(r: Row, now: Time) {
    && r.nextAttemptAt <= now
    && (r.status == Pending
        || (r.status == Processing && r.lockedUntil.Some? && r.lockedUntil.value < now))
  }

  /** `e` is an unresolved predecessor of `o` within its key. */
  predicate Blocks(e: Row, o: Row) {
    SameKey(e.data, o.data) && Before(e.data, o.data) && !Resolved(e.status)
  }

  /** The NOT EXISTS guard of ordered mode. */
  predicate Unblocked(rows: Rows, o: Row) {
    forall e :: e in rows ==> !Blocks(rows[e], o)
  }

  function ClaimRow(r: Row, owner: string, token: Token, until: Time): Row {
    r.(status := Processing, lockedBy := Some(owner), lockedUntil := Some(until),
       leaseToken := Some(token), attempts := r.attempts + 1)
  }

  function ClaimRows(rows: Rows, owner: string, lease: Duration, grants: map<Id, Grant>): Rows {
    map id | id in rows ::
      if id in grants then ClaimRow(rows[id], owner, grants[id].token, grants[id].stamped + lease)
      else rows[id]
  }

  // ---- renew and finish ---------------------------------------------------

  /** One row's clock readings: `seen` by the WHERE clause, `stamped` by SET. */
  datatype Reading = Reading(seen: Time, stamped: Time)
  type Clock = Id -> Reading

  /** `(id, lease_token)`: identifies an attempt rather than a process. */
  datatype Key = Key(id: Id, token: Token)

  /** The claim that `key` names is the row's current one and has not expired. */
  predicate Live(r: Row, id: Id, keys: set<Key>, seen: Time) {
    && r.leaseToken.Some?
    && Key(id, r.leaseToken.value) in keys
    && r.status == Processing
    && r.lockedUntil.Some?
    && r.lockedUntil.value > seen
  }

  function Hits(rows: Rows, keys: set<Key>, clock: Clock): set<Id> {
    set id | id in rows && Live(rows[id], id, keys, clock(id).seen)
  }

  function RenewRows(rows: Rows, keys: set<Key>, lease: Duration, clock: Clock): Rows {
    map id | id in rows ::
      if Live(rows[id], id, keys, clock(id).seen)
      then rows[id].(lockedUntil := Some(clock(id).stamped + lease))
      else rows[id]
  }

  /** The arguments of one `finish` statement. */
  datatype Completion = Completion(status: Status, reason: string, delay: Duration)

  function FinishRow(r: Row, c: Completion, clear: bool, stamped: Time): Row {
    var scrub := clear && Resolved(c.status);
    Row(r.data.(payload := if scrub then "" else r.data.payload,
                headers := if scrub then map[] else r.data.headers),
        c.status,
        r.attempts,
        None, None, None,
        if c.status == Pending then stamped + c.delay else r.nextAttemptAt,
        NullIfEmpty(c.reason),
        if c.status == Published then Some(stamped) else None,
        if c.status == Pending then None else Some(stamped))
  }

  function FinishRows(rows: Rows, keys: set<Key>, c: Completion, clear: bool, clock: Clock): Rows {
    map id | id in rows ::
      if Live(rows[id], id, keys, clock(id).seen)
      then FinishRow(rows[id], c, clear, clock(id).stamped)
      else rows[id]
  }

  // ---- requeue and cleanup -------------------------------------------------

  function RequeueRow(r: Row, at: Time): Row {
    r.(status := Pending, attempts := 0, nextAttemptAt := at, lastError := None,
       finishedAt := None, publishedAt := None,
       lockedBy := None, lockedUntil := None, leaseToken := None)
  }

  function RequeueRows(rows: Rows, id: Id, at: Time): Rows {
    if id in rows && rows[id].status == Dead then rows[id := RequeueRow(rows[id], at)] else rows
  }

  /** Retention windows; zero or negative disables one. */
  datatype Retention = Retention(published: Duration, dead: Duration, discarded: Duration)

  predicate Expired(r: Row, keep: Retention, now: Time) {
    || (keep.published > 0 && r.status == Published
        && r.publishedAt.Some? && r.publishedAt.value < now - keep.published)
    || (keep.dead > 0 && r.status == Dead
        && r.finishedAt.Some? && r.finishedAt.value < now - keep.dead)
    || (keep.discarded > 0 && r.status == Discarded
        && r.finishedAt.Some? && r.finishedAt.value < now - keep.discarded)
  }

  function ExpiredIds(rows: Rows, keep: Retention, now: Time): set<Id> {
    set id | id in rows && Expired(rows[id], keep, now)
  }

  // ---- enqueue --------------------------------------------------------------

  /** One VALUES row after defaults: `data.createdAt` is `now()`, `data.seqNo` a `nextval`. */
  datatype Insert = Insert(id: Id, data: Envelope)

  function NewRow(data: Envelope): Row {
    Row(data, Pending, 0, None, None, None, data.createdAt, None, None, None)
  }

  /** ON CONFLICT (id) DO NOTHING. */
  function InsertOne(rows: Rows, item: Insert): Rows {
    if item.id in rows then rows else rows[item.id := NewRow(item.data)]
  }

  function InsertAll(rows: Rows, items: seq<Insert>): Rows {
    if items == [] then rows
    else InsertOne(InsertAll(rows, items[..|items| - 1]), items[|items| - 1])
  }

  /** Where an id first occurs in a batch; the batch's length when it does not. */
  function FirstIndex(items: seq<Insert>, id: Id): (k: nat)
    ensures k <= |items|
    ensures k < |items| ==> items[k].id == id
    ensures forall j :: 0 <= j < k ==> items[j].id != id
  {
    if items == [] then 0
    else
      var n := |items| - 1;
      var k := FirstIndex(items[..n], id);
      assert forall j :: 0 <= j < n ==> items[j] == items[..n][j];
      if k < n || items[n].id == id then k else n + 1
  }

  /**
   A batch insert keeps the first of everything: rows already in the table stay
   as they are, and of a repeated new id the earliest item wins.
   */
  lemma {:induction false} InsertKeepsFirst(rows: Rows, items: seq<Insert>, id: Id)
    ensures id in InsertAll(rows, items) <==> id in rows || FirstIndex(items, id) < |items|
    ensures id in rows ==> InsertAll(rows, items)[id] == rows[id]
    ensures id !in rows && FirstIndex(items, id) < |items| ==>
      InsertAll(rows, items)[id] == NewRow(items[FirstIndex(items, id)].data)
    decreases |items|
  {
    if items != [] {
      InsertKeepsFirst(rows, items[..|items| - 1], id);
    }
  }

  /** Two batches in sequence are one batch, so grouping of inserts is irrelevant. */
  lemma {:induction false} InsertAllConcat(rows: Rows, a: seq<Insert>, b: seq<Insert>)
    ensures InsertAll(rows, a + b) == InsertAll(InsertAll(rows, a), b)
    decreases |b|
  {
    if b == [] {
      assert a + b == a;
    } else {
      var n := |b| - 1;
      assert (a + b)[..|a + b| - 1] == a + b[..n];
      InsertAllConcat(rows, a, b[..n]);
    }
  }

  /** Repeating a batch with explicit ids, whatever its new contents, changes nothing. */
  lemma {:induction false} InsertIsIdempotent(rows: Rows, items: seq<Insert>, again: seq<Insert>)
    requires forall i :: 0 <= i < |again| ==>
      again[i].id in rows || FirstIndex(items, again[i].id) < |items|
    ensures InsertAll(InsertAll(rows, items), again) == InsertAll(rows, items)
    decreases |again|
  {
    if again != [] {
      var n := |again| - 1;
      InsertIsIdempotent(rows, items, again[..n]);
      InsertKeepsFirst(rows, items, again[n].id);
    }
  }
}
