/** The Store of engine/store.go: the outbox table and the statements run on it. */
module Stores {
  import opened Messages
  import opened Statements
  import opened Protocol
  import opened Outcomes
  import opened Sets

  /** How the executor answers a statement: `Lost` means it committed but reported an error. */
  datatype Reply = Answered | Refused(err: Err) | Lost(err: Err)

  /** A message as `claim` returned it. */
  datatype Claimed = Claimed(id: Id, row: Row)

  /** What a producer passes to Enqueue; empty strings and a nil map are stored as defaults. */
  datatype Message = Message(
    id: Id, topic: string, partitionKey: string, payload: Bytes,
    headers: Option<map<string, string>>, contentType: string, messageType: string,
    maxAttempts: Option<int>)

  /** Relay settings as config.Resolve leaves them. */
  datatype Settings = Settings(
    instanceId: string, leaseDuration: Duration, batchSize: nat, maxAttempts: int,
    ordered: bool, clearPayload: bool, discardHooks: bool,
    fatal: Err -> bool)

  // ---- claim keys ------------------------------------------------------------------

  predicate DistinctIds(msgs: seq<Claimed>) {
    forall i, j :: 0 <= i < j < |msgs| ==> msgs[i].id != msgs[j].id
  }

  function Ids(msgs: seq<Claimed>): set<Id> {
    set i | 0 <= i < |msgs| :: msgs[i].id
  }

  function KeyOf(m: Claimed): Key {
    Key(m.id, if m.row.leaseToken.Some? then m.row.leaseToken.value else "")
  }

  function Keys(msgs: seq<Claimed>): set<Key> {
    set i | 0 <= i < |msgs| :: KeyOf(msgs[i])
  }

  /** The message's own claim is live; with distinct ids this is all that the statement's other keys can tell. */
  predicate Owned(rows: Rows, m: Claimed, clock: Clock) {
    m.id in rows && Live(rows[m.id], m.id, {KeyOf(m)}, clock(m.id).seen)
  }

  lemma LiveIsOwned(rows: Rows, msgs: seq<Claimed>, clock: Clock, i: nat)
    requires DistinctIds(msgs) && i < |msgs|
    ensures msgs[i].id in Hits(rows, Keys(msgs), clock) <==> Owned(rows, msgs[i], clock)
  {
    var m := msgs[i];
    assert KeyOf(m) in Keys(msgs);
    forall k | k in Keys(msgs) && k.id == m.id ensures k == KeyOf(m) {
      var j :| 0 <= j < |msgs| && KeyOf(msgs[j]) == k;
    }
  }

  lemma HitsAreIds(rows: Rows, msgs: seq<Claimed>, clock: Clock)
    ensures Hits(rows, Keys(msgs), clock) <= Ids(msgs)
  {
    forall id | id in Hits(rows, Keys(msgs), clock) ensures id in Ids(msgs) {
      var j :| 0 <= j < |msgs| && KeyOf(msgs[j]) == Key(id, rows[id].leaseToken.value);
      assert msgs[j].id in Ids(msgs);
    }
  }

  lemma {:induction false} IdsSize(msgs: seq<Claimed>)
    requires DistinctIds(msgs)
    ensures |Ids(msgs)| == |msgs|
    decreases |msgs|
  {
    if msgs != [] {
      var n := |msgs| - 1;
      IdsSize(msgs[..n]);
      assert forall i :: 0 <= i < n ==> msgs[..n][i] == msgs[i];
      assert Ids(msgs) == Ids(msgs[..n]) + {msgs[n].id};
    }
  }

  /**
   Counting detects loss exactly: a statement reaches as many rows as it names
   messages if and only if every named claim is live.
   */
  lemma CountTellsLoss(rows: Rows, msgs: seq<Claimed>, clock: Clock)
    requires DistinctIds(msgs)
    ensures |Hits(rows, Keys(msgs), clock)| == |msgs| <==>
            forall i :: 0 <= i < |msgs| ==> Owned(rows, msgs[i], clock)
  {
    var hits := Hits(rows, Keys(msgs), clock);
    HitsAreIds(rows, msgs, clock);
    IdsSize(msgs);
    SubsetSize(hits, Ids(msgs));
    forall i | 0 <= i < |msgs| ensures msgs[i].id in hits <==> Owned(rows, msgs[i], clock) {
      LiveIsOwned(rows, msgs, clock, i);
    }
    if hits == Ids(msgs) {
      forall i | 0 <= i < |msgs| ensures Owned(rows, msgs[i], clock) {
        assert msgs[i].id in Ids(msgs);
      }
    }
  }

  /** The row is still held under the claim that `m` was handed out with, and the lease is not over at `seen`. */
  predicate HoldsClaim(r: Row, m: Claimed, seen: Time) {
    && m.row.leaseToken.Some? && r.leaseToken == m.row.leaseToken
    && r.status == Processing && r.lockedUntil.Some? && r.lockedUntil.value > seen
  }

  lemma HitsHoldClaim(rows: Rows, msgs: seq<Claimed>, clock: Clock, i: nat)
    requires DistinctIds(msgs) && i < |msgs| && msgs[i].id in rows && msgs[i].row.leaseToken.Some?
    ensures Live(rows[msgs[i].id], msgs[i].id, Keys(msgs), clock(msgs[i].id).seen)
            <==> HoldsClaim(rows[msgs[i].id], msgs[i], clock(msgs[i].id).seen)
  {
    LiveIsOwned(rows, msgs, clock, i);
  }

  lemma HitsAreHeld(rows: Rows, msgs: seq<Claimed>, clock: Clock)
    requires DistinctIds(msgs)
    ensures Hits(rows, Keys(msgs), clock) <= Ids(msgs)
    ensures forall i :: 0 <= i < |msgs| && msgs[i].row.leaseToken.Some? ==>
      (msgs[i].id in Hits(rows, Keys(msgs), clock) <==>
       msgs[i].id in rows && HoldsClaim(rows[msgs[i].id], msgs[i], clock(msgs[i].id).seen))
  {
    HitsAreIds(rows, msgs, clock);
    forall i | 0 <= i < |msgs| && msgs[i].row.leaseToken.Some? && msgs[i].id in rows
      ensures Live(rows[msgs[i].id], msgs[i].id, Keys(msgs), clock(msgs[i].id).seen)
              <==> HoldsClaim(rows[msgs[i].id], msgs[i], clock(msgs[i].id).seen)
    {
      HitsHoldClaim(rows, msgs, clock, i);
    }
  }

  /** What a renewal comes to, column by column. */
  ghost predicate Extended(msgs: seq<Claimed>, lease: Duration, clock: Clock, before: Rows, after: Rows) {
    && after.Keys == before.Keys
    && (forall id :: id in before && id !in Ids(msgs) ==> after[id] == before[id])
    && (forall i :: 0 <= i < |msgs| && msgs[i].id in before && msgs[i].row.leaseToken.Some? ==>
          var was, at := before[msgs[i].id], clock(msgs[i].id);
          after[msgs[i].id] ==
          if !HoldsClaim(was, msgs[i], at.seen) then was
          else Row(was.data, Processing, was.attempts, was.lockedBy, Some(at.stamped + lease), was.leaseToken,
                   was.nextAttemptAt, was.lastError, was.publishedAt, was.finishedAt))
  }

  lemma RenewExtends(msgs: seq<Claimed>, lease: Duration, clock: Clock, before: Rows)
    requires DistinctIds(msgs)
    ensures Extended(msgs, lease, clock, before, RenewRows(before, Keys(msgs), lease, clock))
  {
    HitsAreIds(before, msgs, clock);
    forall id | id in before && id !in Ids(msgs) ensures !Live(before[id], id, Keys(msgs), clock(id).seen) {
      assert id !in Hits(before, Keys(msgs), clock);
    }
    forall i | 0 <= i < |msgs| && msgs[i].id in before && msgs[i].row.leaseToken.Some?
      ensures Live(before[msgs[i].id], msgs[i].id, Keys(msgs), clock(msgs[i].id).seen)
              <==> HoldsClaim(before[msgs[i].id], msgs[i], clock(msgs[i].id).seen)
    {
      HitsHoldClaim(before, msgs, clock, i);
    }
  }

  /** The row that a finish statement makes of one it reaches, column by column. */
  predicate FinishedAs(was: Row, row: Row, status: Status, reason: string, delay: Duration, clear: bool, at: Time) {
    var scrubbed := clear && (status == Published || status == Discarded);
    && row.data == Envelope(was.data.topic, was.data.partitionKey,
                            if scrubbed then "" else was.data.payload, if scrubbed then map[] else was.data.headers,
                            was.data.contentType, was.data.messageType, was.data.maxAttempts,
                            was.data.createdAt, was.data.seqNo)
    && row.status == status && row.attempts == was.attempts
    && row.lockedBy == None && row.lockedUntil == None && row.leaseToken == None
    && row.nextAttemptAt == (if status == Pending then at + delay else was.nextAttemptAt)
    && row.lastError == (if reason == "" then None else Some(reason))
    && row.publishedAt == (if status == Published then Some(at) else None)
    && row.finishedAt == (if status == Pending then None else Some(at))
  }

  /** What a finish statement comes to, column by column. */
  ghost predicate Settled(msgs: seq<Claimed>, c: Completion, clear: bool, clock: Clock, before: Rows, after: Rows) {
    && after.Keys == before.Keys
    && (forall id :: id in before && id !in Ids(msgs) ==> after[id] == before[id])
    && (forall i :: 0 <= i < |msgs| && msgs[i].id in before && msgs[i].row.leaseToken.Some? ==>
          var was, at := before[msgs[i].id], clock(msgs[i].id);
          if HoldsClaim(was, msgs[i], at.seen)
          then FinishedAs(was, after[msgs[i].id], c.status, c.reason, c.delay, clear, at.stamped)
          else after[msgs[i].id] == was)
  }

  lemma FinishSettles(msgs: seq<Claimed>, c: Completion, clear: bool, clock: Clock, before: Rows)
    requires DistinctIds(msgs)
    ensures Settled(msgs, c, clear, clock, before, FinishRows(before, Keys(msgs), c, clear, clock))
  {
    HitsAreIds(before, msgs, clock);
    forall id | id in before && id !in Ids(msgs) ensures !Live(before[id], id, Keys(msgs), clock(id).seen) {
      assert id !in Hits(before, Keys(msgs), clock);
    }
    forall i | 0 <= i < |msgs| && msgs[i].id in before && msgs[i].row.leaseToken.Some?
      ensures Live(before[msgs[i].id], msgs[i].id, Keys(msgs), clock(msgs[i].id).seen)
              <==> HoldsClaim(before[msgs[i].id], msgs[i], clock(msgs[i].id).seen)
    {
      HitsHoldClaim(before, msgs, clock, i);
    }
  }

  // ---- claim: ORDER BY ... SKIP LOCKED LIMIT -------------------------------------------

  function Candidates(rows: Rows, ordered: bool, now: Time): set<Id> {
    set id | id in rows && Claimable(rows[id], now) && (ordered ==> Unblocked(rows, rows[id]))
  }

  /** `picked` are the first `limit` of `from` in (created_at, seq). */
  predicate OldestFirst(rows: Rows, from: set<Id>, picked: set<Id>, limit: nat) {
    && picked <= from <= rows.Keys
    && |picked| == (if |from| <= limit then |from| else limit)
    && forall p, q :: p in picked && q in from - picked ==> !Before(rows[q].data, rows[p].data)
  }

  /**
   A claim at `now` may take row `id`: it is due, pending or with a lease that is over,
   not locked, and in ordered mode no row of its key with an earlier stamp is left.
   */
  predicate Free(rows: Rows, ordered: bool, now: Time, locked: set<Id>, id: Id) {
    && id in rows && id !in locked
    && rows[id].nextAttemptAt <= now
    && (rows[id].status == Pending
        || (rows[id].status == Processing && rows[id].lockedUntil.Some? && rows[id].lockedUntil.value < now))
    && (ordered && rows[id].data.partitionKey.Some? ==>
          forall e :: e in rows && rows[e].data.partitionKey == rows[id].data.partitionKey
                      && (rows[e].data.createdAt < rows[id].data.createdAt
                          || (rows[e].data.createdAt == rows[id].data.createdAt && rows[e].data.seqNo < rows[id].data.seqNo)) ==>
            rows[e].status == Published || rows[e].status == Discarded)
  }

  /** The oldest free rows, as many as a batch holds. */
  ghost predicate TakenOldestFirst(cfg: Settings, now: Time, locked: set<Id>, rows: Rows, taken: set<Id>) {
    && |taken| <= cfg.batchSize
    && (forall p :: p in taken ==> Free(rows, cfg.ordered, now, locked, p))
    && (forall q :: Free(rows, cfg.ordered, now, locked, q) && q !in taken ==> |taken| == cfg.batchSize)
    && (forall q :: Free(rows, cfg.ordered, now, locked, q) && q !in taken ==>
          forall p :: p in taken ==>
            rows[p].data.createdAt < rows[q].data.createdAt
            || (rows[p].data.createdAt == rows[q].data.createdAt && rows[p].data.seqNo <= rows[q].data.seqNo))
  }

  /**
   What a claim comes to, column by column: it takes the oldest free rows, as many as
   a batch holds, leases and counts each of them, and touches nothing else.
   */
  ghost predicate Leased(cfg: Settings, now: Time, locked: set<Id>, mint: Id -> Token, stamp: Id -> Time,
                         before: Rows, after: Rows, taken: set<Id>) {
    && TakenOldestFirst(cfg, now, locked, before, taken)
    && after.Keys == before.Keys
    && (forall id :: id in before && id !in taken ==> after[id] == before[id])
    && (forall id :: id in taken && id in before ==>
          after[id] == Row(before[id].data, Processing, before[id].attempts + 1,
                           Some(cfg.instanceId), Some(stamp(id) + cfg.leaseDuration), Some(mint(id)),
                           before[id].nextAttemptAt, before[id].lastError, before[id].publishedAt, before[id].finishedAt))
  }

  lemma CandidatesAreFree(rows: Rows, ordered: bool, now: Time, locked: set<Id>, id: Id)
    ensures id in Candidates(rows, ordered, now) - locked <==> Free(rows, ordered, now, locked, id)
  {
    if id in rows && Free(rows, ordered, now, locked, id) && ordered {
      forall e | e in rows ensures !Blocks(rows[e], rows[id]) { }
    }
    if id in Candidates(rows, ordered, now) - locked && ordered {
      assert forall e :: e in rows ==> !Blocks(rows[e], rows[id]);
    }
  }

  lemma ClaimLeases(cfg: Settings, now: Time, locked: set<Id>, mint: Id -> Token, stamp: Id -> Time, before: Rows, taken: set<Id>)
    requires OldestFirst(before, Candidates(before, cfg.ordered, now) - locked, taken, cfg.batchSize)
    ensures Leased(cfg, now, locked, mint, stamp, before,
                   ClaimRows(before, cfg.instanceId, cfg.leaseDuration, Grants(taken, mint, stamp)), taken)
  {
    PickTakesOldest(cfg, now, locked, before, taken);
  }

  lemma PickTakesOldest(cfg: Settings, now: Time, locked: set<Id>, rows: Rows, taken: set<Id>)
    requires OldestFirst(rows, Candidates(rows, cfg.ordered, now) - locked, taken, cfg.batchSize)
    ensures TakenOldestFirst(cfg, now, locked, rows, taken)
  {
    var from := Candidates(rows, cfg.ordered, now) - locked;
    SubsetSize(taken, from);
    forall p | p in taken ensures Free(rows, cfg.ordered, now, locked, p) {
      CandidatesAreFree(rows, cfg.ordered, now, locked, p);
    }
    forall q | Free(rows, cfg.ordered, now, locked, q) && q !in taken
      ensures |taken| == cfg.batchSize
      ensures forall p :: p in taken ==> NotAfter(rows[p].data, rows[q].data)
    {
      CandidatesAreFree(rows, cfg.ordered, now, locked, q);
      assert q in from - taken;
    }
  }

  predicate NotAfter(a: Envelope, b: Envelope) {
    a.createdAt < b.createdAt || (a.createdAt == b.createdAt && a.seqNo <= b.seqNo)
  }

  /** Distinct sequence numbers make the order strict, so the statement picks one determined set. */
  lemma PickIsDetermined(s: State, from: set<Id>, p1: set<Id>, p2: set<Id>, limit: nat)
    requires SeqsUnique(s)
    requires OldestFirst(s.rows, from, p1, limit) && OldestFirst(s.rows, from, p2, limit)
    ensures p1 == p2
  {
    if p1 <= p2 { SubsetSize(p1, p2); }
    if p2 <= p1 { SubsetSize(p2, p1); }
  }

  function Grants(picked: set<Id>, mint: Id -> Token, stamp: Id -> Time): map<Id, Grant> {
    map id | id in picked :: Grant(mint(id), stamp(id))
  }

  method Oldest(rows: Rows, from: set<Id>) returns (first: Id)
    requires from != {} && from <= rows.Keys
    ensures first in from
    ensures forall q :: q in from ==> !Before(rows[q].data, rows[first].data)
  {
    first :| first in from;
    var todo := from - {first};
    while todo != {}
      invariant todo <= from && first in from
      invariant forall q :: q in from - todo ==> !Before(rows[q].data, rows[first].data)
    {
      var q :| q in todo;
      if Before(rows[q].data, rows[first].data) {
        first := q;
      }
      todo := todo - {q};
    }
  }

  method SelectOldest(rows: Rows, free: set<Id>, limit: nat) returns (picked: set<Id>)
    requires free <= rows.Keys
    ensures OldestFirst(rows, free, picked, limit)
  {
    var left := free;
    picked := {};
    while left != {} && |picked| < limit
      invariant picked + left == free && picked * left == {}
      invariant |picked| <= limit
      invariant forall p, q :: p in picked && q in left ==> !Before(rows[q].data, rows[p].data)
      decreases |left|
    {
      var next := Oldest(rows, left);
      picked, left := picked + {next}, left - {next};
    }
    assert |free| == |picked| + |left|;
    assert free - picked == left;
  }

  /** COALESCE(finished_at, published_at), which an expired row always has. */
  function FinishedAt(r: Row): Time {
    if r.finishedAt.Some? then r.finishedAt.value else if r.publishedAt.Some? then r.publishedAt.value else 0
  }

  /** ORDER BY COALESCE(finished_at, published_at), id. */
  predicate GoesBefore(rows: Rows, a: Id, b: Id)
    requires a in rows && b in rows
  {
    FinishedAt(rows[a]) < FinishedAt(rows[b]) || (FinishedAt(rows[a]) == FinishedAt(rows[b]) && IdLess(a, b))
  }

  lemma GoesBeforeTransitive(rows: Rows, a: Id, b: Id, c: Id)
    requires a in rows && b in rows && c in rows && GoesBefore(rows, a, b) && GoesBefore(rows, b, c)
    ensures GoesBefore(rows, a, c)
  {
    if IdLess(a, b) && IdLess(b, c) { IdLessTransitive(a, b, c); }
  }

  /** `removed` are the first `limit` of the expired rows that are not locked. */
  predicate Deletes(rows: Rows, keep: Retention, limit: nat, now: Time, locked: set<Id>, removed: set<Id>) {
    var free := ExpiredIds(rows, keep, now) - locked;
    && removed <= free
    && |removed| == (if |free| <= limit then |free| else limit)
    && forall p, q :: p in removed && q in free - removed ==> GoesBefore(rows, p, q)
  }

  /** A row whose status has a window, and whose time there is over. */
  predicate Overdue(r: Row, keep: Retention, now: Time) {
    || (r.status == Published && keep.published > 0 && r.publishedAt.Some? && now - r.publishedAt.value > keep.published)
    || (r.status == Dead && keep.dead > 0 && r.finishedAt.Some? && now - r.finishedAt.value > keep.dead)
    || (r.status == Discarded && keep.discarded > 0 && r.finishedAt.Some? && now - r.finishedAt.value > keep.discarded)
  }

  /**
   What a cleanup statement comes to, column by column: of the overdue rows that are
   free it removes as many as the limit allows, first those that finished first.
   */
  ghost predicate Purged(rows: Rows, keep: Retention, limit: nat, now: Time, locked: set<Id>, removed: set<Id>) {
    && |removed| <= limit
    && (forall p :: p in removed ==> p in rows && p !in locked && Overdue(rows[p], keep, now))
    && (forall q :: q in rows && q !in locked && q !in removed && Overdue(rows[q], keep, now) ==> |removed| == limit)
    && (forall p, q :: p in removed && q in rows && q !in locked && q !in removed && Overdue(rows[q], keep, now)
                       && p in rows && rows[p].finishedAt.Some? && rows[q].finishedAt.Some? ==>
          rows[p].finishedAt.value < rows[q].finishedAt.value
          || (rows[p].finishedAt == rows[q].finishedAt && IdLess(p, q)))
  }

  lemma DeletionPurges(rows: Rows, keep: Retention, limit: nat, now: Time, locked: set<Id>, removed: set<Id>)
    requires Deletes(rows, keep, limit, now, locked, removed)
    ensures Purged(rows, keep, limit, now, locked, removed)
  {
    var free := ExpiredIds(rows, keep, now) - locked;
    forall q | q in rows && q !in locked ensures q in free <==> Overdue(rows[q], keep, now) { }
    SubsetSize(removed, free);
    forall p, q | p in removed && q in rows && q !in locked && q !in removed && Overdue(rows[q], keep, now)
                  && p in rows && rows[p].finishedAt.Some? && rows[q].finishedAt.Some?
      ensures rows[p].finishedAt.value < rows[q].finishedAt.value
              || (rows[p].finishedAt == rows[q].finishedAt && IdLess(p, q))
    {
      assert q in free - removed && GoesBefore(rows, p, q);
    }
  }

  /** The order is strict and total, so one set of rows is determined. */
  lemma DeletionIsDetermined(rows: Rows, keep: Retention, limit: nat, now: Time, locked: set<Id>,
                             r1: set<Id>, r2: set<Id>)
    requires Deletes(rows, keep, limit, now, locked, r1) && Deletes(rows, keep, limit, now, locked, r2)
    ensures r1 == r2
  {
    if r1 <= r2 {
      SubsetSize(r1, r2);
    } else if r2 <= r1 {
      SubsetSize(r2, r1);
    } else {
      var a :| a in r1 && a !in r2;
      var b :| b in r2 && b !in r1;
      assert GoesBefore(rows, a, b) && GoesBefore(rows, b, a);
      GoesBeforeTransitive(rows, a, b, a);
      IdLessIrreflexive(a);
    }
  }

  lemma {:induction false} IdLessIrreflexive(a: Id)
    ensures !IdLess(a, a)
  {
    if a != "" { IdLessIrreflexive(a[1..]); }
  }

  method FirstFinished(rows: Rows, from: set<Id>) returns (first: Id)
    requires from != {} && from <= rows.Keys
    ensures first in from
    ensures forall q :: q in from - {first} ==> GoesBefore(rows, first, q)
  {
    first :| first in from;
    var todo := from - {first};
    while todo != {}
      invariant todo <= from - {first} && first in from
      invariant forall q :: q in from - todo - {first} ==> GoesBefore(rows, first, q)
    {
      var q :| q in todo;
      if !GoesBefore(rows, first, q) {
        NotBeforeIsAfter(rows, first, q);
        forall p | p in from - todo - {first} ensures GoesBefore(rows, q, p) {
          GoesBeforeTransitive(rows, q, first, p);
        }
        first := q;
      }
      todo := todo - {q};
    }
  }

  lemma NotBeforeIsAfter(rows: Rows, a: Id, b: Id)
    requires a in rows && b in rows && a != b && !GoesBefore(rows, a, b)
    ensures GoesBefore(rows, b, a)
  {
    if !IdLess(a, b) && !IdLess(b, a) { IdLessTotal(a, b); }
  }

  method SelectFinished(rows: Rows, free: set<Id>, limit: nat) returns (picked: set<Id>)
    requires free <= rows.Keys
    ensures picked <= free && |picked| == (if |free| <= limit then |free| else limit)
    ensures forall p, q :: p in picked && q in free - picked ==> GoesBefore(rows, p, q)
  {
    var left := free;
    picked := {};
    while left != {} && |picked| < limit
      invariant picked + left == free && picked * left == {}
      invariant |picked| <= limit
      invariant forall p, q :: p in picked && q in left ==> GoesBefore(rows, p, q)
      decreases |left|
    {
      var next := FirstFinished(rows, left);
      picked, left := picked + {next}, left - {next};
    }
    assert |free| == |picked| + |left|;
    assert free - picked == left;
  }

  /** One row of the VALUES list: COALESCE, NULLs for empty strings, column defaults. */
  function ToInsert(m: Message, generated: Id, txStart: Time, seqNo: nat): Insert {
    Insert(if m.id == "" then generated else m.id,
           Envelope(m.topic, NullIfEmpty(m.partitionKey), m.payload,
                    if m.headers.Some? then m.headers.value else map[],
                    NullIfEmpty(m.contentType), NullIfEmpty(m.messageType),
                    m.maxAttempts, txStart, seqNo))
  }

  /** The id a message is stored under. */
  function StoredId(msgs: seq<Message>, generate: nat -> Id, i: nat): Id
    requires i < |msgs|
  {
    if msgs[i].id == "" then generate(i) else msgs[i].id
  }

  /** The row that a message is stored as, column by column. */
  predicate StoredAs(r: Row, m: Message, txStart: Time, seqNo: nat) {
    && r.data.topic == m.topic && r.data.payload == m.payload && r.data.maxAttempts == m.maxAttempts
    && r.data.partitionKey == (if m.partitionKey == "" then None else Some(m.partitionKey))
    && r.data.contentType == (if m.contentType == "" then None else Some(m.contentType))
    && r.data.messageType == (if m.messageType == "" then None else Some(m.messageType))
    && r.data.headers == (if m.headers.None? then map[] else m.headers.value)
    && r.data.createdAt == txStart && r.data.seqNo == seqNo
    && r.status == Pending && r.attempts == 0 && r.nextAttemptAt == txStart
    && r.lockedBy == None && r.lockedUntil == None && r.leaseToken == None
    && r.lastError == None && r.publishedAt == None && r.finishedAt == None
  }

  /** Every message whose id is new, there and in the batch, is stored, and nothing else happens. */
  ghost predicate AllStored(before: Rows, after: Rows, msgs: seq<Message>, generate: nat -> Id, txStart: Time, nextval: nat -> nat) {
    && (forall id :: id in before ==> id in after && after[id] == before[id])
    && (forall id :: id in after && id !in before ==> exists i :: 0 <= i < |msgs| && StoredId(msgs, generate, i) == id)
    && (forall i :: 0 <= i < |msgs| && StoredId(msgs, generate, i) !in before
                    && (forall j :: 0 <= j < i ==> StoredId(msgs, generate, j) != StoredId(msgs, generate, i)) ==>
          && StoredId(msgs, generate, i) in after
          && StoredAs(after[StoredId(msgs, generate, i)], msgs[i], txStart, nextval(i)))
  }

  lemma InsertStoresAll(before: Rows, msgs: seq<Message>, generate: nat -> Id, txStart: Time, nextval: nat -> nat, items: seq<Insert>)
    requires |items| == |msgs|
    requires forall i :: 0 <= i < |msgs| ==> items[i] == ToInsert(msgs[i], generate(i), txStart, nextval(i))
    ensures AllStored(before, InsertAll(before, items), msgs, generate, txStart, nextval)
  {
    var after := InsertAll(before, items);
    forall i | 0 <= i < |msgs| ensures items[i].id == StoredId(msgs, generate, i) { }
    forall id ensures id in before ==> id in after && after[id] == before[id]
              ensures id in after && id !in before ==> exists i :: 0 <= i < |msgs| && StoredId(msgs, generate, i) == id
    {
      InsertKeepsFirst(before, items, id);
      if id in after && id !in before { assert StoredId(msgs, generate, FirstIndex(items, id)) == id; }
    }
    forall i | 0 <= i < |msgs| && StoredId(msgs, generate, i) !in before
               && (forall j :: 0 <= j < i ==> StoredId(msgs, generate, j) != StoredId(msgs, generate, i))
      ensures StoredId(msgs, generate, i) in after
      ensures StoredAs(after[StoredId(msgs, generate, i)], msgs[i], txStart, nextval(i))
    {
      var id := StoredId(msgs, generate, i);
      InsertKeepsFirst(before, items, id);
      assert FirstIndex(items, id) == i;
    }
  }

  class Store {
    var rows: Rows

    constructor ()
      ensures rows == map[]
    {
      rows := map[];
    }

    /** Store.Enqueue: one INSERT of all messages, skipping ids already present; none for an empty list. */
    method Enqueue(msgs: seq<Message>, generate: nat -> Id, txStart: Time, nextval: nat -> nat, reply: Reply)
      returns (err: Option<Err>, ghost items: seq<Insert>)
      modifies this
      ensures |items| == |msgs|
      ensures forall i :: 0 <= i < |msgs| ==> items[i] == ToInsert(msgs[i], generate(i), txStart, nextval(i))
      ensures rows == if msgs == [] || reply.Refused? then old(rows) else InsertAll(old(rows), items)
      ensures msgs != [] && !reply.Refused? ==> AllStored(old(rows), rows, msgs, generate, txStart, nextval)
      ensures err == if msgs == [] || reply.Answered? then None else Some(reply.err)
    {
      if |msgs| == 0 {
        return None, [];
      }
      var values: seq<Insert> := [];
      var i := 0;
      while i < |msgs|
        invariant i <= |msgs| && |values| == i
        invariant forall j :: 0 <= j < i ==> values[j] == ToInsert(msgs[j], generate(j), txStart, nextval(j))
      {
        values := values + [ToInsert(msgs[i], generate(i), txStart, nextval(i))];
        i := i + 1;
      }
      items := values;
      if reply.Refused? {
        return Some(reply.err), items;
      }
      InsertStoresAll(rows, msgs, generate, txStart, nextval, items);
      InsertMissing(values);
      err := if reply.Lost? then Some(reply.err) else None;
    }

    /** INSERT ... ON CONFLICT (id) DO NOTHING, row by row. */
    method InsertMissing(values: seq<Insert>)
      modifies this
      ensures rows == InsertAll(old(rows), values)
    {
      var i := 0;
      while i < |values|
        invariant i <= |values| && rows == InsertAll(old(rows), values[..i])
      {
        if values[i].id !in rows {
          rows := rows[values[i].id := NewRow(values[i].data)];
        }
        assert values[..i + 1][..i] == values[..i];
        i := i + 1;
      }
      assert values[..i] == values;
    }

    /**
     Store.claim. `locked` are the rows other transactions hold locked, `mint` and
     `stamp` what gen_random_uuid() and clock_timestamp() return for each row.
     Returned in no particular order.
     */
    method Claim(cfg: Settings, now: Time, locked: set<Id>, mint: Id -> Token, stamp: Id -> Time)
      returns (msgs: seq<Claimed>)
      modifies this
      ensures DistinctIds(msgs)
      ensures OldestFirst(old(rows), Candidates(old(rows), cfg.ordered, now) - locked, Ids(msgs), cfg.batchSize)
      ensures rows == ClaimRows(old(rows), cfg.instanceId, cfg.leaseDuration, Grants(Ids(msgs), mint, stamp))
      ensures Leased(cfg, now, locked, mint, stamp, old(rows), rows, Ids(msgs))
      ensures forall i :: 0 <= i < |msgs| ==> msgs[i].id in rows && msgs[i].row == rows[msgs[i].id]
    {
      var picked := SelectOldest(rows, Candidates(rows, cfg.ordered, now) - locked, cfg.batchSize);
      ClaimLeases(cfg, now, locked, mint, stamp, rows, picked);
      rows := ClaimRows(rows, cfg.instanceId, cfg.leaseDuration, Grants(picked, mint, stamp));
      msgs := Snapshots(picked);
    }

    /** RETURNING: a snapshot of each named row. */
    method Snapshots(ids: set<Id>) returns (msgs: seq<Claimed>)
      requires ids <= rows.Keys
      ensures DistinctIds(msgs) && Ids(msgs) == ids
      ensures forall i :: 0 <= i < |msgs| ==> msgs[i].id in rows && msgs[i].row == rows[msgs[i].id]
    {
      msgs := [];
      var todo := ids;
      while todo != {}
        invariant todo <= ids && DistinctIds(msgs) && Ids(msgs) == ids - todo
        invariant forall i :: 0 <= i < |msgs| ==> msgs[i].id in rows && msgs[i].row == rows[msgs[i].id]
      {
        var id :| id in todo;
        ghost var before := msgs;
        assert forall i :: 0 <= i < |msgs| ==> msgs[i].id in Ids(msgs);
        msgs := msgs + [Claimed(id, rows[id])];
        todo := todo - {id};
        IdsAppend(before, Claimed(id, rows[id]));
      }
    }

    /**
     Store.renew: extends the live claims among `msgs`, also when some are gone,
     and reports loss exactly when one is.
     */
    method Renew(msgs: seq<Claimed>, lease: Duration, clock: Clock, reply: Reply) returns (err: Option<Err>)
      requires DistinctIds(msgs)
      modifies this
      ensures rows == if reply.Refused? then old(rows) else RenewRows(old(rows), Keys(msgs), lease, clock)
      ensures !reply.Refused? ==> Extended(msgs, lease, clock, old(rows), rows)
      ensures err.None? <==> reply.Answered? && forall i :: 0 <= i < |msgs| ==> Owned(old(rows), msgs[i], clock)
      ensures (forall i :: 0 <= i < |msgs| ==> msgs[i].row.leaseToken.Some?) ==>
                (err.None? <==> reply.Answered? && forall i :: 0 <= i < |msgs| ==>
                   msgs[i].id in old(rows) && HoldsClaim(old(rows)[msgs[i].id], msgs[i], clock(msgs[i].id).seen))
      ensures err.Some? ==> err.value == if reply.Answered? then LeaseLost else reply.err
    {
      if reply.Refused? {
        return Some(reply.err);
      }
      var affected := |Hits(rows, Keys(msgs), clock)|;
      CountTellsLoss(rows, msgs, clock);
      RenewExtends(msgs, lease, clock, rows);
      rows := RenewRows(rows, Keys(msgs), lease, clock);
      if reply.Lost? {
        return Some(reply.err);
      }
      err := if affected != |msgs| then Some(LeaseLost) else None;
    }

    /** Store.finish: settles the live claims among `msgs` and returns the rows it changed. */
    method Finish(msgs: seq<Claimed>, c: Completion, clear: bool, clock: Clock, reply: Reply)
      returns (completed: seq<Claimed>, err: Option<Err>)
      requires DistinctIds(msgs)
      modifies this
      ensures rows == if msgs == [] || reply.Refused? then old(rows)
                      else FinishRows(old(rows), Keys(msgs), c, clear, clock)
      ensures !reply.Refused? ==> Settled(msgs, c, clear, clock, old(rows), rows)
      ensures err.None? <==> msgs == [] || reply.Answered?
      ensures err.Some? ==> err == Some(reply.err)
      ensures err.None? ==> DistinctIds(completed) && Ids(completed) == Hits(old(rows), Keys(msgs), clock)
      ensures err.None? ==> Ids(completed) <= Ids(msgs)
      ensures err.None? ==> forall i :: 0 <= i < |msgs| && msgs[i].row.leaseToken.Some? ==>
                (msgs[i].id in Ids(completed) <==>
                 msgs[i].id in old(rows) && HoldsClaim(old(rows)[msgs[i].id], msgs[i], clock(msgs[i].id).seen))
      ensures err.None? ==> forall i :: 0 <= i < |completed| ==>
                completed[i].id in rows && completed[i].row == rows[completed[i].id]
    {
      FinishSettles(msgs, c, clear, clock, rows);
      HitsAreHeld(rows, msgs, clock);
      if |msgs| == 0 {
        return [], None;
      }
      if reply.Refused? {
        return [], Some(reply.err);
      }
      var hits := Hits(rows, Keys(msgs), clock);
      rows := FinishRows(rows, Keys(msgs), c, clear, clock);
      if reply.Lost? {
        return [], Some(reply.err);
      }
      completed := Snapshots(hits);
      err := None;
    }

    /** Store.Requeue: starts a dead row over, with its message, and touches nothing else. */
    method Requeue(id: Id, at: Time, reply: Reply) returns (changed: bool, err: Option<Err>)
      modifies this
      ensures err == if reply.Answered? then None else Some(reply.err)
      ensures changed <==> reply.Answered? && id in old(rows) && old(rows)[id].status == Dead
      ensures reply.Refused? || id !in old(rows) || old(rows)[id].status != Dead ==> rows == old(rows)
      ensures !reply.Refused? && id in old(rows) && old(rows)[id].status == Dead ==>
                rows == old(rows)[id := Row(old(rows)[id].data, Pending, 0, None, None, None, at, None, None, None)]
    {
      if reply.Refused? {
        return false, Some(reply.err);
      }
      changed := id in rows && rows[id].status == Dead;
      rows := RequeueRows(rows, id, at);
      if reply.Lost? {
        return false, Some(reply.err);
      }
      err := None;
    }

    /** Store.cleanup: deletes up to `limit` expired rows, skipping those others hold locked. */
    method Cleanup(keep: Retention, limit: nat, now: Time, locked: set<Id>)
      returns (n: nat, ghost removed: set<Id>)
      modifies this
      ensures Deletes(old(rows), keep, limit, now, locked, removed)
      ensures Purged(old(rows), keep, limit, now, locked, removed)
      ensures rows == old(rows) - removed
      ensures n == |removed|
    {
      var gone := SelectFinished(rows, ExpiredIds(rows, keep, now) - locked, limit);
      DeletionPurges(rows, keep, limit, now, locked, gone);
      rows := rows - gone;
      n, removed := |gone|, gone;
    }
  }

  lemma IdsAppend(msgs: seq<Claimed>, m: Claimed)
    ensures Ids(msgs + [m]) == Ids(msgs) + {m.id}
  {
    var longer := msgs + [m];
    forall id | id in Ids(msgs) ensures id in Ids(longer) {
      var i :| 0 <= i < |msgs| && msgs[i].id == id;
      assert longer[i].id == id;
    }
    assert longer[|msgs|].id == m.id;
  }
}
