/** The outbox table: one row per message (message/message.go, migrations/). */
module Messages {

  type Id = string
  type Token = string
  type Time = int      // an instant of the database clock
  type Duration = int
  type Bytes = string  // opaque payload

  datatype Option<+T> = None | Some(value: T)

  datatype Status = Pending | Processing | Published | Dead | Discarded

  /** What the producer wrote, plus the two columns that order a key. */
  datatype Envelope = Envelope(
    topic: string,
    partitionKey: Option<string>,
    payload: Bytes,
    headers: map<string, string>,
    contentType: Option<string>,
    messageType: Option<string>,
    maxAttempts: Option<int>,
    createdAt: Time,
    seqNo: nat)

  datatype Row = Row(
    data: Envelope,
    status: Status,
    attempts: int,
    lockedBy: Option<string>,
    lockedUntil: Option<Time>,
    leaseToken: Option<Token>,
    nextAttemptAt: Time,
    lastError: Option<string>,
    publishedAt: Option<Time>,
    finishedAt: Option<Time>)

  type Rows = map<Id, Row>

  /** `published` and `discarded`: the states that let a key's next row through. */
  predicate Resolved(s: Status) {
    s == Published || s == Discarded
  }

  predicate Terminal(s: Status) {
    Resolved(s) || s == Dead
  }

  /** `(created_at, seq)` row comparison. */
  predicate Before(a: Envelope, b: Envelope) {
    a.createdAt < b.createdAt || (a.createdAt == b.createdAt && a.seqNo < b.seqNo)
  }

  /** Both rows carry the same partition key; NULL equals nothing. */
  predicate SameKey(a: Envelope, b: Envelope) {
    a.partitionKey.Some? && a.partitionKey == b.partitionKey
  }

  /** The attempt limit that applies to a row: its own, else the relay's. */
  function EffectiveMax(data: Envelope, relayMax: int): int {
    if data.maxAttempts.Some? then data.maxAttempts.value else relayMax
  }

  function Max(a: int, b: int): int {
    if a < b then b else a
  }

  function NullIfEmpty(s: string): Option<string> {
    if s == "" then None else Some(s)
  }

  /** Order of ids: that of their bytes, which for canonical UUIDs is that of their text. */
  predicate IdLess(a: Id, b: Id) {
    b != "" && (a == "" || a[0] < b[0] || (a[0] == b[0] && IdLess(a[1..], b[1..])))
  }

  lemma {:induction false} IdLessTransitive(a: Id, b: Id, c: Id)
    requires IdLess(a, b) && IdLess(b, c)
    ensures IdLess(a, c)
  {
    if a != "" && a[0] == b[0] == c[0] { IdLessTransitive(a[1..], b[1..], c[1..]); }
  }

  lemma {:induction false} IdLessTotal(a: Id, b: Id)
    requires !IdLess(a, b) && !IdLess(b, a)
    ensures a == b
  {
    if a != "" {
      IdLessTotal(a[1..], b[1..]);
      assert a == [a[0]] + a[1..] && b == [b[0]] + b[1..];
    }
  }

  /** The order of text: the first character that differs decides, and a proper prefix comes first. */
  lemma {:induction false} IdLessIsLexicographic(a: Id, b: Id)
    ensures IdLess(a, b) <==>
            exists k :: 0 <= k <= |a| && k < |b| && a[..k] == b[..k] && (k == |a| || a[k] < b[k])
  {
    forall k | 0 < k <= |a| && k < |b| && a[..k] == b[..k] ensures a[0] == b[0] {
      assert a[0] == a[..k][0] && b[0] == b[..k][0];
    }
    if a != "" && b != "" && a[0] == b[0] {
      var c, d := a[1..], b[1..];
      IdLessIsLexicographic(c, d);
      if k :| 0 <= k <= |c| && k < |d| && c[..k] == d[..k] && (k == |c| || c[k] < d[k]) {
        assert a[..k + 1] == [a[0]] + c[..k] && b[..k + 1] == [b[0]] + d[..k];
      }
      if k :| 0 <= k <= |a| && k < |b| && a[..k] == b[..k] && (k == |a| || a[k] < b[k]) {
        assert k > 0;
        assert c[..k - 1] == a[..k][1..] && d[..k - 1] == b[..k][1..];
      }
    } else if b != "" && (a == "" || a[0] < b[0]) {
      assert a[..0] == b[..0];
    }
  }
}
