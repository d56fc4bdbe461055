/**
 The table as a state machine. A run interleaves the statements of any number
 of producers, relays, operators and cleaners; a worker that crashes, stalls or
 is cancelled simply takes no further step.

 Statements take effect one at a time (row locks, commit order), except that a
 claim evaluates its NOT EXISTS guard on the snapshot it read, which may be any
 earlier state of the run; only the candidate rows are locked and re-checked.
 */
module Protocol {
  import opened Messages
  import opened Statements

  datatype State = State(rows: Rows, clock: Time, issued: set<Token>, seqs: set<nat>)

  datatype Step =
    | Enqueue(items: seq<Insert>, txStart: Time)
    | Claim(snapshot: nat, owner: string, lease: Duration, limit: nat, ordered: bool,
            now: Time, grants: map<Id, Grant>)
    | Renew(keys: set<Key>, lease: Duration, now: Time, clock: Clock)
    | Finish(keys: set<Key>, result: Completion, clear: bool, now: Time, clock: Clock)
    | Requeue(id: Id, at: Time)
    | Cleanup(keep: Retention, limit: nat, now: Time, removed: set<Id>)
    | Tick

  datatype Run = Run(states: seq<State>, steps: seq<Step>)

  // ---- assumptions on the database ---------------------------------------

  /** `gen_random_uuid()` never repeats a lease token. */
  predicate FreshTokens(issued: set<Token>, grants: map<Id, Grant>) {
    && (forall id :: id in grants ==> grants[id].token !in issued)
    && (forall a, b :: a in grants && b in grants && a != b ==> grants[a].token != grants[b].token)
  }

  /** `bigserial` never repeats a value, and counts up within one statement. */
  predicate FreshSeqs(seqs: set<nat>, items: seq<Insert>) {
    && (forall i :: 0 <= i < |items| ==> items[i].data.seqNo !in seqs)
    && (forall i, j :: 0 <= i < j < |items| ==> items[i].data.seqNo < items[j].data.seqNo)
  }

  /** A statement that starts at `now` reads the clock from then on, until it commits at `commit`. */
  predicate ClockOk(clock: Clock, ids: set<Id>, now: Time, commit: Time) {
    forall id :: id in ids ==> now <= clock(id).seen <= clock(id).stamped <= commit
  }

  // ---- steps ---------------------------------------------------------------

  /** Row `id` may be claimed: re-checked on the current table, guarded on the snapshot. */
  predicate Grantable(snap: Rows, rows: Rows, ordered: bool, now: Time, id: Id) {
    && id in rows && Claimable(rows[id], now)
    && id in snap && snap[id].data.seqNo == rows[id].data.seqNo
    && (ordered ==> Unblocked(snap, rows[id]))
  }

  function Tokens(grants: map<Id, Grant>): set<Token> {
    set id | id in grants :: grants[id].token
  }

  function Seqs(items: seq<Insert>): set<nat> {
    set i | 0 <= i < |items| :: items[i].data.seqNo
  }

  /** A relay sends a row back to pending only below its attempt limit (Relay.Settle). */
  predicate RetryAllowed(rows: Rows, hits: set<Id>, relayMax: int) {
    forall id :: id in hits && id in rows ==>
      rows[id].attempts < EffectiveMax(rows[id].data, relayMax)
  }

  /** What a statement needs of the database it meets and of the time it commits at. */
  ghost predicate Enabled(snap: Rows, s: State, step: Step, commit: Time, relayMax: int) {
    match step
    case Enqueue(items, txStart) =>
      && txStart <= commit
      && (forall i :: 0 <= i < |items| ==> items[i].data.createdAt == txStart)
      && FreshSeqs(s.seqs, items)
    case Claim(_, owner, lease, limit, ordered, now, grants) =>
      && lease > 0
      && |grants| <= limit
      && (forall id :: id in grants ==> Grantable(snap, s.rows, ordered, now, id))
      && (forall id :: id in grants ==> now <= grants[id].stamped <= commit)
      && FreshTokens(s.issued, grants)
    case Renew(keys, lease, now, clock) =>
      lease > 0 && ClockOk(clock, s.rows.Keys, now, commit)
    case Finish(keys, result, clear, now, clock) =>
      && result.status != Processing
      && result.delay >= 0
      && ClockOk(clock, s.rows.Keys, now, commit)
      && (result.status == Pending ==> RetryAllowed(s.rows, Hits(s.rows, keys, clock), relayMax))
    case Requeue(id, at) =>
      at <= commit
    case Cleanup(keep, limit, now, removed) =>
      now <= commit && |removed| <= limit && removed <= ExpiredIds(s.rows, keep, now)
    case Tick =>
      true
  }

  /** What a statement does to the table. */
  function Effect(rows: Rows, step: Step): Rows {
    match step
    case Enqueue(items, _) => InsertAll(rows, items)
    case Claim(_, owner, lease, _, _, _, grants) => ClaimRows(rows, owner, lease, grants)
    case Renew(keys, lease, _, clock) => RenewRows(rows, keys, lease, clock)
    case Finish(keys, result, clear, _, clock) => FinishRows(rows, keys, result, clear, clock)
    case Requeue(id, at) => RequeueRows(rows, id, at)
    case Cleanup(_, _, _, removed) => rows - removed
    case Tick => rows
  }

  ghost predicate Next(snap: Rows, s: State, step: Step, t: State, relayMax: int) {
    && s.clock <= t.clock
    && Enabled(snap, s, step, t.clock, relayMax)
    && t.rows == Effect(s.rows, step)
    && t.issued == s.issued + (if step.Claim? then Tokens(step.grants) else {})
    && t.seqs == s.seqs + (if step.Enqueue? then Seqs(step.items) else {})
  }

  /** `Effect` seen from one surviving row. */
  predicate RowEffect(rows: Rows, step: Step, id: Id, after: Row) {
    match step
    case Enqueue(items, _) =>
      if id in rows then after == rows[id]
      else FirstIndex(items, id) < |items| && after == NewRow(items[FirstIndex(items, id)].data)
    case Claim(_, owner, lease, _, _, _, grants) =>
      && id in rows
      && after == (if id in grants
                   then ClaimRow(rows[id], owner, grants[id].token, grants[id].stamped + lease)
                   else rows[id])
    case Renew(keys, lease, _, clock) =>
      && id in rows
      && after == (if Live(rows[id], id, keys, clock(id).seen)
                   then rows[id].(lockedUntil := Some(clock(id).stamped + lease))
                   else rows[id])
    case Finish(keys, result, clear, _, clock) =>
      && id in rows
      && after == (if Live(rows[id], id, keys, clock(id).seen)
                   then FinishRow(rows[id], result, clear, clock(id).stamped)
                   else rows[id])
    case Requeue(who, at) =>
      && id in rows
      && after == (if id == who && rows[id].status == Dead then RequeueRow(rows[id], at) else rows[id])
    case Cleanup(_, _, _, removed) =>
      id in rows && id !in removed && after == rows[id]
    case Tick =>
      id in rows && after == rows[id]
  }

  lemma EffectOnRow(rows: Rows, step: Step, id: Id)
    requires id in Effect(rows, step)
    ensures RowEffect(rows, step, id, Effect(rows, step)[id])
  {
    if step.Enqueue? { InsertKeepsFirst(rows, step.items, id); }
  }

  // ---- runs ------------------------------------------------------------------

  /** The snapshot that step `i` reads. */
  function Seen(run: Run, i: nat): Rows
    requires i < |run.steps| && i < |run.states|
  {
    var step := run.steps[i];
    if step.Claim? && step.snapshot <= i then run.states[step.snapshot].rows else run.states[i].rows
  }

  ghost predicate StepOk(run: Run, i: nat, relayMax: int)
    requires i < |run.steps| && |run.states| == |run.steps| + 1
  {
    && (run.steps[i].Claim? ==> run.steps[i].snapshot <= i)
    && Next(Seen(run, i), run.states[i], run.steps[i], run.states[i + 1], relayMax)
  }

  /** A run from an empty table, with the bound config.Resolve guarantees. */
  ghost predicate ValidRun(run: Run, relayMax: int) {
    && relayMax >= 1
    && |run.states| == |run.steps| + 1
    && run.states[0].rows == map[]
    && forall i :: 0 <= i < |run.steps| ==> StepOk(run, i, relayMax)
  }

  // ---- what every reachable state looks like -----------------------------------

  /** Which columns are set in which status. */
  predicate Shape(r: Row, clock: Time) {
    && (r.status == Processing <==> r.leaseToken.Some?)
    && (r.status == Processing <==> r.lockedBy.Some?)
    && (r.status == Processing <==> r.lockedUntil.Some?)
    && (Terminal(r.status) <==> r.finishedAt.Some?)
    && (r.status == Published <==> r.publishedAt.Some?)
    && (r.status == Processing ==> r.nextAttemptAt <= clock)
    && r.attempts >= 0
  }

  predicate TokensUnique(s: State) {
    && (forall a :: a in s.rows && s.rows[a].leaseToken.Some? ==> s.rows[a].leaseToken.value in s.issued)
    && (forall a, b :: a in s.rows && b in s.rows && a != b && s.rows[a].leaseToken.Some? ==>
          s.rows[a].leaseToken != s.rows[b].leaseToken)
  }

  predicate SeqsUnique(s: State) {
    && (forall a :: a in s.rows ==> s.rows[a].data.seqNo in s.seqs)
    && (forall a, b :: a in s.rows && b in s.rows && a != b ==>
          s.rows[a].data.seqNo != s.rows[b].data.seqNo)
  }

  predicate Inv(s: State) {
    && (forall id :: id in s.rows ==> Shape(s.rows[id], s.clock))
    && TokensUnique(s)
    && SeqsUnique(s)
  }

  lemma NextKeepsShape(snap: Rows, s: State, step: Step, t: State, relayMax: int, id: Id)
    requires Next(snap, s, step, t, relayMax) && id in t.rows
    requires id in s.rows ==> Shape(s.rows[id], s.clock)
    ensures Shape(t.rows[id], t.clock)
  {
    EffectOnRow(s.rows, step, id);
    if step.Claim? && id in step.grants { assert Grantable(snap, s.rows, step.ordered, step.now, id); }
  }

  /** A row's token either stayed where it was or was granted to it by this very step. */
  lemma TokenOrigin(snap: Rows, s: State, step: Step, t: State, relayMax: int, id: Id)
    requires Next(snap, s, step, t, relayMax) && id in t.rows && t.rows[id].leaseToken.Some?
    ensures id in s.rows
    ensures if step.Claim? && id in step.grants
            then t.rows[id].leaseToken == Some(step.grants[id].token)
            else t.rows[id].leaseToken == s.rows[id].leaseToken
  {
    EffectOnRow(s.rows, step, id);
  }

  lemma NextKeepsTokens(snap: Rows, s: State, step: Step, t: State, relayMax: int)
    requires TokensUnique(s) && Next(snap, s, step, t, relayMax)
    ensures TokensUnique(t)
  {
    forall a | a in t.rows && t.rows[a].leaseToken.Some?
      ensures t.rows[a].leaseToken.value in t.issued
    {
      TokenOrigin(snap, s, step, t, relayMax, a);
      if step.Claim? && a in step.grants { assert step.grants[a].token in Tokens(step.grants); }
    }
    forall a, b | a in t.rows && b in t.rows && a != b && t.rows[a].leaseToken.Some?
      ensures t.rows[a].leaseToken != t.rows[b].leaseToken
    {
      TokenOrigin(snap, s, step, t, relayMax, a);
      if t.rows[b].leaseToken.Some? { TokenOrigin(snap, s, step, t, relayMax, b); }
    }
  }

  /** A row's sequence number either stayed where it was or was drawn by this very insert. */
  lemma SeqOrigin(snap: Rows, s: State, step: Step, t: State, relayMax: int, id: Id)
    requires Next(snap, s, step, t, relayMax) && id in t.rows
    ensures id in s.rows ==> t.rows[id].data.seqNo == s.rows[id].data.seqNo
    ensures id !in s.rows ==>
      && step.Enqueue? && FirstIndex(step.items, id) < |step.items|
      && t.rows[id] == NewRow(step.items[FirstIndex(step.items, id)].data)
      && t.rows[id].data.seqNo in t.seqs && t.rows[id].data.seqNo !in s.seqs
  {
    EffectOnRow(s.rows, step, id);
    if id !in s.rows {
      assert step.items[FirstIndex(step.items, id)].data.seqNo in Seqs(step.items);
    }
  }

  lemma NextKeepsSeqs(snap: Rows, s: State, step: Step, t: State, relayMax: int)
    requires SeqsUnique(s) && Next(snap, s, step, t, relayMax)
    ensures SeqsUnique(t)
  {
    forall a | a in t.rows ensures t.rows[a].data.seqNo in t.seqs {
      SeqOrigin(snap, s, step, t, relayMax, a);
    }
    forall a, b | a in t.rows && b in t.rows && a != b
      ensures t.rows[a].data.seqNo != t.rows[b].data.seqNo
    {
      SeqOrigin(snap, s, step, t, relayMax, a);
      SeqOrigin(snap, s, step, t, relayMax, b);
    }
  }

  /** Every reachable state satisfies the row-shape, token and sequence invariants. */
  lemma {:induction false} ReachableInv(run: Run, relayMax: int, i: nat)
    requires ValidRun(run, relayMax) && i < |run.states|
    ensures Inv(run.states[i])
  {
    if i > 0 {
      ReachableInv(run, relayMax, i - 1);
      assert StepOk(run, i - 1, relayMax);
      var s, step, t := run.states[i - 1], run.steps[i - 1], run.states[i];
      forall id | id in t.rows ensures Shape(t.rows[id], t.clock) {
        NextKeepsShape(Seen(run, i - 1), s, step, t, relayMax, id);
      }
      NextKeepsTokens(Seen(run, i - 1), s, step, t, relayMax);
      NextKeepsSeqs(Seen(run, i - 1), s, step, t, relayMax);
    }
  }
}
