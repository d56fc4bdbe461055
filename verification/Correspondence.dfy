/**
 The statements that Store and Relay issue are steps of the protocol, so whatever
 holds of every run holds of them, among any other workers.
 */
module Correspondence {
  import opened Messages
  import opened Statements
  import opened Protocol
  import opened Evolution
  import opened Fencing
  import opened Stores
  import opened Settlement

  /** The claim method takes the protocol's claim step, on a snapshot that is current. */
  lemma ClaimIsAStep(s: State, t: State, cfg: Settings, now: Time, locked: set<Id>,
                     grants: map<Id, Grant>, at: nat)
    requires cfg.leaseDuration > 0 && s.clock <= t.clock && FreshTokens(s.issued, grants)
    requires OldestFirst(s.rows, Candidates(s.rows, cfg.ordered, now) - locked, grants.Keys, cfg.batchSize)
    requires forall id :: id in grants ==> now <= grants[id].stamped <= t.clock
    requires t == State(ClaimRows(s.rows, cfg.instanceId, cfg.leaseDuration, grants), t.clock,
                        s.issued + Tokens(grants), s.seqs)
    ensures Next(s.rows, s, Protocol.Claim(at, cfg.instanceId, cfg.leaseDuration, cfg.batchSize, cfg.ordered,
                                           now, grants), t, cfg.maxAttempts)
  {
    PickedAreGrantable(s.rows, cfg, now, locked, grants);
    GrantedIsEnabled(s, t.clock, cfg, now, grants, at);
  }

  lemma GrantedIsEnabled(s: State, commit: Time, cfg: Settings, now: Time, grants: map<Id, Grant>, at: nat)
    requires cfg.leaseDuration > 0 && FreshTokens(s.issued, grants)
    requires |grants| <= cfg.batchSize
    requires forall id :: id in grants ==> Grantable(s.rows, s.rows, cfg.ordered, now, id)
    requires forall id :: id in grants ==> now <= grants[id].stamped <= commit
    ensures Enabled(s.rows, s, Protocol.Claim(at, cfg.instanceId, cfg.leaseDuration, cfg.batchSize, cfg.ordered,
                                              now, grants), commit, cfg.maxAttempts)
  {
  }

  lemma PickedAreGrantable(rows: Rows, cfg: Settings, now: Time, locked: set<Id>, grants: map<Id, Grant>)
    requires OldestFirst(rows, Candidates(rows, cfg.ordered, now) - locked, grants.Keys, cfg.batchSize)
    ensures |grants| <= cfg.batchSize
    ensures forall id :: id in grants ==> Grantable(rows, rows, cfg.ordered, now, id)
  {
    assert |grants| == |grants.Keys|;
    forall id | id in grants ensures Grantable(rows, rows, cfg.ordered, now, id) {
      assert id in Candidates(rows, cfg.ordered, now);
    }
  }

  /** `m` is the copy that some claim before state `j` handed to its relay. */
  ghost predicate ClaimedBefore(run: Run, j: nat, m: Claimed) {
    m.row.leaseToken.Some? &&
    exists k :: k < j && GrantedAt(run, k, m.id, KeyOf(m).token) && k + 1 < |run.states|
                && m.id in run.states[k + 1].rows && m.row == run.states[k + 1].rows[m.id]
  }

  /** As long as a row carries its claim's token, the relay's copy of it is exact but for the deadline. */
  lemma CopyIsCurrent(run: Run, relayMax: int, j: nat, m: Claimed)
    requires ValidRun(run, relayMax) && j < |run.states| && ClaimedBefore(run, j, m)
    requires Holds(run.states[j].rows, m.id, KeyOf(m).token)
    ensures var row := run.states[j].rows[m.id]; row == m.row.(lockedUntil := row.lockedUntil)
  {
    var k :| k < j && GrantedAt(run, k, m.id, KeyOf(m).token) && k + 1 < |run.states|
             && m.id in run.states[k + 1].rows && m.row == run.states[k + 1].rows[m.id];
    GrantHolds(run, relayMax, k, m.id, KeyOf(m).token);
    RunEvolves(run, relayMax, k + 1, j);
    assert SameInsertion(run.states[k + 1].rows, run.states[j].rows, m.id);
  }

  /**
   Every statement that settles part of a batch, decided on the relay's own copies,
   is a finish step: in particular a row sent back to pending has attempts left
   in the table too.
   */
  lemma StatementIsAStep(run: Run, relayMax: int, j: nat, cfg: Settings, w: World, jobs: Jobs,
                         group: seq<Claimed>, c: Completion, now: Time, t: State)
    requires ValidRun(run, relayMax) && j < |run.states| && cfg.maxAttempts <= relayMax
    requires OneStatement(cfg, w, jobs, group, c) && group != []
    requires forall i :: 0 <= i < |group| ==> ClaimedBefore(run, j, group[i])
    requires run.states[j].clock <= t.clock && ClockOk(w.clock, run.states[j].rows.Keys, now, t.clock)
    requires t == run.states[j].(rows := FinishRows(run.states[j].rows, Keys(group), c, cfg.clearPayload, w.clock),
                                 clock := t.clock)
    ensures Next(run.states[j].rows, run.states[j], Finish(Keys(group), c, cfg.clearPayload, now, w.clock), t, relayMax)
  {
    var s := run.states[j];
    assert c == Decide(cfg, w, group[0], jobs[group[0].id].verdict);
    forall id | id in Hits(s.rows, Keys(group), w.clock) && c.status == Pending
      ensures s.rows[id].attempts < EffectiveMax(s.rows[id].data, relayMax)
    {
      var i :| 0 <= i < |group| && KeyOf(group[i]) == Key(id, s.rows[id].leaseToken.value);
      CopyIsCurrent(run, relayMax, j, group[i]);
      assert c == Decide(cfg, w, group[i], jobs[id].verdict);
    }
  }

  /**
   However the statements of a settlement interleave with those of other workers, what
   becomes of a message is decided by its own statement on the relay's own copy: if the
   statement reaches the row, the new row is a function of the copy and the outcome.
   */
  lemma SettledFromCopy(run: Run, relayMax: int, k: nat, m: Claimed)
    requires ValidRun(run, relayMax) && k < |run.steps| && run.steps[k].Finish?
    requires ClaimedBefore(run, k, m) && Reaches(run, k, m.id, KeyOf(m).token)
    ensures m.id in run.states[k + 1].rows
    ensures run.states[k + 1].rows[m.id] ==
            FinishRow(m.row, run.steps[k].result, run.steps[k].clear, run.steps[k].clock(m.id).stamped)
  {
    CopyIsCurrent(run, relayMax, k, m);
    assert StepOk(run, k, relayMax);
    assert m.id in run.states[k + 1].rows;
    EffectOnRow(run.states[k].rows, run.steps[k], m.id);
  }

  // ---- the other statements ------------------------------------------------------------

  /** An extended batch is a renew step. */
  lemma RenewIsAStep(s: State, t: State, msgs: seq<Claimed>, lease: Duration, now: Time, clock: Clock, relayMax: int)
    requires lease > 0 && s.clock <= t.clock && ClockOk(clock, s.rows.Keys, now, t.clock)
    requires t == s.(rows := RenewRows(s.rows, Keys(msgs), lease, clock), clock := t.clock)
    ensures Next(s.rows, s, Renew(Keys(msgs), lease, now, clock), t, relayMax)
  {
  }

  /** An enqueued batch is an enqueue step, provided the sequence hands out new and rising numbers. */
  lemma EnqueueIsAStep(s: State, t: State, msgs: seq<Message>, generate: nat -> Id, txStart: Time,
                       nextval: nat -> nat, items: seq<Insert>, relayMax: int)
    requires |items| == |msgs|
    requires forall i :: 0 <= i < |msgs| ==> items[i] == ToInsert(msgs[i], generate(i), txStart, nextval(i))
    requires forall i :: 0 <= i < |msgs| ==> nextval(i) !in s.seqs
    requires forall i, j :: 0 <= i < j < |msgs| ==> nextval(i) < nextval(j)
    requires txStart <= t.clock && s.clock <= t.clock
    requires t == State(InsertAll(s.rows, items), t.clock, s.issued, s.seqs + Seqs(items))
    ensures Next(s.rows, s, Protocol.Enqueue(items, txStart), t, relayMax)
  {
  }

  /** A replayed row is a requeue step, and so is a replay that finds no dead row. */
  lemma RequeueIsAStep(s: State, t: State, id: Id, at: Time, relayMax: int)
    requires at <= t.clock && s.clock <= t.clock
    requires var dead := id in s.rows && s.rows[id].status == Dead;
             t == s.(rows := if dead then s.rows[id := Row(s.rows[id].data, Pending, 0, None, None, None, at, None, None, None)]
                             else s.rows,
                     clock := t.clock)
    ensures Next(s.rows, s, Protocol.Requeue(id, at), t, relayMax)
  {
  }

  /** A deleted batch is a cleanup step. */
  lemma CleanupIsAStep(s: State, t: State, keep: Retention, limit: nat, now: Time, locked: set<Id>,
                       removed: set<Id>, relayMax: int)
    requires now <= t.clock && s.clock <= t.clock
    requires removed <= ExpiredIds(s.rows, keep, now) - locked && |removed| <= limit
    requires t == s.(rows := s.rows - removed, clock := t.clock)
    ensures Next(s.rows, s, Protocol.Cleanup(keep, limit, now, removed), t, relayMax)
  {
  }
}
