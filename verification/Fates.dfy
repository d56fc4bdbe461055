/**
 What becomes of each message of a settled batch, read off the columns of its row and
 the calls of the hooks. Nothing here refers to how settlement is organised: only to
 the outcome of the message, the markers in it, and the answer of the executor.
 */
module Fates {
  import opened Messages
  import opened Statements
  import opened Outcomes
  import opened Stores
  import opened Settlement

  /** The columns of a live row once its outcome is recorded. */
  ghost predicate Moved(cfg: Settings, w: World, m: Claimed, outcome: Option<Err>, was: Row, row: Row) {
    var at := w.clock(m.id).stamped;
    var limit := if m.row.data.maxAttempts.Some? then m.row.data.maxAttempts.value else cfg.maxAttempts;
    var text := if outcome.None? then "" else w.text(outcome.value);
    // which state
    && (outcome.None? ==> row.status == Published)
    && (outcome.Some? && Has(outcome.value, IsPermanent) ==> row.status == Dead)
    && (outcome.Some? && !Has(outcome.value, IsPermanent) && Has(outcome.value, IsDiscard) ==> row.status == Discarded)
    && (outcome.Some? && !Has(outcome.value, IsPermanent) && !Has(outcome.value, IsDiscard) ==>
          row.status == if m.row.attempts >= limit then Dead else Pending)
    // when it is due
    && (row.status == Pending ==> outcome.Some? && Waits(w, m, outcome.value, row.nextAttemptAt - at))
    && (row.status != Pending ==> row.nextAttemptAt == was.nextAttemptAt)
    // the message, scrubbed or not
    && var scrubbed := cfg.clearPayload && (row.status == Published || row.status == Discarded);
    && row.data == Envelope(was.data.topic, was.data.partitionKey,
                            if scrubbed then "" else was.data.payload, if scrubbed then map[] else was.data.headers,
                            was.data.contentType, was.data.messageType, was.data.maxAttempts,
                            was.data.createdAt, was.data.seqNo)
    // and the rest
    && row.attempts == was.attempts
    && row.lockedBy == None && row.lockedUntil == None && row.leaseToken == None
    && row.lastError == (if text == "" then None else Some(text))
    && row.publishedAt == (if row.status == Published then Some(at) else None)
    && row.finishedAt == (if row.status == Pending then None else Some(at))
  }

  /** The least delay that is no less than zero, the backoff, and what the first RetryAfter asks for. */
  ghost predicate Waits(w: World, m: Claimed, e: Err, delay: Duration) {
    var own, asked := w.backoff(m.id, m.row.attempts), As(e, IsRetryAfter, w.order);
    && delay >= 0 && delay >= own
    && (asked.Some? && asked.value.RetryAfter? ==> delay >= asked.value.delay)
    && (delay == 0 || delay == own || (asked.Some? && asked.value.RetryAfter? && delay == asked.value.delay))
  }

  /** `reply` answered the statement that settled `m`: its row moved unless refused, and a hook told if answered. */
  ghost predicate FatedBy(cfg: Settings, w: World, m: Claimed, outcome: Option<Err>, reply: Reply,
                          before: Rows, after: Rows, logged: multiset<Observation>, log: multiset<Observation>) {
    var live := m.id in before && HoldsClaim(before[m.id], m, w.clock(m.id).seen);
    && (m.id in before <==> m.id in after)
    && (m.id in before ==>
          if live && !reply.Refused? then Moved(cfg, w, m, outcome, before[m.id], after[m.id])
          else after[m.id] == before[m.id])
    && forall s: Status ::
         log[Observation(s, m.id)] == logged[Observation(s, m.id)] +
           if live && reply.Answered? && s == after[m.id].status && (s == Discarded ==> cfg.discardHooks) then 1 else 0
  }

  /** `m` has been settled by one statement, which named it, according to `outcome`. */
  ghost predicate Fated(cfg: Settings, w: World, m: Claimed, outcome: Option<Err>,
                        before: Rows, after: Rows, logged: multiset<Observation>, log: multiset<Observation>) {
    exists group: seq<Claimed> ::
      m in group && FatedBy(cfg, w, m, outcome, w.reply(group), before, after, logged, log)
  }

  // ---- from the specification of settlement -------------------------------------------

  lemma DecisionMoves(cfg: Settings, w: World, m: Claimed, outcome: Option<Err>, was: Row)
    requires ValidOrder(w.order)
    ensures Moved(cfg, w, m, outcome, was,
                  FinishRow(was, Decide(cfg, w, m, Judge(w, outcome)), cfg.clearPayload, w.clock(m.id).stamped))
  {
    if outcome.Some? { AsFinds(outcome.value, IsRetryAfter, w.order); }
  }

  lemma JobRow(cfg: Settings, w: World, jobs: Jobs, done: set<Id>, before: Rows, m: Claimed, outcome: Option<Err>)
    requires ValidOrder(w.order) && m.row.leaseToken.Some?
    requires m.id in done && m.id in jobs && jobs[m.id].m == m && jobs[m.id].verdict == Judge(w, outcome)
    ensures var after := SettledRows(cfg, w, jobs, done, before);
            && (m.id in before <==> m.id in after)
            && (m.id in before ==>
                  if HoldsClaim(before[m.id], m, w.clock(m.id).seen) && !Answer(w, jobs[m.id]).Refused?
                  then Moved(cfg, w, m, outcome, before[m.id], after[m.id])
                  else after[m.id] == before[m.id])
  {
    if m.id in before { DecisionMoves(cfg, w, m, outcome, before[m.id]); }
  }

  lemma JobReport(cfg: Settings, w: World, jobs: Jobs, done: set<Id>, before: Rows, m: Claimed, s: Status)
    requires m.row.leaseToken.Some? && m.id in done && m.id in jobs && jobs[m.id].m == m
    ensures Reports(cfg, w, jobs, done, before)[Observation(s, m.id)] ==
            if m.id in before && HoldsClaim(before[m.id], m, w.clock(m.id).seen) && Answer(w, jobs[m.id]).Answered?
               && s == Decide(cfg, w, m, jobs[m.id].verdict).status && (s == Discarded ==> cfg.discardHooks)
            then 1 else 0
  {
    assert Observation(s, m.id) in ReportSet(cfg, w, jobs, done, before)
           <==> Reported(cfg, w, jobs[m.id], before) && s == Decide(cfg, w, m, jobs[m.id].verdict).status;
  }

  lemma JobFated(cfg: Settings, w: World, jobs: Jobs, done: set<Id>, before: Rows, logged: multiset<Observation>,
                 m: Claimed, outcome: Option<Err>, t: Tally)
    requires ValidOrder(w.order) && m.row.leaseToken.Some?
    requires m.id in done && m.id in jobs && jobs[m.id].m == m && jobs[m.id].verdict == Judge(w, outcome)
    requires m in jobs[m.id].group && t == Tallied(cfg, w, jobs, done, before, logged)
    ensures Fated(cfg, w, m, outcome, before, t.rows, logged, t.log)
  {
    JobRow(cfg, w, jobs, done, before, m, outcome);
    forall s: Status { JobReport(cfg, w, jobs, done, before, m, s); }
    var group := if jobs[m.id].verdict.Retry? then [m] else jobs[m.id].group;
    assert m in group && FatedBy(cfg, w, m, outcome, w.reply(group), before, t.rows, logged, t.log);
  }

  // ---- for a whole batch --------------------------------------------------------------

  /** No row appears, goes, or changes but those of the batch. */
  predicate OthersRest(msgs: seq<Claimed>, before: Rows, after: Rows) {
    && after.Keys == before.Keys
    && forall id :: id in before && (forall i :: 0 <= i < |msgs| ==> msgs[i].id != id) ==> after[id] == before[id]
  }

  predicate AllHeld(w: World, msgs: seq<Claimed>, before: Rows) {
    forall i :: 0 <= i < |msgs| && msgs[i].row.leaseToken.Some? ==>
      msgs[i].id in before && HoldsClaim(before[msgs[i].id], msgs[i], w.clock(msgs[i].id).seen)
  }

  /** Nil is never returned for a batch of which a claim was lost, and is returned if all are held and all answers arrive. */
  ghost predicate NilTells(w: World, msgs: seq<Claimed>, before: Rows, clean: bool) {
    && (clean ==> AllHeld(w, msgs, before))
    && ((AllHeld(w, msgs, before) && (forall i :: 0 <= i < |msgs| ==> msgs[i].row.leaseToken.Some?)
         && (forall group :: w.reply(group).Answered?)) ==> clean)
  }

  lemma TallyTells(cfg: Settings, w: World, jobs: Jobs, msgs: seq<Claimed>, before: Rows, logged: multiset<Observation>, t: Tally)
    requires DistinctIds(msgs) && t == Tallied(cfg, w, jobs, Ids(msgs), before, logged)
    requires forall i :: 0 <= i < |msgs| ==> msgs[i].id in jobs && jobs[msgs[i].id].m == msgs[i]
    ensures OthersRest(msgs, before, t.rows) && NilTells(w, msgs, before, t.clean)
  {
    forall id | id in before && (forall i :: 0 <= i < |msgs| ==> msgs[i].id != id) ensures t.rows[id] == before[id] {
      assert id !in Ids(msgs);
    }
    forall i | 0 <= i < |msgs|
      ensures msgs[i].id in Failing(w, jobs, Ids(msgs), before) <==> !Fine(w, jobs[msgs[i].id], before)
    {
      assert msgs[i].id in Ids(msgs);
    }
    forall id | id in Failing(w, jobs, Ids(msgs), before)
      ensures exists i :: 0 <= i < |msgs| && !Fine(w, jobs[msgs[i].id], before)
    {
      var i :| 0 <= i < |msgs| && msgs[i].id == id;
    }
  }

  lemma SoloFated(cfg: Settings, w: World, msgs: seq<Claimed>, outcome: Option<Err>, before: Rows,
                  logged: multiset<Observation>, t: Tally)
    requires DistinctIds(msgs) && ValidOrder(w.order)
    requires t == Tallied(cfg, w, SoloJobs(msgs, Judge(w, outcome)), Ids(msgs), before, logged)
    ensures OthersRest(msgs, before, t.rows) && NilTells(w, msgs, before, t.clean)
    ensures forall i :: 0 <= i < |msgs| && msgs[i].row.leaseToken.Some? ==>
      Fated(cfg, w, msgs[i], outcome, before, t.rows, logged, t.log)
  {
    var jobs := SoloJobs(msgs, Judge(w, outcome));
    forall i | 0 <= i < |msgs|
      ensures msgs[i].id in jobs && jobs[msgs[i].id] == Job(msgs[i], Judge(w, outcome), msgs)
    {
    }
    TallyTells(cfg, w, jobs, msgs, before, logged, t);
    forall i | 0 <= i < |msgs| && msgs[i].row.leaseToken.Some?
      ensures Fated(cfg, w, msgs[i], outcome, before, t.rows, logged, t.log)
    {
      assert msgs[i].id in Ids(msgs);
      JobFated(cfg, w, jobs, Ids(msgs), before, logged, msgs[i], outcome, t);
    }
  }

  lemma EntryJob(w: World, b: Err, msgs: seq<Claimed>, i: nat)
    requires b.Batch? && DistinctIds(msgs) && i < |msgs|
    ensures var jobs := EachJobs(w, b, msgs);
            && msgs[i].id in jobs && jobs[msgs[i].id].m == msgs[i] && msgs[i] in jobs[msgs[i].id].group
            && jobs[msgs[i].id].verdict == Judge(w, if msgs[i].id in b.outcomes then b.outcomes[msgs[i].id] else b.others)
  {
    GroupsAreParts(b, msgs);
    assert [msgs[i]][0] in [msgs[i]];
  }

  lemma EachFated(cfg: Settings, w: World, b: Err, msgs: seq<Claimed>, before: Rows, logged: multiset<Observation>, t: Tally)
    requires b.Batch? && DistinctIds(msgs) && ValidOrder(w.order)
    requires t == Tallied(cfg, w, EachJobs(w, b, msgs), Ids(msgs), before, logged)
    ensures OthersRest(msgs, before, t.rows) && NilTells(w, msgs, before, t.clean)
    ensures forall i :: 0 <= i < |msgs| && msgs[i].row.leaseToken.Some? ==>
      Fated(cfg, w, msgs[i], if msgs[i].id in b.outcomes then b.outcomes[msgs[i].id] else b.others, before, t.rows, logged, t.log)
  {
    var jobs := EachJobs(w, b, msgs);
    forall i | 0 <= i < |msgs| ensures msgs[i].id in jobs && jobs[msgs[i].id].m == msgs[i] {
      EntryJob(w, b, msgs, i);
    }
    TallyTells(cfg, w, jobs, msgs, before, logged, t);
    forall i | 0 <= i < |msgs| && msgs[i].row.leaseToken.Some?
      ensures Fated(cfg, w, msgs[i], if msgs[i].id in b.outcomes then b.outcomes[msgs[i].id] else b.others, before, t.rows, logged, t.log)
    {
      assert msgs[i].id in Ids(msgs);
      EntryJob(w, b, msgs, i);
      JobFated(cfg, w, jobs, Ids(msgs), before, logged, msgs[i], if msgs[i].id in b.outcomes then b.outcomes[msgs[i].id] else b.others, t);
    }
  }
}
