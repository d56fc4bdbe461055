/** What a row's data, and its terminal state, keep over whole runs. */
module Conservation {
  import opened Messages
  import opened Statements
  import opened Protocol
  import opened Evolution

  /** Step `k` inserted `id` with envelope `data`. */
  predicate InsertedAt(run: Run, k: int, id: Id, data: Envelope) {
    && 0 <= k < |run.steps| && k < |run.states|
    && run.steps[k].Enqueue? && id !in run.states[k].rows
    && FirstIndex(run.steps[k].items, id) < |run.steps[k].items|
    && data == run.steps[k].items[FirstIndex(run.steps[k].items, id)].data
  }

  predicate NeverClears(run: Run, i: int) {
    forall k :: 0 <= k < i && k < |run.steps| && run.steps[k].Finish? ==> !run.steps[k].clear
  }

  /** The insertion that a row in the table comes from. */
  lemma {:induction false} InsertionOf(run: Run, relayMax: int, i: nat, id: Id)
    returns (k: nat, data: Envelope)
    requires ValidRun(run, relayMax) && i < |run.states| && id in run.states[i].rows
    ensures k < i && InsertedAt(run, k, id, data)
    ensures SameInsertion(run.states[k + 1].rows, run.states[i].rows, id)
    ensures run.states[k + 1].rows[id] == NewRow(data)
    ensures NeverClears(run, i) ==> run.states[i].rows[id].data == data
  {
    assert StepOk(run, i - 1, relayMax);
    var s, step, t := run.states[i - 1], run.steps[i - 1], run.states[i];
    EffectOnRow(s.rows, step, id);
    SeqOrigin(Seen(run, i - 1), s, step, t, relayMax, id);
    if id in s.rows {
      k, data := InsertionOf(run, relayMax, i - 1, id);
    } else {
      k, data := i - 1, step.items[FirstIndex(step.items, id)].data;
    }
  }

  /**
   Retries, replays and clearing policies never alter an unresolved message: a
   pending, processing or dead row carries exactly what was enqueued under its
   id. A resolved row differs at most by an empty payload and headers, and only
   if some relay of the run clears them.
   */
  lemma DataConserved(run: Run, relayMax: int, i: nat, id: Id) returns (k: nat, data: Envelope)
    requires ValidRun(run, relayMax) && i < |run.states| && id in run.states[i].rows
    ensures k < i && InsertedAt(run, k, id, data)
    ensures var row := run.states[i].rows[id];
            && (!Resolved(row.status) || NeverClears(run, i) ==> row.data == data)
            && (row.data == data || row.data == Scrubbed(data))
  {
    k, data := InsertionOf(run, relayMax, i, id);
    RunEvolves(run, relayMax, k + 1, i);
  }

  /**
   Published and discarded are final: from the finish that resolved it, a row
   keeps every column until cleanup removes it, and if that finish cleared then
   payload and headers are empty from that very state on.
   */
  lemma ResolvedIsFinal(run: Run, relayMax: int, k: nat, j: nat, id: Id)
    requires ValidRun(run, relayMax) && k < j < |run.states| && run.steps[k].Finish?
    requires Resolved(run.steps[k].result.status)
    requires id in Hits(run.states[k].rows, run.steps[k].keys, run.steps[k].clock)
    requires SameInsertion(run.states[k].rows, run.states[j].rows, id)
    ensures var row, result, at := run.states[j].rows[id], run.steps[k].result, run.steps[k].clock(id).stamped;
            && row.status == result.status
            && row.finishedAt == Some(at)
            && row.publishedAt == (if result.status == Published then Some(at) else None)
            && row.lastError == NullIfEmpty(result.reason)
            && row.attempts == run.states[k].rows[id].attempts
            && (run.steps[k].clear ==> row.data.payload == "" && row.data.headers == map[])
            && (!run.steps[k].clear ==> row.data == run.states[k].rows[id].data)
  {
    assert StepOk(run, k, relayMax);
    assert id in run.states[k + 1].rows;
    EffectOnRow(run.states[k].rows, run.steps[k], id);
    RunEvolves(run, relayMax, k + 1, j);
  }

  /** A dead row rests: whatever else runs, nothing but a requeue of its id or its removal touches it. */
  lemma {:induction false} DeadRests(run: Run, relayMax: int, k: nat, j: nat, id: Id)
    requires ValidRun(run, relayMax) && k <= j < |run.states|
    requires SameInsertion(run.states[k].rows, run.states[j].rows, id) && run.states[k].rows[id].status == Dead
    requires forall m :: k <= m < j && run.steps[m].Requeue? ==> run.steps[m].id != id
    ensures run.states[j].rows[id] == run.states[k].rows[id]
    decreases j - k
  {
    if k < j {
      InsertionStays(run, relayMax, k, j - 1, j, id);
      DeadRests(run, relayMax, k, j - 1, id);
      NextKeepsDead(run, relayMax, j - 1, id);
    }
  }

  lemma NextKeepsDead(run: Run, relayMax: int, i: nat, id: Id)
    requires ValidRun(run, relayMax) && i < |run.steps|
    requires id in run.states[i].rows && run.states[i].rows[id].status == Dead && id in run.states[i + 1].rows
    requires run.steps[i].Requeue? ==> run.steps[i].id != id
    ensures run.states[i + 1].rows[id] == run.states[i].rows[id]
  {
    assert StepOk(run, i, relayMax);
    EffectOnRow(run.states[i].rows, run.steps[i], id);
  }

  /**
   So the evidence of a failure is kept: from the finish that buried it until an
   operator requeues it, a dead row holds its message unscrubbed, its attempts, the
   reason, and the time of death, and no lease.
   */
  lemma DeathIsRecorded(run: Run, relayMax: int, k: nat, j: nat, id: Id)
    requires ValidRun(run, relayMax) && k < j < |run.states|
    requires run.steps[k].Finish? && run.steps[k].result.status == Dead
    requires id in Hits(run.states[k].rows, run.steps[k].keys, run.steps[k].clock)
    requires SameInsertion(run.states[k].rows, run.states[j].rows, id)
    requires forall m :: k < m < j && run.steps[m].Requeue? ==> run.steps[m].id != id
    ensures var was, row := run.states[k].rows[id], run.states[j].rows[id];
            row == Row(was.data, Dead, was.attempts, None, None, None, was.nextAttemptAt,
                       NullIfEmpty(run.steps[k].result.reason), None, Some(run.steps[k].clock(id).stamped))
  {
    assert StepOk(run, k, relayMax);
    assert id in run.states[k + 1].rows;
    EffectOnRow(run.states[k].rows, run.steps[k], id);
    assert SameInsertion(run.states[k + 1].rows, run.states[j].rows, id);
    DeadRests(run, relayMax, k + 1, j, id);
  }

  /** A pending or processing row is never removed, by cleanup or anything else. */
  lemma UnfinishedIsKept(run: Run, relayMax: int, i: nat, id: Id)
    requires ValidRun(run, relayMax) && i < |run.steps| && id in run.states[i].rows
    requires !Terminal(run.states[i].rows[id].status)
    ensures id in run.states[i + 1].rows
  {
    assert StepOk(run, i, relayMax);
    match run.steps[i]
    case Enqueue(items, _) => InsertKeepsFirst(run.states[i].rows, items, id);
    case _ =>
  }

  /**
   Only a cleanup statement whose window for the row's status is enabled removes
   a row, and only once the row has been terminal for longer than that window.
   */
  lemma RemovedOnlyWhenExpired(run: Run, relayMax: int, i: nat, id: Id)
    requires ValidRun(run, relayMax) && i < |run.steps|
    requires id in run.states[i].rows && id !in run.states[i + 1].rows
    ensures run.steps[i].Cleanup?
    ensures var row, keep := run.states[i].rows[id], run.steps[i].keep;
            var window := match row.status
                          case Published => keep.published
                          case Dead => keep.dead
                          case Discarded => keep.discarded
                          case _ => 0;
            var since := if row.status == Published then row.publishedAt else row.finishedAt;
            window > 0 && since.Some? && run.states[i + 1].clock - since.value > window
  {
    assert StepOk(run, i, relayMax);
    match run.steps[i]
    case Enqueue(items, _) => InsertKeepsFirst(run.states[i].rows, items, id);
    case _ =>
  }

  /**
   Replay: a dead row that an operator requeues is, apart from its next attempt
   time, the row the producer inserted - same identity, order and data, no
   attempts, no trace of the failure - and is due at once.
   */
  lemma RequeueRestoresInsertion(run: Run, relayMax: int, i: nat, id: Id) returns (k: nat, data: Envelope)
    requires ValidRun(run, relayMax) && i < |run.steps|
    requires id in run.states[i].rows && run.states[i].rows[id].status == Dead
    requires run.steps[i].Requeue? && run.steps[i].id == id
    ensures k < i && InsertedAt(run, k, id, data)
    ensures id in run.states[i + 1].rows
    ensures run.states[i + 1].rows[id] == NewRow(data).(nextAttemptAt := run.steps[i].at)
    ensures Claimable(run.states[i + 1].rows[id], run.states[i + 1].clock)
  {
    k, data := DataConserved(run, relayMax, i, id);
    assert StepOk(run, i, relayMax);
  }
}
