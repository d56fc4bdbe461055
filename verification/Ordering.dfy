/**
 Ordered mode over whole runs, with claims that evaluate their guard on stale
 snapshots and with cleanup removing resolved rows underneath them.
 */
module Ordering {
  import opened Messages
  import opened Statements
  import opened Protocol
  import opened Evolution
  import opened Conservation

  predicate ClaimsRow(run: Run, k: int, id: Id) {
    && 0 <= k < |run.steps| && k < |run.states|
    && run.steps[k].Claim? && id in run.steps[k].grants && id in run.states[k].rows
  }

  /** Every relay of the run has Ordered on. */
  predicate AllOrdered(run: Run) {
    forall k :: 0 <= k < |run.steps| && run.steps[k].Claim? ==> run.steps[k].ordered
  }

  /** The claims of each key, in the order they are made, never step back in (created_at, seq). */
  ghost predicate OrderedLog(run: Run) {
    forall i, j, a, b :: ClaimsRow(run, i, a) && ClaimsRow(run, j, b) && i <= j ==>
      InOrder(run.states[i].rows[a].data, run.states[j].rows[b].data)
  }

  predicate InOrder(a: Envelope, b: Envelope) {
    a.partitionKey.Some? && a.partitionKey == b.partitionKey ==>
      a.createdAt < b.createdAt || (a.createdAt == b.createdAt && a.seqNo <= b.seqNo)
  }

  /** Insertions of one key become visible in the order of their stamps. */
  ghost predicate CommitOrder(run: Run) {
    forall k, l, a, b, d, e ::
      InsertedAt(run, k, a, d) && InsertedAt(run, l, b, e) && k < l
      && d.partitionKey.Some? && d.partitionKey == e.partitionKey
      ==> d.createdAt < e.createdAt || (d.createdAt == e.createdAt && d.seqNo < e.seqNo)
  }

  lemma ClaimFacts(run: Run, relayMax: int, k: nat, id: Id)
    requires ValidRun(run, relayMax) && ClaimsRow(run, k, id)
    ensures Claimable(run.states[k].rows[id], run.steps[k].now)
    ensures run.steps[k].snapshot <= k
    ensures Seen(run, k) == run.states[run.steps[k].snapshot].rows
    ensures SameInsertion(Seen(run, k), run.states[k].rows, id)
    ensures run.steps[k].ordered ==> Unblocked(Seen(run, k), run.states[k].rows[id])
  {
    assert StepOk(run, k, relayMax);
    assert Grantable(Seen(run, k), run.states[k].rows, run.steps[k].ordered, run.steps[k].now, id);
  }

  /**
   Stale snapshots are safe. When an ordered claim takes `a` at step `i`, every
   same-key predecessor its snapshot showed is resolved for good: such a row is
   not claimed in the same statement nor at any later step, however old the
   snapshot was and whatever ran in between.
   */
  lemma NothingSeenIsSkipped(run: Run, relayMax: int, i: nat, j: nat, a: Id, b: Id)
    requires ValidRun(run, relayMax) && i <= j
    requires ClaimsRow(run, i, a) && run.steps[i].ordered && ClaimsRow(run, j, b)
    requires SameInsertion(Seen(run, i), run.states[j].rows, b)
    ensures InOrder(run.states[i].rows[a].data, run.states[j].rows[b].data)
  {
    ClaimFacts(run, relayMax, i, a);
    ClaimFacts(run, relayMax, j, b);
    RunEvolves(run, relayMax, run.steps[i].snapshot, j);
    assert !Blocks(Seen(run, i)[b], run.states[i].rows[a]);
  }

  /** With commits in stamp order, a row missing from a snapshot follows every row in it. */
  lemma UnseenComesLater(run: Run, relayMax: int, i: nat, j: nat, a: Id, b: Id)
    requires ValidRun(run, relayMax) && CommitOrder(run) && i < |run.states| && j < |run.states|
    requires a in run.states[i].rows && b in run.states[j].rows && i <= j
    requires !SameInsertion(run.states[i].rows, run.states[j].rows, b)
    requires SameKey(run.states[i].rows[a].data, run.states[j].rows[b].data)
    ensures Before(run.states[i].rows[a].data, run.states[j].rows[b].data)
  {
    var k, d := DataConserved(run, relayMax, i, a);
    var l, e := InsertionOf(run, relayMax, j, b);
    RunEvolves(run, relayMax, l + 1, j);
    if l < i { RunEvolves(run, relayMax, l + 1, i); RunEvolves(run, relayMax, i, j);
               ReachableInv(run, relayMax, l + 1); }
    assert InsertedAt(run, k, a, d) && InsertedAt(run, l, b, e);
  }

  /** Ordered mode orders every key's claims as long as its producers commit in stamp order. */
  lemma OrderedModeOrders(run: Run, relayMax: int)
    requires ValidRun(run, relayMax) && AllOrdered(run) && CommitOrder(run)
    ensures OrderedLog(run)
  {
    forall i, j, a, b | ClaimsRow(run, i, a) && ClaimsRow(run, j, b) && i <= j
      ensures InOrder(run.states[i].rows[a].data, run.states[j].rows[b].data)
    {
      if SameInsertion(Seen(run, i), run.states[j].rows, b) {
        NothingSeenIsSkipped(run, relayMax, i, j, a, b);
      } else if SameKey(run.states[i].rows[a].data, run.states[j].rows[b].data) {
        UnseenIsNotOvertaken(run, relayMax, i, j, a, b);
      }
    }
  }

  lemma UnseenIsNotOvertaken(run: Run, relayMax: int, i: nat, j: nat, a: Id, b: Id)
    requires ValidRun(run, relayMax) && CommitOrder(run) && i <= j
    requires ClaimsRow(run, i, a) && ClaimsRow(run, j, b)
    requires !SameInsertion(Seen(run, i), run.states[j].rows, b)
    requires SameKey(run.states[i].rows[a].data, run.states[j].rows[b].data)
    ensures Before(run.states[i].rows[a].data, run.states[j].rows[b].data)
  {
    ClaimFacts(run, relayMax, i, a);
    var snap := run.steps[i].snapshot;
    RunEvolves(run, relayMax, snap, i);
    UnseenComesLater(run, relayMax, snap, j, a, b);
  }

  // ---- the shape of a key -----------------------------------------------------

  /** Some statement before state `i` claimed this insertion of `id`. */
  ghost predicate Touched(run: Run, i: nat, id: Id)
    requires i < |run.states|
  {
    exists k :: k < i && ClaimsRow(run, k, id) && SameInsertion(run.states[k].rows, run.states[i].rows, id)
  }

  /** A row no claim has touched is exactly the row that was inserted. */
  lemma {:induction false} UntouchedIsNew(run: Run, relayMax: int, i: nat, id: Id)
    requires ValidRun(run, relayMax) && i < |run.states| && id in run.states[i].rows
    requires !Touched(run, i, id)
    ensures run.states[i].rows[id] == NewRow(run.states[i].rows[id].data)
  {
    assert StepOk(run, i - 1, relayMax);
    var s, step, t := run.states[i - 1], run.steps[i - 1], run.states[i];
    EffectOnRow(s.rows, step, id);
    SeqOrigin(Seen(run, i - 1), s, step, t, relayMax, id);
    if id in s.rows {
      UntouchedIsNew(run, relayMax, i - 1, id);
      assert !ClaimsRow(run, i - 1, id);
    }
  }

  /**
   The inductive picture of ordered mode: in every reachable state, of any two
   rows of a key either the earlier is resolved or the later is still exactly as
   inserted. So a key reads resolved*, then at most one row that any claim has
   touched (in flight, waiting for a retry, or dead), then untouched rows.
   */
  lemma KeyShape(run: Run, relayMax: int, i: nat, a: Id, b: Id)
    requires ValidRun(run, relayMax) && AllOrdered(run) && CommitOrder(run) && i < |run.states|
    requires a in run.states[i].rows && b in run.states[i].rows
    requires var d, e := run.states[i].rows[a].data, run.states[i].rows[b].data;
             && d.partitionKey.Some? && d.partitionKey == e.partitionKey
             && (d.createdAt < e.createdAt || (d.createdAt == e.createdAt && d.seqNo < e.seqNo))
    ensures var row := run.states[i].rows[b];
            || run.states[i].rows[a].status in {Published, Discarded}
            || row == Row(row.data, Pending, 0, None, None, None, row.data.createdAt, None, None, None)
  {
    if Touched(run, i, b) {
      var k :| k < i && ClaimsRow(run, k, b) && SameInsertion(run.states[k].rows, run.states[i].rows, b);
      ClaimedAfterResolved(run, relayMax, k, i, a, b);
    } else {
      UntouchedIsNew(run, relayMax, i, b);
    }
  }

  lemma ClaimedAfterResolved(run: Run, relayMax: int, k: nat, i: nat, a: Id, b: Id)
    requires ValidRun(run, relayMax) && AllOrdered(run) && CommitOrder(run) && k < i < |run.states|
    requires ClaimsRow(run, k, b) && SameInsertion(run.states[k].rows, run.states[i].rows, b)
    requires a in run.states[i].rows
    requires SameKey(run.states[i].rows[a].data, run.states[i].rows[b].data)
    requires Before(run.states[i].rows[a].data, run.states[i].rows[b].data)
    ensures Resolved(run.states[i].rows[a].status)
  {
    ClaimFacts(run, relayMax, k, b);
    var snap := run.steps[k].snapshot;
    RunEvolves(run, relayMax, snap, i);
    RunEvolves(run, relayMax, k, i);
    if SameInsertion(run.states[snap].rows, run.states[i].rows, a) {
      assert !Blocks(run.states[snap].rows[a], run.states[k].rows[b]);
    } else {
      UnseenComesLater(run, relayMax, snap, i, b, a);
    }
  }

  /** No batch, and no two live claims, ever hold two rows of one key. */
  lemma OneInFlightPerKey(run: Run, relayMax: int, i: nat, a: Id, b: Id)
    requires ValidRun(run, relayMax) && AllOrdered(run) && CommitOrder(run) && i < |run.states|
    requires a in run.states[i].rows && b in run.states[i].rows
    requires run.states[i].rows[a].status == Processing && run.states[i].rows[b].status == Processing
    requires run.states[i].rows[a].data.partitionKey.Some?
    requires run.states[i].rows[a].data.partitionKey == run.states[i].rows[b].data.partitionKey
    ensures a == b
  {
    ReachableInv(run, relayMax, i);
    if a != b {
      if Before(run.states[i].rows[a].data, run.states[i].rows[b].data) {
        KeyShape(run, relayMax, i, a, b);
      } else {
        KeyShape(run, relayMax, i, b, a);
      }
    }
  }
}
