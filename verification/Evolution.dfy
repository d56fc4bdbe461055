/**
 What any stretch of any run does to the table, as one preorder between states.
 Fencing, ordering under stale snapshots and conservation of data all follow
 from it.
 */
module Evolution {
  import opened Messages
  import opened Protocol

  /** Both tables hold the same insertion of `id` (ids can be reused after cleanup). */
  predicate SameInsertion(a: Rows, b: Rows, id: Id) {
    id in a && id in b && a[id].data.seqNo == b[id].data.seqNo
  }

  /** Payload and headers blanked: the part of an envelope that nothing ever rewrites. */
  function Scrubbed(data: Envelope): Envelope {
    data.(payload := "", headers := map[])
  }

  predicate RowEvolves(a: Row, b: Row) {
    // nothing but the two scrubbable columns ever changes, and only to empty,
    && (b.data == a.data || b.data == Scrubbed(a.data))
    // not before the row is published or discarded,
    && (!Resolved(b.status) ==> b.data == a.data)
    // after which the row is never written again;
    && (Resolved(a.status) ==> b == a)
    // and while a claim keeps its token, only its deadline moves.
    && (a.leaseToken.Some? && b.leaseToken == a.leaseToken ==> b == a.(lockedUntil := b.lockedUntil))
  }

  ghost predicate Evolves(s: State, t: State) {
    && s.clock <= t.clock && s.issued <= t.issued && s.seqs <= t.seqs
    && (forall id :: SameInsertion(s.rows, t.rows, id) ==> RowEvolves(s.rows[id], t.rows[id]))
    // an insertion that is gone stays gone
    && (forall id :: id in t.rows && t.rows[id].data.seqNo in s.seqs ==>
          SameInsertion(s.rows, t.rows, id))
    // a token that has left its row stays gone
    && (forall id :: id in t.rows && t.rows[id].leaseToken.Some?
                     && t.rows[id].leaseToken.value in s.issued ==>
          SameInsertion(s.rows, t.rows, id) && s.rows[id].leaseToken == t.rows[id].leaseToken)
  }

  lemma NextEvolvesRow(snap: Rows, s: State, step: Step, t: State, relayMax: int, id: Id)
    requires Inv(s) && Next(snap, s, step, t, relayMax) && id in t.rows && id in s.rows
    ensures RowEvolves(s.rows[id], t.rows[id])
  {
    EffectOnRow(s.rows, step, id);
    assert Shape(s.rows[id], s.clock);
  }

  lemma NextEvolves(snap: Rows, s: State, step: Step, t: State, relayMax: int)
    requires Inv(s) && Next(snap, s, step, t, relayMax)
    ensures Evolves(s, t)
  {
    forall id | SameInsertion(s.rows, t.rows, id) ensures RowEvolves(s.rows[id], t.rows[id]) {
      NextEvolvesRow(snap, s, step, t, relayMax, id);
    }
    forall id | id in t.rows && t.rows[id].data.seqNo in s.seqs
      ensures SameInsertion(s.rows, t.rows, id)
    {
      SeqOrigin(snap, s, step, t, relayMax, id);
    }
    forall id | id in t.rows && t.rows[id].leaseToken.Some? && t.rows[id].leaseToken.value in s.issued
      ensures SameInsertion(s.rows, t.rows, id) && s.rows[id].leaseToken == t.rows[id].leaseToken
    {
      TokenOrigin(snap, s, step, t, relayMax, id);
      SeqOrigin(snap, s, step, t, relayMax, id);
    }
  }

  lemma EvolvesReflexive(s: State)
    requires Inv(s)
    ensures Evolves(s, s)
  {
  }

  lemma EvolvesTransitive(s: State, t: State, u: State)
    requires Evolves(s, t) && Evolves(t, u)
    requires TokensUnique(s) && SeqsUnique(s)
    ensures Evolves(s, u)
  {
    forall id | SameInsertion(s.rows, u.rows, id) ensures RowEvolves(s.rows[id], u.rows[id]) {
      assert u.rows[id].data.seqNo in s.seqs;
      assert SameInsertion(t.rows, u.rows, id);
      assert SameInsertion(s.rows, t.rows, id);
      assert RowEvolves(s.rows[id], t.rows[id]) && RowEvolves(t.rows[id], u.rows[id]);
    }
    forall id | id in u.rows && u.rows[id].leaseToken.Some? && u.rows[id].leaseToken.value in s.issued
      ensures SameInsertion(s.rows, u.rows, id) && s.rows[id].leaseToken == u.rows[id].leaseToken
    {
      assert SameInsertion(t.rows, u.rows, id) && t.rows[id].leaseToken == u.rows[id].leaseToken;
    }
  }

  /** Any two states of a run, in order, are related by `Evolves`. */
  lemma {:induction false} RunEvolves(run: Run, relayMax: int, i: nat, j: nat)
    requires ValidRun(run, relayMax) && i <= j < |run.states|
    ensures Evolves(run.states[i], run.states[j])
    decreases j - i
  {
    ReachableInv(run, relayMax, i);
    if i == j {
      EvolvesReflexive(run.states[i]);
    } else {
      RunEvolves(run, relayMax, i, j - 1);
      ReachableInv(run, relayMax, j - 1);
      assert StepOk(run, j - 1, relayMax);
      NextEvolves(Seen(run, j - 1), run.states[j - 1], run.steps[j - 1], run.states[j], relayMax);
      EvolvesTransitive(run.states[i], run.states[j - 1], run.states[j]);
    }
  }

  /** An insertion seen at two states of a run was there at every state in between. */
  lemma InsertionStays(run: Run, relayMax: int, i: nat, m: nat, j: nat, id: Id)
    requires ValidRun(run, relayMax) && i <= m <= j < |run.states|
    requires SameInsertion(run.states[i].rows, run.states[j].rows, id)
    ensures SameInsertion(run.states[i].rows, run.states[m].rows, id)
    ensures SameInsertion(run.states[m].rows, run.states[j].rows, id)
  {
    ReachableInv(run, relayMax, i);
    RunEvolves(run, relayMax, i, m);
    RunEvolves(run, relayMax, m, j);
  }
}
