/** Claim tokens over whole runs: issued once, consumed once, inert afterwards. */
module Fencing {
  import opened Messages
  import opened Statements
  import opened Protocol
  import opened Evolution

  predicate Holds(rows: Rows, id: Id, token: Token) {
    id in rows && rows[id].leaseToken == Some(token)
  }

  predicate GrantedAt(run: Run, k: int, id: Id, token: Token) {
    && 0 <= k < |run.steps|
    && run.steps[k].Claim? && id in run.steps[k].grants && run.steps[k].grants[id].token == token
  }

  /** The keys a renew or finish statement names; no other statement names any. */
  function KeysOf(step: Step): set<Key> {
    match step
    case Renew(keys, _, _, _) => keys
    case Finish(keys, _, _, _, _) => keys
    case _ => {}
  }

  function WithKeys(step: Step, keys: set<Key>): Step {
    match step
    case Renew(_, lease, now, clock) => Renew(keys, lease, now, clock)
    case Finish(_, result, clear, now, clock) => Finish(keys, result, clear, now, clock)
    case _ => step
  }

  /** Step `k` is a renew or finish that reaches row `id` through `token`. */
  predicate Reaches(run: Run, k: int, id: Id, token: Token) {
    && 0 <= k < |run.steps| && k < |run.states|
    && (run.steps[k].Renew? || run.steps[k].Finish?)
    && Holds(run.states[k].rows, id, token)
    && id in Hits(run.states[k].rows, KeysOf(run.steps[k]), run.steps[k].clock)
  }

  /** The claim `(id, token)` was granted before state `i` and is no longer the row's claim there. */
  predicate Stale(run: Run, i: int, id: Id, token: Token) {
    && 0 <= i < |run.states|
    && token in run.states[i].issued
    && !Holds(run.states[i].rows, id, token)
  }

  lemma GrantHolds(run: Run, relayMax: int, k: nat, id: Id, token: Token)
    requires ValidRun(run, relayMax) && GrantedAt(run, k, id, token)
    ensures token !in run.states[k].issued && token in run.states[k + 1].issued
    ensures Holds(run.states[k + 1].rows, id, token)
  {
    assert StepOk(run, k, relayMax);
    assert token in Tokens(run.steps[k].grants);
    assert Grantable(Seen(run, k), run.states[k].rows, run.steps[k].ordered, run.steps[k].now, id);
  }

  lemma NotIssuedAgain(run: Run, relayMax: int, k: nat, l: nat, a: Id, b: Id, token: Token)
    requires ValidRun(run, relayMax) && k < l && GrantedAt(run, k, a, token)
    ensures !GrantedAt(run, l, b, token)
  {
    if GrantedAt(run, l, b, token) {
      GrantHolds(run, relayMax, k, a, token);
      GrantHolds(run, relayMax, l, b, token);
      RunEvolves(run, relayMax, k + 1, l);
    }
  }

  /** A token is granted once per run, to one row. */
  lemma TokenIssuedOnce(run: Run, relayMax: int, k: nat, l: nat, a: Id, b: Id, token: Token)
    requires ValidRun(run, relayMax)
    requires GrantedAt(run, k, a, token) && GrantedAt(run, l, b, token)
    ensures k == l && a == b
  {
    if k < l { NotIssuedAgain(run, relayMax, k, l, a, b, token); }
    if l < k { NotIssuedAgain(run, relayMax, l, k, b, a, token); }
    assert StepOk(run, k, relayMax);
  }

  /**
   Fencing. Once a claim is stale, naming it in any later renew or finish is the
   same as not naming it: same table, same returned rows, whoever issues the
   statement and whatever happened to the row's attempts since.
   */
  lemma StaleClaimIsInert(run: Run, relayMax: int, i: nat, k: nat, id: Id, token: Token)
    requires ValidRun(run, relayMax) && Stale(run, i, id, token)
    requires i <= k < |run.steps|
    ensures Stale(run, k, id, token)
    ensures !Reaches(run, k, id, token)
    ensures var rows, step, keys := run.states[k].rows, run.steps[k], KeysOf(run.steps[k]) - {Key(id, token)};
            && Effect(rows, step) == Effect(rows, WithKeys(step, keys))
            && (step.Renew? || step.Finish? ==> Hits(rows, KeysOf(step), step.clock) == Hits(rows, keys, step.clock))
  {
    RunEvolves(run, relayMax, i, k);
    var rows, step, keys := run.states[k].rows, run.steps[k], KeysOf(run.steps[k]) - {Key(id, token)};
    if step.Renew? || step.Finish? {
      forall other | other in rows
        ensures Live(rows[other], other, KeysOf(step), step.clock(other).seen)
                <==> Live(rows[other], other, keys, step.clock(other).seen)
      {
      }
    }
  }

  // ---- expiry ----------------------------------------------------------------

  /** Row `id` carries `token`, and its lease is over at `at`; so it is, for one, whenever a claim could take it at `at`. */
  predicate Overdue(rows: Rows, id: Id, token: Token, at: Time) {
    Holds(rows, id, token) && rows[id].lockedUntil.Some? && rows[id].lockedUntil.value <= at
  }

  /** Every statement of steps i to k-1 that names the claim started at `at` or later. */
  predicate NamedOnlyAfter(run: Run, i: nat, k: nat, id: Id, token: Token, at: Time) {
    forall m :: i <= m < k && m < |run.steps| && Key(id, token) in KeysOf(run.steps[m]) ==> StartOf(run.steps[m]) >= at
  }

  function StartOf(step: Step): Time {
    match step
    case Renew(_, _, now, _) => now
    case Finish(_, _, _, now, _) => now
    case _ => 0
  }

  lemma LateStatementMisses(run: Run, relayMax: int, k: nat, id: Id, token: Token, at: Time)
    requires ValidRun(run, relayMax) && k < |run.steps|
    requires Holds(run.states[k].rows, id, token) ==> Overdue(run.states[k].rows, id, token, at)
    requires Key(id, token) in KeysOf(run.steps[k]) ==> StartOf(run.steps[k]) >= at
    ensures !Reaches(run, k, id, token)
  {
    assert StepOk(run, k, relayMax);
  }

  /** An overdue row that still carries its token has not been touched. */
  lemma {:induction false} OverdueRests(run: Run, relayMax: int, i: nat, k: nat, id: Id, token: Token, at: Time)
    requires ValidRun(run, relayMax) && i <= k < |run.states| && Overdue(run.states[i].rows, id, token, at)
    requires NamedOnlyAfter(run, i, k, id, token, at)
    ensures Holds(run.states[k].rows, id, token) ==> run.states[k].rows[id] == run.states[i].rows[id]
    decreases k
  {
    if i < k && Holds(run.states[k].rows, id, token) {
      ReachableInv(run, relayMax, i);
      RunEvolves(run, relayMax, i, k - 1);
      RunEvolves(run, relayMax, k - 1, k);
      OverdueRests(run, relayMax, i, k - 1, id, token, at);
      assert token in run.states[k - 1].issued;
      LateStatementMisses(run, relayMax, k - 1, id, token, at);
      MissedRowRests(run, relayMax, k - 1, id, token);
    }
  }

  lemma MissedRowRests(run: Run, relayMax: int, k: nat, id: Id, token: Token)
    requires ValidRun(run, relayMax) && k < |run.steps| && token in run.states[k].issued
    requires Holds(run.states[k].rows, id, token) && Holds(run.states[k + 1].rows, id, token)
    requires !Reaches(run, k, id, token)
    ensures run.states[k + 1].rows[id] == run.states[k].rows[id]
  {
    assert StepOk(run, k, relayMax);
    EffectOnRow(run.states[k].rows, run.steps[k], id);
  }

  /**
   An expired lease is never resurrected, and an outcome is never recorded under one,
   even if nobody has claimed the row yet: once the deadline has passed, no renew or
   finish that starts later reaches any row through the token.
   */
  lemma ExpiredClaimIsInert(run: Run, relayMax: int, i: nat, k: nat, id: Id, other: Id, token: Token, at: Time)
    requires ValidRun(run, relayMax) && i <= k < |run.steps| && Overdue(run.states[i].rows, id, token, at)
    requires NamedOnlyAfter(run, i, k + 1, id, token, at)
    ensures !Reaches(run, k, other, token)
  {
    ReachableInv(run, relayMax, i);
    RunEvolves(run, relayMax, i, k);
    assert token in run.states[i].issued;
    if Holds(run.states[k].rows, other, token) {
      assert SameInsertion(run.states[i].rows, run.states[k].rows, other);
      assert other == id;
      OverdueRests(run, relayMax, i, k, id, token, at);
      LateStatementMisses(run, relayMax, k, id, token, at);
    }
  }

  /** Re-claiming a row, or settling it, makes the claim it carried stale. */
  lemma ClaimEnds(run: Run, relayMax: int, k: nat, id: Id, token: Token)
    requires ValidRun(run, relayMax) && k < |run.steps| && Holds(run.states[k].rows, id, token)
    requires (run.steps[k].Claim? && id in run.steps[k].grants)
             || (run.steps[k].Finish? && Reaches(run, k, id, token))
    ensures Stale(run, k + 1, id, token)
  {
    ReachableInv(run, relayMax, k);
    assert StepOk(run, k, relayMax);
    if id in run.states[k + 1].rows { EffectOnRow(run.states[k].rows, run.steps[k], id); }
  }

  /**
   A token settles at most one row, at most once: after a finish reached a row
   through it, or the row was claimed again, no renew or finish anywhere reaches
   any row through it.
   */
  lemma TokenConsumedOnce(run: Run, relayMax: int, k: nat, l: nat, id: Id, other: Id, token: Token)
    requires ValidRun(run, relayMax) && k < l && k < |run.steps|
    requires Holds(run.states[k].rows, id, token)
    requires (run.steps[k].Claim? && id in run.steps[k].grants)
             || (run.steps[k].Finish? && Reaches(run, k, id, token))
    ensures !Reaches(run, l, other, token)
  {
    if Reaches(run, l, other, token) {
      ReachableInv(run, relayMax, k);
      ClaimEnds(run, relayMax, k, id, token);
      RunEvolves(run, relayMax, k, l);
      assert token in run.states[k].issued;
      assert SameInsertion(run.states[k].rows, run.states[l].rows, other);
      assert other == id;
      StaleClaimIsInert(run, relayMax, k + 1, l, id, token);
    }
  }
}
