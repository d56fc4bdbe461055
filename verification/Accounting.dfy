/** Attempts per row, and claims per run, counted against the trace. */
module Accounting {
  import opened Messages
  import opened Statements
  import opened Protocol
  import opened Scenarios
  import opened Sets

  // ---- attempts -----------------------------------------------------------

  /** Step `i` starts a row's history over: it inserts the row or replays it. */
  predicate Restarts(run: Run, i: nat, id: Id)
    requires i < |run.steps| && i < |run.states|
  {
    match run.steps[i]
    case Enqueue(_, _) => id !in run.states[i].rows
    case Requeue(who, _) => who == id && id in run.states[i].rows && run.states[i].rows[id].status == Dead
    case _ => false
  }

  predicate ClaimsIt(run: Run, i: nat, id: Id)
    requires i < |run.steps|
  {
    run.steps[i].Claim? && id in run.steps[i].grants
  }

  /** A claim of a row that is still processing: the claim it had was abandoned. */
  predicate Abandons(run: Run, i: nat, id: Id)
    requires i < |run.steps| && i < |run.states|
  {
    ClaimsIt(run, i, id) && id in run.states[i].rows && run.states[i].rows[id].status == Processing
  }

  /** Claims of `id` among the first `i` steps since it was inserted or last requeued. */
  function ClaimsSince(run: Run, i: nat, id: Id): nat
    requires i <= |run.steps| && i < |run.states|
  {
    if i == 0 || Restarts(run, i - 1, id) then 0
    else ClaimsSince(run, i - 1, id) + if ClaimsIt(run, i - 1, id) then 1 else 0
  }

  /** Of those claims, the ones a later claim superseded before any settlement. */
  function AbandonedSince(run: Run, i: nat, id: Id): nat
    requires i <= |run.steps| && i < |run.states|
  {
    if i == 0 || Restarts(run, i - 1, id) then 0
    else AbandonedSince(run, i - 1, id) + if Abandons(run, i - 1, id) then 1 else 0
  }

  /** The `attempts` column is the number of claims since insertion or last requeue. */
  lemma {:induction false} AttemptsCountClaims(run: Run, relayMax: int, i: nat, id: Id)
    requires ValidRun(run, relayMax) && i < |run.states| && id in run.states[i].rows
    ensures run.states[i].rows[id].attempts == ClaimsSince(run, i, id)
  {
    assert StepOk(run, i - 1, relayMax);
    EffectOnRow(run.states[i - 1].rows, run.steps[i - 1], id);
    if id in run.states[i - 1].rows {
      AttemptsCountClaims(run, relayMax, i - 1, id);
    }
  }

  predicate Within(row: Row, relayMax: int, abandoned: nat) {
    var limit := EffectiveMax(row.data, relayMax);
    && (row.status == Pending ==> row.attempts == 0 || row.attempts < limit)
    && row.attempts <= Max(1, limit) + abandoned
  }

  /**
   The attempt ceiling. A pending row has attempts left, or has had none; and no
   row exceeds its limit (at least one attempt) by more than the number of its
   abandoned claims. Without abandoned claims the ceiling is therefore exact.
   */
  lemma {:induction false} AttemptsCeiling(run: Run, relayMax: int, i: nat, id: Id)
    requires ValidRun(run, relayMax) && i < |run.states| && id in run.states[i].rows
    ensures Within(run.states[i].rows[id], relayMax, AbandonedSince(run, i, id))
  {
    assert StepOk(run, i - 1, relayMax);
    if id in run.states[i - 1].rows {
      AttemptsCeiling(run, relayMax, i - 1, id);
      NextKeepsCeiling(run, relayMax, i - 1, id);
    } else {
      EffectOnRow(run.states[i - 1].rows, run.steps[i - 1], id);
    }
  }

  lemma NextKeepsCeiling(run: Run, relayMax: int, i: nat, id: Id)
    requires ValidRun(run, relayMax) && i < |run.steps|
    requires id in run.states[i].rows && id in run.states[i + 1].rows
    requires Within(run.states[i].rows[id], relayMax, AbandonedSince(run, i, id))
    ensures Within(run.states[i + 1].rows[id], relayMax, AbandonedSince(run, i + 1, id))
  {
    assert StepOk(run, i, relayMax);
    var s, step := run.states[i], run.steps[i];
    EffectOnRow(s.rows, step, id);
    if ClaimsIt(run, i, id) {
      assert Grantable(Seen(run, i), s.rows, step.ordered, step.now, id);
    }
    if step.Finish? && Live(s.rows[id], id, step.keys, step.clock(id).seen) {
      assert id in Hits(s.rows, step.keys, step.clock);
    }
  }

  // ---- over the limit ----------------------------------------------------------

  function Ceiling(r: Row, relayMax: int): int {
    Max(1, EffectiveMax(r.data, relayMax))
  }

  predicate OverLimit(r: Row, relayMax: int) {
    r.attempts > Ceiling(r, relayMax)
  }

  /** A processing row that has used up its attempts: what a claim would have to pass over, and does not. */
  predicate UsedUp(rows: Rows, id: Id, relayMax: int) {
    id in rows && rows[id].status == Processing && rows[id].attempts >= Ceiling(rows[id], relayMax)
  }

  /** A claim takes a row over its limit exactly if it takes over an abandoned claim with no attempts left. */
  lemma ClaimExceedsLimitIff(run: Run, relayMax: int, i: nat, id: Id)
    requires ValidRun(run, relayMax) && i < |run.steps| && ClaimsIt(run, i, id)
    ensures id in run.states[i].rows && id in run.states[i + 1].rows
    ensures OverLimit(run.states[i + 1].rows[id], relayMax) <==> UsedUp(run.states[i].rows, id, relayMax)
    ensures OverLimit(run.states[i].rows[id], relayMax) ==> UsedUp(run.states[i].rows, id, relayMax)
  {
    assert StepOk(run, i, relayMax);
    assert Grantable(Seen(run, i), run.states[i].rows, run.steps[i].ordered, run.steps[i].now, id);
    EffectOnRow(run.states[i].rows, run.steps[i], id);
    AttemptsCeiling(run, relayMax, i, id);
  }

  lemma OtherStepsKeepLimit(run: Run, relayMax: int, i: nat, id: Id)
    requires ValidRun(run, relayMax) && i < |run.steps| && !ClaimsIt(run, i, id)
    requires id in run.states[i + 1].rows
    ensures Restarts(run, i, id) ==> !OverLimit(run.states[i + 1].rows[id], relayMax)
    ensures !Restarts(run, i, id) ==> id in run.states[i].rows
    ensures !Restarts(run, i, id) ==>
      (OverLimit(run.states[i + 1].rows[id], relayMax) <==> OverLimit(run.states[i].rows[id], relayMax))
  {
    assert StepOk(run, i, relayMax);
    EffectOnRow(run.states[i].rows, run.steps[i], id);
  }

  /** Step `k` took row `id` over with no attempts left, and nothing has restarted it before state `i`. */
  predicate TakenOver(run: Run, relayMax: int, k: nat, i: nat, id: Id)
    requires i <= |run.steps| && i < |run.states|
  {
    && k < i && ClaimsIt(run, k, id) && UsedUp(run.states[k].rows, id, relayMax)
    && forall m :: k < m < i ==> !Restarts(run, m, id)
  }

  /**
   The limit is kept unless a claim is abandoned at it: in every reachable state a row
   has more attempts than its limit allows if and only if, since it was inserted or
   last requeued, a claim took it over from an abandoned one with no attempts left.
   */
  lemma {:induction false} OverLimitIff(run: Run, relayMax: int, i: nat, id: Id)
    requires ValidRun(run, relayMax) && i < |run.states| && id in run.states[i].rows
    ensures var row := run.states[i].rows[id];
            var limit := if row.data.maxAttempts.Some? then row.data.maxAttempts.value else relayMax;
            row.attempts > 1 && row.attempts > limit <==> exists k: nat :: TakenOver(run, relayMax, k, i, id)
  {
    var j := i - 1;
    forall k: nat ensures TakenOver(run, relayMax, k, i, id) <==>
                     (k == j && ClaimsIt(run, j, id) && UsedUp(run.states[j].rows, id, relayMax))
                     || (!Restarts(run, j, id) && TakenOver(run, relayMax, k, j, id))
    {
      TakenOverNext(run, relayMax, k, j, id);
    }
    if ClaimsIt(run, j, id) {
      ClaimExceedsLimitIff(run, relayMax, j, id);
      OverLimitIff(run, relayMax, j, id);
      assert UsedUp(run.states[j].rows, id, relayMax) ==> TakenOver(run, relayMax, j, i, id);
    } else {
      OtherStepsKeepLimit(run, relayMax, j, id);
      if !Restarts(run, j, id) { OverLimitIff(run, relayMax, j, id); }
    }
  }

  lemma TakenOverNext(run: Run, relayMax: int, k: nat, j: nat, id: Id)
    requires j < |run.steps| && j + 1 < |run.states|
    ensures TakenOver(run, relayMax, k, j + 1, id) <==>
            (k == j && ClaimsIt(run, j, id) && UsedUp(run.states[j].rows, id, relayMax))
            || (!Restarts(run, j, id) && TakenOver(run, relayMax, k, j, id))
  {
    if !Restarts(run, j, id) && TakenOver(run, relayMax, k, j, id) {
      forall m | k < m < j + 1 ensures !Restarts(run, m, id) { }
    }
  }

  /**
   And nothing bounds how often that happens: for every n some run takes a message
   to n attempts, its relay crashing each time, whatever limit the message has.
   */
  lemma {:induction false} CrashesExceedAnyLimit(id: Id, data: Envelope, n: nat) returns (run: Run)
    requires n >= 1
    ensures ValidRun(run, 1)
    ensures var s := run.states[|run.steps|];
            && s.rows.Keys == {id} && s.rows[id].status == Processing
            && s.rows[id].data == data && s.rows[id].attempts == n
            && s.rows[id].lockedUntil == Some(s.clock + 30) && s.rows[id].nextAttemptAt <= s.clock
            && forall t :: t in s.issued ==> |t| < n
  {
    if n == 1 {
      var s0 := State(map[], data.createdAt, {}, {});
      var run1, s1 := ThenInsert(Run([s0], []), s0, id, data, data.createdAt);
      var run2, s2 := ThenClaim(run1, s1, id, TokenOf(0));
      run := run2;
    } else {
      var before := CrashesExceedAnyLimit(id, data, n - 1);
      var s := before.states[|before.steps|];
      var waited, later := ThenWait(before, s, s.clock + 31);
      var again, t := ThenClaim(waited, later, id, TokenOf(n - 1));
      run := again;
    }
  }

  // ---- claims, settlements, abandoned, in flight ------------------------------

  function InFlight(rows: Rows): set<Id> {
    set id | id in rows && rows[id].status == Processing
  }

  /** Rows that step `i` claimed, settled, or took over from an abandoned claim. */
  function ClaimedIds(run: Run, i: nat): set<Id>
    requires i < |run.steps|
  {
    if run.steps[i].Claim? then run.steps[i].grants.Keys else {}
  }

  function SettledIds(run: Run, i: nat): set<Id>
    requires i < |run.steps| && i < |run.states|
  {
    if run.steps[i].Finish? then Hits(run.states[i].rows, run.steps[i].keys, run.steps[i].clock) else {}
  }

  function AbandonedIds(run: Run, i: nat): set<Id>
    requires i < |run.steps| && i < |run.states|
  {
    ClaimedIds(run, i) * InFlight(run.states[i].rows)
  }

  function Claims(run: Run, i: nat): nat
    requires i <= |run.steps|
  {
    if i == 0 then 0 else Claims(run, i - 1) + |ClaimedIds(run, i - 1)|
  }

  function Settlements(run: Run, i: nat): nat
    requires i <= |run.steps| && i < |run.states|
  {
    if i == 0 then 0 else Settlements(run, i - 1) + |SettledIds(run, i - 1)|
  }

  function Abandonments(run: Run, i: nat): nat
    requires i <= |run.steps| && i < |run.states|
  {
    if i == 0 then 0 else Abandonments(run, i - 1) + |AbandonedIds(run, i - 1)|
  }

  lemma InFlightAfterAt(run: Run, relayMax: int, i: nat, id: Id)
    requires ValidRun(run, relayMax) && i < |run.steps|
    ensures id in InFlight(run.states[i + 1].rows) <==>
            (id in InFlight(run.states[i].rows) || id in ClaimedIds(run, i)) && id !in SettledIds(run, i)
    ensures id in SettledIds(run, i) ==> id in InFlight(run.states[i].rows)
  {
    assert StepOk(run, i, relayMax);
    var s, step, t := run.states[i], run.steps[i], run.states[i + 1];
    if step.Enqueue? { InsertKeepsFirst(s.rows, step.items, id); }
    if step.Cleanup? && id in s.rows && id !in t.rows { ReachableInv(run, relayMax, i); assert Shape(s.rows[id], s.clock); }
    if id in t.rows { EffectOnRow(s.rows, step, id); }
    if step.Claim? && id in step.grants { assert Grantable(Seen(run, i), s.rows, step.ordered, step.now, id); }
  }

  lemma InFlightAfter(run: Run, relayMax: int, i: nat)
    requires ValidRun(run, relayMax) && i < |run.steps|
    ensures InFlight(run.states[i + 1].rows) ==
            (InFlight(run.states[i].rows) + ClaimedIds(run, i)) - SettledIds(run, i)
    ensures SettledIds(run, i) <= InFlight(run.states[i].rows)
  {
    forall id
      ensures id in InFlight(run.states[i + 1].rows) <==>
              id in (InFlight(run.states[i].rows) + ClaimedIds(run, i)) - SettledIds(run, i)
      ensures id in SettledIds(run, i) ==> id in InFlight(run.states[i].rows)
    {
      InFlightAfterAt(run, relayMax, i, id);
    }
  }

  /** Of each step: what it claimed is what it settled, took over, or added to the rows in flight. */
  lemma StepBalances(run: Run, relayMax: int, i: nat)
    requires ValidRun(run, relayMax) && i < |run.steps|
    ensures |InFlight(run.states[i].rows)| + |ClaimedIds(run, i)| ==
            |SettledIds(run, i)| + |AbandonedIds(run, i)| + |InFlight(run.states[i + 1].rows)|
  {
    InFlightAfter(run, relayMax, i);
    var before, claimed, settled := InFlight(run.states[i].rows), ClaimedIds(run, i), SettledIds(run, i);
    UnionSize(claimed, before);
    assert before + claimed == claimed + before;
    DifferenceSize(claimed + before, settled);
  }

  lemma NothingInFlight(rows: Rows)
    requires rows == map[]
    ensures |InFlight(rows)| == 0
  {
    assert InFlight(rows) == {};
  }

  ghost function Unaccounted(run: Run, i: nat): int
    requires i <= |run.steps| && i < |run.states|
  {
    Claims(run, i) - Settlements(run, i) - Abandonments(run, i) - |InFlight(run.states[i].rows)|
  }

  lemma {:induction false} NoneUnaccounted(run: Run, relayMax: int, i: nat)
    requires ValidRun(run, relayMax) && i < |run.states|
    ensures Unaccounted(run, i) == 0
  {
    if i > 0 {
      NoneUnaccounted(run, relayMax, i - 1);
      NextAccountsForAll(run, relayMax, i - 1);
    } else {
      NothingInFlight(run.states[0].rows);
    }
  }

  lemma NextAccountsForAll(run: Run, relayMax: int, i: nat)
    requires ValidRun(run, relayMax) && i < |run.steps|
    ensures Unaccounted(run, i + 1) == Unaccounted(run, i)
  {
    StepBalances(run, relayMax, i);
  }

  /** No claim is ever lost track of: each is settled, abandoned, or still in flight. */
  lemma ClaimsBalance(run: Run, relayMax: int, i: nat)
    requires ValidRun(run, relayMax) && i < |run.states|
    ensures Claims(run, i) ==
            Settlements(run, i) + Abandonments(run, i) + |InFlight(run.states[i].rows)|
  {
    NoneUnaccounted(run, relayMax, i);
  }
}
