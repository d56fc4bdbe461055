/** Nothing is stranded, and a backlog is worked off in a bounded number of passes. */
module Progress {
  import opened Messages
  import opened Statements
  import opened Protocol
  import opened Evolution
  import opened Conservation
  import opened Fencing
  import opened Sets

  // ---- nothing is stranded ----------------------------------------------------

  /** The first instant at which an untouched pending or processing row can be claimed. */
  function DueAt(r: Row): Time {
    if r.status == Pending then r.nextAttemptAt
    else if r.lockedUntil.Some? then r.lockedUntil.value + 1
    else 0
  }

  /**
   From every reachable state, also after a crash, a fatal stop or a lost lease,
   each pending or processing row becomes claimable at a known instant: a
   processing row by expiry of its lease alone, since it was due before.
   */
  lemma NothingStranded(run: Run, relayMax: int, i: nat, id: Id, now: Time)
    requires ValidRun(run, relayMax) && i < |run.states| && now >= run.states[i].clock
    requires id in run.states[i].rows && !Terminal(run.states[i].rows[id].status)
    ensures Claimable(run.states[i].rows[id], now) <==> now >= DueAt(run.states[i].rows[id])
  {
    ReachableInv(run, relayMax, i);
    assert Shape(run.states[i].rows[id], run.states[i].clock);
  }

  function Predecessors(rows: Rows, id: Id): set<Id>
    requires id in rows
  {
    set e | e in rows && Before(rows[e].data, rows[id].data)
  }

  /** Every unresolved row has an unresolved head of its key in front of it, possibly itself. */
  lemma {:induction false} KeyHead(rows: Rows, id: Id) returns (head: Id)
    requires id in rows && !Resolved(rows[id].status)
    ensures head in rows && !Resolved(rows[head].status) && Unblocked(rows, rows[head])
    ensures var d, e := rows[head].data, rows[id].data;
            head == id
            || (d.partitionKey.Some? && d.partitionKey == e.partitionKey
                && (d.createdAt < e.createdAt || (d.createdAt == e.createdAt && d.seqNo < e.seqNo)))
    decreases |Predecessors(rows, id)|
  {
    if Unblocked(rows, rows[id]) {
      head := id;
    } else {
      var e :| e in rows && Blocks(rows[e], rows[id]);
      assert Predecessors(rows, e) <= Predecessors(rows, id) - {e};
      assert |Predecessors(rows, id) - {e}| < |Predecessors(rows, id)|;
      SubsetSize(Predecessors(rows, e), Predecessors(rows, id) - {e});
      head := KeyHead(rows, e);
    }
  }

  /**
   In ordered mode the head of every key with unfinished work is dead - and then
   blocks its key until requeued or removed - or an ordered claim may take it
   from its due instant on.
   */
  lemma HeadNotStranded(run: Run, relayMax: int, i: nat, id: Id) returns (head: Id)
    requires ValidRun(run, relayMax) && i < |run.states|
    requires id in run.states[i].rows && !Resolved(run.states[i].rows[id].status)
    ensures head in run.states[i].rows && run.states[i].rows[head].status !in {Published, Discarded}
    ensures var d, e := run.states[i].rows[head].data, run.states[i].rows[id].data;
            head == id || (d.partitionKey.Some? && d.partitionKey == e.partitionKey)
    ensures var rows := run.states[i].rows;
            rows[head].status == Dead
            || forall now :: now >= run.states[i].clock ==>
                 (Grantable(rows, rows, true, now, head) <==> now >= DueAt(rows[head]))
  {
    head := KeyHead(run.states[i].rows, id);
    if run.states[i].rows[head].status != Dead {
      forall now | now >= run.states[i].clock
        ensures Claimable(run.states[i].rows[head], now) <==> now >= DueAt(run.states[i].rows[head])
      {
        NothingStranded(run, relayMax, i, head, now);
      }
    }
  }

  /**
   A retry waits out its delay: after a finish sent a row back to pending, the
   next claim of it reads a `now()` no earlier than that finish's clock plus the
   requested delay.
   */
  lemma {:induction false} RetryWaits(run: Run, relayMax: int, k: nat, j: nat, id: Id)
    requires ValidRun(run, relayMax) && k < j < |run.steps|
    requires run.steps[k].Finish? && run.steps[k].result.status == Pending
    requires id in Hits(run.states[k].rows, run.steps[k].keys, run.steps[k].clock)
    requires forall m :: k < m < j && run.steps[m].Claim? ==> id !in run.steps[m].grants
    requires run.steps[j].Claim? && id in run.steps[j].grants
    ensures run.steps[j].now >= run.steps[k].clock(id).stamped + run.steps[k].result.delay
  {
    assert StepOk(run, k, relayMax);
    EffectOnRow(run.states[k].rows, run.steps[k], id);
    UnclaimedPendingRests(run, relayMax, k + 1, j, id);
    assert StepOk(run, j, relayMax);
    assert Grantable(Seen(run, j), run.states[j].rows, run.steps[j].ordered, run.steps[j].now, id);
  }

  /**
   And it waits intact: until that claim the row holds its message, the attempts made
   so far, the reason of the failure, no lease, and exactly that due time.
   */
  lemma FailureIsRecorded(run: Run, relayMax: int, k: nat, j: nat, id: Id)
    requires ValidRun(run, relayMax) && k < j < |run.states|
    requires run.steps[k].Finish? && run.steps[k].result.status == Pending
    requires id in Hits(run.states[k].rows, run.steps[k].keys, run.steps[k].clock)
    requires forall m :: k < m < j && run.steps[m].Claim? ==> id !in run.steps[m].grants
    ensures id in run.states[j].rows
    ensures var was, at := run.states[k].rows[id], run.steps[k].clock(id).stamped;
            run.states[j].rows[id] ==
            Row(was.data, Pending, was.attempts, None, None, None, at + run.steps[k].result.delay,
                NullIfEmpty(run.steps[k].result.reason), None, None)
  {
    assert StepOk(run, k, relayMax);
    assert id in run.states[k + 1].rows;
    EffectOnRow(run.states[k].rows, run.steps[k], id);
    UnclaimedPendingRests(run, relayMax, k + 1, j, id);
  }

  lemma {:induction false} UnclaimedPendingRests(run: Run, relayMax: int, k: nat, j: nat, id: Id)
    requires ValidRun(run, relayMax) && k <= j < |run.states|
    requires id in run.states[k].rows && run.states[k].rows[id].status == Pending
    requires forall m :: k <= m < j && run.steps[m].Claim? ==> id !in run.steps[m].grants
    ensures id in run.states[j].rows && run.states[j].rows[id] == run.states[k].rows[id]
    decreases j - k
  {
    if k < j {
      UnclaimedPendingRests(run, relayMax, k, j - 1, id);
      assert StepOk(run, j - 1, relayMax);
      var s, step := run.states[j - 1], run.steps[j - 1];
      UnfinishedIsKept(run, relayMax, j - 1, id);
      EffectOnRow(s.rows, step, id);
    }
  }

  // ---- rank ------------------------------------------------------------------

  /** How many more passes a row can take part in. */
  function Rank(r: Row, relayMax: int): nat {
    if Terminal(r.status) then 0 else Max(1, EffectiveMax(r.data, relayMax) - r.attempts)
  }

  function Ranks(rows: Rows, relayMax: int): map<Id, nat> {
    map id | id in rows :: Rank(rows[id], relayMax)
  }

  ghost function Sum(m: map<Id, nat>): nat
    decreases |m|
  {
    if m == map[] then 0 else var k :| k in m; m[k] + Sum(m - {k})
  }

  ghost function TotalRank(rows: Rows, relayMax: int): nat {
    Sum(Ranks(rows, relayMax))
  }

  /** The sum does not depend on the order in which it is taken. */
  lemma {:induction false} SumRemove(m: map<Id, nat>, k: Id)
    requires k in m
    ensures Sum(m) == m[k] + Sum(m - {k})
    decreases |m|
  {
    var j :| j in m && Sum(m) == m[j] + Sum(m - {j});
    if j != k {
      SumRemove(m - {j}, k);
      SumRemove(m - {k}, j);
      assert (m - {j}) - {k} == (m - {k}) - {j};
    }
  }

  /** Fewer and smaller terms give a smaller sum, strictly if one term fell. */
  lemma {:induction false} SumFalls(a: map<Id, nat>, b: map<Id, nat>)
    requires b.Keys <= a.Keys && forall k :: k in b ==> b[k] <= a[k]
    ensures Sum(b) <= Sum(a)
    ensures (exists k :: k in b && b[k] < a[k]) ==> Sum(b) < Sum(a)
    decreases |a|
  {
    if a != map[] {
      var k :| k in a;
      SumRemove(a, k);
      if k in b {
        SumRemove(b, k);
        SumFalls(a - {k}, b - {k});
        if j :| j in b && b[j] < a[j] {
          if j != k { assert j in b - {k}; }
        }
      } else {
        SumFalls(a - {k}, b);
      }
    }
  }

  predicate Quiet(run: Run, i: nat, j: nat) {
    forall k :: i <= k < j && k < |run.steps| ==> !run.steps[k].Enqueue? && !run.steps[k].Requeue?
  }

  /** No statement of any worker raises any row's rank, whatever attempt limit the rank is taken at. */
  lemma NextKeepsRank(snap: Rows, s: State, step: Step, t: State, relayMax: int, limit: int, id: Id)
    requires Inv(s) && Next(snap, s, step, t, relayMax) && !step.Enqueue? && !step.Requeue? && id in t.rows
    ensures id in s.rows && Rank(t.rows[id], limit) <= Rank(s.rows[id], limit)
  {
    EffectOnRow(s.rows, step, id);
    if step.Claim? && id in step.grants { assert Grantable(snap, s.rows, step.ordered, step.now, id); }
  }

  lemma {:induction false} RanksFall(run: Run, relayMax: int, limit: int, i: nat, j: nat, id: Id)
    requires ValidRun(run, relayMax) && i <= j < |run.states| && Quiet(run, i, j)
    requires id in run.states[j].rows
    ensures id in run.states[i].rows
    ensures Rank(run.states[j].rows[id], limit) <= Rank(run.states[i].rows[id], limit)
    decreases j - i
  {
    if i < j {
      ReachableInv(run, relayMax, j - 1);
      assert StepOk(run, j - 1, relayMax);
      NextKeepsRank(Seen(run, j - 1), run.states[j - 1], run.steps[j - 1], run.states[j], relayMax, limit, id);
      RanksFall(run, relayMax, limit, i, j - 1, id);
    }
  }

  /** One row's part in a relay pass: a claim at `claim` that the finish at `settle` still found live. */
  datatype Pass = Pass(claim: nat, settle: nat, id: Id, token: Token)

  predicate PassOk(run: Run, p: Pass) {
    && GrantedAt(run, p.claim, p.id, p.token)
    && p.claim < p.settle < |run.steps| && run.steps[p.settle].Finish?
    && Reaches(run, p.settle, p.id, p.token)
  }

  /** The row a finish reaches is the row that was claimed, one attempt later. */
  lemma ClaimKeepsRow(run: Run, relayMax: int, p: Pass)
    requires ValidRun(run, relayMax) && PassOk(run, p)
    ensures p.id in run.states[p.claim].rows && p.id in run.states[p.settle].rows
    ensures var a, b := run.states[p.claim].rows[p.id], run.states[p.settle].rows[p.id];
            !Terminal(a.status) && b.data == a.data && b.attempts == a.attempts + 1
  {
    var i := p.claim;
    GrantHolds(run, relayMax, i, p.id, p.token);
    ClaimCounts(run, relayMax, i, p.id);
    RunEvolves(run, relayMax, i + 1, p.settle);
    assert SameInsertion(run.states[i + 1].rows, run.states[p.settle].rows, p.id);
  }

  lemma ClaimCounts(run: Run, relayMax: int, i: nat, id: Id)
    requires ValidRun(run, relayMax) && i < |run.steps| && run.steps[i].Claim? && id in run.steps[i].grants
    ensures id in run.states[i].rows && id in run.states[i + 1].rows
    ensures var a, b := run.states[i].rows[id], run.states[i + 1].rows[id];
            !Terminal(a.status) && b.data == a.data && b.attempts == a.attempts + 1
  {
    assert StepOk(run, i, relayMax);
    assert Grantable(Seen(run, i), run.states[i].rows, run.steps[i].ordered, run.steps[i].now, id);
    EffectOnRow(run.states[i].rows, run.steps[i], id);
  }

  lemma FinishLowersRow(run: Run, relayMax: int, p: Pass)
    requires ValidRun(run, relayMax) && PassOk(run, p)
    ensures p.id in run.states[p.settle].rows && p.id in run.states[p.settle + 1].rows
    ensures var b, c := run.states[p.settle].rows[p.id], run.states[p.settle + 1].rows[p.id];
            Terminal(c.status)
            || (c.data == b.data && c.attempts == b.attempts < EffectiveMax(b.data, relayMax))
  {
    assert StepOk(run, p.settle, relayMax);
    assert p.id in run.states[p.settle + 1].rows;
    EffectOnRow(run.states[p.settle].rows, run.steps[p.settle], p.id);
  }

  lemma PassLowersItsRow(run: Run, relayMax: int, p: Pass)
    requires ValidRun(run, relayMax) && PassOk(run, p)
    ensures p.id in run.states[p.claim].rows && p.id in run.states[p.settle + 1].rows
    ensures Rank(run.states[p.settle + 1].rows[p.id], relayMax) < Rank(run.states[p.claim].rows[p.id], relayMax)
  {
    ClaimKeepsRow(run, relayMax, p);
    FinishLowersRow(run, relayMax, p);
  }

  // ---- counting passes, also overlapping ones ----------------------------------

  /** How many passes over a row may still end, if those of claims in `issued` are not counted. */
  function Budget(r: Row, relayMax: int, issued: set<Token>): nat {
    if r.status == Processing && r.leaseToken.Some? && r.leaseToken.value !in issued
    then Max(1, EffectiveMax(r.data, relayMax) - r.attempts + 1)
    else Rank(r, relayMax)
  }

  function Budgets(rows: Rows, relayMax: int, issued: set<Token>): map<Id, nat> {
    map id | id in rows :: Budget(rows[id], relayMax, issued)
  }

  predicate EndsPass(s: State, step: Step, issued: set<Token>, id: Id) {
    && step.Finish? && id in Hits(s.rows, step.keys, step.clock)
    && s.rows[id].leaseToken.Some? && s.rows[id].leaseToken.value !in issued
  }

  lemma NextKeepsBudget(snap: Rows, s: State, step: Step, t: State, relayMax: int, issued: set<Token>, id: Id)
    requires Inv(s) && Next(snap, s, step, t, relayMax) && !step.Enqueue? && !step.Requeue? && id in t.rows
    requires issued <= s.issued
    ensures id in s.rows && Budget(t.rows[id], relayMax, issued) <= Budget(s.rows[id], relayMax, issued)
  {
    EffectOnRow(s.rows, step, id);
    if step.Claim? && id in step.grants { assert Grantable(snap, s.rows, step.ordered, step.now, id); }
  }

  lemma PassEndUsesBudget(snap: Rows, s: State, step: Step, t: State, relayMax: int, issued: set<Token>, id: Id)
    requires Inv(s) && Next(snap, s, step, t, relayMax) && EndsPass(s, step, issued, id)
    ensures id in t.rows && Budget(t.rows[id], relayMax, issued) < Budget(s.rows[id], relayMax, issued)
  {
    assert id in t.rows;
    EffectOnRow(s.rows, step, id);
  }

  /** A sum falls by at least the number of terms that fall. */
  lemma {:induction false} SumFallsBy(a: map<Id, nat>, b: map<Id, nat>, fallen: set<Id>)
    requires fallen <= b.Keys <= a.Keys
    requires forall k :: k in b ==> b[k] <= a[k]
    requires forall k :: k in fallen ==> b[k] < a[k]
    ensures Sum(b) + |fallen| <= Sum(a)
    decreases |fallen|
  {
    if fallen == {} {
      SumFalls(a, b);
    } else {
      var k :| k in fallen;
      SumRemove(a, k);
      SumRemove(b, k);
      SumFallsBy(a - {k}, b - {k}, fallen - {k});
    }
  }

  ghost function BudgetAt(run: Run, relayMax: int, start: nat, j: nat): nat
    requires start < |run.states| && j < |run.states|
  {
    Sum(Budgets(run.states[j].rows, relayMax, run.states[start].issued))
  }

  lemma StepUsesBudget(run: Run, relayMax: int, start: nat, j: nat, ended: set<Id>)
    requires ValidRun(run, relayMax) && start <= j < |run.steps| && Quiet(run, start, j + 1)
    requires forall id :: id in ended ==> EndsPass(run.states[j], run.steps[j], run.states[start].issued, id)
    ensures BudgetAt(run, relayMax, start, j + 1) + |ended| <= BudgetAt(run, relayMax, start, j)
  {
    var s, step, t, issued := run.states[j], run.steps[j], run.states[j + 1], run.states[start].issued;
    ReachableInv(run, relayMax, j);
    RunEvolves(run, relayMax, start, j);
    assert StepOk(run, j, relayMax);
    forall id | id in t.rows
      ensures id in s.rows && Budget(t.rows[id], relayMax, issued) <= Budget(s.rows[id], relayMax, issued)
      ensures id in ended ==> Budget(t.rows[id], relayMax, issued) < Budget(s.rows[id], relayMax, issued)
    {
      NextKeepsBudget(Seen(run, j), s, step, t, relayMax, issued, id);
      if id in ended { PassEndUsesBudget(Seen(run, j), s, step, t, relayMax, issued, id); }
    }
    SumFallsBy(Budgets(s.rows, relayMax, issued), Budgets(t.rows, relayMax, issued), ended);
  }

  /** Of passes that end in one statement, no two are over the same row. */
  lemma OnePassPerRow(run: Run, relayMax: int, p: Pass, q: Pass)
    requires ValidRun(run, relayMax) && PassOk(run, p) && PassOk(run, q)
    requires p.settle == q.settle && p.id == q.id
    ensures p == q
  {
    assert q.token == p.token;
    TokenIssuedOnce(run, relayMax, p.claim, q.claim, p.id, q.id, p.token);
  }

  function PassIds(passes: set<Pass>): set<Id> {
    set p | p in passes :: p.id
  }

  lemma {:induction false} PassIdsSize(passes: set<Pass>)
    requires forall p, q :: p in passes && q in passes && p.id == q.id ==> p == q
    ensures |PassIds(passes)| == |passes|
  {
    if passes != {} {
      var p :| p in passes;
      PassIdsSize(passes - {p});
      assert PassIds(passes) == PassIds(passes - {p}) + {p.id};
    }
  }

  lemma PassEndsFresh(run: Run, relayMax: int, start: nat, p: Pass)
    requires ValidRun(run, relayMax) && PassOk(run, p) && start <= p.claim
    ensures EndsPass(run.states[p.settle], run.steps[p.settle], run.states[start].issued, p.id)
  {
    GrantHolds(run, relayMax, p.claim, p.id, p.token);
    RunEvolves(run, relayMax, start, p.claim);
  }

  lemma BudgetIsRankAtStart(run: Run, relayMax: int, start: nat)
    requires ValidRun(run, relayMax) && start < |run.states|
    ensures BudgetAt(run, relayMax, start, start) == TotalRank(run.states[start].rows, relayMax)
  {
    ReachableInv(run, relayMax, start);
    assert Budgets(run.states[start].rows, relayMax, run.states[start].issued) == Ranks(run.states[start].rows, relayMax);
  }

  function EndedBefore(passes: set<Pass>, j: int): set<Pass> {
    set p | p in passes && p.settle < j
  }

  function EndingAt(passes: set<Pass>, j: int): set<Pass> {
    set p | p in passes && p.settle == j
  }

  lemma OneMoreEnds(passes: set<Pass>, j: int)
    ensures |EndedBefore(passes, j + 1)| == |EndedBefore(passes, j)| + |EndingAt(passes, j)|
  {
    assert EndedBefore(passes, j + 1) == EndedBefore(passes, j) + EndingAt(passes, j);
  }

  /** Passes over claims made from `start` on. */
  predicate PassesSince(run: Run, start: nat, passes: set<Pass>) {
    forall p :: p in passes ==> PassOk(run, p) && start <= p.claim
  }

  lemma NoneEndedYet(run: Run, start: nat, passes: set<Pass>)
    requires PassesSince(run, start, passes)
    ensures |EndedBefore(passes, start)| == 0
  {
    assert EndedBefore(passes, start) == {};
  }

  lemma LastPassesUseBudget(run: Run, relayMax: int, start: nat, j: nat, passes: set<Pass>)
    requires ValidRun(run, relayMax) && start <= j < |run.steps| && Quiet(run, start, j + 1)
    requires PassesSince(run, start, passes)
    ensures |EndingAt(passes, j)| + BudgetAt(run, relayMax, start, j + 1) <= BudgetAt(run, relayMax, start, j)
  {
    var last := EndingAt(passes, j);
    forall p, q | p in last && q in last && p.id == q.id ensures p == q {
      OnePassPerRow(run, relayMax, p, q);
    }
    PassIdsSize(last);
    forall p | p in last
      ensures EndsPass(run.states[j], run.steps[j], run.states[start].issued, p.id)
    {
      PassEndsFresh(run, relayMax, start, p);
    }
    StepUsesBudget(run, relayMax, start, j, PassIds(last));
  }

  /** Passes ended before state `j`, and those that still may end. */
  ghost function EndedOrLeft(run: Run, relayMax: int, start: nat, passes: set<Pass>, j: nat): nat
    requires start < |run.states| && j < |run.states|
  {
    |EndedBefore(passes, j)| + BudgetAt(run, relayMax, start, j)
  }

  lemma NextKeepsTally(run: Run, relayMax: int, start: nat, j: nat, passes: set<Pass>)
    requires ValidRun(run, relayMax) && start <= j < |run.steps| && Quiet(run, start, j + 1)
    requires PassesSince(run, start, passes)
    ensures EndedOrLeft(run, relayMax, start, passes, j + 1) <= EndedOrLeft(run, relayMax, start, passes, j)
  {
    LastPassesUseBudget(run, relayMax, start, j, passes);
    OneMoreEnds(passes, j);
  }

  lemma {:induction false} TallyFalls(run: Run, relayMax: int, start: nat, j: nat, passes: set<Pass>)
    requires ValidRun(run, relayMax) && start <= j < |run.states| && Quiet(run, start, j)
    requires PassesSince(run, start, passes)
    ensures EndedOrLeft(run, relayMax, start, passes, j) <= EndedOrLeft(run, relayMax, start, passes, start)
    decreases j
  {
    if j > start {
      TallyFalls(run, relayMax, start, j - 1, passes);
      NextKeepsTally(run, relayMax, start, j - 1, passes);
    }
  }

  /**
   Draining ends, whatever the backoff and however many workers interleave: while
   nothing is enqueued or requeued, the claims made and settled from some state on,
   overlapping or not, number at most the total rank of that state.
   */
  lemma DrainIsBounded(run: Run, relayMax: int, start: nat, passes: set<Pass>)
    requires ValidRun(run, relayMax) && start < |run.states| && Quiet(run, start, |run.steps|)
    requires PassesSince(run, start, passes)
    ensures |passes| <= TotalRank(run.states[start].rows, relayMax)
  {
    TallyFalls(run, relayMax, start, |run.steps|, passes);
    NoneEndedYet(run, start, passes);
    BudgetIsRankAtStart(run, relayMax, start);
    assert EndedBefore(passes, |run.steps|) == passes;
  }
}
