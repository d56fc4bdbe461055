/**
 Which producers are safe for ordered relays: those that commit the rows of a key
 in the order of their stamps. `created_at` is the start of a transaction, so that
 order is up to the producers.
 */
module Schedules {
  import opened Messages
  import opened Statements
  import opened Protocol
  import opened Conservation
  import opened Ordering
  import opened Scenarios

  // ---- a run's commits ------------------------------------------------------------

  /** The rows that the first `n` steps enqueue, in the order in which they become visible. */
  function Commits(run: Run, n: nat): seq<Insert>
    requires n <= |run.steps|
  {
    if n == 0 then []
    else Commits(run, n - 1) + if run.steps[n - 1].Enqueue? then run.steps[n - 1].items else []
  }

  /** The sequence never hands out a number twice; ids may come back. */
  predicate DistinctSeqs(items: seq<Insert>) {
    forall p, q :: 0 <= p < q < |items| ==> items[p].data.seqNo != items[q].data.seqNo
  }

  /** Of any two rows of one key, the one that is visible first carries the earlier stamp. */
  predicate InStampOrder(items: seq<Insert>) {
    forall p, q :: 0 <= p < q < |items|
                   && items[p].data.partitionKey.Some? && items[p].data.partitionKey == items[q].data.partitionKey ==>
      items[p].data.createdAt < items[q].data.createdAt
      || (items[p].data.createdAt == items[q].data.createdAt && items[p].data.seqNo < items[q].data.seqNo)
  }

  /** Whatever ordered relays make of these commits, they claim every key in order. */
  ghost predicate SafeForOrderedRelays(items: seq<Insert>) {
    forall run, relayMax :: ValidRun(run, relayMax) && AllOrdered(run) && Commits(run, |run.steps|) == items ==>
      OrderedLog(run)
  }

  // ---- in stamp order: every run is ordered ----------------------------------------

  lemma {:induction false} CommitAt(run: Run, k: nat, i: nat, n: nat)
    requires k < n <= |run.steps| && run.steps[k].Enqueue? && i < |run.steps[k].items|
    ensures |Commits(run, k)| + i < |Commits(run, k + 1)| <= |Commits(run, n)|
    ensures Commits(run, n)[|Commits(run, k)| + i] == run.steps[k].items[i]
    decreases n
  {
    if n > k + 1 { CommitAt(run, k, i, n - 1); }
  }

  lemma {:induction false} CommitsGrow(run: Run, m: nat, n: nat)
    requires m <= n <= |run.steps|
    ensures |Commits(run, m)| <= |Commits(run, n)|
    decreases n
  {
    if m < n { CommitsGrow(run, m, n - 1); }
  }

  lemma StampOrderIsCommitOrder(run: Run)
    requires InStampOrder(Commits(run, |run.steps|))
    ensures CommitOrder(run)
  {
    var n, items := |run.steps|, Commits(run, |run.steps|);
    forall k, l, a, b, d, e | InsertedAt(run, k, a, d) && InsertedAt(run, l, b, e) && k < l && SameKey(d, e)
      ensures Before(d, e)
    {
      var i, j := FirstIndex(run.steps[k].items, a), FirstIndex(run.steps[l].items, b);
      CommitAt(run, k, i, n);
      CommitAt(run, l, j, n);
      CommitsGrow(run, k + 1, l);
      assert items[|Commits(run, k)| + i].data == d && items[|Commits(run, l)| + j].data == e;
    }
  }

  // ---- out of stamp order: one run is not --------------------------------------------

  /** `run` served each of the items before it came to the next: inserted, claimed, published, removed. */
  ghost predicate Eager(run: Run, items: seq<Insert>) {
    && ValidRun(run, 1) && |run.steps| == 5 * |items|
    && AllOrdered(run) && Commits(run, |run.steps|) == items
    && (forall n :: 0 <= n < |items| ==> ClaimedInTurn(run, items, n))
  }

  predicate ClaimedInTurn(run: Run, items: seq<Insert>, n: nat)
    requires n < |items|
  {
    && ClaimsRow(run, 5 * n + 1, items[n].id)
    && run.states[5 * n + 1].rows[items[n].id].data == items[n].data
  }

  /** What the last state of an eager run looks like. */
  predicate AllServed(s: State, items: seq<Insert>) {
    && s.rows == map[]
    && (forall x :: x in s.seqs ==> exists p :: 0 <= p < |items| && items[p].data.seqNo == x)
    && (forall t :: t in s.issued ==> |t| < |items|)
  }

  lemma {:induction false} CommitsOfPrefix(run: Run, longer: Run, n: nat)
    requires run.steps <= longer.steps && n <= |run.steps|
    ensures Commits(longer, n) == Commits(run, n)
  {
    if n > 0 { CommitsOfPrefix(run, longer, n - 1); }
  }

  /** A row is inserted, claimed and published, and removed when its time is over. */
  lemma ThenServe(run: Run, s: State, item: Insert, token: Token) returns (longer: Run, t: State)
    requires ValidRun(run, 1) && s == run.states[|run.steps|] && AllOrdered(run)
    requires s.rows == map[] && item.data.seqNo !in s.seqs && token !in s.issued
    ensures ValidRun(longer, 1) && AllOrdered(longer) && Serves(run, longer, item)
    ensures t == longer.states[|longer.steps|]
    ensures t.rows == map[] && t.issued == s.issued + {token} && t.seqs == s.seqs + {item.data.seqNo}
  {
    var run1, s1 := ThenInsert(run, s, item.id, item.data, Max(s.clock, item.data.createdAt));
    var run2, s2 := ThenClaim(run1, s1, item.id, token);
    var run3, s3 := ThenPublish(run2, s2, item.id, token);
    longer, t := ThenForget(run3, s3, item.id);
  }

  lemma ThenForget(run: Run, s: State, id: Id) returns (longer: Run, t: State)
    requires ValidRun(run, 1) && s == run.states[|run.steps|]
    requires id in s.rows && s.rows[id].status == Published && s.rows[id].publishedAt == Some(s.clock)
    ensures ValidRun(longer, 1) && Extends(run, longer) && |longer.steps| == |run.steps| + 2
    ensures longer.steps[|run.steps|].Tick? && longer.steps[|run.steps| + 1].Cleanup?
    ensures t == longer.states[|longer.steps|] == State(s.rows - {id}, s.clock + 2, s.issued, s.seqs)
  {
    var waited, later := ThenWait(run, s, s.clock + 2);
    longer, t := ThenClean(waited, later, id);
  }

  /** `longer` goes on from `run` with one item, inserted by one statement and claimed by the next. */
  ghost predicate Serves(run: Run, longer: Run, item: Insert) {
    var m := |run.steps|;
    && Extends(run, longer) && |longer.steps| == m + 5
    && longer.steps[m] == Enqueue([item], item.data.createdAt)
    && (forall k :: m < k < m + 5 ==> !longer.steps[k].Enqueue?)
    && ClaimsRow(longer, m + 1, item.id)
    && longer.states[m + 1].rows[item.id].data == item.data
  }

  lemma {:induction false} EagerRun(items: seq<Insert>) returns (run: Run)
    requires DistinctSeqs(items)
    ensures Eager(run, items) && AllServed(run.states[|run.steps|], items)
    decreases |items|
  {
    if items == [] {
      run := Run([State(map[], 0, {}, {})], []);
    } else {
      var n := |items| - 1;
      var init, item := items[..n], items[n];
      var shorter := EagerRun(init);
      var t;
      run, t := ThenServe(shorter, shorter.states[|shorter.steps|], item, TokenOf(n));
      ServedLast(shorter, run, items);
      AllServedLast(shorter.states[|shorter.steps|], t, items);
    }
  }

  lemma AllServedLast(s: State, t: State, items: seq<Insert>)
    requires items != [] && AllServed(s, items[..|items| - 1]) && t.rows == map[]
    requires t.seqs == s.seqs + {items[|items| - 1].data.seqNo} && t.issued == s.issued + {TokenOf(|items| - 1)}
    ensures AllServed(t, items)
  {
    var n := |items| - 1;
    assert forall p :: 0 <= p < n ==> items[..n][p] == items[p];
  }

  lemma CommitsWithoutEnqueue(run: Run, m: nat, n: nat)
    requires m <= n <= |run.steps| && forall k :: m <= k < n ==> !run.steps[k].Enqueue?
    ensures Commits(run, n) == Commits(run, m)
    decreases n
  {
    if m < n { CommitsWithoutEnqueue(run, m, n - 1); }
  }

  lemma ServedLast(shorter: Run, run: Run, items: seq<Insert>)
    requires items != [] && Eager(shorter, items[..|items| - 1])
    requires ValidRun(run, 1) && AllOrdered(run) && Serves(shorter, run, items[|items| - 1])
    ensures Eager(run, items)
  {
    var n, m := |items| - 1, |shorter.steps|;
    CommitsOfPrefix(shorter, run, m);
    assert Commits(run, m + 1) == items[..n] + [items[n]] == items;
    CommitsWithoutEnqueue(run, m + 1, m + 5);
    forall k | 0 <= k < |items| ensures ClaimedInTurn(run, items, k) {
      if k < n { assert ClaimedInTurn(shorter, items[..n], k); }
    }
  }

  /**
   Ordered relays keep a schedule of commits in order, however they interleave with
   it, if and only if the schedule is in stamp order. A producer can tell from the
   stamps of the rows it commits.
   */
  lemma ScheduleIsSafeIff(items: seq<Insert>)
    requires DistinctSeqs(items)
    ensures SafeForOrderedRelays(items) <==> InStampOrder(items)
  {
    if InStampOrder(items) {
      forall run, relayMax | ValidRun(run, relayMax) && AllOrdered(run) && Commits(run, |run.steps|) == items
        ensures OrderedLog(run)
      {
        StampOrderIsCommitOrder(run);
        OrderedModeOrders(run, relayMax);
      }
    } else {
      var p, q :| 0 <= p < q < |items| && SameKey(items[p].data, items[q].data)
                  && !Before(items[p].data, items[q].data);
      var run := EagerRun(items);
      assert ClaimedInTurn(run, items, p) && ClaimedInTurn(run, items, q);
      assert items[p].data.seqNo != items[q].data.seqNo;
      var d, e := items[p].data, items[q].data;
      assert SameKey(d, e) && !Before(d, e);
      assert !InOrder(d, e);
      assert !InOrder(run.states[5 * p + 1].rows[items[p].id].data, run.states[5 * q + 1].rows[items[q].id].data);
      assert !OrderedLog(run);
    }
  }

  // ---- a late transaction -------------------------------------------------------------

  function Stamped(at: Time, seqNo: nat): Envelope {
    Envelope("t", Some("k"), "x", map[], None, None, None, at, seqNo)
  }

  /** A row is inserted and claimed; then an earlier-stamped row of its key commits and is claimed. */
  lemma LateRowOvertakes(a: Id, b: Id, d: Envelope, e: Envelope) returns (run: Run)
    requires a != b && d.partitionKey.Some? && d.partitionKey == e.partitionKey
    requires e.createdAt < d.createdAt || (e.createdAt == d.createdAt && e.seqNo < d.seqNo)
    requires d.seqNo != e.seqNo
    ensures ValidRun(run, 1) && |run.steps| == 4
    ensures ClaimsRow(run, 1, a) && run.states[1].rows[a].data == d && InsertedAt(run, 0, a, d)
    ensures ClaimsRow(run, 3, b) && run.states[3].rows[b].data == e && InsertedAt(run, 2, b, e)
    ensures AllOrdered(run) && !OrderedLog(run)
  {
    var s0 := State(map[], d.createdAt, {}, {});
    var run0 := Run([s0], []);
    var run1, s1 := ThenInsert(run0, s0, a, d, d.createdAt);
    var run2, s2 := ThenClaim(run1, s1, a, "t1");
    var run3, s3 := ThenInsert(run2, s2, b, e, s2.clock);
    var run4, s4 := ThenClaim(run3, s3, b, "t2");
    run := run4;
    assert !InOrder(run.states[1].rows[a].data, run.states[3].rows[b].data);
  }

  /**
   `created_at` is the start of the producer's transaction, so a transaction that
   starts first may commit last. Here row "late" (stamped 5) becomes visible
   after row "early" (stamped 10) of the same key was claimed: an ordered relay
   then claims it while the later-stamped row is still in flight.
   */
  lemma SlowTransactionBreaksOrder() returns (run: Run)
    ensures ValidRun(run, 1) && AllOrdered(run) && !CommitOrder(run)
    ensures !OrderedLog(run)
  {
    var early, late := Stamped(10, 2), Stamped(5, 1);
    run := LateRowOvertakes("early", "late", early, late);
  }
}
