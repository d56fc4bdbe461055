/** The cleaner (engine/cleaner.go): repeated batch deletion of expired rows. */
module Cleaners {
  import opened Messages
  import opened Statements
  import opened Protocol
  import opened Accounting
  import opened Outcomes
  import opened Stores
  import opened Sets

  /** What the world brings to one cleanup statement. */
  datatype Round = Round(
    ctxDone: bool, others: Rows -> Rows, now: Time, locked: set<Id>, reply: Reply,
    doneAfter: bool, order: Order)

  /**
   One tick of the cleanup interval: the statements that may follow it, and for each
   a bound on the rows that other workers finish from then on.
   */
  datatype Sweep = Sweep(rounds: nat -> Round, arrivals: nat -> nat)

  datatype Exit = Cancelled | Failed(why: Err) | Short

  // ---- finished rows ----------------------------------------------------------------

  function Finished(rows: Rows): set<Id> {
    set id | id in rows && (rows[id].publishedAt.Some? || rows[id].finishedAt.Some?)
  }

  /** Others may do anything, but only finitely many rows finish during a sweep. */
  ghost predicate FiniteSweep(s: Sweep) {
    forall k: nat, rows ::
      |Finished(s.rounds(k).others(rows))| + s.arrivals(k + 1) <= |Finished(rows)| + s.arrivals(k)
  }

  lemma NewlyFinishedAreSettled(run: Run, relayMax: int, i: nat)
    requires ValidRun(run, relayMax) && i < |run.steps|
    ensures Finished(run.states[i + 1].rows) <= Finished(run.states[i].rows) + SettledIds(run, i)
  {
    assert StepOk(run, i, relayMax);
    forall id | id in Finished(run.states[i + 1].rows)
      ensures id in Finished(run.states[i].rows) + SettledIds(run, i)
    {
      EffectOnRow(run.states[i].rows, run.steps[i], id);
    }
  }

  lemma StepFinishes(run: Run, relayMax: int, i: nat)
    requires ValidRun(run, relayMax) && i < |run.steps|
    ensures |Finished(run.states[i + 1].rows)| <= |Finished(run.states[i].rows)| + |SettledIds(run, i)|
  {
    NewlyFinishedAreSettled(run, relayMax, i);
    SubsetSize(Finished(run.states[i + 1].rows), Finished(run.states[i].rows) + SettledIds(run, i));
    UnionSize(Finished(run.states[i].rows), SettledIds(run, i));
  }

  /** In every run the bound is the number of settlements: rows finish in no other way. */
  lemma {:induction false} FinishedGrowBySettlements(run: Run, relayMax: int, i: nat, j: nat)
    requires ValidRun(run, relayMax) && i <= j < |run.states|
    ensures |Finished(run.states[j].rows)| + Settlements(run, i) <= |Finished(run.states[i].rows)| + Settlements(run, j)
    decreases j - i
  {
    if i < j {
      FinishedGrowBySettlements(run, relayMax, i, j - 1);
      StepFinishes(run, relayMax, j - 1);
    }
  }

  lemma RemovalShrinks(rows: Rows, removed: set<Id>)
    requires removed <= Finished(rows)
    ensures |Finished(rows - removed)| == |Finished(rows)| - |removed|
  {
    assert Finished(rows - removed) == Finished(rows) - removed;
    DifferenceSize(Finished(rows), removed);
  }

  // ---- what a sweep does ---------------------------------------------------------------

  /** The trace of a sweep: the table each of its statements met, the rows it removed, and how the sweep ended. */
  datatype Trace = Trace(met: seq<Rows>, removed: seq<set<Id>>, exit: Exit)

  /** The table after the first `k` statements, when `met` and `removed` are what they met and removed. */
  function TableAfter(start: Rows, met: seq<Rows>, removed: seq<set<Id>>, k: nat): Rows
    requires k <= |met| == |removed|
  {
    if k == 0 then start else met[k - 1] - removed[k - 1]
  }

  /** Statement `k` ran with a live context, after the others, and removed a full or last batch unless it was refused. */
  predicate StatementRan(keep: Retention, size: nat, s: Sweep, start: Rows, met: seq<Rows>, removed: seq<set<Id>>, k: nat)
    requires k < |met| == |removed|
  {
    var r := s.rounds(k);
    && !r.ctxDone
    && met[k] == r.others(TableAfter(start, met, removed, k))
    && (if r.reply.Refused? then removed[k] == {} else Deletes(met[k], keep, size, r.now, r.locked, removed[k]))
  }

  predicate FullBatch(size: nat, s: Sweep, removed: seq<set<Id>>, k: nat)
    requires k < |removed|
  {
    s.rounds(k).reply.Answered? && |removed[k]| == size
  }

  predicate StatementsRan(keep: Retention, size: nat, s: Sweep, start: Rows, met: seq<Rows>, removed: seq<set<Id>>) {
    && |met| == |removed|
    && (forall k :: 0 <= k < |met| ==> StatementRan(keep, size, s, start, met, removed, k))
    && (forall k :: 0 <= k < |met| - 1 ==> FullBatch(size, s, removed, k))
  }

  /** Why no further statement followed. */
  predicate Ended(size: nat, s: Sweep, t: Trace) {
    var n := |t.removed|;
    match t.exit
    case Cancelled => s.rounds(n).ctxDone && (n > 0 ==> FullBatch(size, s, t.removed, n - 1))
    case Short => n > 0 && s.rounds(n - 1).reply.Answered? && |t.removed[n - 1]| < size
    case Failed(e) => n > 0 && !s.rounds(n - 1).reply.Answered? && e == s.rounds(n - 1).reply.err
  }

  /** `t` is a complete sweep from the table `start` to the table `end`. */
  predicate Swept(keep: Retention, size: nat, s: Sweep, start: Rows, t: Trace, end: Rows) {
    && StatementsRan(keep, size, s, start, t.met, t.removed)
    && end == TableAfter(start, t.met, t.removed, |t.met|)
    && Ended(size, s, t)
  }

  /** The OnCleanup calls of a sweep: one for each answered statement that removed anything, with its count. */
  function Counts(s: Sweep, removed: seq<set<Id>>): seq<nat> {
    if removed == [] then []
    else
      var k := |removed| - 1;
      Counts(s, removed[..k]) + if s.rounds(k).reply.Answered? && removed[k] != {} then [|removed[k]|] else []
  }

  /** The error that stops the cleaner, if the sweep ended in one. */
  function Fatality(fatal: Err -> bool, s: Sweep, t: Trace): Option<Err> {
    if t.exit.Failed? && |t.removed| > 0
       && IsFatal(t.exit.why, s.rounds(|t.removed| - 1).doneAfter, fatal, s.rounds(|t.removed| - 1).order)
    then Some(t.exit.why) else None
  }

  /** That is the error the sweep failed with, if it carries an Abort or a Panic, or the classifier calls it fatal. */
  lemma FatalityInColumns(fatal: Err -> bool, size: nat, s: Sweep, t: Trace)
    requires Ended(size, s, t) && forall k :: ValidOrder(s.rounds(k).order)
    ensures match t.exit
            case Failed(e) =>
              && |t.removed| > 0
              && var last := s.rounds(|t.removed| - 1);
              Fatality(fatal, s, t) ==
              if Has(e, IsAbort) || Has(e, IsPanic) || (!last.doneAfter && fatal(e)) then Some(e) else None
            case _ => Fatality(fatal, s, t).None?
  {
    if t.exit.Failed? && |t.removed| > 0 {
      var last := s.rounds(|t.removed| - 1);
      DecisionIsOrderFree(t.exit.why, last.doneAfter, fatal, last.order, last.order);
    }
  }

  lemma NextStatement(keep: Retention, size: nat, s: Sweep, start: Rows, met: seq<Rows>, removed: seq<set<Id>>,
                      table: Rows, gone: set<Id>)
    requires StatementsRan(keep, size, s, start, met, removed)
    requires |removed| > 0 ==> FullBatch(size, s, removed, |removed| - 1)
    requires var r := s.rounds(|met|);
             && !r.ctxDone && table == r.others(TableAfter(start, met, removed, |met|))
             && (if r.reply.Refused? then gone == {} else Deletes(table, keep, size, r.now, r.locked, gone))
    ensures StatementsRan(keep, size, s, start, met + [table], removed + [gone])
    ensures TableAfter(start, met + [table], removed + [gone], |met| + 1) == table - gone
  {
    forall k | 0 <= k < |met| + 1
      ensures StatementRan(keep, size, s, start, met + [table], removed + [gone], k)
      ensures k < |met| ==> FullBatch(size, s, removed + [gone], k)
    {
      if k < |met| {
        assert StatementRan(keep, size, s, start, met, removed, k);
        assert k < |met| - 1 ==> FullBatch(size, s, removed, k);
      }
    }
  }

  lemma CountsNext(s: Sweep, removed: seq<set<Id>>, gone: set<Id>)
    ensures Counts(s, removed + [gone]) ==
            Counts(s, removed) + if s.rounds(|removed|).reply.Answered? && gone != {} then [|gone|] else []
  {
    assert (removed + [gone])[..|removed|] == removed;
  }

  // ---- what follows for a sweep ----------------------------------------------------------

  function Total(counts: seq<nat>): nat {
    if counts == [] then 0 else Total(counts[..|counts| - 1]) + counts[|counts| - 1]
  }

  /** The number of rows that answered statements removed. */
  function Removed(s: Sweep, removed: seq<set<Id>>): nat {
    if removed == [] then 0
    else
      var k := |removed| - 1;
      Removed(s, removed[..k]) + if s.rounds(k).reply.Answered? then |removed[k]| else 0
  }

  lemma TotalAppend(counts: seq<nat>, n: nat)
    ensures Total(counts + [n]) == Total(counts) + n
  {
    assert (counts + [n])[..|counts|] == counts;
  }

  /** What OnCleanup reports adds up to the rows removed, as far as the cleaner has been told. */
  lemma {:induction false} CountsAddUp(s: Sweep, removed: seq<set<Id>>)
    ensures Total(Counts(s, removed)) == Removed(s, removed)
    decreases |removed|
  {
    if removed != [] {
      var k := |removed| - 1;
      CountsAddUp(s, removed[..k]);
      TotalAppend(Counts(s, removed[..k]), |removed[k]|);
      assert Counts(s, removed[..k]) + [] == Counts(s, removed[..k]);
    }
  }

  /** A sweep in columns. */
  lemma SweepInColumns(keep: Retention, size: nat, s: Sweep, start: Rows, t: Trace, end: Rows)
    requires Swept(keep, size, s, start, t, end)
    ensures |t.met| == |t.removed|
    // each statement meets what others made of the table that the one before it left, and purges it
    ensures forall k :: 0 <= k < |t.met| ==>
      && !s.rounds(k).ctxDone
      && t.met[k] == s.rounds(k).others(if k == 0 then start else t.met[k - 1] - t.removed[k - 1])
      && (if s.rounds(k).reply.Refused? then t.removed[k] == {}
          else Purged(t.met[k], keep, size, s.rounds(k).now, s.rounds(k).locked, t.removed[k]))
    ensures end == if t.met == [] then start else t.met[|t.met| - 1] - t.removed[|t.met| - 1]
    // another follows exactly if it was answered, removed a full batch, and the context is live
    ensures forall k :: 0 <= k < |t.met| - 1 ==> s.rounds(k).reply.Answered? && |t.removed[k]| == size
    ensures t.met == [] || (s.rounds(|t.met| - 1).reply.Answered? && |t.removed[|t.met| - 1]| >= size) ==>
      s.rounds(|t.met|).ctxDone
  {
    forall k | 0 <= k < |t.met|
      ensures s.rounds(k).reply.Refused? || Purged(t.met[k], keep, size, s.rounds(k).now, s.rounds(k).locked, t.removed[k])
    {
      assert StatementRan(keep, size, s, start, t.met, t.removed, k);
      if !s.rounds(k).reply.Refused? {
        DeletionPurges(t.met[k], keep, size, s.rounds(k).now, s.rounds(k).locked, t.removed[k]);
      }
    }
    forall k | 0 <= k < |t.met| - 1 ensures s.rounds(k).reply.Answered? && |t.removed[k]| == size {
      assert FullBatch(size, s, t.removed, k);
    }
    forall k | 0 <= k < |t.met|
      ensures !s.rounds(k).ctxDone
      ensures t.met[k] == s.rounds(k).others(if k == 0 then start else t.met[k - 1] - t.removed[k - 1])
      ensures s.rounds(k).reply.Refused? ==> t.removed[k] == {}
    {
      assert StatementRan(keep, size, s, start, t.met, t.removed, k);
    }
  }

  /** A sweep that ended with a short batch has left no expired row that was free. */
  lemma ShortSweepLeavesClean(keep: Retention, size: nat, s: Sweep, start: Rows, t: Trace, end: Rows)
    requires Swept(keep, size, s, start, t, end) && t.exit.Short?
    ensures var last := s.rounds(|t.met| - 1);
            && ExpiredIds(end, keep, last.now) <= last.locked
            && forall id :: id in end && id !in last.locked ==> !Overdue(end[id], keep, last.now)
  {
    var k := |t.met| - 1;
    assert StatementRan(keep, size, s, start, t.met, t.removed, k);
    ShortBatchTakesAll(t.met[k], keep, s.rounds(k).now, s.rounds(k).locked, t.removed[k], size);
    forall id | id in end && Overdue(end[id], keep, s.rounds(k).now) ensures id in ExpiredIds(end, keep, s.rounds(k).now) { }
  }

  /** A statement that found less than a batch has deleted every expired row that was free. */
  lemma ShortBatchTakesAll(rows: Rows, keep: Retention, now: Time, locked: set<Id>, removed: set<Id>, limit: nat)
    requires Deletes(rows, keep, limit, now, locked, removed)
    ensures |removed| < limit ==> ExpiredIds(rows - removed, keep, now) <= locked
  {
    SubsetSize(removed, ExpiredIds(rows, keep, now) - locked);
  }

  predicate SweepRan(keep: Retention, size: nat, ticks: seq<Sweep>, start: Rows, traces: seq<Trace>, tables: seq<Rows>, i: nat)
    requires i < |traces| == |tables| <= |ticks|
  {
    Swept(keep, size, ticks[i], if i == 0 then start else tables[i - 1], traces[i], tables[i])
  }

  /** `traces` are sweeps one after the other, and `tables` what each of them left. */
  predicate SweepsRan(keep: Retention, size: nat, ticks: seq<Sweep>, start: Rows, traces: seq<Trace>, tables: seq<Rows>) {
    && |traces| == |tables| <= |ticks|
    && forall i :: 0 <= i < |traces| ==> SweepRan(keep, size, ticks, start, traces, tables, i)
  }

  function LastTable(start: Rows, tables: seq<Rows>): Rows {
    if tables == [] then start else tables[|tables| - 1]
  }

  lemma NextSweep(keep: Retention, size: nat, ticks: seq<Sweep>, start: Rows, traces: seq<Trace>, tables: seq<Rows>,
                  t: Trace, end: Rows)
    requires SweepsRan(keep, size, ticks, start, traces, tables) && |traces| < |ticks|
    requires Swept(keep, size, ticks[|traces|], LastTable(start, tables), t, end)
    ensures SweepsRan(keep, size, ticks, start, traces + [t], tables + [end])
  {
    forall i | 0 <= i <= |traces| ensures SweepRan(keep, size, ticks, start, traces + [t], tables + [end], i) {
      SweepStands(keep, size, ticks, start, traces, tables, t, end, i);
    }
  }

  lemma SweepStands(keep: Retention, size: nat, ticks: seq<Sweep>, start: Rows, traces: seq<Trace>, tables: seq<Rows>,
                    t: Trace, end: Rows, i: nat)
    requires i <= |traces| == |tables| < |ticks|
    requires if i == |traces| then Swept(keep, size, ticks[i], LastTable(start, tables), t, end)
             else SweepRan(keep, size, ticks, start, traces, tables, i)
    ensures SweepRan(keep, size, ticks, start, traces + [t], tables + [end], i)
  {
    if i > 0 { assert (tables + [end])[i - 1] == tables[i - 1]; }
    if i < |traces| { assert (tables + [end])[i] == tables[i] && (traces + [t])[i] == traces[i]; }
  }

  /** Everything sweeps report, in order. */
  function AllCounts(ticks: seq<Sweep>, traces: seq<Trace>): seq<nat>
    requires |traces| <= |ticks|
  {
    if traces == [] then []
    else
      var k := |traces| - 1;
      AllCounts(ticks, traces[..k]) + Counts(ticks[k], traces[k].removed)
  }

  lemma AllCountsNext(ticks: seq<Sweep>, traces: seq<Trace>, t: Trace)
    requires |traces| < |ticks|
    ensures AllCounts(ticks, traces + [t]) == AllCounts(ticks, traces) + Counts(ticks[|traces|], t.removed)
  {
    assert (traces + [t])[..|traces|] == traces;
  }

  class Cleaner {
    const store: Store
    const keep: Retention
    const interval: Duration
    const batchSize: nat
    const fatal: Err -> bool
    var log: seq<nat>  // the counts that OnCleanup has reported

    constructor (store: Store, keep: Retention, interval: Duration, batchSize: nat, fatal: Err -> bool)
      ensures this.store == store && this.keep == keep && this.interval == interval
      ensures this.batchSize == batchSize && this.fatal == fatal && log == []
    {
      this.store, this.keep, this.interval, this.batchSize, this.fatal := store, keep, interval, batchSize, fatal;
      log := [];
    }

    /**
     The inner loop of run: cleanup statements until one deletes less than a batch,
     fails, or the context is done. It terminates, since every statement but the last
     deletes a full batch, and reports to OnCleanup exactly what each answered
     statement deleted.
     */
    method CleanUp(s: Sweep) returns (err: Option<Err>, ghost t: Trace)
      requires batchSize >= 1 && FiniteSweep(s)
      modifies store, this`log
      ensures Swept(keep, batchSize, s, old(store.rows), t, store.rows)
      ensures log == old(log) + Counts(s, t.removed)
      ensures err == Fatality(fatal, s, t)
      ensures Removed(s, t.removed) + |Finished(store.rows)| <= |Finished(old(store.rows))| + s.arrivals(0)
    {
      ghost var met: seq<Rows>, removed: seq<set<Id>> := [], [];
      var k := 0;
      err := None;
      while !s.rounds(k).ctxDone
        invariant k == |met| && StatementsRan(keep, batchSize, s, old(store.rows), met, removed)
        invariant k > 0 ==> FullBatch(batchSize, s, removed, k - 1)
        invariant store.rows == TableAfter(old(store.rows), met, removed, k)
        invariant log == old(log) + Counts(s, removed)
        invariant Removed(s, removed) + |Finished(store.rows)| + s.arrivals(k)
                  <= |Finished(old(store.rows))| + s.arrivals(0)
        decreases |Finished(store.rows)| + s.arrivals(k)
      {
        var n, failure;
        n, failure, met, removed := Pass(s, k, old(store.rows), |Finished(old(store.rows))| + s.arrivals(0), old(log), met, removed);
        if failure.Some? {
          t := Trace(met, removed, Failed(failure.value));
          if IsFatal(failure.value, s.rounds(k).doneAfter, fatal, s.rounds(k).order) {
            err := failure;
          }
          return;
        }
        if n < batchSize {
          t := Trace(met, removed, Short);
          return;
        }
        k := k + 1;
      }
      t := Trace(met, removed, Cancelled);
    }

    /** One pass of that loop: a statement and, if it removed anything, the hook. */
    method Pass(s: Sweep, k: nat, ghost start: Rows, ghost budget: nat, ghost logged: seq<nat>,
                ghost met: seq<Rows>, ghost removed: seq<set<Id>>)
      returns (n: nat, failure: Option<Err>, ghost met': seq<Rows>, ghost removed': seq<set<Id>>)
      requires FiniteSweep(s) && !s.rounds(k).ctxDone
      requires k == |met| && StatementsRan(keep, batchSize, s, start, met, removed)
      requires k > 0 ==> FullBatch(batchSize, s, removed, k - 1)
      requires store.rows == TableAfter(start, met, removed, k) && log == logged + Counts(s, removed)
      requires Removed(s, removed) + |Finished(store.rows)| + s.arrivals(k) <= budget
      modifies store, this`log
      ensures |met'| == k + 1 && StatementsRan(keep, batchSize, s, start, met', removed')
      ensures store.rows == TableAfter(start, met', removed', k + 1) && log == logged + Counts(s, removed')
      ensures Removed(s, removed') + |Finished(store.rows)| + s.arrivals(k + 1) <= budget
      ensures |Finished(store.rows)| + s.arrivals(k + 1) + (if failure.None? then n else 0)
              <= |Finished(old(store.rows))| + s.arrivals(k)
      ensures failure == if s.rounds(k).reply.Answered? then None else Some(s.rounds(k).reply.err)
      ensures failure.None? ==> n == |removed'[k]| <= batchSize
    {
      ghost var table, gone;
      n, failure, table, gone := Statement(s, k);
      NextStatement(keep, batchSize, s, start, met, removed, table, gone);
      CountsNext(s, removed, gone);
      RemovedNext(s, removed, gone);
      met', removed' := met + [table], removed + [gone];
      if failure.None? && n > 0 {
        log := log + [n];
      }
    }

    /** One cleanup statement of a sweep, after whatever other workers did. */
    method Statement(s: Sweep, k: nat) returns (n: nat, failure: Option<Err>, ghost table: Rows, ghost gone: set<Id>)
      requires FiniteSweep(s)
      modifies store
      ensures table == s.rounds(k).others(old(store.rows)) && store.rows == table - gone
      ensures var r := s.rounds(k);
              if r.reply.Refused? then gone == {} else Deletes(table, keep, batchSize, r.now, r.locked, gone)
      ensures failure == if s.rounds(k).reply.Answered? then None else Some(s.rounds(k).reply.err)
      ensures failure.None? ==> n == |gone|
      ensures |Finished(store.rows)| + s.arrivals(k + 1) + |gone| <= |Finished(old(store.rows))| + s.arrivals(k)
    {
      var r := s.rounds(k);
      assert |Finished(r.others(store.rows))| + s.arrivals(k + 1) <= |Finished(store.rows)| + s.arrivals(k);
      store.rows := r.others(store.rows);
      table, gone := store.rows, {};
      if r.reply.Refused? {
        return 0, Some(r.reply.err), table, gone;
      }
      n, gone := store.Cleanup(keep, batchSize, r.now, r.locked);
      assert gone <= Finished(table);
      RemovalShrinks(table, gone);
      failure := if r.reply.Lost? then Some(r.reply.err) else None;
    }

    /**
     run: nothing at all unless a window and the interval are set, else a sweep at
     every tick until one fails fatally. `traces` are the sweeps, `tables` what each left.
     */
    method Run(ticks: seq<Sweep>) returns (err: Option<Err>, ghost traces: seq<Trace>, ghost tables: seq<Rows>)
      requires batchSize >= 1 && forall i :: 0 <= i < |ticks| ==> FiniteSweep(ticks[i])
      modifies store, this`log
      ensures SweepsRan(keep, batchSize, ticks, old(store.rows), traces, tables)
      ensures store.rows == LastTable(old(store.rows), tables)
      ensures interval <= 0 || (keep.published <= 0 && keep.dead <= 0 && keep.discarded <= 0) ==> traces == []
      ensures interval > 0 && (keep.published > 0 || keep.dead > 0 || keep.discarded > 0) && err.None? ==>
                |traces| == |ticks|
      ensures log == old(log) + AllCounts(ticks, traces)
      ensures forall i :: 0 <= i < |traces| - 1 ==> Fatality(fatal, ticks[i], traces[i]).None?
      ensures err == if traces == [] then None else Fatality(fatal, ticks[|traces| - 1], traces[|traces| - 1])
      // that is, an error is returned exactly for the last sweep, and exactly if it failed fatally
      ensures forall i, e :: 0 <= i < |traces| && traces[i].exit == Failed(e) && |traces[i].removed| > 0 ==>
                var last := ticks[i].rounds(|traces[i].removed| - 1);
                (As(e, IsAbort, last.order).Some? || As(e, IsPanic, last.order).Some? || (!last.doneAfter && fatal(e))
                 <==> i == |traces| - 1 && err == Some(e))
    {
      traces, tables, err := [], [], None;
      if interval <= 0 || (keep.published <= 0 && keep.dead <= 0 && keep.discarded <= 0) {
        return;
      }
      var i := 0;
      while i < |ticks|
        invariant i <= |ticks| && |traces| == i && err.None?
        invariant SweepsRan(keep, batchSize, ticks, old(store.rows), traces, tables)
        invariant store.rows == LastTable(old(store.rows), tables)
        invariant log == old(log) + AllCounts(ticks, traces)
        invariant forall j :: 0 <= j < i ==> Fatality(fatal, ticks[j], traces[j]).None?
      {
        err, traces, tables := AtTick(ticks, i, old(store.rows), old(log), traces, tables);
        if err.Some? {
          return;
        }
        i := i + 1;
      }
    }

    /** The sweep that follows tick `i`. */
    method AtTick(ticks: seq<Sweep>, i: nat, ghost start: Rows, ghost logged: seq<nat>,
                  ghost traces: seq<Trace>, ghost tables: seq<Rows>)
      returns (err: Option<Err>, ghost traces': seq<Trace>, ghost tables': seq<Rows>)
      requires batchSize >= 1 && i == |traces| < |ticks| && FiniteSweep(ticks[i])
      requires SweepsRan(keep, batchSize, ticks, start, traces, tables)
      requires store.rows == LastTable(start, tables) && log == logged + AllCounts(ticks, traces)
      modifies store, this`log
      ensures |traces'| == i + 1 && traces'[..i] == traces
      ensures SweepsRan(keep, batchSize, ticks, start, traces', tables')
      ensures store.rows == LastTable(start, tables') && log == logged + AllCounts(ticks, traces')
      ensures err == Fatality(fatal, ticks[i], traces'[i])
    {
      ghost var t;
      err, t := CleanUp(ticks[i]);
      AllCountsNext(ticks, traces, t);
      NextSweep(keep, batchSize, ticks, start, traces, tables, t, store.rows);
      traces', tables' := traces + [t], tables + [store.rows];
    }
  }

  lemma RemovedNext(s: Sweep, removed: seq<set<Id>>, gone: set<Id>)
    ensures Removed(s, removed + [gone]) ==
            Removed(s, removed) + if s.rounds(|removed|).reply.Answered? then |gone| else 0
  {
    assert (removed + [gone])[..|removed|] == removed;
  }
}
