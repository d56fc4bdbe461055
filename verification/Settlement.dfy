/**
 What settling a claimed batch must achieve, message by message: the
 specification that engine/relay.go's settle and settleEach are proved against.
 */
module Settlement {
  import opened Messages
  import opened Statements
  import opened Outcomes
  import opened Stores

  /**
   What the outside world answers while a batch is settled: clock readings, the
   executor, map order, the Error() text of an outcome, and what the configured backoff
   returns for an attempt, drawn anew for each message since it may be random.
   */
  datatype World = World(clock: Clock, reply: seq<Claimed> -> Reply, order: Order, text: Err -> string,
                         backoff: (Id, int) -> Duration)

  /** What hook calls report about one message. */
  datatype Observation = Observation(outcome: Status, id: Id)

  // ---- one message ------------------------------------------------------------

  /** What a publish outcome calls for, whichever message it is applied to. */
  datatype Verdict =
    | Publish
    | Bury(reason: string)
    | Drop(reason: string)
    | Retry(reason: string, asked: Option<Duration>)

  /** The verdict of an outcome, by the markers its tree carries: Permanent, then Discard, then RetryAfter. */
  ghost function Judge(w: World, outcome: Option<Err>): Verdict {
    match outcome
    case None => Publish
    case Some(e) =>
      if Has(e, IsPermanent) then Bury(w.text(e))
      else if Has(e, IsDiscard) then Drop(w.text(e))
      else Retry(w.text(e), RequestedDelay(e, w.order))
  }

  function RetryDelay(w: World, m: Claimed, asked: Option<Duration>): Duration {
    var own := Max(0, w.backoff(m.id, m.row.attempts));
    if asked.Some? then Max(own, asked.value) else own
  }

  /** The transition a verdict means for one message: a retry turns into death at the attempt limit. */
  function Decide(cfg: Settings, w: World, m: Claimed, v: Verdict): Completion {
    match v
    case Publish => Completion(Published, "", 0)
    case Bury(reason) => Completion(Dead, reason, 0)
    case Drop(reason) => Completion(Discarded, reason, 0)
    case Retry(reason, asked) =>
      if m.row.attempts >= EffectiveMax(m.row.data, cfg.maxAttempts) then Completion(Dead, reason, 0)
      else Completion(Pending, reason, RetryDelay(w, m, asked))
  }

  /** One message of a batch, its verdict, and the group that shares it. */
  datatype Job = Job(m: Claimed, verdict: Verdict, group: seq<Claimed>)
  type Jobs = map<Id, Job>

  /** Retries go row by row, every other verdict settles its whole group in one statement. */
  function Answer(w: World, j: Job): Reply {
    w.reply(if j.verdict.Retry? then [j.m] else j.group)
  }

  /** A message's row after settlement: moved if its claim is live, else left alone. */
  function After(cfg: Settings, w: World, j: Job, r: Row): Row {
    if Live(r, j.m.id, {KeyOf(j.m)}, w.clock(j.m.id).seen) && !Answer(w, j).Refused?
    then FinishRow(r, Decide(cfg, w, j.m, j.verdict), cfg.clearPayload, w.clock(j.m.id).stamped)
    else r
  }

  ghost predicate Fine(w: World, j: Job, rows: Rows) {
    Owned(rows, j.m, w.clock) && Answer(w, j).Answered?
  }

  ghost predicate Reported(cfg: Settings, w: World, j: Job, rows: Rows) {
    Fine(w, j, rows) && (Decide(cfg, w, j.m, j.verdict).status == Discarded ==> cfg.discardHooks)
  }

  // ---- a batch ------------------------------------------------------------------

  /** The table once the jobs in `done` are settled, each exactly once; every other row is as before. */
  ghost function SettledRows(cfg: Settings, w: World, jobs: Jobs, done: set<Id>, before: Rows): Rows {
    map id | id in before :: if id in done && id in jobs then After(cfg, w, jobs[id], before[id]) else before[id]
  }

  /** The messages whose claim was no longer live, or whose statement the executor failed. */
  ghost function Failing(w: World, jobs: Jobs, done: set<Id>, before: Rows): set<Id> {
    set id | id in done && id in jobs && !Fine(w, jobs[id], before)
  }

  /** What the hooks are to report: each row that moved (and whose reply arrived), and nothing else. */
  ghost function ReportSet(cfg: Settings, w: World, jobs: Jobs, done: set<Id>, before: Rows): set<Observation> {
    set id | id in done && id in jobs && Reported(cfg, w, jobs[id], before) ::
      Observation(Decide(cfg, w, jobs[id].m, jobs[id].verdict).status, id)
  }

  /** ... and each of them once. */
  ghost function Reports(cfg: Settings, w: World, jobs: Jobs, done: set<Id>, before: Rows): multiset<Observation> {
    multiset(ReportSet(cfg, w, jobs, done, before))
  }

  // ---- errors ------------------------------------------------------------------

  /** The markers that errors.As finds in an error; none in nil. */
  ghost function ErrMarks(err: Option<Err>): set<Marker> {
    if err.None? then {} else set k: Marker | Has(err.value, k)
  }

  ghost function ListMarks(errs: seq<Err>): set<Marker> {
    if errs == [] then {} else ListMarks(errs[..|errs| - 1]) + ErrMarks(Some(errs[|errs| - 1]))
  }

  /** The markers in the executor's answers to the statements that settle these jobs. */
  ghost function Troubles(w: World, jobs: Jobs, done: set<Id>): set<Marker> {
    set k: Marker | Troubled(w, jobs, done, k)
  }

  ghost predicate Troubled(w: World, jobs: Jobs, done: set<Id>, k: Marker) {
    exists id :: id in done && id in jobs && !Answer(w, jobs[id]).Answered? && Has(Answer(w, jobs[id]).err, k)
  }

  lemma MarksAppend(errs: seq<Err>, err: Option<Err>)
    ensures ListMarks(if err.Some? then errs + [err.value] else errs) == ListMarks(errs) + ErrMarks(err)
  {
    if err.Some? { assert (errs + [err.value])[..|errs|] == errs; }
  }

  lemma {:induction false} ListMarksHave(errs: seq<Err>, k: Marker)
    ensures k in ListMarks(errs) <==> exists i :: 0 <= i < |errs| && Has(errs[i], k)
  {
    if errs != [] {
      var n := |errs| - 1;
      ListMarksHave(errs[..n], k);
      if i :| 0 <= i < |errs| && Has(errs[i], k) {
        if i < n { assert errs[..n][i] == errs[i]; }
      }
    }
  }

  lemma JoinMarks(errs: seq<Err>)
    ensures errs != [] ==> ErrMarks(Some(Joined(errs))) == ListMarks(errs)
  {
    forall k: Marker ensures Has(Joined(errs), k) <==> k in ListMarks(errs) {
      ListMarksHave(errs, k);
    }
  }

  /**
   Where the settlement of a batch stands: the table, what the hooks have reported,
   whether all went well, and the markers of the errors so far.
   */
  datatype Tally = Tally(rows: Rows, log: multiset<Observation>, clean: bool, marks: set<Marker>)

  /** Where it must stand once the jobs in `done` are settled. */
  ghost function Tallied(cfg: Settings, w: World, jobs: Jobs, done: set<Id>, before: Rows, logged: multiset<Observation>): Tally {
    Tally(SettledRows(cfg, w, jobs, done, before),
          logged + Reports(cfg, w, jobs, done, before),
          Failing(w, jobs, done, before) == {},
          Troubles(w, jobs, done))
  }

  lemma NothingTallied(cfg: Settings, w: World, jobs: Jobs, before: Rows, logged: multiset<Observation>)
    ensures Tallied(cfg, w, jobs, {}, before, logged) == Tally(before, logged, true, {})
  {
    assert ReportSet(cfg, w, jobs, {}, before) == {};
  }

  lemma ReportsSplit(cfg: Settings, w: World, jobs: Jobs, a: set<Id>, b: set<Id>, before: Rows)
    requires a !! b
    ensures Reports(cfg, w, jobs, a + b, before) == Reports(cfg, w, jobs, a, before) + Reports(cfg, w, jobs, b, before)
  {
    var ra, rb := ReportSet(cfg, w, jobs, a, before), ReportSet(cfg, w, jobs, b, before);
    assert ReportSet(cfg, w, jobs, a + b, before) == ra + rb;
    assert ra !! rb;
  }

  // ---- the jobs of a batch ----------------------------------------------------------

  function SoloJobs(msgs: seq<Claimed>, v: Verdict): Jobs
    requires DistinctIds(msgs)
  {
    map i | 0 <= i < |msgs| :: msgs[i].id := Job(msgs[i], v, msgs)
  }

  /** A message's entry, else the batch's default; nil means published. */
  function Resolve(b: Err, id: Id): Option<Err>
    requires b.Batch?
  {
    if id in b.outcomes then b.outcomes[id] else b.others
  }

  predicate InPublished(b: Err, m: Claimed)
    requires b.Batch?
  {
    Resolve(b, m.id).None?
  }

  predicate InDefault(b: Err, m: Claimed)
    requires b.Batch?
  {
    m.id !in b.outcomes && b.others.Some?
  }

  function PublishedGroup(b: Err, msgs: seq<Claimed>): seq<Claimed>
    requires b.Batch?
  {
    if msgs == [] then []
    else PublishedGroup(b, msgs[..|msgs| - 1])
         + if InPublished(b, msgs[|msgs| - 1]) then [msgs[|msgs| - 1]] else []
  }

  function DefaultGroup(b: Err, msgs: seq<Claimed>): seq<Claimed>
    requires b.Batch?
  {
    if msgs == [] then []
    else DefaultGroup(b, msgs[..|msgs| - 1])
         + if InDefault(b, msgs[|msgs| - 1]) then [msgs[|msgs| - 1]] else []
  }

  predicate Individual(b: Err, m: Claimed)
    requires b.Batch?
  {
    !InPublished(b, m) && !InDefault(b, m)
  }

  function IndividualIds(b: Err, msgs: seq<Claimed>): set<Id>
    requires b.Batch?
  {
    set i | 0 <= i < |msgs| && Individual(b, msgs[i]) :: msgs[i].id
  }

  function GroupOf(b: Err, msgs: seq<Claimed>, m: Claimed): seq<Claimed>
    requires b.Batch?
  {
    if InPublished(b, m) then PublishedGroup(b, msgs)
    else if InDefault(b, m) then DefaultGroup(b, msgs)
    else [m]
  }

  ghost function EachJobs(w: World, b: Err, msgs: seq<Claimed>): Jobs
    requires b.Batch? && DistinctIds(msgs)
  {
    map i | 0 <= i < |msgs| :: msgs[i].id := Job(msgs[i], Judge(w, Resolve(b, msgs[i].id)), GroupOf(b, msgs, msgs[i]))
  }

  lemma {:induction false} GroupsAreParts(b: Err, msgs: seq<Claimed>)
    requires b.Batch? && DistinctIds(msgs)
    ensures DistinctIds(PublishedGroup(b, msgs)) && DistinctIds(DefaultGroup(b, msgs))
    ensures forall m :: m in PublishedGroup(b, msgs) <==> m in msgs && InPublished(b, m)
    ensures forall m :: m in DefaultGroup(b, msgs) <==> m in msgs && InDefault(b, m)
    decreases |msgs|
  {
    if msgs != [] {
      var init, last := msgs[..|msgs| - 1], msgs[|msgs| - 1];
      GroupsAreParts(b, init);
      assert msgs == init + [last];
      forall m | m in init ensures m.id != last.id {
        var i :| 0 <= i < |init| && init[i] == m;
        assert msgs[i] == m;
      }
    }
  }

  // ---- one statement -------------------------------------------------------------------

  /** `group` is settled by one statement with arguments `c`, as `jobs` asks for. */
  ghost predicate OneStatement(cfg: Settings, w: World, jobs: Jobs, group: seq<Claimed>, c: Completion) {
    && DistinctIds(group)
    && forall i :: 0 <= i < |group| ==>
         && group[i].id in jobs && jobs[group[i].id].m == group[i]
         && Decide(cfg, w, group[i], jobs[group[i].id].verdict) == c
         && Answer(w, jobs[group[i].id]) == w.reply(group)
  }

  lemma StatementSettles(cfg: Settings, w: World, jobs: Jobs, done: set<Id>, before: Rows, mid: Rows,
                         group: seq<Claimed>, c: Completion, after: Rows)
    requires OneStatement(cfg, w, jobs, group, c) && Ids(group) !! done
    requires mid == SettledRows(cfg, w, jobs, done, before)
    requires after == if group == [] || w.reply(group).Refused? then mid
                      else FinishRows(mid, Keys(group), c, cfg.clearPayload, w.clock)
    ensures after == SettledRows(cfg, w, jobs, done + Ids(group), before)
  {
    forall id | id in before
      ensures after[id] == if id in done + Ids(group) && id in jobs then After(cfg, w, jobs[id], before[id])
                           else before[id]
    {
      if id in Ids(group) {
        var i :| 0 <= i < |group| && group[i].id == id;
        LiveIsOwned(mid, group, w.clock, i);
      } else {
        HitsAreIds(mid, group, w.clock);
        assert id !in Hits(mid, Keys(group), w.clock);
      }
    }
  }

  /** Of the statement's messages, those whose claim is live before it. */
  lemma StatementReaches(cfg: Settings, w: World, jobs: Jobs, done: set<Id>, before: Rows, mid: Rows,
                         group: seq<Claimed>, c: Completion, id: Id)
    requires OneStatement(cfg, w, jobs, group, c) && Ids(group) !! done
    requires mid == SettledRows(cfg, w, jobs, done, before)
    ensures id in Ids(group) ==> id in jobs
    ensures id in Hits(mid, Keys(group), w.clock) <==> id in Ids(group) && Owned(before, jobs[id].m, w.clock)
  {
    HitsAreIds(mid, group, w.clock);
    if id in Ids(group) {
      var i :| 0 <= i < |group| && group[i].id == id;
      LiveIsOwned(mid, group, w.clock, i);
    }
  }

  /** What the hooks report for the rows a statement returned. */
  function Observed(status: Status, completed: seq<Claimed>): multiset<Observation> {
    multiset(set id | id in Ids(completed) :: Observation(status, id))
  }

  lemma StatementLogs(cfg: Settings, w: World, jobs: Jobs, done: set<Id>, before: Rows, mid: Rows,
                      group: seq<Claimed>, c: Completion, completed: seq<Claimed>)
    requires OneStatement(cfg, w, jobs, group, c) && Ids(group) !! done
    requires mid == SettledRows(cfg, w, jobs, done, before)
    requires Ids(completed) == if (group == [] || w.reply(group).Answered?) && (c.status == Discarded ==> cfg.discardHooks)
                               then Hits(mid, Keys(group), w.clock) else {}
    ensures Observed(c.status, completed) == Reports(cfg, w, jobs, Ids(group), before)
  {
    forall id
      ensures id in Ids(completed) <==> id in Ids(group) && id in jobs && Reported(cfg, w, jobs[id], before)
      ensures id in Ids(group) ==> id in jobs && Decide(cfg, w, jobs[id].m, jobs[id].verdict) == c
    {
      StatementReaches(cfg, w, jobs, done, before, mid, group, c, id);
      if id in Ids(group) { var i :| 0 <= i < |group| && group[i].id == id; }
    }
    assert (set id | id in Ids(completed) :: Observation(c.status, id)) == ReportSet(cfg, w, jobs, Ids(group), before);
  }

  lemma StatementVerdict(cfg: Settings, w: World, jobs: Jobs, done: set<Id>, before: Rows, mid: Rows,
                         group: seq<Claimed>, c: Completion, ok: bool)
    requires OneStatement(cfg, w, jobs, group, c) && Ids(group) !! done
    requires mid == SettledRows(cfg, w, jobs, done, before)
    requires ok <==> && (group == [] || w.reply(group).Answered?)
                     && forall i :: 0 <= i < |group| ==> Owned(mid, group[i], w.clock)
    ensures ok <==> Failing(w, jobs, Ids(group), before) == {}
  {
    forall i | 0 <= i < |group|
      ensures group[i].id in Ids(group)
      ensures Fine(w, jobs[group[i].id], before) <==> Owned(mid, group[i], w.clock) && w.reply(group).Answered?
    {
      assert group[i].id in Ids(group);
    }
    if ok {
      forall id | id in Ids(group) ensures id in jobs && Fine(w, jobs[id], before) {
        var i :| 0 <= i < |group| && group[i].id == id;
      }
    } else if i :| 0 <= i < |group| && !Owned(mid, group[i], w.clock) {
      assert group[i].id in Failing(w, jobs, Ids(group), before);
    } else {
      assert group[0].id in Failing(w, jobs, Ids(group), before);
    }
  }

  /** All that one completed statement contributes: its rows, its hook calls, its verdict. */
  lemma StatementAdvances(cfg: Settings, w: World, jobs: Jobs, done: set<Id>, before: Rows, mid: Rows,
                          group: seq<Claimed>, c: Completion, after: Rows, completed: seq<Claimed>, ok: bool)
    requires OneStatement(cfg, w, jobs, group, c) && Ids(group) !! done
    requires mid == SettledRows(cfg, w, jobs, done, before)
    requires after == if group == [] || w.reply(group).Refused? then mid
                      else FinishRows(mid, Keys(group), c, cfg.clearPayload, w.clock)
    requires Ids(completed) == if (group == [] || w.reply(group).Answered?) && (c.status == Discarded ==> cfg.discardHooks)
                               then Hits(mid, Keys(group), w.clock) else {}
    requires ok <==> && (group == [] || w.reply(group).Answered?)
                     && forall i :: 0 <= i < |group| ==> Owned(mid, group[i], w.clock)
    ensures after == SettledRows(cfg, w, jobs, done + Ids(group), before)
    ensures Observed(c.status, completed) == Reports(cfg, w, jobs, Ids(group), before)
    ensures ok <==> Failing(w, jobs, Ids(group), before) == {}
  {
    StatementSettles(cfg, w, jobs, done, before, mid, group, c, after);
    StatementLogs(cfg, w, jobs, done, before, mid, group, c, completed);
    StatementVerdict(cfg, w, jobs, done, before, mid, group, c, ok);
  }

  lemma TroublesAdd(w: World, jobs: Jobs, a: set<Id>, b: set<Id>)
    ensures Troubles(w, jobs, a + b) == Troubles(w, jobs, a) + Troubles(w, jobs, b)
  {
  }

  /** What a completed statement returns tells of its answer. */
  lemma StatementTroubles(cfg: Settings, w: World, jobs: Jobs, group: seq<Claimed>, c: Completion, err: Option<Err>)
    requires OneStatement(cfg, w, jobs, group, c)
    requires err.Some? ==> err.value == if w.reply(group).Answered? then LeaseLost else w.reply(group).err
    requires err.None? ==> group == [] || w.reply(group).Answered?
    requires group == [] ==> err.None?
    ensures ErrMarks(err) == Troubles(w, jobs, Ids(group))
  {
    forall k: Marker ensures k in ErrMarks(err) <==> k in Troubles(w, jobs, Ids(group)) {
      if k in ErrMarks(err) {
        assert group[0].id in Ids(group);
      }
      if k in Troubles(w, jobs, Ids(group)) {
        var id :| id in Ids(group) && id in jobs && !Answer(w, jobs[id]).Answered? && Has(Answer(w, jobs[id]).err, k);
        var i :| 0 <= i < |group| && group[i].id == id;
      }
    }
  }

  /** Two disjoint shares, taken together. */
  lemma SharesAdd(cfg: Settings, w: World, jobs: Jobs, a: set<Id>, b: set<Id>, before: Rows)
    requires a !! b
    ensures Reports(cfg, w, jobs, a + b, before) == Reports(cfg, w, jobs, a, before) + Reports(cfg, w, jobs, b, before)
    ensures Failing(w, jobs, a + b, before) == Failing(w, jobs, a, before) + Failing(w, jobs, b, before)
    ensures Troubles(w, jobs, a + b) == Troubles(w, jobs, a) + Troubles(w, jobs, b)
  {
    TroublesAdd(w, jobs, a, b);
    ReportsSplit(cfg, w, jobs, a, b, before);
  }

  lemma SharesTally(cfg: Settings, w: World, jobs: Jobs, done: set<Id>, more: set<Id>, before: Rows, logged: multiset<Observation>)
    requires done !! more
    ensures var p := Tallied(cfg, w, jobs, done, before, logged);
            Tallied(cfg, w, jobs, done + more, before, logged)
            == Tally(SettledRows(cfg, w, jobs, done + more, before),
                     p.log + Reports(cfg, w, jobs, more, before),
                     p.clean && Failing(w, jobs, more, before) == {},
                     p.marks + Troubles(w, jobs, more))
  {
    SharesAdd(cfg, w, jobs, done, more, before);
  }

  /** ... added to where the settlement stood. */
  lemma StatementTallies(cfg: Settings, w: World, jobs: Jobs, done: set<Id>, before: Rows, logged: multiset<Observation>,
                         p: Tally, group: seq<Claimed>, c: Completion, after: Rows, completed: seq<Claimed>, err: Option<Err>)
    requires OneStatement(cfg, w, jobs, group, c) && Ids(group) !! done
    requires p == Tallied(cfg, w, jobs, done, before, logged)
    requires after == if group == [] || w.reply(group).Refused? then p.rows
                      else FinishRows(p.rows, Keys(group), c, cfg.clearPayload, w.clock)
    requires Ids(completed) == if (group == [] || w.reply(group).Answered?) && (c.status == Discarded ==> cfg.discardHooks)
                               then Hits(p.rows, Keys(group), w.clock) else {}
    requires err.None? <==> && (group == [] || w.reply(group).Answered?)
                            && forall i :: 0 <= i < |group| ==> Owned(p.rows, group[i], w.clock)
    requires err.Some? ==> err.value == if w.reply(group).Answered? then LeaseLost else w.reply(group).err
    ensures Tally(after, p.log + Observed(c.status, completed), p.clean && err.None?, p.marks + ErrMarks(err))
            == Tallied(cfg, w, jobs, done + Ids(group), before, logged)
  {
    StatementAdvances(cfg, w, jobs, done, before, p.rows, group, c, after, completed, err.None?);
    StatementTroubles(cfg, w, jobs, group, c, err);
    SharesTally(cfg, w, jobs, done, Ids(group), before, logged);
  }

  // ---- one group within a larger batch ----------------------------------------------------

  /** `jobs` asks of every member of the group what settling the group by itself asks. */
  predicate Part(jobs: Jobs, group: seq<Claimed>, v: Verdict) {
    && DistinctIds(group)
    && forall i :: 0 <= i < |group| ==>
         group[i].id in jobs && jobs[group[i].id] == Job(group[i], v, group)
  }

  lemma PartSettles(cfg: Settings, w: World, jobs: Jobs, done: set<Id>, before: Rows, mid: Rows,
                    group: seq<Claimed>, v: Verdict, after: Rows)
    requires Part(jobs, group, v) && Ids(group) !! done
    requires mid == SettledRows(cfg, w, jobs, done, before)
    requires after == SettledRows(cfg, w, SoloJobs(group, v), Ids(group), mid)
    ensures after == SettledRows(cfg, w, jobs, done + Ids(group), before)
    ensures Failing(w, SoloJobs(group, v), Ids(group), mid) == {} <==> Failing(w, jobs, Ids(group), before) == {}
  {
    PartAgrees(cfg, w, jobs, done, before, mid, group, v);
  }

  lemma PartTroubles(w: World, jobs: Jobs, group: seq<Claimed>, v: Verdict)
    requires Part(jobs, group, v)
    ensures Troubles(w, SoloJobs(group, v), Ids(group)) == Troubles(w, jobs, Ids(group))
  {
    forall id | id in Ids(group) ensures id in SoloJobs(group, v) && id in jobs && SoloJobs(group, v)[id] == jobs[id] {
      var i :| 0 <= i < |group| && group[i].id == id;
    }
  }

  lemma PartAgrees(cfg: Settings, w: World, jobs: Jobs, done: set<Id>, before: Rows, mid: Rows,
                   group: seq<Claimed>, v: Verdict)
    requires Part(jobs, group, v) && Ids(group) !! done
    requires mid == SettledRows(cfg, w, jobs, done, before)
    ensures forall id :: id in Ids(group) ==> id in SoloJobs(group, v) && id in jobs && SoloJobs(group, v)[id] == jobs[id]
    ensures forall id :: id in Ids(group) ==> (Fine(w, SoloJobs(group, v)[id], mid) <==> Fine(w, jobs[id], before))
    ensures forall id :: id in Ids(group) ==>
      (Reported(cfg, w, SoloJobs(group, v)[id], mid) <==> Reported(cfg, w, jobs[id], before))
  {
    forall id | id in Ids(group)
      ensures id in SoloJobs(group, v) && id in jobs && SoloJobs(group, v)[id] == jobs[id]
      ensures Fine(w, SoloJobs(group, v)[id], mid) <==> Fine(w, jobs[id], before)
      ensures Reported(cfg, w, SoloJobs(group, v)[id], mid) <==> Reported(cfg, w, jobs[id], before)
    {
      var i :| 0 <= i < |group| && group[i].id == id;
    }
  }

  lemma PartLogs(cfg: Settings, w: World, jobs: Jobs, done: set<Id>, before: Rows, mid: Rows,
                 group: seq<Claimed>, v: Verdict)
    requires Part(jobs, group, v) && Ids(group) !! done
    requires mid == SettledRows(cfg, w, jobs, done, before)
    ensures Reports(cfg, w, SoloJobs(group, v), Ids(group), mid) == Reports(cfg, w, jobs, Ids(group), before)
  {
    PartAgrees(cfg, w, jobs, done, before, mid, group, v);
    assert ReportSet(cfg, w, SoloJobs(group, v), Ids(group), mid) == ReportSet(cfg, w, jobs, Ids(group), before);
  }

  /** A group settled by itself, added to where the settlement of the batch stood. */
  lemma PartTallies(cfg: Settings, w: World, jobs: Jobs, done: set<Id>, before: Rows, logged: multiset<Observation>,
                    p: Tally, group: seq<Claimed>, v: Verdict, q: Tally)
    requires Part(jobs, group, v) && Ids(group) !! done
    requires p == Tallied(cfg, w, jobs, done, before, logged)
    requires q == Tallied(cfg, w, SoloJobs(group, v), Ids(group), p.rows, p.log)
    ensures Tally(q.rows, q.log, p.clean && q.clean, p.marks + q.marks)
            == Tallied(cfg, w, jobs, done + Ids(group), before, logged)
  {
    PartTallied(cfg, w, jobs, done, before, p.rows, p.log, group, v);
    SharesTally(cfg, w, jobs, done, Ids(group), before, logged);
  }

  lemma PartTallied(cfg: Settings, w: World, jobs: Jobs, done: set<Id>, before: Rows, mid: Rows, log: multiset<Observation>,
                    group: seq<Claimed>, v: Verdict)
    requires Part(jobs, group, v) && Ids(group) !! done && mid == SettledRows(cfg, w, jobs, done, before)
    ensures Tallied(cfg, w, SoloJobs(group, v), Ids(group), mid, log)
            == Tally(SettledRows(cfg, w, jobs, done + Ids(group), before),
                     log + Reports(cfg, w, jobs, Ids(group), before),
                     Failing(w, jobs, Ids(group), before) == {},
                     Troubles(w, jobs, Ids(group)))
  {
    PartSettles(cfg, w, jobs, done, before, mid, group, v, SettledRows(cfg, w, SoloJobs(group, v), Ids(group), mid));
    PartLogs(cfg, w, jobs, done, before, mid, group, v);
    PartTroubles(w, jobs, group, v);
  }

  // ---- the three shares of a BatchError ---------------------------------------------------

  lemma NextIndividual(b: Err, msgs: seq<Claimed>, i: nat)
    requires b.Batch? && DistinctIds(msgs) && i < |msgs|
    ensures IndividualIds(b, msgs[..i + 1]) ==
            IndividualIds(b, msgs[..i]) + (if Individual(b, msgs[i]) then {msgs[i].id} else {})
    ensures msgs[i].id !in IndividualIds(b, msgs[..i])
  {
    var shorter, longer := msgs[..i], msgs[..i + 1];
    forall id
      ensures id in IndividualIds(b, longer) <==>
              id in IndividualIds(b, shorter) || (Individual(b, msgs[i]) && id == msgs[i].id)
    {
      if id in IndividualIds(b, shorter) {
        var j :| 0 <= j < |shorter| && Individual(b, shorter[j]) && shorter[j].id == id;
        assert longer[j] == shorter[j];
      }
      if Individual(b, msgs[i]) && id == msgs[i].id { assert longer[i] == msgs[i]; }
      if id in IndividualIds(b, longer) {
        var j :| 0 <= j < |longer| && Individual(b, longer[j]) && longer[j].id == id;
        if j < i { assert shorter[j] == longer[j]; }
      }
    }
  }

  lemma EntryIsPart(w: World, b: Err, msgs: seq<Claimed>, i: nat)
    requires b.Batch? && DistinctIds(msgs) && i < |msgs| && Individual(b, msgs[i])
    ensures Part(EachJobs(w, b, msgs), [msgs[i]], Judge(w, Resolve(b, msgs[i].id)))
    ensures Ids([msgs[i]]) == {msgs[i].id}
  {
    assert [msgs[i]][0].id == msgs[i].id;
  }

  lemma GroupHasId(b: Err, msgs: seq<Claimed>, group: seq<Claimed>, i: nat)
    requires DistinctIds(msgs) && i < |msgs| && forall m :: m in group ==> m in msgs
    ensures msgs[i].id in Ids(group) <==> msgs[i] in group
  {
    if msgs[i].id in Ids(group) {
      var j :| 0 <= j < |group| && group[j].id == msgs[i].id;
      assert group[j] in msgs;
      var k :| 0 <= k < |msgs| && msgs[k] == group[j];
    }
    if msgs[i] in group {
      var j :| 0 <= j < |group| && group[j] == msgs[i];
    }
  }

  lemma GroupIsPart(w: World, b: Err, msgs: seq<Claimed>, group: seq<Claimed>, v: Verdict)
    requires b.Batch? && DistinctIds(msgs) && DistinctIds(group) && forall m :: m in group ==> m in msgs
    requires forall m :: m in group ==> Judge(w, Resolve(b, m.id)) == v && GroupOf(b, msgs, m) == group
    ensures Part(EachJobs(w, b, msgs), group, v)
  {
    forall i | 0 <= i < |group|
      ensures group[i].id in EachJobs(w, b, msgs) && EachJobs(w, b, msgs)[group[i].id] == Job(group[i], v, group)
    {
      assert group[i] in group;
      var j :| 0 <= j < |msgs| && msgs[j] == group[i];
    }
  }

  /** Which share a message's id belongs to. */
  lemma ShareOf(b: Err, msgs: seq<Claimed>, i: nat)
    requires b.Batch? && DistinctIds(msgs) && i < |msgs|
    ensures msgs[i].id in Ids(PublishedGroup(b, msgs)) <==> InPublished(b, msgs[i])
    ensures msgs[i].id in Ids(DefaultGroup(b, msgs)) <==> InDefault(b, msgs[i])
    ensures msgs[i].id in IndividualIds(b, msgs) <==> Individual(b, msgs[i])
  {
    GroupsAreParts(b, msgs);
    GroupHasId(b, msgs, PublishedGroup(b, msgs), i);
    GroupHasId(b, msgs, DefaultGroup(b, msgs), i);
  }

  lemma SharesAreIds(b: Err, msgs: seq<Claimed>, id: Id)
    requires b.Batch? && DistinctIds(msgs)
    requires id in Ids(PublishedGroup(b, msgs)) || id in Ids(DefaultGroup(b, msgs)) || id in IndividualIds(b, msgs)
    ensures exists i :: 0 <= i < |msgs| && msgs[i].id == id
  {
    GroupsAreParts(b, msgs);
    var pub, def := PublishedGroup(b, msgs), DefaultGroup(b, msgs);
    if id in Ids(pub) {
      var i :| 0 <= i < |pub| && pub[i].id == id;
      assert pub[i] in pub;
    } else if id in Ids(def) {
      var i :| 0 <= i < |def| && def[i].id == id;
      assert def[i] in def;
    }
  }

  /** The three shares are disjoint and make up the batch. */
  lemma SharesMakeUpBatch(b: Err, msgs: seq<Claimed>)
    requires b.Batch? && DistinctIds(msgs)
    ensures Ids(PublishedGroup(b, msgs)) !! IndividualIds(b, msgs)
    ensures Ids(DefaultGroup(b, msgs)) !! IndividualIds(b, msgs) + Ids(PublishedGroup(b, msgs))
    ensures IndividualIds(b, msgs) + Ids(PublishedGroup(b, msgs)) + Ids(DefaultGroup(b, msgs)) == Ids(msgs)
  {
    var pub, def, ind := Ids(PublishedGroup(b, msgs)), Ids(DefaultGroup(b, msgs)), IndividualIds(b, msgs);
    forall id
      ensures id in Ids(msgs) <==> id in pub || id in def || id in ind
      ensures !(id in pub && id in def) && !(id in pub && id in ind) && !(id in def && id in ind)
    {
      if id in pub || id in def || id in ind { SharesAreIds(b, msgs, id); }
      if i :| 0 <= i < |msgs| && msgs[i].id == id { ShareOf(b, msgs, i); }
    }
  }

  lemma SharesAreParts(w: World, b: Err, msgs: seq<Claimed>)
    requires b.Batch? && DistinctIds(msgs)
    ensures Part(EachJobs(w, b, msgs), PublishedGroup(b, msgs), Judge(w, None))
    ensures Part(EachJobs(w, b, msgs), DefaultGroup(b, msgs), Judge(w, b.others))
  {
    GroupsAreParts(b, msgs);
    GroupIsPart(w, b, msgs, PublishedGroup(b, msgs), Judge(w, None));
    GroupIsPart(w, b, msgs, DefaultGroup(b, msgs), Judge(w, b.others));
  }
}
