/**
 One pass of a relay, seen from outside: what the world contributes to it, what
 the other workers may do meanwhile, and why passes use up the backlog.
 */
module Passes {
  import opened Messages
  import opened Statements
  import opened Protocol
  import opened Evolution
  import opened Outcomes
  import opened Stores
  import opened Settlement
  import opened Fates
  import opened Progress

  /** One tick of the heartbeat: what others did since the last one, and how its renewal is answered. */
  datatype Beat = Beat(others: Rows -> Rows, clock: Clock, reply: Reply, ctxDone: bool)

  /** All that one pass depends on besides the relay and the table. */
  datatype Round = Round(
    ctxDone: bool,                            // the context, before the pass
    others: Rows -> Rows,                     // other workers, before the claim
    now: Time, locked: set<Id>, mint: Id -> Token, stamp: Id -> Time, claimed: Reply,
    beats: seq<Beat>, meanwhile: Rows -> Rows,  // ticks until Publish returns, and others after the last
    perr: Option<Err>, doneOnReturn: bool,    // what Publish returns, and the context then
    world: World, doneOnSettle: bool)

  datatype Failure = Fatal(err: Err) | Ordinary(err: Err)

  // ---- what a pass does -----------------------------------------------------------

  /** The claim that a round makes on `rows`: which messages it takes and the table it leaves. */
  ghost predicate Takes(cfg: Settings, r: Round, rows: Rows, msgs: seq<Claimed>, after: Rows) {
    && DistinctIds(msgs)
    && OldestFirst(rows, Candidates(rows, cfg.ordered, r.now) - r.locked, Ids(msgs), cfg.batchSize)
    && after == ClaimRows(rows, cfg.instanceId, cfg.leaseDuration, Grants(Ids(msgs), r.mint, r.stamp))
    && forall i :: 0 <= i < |msgs| ==> msgs[i].id in after && msgs[i].row == after[msgs[i].id]
  }

  /** A renewal that reached every claim and whose answer arrived. */
  predicate Kept(rows: Rows, msgs: seq<Claimed>, beat: Beat) {
    beat.reply.Answered? && forall i :: 0 <= i < |msgs| ==> Owned(rows, msgs[i], beat.clock)
  }

  function Renewed(cfg: Settings, rows: Rows, msgs: seq<Claimed>, beat: Beat): Rows {
    if beat.reply.Refused? then rows else RenewRows(rows, Keys(msgs), cfg.leaseDuration, beat.clock)
  }

  /** The table before beat `i`, when `seen` are the tables that the beats before it met. */
  function TableAt(cfg: Settings, msgs: seq<Claimed>, beats: seq<Beat>, seen: seq<Rows>, start: Rows, i: nat): Rows
    requires i <= |seen| <= |beats|
  {
    if i == 0 then start else Renewed(cfg, seen[i - 1], msgs, beats[i - 1])
  }

  predicate BeatAt(cfg: Settings, msgs: seq<Claimed>, beats: seq<Beat>, seen: seq<Rows>, start: Rows, i: nat)
    requires i < |seen| <= |beats|
  {
    && seen[i] == beats[i].others(TableAt(cfg, msgs, beats, seen, start, i))
    && (i < |seen| - 1 ==> Kept(seen[i], msgs, beats[i]))
  }

  /** `seen` are the tables met by the beats that took place, all but the last of which kept every claim. */
  ghost predicate Beaten(cfg: Settings, msgs: seq<Claimed>, beats: seq<Beat>, seen: seq<Rows>, start: Rows) {
    |seen| <= |beats| && forall i :: 0 <= i < |seen| ==> BeatAt(cfg, msgs, beats, seen, start, i)
  }

  lemma BeatenAppend(cfg: Settings, msgs: seq<Claimed>, beats: seq<Beat>, seen: seq<Rows>, start: Rows, met: Rows)
    requires Beaten(cfg, msgs, beats, seen, start) && |seen| < |beats|
    requires |seen| > 0 ==> Kept(seen[|seen| - 1], msgs, beats[|seen| - 1])
    requires met == beats[|seen|].others(TableAt(cfg, msgs, beats, seen, start, |seen|))
    ensures Beaten(cfg, msgs, beats, seen + [met], start)
  {
    forall i | 0 <= i <= |seen| ensures BeatAt(cfg, msgs, beats, seen + [met], start, i) {
      BeatStands(cfg, msgs, beats, seen, start, met, i);
    }
  }

  lemma BeatStands(cfg: Settings, msgs: seq<Claimed>, beats: seq<Beat>, seen: seq<Rows>, start: Rows, met: Rows, i: nat)
    requires i <= |seen| < |beats|
    requires if i == |seen| then met == beats[i].others(TableAt(cfg, msgs, beats, seen, start, i))
             else BeatAt(cfg, msgs, beats, seen, start, i) && (i == |seen| - 1 ==> Kept(seen[i], msgs, beats[i]))
    ensures BeatAt(cfg, msgs, beats, seen + [met], start, i)
  {
    TableAtPrefix(cfg, msgs, beats, seen, met, start, i);
  }

  lemma TableAtPrefix(cfg: Settings, msgs: seq<Claimed>, beats: seq<Beat>, seen: seq<Rows>, met: Rows, start: Rows, i: nat)
    requires i <= |seen| < |beats|
    ensures TableAt(cfg, msgs, beats, seen + [met], start, i) == TableAt(cfg, msgs, beats, seen, start, i)
  {
  }

  /** How a pass's Publish error is to be settled. */
  ghost function Plan(w: World, msgs: seq<Claimed>, perr: Option<Err>): Jobs
    requires DistinctIds(msgs)
  {
    var b := if perr.Some? then As(perr.value, IsBatch, w.order) else None;
    if b.Some? && b.value.Batch? then EachJobs(w, b.value, msgs) else SoloJobs(msgs, Judge(w, perr))
  }

  ghost predicate Stops(cfg: Settings, r: Round) {
    r.perr.Some? && IsFatal(r.perr.value, r.doneOnReturn, cfg.fatal, r.world.order)
  }

  /** The heartbeat gave up: its last renewal failed while the context was live. */
  predicate Lapsed(r: Round, msgs: seq<Claimed>, seen: seq<Rows>) {
    0 < |seen| <= |r.beats| && !Kept(seen[|seen| - 1], msgs, r.beats[|seen| - 1]) && !r.beats[|seen| - 1].ctxDone
  }

  /** Every message of the batch has been settled once, the hooks report it, and `err` tells what went wrong. */
  ghost predicate Recorded(cfg: Settings, r: Round, msgs: seq<Claimed>, mid: Rows, logged: multiset<Observation>,
                           end: Rows, log: multiset<Observation>, err: Option<Err>)
    requires DistinctIds(msgs)
  {
    Tally(end, log, err.None?, ErrMarks(err))
    == Tallied(cfg, r.world, Plan(r.world, msgs, r.perr), Ids(msgs), mid, logged)
  }

  /** The error that a failed renewal leaves. */
  predicate TellsLapse(e: Err, beat: Beat) {
    e.Wrapped? && e.inner == if beat.reply.Answered? then LeaseLost else beat.reply.err
  }

  /**
   One pass: the messages it claimed and the table it left them in, the tables that
   the renewals met, the table that Publish left, and what came of it all.
   */
  datatype Trace = Trace(
    msgs: seq<Claimed>, claimed: Rows, seen: seq<Rows>, mid: Rows,
    n: nat, failure: Option<Failure>, end: Rows, log: multiset<Observation>)

  /** The claim is made unless it is refused, also when its answer is lost; then nothing is published. */
  ghost predicate Claims(cfg: Settings, r: Round, start: Rows, logged: multiset<Observation>, t: Trace) {
    && (if r.claimed.Refused? then t.msgs == [] && t.claimed == start else Takes(cfg, r, start, t.msgs, t.claimed))
    && t.n == (if r.claimed.Answered? then |t.msgs| else 0)
    && (t.n == 0 ==>
          && t.end == t.claimed && t.log == logged
          && t.failure == if r.claimed.Answered? then None else Some(Ordinary(r.claimed.err)))
  }

  /** The heartbeat renews at every tick, until a renewal does not reach every claim. */
  ghost predicate Publishes(cfg: Settings, r: Round, t: Trace) {
    && Beaten(cfg, t.msgs, r.beats, t.seen, t.claimed)
    && (|t.seen| < |r.beats| ==> |t.seen| > 0 && !Kept(t.seen[|t.seen| - 1], t.msgs, r.beats[|t.seen| - 1]))
    && t.mid == r.meanwhile(TableAt(cfg, t.msgs, r.beats, t.seen, t.claimed, |t.seen|))
  }

  function ErrorOf(failure: Option<Failure>): Option<Err> {
    if failure.Some? then Some(failure.value.err) else None
  }

  /** A fatal outcome or a lapsed lease leaves the batch claimed, silently; otherwise it is settled by its outcome. */
  ghost predicate Concludes(cfg: Settings, r: Round, logged: multiset<Observation>, t: Trace) {
    if Stops(cfg, r) then
      t.failure == Some(Fatal(r.perr.value)) && t.end == t.mid && t.log == logged
    else if Lapsed(r, t.msgs, t.seen) then
      && t.failure.Some? && t.failure.value.Ordinary? && TellsLapse(t.failure.value.err, r.beats[|t.seen| - 1])
      && t.end == t.mid && t.log == logged
    else
      && DistinctIds(t.msgs) && (t.failure.Some? ==> t.failure.value.Ordinary?)
      && Recorded(cfg, r, t.msgs, t.mid, logged, t.end, t.log, ErrorOf(t.failure))
  }

  /** `t` is a pass that round `r` takes from the table `start`. */
  ghost predicate Processed(cfg: Settings, r: Round, start: Rows, logged: multiset<Observation>, t: Trace) {
    && Claims(cfg, r, start, logged, t)
    && (t.n > 0 ==> Publishes(cfg, r, t) && Concludes(cfg, r, logged, t))
  }

  /** A renewal that failed while the context was live: refused, unanswered, or with a claim no longer held. */
  predicate Missed(rows: Rows, msgs: seq<Claimed>, beat: Beat) {
    !beat.ctxDone
    && (!beat.reply.Answered?
        || exists i :: 0 <= i < |msgs| && !(msgs[i].id in rows && HoldsClaim(rows[msgs[i].id], msgs[i], beat.clock(msgs[i].id).seen)))
  }

  /**
   What a pass that claimed something comes to, in columns. An Abort, a Panic, or an
   error the classifier calls fatal, leaves the batch claimed, silently; so does a
   missed renewal. Otherwise every message meets the fate of its entry in the first
   BatchError, be it nil, or of the default there; without one, of the error itself.
   */
  ghost predicate PassFated(cfg: Settings, r: Round, logged: multiset<Observation>, t: Trace) {
    var b := if r.perr.Some? then As(r.perr.value, IsBatch, r.world.order) else None;
    if r.perr.Some? && (Has(r.perr.value, IsAbort) || Has(r.perr.value, IsPanic) || (!r.doneOnReturn && cfg.fatal(r.perr.value)))
    then t.failure == Some(Fatal(r.perr.value)) && t.end == t.mid && t.log == logged
    else if 0 < |t.seen| <= |r.beats| && Missed(t.seen[|t.seen| - 1], t.msgs, r.beats[|t.seen| - 1])
    then t.failure.Some? && t.failure.value.Ordinary? && t.end == t.mid && t.log == logged
    else
      && OthersRest(t.msgs, t.mid, t.end) && NilTells(r.world, t.msgs, t.mid, t.failure.None?)
      && (t.failure.Some? ==> t.failure.value.Ordinary?)
      && (b.Some? ==> b.value.Batch?)
      && forall i :: 0 <= i < |t.msgs| ==>
           Fated(cfg, r.world, t.msgs[i],
                 if b.None? || !b.value.Batch? then r.perr
                 else if t.msgs[i].id in b.value.outcomes then b.value.outcomes[t.msgs[i].id]
                 else b.value.others,
                 t.mid, t.end, logged, t.log)
  }

  lemma MissedIsNotKept(rows: Rows, msgs: seq<Claimed>, beat: Beat)
    requires forall i :: 0 <= i < |msgs| ==> msgs[i].row.leaseToken.Some?
    ensures Missed(rows, msgs, beat) <==> !beat.ctxDone && !Kept(rows, msgs, beat)
  {
    forall i | 0 <= i < |msgs|
      ensures Owned(rows, msgs[i], beat.clock)
              <==> msgs[i].id in rows && HoldsClaim(rows[msgs[i].id], msgs[i], beat.clock(msgs[i].id).seen)
    {
    }
  }

  lemma PassIsFated(cfg: Settings, r: Round, logged: multiset<Observation>, t: Trace)
    requires ValidOrder(r.world.order) && DistinctIds(t.msgs)
    requires forall i :: 0 <= i < |t.msgs| ==> t.msgs[i].row.leaseToken.Some?
    requires Publishes(cfg, r, t) && Concludes(cfg, r, logged, t)
    ensures PassFated(cfg, r, logged, t)
  {
    if r.perr.Some? {
      DecisionIsOrderFree(r.perr.value, r.doneOnReturn, cfg.fatal, r.world.order, r.world.order);
      AsFinds(r.perr.value, IsBatch, r.world.order);
    }
    if 0 < |t.seen| <= |r.beats| { MissedIsNotKept(t.seen[|t.seen| - 1], t.msgs, r.beats[|t.seen| - 1]); }
    if !Stops(cfg, r) && !Lapsed(r, t.msgs, t.seen) {
      RecordedFates(cfg, r, logged, t);
    }
  }

  /**
   A pass in columns, from the table that its claim meets to the one it leaves: which
   rows it leases and how, what each renewal does, and what becomes of each message.
   */
  lemma PassInColumns(cfg: Settings, r: Round, start: Rows, logged: multiset<Observation>, t: Trace)
    requires ValidOrder(r.world.order) && Processed(cfg, r, start, logged, t)
    ensures if r.claimed.Refused? then t.claimed == start
            else Leased(cfg, r.now, r.locked, r.mint, r.stamp, start, t.claimed, Ids(t.msgs))
    ensures forall i :: 0 <= i < |t.msgs| ==> t.msgs[i].id in t.claimed && t.msgs[i].row == t.claimed[t.msgs[i].id]
    ensures !r.claimed.Answered? ==> t.n == 0 && t.failure == Some(Ordinary(r.claimed.err))
    ensures r.claimed.Answered? ==> t.n == |t.msgs| && (t.n == 0 ==> t.failure.None?)
    ensures t.n == 0 ==> t.end == t.claimed && t.log == logged
    ensures t.n > 0 ==> PassFated(cfg, r, logged, t)
  {
    if !r.claimed.Refused? {
      ClaimLeases(cfg, r.now, r.locked, r.mint, r.stamp, start, Ids(t.msgs));
      forall i | 0 <= i < |t.msgs| ensures t.msgs[i].row.leaseToken.Some? {
        assert t.msgs[i].id in Ids(t.msgs);
      }
    }
    if t.n > 0 {
      PassIsFated(cfg, r, logged, t);
    }
  }

  /** A renewal of the heartbeat, in columns: every claim still held gets a whole lease from its clock reading on. */
  lemma RenewedInColumns(cfg: Settings, rows: Rows, msgs: seq<Claimed>, beat: Beat)
    requires DistinctIds(msgs)
    ensures if beat.reply.Refused? then Renewed(cfg, rows, msgs, beat) == rows
            else Extended(msgs, cfg.leaseDuration, beat.clock, rows, Renewed(cfg, rows, msgs, beat))
  {
    RenewExtends(msgs, cfg.leaseDuration, beat.clock, rows);
  }

  lemma RecordedFates(cfg: Settings, r: Round, logged: multiset<Observation>, t: Trace)
    requires ValidOrder(r.world.order) && DistinctIds(t.msgs)
    requires forall i :: 0 <= i < |t.msgs| ==> t.msgs[i].row.leaseToken.Some?
    requires Recorded(cfg, r, t.msgs, t.mid, logged, t.end, t.log, ErrorOf(t.failure))
    ensures OthersRest(t.msgs, t.mid, t.end) && NilTells(r.world, t.msgs, t.mid, t.failure.None?)
    ensures var b := if r.perr.Some? then As(r.perr.value, IsBatch, r.world.order) else None;
            forall i :: 0 <= i < |t.msgs| ==>
              Fated(cfg, r.world, t.msgs[i],
                    if b.None? || !b.value.Batch? then r.perr
                    else if t.msgs[i].id in b.value.outcomes then b.value.outcomes[t.msgs[i].id]
                    else b.value.others,
                    t.mid, t.end, logged, t.log)
  {
    var b := if r.perr.Some? then As(r.perr.value, IsBatch, r.world.order) else None;
    var tally := Tally(t.end, t.log, ErrorOf(t.failure).None?, ErrMarks(ErrorOf(t.failure)));
    if b.Some? && b.value.Batch? {
      EachFated(cfg, r.world, b.value, t.msgs, t.mid, logged, tally);
    } else {
      SoloFated(cfg, r.world, t.msgs, r.perr, t.mid, logged, tally);
    }
  }

  /**
   Nothing fatal gets lost on the way up: an Abort or a recovered panic in the answer
   to any one statement of a settlement stops the relay, whatever became of the others.
   */
  lemma FatalAnswerStops(cfg: Settings, r: Round, start: Rows, logged: multiset<Observation>, t: Trace, id: Id,
                         ctxDone: bool)
    requires ValidOrder(r.world.order) && Processed(cfg, r, start, logged, t)
    requires t.n > 0 && !Stops(cfg, r) && !Lapsed(r, t.msgs, t.seen) && id in Ids(t.msgs)
    requires DistinctIds(t.msgs) && id in Plan(r.world, t.msgs, r.perr)
    requires var answer := Answer(r.world, Plan(r.world, t.msgs, r.perr)[id]);
             !answer.Answered? && (Has(answer.err, IsAbort) || Has(answer.err, IsPanic))
    ensures t.failure.Some? && t.failure.value.Ordinary?
    ensures IsFatal(t.failure.value.err, ctxDone, cfg.fatal, r.world.order)
  {
    var jobs := Plan(r.world, t.msgs, r.perr);
    assert id in Failing(r.world, jobs, Ids(t.msgs), t.mid);
    var e := t.failure.value.err;
    assert Troubled(r.world, jobs, Ids(t.msgs), IsAbort) || Troubled(r.world, jobs, Ids(t.msgs), IsPanic);
    assert IsAbort in ErrMarks(Some(e)) || IsPanic in ErrMarks(Some(e));
    AsFinds(e, IsAbort, r.world.order);
    AsFinds(e, IsPanic, r.world.order);
  }

  // ---- the passes of a drain ------------------------------------------------------------

  predicate GoesOn(t: Trace) {
    t.failure.None? && t.n > 0
  }

  /**
   What the last pass of a drain leaves, in columns: its error, if fatal by marker or by
   the classifier, is what drain returns; and if the pass claimed nothing, no row is left
   that it could have claimed.
   */
  ghost predicate Stopped(cfg: Settings, r: Round, t: Trace, err: Option<Err>) {
    match t.failure
    case None => err.None? && t.n == 0 && (cfg.batchSize > 0 ==> forall id :: !Free(t.end, cfg.ordered, r.now, r.locked, id))
    case Some(Fatal(e)) => err == Some(e)
    case Some(Ordinary(e)) =>
      err == if Has(e, IsAbort) || Has(e, IsPanic) || (!r.doneOnSettle && cfg.fatal(e)) then Some(e) else None
  }

  lemma FreeIsCandidate(cfg: Settings, r: Round, rows: Rows)
    requires cfg.batchSize > 0 ==> Candidates(rows, cfg.ordered, r.now) <= r.locked
    ensures cfg.batchSize > 0 ==> forall id :: !Free(rows, cfg.ordered, r.now, r.locked, id)
  {
    forall id ensures id in Candidates(rows, cfg.ordered, r.now) - r.locked <==> Free(rows, cfg.ordered, r.now, r.locked, id) {
      CandidatesAreFree(rows, cfg.ordered, r.now, r.locked, id);
    }
  }

  /** Where a number of passes lead: to a table and a log, and on to another pass or not. */
  datatype Standing = Standing(rows: Rows, log: multiset<Observation>, goesOn: bool)

  /**
   Where `ts` lead from a table and a log, if they are passes one after the other: each
   with a live context, on what other workers made of the table that the pass before it
   left, and only after a pass that claimed something and settled it all.
   */
  ghost function LeadTo(cfg: Settings, rounds: nat -> Round, start: Rows, logged: multiset<Observation>, ts: seq<Trace>): Option<Standing> {
    if ts == [] then Some(Standing(start, logged, true))
    else
      var k := |ts| - 1;
      var before := LeadTo(cfg, rounds, start, logged, ts[..k]);
      if before.Some? && before.value.goesOn && !rounds(k).ctxDone
         && Processed(cfg, rounds(k), rounds(k).others(before.value.rows), before.value.log, ts[k])
      then Some(Standing(ts[k].end, ts[k].log, GoesOn(ts[k])))
      else None
  }

  lemma NextPass(cfg: Settings, rounds: nat -> Round, start: Rows, logged: multiset<Observation>, ts: seq<Trace>,
                 at: Standing, t: Trace)
    requires LeadTo(cfg, rounds, start, logged, ts) == Some(at) && at.goesOn && !rounds(|ts|).ctxDone
    requires Processed(cfg, rounds(|ts|), rounds(|ts|).others(at.rows), at.log, t)
    ensures LeadTo(cfg, rounds, start, logged, ts + [t]) == Some(Standing(t.end, t.log, GoesOn(t)))
  {
    assert (ts + [t])[..|ts|] == ts;
  }

  lemma PlanCoversBatch(w: World, msgs: seq<Claimed>, perr: Option<Err>)
    requires DistinctIds(msgs)
    ensures Plan(w, msgs, perr).Keys == Ids(msgs)
    ensures forall i :: 0 <= i < |msgs| ==>
      msgs[i].id in Plan(w, msgs, perr) && Plan(w, msgs, perr)[msgs[i].id].m == msgs[i]
  {
    var b := if perr.Some? then As(perr.value, IsBatch, w.order) else None;
    if b.Some? && b.value.Batch? {
      EachCoversBatch(w, b.value, msgs);
    } else {
      SoloCoversBatch(msgs, Judge(w, perr));
    }
  }

  lemma EachCoversBatch(w: World, b: Err, msgs: seq<Claimed>)
    requires b.Batch? && DistinctIds(msgs)
    ensures EachJobs(w, b, msgs).Keys == Ids(msgs)
    ensures forall i :: 0 <= i < |msgs| ==>
      msgs[i].id in EachJobs(w, b, msgs) && EachJobs(w, b, msgs)[msgs[i].id].m == msgs[i]
  {
    forall i | 0 <= i < |msgs|
      ensures msgs[i].id in EachJobs(w, b, msgs) && EachJobs(w, b, msgs)[msgs[i].id].m == msgs[i]
    {
    }
  }

  lemma SoloCoversBatch(msgs: seq<Claimed>, v: Verdict)
    requires DistinctIds(msgs)
    ensures SoloJobs(msgs, v).Keys == Ids(msgs)
    ensures forall i :: 0 <= i < |msgs| ==>
      && msgs[i].id in SoloJobs(msgs, v)
      && SoloJobs(msgs, v)[msgs[i].id].m == msgs[i] && SoloJobs(msgs, v)[msgs[i].id].verdict == v
  {
  }

  /**
   No outcome that is settled contains an Abort or a Panic, not even one hidden in
   the entry of a single message: either would have stopped the relay, with the
   whole batch left claimed.
   */
  lemma NothingAbortedIsSettled(cfg: Settings, r: Round, id: Id)
    requires ValidOrder(r.world.order) && r.perr.Some? && !Stops(cfg, r)
    ensures !Has(r.perr.value, IsAbort) && !Has(r.perr.value, IsPanic)
    ensures var b := As(r.perr.value, IsBatch, r.world.order);
            b.Some? && b.value.Batch? && Resolve(b.value, id).Some? ==>
              !Has(Resolve(b.value, id).value, IsAbort) && !Has(Resolve(b.value, id).value, IsPanic)
  {
    var e, w := r.perr.value, r.world;
    AsFinds(e, IsAbort, w.order);
    AsFinds(e, IsPanic, w.order);
    var b := As(e, IsBatch, w.order);
    if b.Some? && b.value.Batch? && Resolve(b.value, id).Some? {
      var outcome := Resolve(b.value, id).value;
      if Has(outcome, IsAbort) { EntriesShowAtRoot(e, IsAbort, w.order, outcome); }
      if Has(outcome, IsPanic) { EntriesShowAtRoot(e, IsPanic, w.order, outcome); }
    }
  }

  // ---- what others may do meanwhile --------------------------------------------------

  /**
   From `a` to `b` other workers have run, without a new enqueue or requeue: no row
   appears or gains rank, and a row still held under this round's token is
   unchanged but for its deadline.
   */
  predicate Calm(limit: int, mint: Id -> Token, a: Rows, b: Rows) {
    forall id :: id in b ==> id in a && CalmRow(limit, mint(id), a[id], b[id])
  }

  predicate CalmRow(limit: int, token: Token, a: Row, b: Row) {
    && Rank(b, limit) <= Rank(a, limit)
    && (b.leaseToken == Some(token) ==> b == a.(lockedUntil := b.lockedUntil))
  }

  lemma CalmTransitive(limit: int, mint: Id -> Token, a: Rows, b: Rows, c: Rows)
    requires Calm(limit, mint, a, b) && Calm(limit, mint, b, c)
    ensures Calm(limit, mint, a, c)
  {
    forall id | id in c ensures id in a && CalmRow(limit, mint(id), a[id], c[id]) {
      assert CalmRow(limit, mint(id), b[id], c[id]) && CalmRow(limit, mint(id), a[id], b[id]);
    }
  }

  /**
   Every stretch of every run without enqueue or requeue is calm, whoever took part
   in it, and whatever this relay's own attempt limit is.
   */
  lemma QuietIsCalm(run: Run, relayMax: int, limit: int, i: nat, j: nat, mint: Id -> Token)
    requires ValidRun(run, relayMax) && i <= j < |run.states| && Quiet(run, i, j)
    requires forall id :: id in run.states[j].rows && run.states[j].rows[id].leaseToken == Some(mint(id)) ==>
               mint(id) in run.states[i].issued
    ensures Calm(limit, mint, run.states[i].rows, run.states[j].rows)
  {
    RunEvolves(run, relayMax, i, j);
    var a, b := run.states[i].rows, run.states[j].rows;
    forall id | id in b ensures id in a && CalmRow(limit, mint(id), a[id], b[id]) {
      RanksFall(run, relayMax, limit, i, j, id);
      if b[id].leaseToken == Some(mint(id)) {
        assert SameInsertion(a, b, id) && RowEvolves(a[id], b[id]);
      }
    }
  }

  ghost predicate CalmRound(limit: int, r: Round) {
    && ValidOrder(r.world.order)
    && (forall rows :: Calm(limit, r.mint, rows, r.others(rows)))
    && (forall rows :: Calm(limit, r.mint, rows, r.meanwhile(rows)))
    && (forall i, rows :: 0 <= i < |r.beats| ==> Calm(limit, r.mint, rows, r.beats[i].others(rows)))
  }

  lemma RenewalIsCalm(cfg: Settings, mint: Id -> Token, rows: Rows, msgs: seq<Claimed>, beat: Beat)
    ensures Calm(cfg.maxAttempts, mint, rows, Renewed(cfg, rows, msgs, beat))
  {
  }

  lemma {:induction false} BeatsAreCalm(cfg: Settings, r: Round, msgs: seq<Claimed>, seen: seq<Rows>, start: Rows, i: nat)
    requires CalmRound(cfg.maxAttempts, r) && Beaten(cfg, msgs, r.beats, seen, start) && i <= |seen|
    ensures Calm(cfg.maxAttempts, r.mint, start, TableAt(cfg, msgs, r.beats, seen, start, i))
    decreases i
  {
    if i > 0 {
      var before := TableAt(cfg, msgs, r.beats, seen, start, i - 1);
      BeatsAreCalm(cfg, r, msgs, seen, start, i - 1);
      assert BeatAt(cfg, msgs, r.beats, seen, start, i - 1);
      assert Calm(cfg.maxAttempts, r.mint, before, r.beats[i - 1].others(before));
      CalmTransitive(cfg.maxAttempts, r.mint, start, before, seen[i - 1]);
      RenewalIsCalm(cfg, r.mint, seen[i - 1], msgs, r.beats[i - 1]);
      CalmTransitive(cfg.maxAttempts, r.mint, start, seen[i - 1], Renewed(cfg, seen[i - 1], msgs, r.beats[i - 1]));
    }
  }

  // ---- why passes use up the backlog ---------------------------------------------------

  ghost predicate Settles(cfg: Settings, w: World, jobs: Jobs, msgs: seq<Claimed>, mid: Rows, end: Rows) {
    && jobs.Keys == Ids(msgs)
    && (forall i :: 0 <= i < |msgs| ==> msgs[i].id in jobs && jobs[msgs[i].id].m == msgs[i])
    && end == SettledRows(cfg, w, jobs, Ids(msgs), mid)
  }

  lemma ClaimedRank(cfg: Settings, r: Round, start: Rows, msgs: seq<Claimed>, claimed: Rows, id: Id)
    requires Takes(cfg, r, start, msgs, claimed) && id in claimed
    ensures id in start && Rank(claimed[id], cfg.maxAttempts) <= Rank(start[id], cfg.maxAttempts)
    ensures id in Ids(msgs) ==>
      && !Terminal(start[id].status)
      && claimed[id].leaseToken == Some(r.mint(id))
      && claimed[id].attempts == start[id].attempts + 1 && claimed[id].data == start[id].data
  {
    if id in Ids(msgs) { assert id in Candidates(start, cfg.ordered, r.now); }
  }

  /** Settling a message leaves its row, or ends it, or spends one of the attempts it has left. */
  lemma SettledRank(cfg: Settings, r: Round, msgs: seq<Claimed>, claimed: Rows, jobs: Jobs, mid: Rows, end: Rows, m: Claimed)
    requires Calm(cfg.maxAttempts, r.mint, claimed, mid) && Settles(cfg, r.world, jobs, msgs, mid, end)
    requires m in msgs && m.id in claimed && m.row == claimed[m.id] && m.row.leaseToken == Some(r.mint(m.id))
    ensures m.id in end ==>
      || end[m.id] == mid[m.id]
      || Terminal(end[m.id].status)
      || (end[m.id].data == m.row.data && end[m.id].attempts == m.row.attempts < EffectiveMax(m.row.data, cfg.maxAttempts))
    ensures m.id !in Failing(r.world, jobs, Ids(msgs), mid) ==> m.id in end && end[m.id].status != Processing
    ensures m.id !in Failing(r.world, jobs, Ids(msgs), mid) ==>
      || Terminal(end[m.id].status)
      || (end[m.id].data == m.row.data && end[m.id].attempts == m.row.attempts < EffectiveMax(m.row.data, cfg.maxAttempts))
  {
    var i :| 0 <= i < |msgs| && msgs[i] == m;
    assert m.id in Ids(msgs) && jobs[m.id].m == m;
    if m.id in mid {
      assert CalmRow(cfg.maxAttempts, r.mint(m.id), claimed[m.id], mid[m.id]);
    }
  }

  lemma PassRankAt(cfg: Settings, r: Round, start: Rows, msgs: seq<Claimed>, claimed: Rows,
                   jobs: Jobs, mid: Rows, end: Rows, id: Id)
    requires Takes(cfg, r, start, msgs, claimed)
    requires Calm(cfg.maxAttempts, r.mint, claimed, mid) && Settles(cfg, r.world, jobs, msgs, mid, end)
    requires id in end
    ensures id in start && Rank(end[id], cfg.maxAttempts) <= Rank(start[id], cfg.maxAttempts)
    ensures id in Ids(msgs) && id !in Failing(r.world, jobs, Ids(msgs), mid) ==>
      Rank(end[id], cfg.maxAttempts) < Rank(start[id], cfg.maxAttempts)
  {
    assert id in mid && CalmRow(cfg.maxAttempts, r.mint(id), claimed[id], mid[id]);
    ClaimedRank(cfg, r, start, msgs, claimed, id);
    if id in Ids(msgs) {
      var i :| 0 <= i < |msgs| && msgs[i].id == id;
      SettledRank(cfg, r, msgs, claimed, jobs, mid, end, msgs[i]);
    }
  }

  /**
   A pass never raises the total rank; one that claimed something and settled all of
   it strictly lowers it, whatever the backoff.
   */
  lemma PassUsesUpRank(cfg: Settings, r: Round, start: Rows, msgs: seq<Claimed>, claimed: Rows,
                       jobs: Jobs, mid: Rows, end: Rows)
    requires Takes(cfg, r, start, msgs, claimed)
    requires Calm(cfg.maxAttempts, r.mint, claimed, mid) && Settles(cfg, r.world, jobs, msgs, mid, end)
    ensures TotalRank(end, cfg.maxAttempts) <= TotalRank(start, cfg.maxAttempts)
    ensures msgs != [] && Failing(r.world, jobs, Ids(msgs), mid) == {} ==>
      TotalRank(end, cfg.maxAttempts) < TotalRank(start, cfg.maxAttempts)
  {
    forall id | id in end
      ensures id in start && Rank(end[id], cfg.maxAttempts) <= Rank(start[id], cfg.maxAttempts)
    {
      PassRankAt(cfg, r, start, msgs, claimed, jobs, mid, end, id);
    }
    SumFalls(Ranks(start, cfg.maxAttempts), Ranks(end, cfg.maxAttempts));
    if msgs != [] && Failing(r.world, jobs, Ids(msgs), mid) == {} {
      var id := msgs[0].id;
      assert id in Ids(msgs);
      ClaimedRank(cfg, r, start, msgs, claimed, id);
      SettledRank(cfg, r, msgs, claimed, jobs, mid, end, msgs[0]);
      PassRankAt(cfg, r, start, msgs, claimed, jobs, mid, end, id);
      assert Ranks(end, cfg.maxAttempts)[id] < Ranks(start, cfg.maxAttempts)[id];
    }
  }

  lemma ClaimKeepsRank(cfg: Settings, r: Round, start: Rows, msgs: seq<Claimed>, claimed: Rows)
    requires Takes(cfg, r, start, msgs, claimed)
    ensures TotalRank(claimed, cfg.maxAttempts) <= TotalRank(start, cfg.maxAttempts)
    ensures msgs == [] ==> claimed == start
    ensures msgs == [] && cfg.batchSize > 0 ==> Candidates(claimed, cfg.ordered, r.now) <= r.locked
  {
    forall id | id in claimed
      ensures id in start && Rank(claimed[id], cfg.maxAttempts) <= Rank(start[id], cfg.maxAttempts)
    {
      ClaimedRank(cfg, r, start, msgs, claimed, id);
    }
    SumFalls(Ranks(start, cfg.maxAttempts), Ranks(claimed, cfg.maxAttempts));
  }

  lemma CalmKeepsRank(limit: int, mint: Id -> Token, a: Rows, b: Rows)
    requires Calm(limit, mint, a, b)
    ensures TotalRank(b, limit) <= TotalRank(a, limit)
  {
    forall id | id in b ensures id in a && Rank(b[id], limit) <= Rank(a[id], limit) {
      assert CalmRow(limit, mint(id), a[id], b[id]);
    }
    SumFalls(Ranks(a, limit), Ranks(b, limit));
  }

  /** From the claim until Publish has returned. */
  lemma PublishIsCalm(cfg: Settings, r: Round, msgs: seq<Claimed>, seen: seq<Rows>, claimed: Rows, mid: Rows)
    requires CalmRound(cfg.maxAttempts, r) && Beaten(cfg, msgs, r.beats, seen, claimed)
    requires mid == r.meanwhile(TableAt(cfg, msgs, r.beats, seen, claimed, |seen|))
    ensures Calm(cfg.maxAttempts, r.mint, claimed, mid)
  {
    var beaten := TableAt(cfg, msgs, r.beats, seen, claimed, |seen|);
    BeatsAreCalm(cfg, r, msgs, seen, claimed, |seen|);
    assert Calm(cfg.maxAttempts, r.mint, beaten, r.meanwhile(beaten));
    CalmTransitive(cfg.maxAttempts, r.mint, claimed, beaten, mid);
  }

  lemma RecordedRank(cfg: Settings, r: Round, start: Rows, msgs: seq<Claimed>, claimed: Rows, mid: Rows,
                     logged: multiset<Observation>, end: Rows, log: multiset<Observation>, err: Option<Err>)
    requires Takes(cfg, r, start, msgs, claimed) && Calm(cfg.maxAttempts, r.mint, claimed, mid)
    requires Recorded(cfg, r, msgs, mid, logged, end, log, err)
    ensures TotalRank(end, cfg.maxAttempts) <= TotalRank(start, cfg.maxAttempts)
    ensures msgs != [] && err.None? ==> TotalRank(end, cfg.maxAttempts) < TotalRank(start, cfg.maxAttempts)
  {
    PlanCoversBatch(r.world, msgs, r.perr);
    PassUsesUpRank(cfg, r, start, msgs, claimed, Plan(r.world, msgs, r.perr), mid, end);
  }

  /** What a pass does to the total rank. */
  lemma PassRank(cfg: Settings, r: Round, start: Rows, logged: multiset<Observation>, t: Trace)
    requires CalmRound(cfg.maxAttempts, r) && Processed(cfg, r, start, logged, t)
    ensures TotalRank(t.end, cfg.maxAttempts) <= TotalRank(start, cfg.maxAttempts)
    ensures GoesOn(t) ==> TotalRank(t.end, cfg.maxAttempts) < TotalRank(start, cfg.maxAttempts)
    ensures t.failure.None? && t.n == 0 && cfg.batchSize > 0 ==> Candidates(t.end, cfg.ordered, r.now) <= r.locked
  {
    if !r.claimed.Refused? {
      ClaimKeepsRank(cfg, r, start, t.msgs, t.claimed);
    }
    if t.n > 0 {
      PublishIsCalm(cfg, r, t.msgs, t.seen, t.claimed, t.mid);
      if Stops(cfg, r) || Lapsed(r, t.msgs, t.seen) {
        CalmKeepsRank(cfg.maxAttempts, r.mint, t.claimed, t.mid);
      } else {
        RecordedRank(cfg, r, start, t.msgs, t.claimed, t.mid, logged, t.end, t.log, ErrorOf(t.failure));
      }
    }
  }
}
