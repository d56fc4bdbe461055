/** The relay of engine/relay.go: claim, publish, settle, and the loops around them. */
module Relays {
  import opened Messages
  import opened Statements
  import opened Outcomes
  import opened Stores
  import opened Settlement
  import opened Fates
  import opened Progress
  import opened Passes

  class Relay {
    const store: Store
    const cfg: Settings
    var log: multiset<Observation>  // what hook calls have reported so far

    constructor (store: Store, cfg: Settings)
      ensures this.store == store && this.cfg == cfg && log == multiset{}
    {
      this.store, this.cfg, log := store, cfg, multiset{};
    }

    /** complete: one finish statement, then the hooks for the rows it really moved. */
    method Complete(msgs: seq<Claimed>, status: Status, cause: Option<Err>, delay: Duration, w: World)
      returns (err: Option<Err>, ghost completed: seq<Claimed>)
      requires DistinctIds(msgs)
      modifies store, this`log
      ensures var c := Completion(status, if cause.Some? then w.text(cause.value) else "", delay);
              store.rows == if msgs == [] || w.reply(msgs).Refused? then old(store.rows)
                            else FinishRows(old(store.rows), Keys(msgs), c, cfg.clearPayload, w.clock)
      ensures err.None? <==> && (msgs == [] || w.reply(msgs).Answered?)
                             && forall i :: 0 <= i < |msgs| ==> Owned(old(store.rows), msgs[i], w.clock)
      ensures err.Some? ==> err.value == if w.reply(msgs).Answered? then LeaseLost else w.reply(msgs).err
      ensures log == old(log) + Observed(status, completed)
      ensures Ids(completed) == if (msgs == [] || w.reply(msgs).Answered?) && (status == Discarded ==> cfg.discardHooks)
                                then Hits(old(store.rows), Keys(msgs), w.clock) else {}
    {
      var reason := if cause.Some? then w.text(cause.value) else "";
      CountTellsLoss(store.rows, msgs, w.clock);
      var done, ferr := store.Finish(msgs, Completion(status, reason, delay), cfg.clearPayload, w.clock,
                                     if |msgs| == 0 then Answered else w.reply(msgs));
      completed := [];
      if ferr.Some? {
        return ferr, completed;
      }
      IdsSize(done);
      if |done| > 0 && (status != Discarded || cfg.discardHooks) {
        log := log + Observed(status, done);
        completed := done;
      }
      if |done| != |msgs| {
        return Some(LeaseLost), completed;
      }
      err := None;
    }

    /** Complete, seen as one statement of a larger batch of jobs, of which those in `done` stand at `p`. */
    method CompletePart(ghost p: Tally, ghost jobs: Jobs, ghost done: set<Id>, ghost before: Rows,
                        ghost logged: multiset<Observation>, group: seq<Claimed>, cause: Option<Err>, c: Completion, w: World)
      returns (err: Option<Err>)
      requires c.reason == if cause.Some? then w.text(cause.value) else ""
      requires OneStatement(cfg, w, jobs, group, c) && Ids(group) !! done
      requires p == Tallied(cfg, w, jobs, done, before, logged) && store.rows == p.rows && log == p.log
      modifies store, this`log
      ensures Tally(store.rows, log, p.clean && err.None?, p.marks + ErrMarks(err))
              == Tallied(cfg, w, jobs, done + Ids(group), before, logged)
    {
      ghost var completed;
      err, completed := Complete(group, c.status, cause, c.delay, w);
      StatementTallies(cfg, w, jobs, done, before, logged, p, group, c, store.rows, completed, err);
    }

    /** The branches of settle that need a single statement. */
    method CompleteAll(msgs: seq<Claimed>, status: Status, cause: Option<Err>, w: World, ghost v: Verdict)
      returns (err: Option<Err>)
      requires DistinctIds(msgs)
      requires v == match status
                    case Published => Publish
                    case Dead => Bury(if cause.Some? then w.text(cause.value) else "")
                    case _ => Drop(if cause.Some? then w.text(cause.value) else "")
      requires status == Discarded || status == Dead || (status == Published && cause.None?)
      modifies store, this`log
      ensures Tally(store.rows, log, err.None?, ErrMarks(err))
              == Tallied(cfg, w, SoloJobs(msgs, v), Ids(msgs), old(store.rows), old(log))
    {
      var c := Completion(status, if cause.Some? then w.text(cause.value) else "", 0);
      GroupStatement(cfg, w, msgs, v, c);
      NothingTallied(cfg, w, SoloJobs(msgs, v), store.rows, log);
      err := CompletePart(Tally(store.rows, log, true, {}), SoloJobs(msgs, v), {}, store.rows, log, msgs, cause, c, w);
      assert {} + Ids(msgs) == Ids(msgs);
    }

    /** settle: one publish outcome, recorded for every message of `msgs`. */
    method Settle(msgs: seq<Claimed>, perr: Option<Err>, w: World) returns (err: Option<Err>)
      requires DistinctIds(msgs) && ValidOrder(w.order)
      modifies store, this`log
      ensures Tally(store.rows, log, err.None?, ErrMarks(err))
              == Tallied(cfg, w, SoloJobs(msgs, Judge(w, perr)), Ids(msgs), old(store.rows), old(log))
      // in columns: each message meets the fate of the outcome, all other rows rest
      ensures forall i :: 0 <= i < |msgs| && msgs[i].row.leaseToken.Some? ==>
                Fated(cfg, w, msgs[i], perr, old(store.rows), store.rows, old(log), log)
      ensures OthersRest(msgs, old(store.rows), store.rows) && NilTells(w, msgs, old(store.rows), err.None?)
    {
      ghost var before, logged := store.rows, log;
      err := SettleBy(msgs, perr, w);
      SoloFated(cfg, w, msgs, perr, before, logged, Tally(store.rows, log, err.None?, ErrMarks(err)));
    }

    /** The switch of settle. */
    method SettleBy(msgs: seq<Claimed>, perr: Option<Err>, w: World) returns (err: Option<Err>)
      requires DistinctIds(msgs) && ValidOrder(w.order)
      modifies store, this`log
      ensures Tally(store.rows, log, err.None?, ErrMarks(err))
              == Tallied(cfg, w, SoloJobs(msgs, Judge(w, perr)), Ids(msgs), old(store.rows), old(log))
    {
      ghost var v := Judge(w, perr);
      if |msgs| == 0 {
        return None;
      }
      if perr.None? {
        err := CompleteAll(msgs, Published, None, w, v);
        return;
      }
      var e := perr.value;
      AsFinds(e, IsPermanent, w.order);
      AsFinds(e, IsDiscard, w.order);
      if As(e, IsPermanent, w.order).Some? {
        err := CompleteAll(msgs, Dead, perr, w, v);
      } else if As(e, IsDiscard, w.order).Some? {
        err := CompleteAll(msgs, Discarded, perr, w, v);
      } else {
        var retry := As(e, IsRetryAfter, w.order);
        AsFinds(e, IsRetryAfter, w.order);
        SoloCoversBatch(msgs, v);
        err := SettleRows(msgs, e, if retry.Some? then Some(retry.value.delay) else None, w, v, SoloJobs(msgs, v));
      }
    }

    /** The retry branch of settle: attempt limits differ per message, so each row gets its own statement. */
    method SettleRows(msgs: seq<Claimed>, e: Err, asked: Option<Duration>, w: World, ghost v: Verdict, ghost jobs: Jobs)
      returns (err: Option<Err>)
      requires DistinctIds(msgs) && v == Retry(w.text(e), asked)
      requires RowJobs(jobs, msgs, v)
      modifies store, this`log
      ensures Tally(store.rows, log, err.None?, ErrMarks(err))
              == Tallied(cfg, w, jobs, Ids(msgs), old(store.rows), old(log))
    {
      ghost var before, logged, done := store.rows, log, {};
      NothingTallied(cfg, w, jobs, before, logged);
      var errs: seq<Err> := [];
      var i := 0;
      while i < |msgs|
        invariant i <= |msgs| && done == Ids(msgs[..i])
        invariant Tally(store.rows, log, errs == [], ListMarks(errs)) == Tallied(cfg, w, jobs, done, before, logged)
      {
        NextRow(jobs, msgs, v, i);
        errs, done := SettleRow(msgs[i], e, asked, w, errs, v, jobs, done, before, logged);
        i := i + 1;
      }
      assert msgs[..i] == msgs;
      err := JoinErrors(errs);
    }

    /** One iteration of that loop. */
    method SettleRow(m: Claimed, e: Err, asked: Option<Duration>, w: World, errs: seq<Err>, ghost v: Verdict,
                     ghost jobs: Jobs, ghost done: set<Id>, ghost before: Rows, ghost logged: multiset<Observation>)
      returns (more: seq<Err>, ghost done': set<Id>)
      requires v == Retry(w.text(e), asked) && m.id !in done
      requires m.id in jobs && jobs[m.id].m == m && jobs[m.id].verdict == v
      requires Tally(store.rows, log, errs == [], ListMarks(errs)) == Tallied(cfg, w, jobs, done, before, logged)
      modifies store, this`log
      ensures done' == done + {m.id}
      ensures Tally(store.rows, log, more == [], ListMarks(more)) == Tallied(cfg, w, jobs, done', before, logged)
    {
      var c := RetryOrBury(m, w.text(e), asked, w);
      OneId(m);
      ghost var p := Tally(store.rows, log, errs == [], ListMarks(errs));
      var err := CompletePart(p, jobs, done, before, logged, [m], Some(e), c, w);
      MarksAppend(errs, err);
      more := if err.Some? then errs + [err.value] else errs;
      done' := done + Ids([m]);
    }

    /** Status and delay of one failed message. */
    method RetryOrBury(m: Claimed, reason: string, asked: Option<Duration>, w: World) returns (c: Completion)
      ensures c == Decide(cfg, w, m, Retry(reason, asked))
      // dead at the limit, the message's own or else the relay's, and only then
      ensures c.reason == reason && (c.status == Dead || c.status == Pending)
      ensures c.status == Dead <==> m.row.attempts >= EffectiveMax(m.row.data, cfg.maxAttempts)
      // otherwise it waits no less than the backoff, the request and zero, and no longer than one of them
      ensures c.status == Pending ==>
                && c.delay >= 0 && c.delay >= w.backoff(m.id, m.row.attempts)
                && (asked.Some? ==> c.delay >= asked.value)
                && (c.delay == 0 || c.delay == w.backoff(m.id, m.row.attempts) || asked == Some(c.delay))
    {
      var limit := cfg.maxAttempts;
      if m.row.data.maxAttempts.Some? {
        limit := m.row.data.maxAttempts.value;
      }
      var status, delay := Pending, 0;
      if m.row.attempts >= limit {
        status := Dead;
      } else {
        delay := w.backoff(m.id, m.row.attempts);
        if delay < 0 {
          delay := 0;
        }
        if asked.Some? && asked.value > delay {
          delay := asked.value;
        }
      }
      c := Completion(status, reason, delay);
    }

    /** Settle, as one more share of a batch of which the jobs in `done` are already settled. */
    method SettlePart(ghost jobs: Jobs, ghost done: set<Id>, ghost before: Rows, ghost logged: multiset<Observation>,
                      group: seq<Claimed>, outcome: Option<Err>, w: World, errs: seq<Err>)
      returns (more: seq<Err>)
      requires Part(jobs, group, Judge(w, outcome)) && Ids(group) !! done && ValidOrder(w.order)
      requires Tally(store.rows, log, errs == [], ListMarks(errs)) == Tallied(cfg, w, jobs, done, before, logged)
      modifies store, this`log
      ensures Tally(store.rows, log, more == [], ListMarks(more)) == Tallied(cfg, w, jobs, done + Ids(group), before, logged)
    {
      ghost var p := Tally(store.rows, log, errs == [], ListMarks(errs));
      var err := Settle(group, outcome, w);
      ghost var q := Tally(store.rows, log, err.None?, ErrMarks(err));
      PartTallies(cfg, w, jobs, done, before, logged, p, group, Judge(w, outcome), q);
      MarksAppend(errs, err);
      more := if err.Some? then errs + [err.value] else errs;
    }

    /** settleEach: every message by its own outcome, published and defaulted ones as groups. */
    method SettleEach(msgs: seq<Claimed>, b: Err, w: World) returns (err: Option<Err>)
      requires b.Batch? && DistinctIds(msgs) && ValidOrder(w.order)
      modifies store, this`log
      ensures Tally(store.rows, log, err.None?, ErrMarks(err))
              == Tallied(cfg, w, EachJobs(w, b, msgs), Ids(msgs), old(store.rows), old(log))
      // in columns: each message meets the fate of its entry, be it nil, or else of the default
      ensures forall i :: 0 <= i < |msgs| && msgs[i].row.leaseToken.Some? ==>
                Fated(cfg, w, msgs[i], if msgs[i].id in b.outcomes then b.outcomes[msgs[i].id] else b.others,
                      old(store.rows), store.rows, old(log), log)
      ensures OthersRest(msgs, old(store.rows), store.rows) && NilTells(w, msgs, old(store.rows), err.None?)
    {
      ghost var before, logged := store.rows, log;
      err := SettleShares(msgs, b, w);
      EachFated(cfg, w, b, msgs, before, logged, Tally(store.rows, log, err.None?, ErrMarks(err)));
    }

    /** The three shares of settleEach: the entries, the published, and the others. */
    method SettleShares(msgs: seq<Claimed>, b: Err, w: World) returns (err: Option<Err>)
      requires b.Batch? && DistinctIds(msgs) && ValidOrder(w.order)
      modifies store, this`log
      ensures Tally(store.rows, log, err.None?, ErrMarks(err))
              == Tallied(cfg, w, EachJobs(w, b, msgs), Ids(msgs), old(store.rows), old(log))
    {
      ghost var jobs, before, done := EachJobs(w, b, msgs), store.rows, IndividualIds(b, msgs);
      SharesMakeUpBatch(b, msgs);
      SharesAreParts(w, b, msgs);
      var published, others, errs := SettleEntries(msgs, b, w);
      errs := SettlePart(jobs, done, before, old(log), published, None, w, errs);
      errs := SettlePart(jobs, done + Ids(published), before, old(log), others, b.others, w, errs);
      err := JoinErrors(errs);
    }

    /** The loop of settleEach: settles entries with an error, sorts the other messages into the two groups. */
    method SettleEntries(msgs: seq<Claimed>, b: Err, w: World)
      returns (published: seq<Claimed>, others: seq<Claimed>, errs: seq<Err>)
      requires b.Batch? && DistinctIds(msgs) && ValidOrder(w.order)
      modifies store, this`log
      ensures published == PublishedGroup(b, msgs) && others == DefaultGroup(b, msgs)
      ensures Tally(store.rows, log, errs == [], ListMarks(errs))
              == Tallied(cfg, w, EachJobs(w, b, msgs), IndividualIds(b, msgs), old(store.rows), old(log))
    {
      ghost var jobs, before, logged, done := EachJobs(w, b, msgs), store.rows, log, {};
      NothingTallied(cfg, w, jobs, before, logged);
      published, others, errs := [], [], [];
      var i := 0;
      while i < |msgs|
        invariant i <= |msgs| && done == IndividualIds(b, msgs[..i])
        invariant published == PublishedGroup(b, msgs[..i]) && others == DefaultGroup(b, msgs[..i])
        invariant Tally(store.rows, log, errs == [], ListMarks(errs)) == Tallied(cfg, w, jobs, done, before, logged)
      {
        NextEntry(w, b, msgs, i);
        published, others, errs, done := SettleEntry(msgs[i], b, w, published, others, errs, jobs, done, before, logged);
        i := i + 1;
      }
      assert msgs[..i] == msgs;
    }

    /** One iteration of that loop. */
    method SettleEntry(m: Claimed, b: Err, w: World, published: seq<Claimed>, others: seq<Claimed>, errs: seq<Err>,
                       ghost jobs: Jobs, ghost done: set<Id>, ghost before: Rows, ghost logged: multiset<Observation>)
      returns (published': seq<Claimed>, others': seq<Claimed>, more: seq<Err>, ghost done': set<Id>)
      requires b.Batch? && ValidOrder(w.order) && m.id !in done
      requires Individual(b, m) ==> Part(jobs, [m], Judge(w, Resolve(b, m.id)))
      requires Tally(store.rows, log, errs == [], ListMarks(errs)) == Tallied(cfg, w, jobs, done, before, logged)
      modifies store, this`log
      ensures published' == published + (if InPublished(b, m) then [m] else [])
      ensures others' == others + (if InDefault(b, m) then [m] else [])
      ensures done' == done + (if Individual(b, m) then {m.id} else {})
      ensures Tally(store.rows, log, more == [], ListMarks(more)) == Tallied(cfg, w, jobs, done', before, logged)
    {
      published', others', more, done' := published, others, errs, done;
      if Resolve(b, m.id).None? {
        published' := published + [m];
      } else if m.id !in b.outcomes {
        others' := others + [m];
      } else {
        OneId(m);
        done' := done + Ids([m]);
        more := SettlePart(jobs, done, before, logged, [m], b.outcomes[m.id], w, errs);
      }
    }

    // ---- publish ----------------------------------------------------------------------

    /**
     heartbeat, while Publish runs: renews the claims at every tick until Publish
     returns, a renewal fails, or the context is done. A nil result with a live
     context means that every renewal reached every claim.
     */
    method Heartbeat(msgs: seq<Claimed>, beats: seq<Beat>) returns (err: Option<Err>, ghost seen: seq<Rows>)
      requires DistinctIds(msgs)
      modifies store
      ensures Beaten(cfg, msgs, beats, seen, old(store.rows))
      ensures store.rows == TableAt(cfg, msgs, beats, seen, old(store.rows), |seen|)
      ensures |seen| < |beats| ==> |seen| > 0 && !Kept(seen[|seen| - 1], msgs, beats[|seen| - 1])
      ensures err.Some? <==> && |seen| > 0 && !Kept(seen[|seen| - 1], msgs, beats[|seen| - 1])
                             && !beats[|seen| - 1].ctxDone
      ensures err.Some? ==> TellsLapse(err.value, beats[|seen| - 1])
    {
      seen := [];
      var i := 0;
      while i < |beats|
        invariant i <= |beats| && |seen| == i
        invariant Beaten(cfg, msgs, beats, seen, old(store.rows))
        invariant store.rows == TableAt(cfg, msgs, beats, seen, old(store.rows), i)
        invariant i > 0 ==> Kept(seen[i - 1], msgs, beats[i - 1])
      {
        var failed;
        failed, seen := OnTick(msgs, beats, i, old(store.rows), seen);
        i := i + 1;
        if failed.Some? {
          if beats[i - 1].ctxDone {
            return None, seen;
          }
          return Some(Wrapped("outbox: renew claims", failed.value)), seen;
        }
      }
      err := None;
    }

    /** One tick of the heartbeat. */
    method OnTick(msgs: seq<Claimed>, beats: seq<Beat>, i: nat, ghost start: Rows, ghost seen: seq<Rows>)
      returns (failed: Option<Err>, ghost seen': seq<Rows>)
      requires DistinctIds(msgs) && i == |seen| < |beats| && Beaten(cfg, msgs, beats, seen, start)
      requires store.rows == TableAt(cfg, msgs, beats, seen, start, i)
      requires i > 0 ==> Kept(seen[i - 1], msgs, beats[i - 1])
      modifies store
      ensures |seen'| == i + 1 && Beaten(cfg, msgs, beats, seen', start)
      ensures store.rows == TableAt(cfg, msgs, beats, seen', start, i + 1)
      ensures failed.None? <==> Kept(seen'[i], msgs, beats[i])
      ensures failed.Some? ==> failed.value == if beats[i].reply.Answered? then LeaseLost else beats[i].reply.err
    {
      store.rows := beats[i].others(store.rows);
      BeatenAppend(cfg, msgs, beats, seen, start, store.rows);
      seen' := seen + [store.rows];
      failed := store.Renew(msgs, cfg.leaseDuration, beats[i].clock, beats[i].reply);
    }

    // ---- processBatch -------------------------------------------------------------------

    /** processBatch: claims a batch, publishes it under a heartbeat, records the outcome. */
    method ProcessBatch(r: Round) returns (n: nat, failure: Option<Failure>, ghost t: Trace)
      requires ValidOrder(r.world.order)
      modifies store, this`log
      ensures Processed(cfg, r, old(store.rows), old(log), t)
      ensures t.n == n && t.failure == failure && t.end == store.rows && t.log == log
    {
      n, failure := 0, None;
      if r.claimed.Refused? {
        failure := Some(Ordinary(r.claimed.err));
        t := Trace([], store.rows, [], store.rows, n, failure, store.rows, log);
        return;
      }
      var msgs := store.Claim(cfg, r.now, r.locked, r.mint, r.stamp);
      ghost var claimed := store.rows;
      if r.claimed.Lost? {
        failure := Some(Ordinary(r.claimed.err));
        t := Trace(msgs, claimed, [], claimed, n, failure, claimed, log);
        return;
      }
      n := |msgs|;
      if n == 0 {
        t := Trace(msgs, claimed, [], claimed, n, failure, claimed, log);
        return;
      }
      failure, t := PublishAndRecord(r, msgs);
    }

    /** processBatch after a claim that found something. */
    method PublishAndRecord(r: Round, msgs: seq<Claimed>) returns (failure: Option<Failure>, ghost t: Trace)
      requires ValidOrder(r.world.order) && DistinctIds(msgs)
      modifies store, this`log
      ensures t.msgs == msgs && t.claimed == old(store.rows) && t.n == |msgs|
      ensures Publishes(cfg, r, t) && Concludes(cfg, r, old(log), t)
      ensures t.failure == failure && t.end == store.rows && t.log == log
    {
      ghost var claimed := store.rows;
      var leaseErr;
      ghost var seen;
      leaseErr, seen := Heartbeat(msgs, r.beats);
      store.rows := r.meanwhile(store.rows);
      failure, t := Conclude(r, msgs, leaseErr, claimed, seen);
    }

    /** processBatch once Publish has returned. */
    method Conclude(r: Round, msgs: seq<Claimed>, leaseErr: Option<Err>, ghost claimed: Rows, ghost seen: seq<Rows>)
      returns (failure: Option<Failure>, ghost t: Trace)
      requires ValidOrder(r.world.order) && DistinctIds(msgs)
      requires leaseErr.Some? <==> Lapsed(r, msgs, seen)
      requires leaseErr.Some? ==> TellsLapse(leaseErr.value, r.beats[|seen| - 1])
      modifies store, this`log
      ensures t == Trace(msgs, claimed, seen, old(store.rows), |msgs|, failure, store.rows, log)
      ensures Concludes(cfg, r, old(log), t)
    {
      ghost var mid := store.rows;
      if r.perr.Some? && IsFatal(r.perr.value, r.doneOnReturn, cfg.fatal, r.world.order) {
        failure := Some(Fatal(r.perr.value));
      } else if leaseErr.Some? {
        failure := Some(Ordinary(leaseErr.value));
      } else {
        var err := Record(r, msgs);
        failure := if err.Some? then Some(Ordinary(err.value)) else None;
        assert ErrorOf(failure) == err;
      }
      t := Trace(msgs, claimed, seen, mid, |msgs|, failure, store.rows, log);
    }

    /** The last lines of processBatch: per message for a BatchError, as one group for anything else. */
    method Record(r: Round, msgs: seq<Claimed>) returns (err: Option<Err>)
      requires DistinctIds(msgs) && ValidOrder(r.world.order)
      modifies store, this`log
      ensures Recorded(cfg, r, msgs, old(store.rows), old(log), store.rows, log, err)
    {
      if r.perr.Some? {
        AsFinds(r.perr.value, IsBatch, r.world.order);
        var b := As(r.perr.value, IsBatch, r.world.order);
        if b.Some? {
          err := SettleEach(msgs, b.value, r.world);
          return;
        }
      }
      err := Settle(msgs, r.perr, r.world);
    }

    // ---- drain ----------------------------------------------------------------------------

    /**
     drain: passes until one claims nothing, fails, or the context is done. Round `k`
     is what the world brings to pass `k`, and `ts` are the passes. It terminates
     although a retry may be due at once: every pass that goes on to another one uses up
     rank, so at most as many do as the table had rank to begin with. Only fatal errors
     are returned.
     */
    method Drain(rounds: nat -> Round) returns (err: Option<Err>, ghost ts: seq<Trace>, ghost goesOn: bool)
      requires forall k :: CalmRound(cfg.maxAttempts, rounds(k))
      modifies store, this`log
      ensures LeadTo(cfg, rounds, old(store.rows), old(log), ts) == Some(Standing(store.rows, log, goesOn))
      // it ends with the context, or with a pass that does not go on
      ensures goesOn ==> rounds(|ts|).ctxDone && err.None?
      ensures !goesOn ==> ts != [] && Stopped(cfg, rounds(|ts| - 1), ts[|ts| - 1], err)
      // after no more passes that did go on than there was rank
      ensures (if goesOn then |ts| else |ts| - 1) + TotalRank(store.rows, cfg.maxAttempts)
              <= TotalRank(old(store.rows), cfg.maxAttempts)
    {
      ghost var start, logged := store.rows, log;
      ts, err, goesOn := [], None, true;
      var k := 0;
      while !rounds(k).ctxDone
        invariant k == |ts| && err.None? && goesOn
        invariant LeadTo(cfg, rounds, start, logged, ts) == Some(Standing(store.rows, log, true))
        invariant k + TotalRank(store.rows, cfg.maxAttempts) <= TotalRank(start, cfg.maxAttempts)
        decreases TotalRank(store.rows, cfg.maxAttempts)
      {
        var more;
        more, err, ts := DrainStep(rounds, k, start, logged, ts);
        if !more {
          goesOn := false;
          return;
        }
        k := k + 1;
      }
    }

    /** One iteration of that loop: a pass, and whether and with what to stop after it. */
    method DrainStep(rounds: nat -> Round, k: nat, ghost start: Rows, ghost logged: multiset<Observation>, ghost ts: seq<Trace>)
      returns (more: bool, err: Option<Err>, ghost ts': seq<Trace>)
      requires CalmRound(cfg.maxAttempts, rounds(k)) && !rounds(k).ctxDone && k == |ts|
      requires LeadTo(cfg, rounds, start, logged, ts) == Some(Standing(store.rows, log, true))
      modifies store, this`log
      ensures |ts'| == k + 1
      ensures LeadTo(cfg, rounds, start, logged, ts') == Some(Standing(store.rows, log, more))
      ensures if more then err.None? else Stopped(cfg, rounds(k), ts'[k], err)
      ensures TotalRank(store.rows, cfg.maxAttempts) <= TotalRank(old(store.rows), cfg.maxAttempts)
      ensures more ==> TotalRank(store.rows, cfg.maxAttempts) < TotalRank(old(store.rows), cfg.maxAttempts)
    {
      var r := rounds(k);
      ghost var at := Standing(store.rows, log, true);
      CalmKeepsRank(cfg.maxAttempts, r.mint, store.rows, r.others(store.rows));
      store.rows := r.others(store.rows);
      ghost var met := store.rows;
      var n, failure;
      ghost var t;
      n, failure, t := ProcessBatch(r);
      PassRank(cfg, r, met, at.log, t);
      NextPass(cfg, rounds, start, logged, ts, at, t);
      ts' := ts + [t];
      more, err := Classify(r, n, failure, t);
    }

    /** What drain makes of a pass: a fatal error is returned, any other ends the drain, as does an empty claim. */
    method Classify(r: Round, n: nat, failure: Option<Failure>, ghost t: Trace) returns (more: bool, err: Option<Err>)
      requires ValidOrder(r.world.order) && t.n == n && t.failure == failure
      requires t.failure.None? && t.n == 0 && cfg.batchSize > 0 ==> Candidates(t.end, cfg.ordered, r.now) <= r.locked
      ensures more == GoesOn(t)
      ensures if more then err.None? else Stopped(cfg, r, t, err)
    {
      more, err := false, None;
      if failure.Some? {
        var e := failure.value.err;
        DecisionIsOrderFree(e, r.doneOnSettle, cfg.fatal, r.world.order, r.world.order);
        if failure.value.Fatal? {
          err := Some(e);
        } else if IsFatal(e, r.doneOnSettle, cfg.fatal, r.world.order) {
          err := Some(e);
        }
        return;
      }
      if n == 0 {
        FreeIsCandidate(cfg, r, t.end);
        return;
      }
      more := true;
    }
  }

  /** errors.Join: nil when there is nothing to join, else an error that carries every marker of its causes. */
  function JoinErrors(errs: seq<Err>): (err: Option<Err>)
    ensures err.None? <==> errs == []
    ensures ErrMarks(err) == ListMarks(errs)
  {
    JoinMarks(errs);
    if errs == [] then None else Some(Joined(errs))
  }

  lemma OneId(m: Claimed)
    ensures Ids([m]) == {m.id}
  {
    assert [m][0].id == m.id;
  }

  /** What the next message adds to the shares of the batch. */
  lemma NextEntry(w: World, b: Err, msgs: seq<Claimed>, i: nat)
    requires b.Batch? && DistinctIds(msgs) && i < |msgs|
    ensures PublishedGroup(b, msgs[..i + 1]) == PublishedGroup(b, msgs[..i]) + (if InPublished(b, msgs[i]) then [msgs[i]] else [])
    ensures DefaultGroup(b, msgs[..i + 1]) == DefaultGroup(b, msgs[..i]) + (if InDefault(b, msgs[i]) then [msgs[i]] else [])
    ensures IndividualIds(b, msgs[..i + 1]) ==
            IndividualIds(b, msgs[..i]) + (if Individual(b, msgs[i]) then {msgs[i].id} else {})
    ensures msgs[i].id !in IndividualIds(b, msgs[..i])
    ensures Individual(b, msgs[i]) ==> Part(EachJobs(w, b, msgs), [msgs[i]], Judge(w, Resolve(b, msgs[i].id)))
  {
    NextIndividual(b, msgs, i);
    NextInGroups(b, msgs, i);
    if Individual(b, msgs[i]) { EntryIsPart(w, b, msgs, i); }
  }

  lemma NextInGroups(b: Err, msgs: seq<Claimed>, i: nat)
    requires b.Batch? && i < |msgs|
    ensures PublishedGroup(b, msgs[..i + 1]) == PublishedGroup(b, msgs[..i]) + (if InPublished(b, msgs[i]) then [msgs[i]] else [])
    ensures DefaultGroup(b, msgs[..i + 1]) == DefaultGroup(b, msgs[..i]) + (if InDefault(b, msgs[i]) then [msgs[i]] else [])
  {
    assert msgs[..i + 1][..i] == msgs[..i];
  }

  lemma GroupStatement(cfg: Settings, w: World, msgs: seq<Claimed>, v: Verdict, c: Completion)
    requires DistinctIds(msgs) && !v.Retry? && (msgs != [] ==> c == Decide(cfg, w, msgs[0], v))
    ensures OneStatement(cfg, w, SoloJobs(msgs, v), msgs, c)
  {
    forall i | 0 <= i < |msgs|
      ensures msgs[i].id in SoloJobs(msgs, v) && SoloJobs(msgs, v)[msgs[i].id] == Job(msgs[i], v, msgs)
    {
    }
  }

  /** All messages share one verdict. */
  predicate RowJobs(jobs: Jobs, msgs: seq<Claimed>, v: Verdict) {
    forall i :: 0 <= i < |msgs| ==> msgs[i].id in jobs && jobs[msgs[i].id].m == msgs[i] && jobs[msgs[i].id].verdict == v
  }

  /** What the next message adds to the rows that are settled one by one. */
  lemma NextRow(jobs: Jobs, msgs: seq<Claimed>, v: Verdict, i: nat)
    requires DistinctIds(msgs) && i < |msgs| && RowJobs(jobs, msgs, v)
    ensures Ids(msgs[..i + 1]) == Ids(msgs[..i]) + {msgs[i].id} && msgs[i].id !in Ids(msgs[..i])
    ensures msgs[i].id in jobs && jobs[msgs[i].id].m == msgs[i] && jobs[msgs[i].id].verdict == v
  {
    IdsOfNext(msgs, i);
  }

  lemma IdsOfNext(msgs: seq<Claimed>, i: nat)
    requires DistinctIds(msgs) && i < |msgs|
    ensures Ids([msgs[i]]) == {msgs[i].id}
    ensures Ids(msgs[..i + 1]) == Ids(msgs[..i]) + Ids([msgs[i]])
    ensures Ids(msgs[..i]) !! Ids([msgs[i]])
    ensures DistinctIds(msgs[..i]) && DistinctIds([msgs[i]])
  {
    assert [msgs[i]][0].id == msgs[i].id;
    assert msgs[..i + 1] == msgs[..i] + [msgs[i]];
    IdsAppend(msgs[..i], msgs[i]);
  }
}
