/**
 Grouped settlement refines per-message settlement: what settleEach does in a few
 statements is what settling every message alone, in any order, would do.
 */
module Refinement {
  import opened Messages
  import opened Statements
  import opened Outcomes
  import opened Stores
  import opened Settlement

  ghost predicate AllAnswered(w: World) {
    forall group :: w.reply(group).Answered?
  }

  /** Every message in turn, by a finish statement of its own, with its own outcome. */
  ghost function SettledAlone(cfg: Settings, w: World, b: Err, msgs: seq<Claimed>, rows: Rows): Rows
    requires b.Batch?
  {
    if msgs == [] then rows
    else
      var m := msgs[|msgs| - 1];
      FinishRows(SettledAlone(cfg, w, b, msgs[..|msgs| - 1], rows), {KeyOf(m)},
                 Decide(cfg, w, m, Judge(w, Resolve(b, m.id))), cfg.clearPayload, w.clock)
  }

  lemma {:induction false} AloneLeavesOthers(cfg: Settings, w: World, b: Err, msgs: seq<Claimed>, rows: Rows)
    requires b.Batch?
    ensures SettledAlone(cfg, w, b, msgs, rows).Keys == rows.Keys
    ensures forall id :: id in rows && id !in Ids(msgs) ==> SettledAlone(cfg, w, b, msgs, rows)[id] == rows[id]
    decreases |msgs|
  {
    if msgs != [] {
      var init, last := msgs[..|msgs| - 1], msgs[|msgs| - 1];
      AloneLeavesOthers(cfg, w, b, init, rows);
      assert msgs == init + [last];
      IdsAppend(init, last);
    }
  }

  /** What settling alone comes to for one message. */
  lemma {:induction false} AloneSettles(cfg: Settings, w: World, b: Err, msgs: seq<Claimed>, rows: Rows, i: nat)
    requires b.Batch? && DistinctIds(msgs) && i < |msgs| && msgs[i].id in rows
    ensures msgs[i].id in SettledAlone(cfg, w, b, msgs, rows)
    ensures var m := msgs[i];
            SettledAlone(cfg, w, b, msgs, rows)[m.id] ==
            if Owned(rows, m, w.clock)
            then FinishRow(rows[m.id], Decide(cfg, w, m, Judge(w, Resolve(b, m.id))), cfg.clearPayload, w.clock(m.id).stamped)
            else rows[m.id]
    decreases |msgs|
  {
    var n := |msgs| - 1;
    var init := msgs[..n];
    AloneLeavesOthers(cfg, w, b, init, rows);
    if i < n {
      AloneSettles(cfg, w, b, init, rows, i);
      assert msgs[i].id != msgs[n].id;
    } else {
      assert forall j :: 0 <= j < n ==> init[j].id != msgs[n].id;
    }
  }

  lemma GroupedAtMember(cfg: Settings, w: World, b: Err, msgs: seq<Claimed>, m: Claimed, rows: Rows)
    requires b.Batch? && AllAnswered(w) && DistinctIds(msgs) && m in msgs && m.id in rows
    ensures SettledRows(cfg, w, EachJobs(w, b, msgs), Ids(msgs), rows)[m.id] ==
            if Owned(rows, m, w.clock)
            then FinishRow(rows[m.id], Decide(cfg, w, m, Judge(w, Resolve(b, m.id))), cfg.clearPayload, w.clock(m.id).stamped)
            else rows[m.id]
  {
    JobOf(w, b, msgs, m);
  }

  lemma GroupedIsIndividualAt(cfg: Settings, w: World, b: Err, msgs: seq<Claimed>, each: seq<Claimed>, rows: Rows, id: Id)
    requires b.Batch? && AllAnswered(w) && DistinctIds(msgs) && DistinctIds(each)
    requires forall m :: m in each <==> m in msgs
    requires id in rows
    ensures id in SettledAlone(cfg, w, b, each, rows)
    ensures SettledRows(cfg, w, EachJobs(w, b, msgs), Ids(msgs), rows)[id] == SettledAlone(cfg, w, b, each, rows)[id]
  {
    AloneLeavesOthers(cfg, w, b, each, rows);
    SameMembers(msgs, each, id);
    if id in Ids(msgs) {
      var i :| 0 <= i < |each| && each[i].id == id;
      AloneSettles(cfg, w, b, each, rows, i);
      GroupedAtMember(cfg, w, b, msgs, each[i], rows);
    }
  }

  /**
   The refinement. When the executor answers, settleEach leaves exactly the table
   that settling the messages one by one leaves, in whatever order `each` takes
   them.
   */
  lemma GroupedIsIndividual(cfg: Settings, w: World, b: Err, msgs: seq<Claimed>, each: seq<Claimed>, rows: Rows)
    requires b.Batch? && AllAnswered(w) && DistinctIds(msgs) && DistinctIds(each)
    requires forall m :: m in each <==> m in msgs
    ensures SettledRows(cfg, w, EachJobs(w, b, msgs), Ids(msgs), rows) == SettledAlone(cfg, w, b, each, rows)
  {
    AloneLeavesOthers(cfg, w, b, each, rows);
    forall id | id in rows
      ensures SettledRows(cfg, w, EachJobs(w, b, msgs), Ids(msgs), rows)[id] == SettledAlone(cfg, w, b, each, rows)[id]
    {
      GroupedIsIndividualAt(cfg, w, b, msgs, each, rows, id);
    }
  }

  /** ... and nothing is reported as failing exactly when every claim was still live. */
  lemma NilIffAllLive(w: World, b: Err, msgs: seq<Claimed>, rows: Rows)
    requires b.Batch? && AllAnswered(w) && DistinctIds(msgs)
    ensures Failing(w, EachJobs(w, b, msgs), Ids(msgs), rows) == {}
            <==> forall i :: 0 <= i < |msgs| ==> Owned(rows, msgs[i], w.clock)
  {
    var jobs := EachJobs(w, b, msgs);
    forall i | 0 <= i < |msgs|
      ensures msgs[i].id in Failing(w, jobs, Ids(msgs), rows) <==> !Owned(rows, msgs[i], w.clock)
    {
      JobOf(w, b, msgs, msgs[i]);
    }
    forall id | id in Failing(w, jobs, Ids(msgs), rows)
      ensures exists i :: 0 <= i < |msgs| && !Owned(rows, msgs[i], w.clock)
    {
      var i :| 0 <= i < |msgs| && msgs[i].id == id;
    }
  }

  lemma JobOf(w: World, b: Err, msgs: seq<Claimed>, m: Claimed)
    requires b.Batch? && DistinctIds(msgs) && m in msgs
    ensures m.id in Ids(msgs) && m.id in EachJobs(w, b, msgs)
    ensures EachJobs(w, b, msgs)[m.id].m == m && EachJobs(w, b, msgs)[m.id].verdict == Judge(w, Resolve(b, m.id))
  {
    var i :| 0 <= i < |msgs| && msgs[i] == m;
  }

  lemma SameMembers(msgs: seq<Claimed>, each: seq<Claimed>, id: Id)
    requires forall m :: m in each <==> m in msgs
    ensures id in Ids(msgs) <==> id in Ids(each)
  {
    if id in Ids(msgs) {
      var i :| 0 <= i < |msgs| && msgs[i].id == id;
      assert msgs[i] in each;
      var j :| 0 <= j < |each| && each[j] == msgs[i];
    }
    if id in Ids(each) {
      var i :| 0 <= i < |each| && each[i].id == id;
      assert each[i] in msgs;
      var j :| 0 <= j < |msgs| && msgs[j] == each[i];
    }
  }

  /** Entries for ids outside the batch are ignored: dropping them changes no job. */
  lemma ForeignIdsIgnored(w: World, b: Err, msgs: seq<Claimed>)
    requires b.Batch? && DistinctIds(msgs)
    ensures var own := Batch(map id | id in b.outcomes && id in Ids(msgs) :: b.outcomes[id], b.others);
            EachJobs(w, b, msgs) == EachJobs(w, own, msgs)
  {
    var own := Batch(map id | id in b.outcomes && id in Ids(msgs) :: b.outcomes[id], b.others);
    SameGroups(b, own, msgs, msgs);
    forall i | 0 <= i < |msgs|
      ensures EachJobs(w, b, msgs)[msgs[i].id] == EachJobs(w, own, msgs)[msgs[i].id]
    {
      assert msgs[i].id in Ids(msgs);
    }
  }

  lemma {:induction false} SameGroups(b: Err, own: Err, msgs: seq<Claimed>, part: seq<Claimed>)
    requires b.Batch? && own.Batch? && own.others == b.others
    requires own.outcomes == map id | id in b.outcomes && id in Ids(msgs) :: b.outcomes[id]
    requires forall i :: 0 <= i < |part| ==> part[i].id in Ids(msgs)
    ensures PublishedGroup(b, part) == PublishedGroup(own, part)
    ensures DefaultGroup(b, part) == DefaultGroup(own, part)
    decreases |part|
  {
    if part != [] {
      SameGroups(b, own, msgs, part[..|part| - 1]);
    }
  }
}
