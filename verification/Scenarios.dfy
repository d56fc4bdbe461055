/** Building blocks for concrete runs: one statement more, by a relay with one attempt per message. */
module Scenarios {
  import opened Messages
  import opened Statements
  import opened Protocol

  ghost predicate Extends(run: Run, longer: Run) {
    run.states <= longer.states && run.steps <= longer.steps
  }

  lemma Extended(run: Run, step: Step, t: State) returns (longer: Run)
    requires ValidRun(run, 1) && (step.Claim? ==> step.snapshot == |run.steps|)
    requires Next(run.states[|run.steps|].rows, run.states[|run.steps|], step, t, 1)
    ensures longer == Run(run.states + [t], run.steps + [step]) && ValidRun(longer, 1)
  {
    longer := Run(run.states + [t], run.steps + [step]);
    forall i | 0 <= i < |run.steps| ensures StepOk(longer, i, 1) {
      PrefixStepOk(run, step, t, i);
    }
    assert StepOk(longer, |run.steps|, 1);
  }

  lemma PrefixStepOk(run: Run, step: Step, t: State, i: nat)
    requires |run.states| == |run.steps| + 1 && i < |run.steps| && StepOk(run, i, 1)
    ensures StepOk(Run(run.states + [t], run.steps + [step]), i, 1)
  {
    var longer := Run(run.states + [t], run.steps + [step]);
    assert longer.steps[i] == run.steps[i] && longer.states[..|run.states|] == run.states;
    assert Seen(longer, i) == Seen(run, i);
  }

  /** A producer inserts one row and commits at `commit`. */
  lemma ThenInsert(run: Run, s: State, id: Id, data: Envelope, commit: Time) returns (longer: Run, t: State)
    requires ValidRun(run, 1) && s == run.states[|run.steps|]
    requires id !in s.rows && data.seqNo !in s.seqs && data.createdAt <= commit && s.clock <= commit
    ensures t == State(s.rows[id := NewRow(data)], commit, s.issued, s.seqs + {data.seqNo})
    ensures ValidRun(longer, 1)
    ensures longer == Run(run.states + [t], run.steps + [Enqueue([Insert(id, data)], data.createdAt)])
  {
    var items := [Insert(id, data)];
    assert items[..0] == [];
    assert InsertAll(s.rows, items[..0]) == s.rows;
    assert items[0].data.seqNo in Seqs(items);
    t := State(s.rows[id := NewRow(data)], commit, s.issued, s.seqs + {data.seqNo});
    longer := Extended(run, Enqueue(items, data.createdAt), t);
  }

  /** An ordered relay claims one row that is due or whose lease is over, on a current snapshot. */
  lemma ThenClaim(run: Run, s: State, id: Id, token: Token) returns (longer: Run, t: State)
    requires ValidRun(run, 1) && s == run.states[|run.steps|]
    requires id in s.rows && Claimable(s.rows[id], s.clock)
    requires Unblocked(s.rows, s.rows[id]) && token !in s.issued
    ensures t == State(s.rows[id := ClaimRow(s.rows[id], "w", token, s.clock + 30)], s.clock,
                       s.issued + {token}, s.seqs)
    ensures ValidRun(longer, 1)
    ensures longer == Run(run.states + [t],
                          run.steps + [Claim(|run.steps|, "w", 30, 10, true, s.clock, map[id := Grant(token, s.clock)])])
  {
    var grants := map[id := Grant(token, s.clock)];
    assert Tokens(grants) == {token};
    t := State(s.rows[id := ClaimRow(s.rows[id], "w", token, s.clock + 30)], s.clock, s.issued + {token}, s.seqs);
    assert ClaimRows(s.rows, "w", 30, grants) == t.rows;
    longer := Extended(run, Claim(|run.steps|, "w", 30, 10, true, s.clock, grants), t);
  }

  /** The relay that claimed it last publishes the row. */
  lemma ThenPublish(run: Run, s: State, id: Id, token: Token) returns (longer: Run, t: State)
    requires ValidRun(run, 1) && s == run.states[|run.steps|] && TokensUnique(s)
    requires id in s.rows && Live(s.rows[id], id, {Key(id, token)}, s.clock)
    ensures t == s.(rows := s.rows[id := FinishRow(s.rows[id], Completion(Published, "", 0), false, s.clock)])
    ensures ValidRun(longer, 1)
    ensures longer.states == run.states + [t] && |longer.steps| == |run.steps| + 1
    ensures run.steps <= longer.steps && longer.steps[|run.steps|].Finish?
  {
    var clock: Clock := (other: Id) => Reading(s.clock, s.clock);
    var c := Completion(Published, "", 0);
    t := s.(rows := s.rows[id := FinishRow(s.rows[id], c, false, s.clock)]);
    forall other | other in s.rows && Live(s.rows[other], other, {Key(id, token)}, s.clock) ensures other == id {
    }
    assert FinishRows(s.rows, {Key(id, token)}, c, false, clock) == t.rows;
    longer := Extended(run, Finish({Key(id, token)}, c, false, s.clock, clock), t);
  }

  /** Time passes. */
  lemma ThenWait(run: Run, s: State, until: Time) returns (longer: Run, t: State)
    requires ValidRun(run, 1) && s == run.states[|run.steps|] && s.clock <= until
    ensures t == s.(clock := until)
    ensures ValidRun(longer, 1) && longer == Run(run.states + [t], run.steps + [Tick])
  {
    t := s.(clock := until);
    longer := Extended(run, Tick, t);
  }

  /** A cleaner that keeps published rows for one tick of the clock removes one. */
  lemma ThenClean(run: Run, s: State, id: Id) returns (longer: Run, t: State)
    requires ValidRun(run, 1) && s == run.states[|run.steps|]
    requires id in s.rows && s.rows[id].status == Published
    requires s.rows[id].publishedAt.Some? && s.rows[id].publishedAt.value < s.clock - 1
    ensures t == s.(rows := s.rows - {id})
    ensures ValidRun(longer, 1)
    ensures longer == Run(run.states + [t], run.steps + [Cleanup(Retention(1, 0, 0), 1, s.clock, {id})])
  {
    t := s.(rows := s.rows - {id});
    longer := Extended(run, Cleanup(Retention(1, 0, 0), 1, s.clock, {id}), t);
  }

  function TokenOf(n: nat): (t: Token)
    ensures |t| == n
  {
    seq(n, _ => 'x')
  }
}
