/**
 The lease while Publish runs: a relay that renews on time is never overtaken.
 Times are those of the database clock; the heartbeat ticks every third of the
 lease (engine/relay.go, publish and heartbeat).
 */
module Heartbeat {
  import opened Messages
  import opened Statements
  import opened Protocol
  import opened Conservation
  import opened Fencing

  /** A claim that a heartbeat, started at `start`, keeps alive. */
  datatype Held = Held(id: Id, token: Token, claimStep: nat, claimedAt: Time, lease: Duration, start: Time)

  function Interval(lease: Duration): Duration
    requires lease >= 3
  {
    lease / 3
  }

  /** The heartbeat's n-th tick; `Tick(h, 0)` is its start. */
  function Tick(h: Held, n: nat): Time
    requires h.lease >= 3
  {
    if n == 0 then h.start else Tick(h, n - 1) + Interval(h.lease)
  }

  /** The ticks come every third of the lease, rounded down (engine/relay.go:169). */
  lemma {:induction false} TicksInColumns(h: Held, n: nat)
    requires h.lease >= 3
    ensures Tick(h, n) == h.start + n * (h.lease / 3)
  {
    if n > 0 { TicksInColumns(h, n - 1); }
  }

  /** Time between the claim's clock reading and the start of its heartbeat. */
  function Latency(h: Held): Duration {
    h.start - h.claimedAt
  }

  predicate HeldOk(run: Run, h: Held) {
    && h.lease >= 3
    && GrantedAt(run, h.claimStep, h.id, h.token)
    && run.steps[h.claimStep].lease == h.lease
    && run.steps[h.claimStep].grants[h.id].stamped == h.claimedAt
    && 0 <= Latency(h) < h.lease - 2 * Interval(h.lease)
  }

  predicate Names(step: Step, h: Held) {
    Key(h.id, h.token) in KeysOf(step)
  }

  /** Renewals of this claim among the steps after the claim and before step `j`. */
  function Beats(run: Run, h: Held, j: nat): nat
    requires j <= |run.steps|
  {
    if j <= h.claimStep + 1 then 0
    else Beats(run, h, j - 1) + if Names(run.steps[j - 1], h) then 1 else 0
  }

  /**
   Renewal number n + 1 ticks at `Tick(h, n + 1)` and executes within one interval
   of its tick. So, up to state `end`, the clock does not pass the tick after next
   of the renewals made so far, and only the heartbeat names the claim.
   */
  predicate OnSchedule(run: Run, h: Held, end: nat)
    requires h.lease >= 3
  {
    && end < |run.states| && end <= |run.steps|
    && (forall j :: h.claimStep < j <= end ==> run.states[j].clock <= Tick(h, Beats(run, h, j) + 2))
    && (forall j :: h.claimStep < j < end && Names(run.steps[j], h) ==> BeatOnTime(run, h, j))
  }

  predicate BeatOnTime(run: Run, h: Held, j: nat)
    requires h.lease >= 3 && j < |run.steps|
  {
    && run.steps[j].Renew? && run.steps[j].lease == h.lease
    && Tick(h, Beats(run, h, j) + 1) <= run.steps[j].clock(h.id).stamped <= Tick(h, Beats(run, h, j) + 2)
  }

  /** Bounds on the claimed row's deadline once `beats` renewals are done. */
  function Floor(h: Held, beats: nat): Time
    requires h.lease >= 3
  {
    (if beats == 0 then h.claimedAt else Tick(h, beats)) + h.lease
  }

  function Ceiling(h: Held, beats: nat): Time
    requires h.lease >= 3
  {
    (if beats == 0 then h.claimedAt else Tick(h, beats + 1)) + h.lease
  }

  /** The row still carries this claim, with a deadline within these bounds. */
  predicate Carries(rows: Rows, h: Held, floor: Time, ceiling: Time) {
    && Holds(rows, h.id, h.token)
    && rows[h.id].status == Processing
    && rows[h.id].lockedUntil.Some? && floor <= rows[h.id].lockedUntil.value <= ceiling
  }

  /** A statement that does not name a claim, and is over by its deadline, leaves its row alone. */
  lemma LiveRowUntouched(run: Run, relayMax: int, j: nat, h: Held, floor: Time, ceiling: Time)
    requires ValidRun(run, relayMax) && j < |run.steps|
    requires Carries(run.states[j].rows, h, floor, ceiling) && run.states[j + 1].clock <= floor
    requires !Names(run.steps[j], h)
    ensures h.id in run.states[j + 1].rows && run.states[j + 1].rows[h.id] == run.states[j].rows[h.id]
    ensures run.steps[j].Claim? ==> h.id !in run.steps[j].grants
  {
    assert StepOk(run, j, relayMax);
    if run.steps[j].Claim? && h.id in run.steps[j].grants {
      assert false;
    }
    UnfinishedIsKept(run, relayMax, j, h.id);
    EffectOnRow(run.states[j].rows, run.steps[j], h.id);
  }

  /** A renewal that executes before the deadline matches its row and moves the deadline. */
  lemma BeatExtends(run: Run, relayMax: int, j: nat, h: Held, floor: Time, ceiling: Time)
    requires ValidRun(run, relayMax) && j < |run.steps| && Carries(run.states[j].rows, h, floor, ceiling)
    requires Names(run.steps[j], h) && run.steps[j].Renew?
    requires run.steps[j].clock(h.id).stamped < floor
    ensures Reaches(run, j, h.id, h.token)
    ensures var deadline := run.steps[j].clock(h.id).stamped + run.steps[j].lease;
            Carries(run.states[j + 1].rows, h, deadline, deadline)
  {
    assert StepOk(run, j, relayMax);
    var s, step := run.states[j], run.steps[j];
    assert step.clock(h.id).seen <= step.clock(h.id).stamped;
    assert h.id in Effect(s.rows, step);
    EffectOnRow(s.rows, step, h.id);
  }

  lemma GrantCarries(run: Run, relayMax: int, h: Held)
    requires ValidRun(run, relayMax) && HeldOk(run, h)
    ensures Carries(run.states[h.claimStep + 1].rows, h, Floor(h, 0), Ceiling(h, 0))
  {
    GrantHolds(run, relayMax, h.claimStep, h.id, h.token);
    assert StepOk(run, h.claimStep, relayMax);
    EffectOnRow(run.states[h.claimStep].rows, run.steps[h.claimStep], h.id);
  }

  lemma TwoTicks(h: Held, n: nat)
    requires h.lease >= 3
    ensures Tick(h, n + 2) == Tick(h, n) + 2 * Interval(h.lease)
  {
  }

  /** On schedule, the clock never reaches the deadline: a lease is three intervals long. */
  lemma ScheduleMeetsDeadline(run: Run, h: Held, j: nat)
    requires HeldOk(run, h) && h.claimStep < j && OnSchedule(run, h, j)
    ensures run.states[j].clock < Floor(h, Beats(run, h, j))
    ensures Tick(h, Beats(run, h, j) + 2) < Floor(h, Beats(run, h, j))
    ensures Ceiling(h, Beats(run, h, j)) <= Tick(h, Beats(run, h, j) + 1) + h.lease
  {
    TwoTicks(h, Beats(run, h, j));
  }

  /**
   A healthy heartbeat excludes rivals. For any number of ticks and any other
   workers: at every state while Publish runs, the row carries the claim, with a
   deadline the clock has not reached.
   */
  lemma {:induction false} HealthyLeaseHolds(run: Run, relayMax: int, h: Held, j: nat)
    requires ValidRun(run, relayMax) && HeldOk(run, h)
    requires h.claimStep < j && OnSchedule(run, h, j)
    ensures Carries(run.states[j].rows, h, Floor(h, Beats(run, h, j)), Ceiling(h, Beats(run, h, j)))
    ensures run.states[j].clock < Floor(h, Beats(run, h, j))
    decreases j
  {
    ScheduleMeetsDeadline(run, h, j);
    if j == h.claimStep + 1 {
      GrantCarries(run, relayMax, h);
    } else {
      HealthyLeaseHolds(run, relayMax, h, j - 1);
      NextKeepsLease(run, relayMax, h, j - 1);
    }
  }

  lemma NextKeepsLease(run: Run, relayMax: int, h: Held, j: nat)
    requires ValidRun(run, relayMax) && HeldOk(run, h)
    requires h.claimStep < j && OnSchedule(run, h, j + 1)
    requires Carries(run.states[j].rows, h, Floor(h, Beats(run, h, j)), Ceiling(h, Beats(run, h, j)))
    ensures Carries(run.states[j + 1].rows, h, Floor(h, Beats(run, h, j + 1)), Ceiling(h, Beats(run, h, j + 1)))
  {
    var beats := Beats(run, h, j);
    ScheduleMeetsDeadline(run, h, j);
    ScheduleMeetsDeadline(run, h, j + 1);
    if Names(run.steps[j], h) {
      assert BeatOnTime(run, h, j);
      BeatExtends(run, relayMax, j, h, Floor(h, beats), Ceiling(h, beats));
    } else {
      LiveRowUntouched(run, relayMax, j, h, Floor(h, beats), Ceiling(h, beats));
    }
  }

  /**
   Step by step: while Publish runs every renewal matches its row, no claim of
   any worker takes the row, and its deadline never moves back.
   */
  lemma HealthyLeaseExcludes(run: Run, relayMax: int, h: Held, j: nat)
    requires ValidRun(run, relayMax) && HeldOk(run, h)
    requires h.claimStep < j && OnSchedule(run, h, j + 1)
    ensures Names(run.steps[j], h) ==> Reaches(run, j, h.id, h.token)
    ensures run.steps[j].Claim? ==> h.id !in run.steps[j].grants
    ensures h.id in run.states[j].rows && h.id in run.states[j + 1].rows
    ensures var a, b := run.states[j].rows[h.id].lockedUntil, run.states[j + 1].rows[h.id].lockedUntil;
            a.Some? && b.Some? && a.value <= b.value
  {
    var beats := Beats(run, h, j);
    HealthyLeaseHolds(run, relayMax, h, j);
    ScheduleMeetsDeadline(run, h, j);
    if Names(run.steps[j], h) {
      assert BeatOnTime(run, h, j);
      BeatExtends(run, relayMax, j, h, Floor(h, beats), Ceiling(h, beats));
    } else {
      ScheduleMeetsDeadline(run, h, j + 1);
      LiveRowUntouched(run, relayMax, j, h, Floor(h, beats), Ceiling(h, beats));
    }
  }

  lemma {:induction false} LiveRowRests(run: Run, relayMax: int, h: Held, floor: Time, ceiling: Time, q: nat, e: nat)
    requires ValidRun(run, relayMax) && q <= e < |run.states|
    requires Carries(run.states[q].rows, h, floor, ceiling) && run.states[e].clock <= floor
    requires forall j :: q <= j < e ==> !Names(run.steps[j], h)
    ensures Carries(run.states[e].rows, h, floor, ceiling)
    decreases e - q
  {
    if q < e {
      assert StepOk(run, e - 1, relayMax);
      LiveRowRests(run, relayMax, h, floor, ceiling, q, e - 1);
      LiveRowUntouched(run, relayMax, e - 1, h, floor, ceiling);
    }
  }

  lemma FinishReaches(run: Run, relayMax: int, e: nat, h: Held, floor: Time, ceiling: Time)
    requires ValidRun(run, relayMax) && e < |run.steps| && Carries(run.states[e].rows, h, floor, ceiling)
    requires run.steps[e].Finish? && Names(run.steps[e], h) && run.states[e + 1].clock < floor
    ensures Reaches(run, e, h.id, h.token)
  {
    assert StepOk(run, e, relayMax);
    assert run.steps[e].clock(h.id).seen <= run.states[e + 1].clock;
  }

  /**
   An outcome recorded soon enough is not fenced: if Publish returned at state
   `q` and the finish commits less than lease - 2 * interval later (less the
   claim-to-heartbeat latency while no renewal has been made yet), the finish
   reaches the row.
   */
  lemma PromptFinishLands(run: Run, relayMax: int, h: Held, q: nat, e: nat)
    requires ValidRun(run, relayMax) && HeldOk(run, h)
    requires h.claimStep < q <= e < |run.steps| && OnSchedule(run, h, q)
    requires forall j :: q <= j < e ==> !Names(run.steps[j], h)
    requires run.steps[e].Finish? && Names(run.steps[e], h)
    requires run.states[e + 1].clock - run.states[q].clock
             < h.lease - 2 * Interval(h.lease) - (if Beats(run, h, q) == 0 then Latency(h) else 0)
    ensures Reaches(run, e, h.id, h.token)
  {
    HealthyLeaseHolds(run, relayMax, h, q);
    var floor, ceiling := Floor(h, Beats(run, h, q)), Ceiling(h, Beats(run, h, q));
    TwoTicks(h, Beats(run, h, q));
    assert run.states[e].clock <= run.states[e + 1].clock by { assert StepOk(run, e, relayMax); }
    LiveRowRests(run, relayMax, h, floor, ceiling, q, e);
    FinishReaches(run, relayMax, e, h, floor, ceiling);
  }
}
