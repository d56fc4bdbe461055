/**
 Wake-ups (engine/relay.go, worker and listenOnce): notifications pass through a
 channel with one slot, a full slot swallows them, and any number of workers
 receive from it. A drain already under way may have read the table before the
 notified row was there, so only a drain that starts later answers a notification.
 */
module Wake {

  /** Where a worker is in its loop: at the select, out of it, in drain, or gone. */
  datatype Worker = Waiting | Woken | Draining | Stopped

  datatype State = State(pending: bool, workers: seq<Worker>)

  datatype Event =
    | Notify                       // the listener's non-blocking send
    | Take(who: nat)               // a worker receives the token
    | Tick(who: nat)               // a worker's poll ticker fires
    | Start(who: nat)              // it calls drain
    | End(who: nat, fatal: bool)   // drain returns
    | Cancel(who: nat)             // the context is done

  datatype Run = Run(states: seq<State>, events: seq<Event>)

  predicate At(s: State, who: nat, worker: Worker) {
    who < |s.workers| && s.workers[who] == worker
  }

  predicate Moves(s: State, t: State, who: nat, from: Worker, to: Worker, pending: bool) {
    At(s, who, from) && t == State(pending, s.workers[who := to])
  }

  predicate Next(s: State, e: Event, t: State) {
    match e
    case Notify => t == s.(pending := true)
    case Take(who) => s.pending && Moves(s, t, who, Waiting, Woken, false)
    case Tick(who) => Moves(s, t, who, Waiting, Woken, s.pending)
    case Start(who) => Moves(s, t, who, Woken, Draining, s.pending)
    case End(who, fatal) => Moves(s, t, who, Draining, if fatal then Stopped else Waiting, s.pending)
    case Cancel(who) => Moves(s, t, who, Waiting, Stopped, s.pending)
  }

  ghost predicate Valid(run: Run) {
    && |run.states| == |run.events| + 1
    && forall i :: 0 <= i < |run.events| ==> Next(run.states[i], run.events[i], run.states[i + 1])
  }

  predicate StartsAt(run: Run, k: nat, who: nat) {
    k < |run.events| && run.events[k] == Start(who)
  }

  predicate EndsAt(run: Run, k: nat, who: nat) {
    k < |run.events| && run.events[k].End? && run.events[k].who == who
  }

  ghost predicate StartedBetween(run: Run, i: nat, j: nat) {
    exists k: nat, who: nat :: i < k < j && StartsAt(run, k, who)
  }

  ghost predicate SomeoneWoken(s: State) {
    exists who: nat :: At(s, who, Woken)
  }

  /**
   No wake-up is lost: at any point after a notification its token is still in the
   slot, or a worker is on its way into a drain, or a drain has started since.
   */
  lemma {:induction false} NoLostWakeUp(run: Run, i: nat, j: nat)
    requires Valid(run) && i < j < |run.states| && run.events[i].Notify?
    ensures run.states[j].pending || SomeoneWoken(run.states[j]) || StartedBetween(run, i, j)
    decreases j
  {
    if j > i + 1 {
      NoLostWakeUp(run, i, j - 1);
      var s, e, t := run.states[j - 1], run.events[j - 1], run.states[j];
      assert Next(s, e, t);
      if StartedBetween(run, i, j - 1) {
        var k: nat, who: nat :| i < k < j - 1 && StartsAt(run, k, who);
        assert StartedBetween(run, i, j);
      } else if e.Start? {
        assert StartsAt(run, j - 1, e.who);
      } else if e.Take? {
        assert At(t, e.who, Woken);
      } else if SomeoneWoken(s) {
        var who: nat :| At(s, who, Woken);
        assert At(t, who, Woken);
      }
    }
  }

  /** A worker that started to drain and is no longer draining has ended that drain. */
  lemma {:induction false} StartedMeansEnded(run: Run, k: nat, j: nat, who: nat) returns (l: nat)
    requires Valid(run) && StartsAt(run, k, who) && k < j < |run.states|
    requires !At(run.states[j], who, Draining)
    ensures k < l < j && EndsAt(run, l, who)
    decreases j
  {
    var s, e, t := run.states[j - 1], run.events[j - 1], run.states[j];
    assert Next(s, e, t);
    if j == k + 1 {
      assert false;
    } else if At(s, who, Draining) {
      l := j - 1;
    } else {
      l := StartedMeansEnded(run, k, j - 1, who);
    }
  }

  /**
   Hence once the relay is at rest again - slot empty, every worker back at its
   select - a whole drain has run since the notification: started after it and
   ended, by one and the same worker.
   */
  lemma RestMeansDrained(run: Run, i: nat, j: nat) returns (k: nat, l: nat, who: nat)
    requires Valid(run) && i < j < |run.states| && run.events[i].Notify?
    requires !run.states[j].pending && forall w: nat :: w < |run.states[j].workers| ==> At(run.states[j], w, Waiting)
    ensures i < k < l < j && StartsAt(run, k, who) && EndsAt(run, l, who)
  {
    NoLostWakeUp(run, i, j);
    forall w: nat ensures !At(run.states[j], w, Woken) && !At(run.states[j], w, Draining) {
      if w < |run.states[j].workers| { assert At(run.states[j], w, Waiting); }
    }
    k, who :| i < k < j && StartsAt(run, k, who);
    l := StartedMeansEnded(run, k, j, who);
  }

  // ---- the relay gets there -----------------------------------------------------

  function Last(run: Run): State
    requires |run.states| > 0
  {
    run.states[|run.states| - 1]
  }

  lemma Then(run: Run, e: Event, t: State) returns (longer: Run)
    requires Valid(run) && Next(Last(run), e, t)
    ensures Valid(longer) && longer == Run(run.states + [t], run.events + [e]) && Last(longer) == t
  {
    longer := Run(run.states + [t], run.events + [e]);
    forall i | 0 <= i < |longer.events| ensures Next(longer.states[i], longer.events[i], longer.states[i + 1]) {
      if i < |run.events| { assert Next(run.states[i], run.events[i], run.states[i + 1]); }
    }
  }

  lemma ThenStart(run: Run, who: nat) returns (longer: Run)
    requires Valid(run) && At(Last(run), who, Woken)
    ensures Valid(longer) && run.events <= longer.events && |longer.events| == |run.events| + 1
    ensures StartsAt(longer, |run.events|, who)
  {
    longer := Then(run, Start(who), State(Last(run).pending, Last(run).workers[who := Draining]));
  }

  lemma ThenTake(run: Run, who: nat) returns (longer: Run)
    requires Valid(run) && Last(run).pending && At(Last(run), who, Waiting)
    ensures Valid(longer) && run.events <= longer.events && |longer.events| == |run.events| + 2
    ensures StartsAt(longer, |run.events| + 1, who)
  {
    var woken := Then(run, Take(who), State(false, Last(run).workers[who := Woken]));
    longer := ThenStart(woken, who);
  }

  /**
   From every reachable state in which a notification has not been answered, as long
   as one worker has not stopped, at most three events lead to a drain: the worker
   ends the drain it is in, takes the token, and starts.
   */
  lemma DrainWithinThree(run: Run, i: nat, who: nat) returns (longer: Run, starter: nat)
    requires Valid(run) && i < |run.events| && run.events[i].Notify?
    requires !StartedBetween(run, i, |run.events|)
    requires who < |Last(run).workers| && Last(run).workers[who] != Stopped
    ensures Valid(longer) && run.events <= longer.events
    ensures |run.events| < |longer.events| <= |run.events| + 3
    ensures StartsAt(longer, |longer.events| - 1, starter)
  {
    NoLostWakeUp(run, i, |run.events|);
    var s := Last(run);
    if SomeoneWoken(s) {
      starter :| At(s, starter, Woken);
      longer := ThenStart(run, starter);
    } else {
      starter := who;
      assert !At(s, who, Woken);
      if s.workers[who] == Waiting {
        longer := ThenTake(run, who);
      } else {
        var ended := Then(run, End(who, false), State(s.pending, s.workers[who := Waiting]));
        longer := ThenTake(ended, who);
      }
    }
  }
}
