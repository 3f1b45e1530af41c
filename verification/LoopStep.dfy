/** One iteration of the RLoop as seen from the loop thread (src/event_loop.rs, `step`, `call_soon`, `_call_later`). */
module LoopStep {
  import opened Prelude
  import opened Timers

  /** What a callback does to the scheduler. */
  datatype Action = Soon(id: nat) | After(id: nat, delay: nat) | Cancel(id: nat)

  /** A handle was run, or skipped because it had been cancelled. */
  datatype Outcome = Ran(id: nat) | Skipped(id: nat)

  /** The scheduler's state at a given time, and the callbacks it has been through. */
  datatype Sched = Sched(ready: seq<nat>, counter: nat, heap: multiset<Timer>, cancelled: set<nat>, log: seq<Outcome>)

  /** What each handle's callback does; all callbacks of a step read one clock. */
  type Script = map<nat, seq<Action>>

  function ActionsOf(script: Script, id: nat): seq<Action> {
    if id in script then script[id] else []
  }

  function Act(s: Sched, a: Action, now: nat): Sched {
    match a
    case Soon(id) => s.(ready := s.ready + [id], counter := (s.counter + 1) % WORD)
    case After(id, delay) => s.(heap := s.heap + multiset{Timer(id, now + delay)})
    case Cancel(id) => s.(cancelled := s.cancelled + {id})
  }

  function ActAll(s: Sched, actions: seq<Action>, now: nat): Sched {
    if actions == [] then s else Act(ActAll(s, actions[..|actions|-1], now), actions[|actions|-1], now)
  }

  function RunOne(s: Sched, id: nat, script: Script, now: nat): Sched {
    if id in s.cancelled then s.(log := s.log + [Skipped(id)])
    else ActAll(s.(log := s.log + [Ran(id)]), ActionsOf(script, id), now)
  }

  function RunBatch(s: Sched, batch: seq<nat>, script: Script, now: nat): Sched {
    if batch == [] then s else RunOne(RunBatch(s, batch[..|batch|-1], script, now), batch[|batch|-1], script, now)
  }

  function Ids(ts: seq<Timer>): (ids: seq<nat>)
    ensures |ids| == |ts| && forall i :: 0 <= i < |ts| ==> ids[i] == ts[i].id
  {
    seq(|ts|, i requires 0 <= i < |ts| => ts[i].id)
  }

  function IdsOf(log: seq<Outcome>): (ids: seq<nat>)
    ensures |ids| == |log| && forall i :: 0 <= i < |log| ==> ids[i] == log[i].id
  {
    seq(|log|, i requires 0 <= i < |log| => log[i].id)
  }

  /** The handles that the callbacks of a batch queue, in order. */
  function Queued(actions: seq<Action>): seq<nat> {
    if actions == [] then []
    else Queued(actions[..|actions|-1]) + (if actions[|actions|-1].Soon? then [actions[|actions|-1].id] else [])
  }

  lemma {:induction false} ActAllEffect(s: Sched, actions: seq<Action>, now: nat)
    ensures var t := ActAll(s, actions, now);
            && t.log == s.log && s.cancelled <= t.cancelled
            && t.ready == s.ready + Queued(actions)
            && t.counter % WORD == (s.counter + |Queued(actions)|) % WORD
  {
    if actions != [] {
      ActAllEffect(s, actions[..|actions|-1], now);
    }
  }

  /** Nothing a callback queues joins the batch: it lands behind what was queued, and the counter counts it. */
  lemma {:induction false} BatchQueuesBehind(s: Sched, batch: seq<nat>, script: Script, now: nat)
    ensures var t := RunBatch(s, batch, script, now);
            && s.ready <= t.ready && s.cancelled <= t.cancelled
            && (t.counter - |t.ready|) % WORD == (s.counter - |s.ready|) % WORD
  {
    if batch != [] {
      var init, id := batch[..|batch|-1], batch[|batch|-1];
      BatchQueuesBehind(s, init, script, now);
      var m := RunBatch(s, init, script, now);
      RunOneQueuesBehind(m, id, script, now);
    }
  }

  lemma {:induction false} RunOneQueuesBehind(s: Sched, id: nat, script: Script, now: nat)
    ensures var t := RunOne(s, id, script, now);
            && s.ready <= t.ready && s.cancelled <= t.cancelled
            && (t.counter - |t.ready|) % WORD == (s.counter - |s.ready|) % WORD
  {
    if id !in s.cancelled {
      var actions := ActionsOf(script, id);
      ActAllEffect(s.(log := s.log + [Ran(id)]), actions, now);
      CountMoves(RunOne(s, id, script, now).counter, s.counter, |Queued(actions)|, |s.ready|);
    }
  }

  lemma CountMoves(a: nat, b: nat, n: nat, q: nat)
    requires a % WORD == (b + n) % WORD
    ensures (a - (q + n)) % WORD == (b - q) % WORD
  {
    var x, y := a / WORD, (b + n) / WORD;
    assert a - b - n == WORD * (x - y);
    assert a - (q + n) == (b - q) + WORD * (x - y);
  }

  lemma {:induction false} RunOneLogs(s: Sched, id: nat, script: Script, now: nat)
    ensures RunOne(s, id, script, now).log == s.log + [if id in s.cancelled then Skipped(id) else Ran(id)]
  {
    ActAllEffect(s.(log := s.log + [Ran(id)]), ActionsOf(script, id), now);
  }

  /** A batch is gone through once, in order. */
  lemma {:induction false} BatchRunsOnce(s: Sched, batch: seq<nat>, script: Script, now: nat)
    ensures var t := RunBatch(s, batch, script, now);
            s.log <= t.log && |t.log| == |s.log| + |batch| && IdsOf(t.log) == IdsOf(s.log) + batch
  {
    var t := RunBatch(s, batch, script, now);
    if batch != [] {
      var init, id := batch[..|batch|-1], batch[|batch|-1];
      BatchRunsOnce(s, init, script, now);
      RunOneLogs(RunBatch(s, init, script, now), id, script, now);
      assert IdsOf(t.log) == IdsOf(RunBatch(s, init, script, now).log) + [id];
    }
    assert IdsOf(t.log) == IdsOf(s.log) + batch;
  }

  /** Each handle of the batch is run, or skipped exactly if it had been cancelled by the time its turn came. */
  lemma {:induction false} SkippedIffCancelled(s: Sched, batch: seq<nat>, i: nat, script: Script, now: nat)
    requires i < |batch| && |RunBatch(s, batch, script, now).log| == |s.log| + |batch|
    ensures RunBatch(s, batch, script, now).log[|s.log| + i] ==
            if batch[i] in RunBatch(s, batch[..i], script, now).cancelled then Skipped(batch[i]) else Ran(batch[i])
  {
    var init, id := batch[..|batch|-1], batch[|batch|-1];
    BatchRunsOnce(s, init, script, now);
    RunOneLogs(RunBatch(s, init, script, now), id, script, now);
    assert batch[..i] == init[..i];
    if i < |init| {
      SkippedIffCancelled(s, init, i, script, now);
    } else {
      assert init[..i] == init;
    }
  }

  lemma BatchNext(s: Sched, batch: seq<nat>, k: nat, script: Script, now: nat)
    requires k < |batch|
    ensures RunBatch(s, batch[..k+1], script, now) == RunOne(RunBatch(s, batch[..k], script, now), batch[k], script, now)
  {
    assert batch[..k+1][..k] == batch[..k];
  }

  // ----- what the callbacks of a batch do -----

  /** The timers that a callback adds, each due its delay from now. */
  function Timed(actions: seq<Action>, now: nat): multiset<Timer> {
    if actions == [] then multiset{}
    else
      var last := actions[|actions|-1];
      Timed(actions[..|actions|-1], now) + (if last.After? then multiset{Timer(last.id, now + last.delay)} else multiset{})
  }

  function CancelledIn(actions: seq<Action>): set<nat> {
    if actions == [] then {}
    else CancelledIn(actions[..|actions|-1]) + (if actions[|actions|-1].Cancel? then {actions[|actions|-1].id} else {})
  }

  /** The actions of the handles that ran, in the order in which they ran. */
  function Done(log: seq<Outcome>, script: Script): seq<Action> {
    if log == [] then []
    else
      var last := log[|log|-1];
      Done(log[..|log|-1], script) + (if last.Ran? then ActionsOf(script, last.id) else [])
  }

  lemma SnocOf(a: seq<Action>, b: seq<Action>)
    requires b != []
    ensures (a + b)[..|a + b|-1] == a + b[..|b|-1] && (a + b)[|a + b|-1] == b[|b|-1]
  {
  }

  lemma {:induction false} QueuedConcat(a: seq<Action>, b: seq<Action>)
    ensures Queued(a + b) == Queued(a) + Queued(b)
  {
    if b == [] {
      assert a + b == a;
    } else {
      SnocOf(a, b);
      QueuedConcat(a, b[..|b|-1]);
    }
  }

  lemma {:induction false} TimedConcat(a: seq<Action>, b: seq<Action>, now: nat)
    ensures Timed(a + b, now) == Timed(a, now) + Timed(b, now)
  {
    if b == [] {
      assert a + b == a;
    } else {
      SnocOf(a, b);
      TimedConcat(a, b[..|b|-1], now);
    }
  }

  lemma {:induction false} CancelledConcat(a: seq<Action>, b: seq<Action>)
    ensures CancelledIn(a + b) == CancelledIn(a) + CancelledIn(b)
  {
    if b == [] {
      assert a + b == a;
    } else {
      SnocOf(a, b);
      CancelledConcat(a, b[..|b|-1]);
    }
  }

  /** `t` is `s` after a callback's actions. */
  predicate Follows(s: Sched, actions: seq<Action>, now: nat, t: Sched) {
    && t.ready == s.ready + Queued(actions)
    && t.heap == s.heap + Timed(actions, now)
    && t.cancelled == s.cancelled + CancelledIn(actions)
  }

  lemma {:induction false} ActAllFollows(s: Sched, actions: seq<Action>, now: nat)
    ensures Follows(s, actions, now, ActAll(s, actions, now))
  {
    if actions != [] {
      ActAllFollows(s, actions[..|actions|-1], now);
    }
  }

  lemma Regroup(a: seq<nat>, b: seq<nat>, c: seq<nat>)
    ensures a + b + c == a + (b + c)
  {
  }

  lemma RegroupTimers(a: multiset<Timer>, b: multiset<Timer>, c: multiset<Timer>)
    ensures a + b + c == a + (b + c)
  {
  }

  lemma RegroupIds(a: set<nat>, b: set<nat>, c: set<nat>)
    ensures a + b + c == a + (b + c)
  {
  }

  lemma {:induction false} FollowsOn(s: Sched, a: seq<Action>, m: Sched, b: seq<Action>, t: Sched, now: nat)
    requires Follows(s, a, now, m) && Follows(m, b, now, t)
    ensures Follows(s, a + b, now, t)
  {
    QueuedConcat(a, b);
    TimedConcat(a, b, now);
    CancelledConcat(a, b);
    Regroup(s.ready, Queued(a), Queued(b));
    RegroupTimers(s.heap, Timed(a, now), Timed(b, now));
    RegroupIds(s.cancelled, CancelledIn(a), CancelledIn(b));
  }

  /** What a batch leaves: the ready queue is the old one followed by what the callbacks that ran queued, in order; the
      heap has one more timer for each that they added, due its delay from then; and what they cancelled is cancelled. */
  lemma {:induction false} BatchTakesEffect(s: Sched, batch: seq<nat>, script: Script, now: nat)
    ensures var t := RunBatch(s, batch, script, now);
            s.log <= t.log && Follows(s, Done(t.log[|s.log|..], script), now, t)
  {
    BatchRunsOnce(s, batch, script, now);
    var t := RunBatch(s, batch, script, now);
    if batch == [] {
      assert t.log[|s.log|..] == [];
    } else {
      var init, id := batch[..|batch|-1], batch[|batch|-1];
      var m := RunBatch(s, init, script, now);
      BatchRunsOnce(s, init, script, now);
      BatchTakesEffect(s, init, script, now);
      RunOneFollows(m, id, script, now);
      var outcome := if id in m.cancelled then Skipped(id) else Ran(id);
      assert t.log[|s.log|..] == m.log[|s.log|..] + [outcome];
      DoneOneMore(m.log[|s.log|..], outcome, script);
      FollowsOn(s, Done(m.log[|s.log|..], script), m, if outcome.Ran? then ActionsOf(script, id) else [], t, now);
    }
  }

  lemma {:induction false} DoneOneMore(log: seq<Outcome>, last: Outcome, script: Script)
    ensures Done(log + [last], script) == Done(log, script) + (if last.Ran? then ActionsOf(script, last.id) else [])
  {
    assert (log + [last])[..|log|] == log;
  }

  lemma {:induction false} RunOneFollows(s: Sched, id: nat, script: Script, now: nat)
    ensures Follows(s, if id in s.cancelled then [] else ActionsOf(script, id), now, RunOne(s, id, script, now))
    ensures RunOne(s, id, script, now).log == s.log + [if id in s.cancelled then Skipped(id) else Ran(id)]
  {
    RunOneLogs(s, id, script, now);
    ActAllFollows(s.(log := s.log + [Ran(id)]), ActionsOf(script, id), now);
  }

  class EventLoop {
    var handlesReady: seq<nat>
    var counterReady: nat
    var handlesSched: multiset<Timer>
    var cancelled: set<nat>
    ghost var log: seq<Outcome>

    constructor ()
      ensures View() == Sched([], 0, multiset{}, {}, [])
    {
      handlesReady, counterReady, handlesSched, cancelled, log := [], 0, multiset{}, {}, [];
    }

    ghost function View(): Sched
      reads this
    {
      Sched(handlesReady, counterReady, handlesSched, cancelled, log)
    }

    method CallSoon(id: nat)
      modifies this`handlesReady, this`counterReady
      ensures View() == Act(old(View()), Soon(id), 0)
    {
      handlesReady := handlesReady + [id];
      counterReady := (counterReady + 1) % WORD;
    }

    method CallLater(id: nat, delay: nat, now: nat)
      modifies this`handlesSched
      ensures View() == Act(old(View()), After(id, delay), now)
    {
      handlesSched := handlesSched + multiset{Timer(id, now + delay)};
    }

    /** The callback of one handle. */
    method Perform(actions: seq<Action>, now: nat)
      modifies this
      ensures View() == ActAll(old(View()), actions, now)
    {
      var k := 0;
      while k < |actions|
        invariant k <= |actions| && View() == ActAll(old(View()), actions[..k], now)
      {
        assert actions[..k+1][..k] == actions[..k];
        match actions[k] {
          case Soon(id) => CallSoon(id);
          case After(id, delay) => CallLater(id, delay, now);
          case Cancel(id) => cancelled := cancelled + {id};
        }
        k := k + 1;
      }
      assert actions[..k] == actions;
    }

    /** One turn of the callback loop. */
    method RunHandle(handle: nat, script: Script, now: nat)
      modifies this
      ensures View() == RunOne(old(View()), handle, script, now)
    {
      if handle in cancelled {
        log := log + [Skipped(handle)];
      } else {
        log := log + [Ran(handle)];
        Perform(ActionsOf(script, handle), now);
      }
    }

    /** The callback loop: pop a handle until the batch is empty. */
    method RunCallbacks(batch: seq<nat>, script: Script, now: nat)
      modifies this
      ensures View() == RunBatch(old(View()), batch, script, now)
      ensures IdsOf(log) == IdsOf(old(log)) + batch && old(log) <= log
      ensures Follows(old(View()), Done(log[|old(log)|..], script), now, View())
    {
      BatchRunsOnce(View(), batch, script, now);
      BatchTakesEffect(View(), batch, script, now);
      var cbHandles := batch;
      ghost var k := 0;
      while cbHandles != []
        invariant k <= |batch| && cbHandles == batch[k..]
        invariant View() == RunBatch(old(View()), batch[..k], script, now)
        decreases |cbHandles|
      {
        BatchNext(old(View()), batch, k, script, now);
        var handle := cbHandles[0];
        cbHandles := cbHandles[1..];
        RunHandle(handle, script, now);
        k := k + 1;
      }
      assert batch[..k] == batch;
    }

    /** `step` after poll: `io` are the handles of the polled events, `tick` the clock of the timer phase, `now` that
        of the callbacks. The batch is the old queue, then I/O, then exactly the due timers by deadline. */
    method Step(io: seq<nat>, tick: nat, script: Script, now: nat) returns (ghost fired: seq<Timer>, ghost rest: multiset<Timer>)
      modifies this
      ensures FiresExactly(old(handlesSched), tick, fired, rest)
      ensures View() == RunBatch(
                Sched([], (old(counterReady) - |old(handlesReady)|) % WORD, rest, old(cancelled), old(log)),
                old(handlesReady) + io + Ids(fired), script, now)
      ensures old(log) <= log && IdsOf(log) == IdsOf(old(log)) + (old(handlesReady) + io + Ids(fired))
      ensures var done := Done(log[|old(log)|..], script);
              && handlesReady == Queued(done) && handlesSched == rest + Timed(done, now)
              && cancelled == old(cancelled) + CancelledIn(done)
    {
      var cbHandles := handlesReady;
      handlesReady := [];
      counterReady := (counterReady - |cbHandles|) % WORD;
      cbHandles := cbHandles + io;
      var due, left := PopDue(handlesSched, tick);
      fired, rest := due, left;
      handlesSched := left;
      cbHandles := cbHandles + Ids(due);
      RunCallbacks(cbHandles, script, now);
    }
  }
}
