/** The TokioLoop as a program: `schedule_handle` and `_run` (src/tokio_event_loop.rs). Every execution is a run of the
    scheduler of TokioScheduler, so what is proved of those runs holds of the program. */
module TokioEventLoop {
  import Timers
  import opened TokioScheduler

  /** What reaches the loop from callbacks and other threads. */
  datatype Outside = Submit(task: Task) | SetStop(value: bool) | SetClose(value: bool)

  function EventOf(o: Outside): Event {
    match o
    case Submit(task) => Schedule(task)
    case SetStop(value) => SetStopping(value)
    case SetClose(value) => SetClosed(value)
  }

  function Interfered(s: Sched, os: seq<Outside>): Sched {
    if os == [] then s else Apply(Interfered(s, os[..|os|-1]), EventOf(os[|os|-1]))
  }

  lemma InterferedNext(s: Sched, os: seq<Outside>, k: nat)
    requires k < |os|
    ensures Interfered(s, os[..k+1]) == Apply(Interfered(s, os[..k]), EventOf(os[k]))
  {
    assert os[..k+1][..k] == os[..k];
  }

  /** The branch of `select!` that is ready first, and what it finds. */
  datatype Branch =
    | TaskReady
    | TimerReady(current: nat, cancelled: set<nat>)
    | SignalReady(num: nat, listening: bool)
    | HandleReady(skip: bool)

  /** One iteration: what happens before the branch, the branch, and what happens during it. */
  datatype Turn = Turn(before: seq<Outside>, branch: Branch, during: seq<Outside>)

  /** `e` is what `branch` does in `s`. A branch with nothing to do leaves the iteration to a sleep. */
  predicate Picks(s: Sched, branch: Branch, e: Event) {
    match branch
    case TaskReady => e == (if s.schedulerCh != [] then RecvTask else Sleep)
    case SignalReady(num, listening) => e == Signal(num, listening)
    case HandleReady(skip) => e == (if s.handleCh != [] then RecvHandle(skip) else Sleep)
    case TimerReady(current, cancelled) =>
      if forall t :: t in s.delayed ==> t.when > current then e == Sleep
      else e.ReleaseDue? && e.current == current && e.cancelled == cancelled && Timers.FiresExactly(s.delayed, current, e.due, e.rest)
  }

  lemma {:induction false} InterferedKeeps(s: Sched, os: seq<Outside>)
    ensures Reachable(s) ==> Reachable(Interfered(s, os))
    ensures var t := Interfered(s, os); t.phase == s.phase && t.handleCh == s.handleCh && t.delayed == s.delayed
  {
    if os != [] {
      var init := Interfered(s, os[..|os|-1]);
      InterferedKeeps(s, os[..|os|-1]);
      if Reachable(init) {
        ReachableStep(init, EventOf(os[|os|-1]));
      }
    }
  }

  /** A branch that goes on to the stop check. */
  predicate Takes(s: Sched, e: Event, t: Sched) {
    Enabled(s, e) && t == Apply(s, e) && t.phase == Checking
  }

  /** One iteration of the loop takes `s` to `t` by way of the event `e`. */
  predicate IsTurn(s: Sched, turn: Turn, e: Event, t: Sched) {
    var s1 := Interfered(s, turn.before);
    && Picks(s1, turn.branch, e) && Enabled(s1, e)
    && var s2 := Interfered(Apply(s1, e), turn.during);
    if e.Signal? && !e.listening then t == s2
    else Enabled(s2, Check) && t == Apply(s2, Check)
  }

  /** The events of a list of interferences. */
  function EnterAll(a: Books, os: seq<Outside>): Books {
    if os == [] then a
    else
      var b := EnterAll(a, os[..|os|-1]);
      match os[|os|-1]
      case Submit(task) => if b.stopping || b.closed then b else b.(sent := b.sent + [task])
      case SetStop(value) => b.(stopping := value)
      case SetClose(value) => b.(closed := value)
  }

  lemma {:induction false} InterferenceShows(s: Sched, os: seq<Outside>)
    ensures Shown(Interfered(s, os)) == EnterAll(Shown(s), os)
  {
    if os != [] {
      InterferenceShows(s, os[..|os|-1]);
      StepShows(Interfered(s, os[..|os|-1]), EventOf(os[|os|-1]));
    }
  }

  /** What a branch takes: a task at the head of the scheduler channel leaves it, a handle at the head of its channel is run
      or skipped, due timers are released and no others; the stop flag is set by SIGINT and SIGTERM. */
  lemma {:induction false} BranchTakes(s: Sched, branch: Branch, e: Event)
    requires Picks(s, branch, e) && Enabled(s, e)
    ensures var t := Apply(s, e);
            match branch
            case TaskReady =>
              s.schedulerCh != [] ==>
                && t.schedulerCh == s.schedulerCh[1..]
                && (if s.schedulerCh[0].Immediate? then t.handleCh == s.handleCh + [s.schedulerCh[0]] && t.delayed == s.delayed
                    else t.handleCh == s.handleCh && t.delayed == s.delayed + multiset{s.schedulerCh[0].timer})
            case TimerReady(current, cancelled) =>
              && (forall u :: u in t.delayed ==> u.when > current)
              && (forall u: Timers.Timer :: t.delayed[u] == if u.when > current then s.delayed[u] else 0)
            case SignalReady(num, listening) =>
              && (t.stopping <==> s.stopping || num == 2 || num == 15) && (t.phase == Idle <==> !listening)
            case HandleReady(skip) =>
              s.handleCh != [] ==>
                && t.handleCh == s.handleCh[1..]
                && t.retired == s.retired + [if skip then Skipped(s.handleCh[0]) else Ran(s.handleCh[0])]
  {
    PhasesAreExact(s, e);
    match branch
    case TimerReady(current, cancelled) =>
      if e.ReleaseDue? {
        FiringLeavesLater(s.delayed, current, e.due, e.rest);
      } else {
        forall u: Timers.Timer
          ensures s.delayed[u] == if u.when > current then s.delayed[u] else 0
        {
        }
      }
    case _ =>
  }

  lemma {:induction false} FiringLeavesLater(heap: multiset<Timers.Timer>, tick: nat, due: seq<Timers.Timer>, rest: multiset<Timers.Timer>)
    requires Timers.FiresExactly(heap, tick, due, rest)
    ensures forall u: Timers.Timer :: rest[u] == if u.when > tick then heap[u] else 0
  {
    forall u: Timers.Timer
      ensures rest[u] == if u.when > tick then heap[u] else 0
    {
      assert heap[u] == multiset(due)[u] + rest[u];
      if u.when > tick {
        assert u !in multiset(due);
      } else {
        assert u !in rest;
      }
    }
  }

  /** Everything that comes in during a turn takes effect in order, before the branch and after it. */
  lemma {:induction false} TurnTakesCalls(s: Sched, turn: Turn, e: Event, t: Sched)
    requires IsTurn(s, turn, e, t)
    ensures var s1 := Interfered(s, turn.before);
            var a := EnterAll(Note(EnterAll(Shown(s), turn.before), e, |s1.handleCh|), turn.during);
            var s2 := Interfered(Apply(s1, e), turn.during);
            Shown(t) == if e.Signal? && !e.listening then a else Note(a, Check, |s2.handleCh|)
  {
    var s1 := Interfered(s, turn.before);
    InterferenceShows(s, turn.before);
    StepShows(s1, e);
    InterferenceShows(Apply(s1, e), turn.during);
    var s2 := Interfered(Apply(s1, e), turn.during);
    if !(e.Signal? && !e.listening) {
      StepShows(s2, Check);
    }
  }

  ghost predicate AreTurns(s: Sched, turns: seq<Turn>, t: Sched)
    decreases turns, 0
  {
    if turns == [] then t == s else EndsWith(s, turns[..|turns|-1], turns[|turns|-1], t)
  }

  ghost predicate EndsWith(s: Sched, init: seq<Turn>, last: Turn, t: Sched)
    decreases init, 1
  {
    exists mid, e :: AreTurns(s, init, mid) && IsTurn(mid, last, e, t)
  }

  lemma {:induction false} OneMoreTurn(s: Sched, turns: seq<Turn>, k: nat, mid: Sched, e: Event, t: Sched)
    requires k < |turns| && AreTurns(s, turns[..k], mid) && IsTurn(mid, turns[k], e, t)
    ensures AreTurns(s, turns[..k+1], t)
  {
    assert turns[..k+1][..k] == turns[..k];
    assert EndsWith(s, turns[..k], turns[k], t);
  }

  class TEventLoop {
    var schedulerRx: seq<Task>
    var stopping: bool
    var closed: bool
    ghost var model: Sched

    ghost predicate Valid()
      reads this
    {
      Reachable(model) && model.schedulerCh == schedulerRx && model.stopping == stopping && model.closed == closed
    }

    constructor ()
      ensures Valid() && model == IDLE
    {
      schedulerRx, stopping, closed, model := [], false, false, IDLE;
      new;
      assert IsRun([]) && After([]) == IDLE;
    }

    /** Sends nothing once the loop is stopping or closed. */
    method ScheduleHandle(task: Task)
      requires Valid()
      modifies this
      ensures Valid() && model == Apply(old(model), Schedule(task))
      ensures schedulerRx == (if old(stopping) || old(closed) then old(schedulerRx) else old(schedulerRx) + [task])
      ensures stopping == old(stopping) && closed == old(closed)
    {
      ReachableStep(model, Schedule(task));
      model := Apply(model, Schedule(task));
      if stopping || closed {
        return;
      }
      schedulerRx := schedulerRx + [task];
    }

    method Disturb(o: Outside)
      requires Valid()
      modifies this
      ensures Valid() && model == Apply(old(model), EventOf(o))
    {
      match o {
        case Submit(task) => ScheduleHandle(task);
        case SetStop(value) => stopping := value;
        case SetClose(value) => closed := value;
      }
      if !o.Submit? {
        ReachableStep(model, EventOf(o));
        model := Apply(model, EventOf(o));
      }
    }

    method Interfere(os: seq<Outside>)
      requires Valid()
      modifies this
      ensures Valid() && model == Interfered(old(model), os)
    {
      var k := 0;
      while k < |os|
        invariant k <= |os| && Valid() && model == Interfered(old(model), os[..k])
      {
        InterferedNext(old(model), os, k);
        Disturb(os[k]);
        k := k + 1;
      }
      assert os[..k] == os;
    }

    /** The timer branch. */
    method ReleaseTimers(current: nat, cancelled: set<nat>, handles: seq<Task>, delayed: multiset<Timers.Timer>)
        returns (ghost e: Event, handles1: seq<Task>, delayed1: multiset<Timers.Timer>)
      requires Valid() && model.phase == Selecting && model.handleCh == handles && model.delayed == delayed
      modifies this`model
      ensures Valid() && Picks(old(model), TimerReady(current, cancelled), e) && Takes(old(model), e, model)
      ensures !e.Signal? && model.handleCh == handles1 && model.delayed == delayed1
    {
      e, handles1, delayed1 := Sleep, handles, delayed;
      if delayed != multiset{} {
        var next := Timers.Peek(delayed);
        if next.when <= current {
          var due, rest := Timers.PopDue(delayed, current);
          e := ReleaseDue(current, due, rest, cancelled);
          handles1 := SendLive(due, cancelled, handles);
          delayed1 := rest;
        }
      }
      ReachableStep(model, e);
      model := Apply(model, e);
    }

    /** The timer branch's loop: a popped timer is sent to run unless it was cancelled. */
    static method SendLive(due: seq<Timers.Timer>, cancelled: set<nat>, handles: seq<Task>) returns (handles1: seq<Task>)
      ensures handles1 == handles + AsDelayed(Live(due, cancelled))
      ensures forall t :: multiset(handles1)[Delayed(t)] == multiset(handles)[Delayed(t)] + (if t.id in cancelled then 0 else multiset(due)[t])
    {
      handles1 := handles;
      var k := 0;
      while k < |due|
        invariant k <= |due| && handles1 == handles + AsDelayed(Live(due[..k], cancelled))
      {
        assert due[..k+1][..k] == due[..k];
        if due[k].id !in cancelled {
          handles1 := handles1 + [Delayed(due[k])];
        }
        k := k + 1;
      }
      assert due[..k] == due;
      forall t: Timers.Timer
        ensures multiset(handles1)[Delayed(t)] == multiset(handles)[Delayed(t)] + (if t.id in cancelled then 0 else multiset(due)[t])
      {
        LiveIsExact(due, cancelled, t);
        DelayedCounts(Live(due, cancelled), t);
      }
    }

    /** The scheduler channel's branch. */
    method TakeTask(handles: seq<Task>, delayed: multiset<Timers.Timer>)
        returns (ghost e: Event, handles1: seq<Task>, delayed1: multiset<Timers.Timer>)
      requires Valid() && model.phase == Selecting && model.handleCh == handles && model.delayed == delayed
      modifies this`schedulerRx, this`model
      ensures Valid() && Picks(old(model), TaskReady, e) && Takes(old(model), e, model)
      ensures !e.Signal? && model.handleCh == handles1 && model.delayed == delayed1
    {
      e, handles1, delayed1 := Sleep, handles, delayed;
      if schedulerRx != [] {
        e := RecvTask;
        match schedulerRx[0] {
          case Immediate(_) => handles1 := handles + [schedulerRx[0]];
          case Delayed(timer) => delayed1 := delayed + multiset{timer};
        }
        schedulerRx := schedulerRx[1..];
      }
      ReachableStep(model, e);
      model := Apply(model, e);
    }

    /** The signal socket's branch: SIGINT and SIGTERM stop the loop. */
    method TakeSignal(num: nat, listening: bool) returns (exit: bool)
      requires Valid() && model.phase == Selecting
      modifies this`stopping, this`model
      ensures Valid() && model == Apply(old(model), Signal(num, listening)) && exit == !listening
      ensures if exit then model.phase == Idle
              else model.phase == Checking && model.handleCh == old(model).handleCh && model.delayed == old(model).delayed
    {
      if num == 2 || num == 15 {
        stopping := true;
      }
      exit := !listening;
      ReachableStep(model, Signal(num, listening));
      model := Apply(model, Signal(num, listening));
    }

    /** The handle channel's branch. */
    method TakeHandle(skip: bool, handles: seq<Task>) returns (ghost e: Event, handles1: seq<Task>)
      requires Valid() && model.phase == Selecting && model.handleCh == handles
      modifies this`model
      ensures Valid() && Picks(old(model), HandleReady(skip), e) && Takes(old(model), e, model)
      ensures !e.Signal? && model.handleCh == handles1 && model.delayed == old(model).delayed
    {
      e, handles1 := Sleep, handles;
      if handles != [] {
        e, handles1 := RecvHandle(skip), handles[1..];
      }
      ReachableStep(model, e);
      model := Apply(model, e);
    }

    /** The body of the branch that `select!` takes. */
    method Select(branch: Branch, handles: seq<Task>, delayed: multiset<Timers.Timer>)
        returns (handles1: seq<Task>, delayed1: multiset<Timers.Timer>, exit: bool, ghost e: Event)
      requires Valid() && model.phase == Selecting && model.handleCh == handles && model.delayed == delayed
      modifies this
      ensures Valid() && Picks(old(model), branch, e) && Enabled(old(model), e) && model == Apply(old(model), e)
      ensures exit == (e.Signal? && !e.listening)
      ensures if exit then model.phase == Idle
              else model.phase == Checking && model.handleCh == handles1 && model.delayed == delayed1
    {
      handles1, delayed1, exit := handles, delayed, false;
      match branch {
        case TaskReady =>
          e, handles1, delayed1 := TakeTask(handles, delayed);
        case TimerReady(current, cancelled) =>
          e, handles1, delayed1 := ReleaseTimers(current, cancelled, handles, delayed);
        case SignalReady(num, listening) =>
          e := Signal(num, listening);
          exit := TakeSignal(num, listening);
        case HandleReady(skip) =>
          e, handles1 := TakeHandle(skip, handles);
      }
    }

    method Iterate(turn: Turn, handles: seq<Task>, delayed: multiset<Timers.Timer>)
        returns (exit: bool, handles1: seq<Task>, delayed1: multiset<Timers.Timer>, ghost e: Event)
      requires Valid() && model.phase == Selecting && model.handleCh == handles && model.delayed == delayed
      modifies this
      ensures Valid() && IsTurn(old(model), turn, e, model)
      ensures if exit then model.phase == Idle
              else model.phase == Selecting && model.handleCh == handles1 && model.delayed == delayed1
    {
      InterferedKeeps(model, turn.before);
      Interfere(turn.before);
      handles1, delayed1, exit, e := Select(turn.branch, handles, delayed);
      InterferedKeeps(model, turn.during);
      Interfere(turn.during);
      if exit {
        return;
      }
      ReachableStep(model, Check);
      model := Apply(model, Check);
      exit := stopping;
    }

    /** `_run`, for as many iterations as `turns` describes or until it returns. */
    method Run(turns: seq<Turn>) returns (done: bool, ghost taken: nat)
      requires Valid() && model.phase == Idle
      modifies this
      ensures Valid() && taken <= |turns| && AreTurns(Apply(old(model), Start), turns[..taken], model)
      ensures if done then model.phase == Idle else taken == |turns| && model.phase == Selecting
    {
      var delayed: multiset<Timers.Timer>, handles: seq<Task> := multiset{}, [];
      IdleIsEmpty(model);
      ReachableStep(model, Start);
      model := Apply(model, Start);
      var k := 0;
      taken := 0;
      done := false;
      while k < |turns|
        invariant k == taken <= |turns| && !done && Valid() && AreTurns(Apply(old(model), Start), turns[..k], model)
        invariant model.phase == Selecting && model.handleCh == handles && model.delayed == delayed
      {
        ghost var e, mid := *, model;
        taken := k + 1;
        done, handles, delayed, e := Iterate(turns[k], handles, delayed);
        OneMoreTurn(Apply(old(model), Start), turns, k, mid, e, model);
        if done {
          return;
        }
        k := k + 1;
      }
    }
  }
}
