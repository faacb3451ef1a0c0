/** The timer: delayed and repeated tasks over one priority queue (logger/scheduler/scheduler.h, scheduler.cc). */
module Timers {

  // ---------- the step machine ----------

  /** What a queue entry runs: a delayed task, or the next round of a repeated one. */
  datatype Owner = Once(task: nat) | Again(id: nat, remaining: nat, delta: int)

  /** Times are nanoseconds. */
  datatype Entry = Entry(owner: Owner, at: int)

  /** Where a round of a repeated task stands, inside `PostRepeatedTask` or `PostRepeatedTask_`. */
  datatype Stage =
    | Inserting(n: nat) | Testing(n: nat) | Erasing | Checking(n: nat) | Running(n: nat) | Stamping(r: nat)
    | Pushing(r: nat, at: int)

  datatype Flight = Flight(stage: Stage, onTimer: bool, delta: int)

  /**
   * `live` is the set of repeated tasks still wanted. `runs`, `initial`, `cancelled` and `fired` are history: rounds
   * run, rounds asked for, tasks cancelled by a caller, and the time points popped so far.
   */
  datatype TimerState = TimerState(
    queue: seq<Entry>,
    live: set<nat>,
    next: nat,
    flights: map<nat, Flight>,
    stamped: seq<Entry>,
    now: int,
    runs: map<nat, nat>,
    initial: map<nat, nat>,
    cancelled: set<nat>,
    fired: seq<int>)

  datatype Action =
    | Tick(to: int)
    | StampDelayed(task: nat, delta: int) | PushDelayed(k: nat)
    | Register(n: nat, delta: int) | Advance(id: nat) | Cancel(id: nat)
    | Fire(i: nat)

  /** `duration_cast` to microseconds truncates toward zero. */
  function Micros(nanos: int): int {
    if nanos >= 0 then nanos / 1000 else -((-nanos) / 1000)
  }

  predicate Due(e: Entry, now: int) {
    Micros(e.at - now) <= 0
  }

  predicate Earliest(queue: seq<Entry>, i: nat) {
    i < |queue| && forall j | 0 <= j < |queue| :: queue[i].at <= queue[j].at
  }

  /** The one timer thread is inside a round. */
  predicate Busy(t: TimerState) {
    exists id | id in t.flights :: t.flights[id].onTimer
  }

  predicate Enabled(t: TimerState, a: Action) {
    match a
    case Tick(to) => t.now <= to
    case StampDelayed(_, _) => true
    case PushDelayed(k) => k < |t.stamped|
    case Register(_, _) => true
    case Advance(id) => id in t.flights
    case Cancel(_) => true
    case Fire(i) => Earliest(t.queue, i) && Due(t.queue[i], t.now) && !Busy(t)
  }

  function Without<T>(s: seq<T>, i: nat): seq<T>
    requires i < |s|
  {
    s[..i] + s[i + 1..]
  }

  function Ends(t: TimerState, id: nat): TimerState {
    t.(flights := t.flights - {id})
  }

  function AtStage(t: TimerState, id: nat, stage: Stage): TimerState
    requires id in t.flights
  {
    t.(flights := t.flights[id := t.flights[id].(stage := stage)])
  }

  function AdvanceFlight(t: TimerState, id: nat): TimerState
    requires id in t.flights
  {
    match t.flights[id].stage
    case Inserting(n) => AtStage(t, id, Testing(n)).(live := t.live + {id})
    case Testing(n) => AtStage(t, id, if n == 0 then Erasing else Checking(n))
    case Erasing => Ends(t, id).(live := t.live - {id})
    case Checking(n) => if id in t.live then AtStage(t, id, Running(n)) else Ends(t, id)
    case Running(n) =>
      AtStage(t, id, Stamping(if n > 0 then n - 1 else 0)).(runs := t.runs[id := RunsOf(t, id) + 1])
    case Stamping(r) => AtStage(t, id, Pushing(r, t.now + t.flights[id].delta))
    case Pushing(r, at) => Ends(t, id).(queue := t.queue + [Entry(Again(id, r, t.flights[id].delta), at)])
  }

  function RunsOf(t: TimerState, id: nat): nat {
    if id in t.runs then t.runs[id] else 0
  }

  function InitialOf(t: TimerState, id: nat): nat {
    if id in t.initial then t.initial[id] else 0
  }

  function Apply(t: TimerState, a: Action): TimerState
    requires Enabled(t, a)
  {
    match a
    case Tick(to) => t.(now := to)
    case StampDelayed(task, delta) => t.(stamped := t.stamped + [Entry(Once(task), t.now + delta)])
    case PushDelayed(k) => t.(queue := t.queue + [t.stamped[k]], stamped := Without(t.stamped, k))
    case Register(n, delta) =>
      t.(next := t.next + 1, flights := t.flights[t.next := Flight(Inserting(n), false, delta)],
         runs := t.runs[t.next := 0], initial := t.initial[t.next := n])
    case Advance(id) => AdvanceFlight(t, id)
    case Cancel(id) => t.(live := t.live - {id}, cancelled := t.cancelled + {id})
    case Fire(i) =>
      var e := t.queue[i];
      var popped := t.(queue := Without(t.queue, i), fired := t.fired + [e.at]);
      match e.owner
      case Once(_) => popped
      case Again(id, r, delta) => popped.(flights := t.flights[id := Flight(Testing(r), true, delta)])
  }

  function Fresh(now: int): TimerState {
    TimerState([], {}, 0, map[], [], now, map[], map[], {}, [])
  }

  ghost predicate IsRun(ts: seq<TimerState>, acts: seq<Action>) {
    && |ts| == |acts| + 1
    && ts[0] == Fresh(ts[0].now)
    && forall i | 0 <= i < |acts| :: Enabled(ts[i], acts[i]) && ts[i + 1] == Apply(ts[i], acts[i])
  }

  // ---------- repeated tasks ----------

  predicate Queued(queue: seq<Entry>, id: nat) {
    exists i | 0 <= i < |queue| :: queue[i].owner.Again? && queue[i].owner.id == id
  }

  /** Rounds a flight still has to run. */
  function Left(stage: Stage): nat {
    match stage
    case Inserting(n) => n
    case Testing(n) => n
    case Erasing => 0
    case Checking(n) => n
    case Running(n) => n
    case Stamping(r) => r
    case Pushing(r, _) => r
  }

  /** Rounds run and rounds left add up to the rounds asked for, wherever the task is. */
  predicate CountsAddUp(t: TimerState) {
    && (forall i | 0 <= i < |t.queue| && t.queue[i].owner.Again? ::
          RunsOf(t, t.queue[i].owner.id) + t.queue[i].owner.remaining == InitialOf(t, t.queue[i].owner.id))
    && (forall id | id in t.flights ::
          && RunsOf(t, id) + Left(t.flights[id].stage) == InitialOf(t, id)
          && (t.flights[id].stage.Checking? || t.flights[id].stage.Running? ==> t.flights[id].stage.n > 0))
  }

  /** A repeated task is in at most one place: one queue entry, or one flight. */
  predicate OnePlace(t: TimerState) {
    && (forall i | 0 <= i < |t.queue| && t.queue[i].owner.Again? ::
          t.queue[i].owner.id < t.next && t.queue[i].owner.id !in t.flights)
    && OneEntry(t.queue)
    && (forall id | id in t.flights :: id < t.next)
    && (forall k | 0 <= k < |t.stamped| :: t.stamped[k].owner.Once?)
  }

  predicate OneEntry(queue: seq<Entry>) {
    forall i, j | 0 <= i < j < |queue| && queue[i].owner.Again? && queue[j].owner.Again? ::
      queue[i].owner.id != queue[j].owner.id
  }

  /** A task leaves the set when its rounds are done or a caller cancels it, and not before. */
  predicate LiveSound(t: TimerState) {
    && (forall id | id in t.live :: id < t.next)
    && (forall id | 0 <= id < t.next && id !in t.cancelled && (Queued(t.queue, id) || id in t.flights) ::
          id in t.live || (id in t.flights && t.flights[id].stage.Inserting?))
    && (forall id | 0 <= id < t.next && !Queued(t.queue, id) && id !in t.flights ::
          id !in t.live && (id in t.cancelled || RunsOf(t, id) == InitialOf(t, id)))
  }

  predicate RepeatInv(t: TimerState) {
    CountsAddUp(t) && OnePlace(t) && LiveSound(t)
  }

  lemma QueuedAfterPush(queue: seq<Entry>, e: Entry)
    ensures forall id: nat :: Queued(queue + [e], id) <==> Queued(queue, id) || (e.owner.Again? && e.owner.id == id)
  {
    var longer := queue + [e];
    assert longer[|queue|] == e;
    forall id: nat
      ensures Queued(longer, id) <==> Queued(queue, id) || (e.owner.Again? && e.owner.id == id)
    {
      if i :| 0 <= i < |queue| && queue[i].owner.Again? && queue[i].owner.id == id {
        assert longer[i] == queue[i];
      }
      if e.owner.Again? && e.owner.id == id {
        assert longer[|queue|].owner.Again?;
      }
    }
  }

  lemma QueuedAfterPop(queue: seq<Entry>, i: nat)
    requires i < |queue| && OneEntry(queue)
    ensures OneEntry(Without(queue, i))
    ensures forall id: nat :: Queued(Without(queue, i), id)
                              <==> Queued(queue, id) && !(queue[i].owner.Again? && queue[i].owner.id == id)
  {
    var shorter, e := Without(queue, i), queue[i];
    assert forall j | 0 <= j < |shorter| :: shorter[j] == queue[if j < i then j else j + 1];
    forall id: nat
      ensures Queued(shorter, id) <==> Queued(queue, id) && !(e.owner.Again? && e.owner.id == id)
    {
      if j :| 0 <= j < |queue| && queue[j].owner.Again? && queue[j].owner.id == id && j != i {
        assert shorter[if j < i then j else j - 1] == queue[j];
      }
      if Queued(shorter, id) {
        var j :| 0 <= j < |shorter| && shorter[j].owner.Again? && shorter[j].owner.id == id;
        var k := if j < i then j else j + 1;
        assert queue[k] == shorter[j];
      }
    }
  }

  lemma PushKeepsRepeatInv(t: TimerState, k: nat)
    requires RepeatInv(t) && k < |t.stamped|
    ensures RepeatInv(Apply(t, PushDelayed(k)))
  {
    var t' := Apply(t, PushDelayed(k));
    assert forall id :: RunsOf(t', id) == RunsOf(t, id) && InitialOf(t', id) == InitialOf(t, id);
    QueuedAfterPush(t.queue, t.stamped[k]);
    hide Queued, RunsOf, InitialOf;
  }

  lemma RegisterKeepsLive(t: TimerState, n: nat, delta: int)
    requires OnePlace(t) && LiveSound(t)
    ensures LiveSound(Apply(t, Register(n, delta)))
  {
    var t' := Apply(t, Register(n, delta));
    assert forall id | id != t.next :: RunsOf(t', id) == RunsOf(t, id) && InitialOf(t', id) == InitialOf(t, id);
    hide Queued, OneEntry, RunsOf, InitialOf;
  }

  lemma RegisterKeepsRepeatInv(t: TimerState, n: nat, delta: int)
    requires RepeatInv(t)
    ensures RepeatInv(Apply(t, Register(n, delta)))
  {
    RegisterKeepsLive(t, n, delta);
    hide LiveSound, OneEntry;
    var t' := Apply(t, Register(n, delta));
    assert forall id | id != t.next :: RunsOf(t', id) == RunsOf(t, id) && InitialOf(t', id) == InitialOf(t, id);
  }

  lemma CancelKeepsRepeatInv(t: TimerState, id: nat)
    requires RepeatInv(t)
    ensures RepeatInv(Apply(t, Cancel(id)))
  {
    var t' := Apply(t, Cancel(id));
    assert forall other :: RunsOf(t', other) == RunsOf(t, other) && InitialOf(t', other) == InitialOf(t, other);
  }

  /** A round ends with no entry left: its count is used up, or the task was taken out of the set. */
  predicate Ending(t: TimerState, id: nat)
    requires id in t.flights
  {
    t.flights[id].stage.Erasing? || (t.flights[id].stage.Checking? && id !in t.live)
  }

  lemma EndingKeepsRepeatInv(t: TimerState, id: nat)
    requires RepeatInv(t) && id in t.flights && Ending(t, id)
    ensures RepeatInv(AdvanceFlight(t, id))
  {
    var t' := AdvanceFlight(t, id);
    assert forall other :: RunsOf(t', other) == RunsOf(t, other) && InitialOf(t', other) == InitialOf(t, other);
    assert !Queued(t.queue, id);
  }

  lemma InsertingKeepsRepeatInv(t: TimerState, id: nat)
    requires RepeatInv(t) && id in t.flights && t.flights[id].stage.Inserting?
    ensures RepeatInv(AdvanceFlight(t, id))
  {
    var t' := AdvanceFlight(t, id);
    assert forall other :: RunsOf(t', other) == RunsOf(t, other) && InitialOf(t', other) == InitialOf(t, other);
  }

  predicate Moving(t: TimerState, id: nat)
    requires id in t.flights
  {
    var s := t.flights[id].stage;
    !Ending(t, id) && (s.Testing? || s.Checking? || s.Stamping?)
  }

  lemma MovingOnKeepsLive(t: TimerState, id: nat)
    requires LiveSound(t) && id in t.flights && Moving(t, id)
    ensures LiveSound(AdvanceFlight(t, id))
  {
    var t' := AdvanceFlight(t, id);
    assert forall other :: RunsOf(t', other) == RunsOf(t, other) && InitialOf(t', other) == InitialOf(t, other);
    hide RunsOf, InitialOf, Queued;
    assert t'.live == t.live && t'.queue == t.queue && t'.flights.Keys == t.flights.Keys;
  }

  lemma MovingOnKeepsCounts(t: TimerState, id: nat)
    requires CountsAddUp(t) && id in t.flights && Moving(t, id)
    ensures CountsAddUp(AdvanceFlight(t, id))
  {
    var t' := AdvanceFlight(t, id);
    assert forall other :: RunsOf(t', other) == RunsOf(t, other) && InitialOf(t', other) == InitialOf(t, other);
    hide RunsOf, InitialOf;
    assert t'.queue == t.queue && t'.flights.Keys == t.flights.Keys;
  }

  lemma MovingOnKeepsRepeatInv(t: TimerState, id: nat)
    requires RepeatInv(t) && id in t.flights && Moving(t, id)
    ensures RepeatInv(AdvanceFlight(t, id))
  {
    MovingOnKeepsCounts(t, id);
    MovingOnKeepsLive(t, id);
    hide CountsAddUp, LiveSound, OneEntry;
    var t' := AdvanceFlight(t, id);
    assert t'.queue == t.queue && t'.flights.Keys == t.flights.Keys;
  }

  lemma RunningKeepsRepeatInv(t: TimerState, id: nat)
    requires RepeatInv(t) && id in t.flights && t.flights[id].stage.Running?
    ensures RepeatInv(AdvanceFlight(t, id))
  {
    hide Queued, OneEntry;
    var t' := AdvanceFlight(t, id);
    assert forall other | other != id :: RunsOf(t', other) == RunsOf(t, other);
    assert forall other :: InitialOf(t', other) == InitialOf(t, other);
  }

  lemma PushingKeepsRepeatInv(t: TimerState, id: nat)
    requires RepeatInv(t) && id in t.flights && t.flights[id].stage.Pushing?
    ensures RepeatInv(AdvanceFlight(t, id))
  {
    var t' := AdvanceFlight(t, id);
    assert !Queued(t.queue, id);
    QueuedAfterPush(t.queue, t'.queue[|t.queue|]);
    assert forall other :: RunsOf(t', other) == RunsOf(t, other) && InitialOf(t', other) == InitialOf(t, other);
  }

  lemma FireKeepsCounts(t: TimerState, i: nat)
    requires RepeatInv(t) && Enabled(t, Fire(i))
    ensures CountsAddUp(Apply(t, Fire(i)))
  {
    hide LiveSound, OneEntry;
    var t' := Apply(t, Fire(i));
    assert forall other :: RunsOf(t', other) == RunsOf(t, other) && InitialOf(t', other) == InitialOf(t, other);
    hide RunsOf, InitialOf, LiveSound, OneEntry, Due, Busy;
    assert forall j | 0 <= j < |t'.queue| :: t'.queue[j] == t.queue[if j < i then j else j + 1];
  }

  lemma FireKeepsPlaces(t: TimerState, i: nat)
    requires OnePlace(t) && Enabled(t, Fire(i))
    ensures OnePlace(Apply(t, Fire(i)))
  {
    var t' := Apply(t, Fire(i));
    QueuedAfterPop(t.queue, i);
    assert t.queue[i].owner.Again? ==> !Queued(t'.queue, t.queue[i].owner.id);
    hide OneEntry, Due, Busy;
    assert forall j | 0 <= j < |t'.queue| :: t'.queue[j] == t.queue[if j < i then j else j + 1];
  }

  lemma FireKeepsLive(t: TimerState, i: nat)
    requires RepeatInv(t) && Enabled(t, Fire(i))
    ensures LiveSound(Apply(t, Fire(i)))
  {
    var t' := Apply(t, Fire(i));
    assert forall other :: RunsOf(t', other) == RunsOf(t, other) && InitialOf(t', other) == InitialOf(t, other);
    assert t.queue[i].owner.Again? ==> Queued(t.queue, t.queue[i].owner.id);
    QueuedAfterPop(t.queue, i);
    hide RunsOf, InitialOf, CountsAddUp, OneEntry, Queued, Due, Busy;
  }

  lemma FireKeepsRepeatInv(t: TimerState, i: nat)
    requires RepeatInv(t) && Enabled(t, Fire(i))
    ensures RepeatInv(Apply(t, Fire(i)))
  {
    FireKeepsCounts(t, i);
    FireKeepsPlaces(t, i);
    FireKeepsLive(t, i);
    hide CountsAddUp, OnePlace, LiveSound, Apply;
  }

  lemma StepKeepsRepeatInv(t: TimerState, a: Action)
    requires RepeatInv(t) && Enabled(t, a)
    ensures RepeatInv(Apply(t, a))
  {
    match a
    case Tick(_) =>
    case StampDelayed(_, _) =>
    case PushDelayed(k) => PushKeepsRepeatInv(t, k);
    case Register(n, delta) => RegisterKeepsRepeatInv(t, n, delta);
    case Advance(id) =>
      if t.flights[id].stage.Running? {
        RunningKeepsRepeatInv(t, id);
      } else if t.flights[id].stage.Pushing? {
        PushingKeepsRepeatInv(t, id);
      } else if t.flights[id].stage.Inserting? {
        InsertingKeepsRepeatInv(t, id);
      } else if Ending(t, id) {
        EndingKeepsRepeatInv(t, id);
      } else {
        MovingOnKeepsRepeatInv(t, id);
      }
    case Cancel(id) => CancelKeepsRepeatInv(t, id);
    case Fire(i) => FireKeepsRepeatInv(t, i);
  }

  lemma {:induction false} RunKeepsRepeatInv(ts: seq<TimerState>, acts: seq<Action>, i: nat)
    requires IsRun(ts, acts) && i <= |acts|
    ensures RepeatInv(ts[i])
  {
    if i > 0 {
      RunKeepsRepeatInv(ts, acts, i - 1);
      StepKeepsRepeatInv(ts[i - 1], acts[i - 1]);
    }
  }

  /**
   * Every started task, in every reachable state: rounds run plus rounds left make the number asked for, there is at
   * most one queue entry, and a task that has come to rest without being cancelled ran exactly that often and is out
   * of the set.
   */
  lemma RepeatedTasksAreCounted(ts: seq<TimerState>, acts: seq<Action>, i: nat, id: nat)
    requires IsRun(ts, acts) && i <= |acts| && id < ts[i].next
    ensures forall j | 0 <= j < |ts[i].queue| && ts[i].queue[j].owner.Again? && ts[i].queue[j].owner.id == id ::
              RunsOf(ts[i], id) + ts[i].queue[j].owner.remaining == InitialOf(ts[i], id) && id !in ts[i].flights
    ensures OneEntry(ts[i].queue)
    ensures id in ts[i].flights ==> RunsOf(ts[i], id) + Left(ts[i].flights[id].stage) == InitialOf(ts[i], id)
    ensures !Queued(ts[i].queue, id) && id !in ts[i].flights && id !in ts[i].cancelled ==>
              RunsOf(ts[i], id) == InitialOf(ts[i], id)
    ensures !Queued(ts[i].queue, id) && id !in ts[i].flights ==> id !in ts[i].live
  {
    RunKeepsRepeatInv(ts, acts, i);
  }

  // ---------- cancelling ----------

  /** The task is out of the set for good: its post got past the insertion, and only that inserts it. */
  predicate Stopped(t: TimerState, id: nat) {
    id < t.next && id !in t.live && (id in t.flights ==> !t.flights[id].stage.Inserting?)
  }

  /** The one round that passed the check of the set before the cancel came. */
  function Escaped(t: TimerState, id: nat): nat {
    if id in t.flights && t.flights[id].stage.Running? then 1 else 0
  }

  lemma AdvanceKeepsStopped(t: TimerState, other: nat, id: nat)
    requires Stopped(t, id) && other in t.flights
    ensures Stopped(AdvanceFlight(t, other), id)
    ensures RunsOf(AdvanceFlight(t, other), id) + Escaped(AdvanceFlight(t, other), id) == RunsOf(t, id) + Escaped(t, id)
  {
    if other != id {
      assert RunsOf(AdvanceFlight(t, other), id) == RunsOf(t, id);
    }
  }

  lemma StoppedStaysStopped(t: TimerState, a: Action, id: nat)
    requires OnePlace(t) && Stopped(t, id) && Enabled(t, a)
    ensures Stopped(Apply(t, a), id)
    ensures RunsOf(Apply(t, a), id) + Escaped(Apply(t, a), id) == RunsOf(t, id) + Escaped(t, id)
  {
    match a
    case Advance(other) => AdvanceKeepsStopped(t, other, id);
    case Register(_, _) => assert RunsOf(Apply(t, a), id) == RunsOf(t, id);
    case Fire(i) => assert RunsOf(Apply(t, a), id) == RunsOf(t, id);
    case _ =>
  }

  /** Once a task is out of the set no round starts, in any continuation; a round already past the check finishes. */
  lemma {:induction false} CancelStopsFurtherRuns(ts: seq<TimerState>, acts: seq<Action>, i: nat, j: nat, id: nat)
    requires IsRun(ts, acts) && i <= j <= |acts| && Stopped(ts[i], id)
    ensures Stopped(ts[j], id)
    ensures RunsOf(ts[j], id) + Escaped(ts[j], id) == RunsOf(ts[i], id) + Escaped(ts[i], id)
  {
    if i < j {
      CancelStopsFurtherRuns(ts, acts, i, j - 1, id);
      RunKeepsRepeatInv(ts, acts, j - 1);
      StoppedStaysStopped(ts[j - 1], acts[j - 1], id);
    }
  }

  // ---------- order of firing ----------

  /** The test in microseconds lets an entry fire less than one microsecond early. */
  lemma DueIsWithinAMicrosecond(e: Entry, now: int)
    ensures Due(e, now) <==> e.at < now + 1000
  {
    var d := e.at - now;
    if d < 0 {
      assert (-d) / 1000 >= 0;
    }
  }

  lemma OneStep(ts: seq<TimerState>, acts: seq<Action>, a: Action, t: TimerState)
    returns (ts': seq<TimerState>, acts': seq<Action>)
    requires IsRun(ts, acts) && Enabled(ts[|acts|], a) && t == Apply(ts[|acts|], a)
    ensures IsRun(ts', acts') && ts' == ts + [t] && acts' == acts + [a]
  {
    ts', acts' := ts + [t], acts + [a];
  }

  /** Two delayed tasks whose posts overlap: the one stamped first is not pushed yet when the other is due. */
  lemma OverlappingPosts() returns (ts: seq<TimerState>, acts: seq<Action>)
    ensures IsRun(ts, acts) && forall i | 0 <= i < |acts| :: DelayFrom(acts[i], 1000)
    ensures ts[|acts|] == Fresh(2000).(stamped := [Entry(Once(0), 1000)], queue := [Entry(Once(1), 2000)])
  {
    var a, b, t0 := Entry(Once(0), 1000), Entry(Once(1), 2000), Fresh(0);
    ts, acts := [t0], [];
    assert IsRun(ts, acts);
    hide IsRun;
    ts, acts := OneStep(ts, acts, StampDelayed(0, 1000), t0.(stamped := [a]));
    ts, acts := OneStep(ts, acts, StampDelayed(1, 2000), t0.(stamped := [a, b]));
    ts, acts := OneStep(ts, acts, PushDelayed(1), t0.(stamped := [a], queue := [b]));
    ts, acts := OneStep(ts, acts, Tick(2000), t0.(stamped := [a], queue := [b], now := 2000));
  }

  /** The clock is read outside the lock, so a late push can fire after a later time point although delays are long. */
  lemma LatePushFiresOutOfOrder() returns (ts: seq<TimerState>, acts: seq<Action>)
    ensures IsRun(ts, acts) && forall i | 0 <= i < |acts| :: DelayFrom(acts[i], 1000)
    ensures ts[|acts|].fired == [2000, 1000]
  {
    hide IsRun;
    var a, t := Entry(Once(0), 1000), Fresh(2000);
    ts, acts := OverlappingPosts();
    ts, acts := OneStep(ts, acts, Fire(0), t.(stamped := [a], fired := [2000]));
    ts, acts := OneStep(ts, acts, PushDelayed(0), t.(queue := [a], fired := [2000]));
    ts, acts := OneStep(ts, acts, Fire(0), t.(fired := [2000, 1000]));
  }

  /** One delayed task posted in one piece, and fired once the clock has moved on by `later`. */
  lemma PostAndFire(ts: seq<TimerState>, acts: seq<Action>, delta: int, later: nat)
    returns (ts': seq<TimerState>, acts': seq<Action>)
    requires IsRun(ts, acts) && AtomicPosts(ts, acts) && delta < later + 1000
    requires var t := ts[|acts|]; t == Fresh(t.now).(fired := t.fired)
    ensures IsRun(ts', acts') && AtomicPosts(ts', acts')
    ensures var t := ts[|acts|]; ts'[|acts'|] == Fresh(t.now + later).(fired := t.fired + [t.now + delta])
    ensures acts' == acts + [StampDelayed(0, delta), PushDelayed(0), Tick(ts[|acts|].now + later), Fire(0)]
  {
    var t := ts[|acts|];
    var e, t' := Entry(Once(0), t.now + delta), t.(now := t.now + later);
    DueIsWithinAMicrosecond(e, t'.now);
    hide IsRun, Due;
    ts', acts' := OneStep(ts, acts, StampDelayed(0, delta), t.(stamped := [e]));
    ts', acts' := OneStep(ts', acts', PushDelayed(0), t.(queue := [e]));
    ts', acts' := OneStep(ts', acts', Tick(t'.now), t'.(queue := [e]));
    ts', acts' := OneStep(ts', acts', Fire(0), t'.(fired := t.fired + [e.at]));
  }

  /** A task fired as early as it may be, and a second one posted after it. */
  lemma TwoDelays(now: nat, first: int, second: int) returns (ts: seq<TimerState>, acts: seq<Action>)
    requires first < now + 1000 && second < 1000 && second <= first
    ensures IsRun(ts, acts) && AtomicPosts(ts, acts)
    ensures ts[|acts|].fired == [first, now + second]
    ensures forall i | 0 <= i < |acts| :: DelayFrom(acts[i], second)
    ensures first % 1000 == 0 && second % 1000 == 0 ==> forall i | 0 <= i < |acts| :: WholeMicros(acts[i])
  {
    ts, acts := [Fresh(0)], [];
    assert IsRun(ts, acts);
    hide IsRun;
    ts, acts := PostAndFire(ts, acts, first, now);
    ts, acts := PostAndFire(ts, acts, second, 0);
  }

  predicate NonDecreasing(s: seq<int>) {
    forall i, j | 0 <= i <= j < |s| :: s[i] <= s[j]
  }

  function LastFired(t: TimerState): int
    requires t.fired != []
  {
    t.fired[|t.fired| - 1]
  }

  /** The step pushes an entry whose time point is before one that has fired already. */
  predicate Late(t: TimerState, a: Action) {
    && Enabled(t, a) && t.fired != []
    && match a
       case PushDelayed(k) => t.stamped[k].at < LastFired(t)
       case Advance(id) => t.flights[id].stage.Pushing? && t.flights[id].stage.at < LastFired(t)
       case _ => false
  }

  /** Nothing queued is before what has fired. */
  predicate QueueAhead(t: TimerState) {
    t.fired != [] ==> forall i | 0 <= i < |t.queue| :: t.queue[i].at >= LastFired(t)
  }

  lemma FireAppends(t: TimerState, i: nat)
    requires Enabled(t, Fire(i)) && NonDecreasing(t.fired) && QueueAhead(t)
    ensures NonDecreasing(Apply(t, Fire(i)).fired) && QueueAhead(Apply(t, Fire(i)))
  {
    hide Due, Busy;
    var t' := Apply(t, Fire(i));
    assert t'.fired == t.fired + [t.queue[i].at];
    assert forall j | 0 <= j < |t'.queue| :: t'.queue[j] == t.queue[if j < i then j else j + 1];
  }

  lemma QuietAdvance(t: TimerState, id: nat)
    requires id in t.flights
    ensures var t' := Apply(t, Advance(id));
            && t'.fired == t.fired && t.queue <= t'.queue
            && (QueueAhead(t) && !Late(t, Advance(id)) ==> QueueAhead(t'))
            && (Late(t, Advance(id)) ==>
                  |t'.queue| > |t.queue| && t'.queue[|t.queue|].at < LastFired(t))
  {
    hide RunsOf;
    var t' := Apply(t, Advance(id));
    assert t'.queue == t.queue || (t.flights[id].stage.Pushing? && |t'.queue| == |t.queue| + 1);
  }

  lemma QuietStep(t: TimerState, a: Action)
    requires Enabled(t, a) && !a.Fire?
    ensures Apply(t, a).fired == t.fired && t.queue <= Apply(t, a).queue
    ensures QueueAhead(t) && !Late(t, a) ==> QueueAhead(Apply(t, a))
    ensures Late(t, a) ==>
              |Apply(t, a).queue| > |t.queue| && Apply(t, a).queue[|t.queue|].at < LastFired(t)
  {
    if a.Advance? {
      hide AdvanceFlight, Late, QueueAhead;
      QuietAdvance(t, a.id);
    }
  }

  /** No push was late before the event `n`. */
  predicate NoneLate(ts: seq<TimerState>, acts: seq<Action>, n: nat)
    requires n <= |acts| && |ts| == |acts| + 1
  {
    forall k | 0 <= k < n :: !Late(ts[k], acts[k])
  }

  predicate NoFireAfterLate(ts: seq<TimerState>, acts: seq<Action>, n: nat)
    requires n <= |acts| && |ts| == |acts| + 1
  {
    forall k, j | 0 <= k < j < n && Late(ts[k], acts[k]) :: !acts[j].Fire?
  }

  lemma {:induction false} InOrderWithoutLateFires(ts: seq<TimerState>, acts: seq<Action>, n: nat)
    requires IsRun(ts, acts) && n <= |acts| && NoFireAfterLate(ts, acts, n)
    ensures NonDecreasing(ts[n].fired) && (NoneLate(ts, acts, n) ==> QueueAhead(ts[n]))
  {
    if n > 0 {
      InOrderWithoutLateFires(ts, acts, n - 1);
      hide Apply, Late, Enabled, QueueAhead, NonDecreasing;
      match acts[n - 1]
      case Fire(i) => FireAppends(ts[n - 1], i);
      case _ => QuietStep(ts[n - 1], acts[n - 1]);
    }
  }

  lemma {:induction false} FiredGrows(ts: seq<TimerState>, acts: seq<Action>, i: nat, j: nat)
    requires IsRun(ts, acts) && i <= j <= |acts|
    ensures ts[i].fired <= ts[j].fired
  {
    if i < j {
      FiredGrows(ts, acts, i, j - 1);
      if !acts[j - 1].Fire? {
        QuietStep(ts[j - 1], acts[j - 1]);
      }
    }
  }

  predicate SomethingBefore(t: TimerState, x: int) {
    exists i | 0 <= i < |t.queue| :: t.queue[i].at < x
  }

  lemma {:induction false} LateStaysQueued(ts: seq<TimerState>, acts: seq<Action>, k: nat, m: nat)
    requires IsRun(ts, acts) && k < m <= |acts| && Late(ts[k], acts[k])
    requires forall j | k < j < m :: !acts[j].Fire?
    ensures ts[m].fired == ts[k].fired && SomethingBefore(ts[m], LastFired(ts[k]))
  {
    QuietStep(ts[m - 1], acts[m - 1]);
    if k + 1 < m {
      LateStaysQueued(ts, acts, k, m - 1);
      var i :| 0 <= i < |ts[m - 1].queue| && ts[m - 1].queue[i].at < LastFired(ts[k]);
      assert ts[m].queue[i] == ts[m - 1].queue[i];
    } else {
      assert ts[m].queue[|ts[k].queue|].at < LastFired(ts[k]);
    }
  }

  lemma {:induction false} FireAfterLateGoesBack(ts: seq<TimerState>, acts: seq<Action>, k: nat, j: nat)
    requires IsRun(ts, acts) && k < j < |acts| && Late(ts[k], acts[k]) && acts[j].Fire?
    ensures !NonDecreasing(ts[j + 1].fired)
    decreases j
  {
    if j' :| k < j' < j && acts[j'].Fire? {
      FireAfterLateGoesBack(ts, acts, k, j');
      FiredGrows(ts, acts, j' + 1, j + 1);
      if NonDecreasing(ts[j + 1].fired) {
        PrefixOrder(ts[j' + 1].fired, ts[j + 1].fired);
      }
    } else {
      LateStaysQueued(ts, acts, k, j);
      hide Due, Busy, Late;
      assert ts[j + 1].fired == ts[k].fired + [ts[j].queue[acts[j].i].at];
      var n := |ts[k].fired|;
      assert ts[j + 1].fired[n - 1] == LastFired(ts[k]) > ts[j + 1].fired[n];
    }
  }

  lemma PrefixOrder(a: seq<int>, b: seq<int>)
    requires a <= b && NonDecreasing(b)
    ensures NonDecreasing(a)
  {
    assert forall i | 0 <= i < |a| :: a[i] == b[i];
  }

  /**
   * The order of firing, exactly: over any run, with any delays and any interleaving, the time points fired never go
   * back if and only if no entry fires after one was pushed that lies before a time point already fired.
   */
  lemma FiresInOrderIff(ts: seq<TimerState>, acts: seq<Action>, n: nat)
    requires IsRun(ts, acts) && n <= |acts|
    ensures NonDecreasing(ts[n].fired) <==> NoFireAfterLate(ts, acts, n)
  {
    if NoFireAfterLate(ts, acts, n) {
      InOrderWithoutLateFires(ts, acts, n);
    } else {
      var k, j :| 0 <= k < j < n && Late(ts[k], acts[k]) && acts[j].Fire?;
      FireAfterLateGoesBack(ts, acts, k, j);
      FiredGrows(ts, acts, j + 1, n);
      if NonDecreasing(ts[n].fired) {
        PrefixOrder(ts[j + 1].fired, ts[n].fired);
      }
    }
  }

  // ---------- which delays are long enough ----------

  /** A caller asks for a delay of at least `d` nanoseconds. */
  predicate DelayFrom(a: Action, d: int) {
    match a
    case StampDelayed(_, delta) => delta >= d
    case Register(_, delta) => delta >= d
    case _ => true
  }

  /** As the interface has it, the delay is a whole number of microseconds. */
  predicate WholeMicros(a: Action) {
    match a
    case StampDelayed(_, delta) => delta % 1000 == 0
    case Register(_, delta) => delta % 1000 == 0
    case _ => true
  }

  /** No post is between reading the clock and pushing its entry. */
  predicate Settled(t: TimerState) {
    t.stamped == [] && forall id | id in t.flights :: !t.flights[id].stage.Pushing?
  }

  /** Posts are in one piece as far as the timer thread can see. */
  predicate AtomicPosts(ts: seq<TimerState>, acts: seq<Action>)
    requires |ts| == |acts| + 1
  {
    forall i | 0 <= i < |acts| && acts[i].Fire? :: Settled(ts[i])
  }

  /** An entry fires less than 1000 nanoseconds early, so at 999 a later stamp is never before it. */
  const ENOUGH: int := 999

  predicate LongDelays(t: TimerState) {
    && (forall id | id in t.flights :: t.flights[id].delta >= ENOUGH)
    && (forall i | 0 <= i < |t.queue| && t.queue[i].owner.Again? :: t.queue[i].owner.delta >= ENOUGH)
    && (forall k | 0 <= k < |t.stamped| :: t.stamped[k].owner.Once?)
  }

  predicate StampsAhead(t: TimerState) {
    t.fired != [] ==>
      && LastFired(t) < t.now + 1000
      && (forall k | 0 <= k < |t.stamped| :: t.stamped[k].at >= LastFired(t))
      && (forall id | id in t.flights && t.flights[id].stage.Pushing? :: t.flights[id].stage.at >= LastFired(t))
  }

  lemma FireKeepsStamps(t: TimerState, i: nat)
    requires LongDelays(t) && StampsAhead(t) && Enabled(t, Fire(i)) && Settled(t)
    ensures LongDelays(Apply(t, Fire(i))) && StampsAhead(Apply(t, Fire(i)))
  {
    var t' := Apply(t, Fire(i));
    DueIsWithinAMicrosecond(t.queue[i], t.now);
    hide Due, Busy;
    assert forall j | 0 <= j < |t'.queue| :: t'.queue[j] == t.queue[if j < i then j else j + 1];
  }

  lemma AdvanceKeepsStamps(t: TimerState, id: nat)
    requires LongDelays(t) && StampsAhead(t) && id in t.flights
    ensures LongDelays(Apply(t, Advance(id))) && StampsAhead(Apply(t, Advance(id)))
  {
    hide RunsOf;
    var t' := Apply(t, Advance(id));
    assert t'.fired == t.fired && t'.now == t.now && t'.stamped == t.stamped;
  }

  lemma PushKeepsStamps(t: TimerState, k: nat)
    requires LongDelays(t) && StampsAhead(t) && k < |t.stamped|
    ensures LongDelays(Apply(t, PushDelayed(k))) && StampsAhead(Apply(t, PushDelayed(k)))
  {
    var t' := Apply(t, PushDelayed(k));
    assert forall j | 0 <= j < |t'.stamped| :: t'.stamped[j] == t.stamped[if j < k then j else j + 1];
  }

  lemma StepKeepsStamps(t: TimerState, a: Action)
    requires LongDelays(t) && StampsAhead(t) && Enabled(t, a) && DelayFrom(a, ENOUGH)
    requires a.Fire? ==> Settled(t)
    ensures LongDelays(Apply(t, a)) && StampsAhead(Apply(t, a))
  {
    match a
    case Fire(i) => FireKeepsStamps(t, i);
    case Advance(id) => AdvanceKeepsStamps(t, id);
    case PushDelayed(k) => PushKeepsStamps(t, k);
    case _ =>
  }

  lemma {:induction false} RunKeepsStamps(ts: seq<TimerState>, acts: seq<Action>, n: nat)
    requires IsRun(ts, acts) && n <= |acts| && AtomicPosts(ts, acts)
    requires forall i | 0 <= i < |acts| :: DelayFrom(acts[i], ENOUGH)
    ensures LongDelays(ts[n]) && StampsAhead(ts[n])
  {
    if n > 0 {
      RunKeepsStamps(ts, acts, n - 1);
      hide LongDelays, StampsAhead, Apply, Settled;
      StepKeepsStamps(ts[n - 1], acts[n - 1]);
    }
  }

  /**
   * When every delay is long enough and no entry fires while a post stands between its clock reading and its push, no
   * push is ever late, so the time points fired over a whole run never go back.
   */
  lemma FiresInOrder(ts: seq<TimerState>, acts: seq<Action>, n: nat)
    requires IsRun(ts, acts) && n <= |acts| && AtomicPosts(ts, acts)
    requires forall i | 0 <= i < |acts| :: DelayFrom(acts[i], ENOUGH)
    ensures NonDecreasing(ts[n].fired) && NoneLate(ts, acts, n)
  {
    forall k | 0 <= k < n
      ensures !Late(ts[k], acts[k])
    {
      RunKeepsStamps(ts, acts, k);
    }
    FiresInOrderIff(ts, acts, n);
  }

  ghost predicate KeepsOrder(ts: seq<TimerState>, acts: seq<Action>) {
    IsRun(ts, acts) ==> NonDecreasing(ts[|acts|].fired)
  }

  /** Over all runs with posts in one piece, 999 nanoseconds is the least delay that keeps the order. */
  lemma DelayBoundIff(d: int)
    ensures (forall ts: seq<TimerState>, acts: seq<Action> |
               IsRun(ts, acts) && AtomicPosts(ts, acts) && (forall i | 0 <= i < |acts| :: DelayFrom(acts[i], d)) ::
               KeepsOrder(ts, acts))
            <==> d >= ENOUGH
  {
    if d >= ENOUGH {
      forall ts: seq<TimerState>, acts: seq<Action> |
        IsRun(ts, acts) && AtomicPosts(ts, acts) && (forall i | 0 <= i < |acts| :: DelayFrom(acts[i], d))
        ensures KeepsOrder(ts, acts)
      {
        FiresInOrder(ts, acts, |acts|);
      }
    } else {
      var ts, acts := TwoDelays(0, ENOUGH, ENOUGH - 1);
      assert ts[|acts|].fired[0] > ts[|acts|].fired[1];
      assert !KeepsOrder(ts, acts);
    }
  }

  /** With delays of whole microseconds, as the interface takes them, the least one is one microsecond. */
  lemma MicrosecondBoundIff(micros: int)
    ensures (forall ts: seq<TimerState>, acts: seq<Action> |
               && IsRun(ts, acts) && AtomicPosts(ts, acts)
               && (forall i | 0 <= i < |acts| :: DelayFrom(acts[i], 1000 * micros) && WholeMicros(acts[i])) ::
               KeepsOrder(ts, acts))
            <==> micros >= 1
  {
    if micros >= 1 {
      forall ts: seq<TimerState>, acts: seq<Action> |
        && IsRun(ts, acts) && AtomicPosts(ts, acts)
        && (forall i | 0 <= i < |acts| :: DelayFrom(acts[i], 1000 * micros) && WholeMicros(acts[i]))
        ensures KeepsOrder(ts, acts)
      {
        FiresInOrder(ts, acts, |acts|);
      }
    } else {
      var ts, acts := TwoDelays(1, 1000, 0);
      assert ts[|acts|].fired[0] > ts[|acts|].fired[1];
      assert !KeepsOrder(ts, acts);
    }
  }

  /** A delay within the microsecond of tolerance breaks the order although every post is in one piece. */
  lemma ShortDelayFiresOutOfOrder() returns (ts: seq<TimerState>, acts: seq<Action>)
    ensures IsRun(ts, acts) && AtomicPosts(ts, acts)
    ensures forall i | 0 <= i < |acts| :: DelayFrom(acts[i], 0) && WholeMicros(acts[i])
    ensures ts[|acts|].fired == [1000, 1]
  {
    ts, acts := TwoDelays(1, 1000, 0);
  }
}
