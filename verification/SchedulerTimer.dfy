/** The timer's own methods, each an uninterrupted stretch of the step machine (logger/scheduler/scheduler.cc:51-136). */
module SchedulerTimers {
  import T = Timers

  /** What one whole call of `PostRepeatedTask_` leaves: its three branches, seen from outside. */
  ghost function AfterRound(t: T.TimerState, id: nat, n: nat, delta: int): T.TimerState {
    if n == 0 then t.(live := t.live - {id})
    else if id !in t.live then t
    else t.(runs := t.runs[id := T.RunsOf(t, id) + 1],
            queue := t.queue + [T.Entry(T.Again(id, n - 1, delta), t.now + delta)])
  }

  lemma OneMore(ts: seq<T.TimerState>, acts: seq<T.Action>, id: nat) returns (ts': seq<T.TimerState>, acts': seq<T.Action>)
    requires T.IsRun(ts, acts) && id in ts[|acts|].flights
    ensures T.IsRun(ts', acts') && ts <= ts' && acts <= acts'
    ensures ts'[|acts'|] == T.AdvanceFlight(ts[|acts|], id)
  {
    ts', acts' := ts + [T.AdvanceFlight(ts[|acts|], id)], acts + [T.Advance(id)];
  }

  /** From the last stages of a round that runs its task. */
  lemma RunningRoundIsRun(ts: seq<T.TimerState>, acts: seq<T.Action>, id: nat, n: nat, delta: int)
    returns (ts': seq<T.TimerState>, acts': seq<T.Action>)
    requires T.IsRun(ts, acts) && n > 0 && id in ts[|acts|].flights
    requires ts[|acts|].flights[id].stage == T.Running(n) && ts[|acts|].flights[id].delta == delta
    ensures T.IsRun(ts', acts') && ts <= ts' && acts <= acts'
    ensures var t := T.Ends(ts[|acts|], id);
            ts'[|acts'|] == t.(runs := t.runs[id := T.RunsOf(t, id) + 1],
                               queue := t.queue + [T.Entry(T.Again(id, n - 1, delta), t.now + delta)])
  {
    ghost var flights := ts[|acts|].flights;
    ts', acts' := OneMore(ts, acts, id);
    ts', acts' := OneMore(ts', acts', id);
    assert ts'[|acts'|].flights[id].stage == T.Pushing(n - 1, ts[|acts|].now + delta);
    assert ts'[|acts'|].flights - {id} == flights - {id};
    ts', acts' := OneMore(ts', acts', id);
  }

  /** A call of `PostRepeatedTask_` is a stretch of an ordinary run, so what is proved of runs holds around it. */
  lemma RoundIsRun(ts: seq<T.TimerState>, acts: seq<T.Action>, id: nat, n: nat, delta: int)
    returns (ts': seq<T.TimerState>, acts': seq<T.Action>)
    requires T.IsRun(ts, acts) && id in ts[|acts|].flights
    requires ts[|acts|].flights[id].stage == T.Testing(n) && ts[|acts|].flights[id].delta == delta
    ensures T.IsRun(ts', acts') && ts <= ts' && acts <= acts'
    ensures ts'[|acts'|] == AfterRound(T.Ends(ts[|acts|], id), id, n, delta)
  {
    ghost var flights := ts[|acts|].flights;
    ts', acts' := OneMore(ts, acts, id);
    assert ts'[|acts'|].flights - {id} == flights - {id};
    ts', acts' := OneMore(ts', acts', id);
    if n > 0 && id in ts[|acts|].live {
      assert ts'[|acts'|].flights - {id} == flights - {id};
      ts', acts' := RunningRoundIsRun(ts', acts', id, n, delta);
    }
  }

  // ---------- whole calls are stretches of runs ----------

  ghost predicate EndsIn(ts: seq<T.TimerState>, acts: seq<T.Action>, t: T.TimerState) {
    T.IsRun(ts, acts) && ts[|acts|] == t
  }

  ghost predicate GoesOnTo(ts: seq<T.TimerState>, acts: seq<T.Action>, t: T.TimerState) {
    exists ts', acts' :: EndsIn(ts', acts', t) && ts <= ts' && acts <= acts'
  }

  /** Every run of the machine that has come to `s` goes on to `t`. */
  ghost predicate Continues(s: T.TimerState, t: T.TimerState) {
    forall ts, acts | EndsIn(ts, acts, s) :: GoesOnTo(ts, acts, t)
  }

  lemma Step(s: T.TimerState, a: T.Action)
    requires T.Enabled(s, a)
    ensures Continues(s, T.Apply(s, a))
  {
    hide T.Apply, T.Enabled;
    forall ts, acts | EndsIn(ts, acts, s) ensures GoesOnTo(ts, acts, T.Apply(s, a)) {
      var ts', acts' := T.OneStep(ts, acts, a, T.Apply(s, a));
      assert EndsIn(ts', acts', T.Apply(s, a));
    }
  }

  lemma Chain(s: T.TimerState, t: T.TimerState, u: T.TimerState)
    requires Continues(s, t) && Continues(t, u)
    ensures Continues(s, u)
  {
    hide EndsIn;
    forall ts, acts | EndsIn(ts, acts, s) ensures GoesOnTo(ts, acts, u) {
      var ts', acts' :| EndsIn(ts', acts', t) && ts <= ts' && acts <= acts';
      var ts'', acts'' :| EndsIn(ts'', acts'', u) && ts' <= ts'' && acts' <= acts'';
      Prefixes(ts, ts', ts'');
      Prefixes(acts, acts', acts'');
    }
  }

  lemma Prefixes<A>(a: seq<A>, b: seq<A>, c: seq<A>)
    requires a <= b && b <= c
    ensures a <= c
  {
  }

  /** A round about to be tested is carried through. */
  lemma RoundContinues(s: T.TimerState, id: nat, n: nat, delta: int)
    requires id in s.flights && s.flights[id].stage == T.Testing(n) && s.flights[id].delta == delta
    ensures Continues(s, AfterRound(T.Ends(s, id), id, n, delta))
  {
    hide AfterRound;
    forall ts, acts | EndsIn(ts, acts, s) ensures GoesOnTo(ts, acts, AfterRound(T.Ends(s, id), id, n, delta)) {
      var ts', acts' := RoundIsRun(ts, acts, id, n, delta);
      assert EndsIn(ts', acts', AfterRound(T.Ends(s, id), id, n, delta));
    }
  }

  /** A registered task's first round, from the clock reading on. */
  lemma PostContinues(s: T.TimerState, n: nat, delta: int)
    ensures var inserted := T.Apply(T.Apply(s, T.Register(n, delta)), T.Advance(s.next));
            Continues(s, AfterRound(T.Ends(inserted, s.next), s.next, n, delta))
  {
    var registered := T.Apply(s, T.Register(n, delta));
    var inserted := T.Apply(registered, T.Advance(s.next));
    Step(s, T.Register(n, delta));
    Step(registered, T.Advance(s.next));
    hide Continues, AfterRound;
    Chain(s, registered, inserted);
    RoundContinues(inserted, s.next, n, delta);
    Chain(s, inserted, AfterRound(T.Ends(inserted, s.next), s.next, n, delta));
  }

  /** What a turn of the loop leaves that takes the entry `i`. */
  ghost function AfterTurn(s: T.TimerState, i: nat): T.TimerState
    requires T.Enabled(s, T.Fire(i))
  {
    var popped := T.Apply(s, T.Fire(i));
    match s.queue[i].owner
    case Once(_) => popped
    case Again(id, n, delta) => AfterRound(T.Ends(popped, id), id, n, delta)
  }

  /** A turn that takes an entry. */
  lemma TurnContinues(s: T.TimerState, i: nat)
    requires T.Enabled(s, T.Fire(i))
    ensures Continues(s, AfterTurn(s, i))
  {
    var popped := T.Apply(s, T.Fire(i));
    Step(s, T.Fire(i));
    match s.queue[i].owner {
      case Once(_) =>
      case Again(id, n, delta) =>
        hide Continues, AfterRound;
        RoundContinues(popped, id, n, delta);
        Chain(s, popped, AfterTurn(s, i));
    }
  }

  class Timer {
    var queue: seq<T.Entry>
    var live: set<nat>
    var next: nat
    var now: int // the clock as last read
    ghost var runs: map<nat, nat>
    ghost var initial: map<nat, nat>
    ghost var cancelled: set<nat>
    ghost var fired: seq<int>

    /** The machine's state between two calls. */
    ghost function State(): T.TimerState
      reads this
    {
      T.TimerState(queue, live, next, map[], [], now, runs, initial, cancelled, fired)
    }

    constructor (start: int)
      ensures State() == T.Fresh(start)
    {
      queue, live, next := [], {}, 0;
      now, runs, initial, cancelled, fired := start, map[], map[], {}, [];
    }

    method PostDelayedTask(task: nat, delta: int, clock: int)
      requires now <= clock
      modifies this
      ensures var s := T.Apply(T.Apply(old(State()), T.Tick(clock)), T.StampDelayed(task, delta));
              |s.stamped| == 1 && State() == T.Apply(s, T.PushDelayed(0))
      ensures Continues(old(State()), State())
      ensures queue == old(queue) + [T.Entry(T.Once(task), clock + delta)]
    {
      ghost var ticked := T.Apply(State(), T.Tick(clock));
      ghost var stamped := T.Apply(ticked, T.StampDelayed(task, delta));
      Step(State(), T.Tick(clock));
      Step(ticked, T.StampDelayed(task, delta));
      Step(stamped, T.PushDelayed(0));
      Chain(State(), ticked, stamped);
      Chain(State(), stamped, T.Apply(stamped, T.PushDelayed(0)));
      hide Continues;
      now := clock;
      var e := T.Entry(T.Once(task), clock + delta);
      queue := queue + [e];
    }

    /** Every id handed out is stopped for good from here on, and the counts of all tasks still hold. */
    method CancelRepeatedTask(id: nat)
      modifies this`live, this`cancelled
      ensures State() == T.Apply(old(State()), T.Cancel(id))
      ensures id < next ==> T.Stopped(State(), id)
      ensures old(T.RepeatInv(State())) ==> T.RepeatInv(State())
    {
      if T.RepeatInv(State()) {
        T.CancelKeepsRepeatInv(State(), id);
      }
      live := live - {id};
      cancelled := cancelled + {id};
    }

    /** One call of `PostRepeatedTask_`: `n` is the rounds left, counting this one. */
    method PostRepeatedRound(id: nat, n: nat, delta: int) returns (ran: bool)
      modifies this`queue, this`live, this`runs
      ensures State() == AfterRound(old(State()), id, n, delta)
      ensures ran <==> n > 0 && id in old(live)
    {
      ran := false;
      if n == 0 {
        live := live - {id};
        return;
      }
      if id !in live {
        return;
      }
      ran := true;
      runs := runs[id := T.RunsOf(State(), id) + 1];
      var e := T.Entry(T.Again(id, n - 1, delta), now + delta);
      queue := queue + [e];
    }

    method PostRepeatedTask(n: nat, delta: int) returns (id: nat)
      modifies this
      ensures id == old(next)
      ensures var registered := T.Apply(old(State()), T.Register(n, delta));
              State() == AfterRound(T.Ends(T.Apply(registered, T.Advance(id)), id), id, n, delta)
      ensures Continues(old(State()), State())
      ensures queue == old(queue) + if n == 0 then [] else [T.Entry(T.Again(id, n - 1, delta), now + delta)]
    {
      PostContinues(State(), n, delta);
      hide Continues;
      ghost var registered := T.Apply(State(), T.Register(n, delta));
      id := next;
      next := next + 1;
      runs, initial := runs[id := 0], initial[id := n];
      live := live + {id};
      assert T.Ends(T.Apply(registered, T.Advance(id)), id).flights == map[];
      var ran := PostRepeatedRound(id, n, delta);
    }

    /** One turn of the timer thread's loop: it sleeps, or takes an earliest entry that is due and runs it. */
    method RunOnce(clock: int) returns (took: bool, i: nat)
      requires now <= clock
      modifies this
      ensures var s := T.Apply(old(State()), T.Tick(clock));
              if took then
                && T.Enabled(s, T.Fire(i))
                && State() == AfterTurn(s, i)
              else State() == s
      ensures Continues(old(State()), State())
      ensures took <==> exists j | 0 <= j < |old(queue)| :: T.Due(old(queue)[j], clock)
    {
      ghost var before := State();
      Step(before, T.Tick(clock));
      hide Continues;
      now := clock;
      took, i := false, 0;
      if |queue| == 0 {
        return;
      }
      SomeEntryIsEarliest(queue);
      var top: nat :| T.Earliest(queue, top);
      i := top;
      EarliestDecides(queue, i, clock);
      if !T.Due(queue[i], clock) {
        return;
      }
      took := true;
      ghost var s := State();
      TurnContinues(s, i);
      Chain(before, s, AfterTurn(s, i));
      var owner := queue[i].owner;
      fired := fired + [queue[i].at];
      queue := T.Without(queue, i);
      match owner {
        case Once(_) =>
        case Again(id, n, delta) =>
          assert T.Ends(T.Apply(s, T.Fire(i)), id) == State();
          var ran := PostRepeatedRound(id, n, delta);
      }
    }
  }

  lemma {:induction false} SomeEntryIsEarliest(queue: seq<T.Entry>)
    requires |queue| > 0
    ensures exists i: nat :: T.Earliest(queue, i)
  {
    var n := |queue| - 1;
    if n == 0 {
      assert T.Earliest(queue, 0);
    } else {
      SomeEntryIsEarliest(queue[..n]);
      var i: nat :| T.Earliest(queue[..n], i);
      assert forall j | 0 <= j < n :: queue[..n][j] == queue[j];
      assert T.Earliest(queue, if queue[n].at < queue[i].at then n else i);
    }
  }

  /** An entry is due exactly when the earliest one is. */
  lemma EarliestDecides(queue: seq<T.Entry>, i: nat, clock: int)
    requires T.Earliest(queue, i)
    ensures T.Due(queue[i], clock) <==> exists j | 0 <= j < |queue| :: T.Due(queue[j], clock)
  {
    forall j | 0 <= j < |queue|
      ensures T.Due(queue[j], clock) ==> T.Due(queue[i], clock)
    {
      T.DueIsWithinAMicrosecond(queue[j], clock);
      T.DueIsWithinAMicrosecond(queue[i], clock);
    }
  }
}
