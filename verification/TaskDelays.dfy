/** A repeated task keeps its delay: every round is due one delay after the round before (logger/scheduler/scheduler.cc:89-125). */
module TaskDelays {
  import opened Timers

  /** The id was handed out before action `n`, to a caller that asked for this delay. */
  ghost predicate AskedFor(ts: seq<TimerState>, acts: seq<Action>, n: nat, id: nat, delta: int)
    requires n <= |acts| && |ts| == |acts| + 1
  {
    exists k | 0 <= k < n :: ts[k].next == id && acts[k].Register? && acts[k].delta == delta
  }

  /** The time point is one delay after the clock as it was read when a round of the task had just run. */
  ghost predicate TimedBy(ts: seq<TimerState>, acts: seq<Action>, n: nat, id: nat, delta: int, at: int)
    requires n <= |acts| && |ts| == |acts| + 1
  {
    exists k | 0 <= k < n ::
      && acts[k] == Advance(id) && id in ts[k].flights && ts[k].flights[id].stage.Stamping?
      && at == ts[k].now + delta
  }

  ghost predicate DelaysKept(ts: seq<TimerState>, acts: seq<Action>, n: nat)
    requires n <= |acts| && |ts| == |acts| + 1
  {
    && (forall id | id in ts[n].flights ::
          && AskedFor(ts, acts, n, id, ts[n].flights[id].delta)
          && (ts[n].flights[id].stage.Pushing? ==>
                TimedBy(ts, acts, n, id, ts[n].flights[id].delta, ts[n].flights[id].stage.at)))
    && (forall i | 0 <= i < |ts[n].queue| && ts[n].queue[i].owner.Again? ::
          var e := ts[n].queue[i];
          AskedFor(ts, acts, n, e.owner.id, e.owner.delta) && TimedBy(ts, acts, n, e.owner.id, e.owner.delta, e.at))
  }

  lemma LaterStill(ts: seq<TimerState>, acts: seq<Action>, n: nat, id: nat, delta: int, at: int)
    requires n < |acts| && |ts| == |acts| + 1
    ensures AskedFor(ts, acts, n, id, delta) ==> AskedFor(ts, acts, n + 1, id, delta)
    ensures TimedBy(ts, acts, n, id, delta, at) ==> TimedBy(ts, acts, n + 1, id, delta, at)
  {
  }

  /** How a step may come by a flight. */
  predicate FlightTracked(t: TimerState, a: Action, t': TimerState, id: nat)
    requires id in t'.flights && (a.Fire? ==> a.i < |t.queue|)
  {
    var f := t'.flights[id];
    if id in t.flights then
      && f.delta == t.flights[id].delta
      && (f.stage.Pushing? ==>
            || f == t.flights[id]
            || (a == Advance(id) && t.flights[id].stage.Stamping? && f.stage.at == t.now + f.delta))
    else
      || (a.Register? && id == t.next && f.stage.Inserting? && f.delta == a.delta)
      || (a.Fire? && t.queue[a.i].owner.Again? && id == t.queue[a.i].owner.id && f.stage.Testing?
          && f.delta == t.queue[a.i].owner.delta)
  }

  /** How it may come by a queue entry of a repeated task. */
  predicate EntryTracked(t: TimerState, a: Action, e: Entry) {
    || e in t.queue
    || (a.Advance? && a.id in t.flights && t.flights[a.id].stage.Pushing? && e.owner.Again?
        && e.owner.id == a.id && e.owner.delta == t.flights[a.id].delta && e.at == t.flights[a.id].stage.at)
  }

  ghost predicate Tracked(t: TimerState, a: Action, t': TimerState)
    requires Enabled(t, a)
  {
    && (forall id | id in t'.flights :: FlightTracked(t, a, t', id))
    && (forall i | 0 <= i < |t'.queue| && t'.queue[i].owner.Again? :: EntryTracked(t, a, t'.queue[i]))
  }

  lemma AdvanceTracks(t: TimerState, id: nat)
    requires id in t.flights
    ensures Tracked(t, Advance(id), AdvanceFlight(t, id))
  {
    hide RunsOf;
  }

  lemma FireTracks(t: TimerState, i: nat)
    requires Enabled(t, Fire(i)) && OnePlace(t)
    ensures Tracked(t, Fire(i), Apply(t, Fire(i)))
  {
    hide Due, Busy, OneEntry;
    var t' := Apply(t, Fire(i));
    assert forall j | 0 <= j < |t'.queue| :: t'.queue[j] == t.queue[if j < i then j else j + 1];
  }

  lemma StepTracks(t: TimerState, a: Action)
    requires Enabled(t, a) && OnePlace(t)
    ensures Tracked(t, a, Apply(t, a))
  {
    hide OneEntry, AdvanceFlight, Due, Busy;
    if a.Advance? {
      hide Tracked;
      AdvanceTracks(t, a.id);
    } else if a.Fire? {
      FireTracks(t, a.i);
    }
  }

  lemma StepKeepsFlightDelays(ts: seq<TimerState>, acts: seq<Action>, n: nat, id: nat)
    requires IsRun(ts, acts) && n < |acts| && DelaysKept(ts, acts, n) && OnePlace(ts[n]) && id in ts[n + 1].flights
    ensures AskedFor(ts, acts, n + 1, id, ts[n + 1].flights[id].delta)
    ensures ts[n + 1].flights[id].stage.Pushing? ==>
              TimedBy(ts, acts, n + 1, id, ts[n + 1].flights[id].delta, ts[n + 1].flights[id].stage.at)
  {
    var t, t', a := ts[n], ts[n + 1], acts[n];
    var f := t'.flights[id];
    StepTracks(t, a);
    assert FlightTracked(t, a, t', id);
    hide Apply, OnePlace;
    LaterStill(ts, acts, n, id, f.delta, if f.stage.Pushing? then f.stage.at else 0);
    if id !in t.flights && a.Fire? {
      assert AskedFor(ts, acts, n, id, t.queue[a.i].owner.delta);
    }
  }

  lemma StepKeepsQueueDelays(ts: seq<TimerState>, acts: seq<Action>, n: nat, i: nat)
    requires IsRun(ts, acts) && n < |acts| && DelaysKept(ts, acts, n) && OnePlace(ts[n])
    requires i < |ts[n + 1].queue| && ts[n + 1].queue[i].owner.Again?
    ensures var e := ts[n + 1].queue[i];
            && AskedFor(ts, acts, n + 1, e.owner.id, e.owner.delta)
            && TimedBy(ts, acts, n + 1, e.owner.id, e.owner.delta, e.at)
  {
    var e := ts[n + 1].queue[i];
    StepTracks(ts[n], acts[n]);
    assert EntryTracked(ts[n], acts[n], e);
    hide Apply, OnePlace;
    LaterStill(ts, acts, n, e.owner.id, e.owner.delta, e.at);
    if e in ts[n].queue {
      var j :| 0 <= j < |ts[n].queue| && ts[n].queue[j] == e;
    }
  }

  /**
   * In every state of every run each entry and each round under way of a repeated task has the delay that its caller asked
   * for, and each time point is exactly one such delay after the clock as read when the round before had run.
   */
  lemma {:induction false} DelaysAreKept(ts: seq<TimerState>, acts: seq<Action>, n: nat)
    requires IsRun(ts, acts) && n <= |acts|
    ensures DelaysKept(ts, acts, n)
  {
    hide Apply, OnePlace, AskedFor, TimedBy;
    if n > 0 {
      DelaysAreKept(ts, acts, n - 1);
      RunKeepsRepeatInv(ts, acts, n - 1);
      forall id | id in ts[n].flights
        ensures AskedFor(ts, acts, n, id, ts[n].flights[id].delta)
        ensures ts[n].flights[id].stage.Pushing? ==>
                  TimedBy(ts, acts, n, id, ts[n].flights[id].delta, ts[n].flights[id].stage.at)
      {
        StepKeepsFlightDelays(ts, acts, n - 1, id);
      }
      forall i | 0 <= i < |ts[n].queue| && ts[n].queue[i].owner.Again?
        ensures var e := ts[n].queue[i];
                AskedFor(ts, acts, n, e.owner.id, e.owner.delta) && TimedBy(ts, acts, n, e.owner.id, e.owner.delta, e.at)
      {
        StepKeepsQueueDelays(ts, acts, n - 1, i);
      }
    }
  }

  // ---------- one delay for each task ----------

  lemma {:induction false} IdsGrow(ts: seq<TimerState>, acts: seq<Action>, i: nat, j: nat)
    requires IsRun(ts, acts) && i <= j <= |acts|
    ensures ts[i].next <= ts[j].next
  {
    if i < j {
      IdsGrow(ts, acts, i, j - 1);
    }
  }

  /** An id is handed out once, so there is one delay to keep. */
  lemma AskedForOnce(ts: seq<TimerState>, acts: seq<Action>, n: nat, id: nat, delta: int, other: int)
    requires IsRun(ts, acts) && n <= |acts|
    requires AskedFor(ts, acts, n, id, delta) && AskedFor(ts, acts, n, id, other)
    ensures delta == other
  {
    var k :| 0 <= k < n && ts[k].next == id && acts[k].Register? && acts[k].delta == delta;
    var m :| 0 <= m < n && ts[m].next == id && acts[m].Register? && acts[m].delta == other;
    assert ts[k + 1] == Apply(ts[k], acts[k]) && ts[m + 1] == Apply(ts[m], acts[m]);
    if k < m {
      IdsGrow(ts, acts, k + 1, m);
    } else if m < k {
      IdsGrow(ts, acts, m + 1, k);
    }
  }

  // ---------- rounds are spaced ----------

  /** A round of the task ran at `since`: wherever the task is now, its next round cannot run before its delay is over. */
  predicate Spaced(t: TimerState, id: nat, since: int, delta: int) {
    && id < t.next && t.now >= since
    && (id in t.flights ==>
          && t.flights[id].delta == delta
          && match t.flights[id].stage
             case Inserting(_) => false
             case Stamping(_) => true
             case Pushing(_, at) => at >= since + delta
             case _ => t.now > since + delta - 1000)
    && (forall i | 0 <= i < |t.queue| && t.queue[i].owner.Again? && t.queue[i].owner.id == id ::
          t.queue[i].owner.delta == delta && t.queue[i].at >= since + delta)
  }

  lemma FireKeepsSpaced(t: TimerState, i: nat, id: nat, since: int, delta: int)
    requires OnePlace(t) && Spaced(t, id, since, delta) && Enabled(t, Fire(i))
    ensures Spaced(Apply(t, Fire(i)), id, since, delta)
  {
    DueIsWithinAMicrosecond(t.queue[i], t.now);
    hide Due, Busy, OneEntry;
    var t' := Apply(t, Fire(i));
    assert forall j | 0 <= j < |t'.queue| :: t'.queue[j] == t.queue[if j < i then j else j + 1];
  }

  lemma AdvanceKeepsSpaced(t: TimerState, other: nat, id: nat, since: int, delta: int)
    requires Spaced(t, id, since, delta) && other in t.flights
    ensures Spaced(AdvanceFlight(t, other), id, since, delta)
  {
    hide RunsOf;
  }

  lemma StepKeepsSpaced(t: TimerState, a: Action, id: nat, since: int, delta: int)
    requires OnePlace(t) && Spaced(t, id, since, delta) && Enabled(t, a)
    ensures Spaced(Apply(t, a), id, since, delta)
  {
    hide OneEntry, Due, Busy, AdvanceFlight;
    match a
    case Fire(i) => FireKeepsSpaced(t, i, id, since, delta);
    case Advance(other) => AdvanceKeepsSpaced(t, other, id, since, delta);
    case _ =>
  }

  lemma {:induction false} RunStaysSpaced(ts: seq<TimerState>, acts: seq<Action>, i: nat, j: nat, id: nat)
    requires IsRun(ts, acts) && i < j <= |acts|
    requires acts[i] == Advance(id) && id in ts[i].flights && ts[i].flights[id].stage.Running?
    ensures Spaced(ts[j], id, ts[i].now, ts[i].flights[id].delta)
    decreases j
  {
    RunKeepsRepeatInv(ts, acts, j - 1);
    if j == i + 1 {
      FirstSpaced(ts[i], id);
    } else {
      RunStaysSpaced(ts, acts, i, j - 1, id);
      hide Apply, OnePlace, Spaced;
      StepKeepsSpaced(ts[j - 1], acts[j - 1], id, ts[i].now, ts[i].flights[id].delta);
    }
  }

  lemma FirstSpaced(t: TimerState, id: nat)
    requires OnePlace(t) && id in t.flights && t.flights[id].stage.Running?
    ensures Spaced(AdvanceFlight(t, id), id, t.now, t.flights[id].delta)
  {
    hide RunsOf, OneEntry;
  }

  /**
   * Two rounds of a repeated task never run closer together than the delay its caller asked for, but for the microsecond
   * that the timer's test lets pass, in any run and whatever else is posted or cancelled meanwhile.
   */
  lemma RoundsAreSpaced(ts: seq<TimerState>, acts: seq<Action>, i: nat, j: nat, id: nat)
    requires IsRun(ts, acts) && i < j < |acts| && acts[i] == acts[j] == Advance(id)
    requires id in ts[i].flights && ts[i].flights[id].stage.Running?
    requires id in ts[j].flights && ts[j].flights[id].stage.Running?
    ensures exists delta :: AskedFor(ts, acts, i, id, delta) && ts[j].now > ts[i].now + delta - 1000
  {
    hide Apply, AskedFor, TimedBy;
    DelaysAreKept(ts, acts, i);
    RunStaysSpaced(ts, acts, i, j, id);
    assert AskedFor(ts, acts, i, id, ts[i].flights[id].delta);
  }
}
