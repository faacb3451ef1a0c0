/** What a stranded buffer does to `Flush`, exactly: when a swap made by `Log` can cost the next flush its barrier. */
module Barriers {
  import opened Pipeline
  import opened Handoff
  import opened Sessions
  import opened Schedules
  import opened Races
  import opened Drained
  import opened Stranding
  import RaceWitness

  /** `Flush` has just returned from its last wait, yet not everything pushed is in the files. */
  predicate FlushMissed(s: State) {
    |s.procs| == 1 && s.procs[0].FlushDone? && |Written(s.core)| < |s.core.pushed|
  }

  /** Some schedule without a further `Log` brings a `Flush` to its end with entries in no file. */
  ghost predicate CanMissFlush(cfg: Config, s: State)
    requires cfg.Sound()
  {
    exists acts: seq<Action> :: Possible(cfg, s, acts) && NoLogs(acts) && FlushMissed(After(cfg, s, acts))
  }

  // ---------- with a cache task pending ----------

  /** While one producer is inside the swap of its `Log` it begins no other. */
  lemma {:induction false} SwapHasNoLogs(cfg: Config, s: State, acts: seq<Action>)
    requires cfg.Sound() && |s.procs| == 1 && StaysInSwap(cfg, s, 0, acts)
    ensures NoLogs(acts)
    decreases |acts|
  {
    if acts != [] {
      StepKeepsCount(cfg, s, acts[0]);
      SwapHasNoLogs(cfg, Apply(cfg, s, acts[0]), acts[1..]);
      assert acts == [acts[0]] + acts[1..];
    }
  }

  /** The one producer takes the flag, and the pending cache task comes up before it exchanges. */
  lemma SoloReachesTask(cfg: Config, s: State) returns (acts: seq<Action>, u: State)
    requires cfg.Sound() && AboutToSwap(cfg, s, 0) && |s.procs| == 1 && PendingCache(s)
    ensures StaysInSwap(cfg, s, 0, acts) && Possible(cfg, s, acts) && After(cfg, s, acts) == u
    ensures Poised(u, 0, s.core.master.entries)
    ensures u == State(s.core.(free := false, queue := u.core.queue), CheckFlag, [SwapExchange(ByLog)], s.recovered)
  {
    acts := TakeFlag(cfg, s, 0);
    TakenIsPoised(cfg, s, 0);
    assert s.procs[0 := SwapExchange(ByLog)] == [SwapExchange(ByLog)];
    hide StaysInSwap, Possible, After, Inv, SignalsSound, EntriesBytes;
    var t := After(cfg, s, acts);
    if !s.worker.CheckFlag? {
      var down := WorkToCacheTask(cfg, t, 0, s.core.master.entries);
      StaysCompose(cfg, s, 0, acts, down);
      acts := acts + down;
    }
    u := After(cfg, s, acts);
    assert u.procs == [u.procs[0]];
  }

  /** The buffer of the one producer's swap ends behind a free flag, with nothing else changed but the queue. */
  lemma SoloStrands(cfg: Config, s: State) returns (acts: seq<Action>, queue: seq<Task>)
    requires cfg.Sound() && AboutToSwap(cfg, s, 0) && |s.procs| == 1 && PendingCache(s)
    ensures Possible(cfg, s, acts) && NoLogs(acts)
    ensures After(cfg, s, acts) == State(Exchange(s.core).(queue := queue), Resting, [SwapPost(ByLog)], s.recovered)
  {
    assert s.core.free;
    hide StaysInSwap, Possible, After, AboutToSwap, PendingCache, Poised;
    var u;
    acts, u := SoloReachesTask(cfg, s);
    queue := u.core.queue;
    var last := StrandFromCheckFlag(cfg, u, 0, s.core.master.entries);
    assert u.procs[0 := SwapPost(ByLog)] == [SwapPost(ByLog)];
    StaysCompose(cfg, s, 0, acts, last);
    acts := acts + last;
    SwapHasNoLogs(cfg, s, acts);
  }

  /** With the flag free the strand works off its queue and touches nothing else. */
  lemma {:induction false} DrainQueue(cfg: Config, s: State) returns (acts: seq<Action>)
    requires cfg.Sound() && s.worker.Resting? && s.core.free && s.procs == [Idle]
    ensures Possible(cfg, s, acts) && NoLogs(acts)
    ensures After(cfg, s, acts) == s.(core := s.core.(queue := []))
    decreases |s.core.queue|
  {
    acts := [];
    assert Possible(cfg, s, acts) && After(cfg, s, acts) == s;
    if s.core.queue != [] {
      hide Possible, After;
      var w, popped := Work(Unused()), s.(core := s.core.(queue := s.core.queue[1..]));
      if s.core.queue[0].CacheTask? {
        acts := Go(cfg, s, acts, w, popped.(worker := CheckFlag));
        acts := Go(cfg, s, acts, w, popped);
      } else {
        acts := Go(cfg, s, acts, w, popped);
      }
      var rest := DrainQueue(cfg, popped);
      Compose(cfg, s, acts, rest);
      acts := acts + rest;
    }
  }

  /** What was recovered is history: schedules do not depend on it. */
  lemma {:induction false} RecoveredIsHistory(cfg: Config, s: State, acts: seq<Action>, r: nat)
    requires cfg.Sound() && Possible(cfg, s, acts)
    ensures Possible(cfg, s.(recovered := r), acts)
    ensures After(cfg, s.(recovered := r), acts) == After(cfg, s, acts).(recovered := r)
    decreases |acts|
  {
    if acts != [] {
      StepIgnoresRecovered(cfg, s, acts[0], r);
      RecoveredIsHistory(cfg, Apply(cfg, s, acts[0]), acts[1..], r);
    }
  }

  lemma StepIgnoresRecovered(cfg: Config, s: State, a: Action, r: nat)
    requires cfg.Sound() && Enabled(cfg, s, a)
    ensures Enabled(cfg, s.(recovered := r), a)
    ensures Apply(cfg, s.(recovered := r), a) == Apply(cfg, s, a).(recovered := r)
  {
  }

  /** Then a flush finds nothing to write, and returns with the entries back in the master. */
  lemma StrandedFlush(cfg: Config, s: State) returns (acts: seq<Action>)
    requires cfg.Sound() && s.worker.Resting? && s.procs == [Idle] && s.core.queue == []
    requires s.core.free && s.core.slave.entries != [] && s.core.master.entries == []
    ensures Possible(cfg, s, acts) && NoLogs(acts)
    ensures var t := After(cfg, s, acts);
            t.procs == [FlushDone(|s.core.pushed|)] && t.core.files == s.core.files && t.core.pushed == s.core.pushed
  {
    acts := RaceWitness.FlushMissesStranded(cfg, s.core);
    hide Possible, After;
    RecoveredIsHistory(cfg, Calm(s.core), acts, s.recovered);
  }

  /** From the stranded buffer the producer posts, the strand comes to rest, and a flush misses what was stranded. */
  lemma StrandedMisses(cfg: Config, c: Core, r: nat) returns (acts: seq<Action>)
    requires cfg.Sound() && c.free && c.slave.entries != [] && c.master.entries == []
    ensures var s := State(c, Resting, [SwapPost(ByLog)], r);
            && Possible(cfg, s, acts) && NoLogs(acts)
            && var t := After(cfg, s, acts);
               t.procs == [FlushDone(|c.pushed|)] && t.core.files == c.files && t.core.pushed == c.pushed
  {
    var s, posted := State(c, Resting, [SwapPost(ByLog)], r), State(Post(c, CacheTask), Resting, [Idle], r);
    assert Possible(cfg, s, []) && After(cfg, s, []) == s;
    hide Possible, After;
    acts := Go(cfg, s, [], Move(0), posted);
    var next := DrainQueue(cfg, posted);
    Compose(cfg, s, acts, next);
    acts := acts + next;
    next := StrandedFlush(cfg, posted.(core := c.(queue := [])));
    Compose(cfg, s, acts, next);
    acts := acts + next;
  }

  lemma PendingMissesFlush(cfg: Config, s: State)
    requires cfg.Sound() && AboutToSwap(cfg, s, 0) && |s.procs| == 1 && PendingCache(s)
    ensures CanMissFlush(cfg, s)
  {
    SomethingUnwritten(cfg, s);
    hide Possible, After, AboutToSwap, PendingCache, EntriesOf, AllChunks;
    var acts, queue := SoloStrands(cfg, s);
    var next := StrandedMisses(cfg, Exchange(s.core).(queue := queue), s.recovered);
    Compose(cfg, s, acts, next);
    assert FlushMissed(After(cfg, s, acts + next));
  }

  /** Before the swap the slave is empty, and what it is about to hand over is in no file. */
  lemma SomethingUnwritten(cfg: Config, s: State)
    requires AboutToSwap(cfg, s, 0)
    ensures s.core.free && s.core.slave.entries == [] && |Written(s.core)| < |s.core.pushed|
    ensures s.core.master.entries != []
  {
    assert |Written(s.core)| + |Unwritten(s)| + |s.core.master.entries| == |s.core.pushed|;
  }

  // ---------- with none ----------

  /** A flush under way has to do with everything pushed so far. */
  predicate FlushesAll(s: State)
    requires |s.procs| == 1
  {
    Flushing(s.procs[0], MarkOf(s.procs[0])) ==> MarkOf(s.procs[0]) == |s.core.pushed|
  }

  lemma StepFlushesAll(cfg: Config, s: State, a: Action)
    requires cfg.Sound() && Enabled(cfg, s, a) && |s.procs| == 1 && FlushesAll(s)
    ensures |Apply(cfg, s, a).procs| == 1 && FlushesAll(Apply(cfg, s, a))
  {
    hide OpenChunk, FillChunk, EntriesBytes, AppendEntry, Payload, IsFull;
    if a.Work? {
      WorkBuffers(cfg, s, a.spare);
    } else if a.Move? && !s.procs[0].LogPush? {
      MoveKeepsHistory(cfg, s.core, s.procs[0]);
    }
  }

  lemma {:induction false} QuietNeverMisses(cfg: Config, s: State, acts: seq<Action>)
    requires cfg.Sound() && Inv(cfg, s) && |s.procs| == 1 && LogsQuietly(s) && FlushesAll(s)
    requires Possible(cfg, s, acts) && NoLogs(acts)
    ensures !FlushMissed(After(cfg, s, acts))
    decreases |acts|
  {
    hide Inv, LogsQuietly, FlushesAll, RaceFree, FlushMissed;
    if acts == [] {
      DoneMissesNothing(cfg, s);
    } else {
      QuietStepIsRaceFree(s, acts[0]);
      StepKeepsInv(cfg, s, acts[0]);
      QuietStepKeeps(cfg, s, acts[0]);
      StepFlushesAll(cfg, s, acts[0]);
      QuietNeverMisses(cfg, Apply(cfg, s, acts[0]), acts[1..]);
    }
  }

  lemma DoneMissesNothing(cfg: Config, s: State)
    requires Inv(cfg, s) && |s.procs| == 1 && FlushesAll(s)
    ensures !FlushMissed(s)
  {
    hide EntriesOf, AllChunks;
    assert Progress(s, 0);
  }

  lemma AboutToSwapIsQuiet(cfg: Config, s: State)
    requires AboutToSwap(cfg, s, 0) && |s.procs| == 1 && !PendingCache(s)
    ensures LogsQuietly(s) && FlushesAll(s)
  {
    assert forall i | 0 <= i < |s.core.queue| :: !s.core.queue[i].Signal?;
  }

  /**
   * With one producer about to swap, some schedule without any further `Log` ends a `Flush` with entries in no file if
   * and only if an earlier cache task is still pending on the strand.
   */
  lemma FlushMissesIff(cfg: Config, s: State)
    requires cfg.Sound() && AboutToSwap(cfg, s, 0) && |s.procs| == 1
    ensures CanMissFlush(cfg, s) <==> PendingCache(s)
  {
    if PendingCache(s) {
      PendingMissesFlush(cfg, s);
    } else {
      AboutToSwapIsQuiet(cfg, s);
      forall acts: seq<Action> | Possible(cfg, s, acts) && NoLogs(acts)
        ensures !FlushMissed(After(cfg, s, acts))
      {
        QuietNeverMisses(cfg, s, acts);
      }
    }
  }
}
