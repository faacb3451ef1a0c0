/** The object's methods are runs of the step machine in which nobody else takes a step. */
module Uninterrupted {
  import opened Bytes
  import opened Pipeline
  import opened Schedules
  import opened AtomicSwaps
  import opened EffectiveSinks

  /** Where a producer goes on once its swap has posted. */
  function AfterSwap(why: Why): Proc {
    if why.ByFlush? then SignalLast(why.mark) else Idle
  }

  /** A producer's swap, from its test to its post, whoever else is in the middle of something else. */
  lemma SwapIsRun(cfg: Config, s: State, p: nat, why: Why) returns (acts: seq<Action>)
    requires cfg.Sound() && p < |s.procs| && s.procs[p] == SwapLoad(why) && !Storing(s.procs)
    ensures Leads(cfg, s, acts,
                  s.(core := Post(SwapCore(s.core), CacheTask), procs := s.procs[p := AfterSwap(why)]))
  {
    var swapped := s.(core := SwapCore(s.core), procs := s.procs[p := SwapPost(why)]);
    LeadsNowhere(cfg, s);
    hide Leads, Storing, Exchanging;
    if s.core.free {
      acts := SwapLeads(cfg, s, p);
    } else {
      acts := Step(cfg, s, [], s, Move(p), swapped);
    }
    acts := Step(cfg, s, acts, swapped, Move(p),
                 s.(core := Post(SwapCore(s.core), CacheTask), procs := s.procs[p := AfterSwap(why)]));
  }

  lemma SwapAlone(cfg: Config, s: State, why: Why) returns (acts: seq<Action>)
    requires cfg.Sound() && s.procs == [SwapLoad(why)]
    ensures Leads(cfg, s, acts, s.(core := Post(SwapCore(s.core), CacheTask), procs := [AfterSwap(why)]))
  {
    hide Leads;
    acts := SwapIsRun(cfg, s, 0, why);
    assert s.procs[0 := AfterSwap(why)] == [AfterSwap(why)];
  }

  lemma PushIsRun(cfg: Config, c: Core, msg: Bytes) returns (acts: seq<Action>)
    requires cfg.Sound() && Fits(cfg, c, msg)
    ensures var pushed := Push(cfg, c, msg);
            Leads(cfg, At(c, LogPush(msg)), acts,
                  if Payload(cfg, c.session, msg) == [] || !IsFull(pushed.master) then Calm(pushed)
                  else Calm(Post(SwapCore(pushed), CacheTask)))
  {
    var s, pushed := At(c, LogPush(msg)), Push(cfg, c, msg);
    acts := [];
    LeadsNowhere(cfg, s);
    hide Leads, Payload, AppendEntry, IsFull;
    if Payload(cfg, c.session, msg) == [] {
      acts := Step(cfg, s, acts, s, Move(0), Calm(pushed));
    } else {
      acts := Step(cfg, s, acts, s, Move(0), At(pushed, LogRatio));
      if IsFull(pushed.master) {
        acts := Step(cfg, s, acts, At(pushed, LogRatio), Move(0), At(pushed, SwapLoad(ByLog)));
        var next := SwapAlone(cfg, At(pushed, SwapLoad(ByLog)), ByLog);
        LeadsOn(cfg, s, acts, At(pushed, SwapLoad(ByLog)), next, Calm(Post(SwapCore(pushed), CacheTask)));
        acts := acts + next;
      } else {
        acts := Step(cfg, s, acts, At(pushed, LogRatio), Move(0), Calm(pushed));
      }
    }
  }

  /** A call of the object's `Log` is a race-free run of the machine's producer, alone. */
  lemma LogIsRun(cfg: Config, c: Core, msg: Bytes) returns (acts: seq<Action>)
    requires cfg.Sound() && Fits(cfg, if c.master.entries == [] then c.(session := []) else c, msg)
    ensures Leads(cfg, Calm(c), acts, Calm(LogCore(cfg, c, msg)))
  {
    var ready := if c.master.entries == [] then c.(session := []) else c;
    var next := PushIsRun(cfg, ready, msg);
    acts := [];
    LeadsNowhere(cfg, Calm(c));
    hide Leads, Payload, AppendEntry, IsFull;
    acts := Step(cfg, Calm(c), acts, Calm(c), BeginLog(0, msg), At(c, LogStart(msg)));
    if c.master.entries == [] {
      acts := Step(cfg, Calm(c), acts, At(c, LogStart(msg)), Move(0), At(c, LogReset(msg)));
      acts := Step(cfg, Calm(c), acts, At(c, LogReset(msg)), Move(0), At(ready, LogPush(msg)));
    } else {
      acts := Step(cfg, Calm(c), acts, At(c, LogStart(msg)), Move(0), At(ready, LogPush(msg)));
    }
    LeadsOn(cfg, Calm(c), acts, At(ready, LogPush(msg)), next, Calm(LogCore(cfg, c, msg)));
    acts := acts + next;
  }

  /** A call of the object's `CacheToFile` is a run of the machine's strand, with no producer inside its swap. */
  lemma CacheIsRun(cfg: Config, s: State, spare: Bytes) returns (acts: seq<Action>)
    requires cfg.Sound() && |spare| == SPARE && s.worker.CheckFlag? && !Exchanging(s.procs)
    ensures Leads(cfg, s, acts, s.(core := CacheCore(cfg, s.core, spare), worker := Resting))
  {
    var c, w := s.core, Work(spare);
    acts := [];
    LeadsNowhere(cfg, s);
    hide Leads, OpenChunk, FillChunk, EntriesBytes;
    if c.free {
      acts := Step(cfg, s, acts, s, w, s.(worker := Resting));
    } else {
      acts := Step(cfg, s, acts, s, w, s.(worker := CheckEmpty));
      if c.slave.entries == [] {
        acts := Step(cfg, s, acts, s.(worker := CheckEmpty), w, s.(worker := SetFree));
        acts := Step(cfg, s, acts, s.(worker := SetFree), w, s.(core := c.(free := true), worker := Resting));
      } else {
        acts := Step(cfg, s, acts, s.(worker := CheckEmpty), w, s.(worker := ReadSize));
        var next := WriteIsRun(cfg, s.(worker := ReadSize), spare);
        LeadsOn(cfg, s, acts, s.(worker := ReadSize), next, s.(core := CacheCore(cfg, c, spare), worker := Resting));
        acts := acts + next;
      }
    }
  }

  lemma WriteIsRun(cfg: Config, s: State, spare: Bytes) returns (acts: seq<Action>)
    requires cfg.Sound() && |spare| == SPARE && s.worker.ReadSize? && !s.core.free && s.core.slave.entries != []
    ensures Leads(cfg, s, acts, s.(core := CacheCore(cfg, s.core, spare), worker := Resting))
  {
    var c, w, n := s.core, Work(spare), BufferSize(s.core.slave);
    var c2 := OpenChunk(cfg, c, n, spare);
    var c3 := FillChunk(c2, n);
    var c4 := ClearedSlave(c3);
    acts := [];
    LeadsNowhere(cfg, s);
    hide Leads, OpenChunk, FillChunk, EntriesBytes;
    acts := Step(cfg, s, acts, s, w, s.(worker := WriteHeader(n)));
    acts := Step(cfg, s, acts, s.(worker := WriteHeader(n)), w, s.(core := c2, worker := WriteBody(n)));
    acts := Step(cfg, s, acts, s.(core := c2, worker := WriteBody(n)), w, s.(core := c3, worker := ClearSlave));
    acts := Step(cfg, s, acts, s.(core := c3, worker := ClearSlave), w, s.(core := c4, worker := SetFree));
    acts := Step(cfg, s, acts, s.(core := c4, worker := SetFree), w, s.(core := c4.(free := true), worker := Resting));
  }

  // ---------- waiting for the strand ----------

  /** One task of the strand that nobody waits for. */
  lemma TaskIsRun(cfg: Config, s: State, spare: Bytes) returns (acts: seq<Action>)
    requires cfg.Sound() && |spare| == SPARE && s.worker.Resting? && !Exchanging(s.procs)
    requires s.core.queue != [] && (s.core.queue[0].Signal? ==> s.core.queue[0].waiter >= |s.procs|)
    ensures Leads(cfg, s, acts, s.(core := AfterTask(cfg, s.core, spare)))
  {
    var rest := s.core.(queue := s.core.queue[1..]);
    acts := [];
    LeadsNowhere(cfg, s);
    hide Leads, CacheCore;
    if s.core.queue[0].CacheTask? {
      acts := Step(cfg, s, acts, s, Work(spare), s.(core := rest, worker := CheckFlag));
      var next := CacheIsRun(cfg, s.(core := rest, worker := CheckFlag), spare);
      LeadsOn(cfg, s, acts, s.(core := rest, worker := CheckFlag), next, s.(core := AfterTask(cfg, s.core, spare)));
      acts := acts + next;
    } else {
      acts := Step(cfg, s, acts, s, Work(spare), s.(core := rest));
    }
  }

  /** The strand runs all that is queued, and last the signal that lets the one producer go on. */
  lemma {:induction false} DrainIsRun(cfg: Config, s: State, pc: Proc, front: seq<Task>, spare: Bytes)
    returns (acts: seq<Action>)
    requires cfg.Sound() && |spare| == SPARE && s.worker.Resting? && s.procs == [pc] && Waiting(pc)
    requires s.core.queue == front + [Signal(0)] && Signal(0) !in front
    ensures Leads(cfg, s, acts, s.(core := DrainCore(cfg, s.core, spare), procs := [Signalled(pc)]))
    decreases |front|
  {
    var c' := AfterTask(cfg, s.core, spare);
    if front == [] {
      LeadsNowhere(cfg, s);
      assert DrainCore(cfg, s.core, spare) == c' == s.core.(queue := []);
      acts := Step(cfg, s, [], s, Work(spare), s.(core := c', procs := [Signalled(pc)]));
    } else {
      CacheKeepsQueue(cfg, s.core.(queue := s.core.queue[1..]), spare);
      assert c'.queue == front[1..] + [Signal(0)];
      assert s.core.queue[0] == front[0] && front[0] in front;
      assert forall t | t in front[1..] :: t in front;
      hide Leads, AfterTask;
      acts := TaskIsRun(cfg, s, spare);
      var next := DrainIsRun(cfg, s.(core := c'), pc, front[1..], spare);
      LeadsOn(cfg, s, acts, s.(core := c'), next, s.(core := DrainCore(cfg, s.core, spare), procs := [Signalled(pc)]));
      acts := acts + next;
    }
  }

  lemma {:induction false} DrainEmpties(cfg: Config, c: Core, spare: Bytes)
    ensures DrainCore(cfg, c, spare).queue == []
    decreases |c.queue|
  {
    if c.queue != [] {
      CacheKeepsQueue(cfg, c.(queue := c.queue[1..]), spare);
      DrainEmpties(cfg, AfterTask(cfg, c, spare), spare);
    }
  }

  lemma WaitEmpties(cfg: Config, c: Core, spare: Bytes)
    ensures WaitCore(cfg, c, spare).queue == []
  {
    DrainEmpties(cfg, Post(c, Signal(0)), spare);
  }

  /** A call of the object's `WaitTasksCompleted`: the producer posts its signal and waits for it. */
  lemma WaitIsRun(cfg: Config, s: State, before: Proc, waiting: Proc, spare: Bytes) returns (acts: seq<Action>)
    requires cfg.Sound() && |spare| == SPARE && s.worker.Resting? && s.procs == [before]
    requires (before.SignalFirst? && waiting == WaitFirst(before.why))
             || (before.SignalLast? && waiting == WaitLast(before.mark))
    requires Signal(0) !in s.core.queue
    ensures Leads(cfg, s, acts, s.(core := WaitCore(cfg, s.core, spare), procs := [Signalled(waiting)]))
  {
    var t := s.(core := Post(s.core, Signal(0)), procs := [waiting]);
    LeadsNowhere(cfg, s);
    hide Leads, DrainCore;
    acts := Step(cfg, s, [], s, Move(0), t);
    var next := DrainIsRun(cfg, t, waiting, s.core.queue, spare);
    LeadsOn(cfg, s, acts, t, next, s.(core := WaitCore(cfg, s.core, spare), procs := [Signalled(waiting)]));
    acts := acts + next;
  }

  /** The first half of `Flush`, up to its swap. */
  lemma FlushBegins(cfg: Config, c: Core, spare: Bytes) returns (acts: seq<Action>)
    requires cfg.Sound() && |spare| == SPARE && Signal(0) !in c.queue
    ensures Leads(cfg, Calm(c), acts,
                  At(WaitCore(cfg, Post(c, CacheTask), spare), SwapLoad(ByFlush(|c.pushed|))))
  {
    var k, c1, s := |c.pushed|, Post(c, CacheTask), Calm(c);
    LeadsNowhere(cfg, s);
    hide Leads, WaitCore;
    acts := Step(cfg, s, [], s, BeginFlush(0), At(c, FlushPost(k)));
    acts := Step(cfg, s, acts, At(c, FlushPost(k)), Move(0), At(c1, SignalFirst(ByFlush(k))));
    var next := WaitIsRun(cfg, At(c1, SignalFirst(ByFlush(k))), SignalFirst(ByFlush(k)), WaitFirst(ByFlush(k)), spare);
    LeadsOn(cfg, s, acts, At(c1, SignalFirst(ByFlush(k))), next, At(WaitCore(cfg, c1, spare), SwapLoad(ByFlush(k))));
    acts := acts + next;
  }

  /** A call of the object's `Flush` is a race-free run of the machine's producer and strand, nobody else stepping. */
  lemma FlushIsRun(cfg: Config, c: Core, spare: Bytes) returns (acts: seq<Action>)
    requires cfg.Sound() && |spare| == SPARE && Signal(0) !in c.queue
    ensures Leads(cfg, Calm(c), acts, Calm(FlushCore(cfg, c, spare)))
  {
    var k, s, first := |c.pushed|, Calm(c), WaitCore(cfg, Post(c, CacheTask), spare);
    WaitEmpties(cfg, Post(c, CacheTask), spare);
    hide Leads, WaitCore, DrainCore, CacheCore;
    acts := FlushBegins(cfg, c, spare);
    var c2 := Post(SwapCore(first), CacheTask);
    var next := SwapAlone(cfg, At(first, SwapLoad(ByFlush(k))), ByFlush(k));
    LeadsOn(cfg, s, acts, At(first, SwapLoad(ByFlush(k))), next, At(c2, SignalLast(k)));
    acts := acts + next;
    next := WaitIsRun(cfg, At(c2, SignalLast(k)), SignalLast(k), WaitLast(k), spare);
    LeadsOn(cfg, s, acts, At(c2, SignalLast(k)), next, At(FlushCore(cfg, c, spare), FlushDone(k)));
    acts := acts + next;
    acts := Step(cfg, s, acts, At(FlushCore(cfg, c, spare), FlushDone(k)), Move(0), Calm(FlushCore(cfg, c, spare)));
  }

  /** What the constructor found, before it looks at the flag. */
  function FoundCore(master: Buffer, slave: Buffer): Core {
    Core(master, slave, true, [], [], [], false, slave.entries + master.entries, [])
  }

  /** The constructor of the object is a race-free run of the machine's, from the machine's own start. */
  lemma RecoverIsRun(cfg: Config, master: Buffer, slave: Buffer, spare: Bytes) returns (acts: seq<Action>)
    requires cfg.Sound() && |spare| == SPARE
    ensures var s := Start(master, slave, 1);
            Leads(cfg, s, acts, s.(core := RecoverCore(cfg, FoundCore(master, slave), spare), procs := [Idle]))
  {
    var s, found := Start(master, slave, 1), FoundCore(master, slave);
    var k := s.recovered;
    var taken := if slave.entries == [] then found else Post(found.(free := false), CacheTask);
    var t := s.(core := taken, procs := [BootMaster(k)]);
    LeadsNowhere(cfg, s);
    hide Leads, WaitCore;
    if slave.entries == [] {
      acts := [];
      assert s == t;
    } else {
      acts := Step(cfg, s, [], s, Move(0), t);
    }
    if master.entries == [] {
      acts := Step(cfg, s, acts, t, Move(0), s.(core := taken, procs := [Idle]));
    } else {
      acts := Step(cfg, s, acts, t, Move(0), t.(procs := [SignalFirst(ByBoot(k))]));
      var next := BootSwaps(cfg, t.(procs := [SignalFirst(ByBoot(k))]), k, spare);
      LeadsOn(cfg, s, acts, t.(procs := [SignalFirst(ByBoot(k))]), next,
              s.(core := RecoverCore(cfg, found, spare), procs := [Idle]));
      acts := acts + next;
    }
  }

  lemma BootSwaps(cfg: Config, s: State, k: nat, spare: Bytes) returns (acts: seq<Action>)
    requires cfg.Sound() && |spare| == SPARE && s.worker.Resting? && s.procs == [SignalFirst(ByBoot(k))]
    requires Signal(0) !in s.core.queue
    ensures Leads(cfg, s, acts,
                  s.(core := Post(SwapCore(WaitCore(cfg, s.core, spare)), CacheTask), procs := [Idle]))
  {
    var waited := s.(core := WaitCore(cfg, s.core, spare), procs := [SwapLoad(ByBoot(k))]);
    hide Leads, WaitCore;
    acts := WaitIsRun(cfg, s, SignalFirst(ByBoot(k)), WaitFirst(ByBoot(k)), spare);
    var next := SwapAlone(cfg, waited, ByBoot(k));
    LeadsOn(cfg, s, acts, waited, next,
            s.(core := Post(SwapCore(WaitCore(cfg, s.core, spare)), CacheTask), procs := [Idle]));
    acts := acts + next;
  }
}
