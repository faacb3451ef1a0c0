/** A run of one producer, from an empty start, after which `Flush` returns with logged messages in no file. */
module RaceWitness {
  import opened Bytes
  import opened Layout
  import opened Codec
  import opened Pipeline
  import opened Handoff
  import opened Races
  import opened Schedules
  import opened AtomicSwaps

  /** One message that alone fills a buffer past four fifths, and again when stored behind itself. */
  ghost predicate Filling(cfg: Config, m: Bytes, capacity: nat) {
    && cfg.Sound()
    && Payload(cfg, [], m) != [] && Payload(cfg, [m], m) != []
    && |Payload(cfg, [], m)| < 0x1000_0000 && |Payload(cfg, [m], m)| < 0x1000_0000
    && m != [] && cfg.lib.compress([], m) != [] && cfg.lib.compress([m], m) != []
    && IsFull(Once(cfg, m, capacity)) && IsFull(Twice(cfg, m, capacity))
  }

  function First(cfg: Config, m: Bytes): Entry {
    Entry(m, Payload(cfg, [], m))
  }

  function Second(cfg: Config, m: Bytes): Entry {
    Entry(m, Payload(cfg, [m], m))
  }

  function Once(cfg: Config, m: Bytes, capacity: nat): Buffer
    requires cfg.Sound()
  {
    AppendEntry(cfg.page, Buffer([], capacity), First(cfg, m))
  }

  function Twice(cfg: Config, m: Bytes, capacity: nat): Buffer
    requires cfg.Sound()
  {
    AppendEntry(cfg.page, Once(cfg, m, capacity), Second(cfg, m))
  }

  // ---------- the phases of the run ----------

  /** The shared state once `m` has been logged into an empty master. */
  function Filled(cfg: Config, c: Core, m: Bytes, capacity: nat): Core
    requires cfg.Sound()
  {
    c.(session := [m], logged := c.logged + [m], master := Once(cfg, m, capacity), pushed := c.pushed + [First(cfg, m)])
  }

  lemma FilledIsPush(cfg: Config, c: Core, m: Bytes, capacity: nat)
    requires Filling(cfg, m, capacity) && c.master == Buffer([], capacity)
    ensures Push(cfg, c.(session := []), m) == Filled(cfg, c, m, capacity)
    ensures Fits(cfg, c.(session := []), m)
  {
    assert [] + [m] == [m];
  }

  /** `Log` into an empty master, up to its swap. */
  lemma FillMaster(cfg: Config, c: Core, m: Bytes, capacity: nat) returns (acts: seq<Action>)
    requires Filling(cfg, m, capacity) && c.master == Buffer([], capacity)
    ensures Leads(cfg, Calm(c), acts, At(Filled(cfg, c, m, capacity), SwapLoad(ByLog)))
  {
    hide Leads, AppendEntry, Payload, EntriesBytes;
    var full := Filled(cfg, c, m, capacity);
    FilledIsPush(cfg, c, m, capacity);
    acts := Step(cfg, Calm(c), [], Calm(c), BeginLog(0, m), At(c, LogStart(m)));
    acts := Step(cfg, Calm(c), acts, At(c, LogStart(m)), Move(0), At(c, LogReset(m)));
    acts := Step(cfg, Calm(c), acts, At(c, LogReset(m)), Move(0), At(c.(session := []), LogPush(m)));
    acts := Step(cfg, Calm(c), acts, At(c.(session := []), LogPush(m)), Move(0), At(full, LogRatio));
    acts := Step(cfg, Calm(c), acts, At(full, LogRatio), Move(0), At(full, SwapLoad(ByLog)));
  }

  /** The swap and the post, when the flag is free. */
  lemma SwapAndPost(cfg: Config, c: Core) returns (acts: seq<Action>)
    requires cfg.Sound() && c.free
    ensures Leads(cfg, At(c, SwapLoad(ByLog)), acts, Calm(Post(Exchange(c.(free := false)), CacheTask)))
  {
    var s, swapped := At(c, SwapLoad(ByLog)), Exchange(c.(free := false));
    assert s.procs[0 := SwapPost(ByLog)] == [SwapPost(ByLog)];
    hide Leads;
    acts := SwapLeads(cfg, s, 0);
    acts := Step(cfg, s, acts, At(swapped, SwapPost(ByLog)), Move(0), Calm(Post(swapped, CacheTask)));
  }

  /** Without it only the cache task is posted. */
  lemma PostWithoutSwap(cfg: Config, c: Core) returns (acts: seq<Action>)
    requires cfg.Sound() && !c.free
    ensures Leads(cfg, At(c, SwapLoad(ByLog)), acts, Calm(Post(c, CacheTask)))
  {
    var s := At(c, SwapLoad(ByLog));
    acts := Step(cfg, s, [], s, Move(0), At(c, SwapPost(ByLog)));
    acts := Step(cfg, s, acts, At(c, SwapPost(ByLog)), Move(0), Calm(Post(c, CacheTask)));
  }

  /** The shared state once the strand has written the slave and freed it. */
  function Flushed(cfg: Config, c: Core): Core {
    ClearedSlave(FillChunk(OpenChunk(cfg, c, BufferSize(c.slave), Unused()), BufferSize(c.slave))).(free := true)
  }

  /** The strand runs one cache task to its end. */
  lemma RunCacheTask(cfg: Config, c: Core) returns (acts: seq<Action>)
    requires cfg.Sound() && !c.free && c.slave.entries != [] && c.queue != [] && c.queue[0] == CacheTask
    ensures Leads(cfg, Calm(c), acts, Calm(Flushed(cfg, c.(queue := c.queue[1..]))))
  {
    var s, c1, w := Calm(c), c.(queue := c.queue[1..]), Work(Unused());
    var n := BufferSize(c1.slave);
    acts := Step(cfg, s, [], s, w, Working(c1, CheckFlag));
    acts := Step(cfg, s, acts, Working(c1, CheckFlag), w, Working(c1, CheckEmpty));
    acts := Step(cfg, s, acts, Working(c1, CheckEmpty), w, Working(c1, ReadSize));
    acts := Step(cfg, s, acts, Working(c1, ReadSize), w, Working(c1, WriteHeader(n)));
    var next := WriteChunk(cfg, c1, n);
    LeadsOn(cfg, s, acts, Working(c1, WriteHeader(n)), next, Calm(Flushed(cfg, c1)));
    acts := acts + next;
  }

  lemma WriteChunk(cfg: Config, c1: Core, n: nat) returns (acts: seq<Action>)
    requires cfg.Sound() && n == BufferSize(c1.slave)
    ensures Leads(cfg, Working(c1, WriteHeader(n)), acts, Calm(Flushed(cfg, c1)))
  {
    var s, w := Working(c1, WriteHeader(n)), Work(Unused());
    var c2 := OpenChunk(cfg, c1, n, Unused());
    var c3 := FillChunk(c2, n);
    acts := Step(cfg, s, [], s, w, Working(c2, WriteBody(n)));
    acts := Step(cfg, s, acts, Working(c2, WriteBody(n)), w, Working(c3, ClearSlave));
    acts := Step(cfg, s, acts, Working(c3, ClearSlave), w, Working(ClearedSlave(c3), SetFree));
    acts := Step(cfg, s, acts, Working(ClearedSlave(c3), SetFree), w, Calm(ClearedSlave(c3).(free := true)));
  }

  /** The third `Log` stores its entry behind the second's and finds the buffer still full. */
  lemma LogBehind(cfg: Config, c: Core, m: Bytes, capacity: nat) returns (acts: seq<Action>, c': Core)
    requires Filling(cfg, m, capacity) && c.master == Once(cfg, m, capacity) && c.session == [m]
    ensures Leads(cfg, Calm(c), acts, At(c', SwapLoad(ByLog)))
    ensures c'.free == c.free && c'.queue == c.queue && c'.master == Twice(cfg, m, capacity)
  {
    hide EntriesBytes, IsFull, Leads;
    OnceSize(cfg, m, capacity);
    c' := Push(cfg, c, m);
    assert c'.master == Twice(cfg, m, capacity);
    acts := Step(cfg, Calm(c), [], Calm(c), BeginLog(0, m), At(c, LogStart(m)));
    acts := Step(cfg, Calm(c), acts, At(c, LogStart(m)), Move(0), At(c, LogPush(m)));
    acts := Step(cfg, Calm(c), acts, At(c, LogPush(m)), Move(0), At(c', LogRatio));
    acts := Step(cfg, Calm(c), acts, At(c', LogRatio), Move(0), At(c', SwapLoad(ByLog)));
  }

  lemma OnceSize(cfg: Config, m: Bytes, capacity: nat)
    requires cfg.Sound()
    ensures BufferSize(Once(cfg, m, capacity)) == ITEM_HEADER + |Payload(cfg, [], m)|
  {
    EntriesBytesAppend([], First(cfg, m));
  }

  /** Two messages logged and one written leave a stale cache task and a third message about to be swapped. */
  lemma ReachSwap(cfg: Config, m: Bytes, capacity: nat) returns (acts: seq<Action>, c: Core)
    requires Filling(cfg, m, capacity)
    ensures Leads(cfg, Start(Buffer([], capacity), Buffer([], capacity), 1), acts, At(c, SwapLoad(ByLog)))
    ensures c.free && c.queue == [CacheTask] && c.master.entries != []
  {
    var empty := Buffer([], capacity);
    var s := Start(empty, empty, 1);
    acts := Step(cfg, s, [], s, Move(0), Calm(s.core));
    var c1 := Filled(cfg, s.core, m, capacity);
    var next := FillMaster(cfg, s.core, m, capacity);
    LeadsOn(cfg, s, acts, Calm(s.core), next, At(c1, SwapLoad(ByLog)));
    acts := acts + next;
    next := SwapAndPost(cfg, c1);
    var c2 := Post(Exchange(c1.(free := false)), CacheTask);
    LeadsOn(cfg, s, acts, At(c1, SwapLoad(ByLog)), next, Calm(c2));
    acts := acts + next;
    var rest;
    rest, c := ReachSecondSwap(cfg, c2, m, capacity);
    LeadsOn(cfg, s, acts, Calm(c2), rest, At(c, SwapLoad(ByLog)));
    acts := acts + rest;
  }

  lemma ReachSecondSwap(cfg: Config, c2: Core, m: Bytes, capacity: nat) returns (acts: seq<Action>, c: Core)
    requires Filling(cfg, m, capacity) && !c2.free && c2.queue == [CacheTask]
    requires c2.master == Buffer([], capacity) && c2.slave.entries != []
    ensures Leads(cfg, Calm(c2), acts, At(c, SwapLoad(ByLog)))
    ensures c.free && c.queue == [CacheTask] && c.master.entries != []
  {
    var c3 := Filled(cfg, c2, m, capacity);
    acts := FillMaster(cfg, c2, m, capacity);
    var next := PostWithoutSwap(cfg, c3);
    var c4 := Post(c3, CacheTask);
    LeadsOn(cfg, Calm(c2), acts, At(c3, SwapLoad(ByLog)), next, Calm(c4));
    acts := acts + next;
    next := RunCacheTask(cfg, c4);
    var c5 := Flushed(cfg, c4.(queue := c4.queue[1..]));
    LeadsOn(cfg, Calm(c2), acts, Calm(c4), next, Calm(c5));
    acts := acts + next;
    assert c5.queue == [CacheTask] && c5.queue[0] == CacheTask;
    next, c := LogBehind(cfg, c5, m, capacity);
    LeadsOn(cfg, Calm(c2), acts, Calm(c5), next, At(c, SwapLoad(ByLog)));
    acts := acts + next;
  }

  // ---------- what a stranded buffer costs ----------

  /** The shared state when a flush has exchanged a stranded slave back into the master. */
  function ExchangedBack(c: Core): Core {
    Exchange(c.(queue := [], free := false))
  }

  /**
   * Once a buffer is stranded `Flush` is no barrier: with everything idle and the master empty it runs to its end,
   * writes nothing, and returns with the stranded entries back in the master.
   */
  lemma FlushMissesStranded(cfg: Config, c: Core) returns (acts: seq<Action>)
    requires cfg.Sound() && c.free && c.slave.entries != [] && c.master.entries == [] && c.queue == []
    ensures NoLogs(acts)
    ensures var t := At(ExchangedBack(c).(free := true), FlushDone(|c.pushed|));
            && Possible(cfg, Calm(c), acts) && After(cfg, Calm(c), acts) == t
            && t.core.files == c.files && t.core.master.entries == c.slave.entries
  {
    acts := FlushToSwap(cfg, c);
    var next := FlushFromSwap(cfg, c, |c.pushed|);
    var t := At(ExchangedBack(c).(free := true), FlushDone(|c.pushed|));
    LeadsOn(cfg, Calm(c), acts, At(c, SwapLoad(ByFlush(|c.pushed|))), next, t);
    acts := acts + next;
    LeadsIsPossible(cfg, Calm(c), acts, t);
  }

  lemma FlushToSwap(cfg: Config, c: Core) returns (acts: seq<Action>)
    requires cfg.Sound() && c.free && c.queue == []
    ensures NoLogs(acts)
    ensures Leads(cfg, Calm(c), acts, At(c, SwapLoad(ByFlush(|c.pushed|))))
  {
    var k := |c.pushed|;
    var s, why := Calm(c), ByFlush(k);
    var q1, q2 := c.(queue := [CacheTask]), c.(queue := [CacheTask, Signal(0)]);
    acts := Step(cfg, s, [], s, BeginFlush(0), At(c, FlushPost(k)));
    acts := Step(cfg, s, acts, At(c, FlushPost(k)), Move(0), At(q1, SignalFirst(why)));
    acts := Step(cfg, s, acts, At(q1, SignalFirst(why)), Move(0), At(q2, WaitFirst(why)));
    var next := StaleTaskThenSignal(cfg, c, why);
    LeadsOn(cfg, s, acts, At(q2, WaitFirst(why)), next, At(c, SwapLoad(why)));
    acts := acts + next;
  }

  /** A cache task that finds the flag free does nothing, even with the slave full. */
  lemma StaleTaskThenSignal(cfg: Config, c: Core, why: Why) returns (acts: seq<Action>)
    requires cfg.Sound() && c.free && c.queue == []
    ensures NoLogs(acts)
    ensures Leads(cfg, At(c.(queue := [CacheTask, Signal(0)]), WaitFirst(why)), acts, At(c, SwapLoad(why)))
  {
    var s, w := At(c.(queue := [CacheTask, Signal(0)]), WaitFirst(why)), Work(Unused());
    var q3 := c.(queue := [Signal(0)]);
    acts := Step(cfg, s, [], s, w, At(q3, WaitFirst(why)).(worker := CheckFlag));
    acts := Step(cfg, s, acts, At(q3, WaitFirst(why)).(worker := CheckFlag), w, At(q3, WaitFirst(why)));
    acts := Step(cfg, s, acts, At(q3, WaitFirst(why)), w, At(c, SwapLoad(why)));
  }

  lemma FlushFromSwap(cfg: Config, c: Core, k: nat) returns (acts: seq<Action>)
    requires cfg.Sound() && c.free && c.queue == [] && c.master.entries == []
    ensures NoLogs(acts)
    ensures Leads(cfg, At(c, SwapLoad(ByFlush(k))), acts, At(ExchangedBack(c).(free := true), FlushDone(k)))
  {
    var s, why, w := At(c, SwapLoad(ByFlush(k))), ByFlush(k), Work(Unused());
    var c1, c2 := c.(free := false), ExchangedBack(c);
    acts := Step(cfg, s, [], s, Move(0), At(c, SwapStore(why)));
    acts := Step(cfg, s, acts, At(c, SwapStore(why)), Move(0), At(c1, SwapExchange(why)));
    acts := Step(cfg, s, acts, At(c1, SwapExchange(why)), Move(0), At(c2, SwapPost(why)));
    var next := FlushEnds(cfg, c2, k);
    LeadsOn(cfg, s, acts, At(c2, SwapPost(why)), next, At(c2.(free := true), FlushDone(k)));
    acts := acts + next;
  }

  lemma FlushEnds(cfg: Config, c: Core, k: nat) returns (acts: seq<Action>)
    requires cfg.Sound() && !c.free && c.queue == [] && c.slave.entries == []
    ensures NoLogs(acts)
    ensures Leads(cfg, At(c, SwapPost(ByFlush(k))), acts, At(c.(free := true), FlushDone(k)))
  {
    var s := At(c, SwapPost(ByFlush(k)));
    var q1, q2 := c.(queue := [CacheTask]), c.(queue := [CacheTask, Signal(0)]);
    acts := Step(cfg, s, [], s, Move(0), At(q1, SignalLast(k)));
    acts := Step(cfg, s, acts, At(q1, SignalLast(k)), Move(0), At(q2, WaitLast(k)));
    var next := EmptyTaskThenSignal(cfg, c, k);
    LeadsOn(cfg, s, acts, At(q2, WaitLast(k)), next, At(c.(free := true), FlushDone(k)));
    acts := acts + next;
  }

  lemma EmptyTaskThenSignal(cfg: Config, c: Core, k: nat) returns (acts: seq<Action>)
    requires cfg.Sound() && !c.free && c.queue == [] && c.slave.entries == []
    ensures NoLogs(acts)
    ensures Leads(cfg, At(c.(queue := [CacheTask, Signal(0)]), WaitLast(k)), acts, At(c.(free := true), FlushDone(k)))
  {
    hide Leads;
    var s, w := At(c.(queue := [CacheTask, Signal(0)]), WaitLast(k)), Work(Unused());
    var q3 := c.(queue := [Signal(0)]);
    var waiting := At(q3, WaitLast(k));
    acts := Step(cfg, s, [], s, w, waiting.(worker := CheckFlag));
    acts := Step(cfg, s, acts, waiting.(worker := CheckFlag), w, waiting.(worker := CheckEmpty));
    acts := Step(cfg, s, acts, waiting.(worker := CheckEmpty), w, waiting.(worker := SetFree));
    var freed := At(q3.(free := true), WaitLast(k));
    acts := Step(cfg, s, acts, waiting.(worker := SetFree), w, freed);
    acts := Step(cfg, s, acts, freed, w, At(c.(free := true), FlushDone(k)));
  }

  // ---------- the whole run ----------

  /** The stale task runs between the store and the exchange: it finds the slave empty and frees the flag. */
  lemma StaleTaskFrees(cfg: Config, c: Core) returns (acts: seq<Action>)
    requires cfg.Sound() && c.free && c.slave.entries == [] && c.queue == [CacheTask]
    ensures Possible(cfg, At(c.(free := false), SwapExchange(ByLog)), acts)
    ensures After(cfg, At(c.(free := false), SwapExchange(ByLog)), acts) == At(c.(queue := []), SwapExchange(ByLog))
  {
    var s, w := At(c.(free := false), SwapExchange(ByLog)), Work(Unused());
    var taken := At(c.(free := false, queue := []), SwapExchange(ByLog));
    acts := [];
    assert Possible(cfg, s, acts) && After(cfg, s, acts) == s;
    hide Possible, After;
    acts := Go(cfg, s, acts, w, taken.(worker := CheckFlag));
    acts := Go(cfg, s, acts, w, taken.(worker := CheckEmpty));
    acts := Go(cfg, s, acts, w, taken.(worker := SetFree));
    acts := Go(cfg, s, acts, w, At(c.(queue := []), SwapExchange(ByLog)));
  }

  /** The stale task runs inside the swap, and the task posted after it then finds the flag free. */
  lemma StrandToCalm(cfg: Config, c: Core) returns (acts: seq<Action>)
    requires cfg.Sound() && c.free && c.slave.entries == [] && c.queue == [CacheTask]
    ensures Possible(cfg, At(c, SwapLoad(ByLog)), acts)
    ensures After(cfg, At(c, SwapLoad(ByLog)), acts) == Calm(Exchange(c).(queue := []))
  {
    var s := At(c, SwapLoad(ByLog));
    acts := [];
    assert Possible(cfg, s, acts) && After(cfg, s, acts) == s;
    hide Possible, After;
    acts := Go(cfg, s, acts, Move(0), At(c, SwapStore(ByLog)));
    acts := Go(cfg, s, acts, Move(0), At(c.(free := false), SwapExchange(ByLog)));
    var next := StaleTaskFrees(cfg, c);
    Compose(cfg, s, acts, next);
    acts := acts + next;
    next := PostToCalm(cfg, c.(queue := []));
    Compose(cfg, s, acts, next);
    acts := acts + next;
  }

  lemma PostToCalm(cfg: Config, c: Core) returns (acts: seq<Action>)
    requires cfg.Sound() && c.free && c.queue == []
    ensures Possible(cfg, At(c, SwapExchange(ByLog)), acts)
    ensures After(cfg, At(c, SwapExchange(ByLog)), acts) == Calm(Exchange(c))
  {
    var s, w, c' := At(c, SwapExchange(ByLog)), Work(Unused()), Exchange(c);
    acts := [];
    assert Possible(cfg, s, acts) && After(cfg, s, acts) == s;
    hide Possible, After;
    acts := Go(cfg, s, acts, Move(0), At(c', SwapPost(ByLog)));
    acts := Go(cfg, s, acts, Move(0), Calm(c'.(queue := [CacheTask])));
    acts := Go(cfg, s, acts, w, Working(c', CheckFlag));
    acts := Go(cfg, s, acts, w, Calm(c'));
  }

  /**
   * The race is reachable and breaks the barrier: for any message that fills a buffer there is a run of one producer,
   * from an empty start, at whose end `Flush` returns while some of the entries pushed before it are in no file.
   */
  lemma RaceBreaksFlush(cfg: Config, m: Bytes, capacity: nat) returns (acts: seq<Action>)
    requires Filling(cfg, m, capacity)
    ensures var s := Start(Buffer([], capacity), Buffer([], capacity), 1);
            && Possible(cfg, s, acts)
            && var t := After(cfg, s, acts);
               t.procs == [FlushDone(|t.core.pushed|)] && |Written(t.core)| < |t.core.pushed|
  {
    var s := Start(Buffer([], capacity), Buffer([], capacity), 1);
    StartHasInv(cfg, Buffer([], capacity), Buffer([], capacity), 1);
    var c;
    acts, c := ReachSwap(cfg, m, capacity);
    var t := At(c, SwapLoad(ByLog));
    LeadsIsPossible(cfg, s, acts, t);
    assert |Written(c)| + |Unwritten(t)| + |c.master.entries| == |c.pushed|;
    var next := StrandToCalm(cfg, c);
    Compose(cfg, s, acts, next);
    acts := acts + next;
    next := FlushMissesStranded(cfg, Exchange(c).(queue := []));
    Compose(cfg, s, acts, next);
    acts := acts + next;
  }

  // ---------- two producers ----------

  /** Both producers, with the strand at rest. */
  function Two(c: Core, first: Proc, second: Proc): State {
    State(c, Resting, [first, second], 0)
  }

  /** A different message, small enough to be stored anywhere. */
  ghost predicate Another(cfg: Config, m: Bytes, other: Bytes) {
    other != m && Payload(cfg, [], other) != [] && |Payload(cfg, [], other)| < 0x1000_0000
  }

  /** The shared state once both producers have logged `m` and found the buffer full. */
  function BothFilled(cfg: Config, c: Core, m: Bytes, capacity: nat): Core
    requires cfg.Sound()
  {
    Push(cfg, Filled(cfg, c, m, capacity), m)
  }

  /** The first producer's call of `Log`, up to its push. */
  lemma FirstBegins(cfg: Config, c: Core, m: Bytes) returns (acts: seq<Action>)
    requires cfg.Sound() && c.master.entries == []
    ensures Leads(cfg, Two(c, Idle, Idle), acts, Two(c.(session := []), LogPush(m), Idle))
  {
    var s := Two(c, Idle, Idle);
    LeadsNowhere(cfg, s);
    hide Leads, Push, Payload, Fits;
    acts := Step(cfg, s, [], s, BeginLog(0, m), Two(c, LogStart(m), Idle));
    acts := Step(cfg, s, acts, Two(c, LogStart(m), Idle), Move(0), Two(c, LogReset(m), Idle));
    acts := Step(cfg, s, acts, Two(c, LogReset(m), Idle), Move(0), Two(c.(session := []), LogPush(m), Idle));
  }

  lemma FillingIsFull(cfg: Config, m: Bytes, capacity: nat)
    requires Filling(cfg, m, capacity)
    ensures Payload(cfg, [], m) != [] && IsFull(Once(cfg, m, capacity))
  {
  }

  /** Its push fills the buffer. */
  lemma FirstPushes(cfg: Config, c: Core, m: Bytes, capacity: nat)
    requires Filling(cfg, m, capacity) && c.master == Buffer([], capacity)
    ensures var s, full := Two(c.(session := []), LogPush(m), Idle), Filled(cfg, c, m, capacity);
            Enabled(cfg, s, Move(0)) && Apply(cfg, s, Move(0)) == Two(full, LogRatio, Idle) && IsFull(full.master)
  {
    hide Filling, Push, Payload, Once, IsFull, Fits, EntriesBytes;
    FilledIsPush(cfg, c, m, capacity);
    FillingIsFull(cfg, m, capacity);
  }

  lemma RatioSwaps(cfg: Config, c: Core)
    requires cfg.Sound() && IsFull(c.master)
    ensures var s := Two(c, LogRatio, Idle);
            Enabled(cfg, s, Move(0)) && Apply(cfg, s, Move(0)) == Two(c, SwapLoad(ByLog), Idle)
  {
    hide IsFull;
  }

  lemma FirstFills(cfg: Config, c: Core, m: Bytes, capacity: nat) returns (acts: seq<Action>)
    requires Filling(cfg, m, capacity) && c.master == Buffer([], capacity)
    ensures Leads(cfg, Two(c, Idle, Idle), acts, Two(Filled(cfg, c, m, capacity), SwapLoad(ByLog), Idle))
  {
    var s, full := Two(c, Idle, Idle), Filled(cfg, c, m, capacity);
    acts := FirstBegins(cfg, c, m);
    FirstPushes(cfg, c, m, capacity);
    hide Leads, Filling, Filled, IsFull, Enabled, Apply;
    acts := Step(cfg, s, acts, Two(c.(session := []), LogPush(m), Idle), Move(0), Two(full, LogRatio, Idle));
    RatioSwaps(cfg, full);
    acts := Step(cfg, s, acts, Two(full, LogRatio, Idle), Move(0), Two(full, SwapLoad(ByLog), Idle));
  }

  lemma SecondFills(cfg: Config, c: Core, m: Bytes, capacity: nat) returns (acts: seq<Action>)
    requires Filling(cfg, m, capacity) && c.master == Once(cfg, m, capacity) && c.session == [m]
    ensures Possible(cfg, Two(c, SwapLoad(ByLog), Idle), acts)
    ensures After(cfg, Two(c, SwapLoad(ByLog), Idle), acts)
         == Two(Push(cfg, c, m), SwapLoad(ByLog), SwapLoad(ByLog))
    ensures Push(cfg, c, m).master == Twice(cfg, m, capacity)
  {
    OnceSize(cfg, m, capacity);
    var s, full := Two(c, SwapLoad(ByLog), Idle), Push(cfg, c, m);
    assert full.master == Twice(cfg, m, capacity);
    acts := [];
    assert Possible(cfg, s, acts) && After(cfg, s, acts) == s;
    hide Possible, After, EntriesBytes, IsFull, Payload;
    acts := Go(cfg, s, acts, BeginLog(1, m), Two(c, SwapLoad(ByLog), LogStart(m)));
    acts := Go(cfg, s, acts, Move(1), Two(c, SwapLoad(ByLog), LogPush(m)));
    acts := Go(cfg, s, acts, Move(1), Two(full, SwapLoad(ByLog), LogRatio));
    acts := Go(cfg, s, acts, Move(1), Two(full, SwapLoad(ByLog), SwapLoad(ByLog)));
  }

  /** From empty files both producers come to read the free flag. */
  lemma BothReachSwap(cfg: Config, m: Bytes, capacity: nat) returns (acts: seq<Action>, c: Core)
    requires Filling(cfg, m, capacity)
    ensures var s := Start(Buffer([], capacity), Buffer([], capacity), 2);
            Possible(cfg, s, acts) && After(cfg, s, acts) == Two(c, SwapLoad(ByLog), SwapLoad(ByLog))
    ensures c.free && c.files == [] && c.queue == [] && c.master == Twice(cfg, m, capacity)
    ensures c.pushed == c.master.entries == [First(cfg, m), Second(cfg, m)] && c.slave.entries == []
  {
    var empty := Buffer([], capacity);
    var s := Start(empty, empty, 2);
    assert s.procs == [BootMaster(0), Idle];
    acts := Go(cfg, s, [], Move(0), Two(s.core, Idle, Idle));
    hide Possible, After, Leads, Inv;
    var next := FirstFills(cfg, s.core, m, capacity);
    LeadsIsPossible(cfg, Two(s.core, Idle, Idle), next,
                    Two(Filled(cfg, s.core, m, capacity), SwapLoad(ByLog), Idle));
    Compose(cfg, s, acts, next);
    acts := acts + next;
    next := SecondFills(cfg, Filled(cfg, s.core, m, capacity), m, capacity);
    Compose(cfg, s, acts, next);
    acts := acts + next;
    c := BothFilled(cfg, s.core, m, capacity);
  }

  /** The strand runs the one cache task that is queued, whatever the producers do meanwhile. */
  lemma StrandWrites(cfg: Config, s: State) returns (acts: seq<Action>)
    requires cfg.Sound() && !s.core.free && s.core.slave.entries != [] && s.worker.Resting?
    requires s.core.queue == [CacheTask]
    ensures Possible(cfg, s, acts)
    ensures After(cfg, s, acts) == s.(core := Flushed(cfg, s.core.(queue := [])))
  {
    var c1, w, n := s.core.(queue := []), Work(Unused()), BufferSize(s.core.slave);
    var c2 := OpenChunk(cfg, c1, n, Unused());
    var c3 := FillChunk(c2, n);
    acts := [];
    assert Possible(cfg, s, acts) && After(cfg, s, acts) == s;
    hide Possible, After;
    acts := Go(cfg, s, acts, w, s.(core := c1, worker := CheckFlag));
    acts := Go(cfg, s, acts, w, s.(core := c1, worker := CheckEmpty));
    acts := Go(cfg, s, acts, w, s.(core := c1, worker := ReadSize));
    acts := Go(cfg, s, acts, w, s.(core := c1, worker := WriteHeader(n)));
    var next := StrandAppends(cfg, s.(core := c1, worker := WriteHeader(n)));
    Compose(cfg, s, acts, next);
    acts := acts + next;
  }

  lemma StrandAppends(cfg: Config, s: State) returns (acts: seq<Action>)
    requires cfg.Sound() && s.worker == WriteHeader(BufferSize(s.core.slave))
    ensures Possible(cfg, s, acts) && After(cfg, s, acts) == s.(core := Flushed(cfg, s.core), worker := Resting)
  {
    var w, n := Work(Unused()), BufferSize(s.core.slave);
    var c2 := OpenChunk(cfg, s.core, n, Unused());
    var c3 := FillChunk(c2, n);
    acts := [];
    assert Possible(cfg, s, acts) && After(cfg, s, acts) == s;
    hide Possible, After, OpenChunk, FillChunk;
    acts := Go(cfg, s, acts, w, s.(core := c2, worker := WriteBody(n)));
    acts := Go(cfg, s, acts, w, s.(core := c3, worker := ClearSlave));
    acts := Go(cfg, s, acts, w, s.(core := ClearedSlave(c3), worker := SetFree));
    acts := Go(cfg, s, acts, w, s.(core := Flushed(cfg, s.core), worker := Resting));
  }

  lemma OpenedIsWritten(cfg: Config, c: Core, size: nat)
    ensures Written(OpenChunk(cfg, c, size, Unused())) == Written(c)
    ensures var chunks := AllChunks(OpenChunk(cfg, c, size, Unused()).files);
            chunks != [] && chunks[|chunks| - 1].entries == []
    ensures HasChunk(OpenChunk(cfg, c, size, Unused()).files)
  {
    hide OpenChunk, EntriesOf, HasChunk;
    AllChunksAfterOpen(cfg, c, size, Unused());
    EntriesOfAppend(AllChunks(c.files), Chunk(HeaderFor(cfg, size, Unused()), [], []));
    assert Written(c) + [] == Written(c);
  }

  lemma FlushedLeaves(cfg: Config, c: Core)
    ensures var n := BufferSize(c.slave);
            var c2 := OpenChunk(cfg, c, n, Unused());
            && c2.slave == c.slave
            && Flushed(cfg, c) == c.(files := FillChunk(c2, n).files, slave := c.slave.(entries := []), free := true)
  {
    hide EntriesBytes, HeaderFor, FileSize;
  }

  /** What one cache task puts in the files. */
  lemma FlushedIsWritten(cfg: Config, c: Core)
    ensures Written(Flushed(cfg, c)) == Written(c) + c.slave.entries && Flushed(cfg, c).pushed == c.pushed
    ensures Flushed(cfg, c).master == c.master
  {
    var size := BufferSize(c.slave);
    OpenedIsWritten(cfg, c, size);
    FlushedLeaves(cfg, c);
    hide OpenChunk, FillChunk, Flushed, AllChunks, EntriesOf, HasChunk, BufferSize;
    FillConserves(OpenChunk(cfg, c, size, Unused()), size);
  }

  /** Both swap, what is logged in between goes to the strand first, and the rest is back in the master. */
  lemma BothSwap(cfg: Config, c: Core, other: Bytes) returns (acts: seq<Action>)
    requires cfg.Sound() && c.free && c.files == [] && c.queue == [] && c.slave.entries == []
    requires c.pushed == c.master.entries != [] && Entry(other, Payload(cfg, [], other)) != c.master.entries[0]
    requires Payload(cfg, [], other) != [] && ITEM_HEADER + |Payload(cfg, [], other)| < U32
    ensures Possible(cfg, Two(c, SwapLoad(ByLog), SwapLoad(ByLog)), acts)
    ensures var t := After(cfg, Two(c, SwapLoad(ByLog), SwapLoad(ByLog)), acts);
            var last := Entry(other, Payload(cfg, [], other));
            && t.core.pushed == c.pushed + [last] && Written(t.core) == [last]
            && t.core.master.entries == c.master.entries
  {
    var s := Two(c, SwapLoad(ByLog), SwapLoad(ByLog));
    assert [] + [] + c.master.entries == c.pushed;
    hide Possible, After, Payload, EntriesBytes, IsFull;
    acts := DoubleSwapReorders(cfg, s, 0, 1, other);
    var u := After(cfg, s, acts);
    var next := StrandWrites(cfg, u);
    Compose(cfg, s, acts, next);
    acts := acts + next;
    FlushedIsWritten(cfg, u.core.(queue := []));
  }

  /**
   * Two producers are enough to reorder the log: for any message that fills a buffer and any other message there is a
   * run of theirs, from an empty start, after which the last message pushed is in the files alone, ahead of the two
   * before it.
   */
  lemma RaceReordersLog(cfg: Config, m: Bytes, other: Bytes, capacity: nat) returns (acts: seq<Action>)
    requires Filling(cfg, m, capacity) && Another(cfg, m, other)
    ensures var s, last := Start(Buffer([], capacity), Buffer([], capacity), 2), Entry(other, Payload(cfg, [], other));
            && Possible(cfg, s, acts)
            && var t := After(cfg, s, acts);
               && t.core.pushed == [First(cfg, m), Second(cfg, m), last]
               && Written(t.core) == [last] && t.core.master.entries == [First(cfg, m), Second(cfg, m)]
  {
    assert cfg.Sound();
    hide Possible, After, Payload, EntriesBytes, IsFull, EntriesOf, AllChunks;
    var c;
    acts, c := BothReachSwap(cfg, m, capacity);
    var next := BothSwap(cfg, c, other);
    Compose(cfg, Start(Buffer([], capacity), Buffer([], capacity), 2), acts, next);
    acts := acts + next;
  }

  // ---------- the hypotheses can be met ----------

  /** A configuration with the default capacity and a message of 450000 bytes. */
  function Example(): (cfg: Config) {
    Config(ToyLibrary(), 4096, [], [], MMap.Zeros(IV_FIELD), 4 * 1024 * 1024)
  }

  lemma ExampleFills()
    ensures Filling(Example(), MMap.Zeros(450000), MMap.DEFAULT_CAPACITY)
    ensures Another(Example(), MMap.Zeros(450000), [1])
  {
    var cfg, m, capacity := Example(), MMap.Zeros(450000), MMap.DEFAULT_CAPACITY;
    assert |Payload(cfg, [], m)| == 450005 && |Payload(cfg, [m], m)| == 450005;
    OnceSize(cfg, m, capacity);
    EntriesBytesAppend([First(cfg, m)], Second(cfg, m));
    assert Twice(cfg, m, capacity).entries == [First(cfg, m)] + [Second(cfg, m)];
    assert Once(cfg, m, capacity).entries == [First(cfg, m)];
    assert MMap.PageRound(4096, 450021) == 450560;
    assert MMap.PageRound(4096, 900034) == 901120;
  }
}
