/**
 * What every race-free step of the pipeline keeps, for any number of producers: nothing lost, duplicated or
 * reordered; the slave is the strand's alone while it writes; no buffer is stranded; `Flush` is a barrier.
 */
module Handoff {
  import opened Bytes
  import opened Layout
  import opened Codec
  import opened Pipeline

  // ---------- the invariant ----------

  /** The slave's entries that are not yet in a chunk body. */
  function Unwritten(s: State): seq<Entry> {
    if s.worker.ClearSlave? then [] else s.core.slave.entries
  }

  /** Written, then waiting in the slave, then in the master: exactly what was pushed, in order. */
  predicate Conserved(s: State) {
    Written(s.core) + Unwritten(s) + s.core.master.entries == s.core.pushed
  }

  predicate Complete(cfg: Config, c: Chunk) {
    && c.entries != []
    && c.body == EntriesBytes(c.entries)
    && c.header.size == |c.body| < U32
    && |c.header.publicKey| == KEY_FIELD && cfg.Sound()
    && c.header == HeaderFor(cfg, |c.body|, c.header.publicKey[PUBLIC_KEY..])
  }

  predicate JustOpened(cfg: Config, c: Chunk, n: nat) {
    && c.entries == [] && c.body == [] && c.header.size == n
    && |c.header.publicKey| == KEY_FIELD && cfg.Sound()
    && c.header == HeaderFor(cfg, n, c.header.publicKey[PUBLIC_KEY..])
  }

  /** Every chunk is whole, but for the one whose header alone has been written. */
  predicate ChunksSound(cfg: Config, s: State) {
    var chunks := AllChunks(s.core.files);
    if s.worker.WriteBody? then
      && HasChunk(s.core.files) && chunks != []
      && (forall i | 0 <= i < |chunks| - 1 :: Complete(cfg, chunks[i]))
      && JustOpened(cfg, chunks[|chunks| - 1], s.worker.n)
    else
      forall i | 0 <= i < |chunks| :: Complete(cfg, chunks[i])
  }

  predicate SizesSound(s: State) {
    BufferSize(s.core.master) < U32 && BufferSize(s.core.slave) < U32
  }

  /** The strand owns the slave from the moment it sees the flag until it sets it free. */
  predicate StrandSound(s: State) {
    && (s.core.free ==> s.core.slave.entries == [] && (s.worker.Resting? || s.worker.CheckFlag?))
    && (s.worker.ReadSize? || s.worker.WriteHeader? || s.worker.WriteBody? || s.worker.ClearSlave? ==>
          s.core.slave.entries != [])
    && (s.worker.WriteHeader? || s.worker.WriteBody? ==> s.worker.n == BufferSize(s.core.slave))
    && (s.worker.SetFree? ==> s.core.slave.entries == [])
  }

  predicate InWindow(pc: Proc) {
    pc.SwapStore? || pc.SwapExchange?
  }

  /** At most one producer is inside `SwapCache_` past its test, and the slave is empty meanwhile. */
  predicate WindowSound(s: State) {
    && (forall p, q | 0 <= p < |s.procs| && 0 <= q < |s.procs| && p != q ::
          InWindow(s.procs[p]) ==> !InWindow(s.procs[q]))
    && (Storing(s.procs) ==> s.core.free)
    && (Exchanging(s.procs) ==>
          && !s.core.free && s.core.slave.entries == []
          && (s.worker.Resting? || s.worker.CheckFlag? || s.worker.CheckEmpty?))
  }

  /** A queued signal belongs to a waiting producer, a waiting producer has one queued, and none is queued twice. */
  predicate SignalsSound(queue: seq<Task>, procs: seq<Proc>) {
    && (forall i | 0 <= i < |queue| && queue[i].Signal? :: queue[i].waiter < |procs| && Waiting(procs[queue[i].waiter]))
    && (forall i, j | 0 <= i < j < |queue| && queue[i].Signal? :: queue[j] != queue[i])
    && (forall p | 0 <= p < |procs| && Waiting(procs[p]) :: Signal(p) in queue)
  }

  predicate WillPost(pc: Proc) {
    pc.SwapExchange? || pc.SwapPost? || pc.BootPost?
  }

  predicate SomeoneWillPost(procs: seq<Proc>) {
    exists p | 0 <= p < |procs| :: WillPost(procs[p])
  }

  /** A taken flag is always somebody's business: no buffer is stranded. */
  predicate HandedOff(s: State) {
    s.core.free || CacheTask in s.core.queue || !s.worker.Resting? || SomeoneWillPost(s.procs)
  }

  // ---------- the barrier ----------

  /** The first `mark` pushed entries have left the master. */
  predicate LeftMaster(s: State, mark: nat) {
    mark + |s.core.master.entries| <= |s.core.pushed|
  }

  predicate InFiles(s: State, mark: nat) {
    mark <= |Written(s.core)|
  }

  /** A cache task is queued ahead of any signal of producer `p`. */
  ghost predicate CacheAhead(queue: seq<Task>, p: nat) {
    exists i | 0 <= i < |queue| :: queue[i].CacheTask? && forall j | 0 <= j <= i :: queue[j] != Signal(p)
  }

  ghost predicate FirstPhase(s: State, p: nat, mark: nat) {
    || s.core.free || LeftMaster(s, mark) || Exchanging(s.procs)
    || !s.worker.Resting? || CacheAhead(s.core.queue, p)
  }

  ghost predicate LastPhase(s: State, p: nat, mark: nat) {
    || InFiles(s, mark)
    || ((LeftMaster(s, mark) || Exchanging(s.procs)) && (!s.worker.Resting? || CacheAhead(s.core.queue, p)))
  }

  function WhyMark(why: Why): nat {
    if why.ByLog? then 0 else why.mark
  }

  function MarkOf(pc: Proc): nat {
    if pc.FlushPost? || pc.BootPost? || pc.BootMaster? || pc.SignalLast? || pc.WaitLast? || pc.FlushDone? then pc.mark
    else if pc.Idle? || pc.LogStart? || pc.LogReset? || pc.LogPush? || pc.LogRatio? then 0
    else WhyMark(pc.why)
  }

  /** How far a flush, or the constructor's wait, has got with the entries pushed before it began. */
  ghost predicate Progress(s: State, p: nat)
    requires p < |s.procs|
  {
    var pc, k := s.procs[p], MarkOf(s.procs[p]);
    && k <= |s.core.pushed|
    && (pc.BootMaster? || pc.SignalFirst? || pc.WaitFirst? ==> FirstPhase(s, p, k))
    && (pc.SwapLoad? ==> s.core.free || LeftMaster(s, k) || Exchanging(s.procs))
    && (pc.SwapPost? ==> LeftMaster(s, k) || Exchanging(s.procs))
    && (pc.SignalLast? || pc.WaitLast? ==> LastPhase(s, p, k))
    && (pc.FlushDone? ==> InFiles(s, k))
  }

  ghost predicate AllProgress(s: State) {
    forall p | 0 <= p < |s.procs| :: Progress(s, p)
  }

  /** Nobody else runs while the constructor does, and when it ends everything it found has left the master. */
  predicate BootSound(s: State) {
    && |s.procs| > 0
    && (forall p | 0 < p < |s.procs| :: !Booting(s.procs[p]))
    && (if Booting(s.procs[0]) then
          && (forall p | 0 < p < |s.procs| :: s.procs[p].Idle?)
          && |s.core.pushed| == s.recovered == MarkOf(s.procs[0])
        else LeftMaster(s, s.recovered))
  }

  ghost predicate Inv(cfg: Config, s: State) {
    && Conserved(s) && ChunksSound(cfg, s) && SizesSound(s)
    && StrandSound(s) && WindowSound(s) && SignalsSound(s.core.queue, s.procs) && HandedOff(s)
    && AllProgress(s) && BootSound(s)
  }

  // ---------- producers keep it ----------

  lemma UpdateSomeone(procs: seq<Proc>, p: nat, pc: Proc)
    requires p < |procs|
    ensures Exchanging(procs[p := pc]) ==> pc.SwapExchange? || Exchanging(procs)
    ensures Storing(procs[p := pc]) ==> pc.SwapStore? || Storing(procs)
    ensures pc.SwapExchange? || (Exchanging(procs) && !procs[p].SwapExchange?) ==> Exchanging(procs[p := pc])
    ensures pc.SwapStore? || (Storing(procs) && !procs[p].SwapStore?) ==> Storing(procs[p := pc])
    ensures WillPost(pc) || (SomeoneWillPost(procs) && !WillPost(procs[p])) ==> SomeoneWillPost(procs[p := pc])
  {
    var after := procs[p := pc];
    assert after[p] == pc;
    if q :| 0 <= q < |procs| && procs[q].SwapExchange? && q != p { assert after[q].SwapExchange?; }
    if q :| 0 <= q < |procs| && procs[q].SwapStore? && q != p { assert after[q].SwapStore?; }
    if q :| 0 <= q < |procs| && WillPost(procs[q]) && q != p { assert WillPost(after[q]); }
  }

  /** What a producer's step does to the buffers: it appends one entry, exchanges them, or leaves them alone. */
  lemma MoveBuffers(cfg: Config, c: Core, p: nat, pc: Proc)
    requires cfg.Sound()
    ensures var (c', pc') := MoveCore(cfg, c, p, pc);
            && c'.files == c.files
            && (pc.SwapExchange? ==> c' == Exchange(c))
            && (!pc.SwapExchange? ==> c'.slave == c.slave)
            && (!pc.SwapExchange? && !pc.LogPush? ==> c'.master == c.master && c'.pushed == c.pushed)
            && (pc.LogPush? ==>
                  var e := Entry(pc.msg, Payload(cfg, c.session, pc.msg));
                  if e.payload == [] then c'.master == c.master && c'.pushed == c.pushed && pc' == Idle
                  else c'.master.entries == c.master.entries + [e] && c'.pushed == c.pushed + [e] && pc' == LogRatio)
  {
  }

  /** What it does to the flag. */
  lemma MoveFlag(cfg: Config, c: Core, p: nat, pc: Proc)
    requires cfg.Sound()
    ensures MoveCore(cfg, c, p, pc).0.free == (c.free && !pc.SwapStore?)
  {
  }

  lemma MoveConserves(cfg: Config, s: State, p: nat)
    requires cfg.Sound() && Enabled(cfg, s, Move(p))
    requires Conserved(s) && StrandSound(s) && WindowSound(s)
    ensures Conserved(Apply(cfg, s, Move(p)))
  {
    var pc := s.procs[p];
    var s' := Apply(cfg, s, Move(p));
    MoveBuffers(cfg, s.core, p, pc);
    if pc.LogPush? && Payload(cfg, s.core.session, pc.msg) != [] {
      PushConserves(s, s', Entry(pc.msg, Payload(cfg, s.core.session, pc.msg)));
    } else if pc.SwapExchange? {
      assert Exchanging(s.procs);
      ExchangeConserves(s, s');
    }
  }

  lemma PushConserves(s: State, s': State, e: Entry)
    requires Conserved(s) && s'.worker == s.worker && s'.core.files == s.core.files && s'.core.slave == s.core.slave
    requires s'.core.master.entries == s.core.master.entries + [e] && s'.core.pushed == s.core.pushed + [e]
    ensures Conserved(s')
  {
    var before := Written(s.core) + Unwritten(s);
    assert before + (s.core.master.entries + [e]) == before + s.core.master.entries + [e];
  }

  lemma ExchangeConserves(s: State, s': State)
    requires Conserved(s) && s'.worker == s.worker && !s.worker.ClearSlave?
    requires s.core.slave.entries == [] && s'.core == Exchange(s.core)
    ensures Conserved(s')
  {
    var written, master := Written(s.core), s.core.master.entries;
    assert written + master + [] == written + [] + master;
  }

  lemma MoveKeepsSizes(cfg: Config, s: State, p: nat)
    requires cfg.Sound() && Enabled(cfg, s, Move(p)) && SizesSound(s)
    ensures SizesSound(Apply(cfg, s, Move(p)))
  {
    var pc := s.procs[p];
    MoveBuffers(cfg, s.core, p, pc);
    if pc.LogPush? && Payload(cfg, s.core.session, pc.msg) != [] {
      EntriesBytesAppend(s.core.master.entries, Entry(pc.msg, Payload(cfg, s.core.session, pc.msg)));
    }
  }

  lemma MoveKeepsStrand(cfg: Config, s: State, p: nat)
    requires cfg.Sound() && Enabled(cfg, s, Move(p))
    requires ChunksSound(cfg, s) && StrandSound(s) && WindowSound(s)
    ensures ChunksSound(cfg, Apply(cfg, s, Move(p)))
    ensures StrandSound(Apply(cfg, s, Move(p)))
  {
    MoveBuffers(cfg, s.core, p, s.procs[p]);
    MoveFlag(cfg, s.core, p, s.procs[p]);
    if s.procs[p].SwapExchange? {
      assert Exchanging(s.procs);
    }
  }

  /** How a producer enters and leaves the window of a swap. */
  lemma MoveWindow(cfg: Config, c: Core, p: nat, pc: Proc)
    requires cfg.Sound()
    ensures var (c', pc') := MoveCore(cfg, c, p, pc);
            && (pc'.SwapStore? <==> pc.SwapLoad? && c.free)
            && (pc'.SwapExchange? <==> pc.SwapStore?)
    requires !pc.WaitFirst? && !pc.WaitLast? && !pc.Idle?
  {
  }

  lemma MoveKeepsWindow(cfg: Config, s: State, p: nat)
    requires cfg.Sound() && Enabled(cfg, s, Move(p)) && RaceFree(s, Move(p))
    requires StrandSound(s) && WindowSound(s)
    ensures WindowSound(Apply(cfg, s, Move(p)))
  {
    var pc := s.procs[p];
    var s' := Apply(cfg, s, Move(p));
    MoveBuffers(cfg, s.core, p, pc);
    MoveFlag(cfg, s.core, p, pc);
    MoveWindow(cfg, s.core, p, pc);
    UpdateSomeone(s.procs, p, s'.procs[p]);
    if InWindow(pc) {
      assert Exchanging(s.procs) || Storing(s.procs);
      assert forall q | 0 <= q < |s.procs| && q != p :: !InWindow(s'.procs[q]);
    }
    if s'.procs[p].SwapStore? {
      assert forall q | 0 <= q < |s.procs| && q != p :: !InWindow(s'.procs[q]);
    }
  }

  lemma PostKeepsSignals(queue: seq<Task>, procs: seq<Proc>, p: nat, task: Task, pc: Proc)
    requires p < |procs| && SignalsSound(queue, procs) && !Waiting(procs[p])
    requires if task.Signal? then task == Signal(p) && Waiting(pc) else !Waiting(pc)
    ensures SignalsSound(queue + [task], procs[p := pc])
  {
    var queue', procs' := queue + [task], procs[p := pc];
    assert queue'[|queue|] == task;
    forall q | 0 <= q < |procs'| && Waiting(procs'[q]) ensures Signal(q) in queue' {
      if q != p { assert Signal(q) in queue; }
    }
  }

  lemma QuietMoveKeepsSignals(queue: seq<Task>, procs: seq<Proc>, p: nat, pc: Proc)
    requires p < |procs| && SignalsSound(queue, procs) && !Waiting(procs[p]) && !Waiting(pc)
    ensures SignalsSound(queue, procs[p := pc])
  {
  }

  /** The queue grows by at most one task, and a producer waits exactly when it has just posted its signal. */
  lemma MovePosts(cfg: Config, c: Core, p: nat, pc: Proc)
    requires cfg.Sound() && !Waiting(pc)
    ensures var (c', pc') := MoveCore(cfg, c, p, pc);
            || (c'.queue == c.queue && !Waiting(pc'))
            || (c'.queue == c.queue + [CacheTask] && !Waiting(pc'))
            || (c'.queue == c.queue + [Signal(p)] && Waiting(pc'))
  {
  }

  lemma MoveKeepsSignals(cfg: Config, s: State, p: nat)
    requires cfg.Sound() && Enabled(cfg, s, Move(p)) && SignalsSound(s.core.queue, s.procs)
    ensures SignalsSound(Apply(cfg, s, Move(p)).core.queue, Apply(cfg, s, Move(p)).procs)
  {
    var (core', pc') := MoveCore(cfg, s.core, p, s.procs[p]);
    MovePosts(cfg, s.core, p, s.procs[p]);
    if core'.queue == s.core.queue {
      QuietMoveKeepsSignals(s.core.queue, s.procs, p, pc');
    } else {
      PostKeepsSignals(s.core.queue, s.procs, p, if Waiting(pc') then Signal(p) else CacheTask, pc');
    }
  }

  lemma MoveHandsOff(cfg: Config, s: State, p: nat)
    requires cfg.Sound() && Enabled(cfg, s, Move(p)) && HandedOff(s)
    ensures HandedOff(Apply(cfg, s, Move(p)))
  {
    var s' := Apply(cfg, s, Move(p));
    UpdateSomeone(s.procs, p, s'.procs[p]);
    if s.procs[p].SwapPost? || s.procs[p].BootPost? {
      assert s'.core.queue[|s.core.queue|] == CacheTask;
    } else if CacheTask in s.core.queue {
      assert CacheTask in s'.core.queue;
    }
  }

  lemma AppendKeepsCacheAhead(queue: seq<Task>, task: Task, p: nat)
    ensures CacheAhead(queue, p) ==> CacheAhead(queue + [task], p)
    ensures task.CacheTask? && Signal(p) !in queue ==> CacheAhead(queue + [task], p)
  {
    var after := queue + [task];
    if CacheAhead(queue, p) {
      var i :| 0 <= i < |queue| && queue[i].CacheTask? && forall j | 0 <= j <= i :: queue[j] != Signal(p);
      assert after[i].CacheTask?;
      assert forall j | 0 <= j <= i :: after[j] == queue[j];
    }
    if task.CacheTask? && Signal(p) !in queue {
      assert after[|queue|].CacheTask?;
    }
  }

  /** What carries one producer's progress over a step: nothing already achieved is undone. */
  ghost predicate NothingUndone(s: State, s': State, p: nat) {
    && |s.core.pushed| <= |s'.core.pushed|
    && |s.core.pushed| - |s.core.master.entries| <= |s'.core.pushed| - |s'.core.master.entries|
    && |Written(s.core)| <= |Written(s'.core)|
    && s'.worker == s.worker
    && (s.core.free ==> s'.core.free || Exchanging(s'.procs))
    && (Exchanging(s.procs) ==> Exchanging(s'.procs) || s'.core.master.entries == [])
    && (CacheAhead(s.core.queue, p) ==> CacheAhead(s'.core.queue, p))
  }

  lemma ProgressSurvives(s: State, s': State, p: nat)
    requires p < |s.procs| && p < |s'.procs| && s'.procs[p] == s.procs[p]
    requires Progress(s, p) && NothingUndone(s, s', p)
    ensures Progress(s', p)
  {
  }

  lemma MoveUndoesNothing(cfg: Config, s: State, p: nat, q: nat)
    requires cfg.Sound() && Enabled(cfg, s, Move(p)) && WindowSound(s)
    ensures NothingUndone(s, Apply(cfg, s, Move(p)), q)
  {
    var pc := s.procs[p];
    var s' := Apply(cfg, s, Move(p));
    MoveBuffers(cfg, s.core, p, pc);
    MoveFlag(cfg, s.core, p, pc);
    MoveWindow(cfg, s.core, p, pc);
    MovePosts(cfg, s.core, p, pc);
    UpdateSomeone(s.procs, p, s'.procs[p]);
    AppendKeepsCacheAhead(s.core.queue, CacheTask, q);
    AppendKeepsCacheAhead(s.core.queue, Signal(p), q);
    if pc.SwapExchange? {
      assert Exchanging(s.procs);
    }
  }

  predicate InLog(pc: Proc) {
    pc.LogStart? || pc.LogReset? || pc.LogPush? || pc.LogRatio?
  }

  /** A call of `Log` waits for nothing, so its mark is zero throughout. */
  lemma LogMakesProgress(cfg: Config, s: State, p: nat)
    requires cfg.Sound() && Enabled(cfg, s, Move(p)) && InLog(s.procs[p]) && Conserved(s)
    ensures Progress(Apply(cfg, s, Move(p)), p)
  {
    hide EntriesOf, AllChunks, Payload, AppendEntry;
    MoveBuffers(cfg, s.core, p, s.procs[p]);
    assert |Written(s.core)| + |Unwritten(s)| + |s.core.master.entries| == |s.core.pushed|;
  }

  predicate Posting(pc: Proc) {
    pc.FlushPost? || pc.BootPost? || pc.SignalFirst? || pc.SwapPost? || pc.SignalLast?
  }

  lemma PostMakesProgress(cfg: Config, s: State, p: nat)
    requires cfg.Sound() && Enabled(cfg, s, Move(p)) && Posting(s.procs[p])
    requires SignalsSound(s.core.queue, s.procs) && Progress(s, p)
    ensures Progress(Apply(cfg, s, Move(p)), p)
  {
    hide EntriesOf, AllChunks, CacheAhead;
    var s' := Apply(cfg, s, Move(p));
    UpdateSomeone(s.procs, p, s'.procs[p]);
    AppendKeepsCacheAhead(s.core.queue, CacheTask, p);
    AppendKeepsCacheAhead(s.core.queue, Signal(p), p);
    assert Signal(p) !in s.core.queue;
  }

  lemma SwapMakesProgress(cfg: Config, s: State, p: nat)
    requires cfg.Sound() && Enabled(cfg, s, Move(p)) && !InLog(s.procs[p]) && !Posting(s.procs[p])
    requires Conserved(s) && WindowSound(s) && Progress(s, p)
    ensures Progress(Apply(cfg, s, Move(p)), p)
  {
    hide EntriesOf, AllChunks, CacheAhead;
    var pc := s.procs[p];
    var s' := Apply(cfg, s, Move(p));
    UpdateSomeone(s.procs, p, s'.procs[p]);
    assert pc.SwapExchange? ==> Exchanging(s.procs);
  }

  lemma MoveMakesProgress(cfg: Config, s: State, p: nat)
    requires cfg.Sound() && Enabled(cfg, s, Move(p))
    requires Conserved(s) && WindowSound(s) && SignalsSound(s.core.queue, s.procs) && Progress(s, p)
    ensures Progress(Apply(cfg, s, Move(p)), p)
  {
    hide Conserved, WindowSound, SignalsSound, Progress, Apply;
    if InLog(s.procs[p]) {
      LogMakesProgress(cfg, s, p);
    } else if Posting(s.procs[p]) {
      PostMakesProgress(cfg, s, p);
    } else {
      SwapMakesProgress(cfg, s, p);
    }
  }

  lemma MoveKeepsProgress(cfg: Config, s: State, p: nat)
    requires cfg.Sound() && Enabled(cfg, s, Move(p))
    requires Conserved(s) && WindowSound(s) && SignalsSound(s.core.queue, s.procs) && AllProgress(s)
    ensures AllProgress(Apply(cfg, s, Move(p)))
  {
    var s' := Apply(cfg, s, Move(p));
    forall q | 0 <= q < |s'.procs| ensures Progress(s', q) {
      assert Progress(s, q);
      if q == p {
        MoveMakesProgress(cfg, s, p);
      } else {
        MoveUndoesNothing(cfg, s, p, q);
        ProgressSurvives(s, s', q);
      }
    }
  }

  /** The constructor hands over to ordinary producers and never comes back. */
  lemma MoveBoots(cfg: Config, c: Core, p: nat, pc: Proc)
    requires cfg.Sound() && !Waiting(pc) && !pc.Idle?
    ensures var (c', pc') := MoveCore(cfg, c, p, pc);
            && (Booting(pc') ==> Booting(pc) && MarkOf(pc') == MarkOf(pc))
            && (Booting(pc) && !Booting(pc') ==> pc' == Idle && (pc.SwapPost? || c.master.entries == []))
            && (Booting(pc) ==> c'.pushed == c.pushed)
  {
  }

  lemma MoveKeepsBoot(cfg: Config, s: State, p: nat)
    requires cfg.Sound() && Enabled(cfg, s, Move(p))
    requires WindowSound(s) && BootSound(s) && AllProgress(s)
    ensures BootSound(Apply(cfg, s, Move(p)))
  {
    var s' := Apply(cfg, s, Move(p));
    MoveBuffers(cfg, s.core, p, s.procs[p]);
    MoveBoots(cfg, s.core, p, s.procs[p]);
    MoveUndoesNothing(cfg, s, p, p);
    if p == 0 && Booting(s.procs[0]) {
      assert Progress(s, 0);
    }
  }

  // ---------- the strand keeps it ----------

  /** The strand never touches the master; only writing a body adds entries to the files. */
  lemma WorkBuffers(cfg: Config, s: State, spare: Bytes)
    requires cfg.Sound() && Enabled(cfg, s, Work(spare))
    ensures var c' := WorkStep(cfg, s, spare).core;
            && c'.master == s.core.master && c'.pushed == s.core.pushed
            && c'.slave.entries == (if s.worker.ClearSlave? then [] else s.core.slave.entries)
            && (!s.worker.WriteHeader? && !s.worker.WriteBody? ==> c'.files == s.core.files)
            && (s.worker.WriteHeader? ==> c' == OpenChunk(cfg, s.core, s.worker.n, spare))
            && (s.worker.WriteBody? ==> c' == FillChunk(s.core, s.worker.n))
    ensures WorkStep(cfg, s, spare).worker.ClearSlave? <==> s.worker.WriteBody?
  {
  }

  /** What a strand step does to the queue and to the producers. */
  lemma WorkProcs(cfg: Config, s: State, spare: Bytes)
    requires cfg.Sound() && Enabled(cfg, s, Work(spare))
    ensures var s' := WorkStep(cfg, s, spare);
            && s'.recovered == s.recovered && |s'.procs| == |s.procs|
            && (if s.worker.Resting? then
                  && s'.core == s.core.(queue := s.core.queue[1..])
                  && (s'.worker == if s.core.queue[0].CacheTask? then CheckFlag else Resting)
                  && forall p | 0 <= p < |s.procs| ::
                       s'.procs[p] == if s.core.queue[0] == Signal(p) then Signalled(s.procs[p]) else s.procs[p]
                else s'.procs == s.procs && s'.core.queue == s.core.queue)
  {
    hide HeaderFor, EntriesBytes, FileSize;
  }

  lemma WorkWrites(cfg: Config, s: State, spare: Bytes)
    requires cfg.Sound() && Enabled(cfg, s, Work(spare)) && ChunksSound(cfg, s)
    ensures Written(WorkStep(cfg, s, spare).core)
         == Written(s.core) + if s.worker.WriteBody? then s.core.slave.entries else []
  {
    WorkBuffers(cfg, s, spare);
    if s.worker.WriteHeader? {
      AllChunksAfterOpen(cfg, s.core, s.worker.n, spare);
      EntriesOfAppend(AllChunks(s.core.files), Chunk(HeaderFor(cfg, s.worker.n, spare), [], []));
    } else if s.worker.WriteBody? {
      FillConserves(s.core, s.worker.n);
    }
  }

  /** Conservation across a strand step, from what the step does to the buffers and the files. */
  lemma StillConserved(s: State, s': State)
    requires Conserved(s) && s'.core.master == s.core.master && s'.core.pushed == s.core.pushed
    requires Written(s'.core) == Written(s.core) + if s.worker.WriteBody? then s.core.slave.entries else []
    requires s'.core.slave.entries == (if s.worker.ClearSlave? then [] else s.core.slave.entries)
    requires s'.worker.ClearSlave? <==> s.worker.WriteBody?
    ensures Conserved(s')
  {
    var written, slave, master := Written(s.core), s.core.slave.entries, s.core.master.entries;
    if s.worker.WriteBody? {
      assert written + slave + [] + master == written + slave + master;
    } else if s.worker.ClearSlave? {
      assert written + [] + [] + master == written + [] + master;
    } else {
      assert written + [] + Unwritten(s) + master == written + Unwritten(s) + master;
    }
  }

  lemma WorkConserves(cfg: Config, s: State, spare: Bytes)
    requires cfg.Sound() && Enabled(cfg, s, Work(spare)) && Conserved(s) && ChunksSound(cfg, s)
    ensures Conserved(Apply(cfg, s, Work(spare)))
  {
    hide WorkStep, Conserved, Written, ChunksSound;
    WorkBuffers(cfg, s, spare);
    WorkWrites(cfg, s, spare);
    StillConserved(s, WorkStep(cfg, s, spare));
  }

  /** Filling the open chunk moves the slave's entries into the files. */
  lemma FillConserves(c: Core, n: nat)
    requires HasChunk(c.files)
    requires var chunks := AllChunks(c.files); chunks != [] && chunks[|chunks| - 1].entries == []
    ensures Written(FillChunk(c, n)) == Written(c) + c.slave.entries
  {
    hide AllChunks, FillChunk, EntriesBytes;
    var chunks := AllChunks(c.files);
    AllChunksAfterFill(c, n);
    var after := AllChunks(FillChunk(c, n).files);
    EntriesOfReplaceLast(chunks, after[|chunks| - 1]);
  }

  lemma WorkKeepsChunks(cfg: Config, s: State, spare: Bytes)
    requires cfg.Sound() && Enabled(cfg, s, Work(spare))
    requires ChunksSound(cfg, s) && StrandSound(s) && SizesSound(s)
    ensures ChunksSound(cfg, Apply(cfg, s, Work(spare)))
  {
    hide EntriesBytes, AllChunks;
    match s.worker {
      case WriteHeader(n) =>
        AllChunksAfterOpen(cfg, s.core, n, spare);
        var header := HeaderFor(cfg, n, spare);
        assert header.publicKey[PUBLIC_KEY..] == spare;
      case WriteBody(n) =>
        AllChunksAfterFill(s.core, n);
        var bytes := EntriesBytes(s.core.slave.entries);
        assert bytes[..n] == bytes;
      case _ =>
    }
  }

  /** Where the strand goes, and what it does to the flag. */
  lemma WorkTurns(cfg: Config, s: State, spare: Bytes)
    requires cfg.Sound() && Enabled(cfg, s, Work(spare))
    ensures var s' := WorkStep(cfg, s, spare);
            && s'.core.free == (s.core.free || s.worker.SetFree?)
            && s'.worker == match s.worker
                            case Resting => if s.core.queue[0].CacheTask? then CheckFlag else Resting
                            case CheckFlag => if s.core.free then Resting else CheckEmpty
                            case CheckEmpty => if s.core.slave.entries == [] then SetFree else ReadSize
                            case ReadSize => WriteHeader(BufferSize(s.core.slave))
                            case WriteHeader(n) => WriteBody(n)
                            case WriteBody(_) => ClearSlave
                            case ClearSlave => SetFree
                            case SetFree => Resting
  {
    hide HeaderFor, EntriesBytes, FileSize;
  }

  lemma WorkKeepsSlave(cfg: Config, s: State, spare: Bytes)
    requires cfg.Sound() && Enabled(cfg, s, Work(spare)) && StrandSound(s) && SizesSound(s)
    ensures StrandSound(Apply(cfg, s, Work(spare))) && SizesSound(Apply(cfg, s, Work(spare)))
  {
    hide WorkStep;
    WorkBuffers(cfg, s, spare);
    WorkTurns(cfg, s, spare);
  }

  lemma WorkKeepsWindow(cfg: Config, s: State, spare: Bytes)
    requires cfg.Sound() && Enabled(cfg, s, Work(spare)) && RaceFree(s, Work(spare))
    requires StrandSound(s) && WindowSound(s)
    ensures WindowSound(Apply(cfg, s, Work(spare)))
  {
    hide HeaderFor, FileSize, EntriesBytes;
    WorkProcs(cfg, s, spare);
    var s' := Apply(cfg, s, Work(spare));
    assert forall p | 0 <= p < |s.procs| ::
        s'.procs[p].SwapStore? == s.procs[p].SwapStore? && s'.procs[p].SwapExchange? == s.procs[p].SwapExchange?;
    assert Exchanging(s'.procs) ==> Exchanging(s.procs);
    assert Storing(s'.procs) ==> Storing(s.procs);
  }

  lemma WorkKeepsStrand(cfg: Config, s: State, spare: Bytes)
    requires cfg.Sound() && Enabled(cfg, s, Work(spare)) && RaceFree(s, Work(spare))
    requires StrandSound(s) && WindowSound(s) && SizesSound(s)
    ensures StrandSound(Apply(cfg, s, Work(spare)))
    ensures WindowSound(Apply(cfg, s, Work(spare)))
    ensures SizesSound(Apply(cfg, s, Work(spare)))
  {
    WorkKeepsSlave(cfg, s, spare);
    WorkKeepsWindow(cfg, s, spare);
    hide StrandSound, WindowSound, SizesSound, Apply;
  }

  lemma PopKeepsSignals(queue: seq<Task>, procs: seq<Proc>, procs': seq<Proc>)
    requires queue != [] && SignalsSound(queue, procs) && |procs'| == |procs|
    requires forall p | 0 <= p < |procs| :: procs'[p] == if queue[0] == Signal(p) then Signalled(procs[p]) else procs[p]
    ensures SignalsSound(queue[1..], procs')
  {
    assert forall i | 0 <= i < |queue[1..]| :: queue[1..][i] == queue[i + 1];
    forall q | 0 <= q < |procs'| && Waiting(procs'[q]) ensures Signal(q) in queue[1..] {
      assert Waiting(procs[q]) && Signal(q) in queue && queue[0] != Signal(q);
    }
  }

  lemma WorkKeepsSignals(cfg: Config, s: State, spare: Bytes)
    requires cfg.Sound() && Enabled(cfg, s, Work(spare)) && SignalsSound(s.core.queue, s.procs)
    ensures SignalsSound(Apply(cfg, s, Work(spare)).core.queue, Apply(cfg, s, Work(spare)).procs)
  {
    hide WorkStep, SignalsSound, Signalled;
    WorkProcs(cfg, s, spare);
    if s.worker.Resting? {
      PopKeepsSignals(s.core.queue, s.procs, WorkStep(cfg, s, spare).procs);
    }
  }

  lemma WorkHandsOff(cfg: Config, s: State, spare: Bytes)
    requires cfg.Sound() && Enabled(cfg, s, Work(spare)) && HandedOff(s)
    requires SignalsSound(s.core.queue, s.procs)
    ensures HandedOff(Apply(cfg, s, Work(spare)))
  {
    if s.worker.Resting? {
      var queue, s' := s.core.queue, Apply(cfg, s, Work(spare));
      if queue[0].Signal? {
        var p := queue[0].waiter;
        UpdateSomeone(s.procs, p, s'.procs[p]);
      }
      if CacheTask in queue && queue[0] != CacheTask {
        assert CacheTask in queue[1..];
      }
    }
  }

  lemma PopKeepsCacheAhead(queue: seq<Task>, p: nat)
    requires queue != []
    ensures CacheAhead(queue, p) ==> queue[0] != Signal(p) && (queue[0] == CacheTask || CacheAhead(queue[1..], p))
  {
    if CacheAhead(queue, p) && queue[0] != CacheTask {
      var i :| 0 <= i < |queue| && queue[i].CacheTask? && forall j | 0 <= j <= i :: queue[j] != Signal(p);
      assert queue[1..][i - 1].CacheTask?;
      assert forall j | 0 <= j <= i - 1 :: queue[1..][j] == queue[j + 1];
    }
  }

  /** With the slave empty, what has left the master is in the files. */
  lemma LeftMasterIsWritten(s: State, mark: nat)
    requires Conserved(s) && Unwritten(s) == [] && LeftMaster(s, mark)
    ensures InFiles(s, mark)
  {
    assert |Written(s.core)| + |Unwritten(s)| + |s.core.master.entries| == |s.core.pushed|;
  }

  lemma WorkKeepsProgress(cfg: Config, s: State, spare: Bytes, p: nat)
    requires cfg.Sound() && Enabled(cfg, s, Work(spare)) && RaceFree(s, Work(spare)) && p < |s.procs|
    requires Conserved(s) && ChunksSound(cfg, s) && StrandSound(s) && WindowSound(s)
    requires SignalsSound(s.core.queue, s.procs) && Progress(s, p)
    ensures Progress(Apply(cfg, s, Work(spare)), p)
  {
    if s.worker.Resting? {
      PopKeepsProgress(cfg, s, spare, p);
    } else if s.worker.CheckFlag? || s.worker.SetFree? {
      if LeftMaster(s, MarkOf(s.procs[p])) && Unwritten(s) == [] {
        LeftMasterIsWritten(s, MarkOf(s.procs[p]));
      }
    } else {
      WritingKeepsProgress(cfg, s, spare, p);
    }
  }

  lemma WritingKeepsProgress(cfg: Config, s: State, spare: Bytes, p: nat)
    requires cfg.Sound() && Enabled(cfg, s, Work(spare)) && p < |s.procs|
    requires Conserved(s) && ChunksSound(cfg, s) && StrandSound(s) && Progress(s, p)
    requires !s.worker.Resting? && !s.worker.CheckFlag? && !s.worker.SetFree?
    ensures Progress(Apply(cfg, s, Work(spare)), p)
  {
    WorkConserves(cfg, s, spare);
    var s' := Apply(cfg, s, Work(spare));
    assert s'.core.master == s.core.master && s'.core.pushed == s.core.pushed && s'.core.free == s.core.free;
    assert s'.core.queue == s.core.queue && s'.procs == s.procs;
  }

  lemma PopKeepsProgress(cfg: Config, s: State, spare: Bytes, p: nat)
    requires cfg.Sound() && Enabled(cfg, s, Work(spare)) && p < |s.procs| && s.worker.Resting?
    requires SignalsSound(s.core.queue, s.procs) && Progress(s, p)
    ensures Progress(Apply(cfg, s, Work(spare)), p)
  {
    hide WorkStep, EntriesOf, AllChunks, CacheAhead;
    var s' := Apply(cfg, s, Work(spare));
    PopKeepsCacheAhead(s.core.queue, p);
    WorkProcs(cfg, s, spare);
    assert forall q | 0 <= q < |s.procs| :: s'.procs[q].SwapExchange? == s.procs[q].SwapExchange?;
    assert Exchanging(s'.procs) == Exchanging(s.procs);
  }

  /** A signal wakes a waiter and changes nothing about who is constructing. */
  lemma SignalledBoots(pc: Proc)
    ensures Booting(Signalled(pc)) <==> Booting(pc)
    ensures MarkOf(Signalled(pc)) == MarkOf(pc)
    ensures Signalled(pc).Idle? <==> pc.Idle?
  {
  }

  lemma WorkKeepsBoot(cfg: Config, s: State, spare: Bytes)
    requires cfg.Sound() && Enabled(cfg, s, Work(spare)) && BootSound(s)
    ensures BootSound(Apply(cfg, s, Work(spare)))
  {
    hide WorkStep, Signalled, Booting, MarkOf;
    WorkBuffers(cfg, s, spare);
    WorkProcs(cfg, s, spare);
    forall p | 0 <= p < |s.procs|
      ensures var pc := WorkStep(cfg, s, spare).procs[p];
              Booting(pc) == Booting(s.procs[p]) && MarkOf(pc) == MarkOf(s.procs[p]) && pc.Idle? == s.procs[p].Idle?
    {
      SignalledBoots(s.procs[p]);
    }
  }

  // ---------- every race-free run keeps it ----------

  lemma BeginKeepsInv(cfg: Config, s: State, p: nat, pc: Proc)
    requires p < |s.procs| && s.procs[p].Idle? && !Booting(s.procs[0]) && Inv(cfg, s)
    requires pc.LogStart? || pc == FlushPost(|s.core.pushed|)
    ensures Inv(cfg, s.(procs := s.procs[p := pc]))
  {
    hide AllChunks, EntriesOf, EntriesBytes, Complete, JustOpened, SignalsSound;
    var s' := s.(procs := s.procs[p := pc]);
    UpdateSomeone(s.procs, p, pc);
    QuietMoveKeepsSignals(s.core.queue, s.procs, p, pc);
    forall q | 0 <= q < |s'.procs| ensures Progress(s', q) {
      assert Progress(s, q);
    }
  }

  lemma PostOtherKeepsInv(cfg: Config, s: State)
    requires Inv(cfg, s)
    ensures Inv(cfg, s.(core := Post(s.core, OtherTask)))
  {
    hide AllChunks, EntriesOf, EntriesBytes, Complete, JustOpened, CacheAhead;
    var s' := s.(core := Post(s.core, OtherTask));
    assert s.core.queue + [OtherTask] == s'.core.queue;
    forall q | 0 <= q < |s.procs| ensures Progress(s', q) {
      assert Progress(s, q);
      AppendKeepsCacheAhead(s.core.queue, OtherTask, q);
      ProgressSurvives(s, s', q);
    }
    forall q | 0 <= q < |s.procs| && Waiting(s.procs[q]) ensures Signal(q) in s'.core.queue {
      assert Signal(q) in s.core.queue;
    }
    assert CacheTask in s.core.queue ==> CacheTask in s'.core.queue;
  }

  lemma StepKeepsInv(cfg: Config, s: State, a: Action)
    requires cfg.Sound() && Enabled(cfg, s, a) && RaceFree(s, a) && Inv(cfg, s)
    ensures Inv(cfg, Apply(cfg, s, a))
  {
    hide Inv, RaceFree, MoveCore, WorkStep;
    match a {
      case BeginLog(p, msg) => BeginKeepsInv(cfg, s, p, LogStart(msg));
      case BeginFlush(p) => BeginKeepsInv(cfg, s, p, FlushPost(|s.core.pushed|));
      case PostOther => PostOtherKeepsInv(cfg, s);
      case Move(p) => MoveKeepsInv(cfg, s, p);
      case Work(spare) => WorkKeepsInv(cfg, s, spare);
    }
  }

  lemma MoveKeepsInv(cfg: Config, s: State, p: nat)
    requires cfg.Sound() && Enabled(cfg, s, Move(p)) && RaceFree(s, Move(p)) && Inv(cfg, s)
    ensures Inv(cfg, Apply(cfg, s, Move(p)))
  {
    hide Conserved, ChunksSound, SizesSound, StrandSound, WindowSound, SignalsSound, HandedOff, AllProgress, BootSound;
    hide RaceFree, Apply;
    MoveConserves(cfg, s, p);
    MoveKeepsSizes(cfg, s, p);
    MoveKeepsStrand(cfg, s, p);
    MoveKeepsWindow(cfg, s, p);
    MoveKeepsSignals(cfg, s, p);
    MoveHandsOff(cfg, s, p);
    MoveKeepsProgress(cfg, s, p);
    MoveKeepsBoot(cfg, s, p);
  }

  lemma WorkKeepsCount(cfg: Config, s: State, spare: Bytes)
    requires cfg.Sound() && Enabled(cfg, s, Work(spare))
    ensures |Apply(cfg, s, Work(spare)).procs| == |s.procs|
  {
  }

  lemma StepKeepsCount(cfg: Config, s: State, a: Action)
    requires cfg.Sound() && Enabled(cfg, s, a)
    ensures |Apply(cfg, s, a).procs| == |s.procs|
  {
  }

  lemma WorkKeepsAllProgress(cfg: Config, s: State, spare: Bytes)
    requires cfg.Sound() && Enabled(cfg, s, Work(spare)) && RaceFree(s, Work(spare)) && AllProgress(s)
    requires Conserved(s) && ChunksSound(cfg, s) && StrandSound(s) && WindowSound(s) && SignalsSound(s.core.queue, s.procs)
    ensures AllProgress(Apply(cfg, s, Work(spare)))
  {
    hide Conserved, ChunksSound, StrandSound, WindowSound, SignalsSound, Progress, RaceFree, Apply;
    WorkKeepsCount(cfg, s, spare);
    forall p | 0 <= p < |s.procs| ensures Progress(Apply(cfg, s, Work(spare)), p) {
      assert Progress(s, p);
      WorkKeepsProgress(cfg, s, spare, p);
    }
  }

  lemma WorkKeepsInv(cfg: Config, s: State, spare: Bytes)
    requires cfg.Sound() && Enabled(cfg, s, Work(spare)) && RaceFree(s, Work(spare)) && Inv(cfg, s)
    ensures Inv(cfg, Apply(cfg, s, Work(spare)))
  {
    hide Conserved, ChunksSound, SizesSound, StrandSound, WindowSound, SignalsSound, HandedOff, AllProgress, BootSound;
    hide RaceFree, Apply;
    WorkConserves(cfg, s, spare);
    WorkKeepsChunks(cfg, s, spare);
    WorkKeepsStrand(cfg, s, spare);
    WorkKeepsSignals(cfg, s, spare);
    WorkHandsOff(cfg, s, spare);
    WorkKeepsBoot(cfg, s, spare);
    WorkKeepsAllProgress(cfg, s, spare);
  }

  lemma StartProgress(master: Buffer, slave: Buffer, producers: nat)
    requires producers > 0
    ensures AllProgress(Start(master, slave, producers)) && BootSound(Start(master, slave, producers))
    ensures WindowSound(Start(master, slave, producers)) && HandedOff(Start(master, slave, producers))
  {
    hide EntriesOf, AllChunks;
    var s := Start(master, slave, producers);
    assert slave.entries != [] ==> WillPost(s.procs[0]);
  }

  lemma StartHasInv(cfg: Config, master: Buffer, slave: Buffer, producers: nat)
    requires producers > 0 && BufferSize(master) < U32 && BufferSize(slave) < U32
    ensures Inv(cfg, Start(master, slave, producers))
  {
    hide AllProgress, BootSound, WindowSound, HandedOff, EntriesBytes;
    StartProgress(master, slave, producers);
    assert slave.entries + master.entries == [] + slave.entries + master.entries;
  }

  lemma {:induction false} RunKeepsInv(cfg: Config, ss: seq<State>, acts: seq<Action>, i: nat)
    requires IsRaceFreeRun(cfg, ss, acts) && Inv(cfg, ss[0]) && i <= |acts|
    ensures Inv(cfg, ss[i])
  {
    hide Inv, Apply, RaceFree;
    if i > 0 {
      RunKeepsInv(cfg, ss, acts, i - 1);
      StepKeepsInv(cfg, ss[i - 1], acts[i - 1]);
    }
  }

  ghost predicate Starts(s: State) {
    exists master: Buffer, slave: Buffer, producers: nat ::
      && producers > 0 && BufferSize(master) < U32 && BufferSize(slave) < U32
      && s == Start(master, slave, producers)
  }

  // ---------- main results ----------

  /**
   * Conservation and order: in every state of every race-free run, with any number of producers, the bodies in the
   * files, then the slave's unwritten entries, then the master's, are exactly the entries pushed, in push order.
   */
  lemma Conservation(cfg: Config, ss: seq<State>, acts: seq<Action>, i: nat)
    requires IsRaceFreeRun(cfg, ss, acts) && Starts(ss[0]) && i <= |acts|
    ensures var s := ss[i];
            Written(s.core) + (if s.worker.ClearSlave? then [] else s.core.slave.entries) + s.core.master.entries
            == s.core.pushed
  {
    StartedRunKeepsInv(cfg, ss, acts, i);
  }

  lemma StartedRunKeepsInv(cfg: Config, ss: seq<State>, acts: seq<Action>, i: nat)
    requires IsRaceFreeRun(cfg, ss, acts) && Starts(ss[0]) && i <= |acts|
    ensures Inv(cfg, ss[i])
  {
    var master: Buffer, slave: Buffer, producers: nat :|
      producers > 0 && BufferSize(master) < U32 && BufferSize(slave) < U32 && ss[0] == Start(master, slave, producers);
    StartHasInv(cfg, master, slave, producers);
    RunKeepsInv(cfg, ss, acts, i);
  }

  /** From reading the slave's size until the flag is free again no producer's step changes the slave. */
  lemma ExclusiveHandoff(cfg: Config, s: State, a: Action)
    requires cfg.Sound() && Inv(cfg, s) && Enabled(cfg, s, a) && !a.Work?
    requires s.worker.ReadSize? || s.worker.WriteHeader? || s.worker.WriteBody? || s.worker.ClearSlave? || s.worker.SetFree?
    ensures Apply(cfg, s, a).core.slave == s.core.slave && !Apply(cfg, s, a).core.free
  {
    if a.Move? {
      MoveBuffers(cfg, s.core, a.p, s.procs[a.p]);
      MoveFlag(cfg, s.core, a.p, s.procs[a.p]);
      assert s.procs[a.p].SwapExchange? ==> Exchanging(s.procs);
    }
  }

  /** So every chunk in the files, once its body is written, is as long as its header says and holds whole items. */
  lemma ChunksMatchHeaders(cfg: Config, ss: seq<State>, acts: seq<Action>, i: nat, k: nat)
    requires IsRaceFreeRun(cfg, ss, acts) && Starts(ss[0]) && i <= |acts|
    requires !ss[i].worker.WriteBody? && k < |AllChunks(ss[i].core.files)|
    ensures var c := AllChunks(ss[i].core.files)[k];
            c.header.size == |c.body| && c.body == EntriesBytes(c.entries) && c.entries != []
  {
    StartedRunKeepsInv(cfg, ss, acts, i);
  }

  /**
   * No stranded buffer: with the strand idle and no producer between its swap and its post, the flag is free, the
   * slave is empty, and all that is not in the files is in the master.
   */
  lemma NoStrandedBuffer(cfg: Config, ss: seq<State>, acts: seq<Action>, i: nat)
    requires IsRaceFreeRun(cfg, ss, acts) && Starts(ss[0]) && i <= |acts|
    requires ss[i].worker.Resting? && ss[i].core.queue == [] && !SomeoneWillPost(ss[i].procs)
    ensures ss[i].core.free && ss[i].core.slave.entries == []
    ensures Written(ss[i].core) + ss[i].core.master.entries == ss[i].core.pushed
  {
    StartedRunKeepsInv(cfg, ss, acts, i);
    assert Written(ss[i].core) + [] == Written(ss[i].core);
  }

  /** A producer inside one call of `Flush`. */
  predicate Flushing(pc: Proc, mark: nat) {
    && MarkOf(pc) == mark
    && (pc.FlushPost? || pc.SignalLast? || pc.WaitLast? || pc.FlushDone?
        || ((pc.SignalFirst? || pc.WaitFirst? || pc.SwapLoad? || pc.SwapStore? || pc.SwapExchange? || pc.SwapPost?)
            && pc.why.ByFlush?))
  }

  lemma StepKeepsFlushing(cfg: Config, s: State, a: Action, p: nat, mark: nat)
    requires cfg.Sound() && Enabled(cfg, s, a) && p < |s.procs| && Flushing(s.procs[p], mark)
    ensures var s' := Apply(cfg, s, a); |s'.procs| == |s.procs| && (s'.procs[p].Idle? || Flushing(s'.procs[p], mark))
  {
  }

  lemma StepExtendsPushed(cfg: Config, s: State, a: Action)
    requires cfg.Sound() && Enabled(cfg, s, a)
    ensures s.core.pushed <= Apply(cfg, s, a).core.pushed
  {
    if a.Move? {
      MoveBuffers(cfg, s.core, a.p, s.procs[a.p]);
    } else if a.Work? {
      WorkBuffers(cfg, s, a.spare);
    }
  }

  lemma {:induction false} FlushCarriesMark(cfg: Config, ss: seq<State>, acts: seq<Action>, i: nat, j: nat, p: nat)
    requires IsRun(cfg, ss, acts) && i < j <= |acts| && acts[i] == BeginFlush(p)
    requires forall k | i < k <= j :: p < |ss[k].procs| && !ss[k].procs[p].Idle?
    ensures Flushing(ss[j].procs[p], |ss[i].core.pushed|)
    ensures ss[i].core.pushed <= ss[j].core.pushed
    decreases j
  {
    if j > i + 1 {
      FlushCarriesMark(cfg, ss, acts, i, j - 1, p);
      StepKeepsFlushing(cfg, ss[j - 1], acts[j - 1], p, |ss[i].core.pushed|);
      StepExtendsPushed(cfg, ss[j - 1], acts[j - 1]);
    }
  }

  /**
   * Flush is a barrier: whatever other producers push, swap and post meanwhile, when a call of `Flush` returns every
   * entry pushed before the call is in the files, in order.
   */
  lemma FlushIsBarrier(cfg: Config, ss: seq<State>, acts: seq<Action>, i: nat, j: nat, p: nat)
    requires IsRaceFreeRun(cfg, ss, acts) && Starts(ss[0])
    requires i < j <= |acts| && acts[i] == BeginFlush(p)
    requires forall k | i < k <= j :: p < |ss[k].procs| && !ss[k].procs[p].Idle?
    requires ss[j].procs[p].FlushDone?
    ensures ss[i].core.pushed <= Written(ss[j].core)
  {
    hide ChunksSound, SizesSound, StrandSound, WindowSound, SignalsSound, HandedOff, BootSound, Apply, RaceFree, Enabled;
    FlushCarriesMark(cfg, ss, acts, i, j, p);
    StartedRunKeepsInv(cfg, ss, acts, j);
    assert Progress(ss[j], p);
    var s := ss[j];
    assert Written(s.core) + (Unwritten(s) + s.core.master.entries)
        == Written(s.core) + Unwritten(s) + s.core.master.entries;
    PrefixOfPrefix(ss[i].core.pushed, Written(s.core), s.core.pushed, Unwritten(s) + s.core.master.entries);
  }

  lemma PrefixOfPrefix(early: seq<Entry>, written: seq<Entry>, all: seq<Entry>, rest: seq<Entry>)
    requires early <= all && |early| <= |written| && written + rest == all
    ensures early <= written
  {
  }
}
