/**
 * `SwapCache_` is not atomic in the code. When its steps can be interleaved harmfully, what then goes wrong, and
 * when they cannot.
 */
module Races {
  import opened Bytes
  import opened Layout
  import opened Pipeline
  import opened Handoff
  import opened Schedules

  // ---------- one producer ----------

  /** No cache task is queued or running. */
  predicate Quiet(s: State) {
    s.worker.Resting? && CacheTask !in s.core.queue
  }

  predicate SwapPc(pc: Proc) {
    pc.SwapLoad? || pc.SwapStore? || pc.SwapExchange?
  }

  /** With one producer a cache task is never queued behind the signal it waits for, so other swaps find it quiet. */
  predicate SoloInv(s: State) {
    && |s.procs| == 1
    && SignalsSound(s.core.queue, s.procs)
    && (forall i, j | 0 <= i < j < |s.core.queue| && s.core.queue[i].Signal? :: s.core.queue[j] != CacheTask)
    && (SwapPc(s.procs[0]) && !s.procs[0].why.ByLog? ==> Quiet(s))
  }

  lemma SoloMoveKeeps(cfg: Config, s: State)
    requires cfg.Sound() && Enabled(cfg, s, Move(0)) && SoloInv(s)
    ensures SoloInv(Apply(cfg, s, Move(0)))
  {
    var (core', pc') := MoveCore(cfg, s.core, 0, s.procs[0]);
    MovePosts(cfg, s.core, 0, s.procs[0]);
    MoveKeepsSignals(cfg, s, 0);
    SwapsStayQuiet(cfg, s.core, s.procs[0]);
    assert forall i | 0 <= i < |s.core.queue| :: !s.core.queue[i].Signal?;
  }

  lemma SwapsStayQuiet(cfg: Config, c: Core, pc: Proc)
    requires cfg.Sound() && !Waiting(pc) && !pc.Idle?
    ensures var (c', pc') := MoveCore(cfg, c, 0, pc);
            SwapPc(pc') && !pc'.why.ByLog? ==> SwapPc(pc) && pc.why == pc'.why && c'.queue == c.queue
  {
  }

  lemma SoloWorkKeeps(cfg: Config, s: State, spare: Bytes)
    requires cfg.Sound() && Enabled(cfg, s, Work(spare)) && SoloInv(s)
    ensures SoloInv(WorkStep(cfg, s, spare))
  {
    hide SignalsSound;
    var s' := WorkStep(cfg, s, spare);
    WorkKeepsSignals(cfg, s, spare);
    WorkProcs(cfg, s, spare);
    WorkTurns(cfg, s, spare);
    hide WorkStep;
    assert s.worker.Resting? ==> forall i | 0 <= i < |s'.core.queue| :: s'.core.queue[i] == s.core.queue[i + 1];
  }

  lemma SoloStepKeeps(cfg: Config, s: State, a: Action)
    requires cfg.Sound() && Enabled(cfg, s, a) && SoloInv(s)
    ensures SoloInv(Apply(cfg, s, a))
  {
    match a {
      case Move(p) => SoloMoveKeeps(cfg, s);
      case Work(spare) => SoloWorkKeeps(cfg, s, spare);
      case BeginLog(p, m) => QuietMoveKeepsSignals(s.core.queue, s.procs, p, LogStart(m));
      case BeginFlush(p) => QuietMoveKeepsSignals(s.core.queue, s.procs, p, FlushPost(|s.core.pushed|));
      case PostOther => PostOtherKeepsSignals(s.core.queue, s.procs);
    }
  }

  lemma PostOtherKeepsSignals(queue: seq<Task>, procs: seq<Proc>)
    requires SignalsSound(queue, procs)
    ensures SignalsSound(queue + [OtherTask], procs)
  {
    forall p | 0 <= p < |procs| && Waiting(procs[p]) ensures Signal(p) in queue + [OtherTask] {
      assert Signal(p) in queue;
    }
  }

  /** The one step that can go wrong: the strand looks into the slave in the middle of a swap made by `Log`. */
  predicate LogSwapRaces(s: State, a: Action) {
    a.Work? && s.worker.CheckEmpty? && s.procs != [] && s.procs[0] == SwapExchange(ByLog)
  }

  lemma SoloStepRacesIff(s: State, a: Action)
    requires SoloInv(s)
    ensures RaceFree(s, a) <==> !LogSwapRaces(s, a)
  {
    if s.procs[0].SwapExchange? {
      assert Exchanging(s.procs);
    }
  }

  /**
   * With one producer the swaps of `Flush` and of the constructor never race: a run is race-free exactly when the
   * strand never looks into the slave between the store and the exchange of a swap made by `Log`.
   */
  lemma SoloRunRaceFreeIff(cfg: Config, ss: seq<State>, acts: seq<Action>)
    requires IsRun(cfg, ss, acts) && Starts(ss[0]) && |ss[0].procs| == 1
    ensures IsRaceFreeRun(cfg, ss, acts) <==> forall i | 0 <= i < |acts| :: !LogSwapRaces(ss[i], acts[i])
  {
    forall i | 0 <= i < |acts| ensures RaceFree(ss[i], acts[i]) <==> !LogSwapRaces(ss[i], acts[i]) {
      SoloRunKeeps(cfg, ss, acts, i);
      SoloStepRacesIff(ss[i], acts[i]);
    }
  }

  lemma {:induction false} SoloRunKeeps(cfg: Config, ss: seq<State>, acts: seq<Action>, i: nat)
    requires IsRun(cfg, ss, acts) && Starts(ss[0]) && |ss[0].procs| == 1 && i <= |acts|
    ensures SoloInv(ss[i])
  {
    if i > 0 {
      SoloRunKeeps(cfg, ss, acts, i - 1);
      SoloStepKeeps(cfg, ss[i - 1], acts[i - 1]);
    }
  }

  // ---------- a swap with nobody in its way ----------

  predicate InLogSwap(s: State, p: nat) {
    p < |s.procs| && s.procs[p] in {SwapLoad(ByLog), SwapStore(ByLog), SwapExchange(ByLog), SwapPost(ByLog)}
  }

  /** The call of `Log` of producer `p` is still inside its swap after every one of these actions. */
  ghost predicate StaysInSwap(cfg: Config, s: State, p: nat, acts: seq<Action>)
    requires cfg.Sound()
    decreases |acts|
  {
    && InLogSwap(s, p)
    && (acts != [] ==> Enabled(cfg, s, acts[0]) && StaysInSwap(cfg, Apply(cfg, s, acts[0]), p, acts[1..]))
  }

  lemma StaysIsPossible(cfg: Config, s: State, p: nat, acts: seq<Action>)
    requires cfg.Sound() && StaysInSwap(cfg, s, p, acts)
    ensures Possible(cfg, s, acts)
    decreases |acts|
  {
    if acts != [] {
      StaysIsPossible(cfg, Apply(cfg, s, acts[0]), p, acts[1..]);
    }
  }

  /** The slave holds entries although its flag says it is free: no task will write them. */
  predicate Stranded(s: State) {
    s.core.free && s.core.slave.entries != []
  }

  /** What a swap that has got as far as `pc` makes of the shared state if it goes on undisturbed. */
  function Finished(c: Core, pc: Proc): Core {
    match pc
    case SwapLoad(_) => if c.free then Exchange(c.(free := false)) else c
    case SwapStore(_) => Exchange(c.(free := false))
    case SwapExchange(_) => Exchange(c)
    case _ => c
  }

  /**
   * With one producer and no cache task pending a swap is as good as atomic: however the strand and others' tasks
   * interleave with its steps, the shared state ends as the swap in one step would have left it, but for tasks of no
   * account in the queue, and at no moment is a buffer stranded.
   */
  lemma {:induction false} QuietSwapIsAtomic(cfg: Config, s: State, acts: seq<Action>)
    requires cfg.Sound() && Inv(cfg, s) && |s.procs| == 1 && Quiet(s)
    requires StaysInSwap(cfg, s, 0, acts) && Possible(cfg, s, acts)
    ensures var t := After(cfg, s, acts);
            && !Stranded(t) && Quiet(t) && |t.procs| == 1
            && Finished(t.core, t.procs[0]) == Finished(s.core, s.procs[0]).(queue := t.core.queue)
    decreases |acts|
  {
    if acts == [] {
      assert !Stranded(s);
    } else {
      hide Inv, RaceFree, Finished;
      QuietSwapStep(cfg, s, acts[0]);
      StepKeepsInv(cfg, s, acts[0]);
      QuietSwapIsAtomic(cfg, Apply(cfg, s, acts[0]), acts[1..]);
    }
  }

  lemma QuietSwapStep(cfg: Config, s: State, a: Action)
    requires cfg.Sound() && Enabled(cfg, s, a) && |s.procs| == 1 && Quiet(s)
    requires InLogSwap(s, 0) && InLogSwap(Apply(cfg, s, a), 0)
    ensures var t := Apply(cfg, s, a);
            && RaceFree(s, a) && Quiet(t) && |t.procs| == 1
            && Finished(t.core, t.procs[0]) == Finished(s.core, s.procs[0]).(queue := t.core.queue)
  {
    hide MoveCore, WorkStep, Quiet, Finished;
    match a {
      case Move(p) => QuietSwapMove(cfg, s);
      case Work(spare) => QuietSwapWork(cfg, s, spare);
      case PostOther => QuietSwapPost(cfg, s);
      case _ =>
    }
  }

  lemma QuietSwapMove(cfg: Config, s: State)
    requires cfg.Sound() && Enabled(cfg, s, Move(0)) && |s.procs| == 1 && Quiet(s)
    requires InLogSwap(s, 0) && InLogSwap(Apply(cfg, s, Move(0)), 0)
    ensures var t := Apply(cfg, s, Move(0));
            && RaceFree(s, Move(0)) && Quiet(t) && |t.procs| == 1
            && Finished(t.core, t.procs[0]) == Finished(s.core, s.procs[0]).(queue := t.core.queue)
  {
    hide Push, Payload, AppendEntry, IsFull;
  }

  lemma QuietSwapWork(cfg: Config, s: State, spare: Bytes)
    requires cfg.Sound() && Enabled(cfg, s, Work(spare)) && |s.procs| == 1 && Quiet(s) && InLogSwap(s, 0)
    ensures var t := WorkStep(cfg, s, spare);
            && RaceFree(s, Work(spare)) && Quiet(t) && t.procs == s.procs
            && Finished(t.core, t.procs[0]) == Finished(s.core, s.procs[0]).(queue := t.core.queue)
  {
    hide OpenChunk, FillChunk, EntriesBytes;
  }

  lemma QuietSwapPost(cfg: Config, s: State)
    requires cfg.Sound() && |s.procs| == 1 && Quiet(s)
    ensures var t := Apply(cfg, s, PostOther);
            && RaceFree(s, PostOther) && Quiet(t)
            && Finished(t.core, t.procs[0]) == Finished(s.core, s.procs[0]).(queue := t.core.queue)
  {
  }

  // ---------- two producers ----------

  /** One producer logs into the empty buffer it has just swapped in. */
  lemma LogIntoEmpty(cfg: Config, s: State, p: nat, m: Bytes) returns (acts: seq<Action>)
    requires cfg.Sound() && p < |s.procs| && s.procs[p] == SwapPost(ByLog) && s.core.master.entries == []
    requires p == 0 || !Booting(s.procs[0])
    requires Payload(cfg, [], m) != [] && ITEM_HEADER + |Payload(cfg, [], m)| < U32
    ensures Possible(cfg, s, acts)
    ensures After(cfg, s, acts)
         == s.(core := Push(cfg, Post(s.core, CacheTask).(session := []), m), procs := s.procs[p := LogRatio])
  {
    var c := Post(s.core, CacheTask);
    acts := [];
    assert Possible(cfg, s, acts) && After(cfg, s, acts) == s;
    assert EntriesBytes([]) == [];
    hide Possible, After, AppendEntry, IsFull, EntriesBytes;
    acts := Go(cfg, s, acts, Move(p), s.(core := c, procs := s.procs[p := Idle]));
    acts := Go(cfg, s, acts, BeginLog(p, m), s.(core := c, procs := s.procs[p := LogStart(m)]));
    acts := Go(cfg, s, acts, Move(p), s.(core := c, procs := s.procs[p := LogReset(m)]));
    acts := Go(cfg, s, acts, Move(p), s.(core := c.(session := []), procs := s.procs[p := LogPush(m)]));
    acts := Go(cfg, s, acts, Move(p), s.(core := Push(cfg, c.(session := []), m), procs := s.procs[p := LogRatio]));
  }

  /**
   * When a second producer reads the flag before the first has stored it, both exchange the buffers: what the first
   * logs in between is handed to the strand ahead of everything before it, which is back in the master.
   */
  lemma DoubleSwapReorders(cfg: Config, s: State, p: nat, q: nat, m: Bytes) returns (acts: seq<Action>)
    requires cfg.Sound() && Conserved(s) && StrandSound(s) && p < |s.procs| && q < |s.procs| && p != q
    requires s.procs[p] == SwapLoad(ByLog) && s.procs[q] == SwapLoad(ByLog) && s.core.free
    requires p == 0 || q == 0 || !Booting(s.procs[0])
    requires var e := Entry(m, Payload(cfg, [], m));
             && e.payload != [] && ITEM_HEADER + |e.payload| < U32
             && s.core.master.entries != [] && e != s.core.master.entries[0]
    ensures Possible(cfg, s, acts) && !Conserved(After(cfg, s, acts))
    ensures var t, e := After(cfg, s, acts), Entry(m, Payload(cfg, [], m));
            && t.core.slave.entries == [e] && t.core.master == s.core.master && t.core.files == s.core.files
            && t.core.pushed == s.core.pushed + [e] && t.core.queue == s.core.queue + [CacheTask] && !t.core.free
            && t.worker == s.worker && t.procs == s.procs[p := LogRatio][q := SwapPost(ByLog)]
  {
    hide Conserved, Payload, AppendEntry;
    var e := Entry(m, Payload(cfg, [], m));
    acts := BothLoad(cfg, s, p, q);
    var s2 := After(cfg, s, acts);
    var next := LogIntoEmpty(cfg, s2, p, m);
    Compose(cfg, s, acts, next);
    acts := acts + next;
    var s3 := After(cfg, s, acts);
    LogPushed(cfg, Post(s2.core, CacheTask).(session := []), m);
    next := SecondExchange(cfg, s3, q);
    Compose(cfg, s, acts, next);
    acts := acts + next;
    assert s2.procs[p := LogRatio][q := SwapPost(ByLog)] == s.procs[p := LogRatio][q := SwapPost(ByLog)];
    ReorderedIsNotConserved(s, After(cfg, s, acts), e);
  }

  lemma LogPushed(cfg: Config, c: Core, m: Bytes)
    requires cfg.Sound() && Payload(cfg, c.session, m) != []
    ensures var e, c' := Entry(m, Payload(cfg, c.session, m)), Push(cfg, c, m);
            && c'.master.entries == c.master.entries + [e] && c'.pushed == c.pushed + [e]
            && c'.slave == c.slave && c'.files == c.files && c'.queue == c.queue && c'.free == c.free
  {
  }

  lemma SecondExchange(cfg: Config, s: State, q: nat) returns (acts: seq<Action>)
    requires cfg.Sound() && q < |s.procs| && s.procs[q] == SwapStore(ByLog)
    ensures Possible(cfg, s, acts)
    ensures After(cfg, s, acts) == s.(core := Exchange(s.core.(free := false)), procs := s.procs[q := SwapPost(ByLog)])
  {
    var s1 := s.(core := s.core.(free := false), procs := s.procs[q := SwapExchange(ByLog)]);
    acts := Go(cfg, s, [], Move(q), s1);
    acts := Go(cfg, s, acts, Move(q), s.(core := Exchange(s.core.(free := false)), procs := s.procs[q := SwapPost(ByLog)]));
  }

  /** Both producers read the flag; then the first stores it and exchanges the buffers. */
  lemma BothLoad(cfg: Config, s: State, p: nat, q: nat) returns (acts: seq<Action>)
    requires cfg.Sound() && p < |s.procs| && q < |s.procs| && p != q
    requires s.procs[p] == SwapLoad(ByLog) && s.procs[q] == SwapLoad(ByLog) && s.core.free
    ensures Possible(cfg, s, acts)
    ensures After(cfg, s, acts)
         == s.(core := Exchange(s.core.(free := false)), procs := s.procs[p := SwapPost(ByLog)][q := SwapStore(ByLog)])
  {
    Then(cfg, s, [], Move(p));
    acts := [] + [Move(p)];
    Then(cfg, s, acts, Move(q));
    acts := acts + [Move(q)];
    assert After(cfg, s, acts) == s.(procs := s.procs[p := SwapStore(ByLog)][q := SwapStore(ByLog)]);
    Then(cfg, s, acts, Move(p));
    acts := acts + [Move(p)];
    Then(cfg, s, acts, Move(p));
    acts := acts + [Move(p)];
    assert After(cfg, s, acts).procs == s.procs[p := SwapPost(ByLog)][q := SwapStore(ByLog)];
  }

  lemma ReorderedIsNotConserved(s: State, s': State, e: Entry)
    requires Conserved(s) && Unwritten(s) == [] && s.core.master.entries != [] && e != s.core.master.entries[0]
    requires s'.core.files == s.core.files && !s'.worker.ClearSlave? && s'.core.slave.entries == [e]
    requires s'.core.master.entries == s.core.master.entries && s'.core.pushed == s.core.pushed + [e]
    ensures !Conserved(s')
  {
    var at := |Written(s.core)|;
    assert (Written(s.core) + [e] + s.core.master.entries)[at] == e;
    assert s.core.pushed[at] == s.core.master.entries[0];
  }
}
