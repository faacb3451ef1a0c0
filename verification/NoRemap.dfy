/**
 * With one producer and the strand drained before each `Log` no swap races; while every item stays within one fifth of a
 * buffer, neither mapping ever grows either.
 */
module NoRemap {
  import opened Bytes
  import opened Layout
  import opened Pipeline
  import opened Handoff
  import opened Races
  import opened Drained
  import opened Recovery

  /** Capacities of the two mapped files: whole pages with room for the header. */
  predicate Capacities(cfg: Config, c1: nat, c2: nat) {
    cfg.Sound() && MMap.HEADER <= c1 && c1 % cfg.page == 0 && MMap.HEADER <= c2 && c2 % cfg.page == 0
  }

  /** The step starts a `Log` only over an idle strand, and pushes only items within a fifth of either buffer. */
  predicate Gentle(cfg: Config, s: State, a: Action, c1: nat, c2: nat) {
    && (a.BeginLog? ==> s.worker.Resting? && s.core.queue == [])
    && (a.Move? && a.p < |s.procs| && s.procs[a.p].LogPush? ==>
          var item := ITEM_HEADER + |Payload(cfg, s.core.session, s.procs[a.p].msg)|;
          5 * item + MMap.HEADER <= c1 && 5 * item + MMap.HEADER <= c2)
  }

  /** Past the push: the master may be over four fifths. */
  predicate PastPush(pc: Proc) {
    pc.LogRatio? || (SwapPc(pc) && pc.why.ByLog?)
  }

  predicate Roomy(b: Buffer) {
    b.capacity >= MMap.HEADER && 5 * BufferSize(b) <= 4 * (b.capacity - MMap.HEADER)
  }

  predicate Fitting(b: Buffer) {
    BufferSize(b) + MMap.HEADER <= b.capacity
  }

  predicate CapacitiesKept(s: State, c1: nat, c2: nat) {
    MasterFile(s).capacity == c1 && SlaveFile(s).capacity == c2
  }

  /** The mappings as they were first made, with room for what comes next, and a `Log` alone with its buffer. */
  predicate NeverGrown(t: State, c1: nat, c2: nat)
    requires |t.procs| > 0
  {
    && CapacitiesKept(t, c1, c2) && !WaitsForLog(t.procs[0])
    && (LoggingPc(t.procs[0]) ==> Quiet(t) && t.core.free == !t.procs[0].SwapExchange?)
    && (if PastPush(t.procs[0]) then Fitting(t.core.master) else Roomy(t.core.master))
    && (SwapPc(t.procs[0]) && t.procs[0].why.ByLog? ==> IsFull(t.core.master))
  }

  ghost predicate GentleInv(cfg: Config, s: State, c1: nat, c2: nat) {
    Inv(cfg, s) && SoloInv(s) && NeverGrown(s, c1, c2)
  }

  lemma GentleStepIsRaceFree(cfg: Config, s: State, a: Action, c1: nat, c2: nat)
    requires GentleInv(cfg, s, c1, c2)
    ensures RaceFree(s, a)
  {
    SoloStepRacesIff(s, a);
  }

  /** An item within a fifth of a buffer that was not over four fifths goes in without growing the mapping. */
  lemma PushDoesNotGrow(cfg: Config, b: Buffer, e: Entry)
    requires cfg.Sound() && b.capacity % cfg.page == 0 && Roomy(b)
    requires 5 * (ITEM_HEADER + |e.payload|) + MMap.HEADER <= b.capacity
    ensures AppendEntry(cfg.page, b, e).capacity == b.capacity
    ensures Fitting(AppendEntry(cfg.page, b, e))
  {
    var size := BufferSize(b);
    assert size + ITEM_HEADER + |e.payload| + MMap.HEADER <= b.capacity;
    MMap.GrownIsLeast(cfg.page, b.capacity, size + ITEM_HEADER);
    MMap.GrownIsLeast(cfg.page, b.capacity, size + ITEM_HEADER + |e.payload|);
    EntriesBytesAppend(b.entries, e);
  }

  lemma RoomyFits(b: Buffer)
    requires Roomy(b)
    ensures Fitting(b)
  {
  }

  lemma GentlePush(cfg: Config, s: State, c1: nat, c2: nat)
    requires Capacities(cfg, c1, c2) && GentleInv(cfg, s, c1, c2) && s.procs[0].LogPush?
    requires Enabled(cfg, s, Move(0)) && Gentle(cfg, s, Move(0), c1, c2)
    ensures var c' := Push(cfg, s.core, s.procs[0].msg);
            && c'.slave == s.core.slave && c'.exchanged == s.core.exchanged
            && c'.free == s.core.free && c'.queue == s.core.queue
            && c'.master.capacity == s.core.master.capacity && Fitting(c'.master)
            && (Payload(cfg, s.core.session, s.procs[0].msg) == [] ==> c'.master == s.core.master)
  {
    var m := s.procs[0].msg;
    RoomyFits(s.core.master);
    if Payload(cfg, s.core.session, m) != [] {
      PushDoesNotGrow(cfg, s.core.master, Entry(m, Payload(cfg, s.core.session, m)));
    }
  }

  /** What the steps of `Log` before and after the push do to the flag and the buffers. */
  lemma LogMoves(cfg: Config, c: Core, pc: Proc)
    requires cfg.Sound() && !Waiting(pc) && !pc.Idle? && !pc.LogPush?
    ensures var (c', pc') := MoveCore(cfg, c, 0, pc);
            && (LoggingPc(pc') ==> LoggingPc(pc) && c'.queue == c.queue)
            && (WaitsForLog(pc') ==> WaitsForLog(pc))
            && (PastPush(pc') ==> PastPush(pc))
            && (PastPush(pc) && !PastPush(pc') ==>
                  (pc.LogRatio? && !IsFull(c.master)) || pc.SwapExchange? || (pc.SwapLoad? && !c.free))
            && (SwapPc(pc') && pc'.why.ByLog? ==> (pc.LogRatio? && IsFull(c.master)) || (SwapPc(pc) && pc.why.ByLog?))
            && c'.free == (c.free && !pc.SwapStore?)
            && (LoggingPc(pc') ==> pc'.SwapExchange? == pc.SwapStore?)
            && (if pc.SwapExchange? then c' == Exchange(c)
                else c'.master == c.master && c'.slave == c.slave && c'.exchanged == c.exchanged)
  {
  }

  lemma GentlePushMove(cfg: Config, s: State, c1: nat, c2: nat)
    requires Capacities(cfg, c1, c2) && GentleInv(cfg, s, c1, c2) && s.procs[0].LogPush?
    requires Enabled(cfg, s, Move(0)) && Gentle(cfg, s, Move(0), c1, c2)
    ensures |Apply(cfg, s, Move(0)).procs| > 0 && NeverGrown(Apply(cfg, s, Move(0)), c1, c2)
  {
    GentlePush(cfg, s, c1, c2);
    hide Inv, SoloInv, Push, EntriesBytes, Payload, Gentle;
  }

  lemma GentleOtherMove(cfg: Config, s: State, c1: nat, c2: nat)
    requires Capacities(cfg, c1, c2) && GentleInv(cfg, s, c1, c2) && !s.procs[0].LogPush?
    requires Enabled(cfg, s, Move(0))
    ensures |Apply(cfg, s, Move(0)).procs| > 0 && NeverGrown(Apply(cfg, s, Move(0)), c1, c2)
  {
    if s.procs[0].SwapExchange? {
      SwappedIn(cfg, s);
    }
    LogMoves(cfg, s.core, s.procs[0]);
    hide Inv, SoloInv, MoveCore, EntriesBytes;
  }

  /** The buffer swapped in is empty. */
  lemma SwappedIn(cfg: Config, s: State)
    requires Inv(cfg, s) && |s.procs| == 1 && s.procs[0].SwapExchange?
    ensures s.core.slave.entries == [] && BufferSize(s.core.slave) == 0
  {
    assert Exchanging(s.procs);
  }

  lemma GentleMove(cfg: Config, s: State, c1: nat, c2: nat)
    requires Capacities(cfg, c1, c2) && GentleInv(cfg, s, c1, c2)
    requires Enabled(cfg, s, Move(0)) && Gentle(cfg, s, Move(0), c1, c2)
    ensures |Apply(cfg, s, Move(0)).procs| > 0 && NeverGrown(Apply(cfg, s, Move(0)), c1, c2)
  {
    hide Inv, NeverGrown, Gentle, Enabled, Apply;
    if s.procs[0].LogPush? {
      GentlePushMove(cfg, s, c1, c2);
    } else {
      GentleOtherMove(cfg, s, c1, c2);
    }
  }

  /** With the strand drained and the one producer idle, the flag is free. */
  lemma IdleIsFree(cfg: Config, s: State)
    requires Inv(cfg, s) && s.procs == [Idle] && s.worker.Resting? && s.core.queue == []
    ensures s.core.free && s.core.slave.entries == []
  {
  }

  lemma GentleWork(cfg: Config, s: State, spare: Bytes, c1: nat, c2: nat)
    requires GentleInv(cfg, s, c1, c2) && cfg.Sound() && Enabled(cfg, s, Work(spare))
    ensures var s' := WorkStep(cfg, s, spare);
            && |s'.procs| == 1 && CapacitiesKept(s', c1, c2) && s'.core.master == s.core.master
            && (LoggingPc(s.procs[0]) ==> s'.procs == s.procs && Quiet(s') && s'.core.free == s.core.free)
            && (!LoggingPc(s.procs[0]) ==> !LoggingPc(s'.procs[0]))
            && !WaitsForLog(s'.procs[0])
  {
    WorkBuffers(cfg, s, spare);
    WorkKeepsCapacities(cfg, s, spare);
    if LoggingPc(s.procs[0]) {
      QuietWork(cfg, s, spare);
    } else {
      WorkSignals(cfg, s, spare);
    }
  }

  lemma WorkKeepsCapacities(cfg: Config, s: State, spare: Bytes)
    requires cfg.Sound() && Enabled(cfg, s, Work(spare))
    ensures var c' := WorkStep(cfg, s, spare).core;
            c'.slave.capacity == s.core.slave.capacity && c'.exchanged == s.core.exchanged
  {
  }

  lemma GentleStepKeeps(cfg: Config, s: State, a: Action, c1: nat, c2: nat)
    requires Capacities(cfg, c1, c2) && GentleInv(cfg, s, c1, c2)
    requires Enabled(cfg, s, a) && Gentle(cfg, s, a, c1, c2)
    ensures GentleInv(cfg, Apply(cfg, s, a), c1, c2)
  {
    hide RaceFree, EntriesBytes, EntriesOf, AllChunks, MoveCore, WorkStep;
    GentleStepIsRaceFree(cfg, s, a, c1, c2);
    StepKeepsInv(cfg, s, a);
    SoloStepKeeps(cfg, s, a);
    match a {
      case Move(p) => GentleMove(cfg, s, c1, c2);
      case Work(spare) => GentleWork(cfg, s, spare, c1, c2);
      case BeginLog(p, m) =>
        assert s.procs == [Idle];
        IdleIsFree(cfg, s);
      case _ =>
    }
  }

  lemma {:induction false} GentleRunKeepsInv(cfg: Config, ss: seq<State>, acts: seq<Action>, i: nat, c1: nat, c2: nat)
    requires Capacities(cfg, c1, c2) && IsRun(cfg, ss, acts) && i <= |acts|
    requires ss[0] == Start(Buffer([], c1), Buffer([], c2), 1)
    requires forall k | 0 <= k < |acts| :: Gentle(cfg, ss[k], acts[k], c1, c2)
    ensures GentleInv(cfg, ss[i], c1, c2)
  {
    if i == 0 {
      StartIsGentle(cfg, c1, c2);
    } else {
      hide Apply, Gentle, GentleInv, Capacities, Start;
      GentleRunKeepsInv(cfg, ss, acts, i - 1, c1, c2);
      GentleStepKeeps(cfg, ss[i - 1], acts[i - 1], c1, c2);
    }
  }

  lemma StartIsGentle(cfg: Config, c1: nat, c2: nat)
    requires cfg.Sound() && Capacities(cfg, c1, c2)
    ensures GentleInv(cfg, Start(Buffer([], c1), Buffer([], c2), 1), c1, c2)
  {
    hide Inv;
    StartHasInv(cfg, Buffer([], c1), Buffer([], c2), 1);
  }

  /**
   * Over a run of any length, from an empty start, that logs only over a drained strand and only items within a fifth
   * of the buffers: no step races, and both mappings keep their first capacity.
   */
  lemma GentleRunNeverRemaps(cfg: Config, ss: seq<State>, acts: seq<Action>, i: nat, c1: nat, c2: nat)
    requires Capacities(cfg, c1, c2) && IsRun(cfg, ss, acts) && i <= |acts|
    requires ss[0] == Start(Buffer([], c1), Buffer([], c2), 1)
    requires forall k | 0 <= k < |acts| :: Gentle(cfg, ss[k], acts[k], c1, c2)
    ensures GentleInv(cfg, ss[i], c1, c2)
    ensures {ss[i].core.master.capacity, ss[i].core.slave.capacity} == {c1, c2}
    ensures i < |acts| ==> RaceFree(ss[i], acts[i])
  {
    GentleRunKeepsInv(cfg, ss, acts, i, c1, c2);
    hide Inv, Gentle, Apply;
    if i < |acts| {
      GentleStepIsRaceFree(cfg, ss[i], acts[i], c1, c2);
    }
  }
}
