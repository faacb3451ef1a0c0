/**
 * With one producer it is enough that no cache task is pending whenever it calls `Log`: then nothing ever races, in any
 * interleaving with the strand and whatever is logged. A `Flush` ahead of each `Log` sees to that.
 */
module Drained {
  import opened Bytes
  import opened Codec
  import opened Pipeline
  import opened Handoff
  import opened Sessions
  import opened Races
  import Decoder
  import EndToEnd

  /** Inside `Log`, up to the exchange. */
  predicate LoggingPc(pc: Proc) {
    pc.LogStart? || pc.LogReset? || pc.LogPush? || pc.LogRatio? || (SwapPc(pc) && pc.why.ByLog?)
  }

  /** Only `Flush` and the constructor wait before they swap. */
  predicate WaitsForLog(pc: Proc) {
    (pc.SignalFirst? || pc.WaitFirst?) && pc.why.ByLog?
  }

  /** No cache task is pending from the beginning of a `Log` to its exchange, nor when `Flush` is done. */
  predicate LogsQuietly(s: State) {
    && SoloInv(s) && !WaitsForLog(s.procs[0])
    && (LoggingPc(s.procs[0]) || s.procs[0].FlushDone? ==> Quiet(s))
  }

  /** The step starts a `Log` only with no cache task pending. */
  predicate Drains(s: State, a: Action) {
    a.BeginLog? ==> Quiet(s)
  }

  lemma QuietStepIsRaceFree(s: State, a: Action)
    requires LogsQuietly(s)
    ensures RaceFree(s, a)
  {
    SoloStepRacesIff(s, a);
  }

  /** `Log` posts nothing before its exchange, and nobody comes to be inside it but from its beginning. */
  lemma LogStays(cfg: Config, c: Core, pc: Proc)
    requires cfg.Sound() && !Waiting(pc) && !pc.Idle?
    ensures var (c', pc') := MoveCore(cfg, c, 0, pc);
            && (LoggingPc(pc') ==> LoggingPc(pc) && c'.queue == c.queue)
            && (WaitsForLog(pc') ==> WaitsForLog(pc)) && !pc'.FlushDone?
  {
    hide Payload, AppendEntry, IsFull;
  }

  lemma QuietWork(cfg: Config, s: State, spare: Bytes)
    requires cfg.Sound() && Enabled(cfg, s, Work(spare)) && Quiet(s) && SoloInv(s) && !Waiting(s.procs[0])
    ensures var s' := WorkStep(cfg, s, spare);
            s'.procs == s.procs && Quiet(s') && s'.core.free == s.core.free
  {
  }

  /** The strand wakes the producer only by its signal, and no cache task is queued behind one. */
  lemma WorkSignals(cfg: Config, s: State, spare: Bytes)
    requires cfg.Sound() && Enabled(cfg, s, Work(spare)) && SoloInv(s)
    ensures var s' := WorkStep(cfg, s, spare);
            && |s'.procs| == 1
            && (s'.procs[0] == s.procs[0] || (s'.procs[0] == Signalled(s.procs[0]) && Quiet(s')))
  {
    hide SignalsSound, OpenChunk, FillChunk, EntriesBytes;
    WorkProcs(cfg, s, spare);
    if s.worker.Resting? && s.core.queue[0] == Signal(0) {
      assert forall i | 0 <= i < |s.core.queue| - 1 :: s.core.queue[1..][i] == s.core.queue[i + 1];
    }
  }

  lemma WorkStaysQuiet(cfg: Config, s: State, spare: Bytes)
    requires cfg.Sound() && Enabled(cfg, s, Work(spare)) && LogsQuietly(s)
    ensures LogsQuietly(WorkStep(cfg, s, spare))
  {
    hide WorkStep, SignalsSound, Quiet;
    SoloWorkKeeps(cfg, s, spare);
    WorkSignals(cfg, s, spare);
    if LoggingPc(s.procs[0]) || s.procs[0].FlushDone? {
      QuietWork(cfg, s, spare);
    }
  }

  lemma QuietStepKeeps(cfg: Config, s: State, a: Action)
    requires cfg.Sound() && Enabled(cfg, s, a) && LogsQuietly(s) && Drains(s, a)
    ensures LogsQuietly(Apply(cfg, s, a))
  {
    hide WorkStep, MoveCore, SignalsSound;
    SoloStepKeeps(cfg, s, a);
    match a {
      case Move(p) => LogStays(cfg, s.core, s.procs[0]);
      case Work(spare) => WorkStaysQuiet(cfg, s, spare);
      case _ =>
    }
  }

  ghost predicate IsDrainedRun(cfg: Config, ss: seq<State>, acts: seq<Action>) {
    && IsRun(cfg, ss, acts) && Starts(ss[0]) && |ss[0].procs| == 1
    && forall k | 0 <= k < |acts| :: Drains(ss[k], acts[k])
  }

  lemma StartIsQuiet(s: State)
    requires Starts(s) && |s.procs| == 1
    ensures LogsQuietly(s)
  {
  }

  lemma {:induction false} DrainedRunStaysQuiet(cfg: Config, ss: seq<State>, acts: seq<Action>, i: nat)
    requires IsDrainedRun(cfg, ss, acts) && i <= |acts|
    ensures LogsQuietly(ss[i])
  {
    hide Apply, LogsQuietly, Drains, Starts;
    if i == 0 {
      StartIsQuiet(ss[0]);
    } else {
      DrainedRunStaysQuiet(cfg, ss, acts, i - 1);
      QuietStepKeeps(cfg, ss[i - 1], acts[i - 1]);
    }
  }

  // ---------- main results ----------

  /** A run of one producer that finds no cache task pending whenever it calls `Log` is race-free. */
  lemma DrainedRunIsRaceFree(cfg: Config, ss: seq<State>, acts: seq<Action>)
    requires IsDrainedRun(cfg, ss, acts)
    ensures IsRaceFreeRun(cfg, ss, acts)
  {
    hide Apply, LogsQuietly, RaceFree, Starts;
    forall i | 0 <= i < |acts| ensures RaceFree(ss[i], acts[i]) {
      DrainedRunStaysQuiet(cfg, ss, acts, i);
      QuietStepIsRaceFree(ss[i], acts[i]);
    }
  }

  lemma DrainedConservation(cfg: Config, ss: seq<State>, acts: seq<Action>, i: nat)
    requires IsDrainedRun(cfg, ss, acts) && i <= |acts|
    ensures var s := ss[i];
            Written(s.core) + (if s.worker.ClearSlave? then [] else s.core.slave.entries) + s.core.master.entries
            == s.core.pushed
  {
    hide IsRun, Starts, RaceFree;
    DrainedRunIsRaceFree(cfg, ss, acts);
    Conservation(cfg, ss, acts, i);
  }

  lemma DrainedFlushIsBarrier(cfg: Config, ss: seq<State>, acts: seq<Action>, i: nat, j: nat)
    requires IsDrainedRun(cfg, ss, acts)
    requires i < j <= |acts| && acts[i] == BeginFlush(0)
    requires forall k | i < k <= j :: 0 < |ss[k].procs| && !ss[k].procs[0].Idle?
    requires ss[j].procs[0].FlushDone?
    ensures ss[i].core.pushed <= Written(ss[j].core)
  {
    hide IsRun, Starts, RaceFree, Written;
    DrainedRunIsRaceFree(cfg, ss, acts);
    FlushIsBarrier(cfg, ss, acts, i, j, 0);
  }

  lemma DrainedRoundTrip(cfg: Config, ss: seq<State>, acts: seq<Action>, i: nat, c1: nat, c2: nat, d: Decoder.Setup)
    requires IsDrainedRun(cfg, ss, acts) && Lawful(cfg.lib) && ss[0] == Start(Buffer([], c1), Buffer([], c2), 1)
    requires i <= |acts| && |ss[i].procs| == 1 && ss[i].procs[0].FlushDone? && EndToEnd.Matches(cfg, d)
    ensures EndToEnd.DecodedFiles(d, ss[i].core.files) == NonEmpty(ss[i].core.logged) <==>
              Small(cfg.lib.capacity, ss[i].core.logged)
    ensures Small(cfg.lib.capacity, ss[i].core.logged) ==>
              EndToEnd.DecodedText(d, ss[i].core.files) == Decoder.Text(d.format, NonEmpty(ss[i].core.logged))
  {
    hide IsRun, Starts, Start, RaceFree, NonEmpty, Small;
    hide EndToEnd.DecodedFiles, EndToEnd.DecodedText, EndToEnd.Matches;
    DrainedRunIsRaceFree(cfg, ss, acts);
    EndToEnd.RoundTrip(cfg, ss, acts, i, d);
  }

  // ---------- a flush ahead of each log ----------

  /** Was the last call begun before action `i` one of `Flush`? */
  predicate FlushedLast(acts: seq<Action>, i: nat)
    requires i <= |acts|
  {
    i > 0 && (acts[i - 1].BeginFlush? || (!acts[i - 1].BeginLog? && FlushedLast(acts, i - 1)))
  }

  /** Every call of `Log` comes straight after one of `Flush`. */
  predicate FlushesFirst(acts: seq<Action>) {
    forall i | 0 <= i < |acts| && acts[i].BeginLog? :: FlushedLast(acts, i)
  }

  /** After a flush the producer is still inside it, or idle with no cache task pending. */
  predicate FlushLeftQuiet(s: State)
    requires |s.procs| == 1
  {
    var pc := s.procs[0];
    Flushing(pc, MarkOf(pc)) || (pc.Idle? && Quiet(s))
  }

  lemma FlushEndsQuiet(cfg: Config, s: State, a: Action)
    requires cfg.Sound() && Enabled(cfg, s, a) && LogsQuietly(s) && FlushLeftQuiet(s) && !a.BeginLog?
    ensures |Apply(cfg, s, a).procs| == 1 && FlushLeftQuiet(Apply(cfg, s, a))
  {
    hide SignalsSound, OpenChunk, FillChunk, EntriesBytes, Payload, AppendEntry;
    if a.Work? && s.procs[0].Idle? {
      QuietWork(cfg, s, a.spare);
    }
    if Flushing(s.procs[0], MarkOf(s.procs[0])) {
      StepKeepsFlushing(cfg, s, a, 0, MarkOf(s.procs[0]));
    }
  }

  /** A `Flush` ahead of each `Log` leaves it no cache task to race with, however the calls meet the strand. */
  lemma FlushingFirstDrains(cfg: Config, ss: seq<State>, acts: seq<Action>)
    requires IsRun(cfg, ss, acts) && Starts(ss[0]) && |ss[0].procs| == 1 && FlushesFirst(acts)
    ensures IsDrainedRun(cfg, ss, acts) && IsRaceFreeRun(cfg, ss, acts)
  {
    hide Apply, LogsQuietly, Starts, RaceFree, FlushedLast, Flushing, MarkOf;
    forall k | 0 <= k < |acts| ensures Drains(ss[k], acts[k]) {
      FlushingFirstIsQuiet(cfg, ss, acts, k);
      if acts[k].BeginLog? {
        NotYetFlushing(cfg, ss[k], acts[k]);
      }
    }
    DrainedRunIsRaceFree(cfg, ss, acts);
  }

  lemma NotYetFlushing(cfg: Config, s: State, a: Action)
    requires Enabled(cfg, s, a) && a.BeginLog? && |s.procs| == 1
    ensures s.procs[0].Idle? && !Flushing(s.procs[0], MarkOf(s.procs[0]))
  {
  }

  lemma {:induction false} FlushingFirstIsQuiet(cfg: Config, ss: seq<State>, acts: seq<Action>, i: nat)
    requires IsRun(cfg, ss, acts) && Starts(ss[0]) && |ss[0].procs| == 1 && FlushesFirst(acts) && i <= |acts|
    ensures |ss[i].procs| == 1 && LogsQuietly(ss[i]) && (FlushedLast(acts, i) ==> FlushLeftQuiet(ss[i]))
  {
    hide Apply, Starts, Flushing, MarkOf, SignalsSound, SwapPc;
    if i == 0 {
      StartIsQuiet(ss[0]);
    } else {
      var s, a := ss[i - 1], acts[i - 1];
      FlushingFirstIsQuiet(cfg, ss, acts, i - 1);
      if a.BeginLog? {
        NotYetFlushing(cfg, s, a);
      } else if a.BeginFlush? {
        BeginsFlushing(cfg, s, a);
      } else if FlushedLast(acts, i) {
        FlushEndsQuiet(cfg, s, a);
      }
      QuietStepKeeps(cfg, s, a);
    }
  }

  lemma BeginsFlushing(cfg: Config, s: State, a: Action)
    requires cfg.Sound() && Enabled(cfg, s, a) && a.BeginFlush? && |s.procs| == 1
    ensures |Apply(cfg, s, a).procs| == 1 && FlushLeftQuiet(Apply(cfg, s, a))
  {
  }
}
