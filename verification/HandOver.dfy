/** When `Log` hands its buffer over, in the numbers of the mapped bytes (logger/sinks/effective_sink.cc:100-103, 121-124). */
module HandOvers {
  import opened Pipeline
  import opened Handoff
  import opened Drained

  /** More than four fifths of the capacity without the mapped header is in use. */
  lemma RatioStepIff(cfg: Config, ss: seq<State>, acts: seq<Action>, i: nat, p: nat)
    requires IsRun(cfg, ss, acts) && i < |acts| && acts[i] == Move(p) && ss[i].procs[p].LogRatio?
    ensures var master := ss[i].core.master;
            var full := 5 * |EntriesBytes(master.entries)| > 4 * (master.capacity - 8);
            ss[i + 1] == ss[i].(procs := ss[i].procs[p := if full then SwapLoad(ByLog) else Idle])
  {
    hide EntriesBytes;
  }

  predicate NobodyWaitsForLog(procs: seq<Proc>) {
    forall q | 0 <= q < |procs| :: !WaitsForLog(procs[q])
  }

  lemma MoveStillWaits(cfg: Config, c: Core, p: nat, pc: Proc)
    requires cfg.Sound() && !WaitsForLog(pc)
    ensures var pc' := MoveCore(cfg, c, p, pc).1;
            && !WaitsForLog(pc')
            && (pc' == SwapLoad(ByLog) && pc != SwapLoad(ByLog) ==> pc.LogRatio?)
  {
    hide Push, Payload, IsFull;
  }

  /** A producer comes to the swap of `Log` only from the test, and nobody waits on behalf of `Log`. */
  lemma StepEntersSwap(cfg: Config, s: State, a: Action, p: nat)
    requires cfg.Sound() && Enabled(cfg, s, a) && p < |s.procs| && NobodyWaitsForLog(s.procs)
    ensures var s' := Apply(cfg, s, a);
            && |s'.procs| == |s.procs| && !WaitsForLog(s'.procs[p])
            && (s'.procs[p] == SwapLoad(ByLog) && s.procs[p] != SwapLoad(ByLog) ==> a == Move(p) && s.procs[p].LogRatio?)
  {
    if a.Move? {
      MoveStillWaits(cfg, s.core, a.p, s.procs[a.p]);
    } else if a.Work? {
      WorkProcs(cfg, s, a.spare);
      WorkKeepsCount(cfg, s, a.spare);
      hide WorkStep;
    }
  }

  lemma {:induction false} NobodyEverWaitsForLog(cfg: Config, ss: seq<State>, acts: seq<Action>, i: nat)
    requires IsRun(cfg, ss, acts) && Starts(ss[0]) && i <= |acts|
    ensures NobodyWaitsForLog(ss[i].procs)
  {
    if i > 0 {
      hide Apply, Starts, WaitsForLog;
      NobodyEverWaitsForLog(cfg, ss, acts, i - 1);
      StepKeepsCount(cfg, ss[i - 1], acts[i - 1]);
      forall p | 0 <= p < |ss[i].procs| ensures !WaitsForLog(ss[i].procs[p]) {
        StepEntersSwap(cfg, ss[i - 1], acts[i - 1], p);
      }
    }
  }

  /**
   * In every run, with any number of producers: a call of `Log` comes to its swap only by a step of its own, over a buffer
   * of which more than four fifths is in use.
   */
  lemma SwapsOnlyWhenFull(cfg: Config, ss: seq<State>, acts: seq<Action>, i: nat, p: nat)
    requires IsRun(cfg, ss, acts) && Starts(ss[0]) && i < |acts| && p < |ss[i].procs| && p < |ss[i + 1].procs|
    requires ss[i].procs[p] != SwapLoad(ByLog) && ss[i + 1].procs[p] == SwapLoad(ByLog)
    ensures acts[i] == Move(p) && ss[i].procs[p].LogRatio?
    ensures 5 * |EntriesBytes(ss[i].core.master.entries)| > 4 * (ss[i].core.master.capacity - 8)
  {
    hide Apply, Starts;
    NobodyEverWaitsForLog(cfg, ss, acts, i);
    StepEntersSwap(cfg, ss[i], acts[i], p);
    RatioStepIff(cfg, ss, acts, i, p);
  }
}
