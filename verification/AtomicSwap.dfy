/**
 * The machine in which a swap is one step: it never races, so conservation, the barrier, the session framing and the
 * round trip hold of all its runs.
 */
module AtomicSwaps {
  import opened Layout
  import opened Codec
  import opened Pipeline
  import opened Handoff
  import opened Schedules
  import opened Sessions
  import Decoder
  import EndToEnd

  /** As in the machine, but reading a free flag, storing it and exchanging the buffers is one step. */
  function ApplyAtomic(cfg: Config, s: State, a: Action): State
    requires cfg.Sound() && Enabled(cfg, s, a)
  {
    if a.Move? && s.procs[a.p].SwapLoad? && s.core.free then
      s.(core := Exchange(s.core.(free := false)), procs := s.procs[a.p := SwapPost(s.procs[a.p].why)])
    else Apply(cfg, s, a)
  }

  ghost predicate IsAtomicRun(cfg: Config, ss: seq<State>, acts: seq<Action>) {
    && cfg.Sound() && |ss| == |acts| + 1
    && forall i | 0 <= i < |acts| :: Enabled(cfg, ss[i], acts[i]) && ss[i + 1] == ApplyAtomic(cfg, ss[i], acts[i])
  }

  predicate NobodyInside(s: State) {
    forall p | 0 <= p < |s.procs| :: !InWindow(s.procs[p])
  }

  /** The three steps of a swap over a free flag, one by one. */
  lemma SwapSteps(cfg: Config, s: State, p: nat, why: Why)
    requires cfg.Sound() && p < |s.procs| && s.procs[p] == SwapLoad(why) && !Storing(s.procs) && s.core.free
    ensures var loaded := s.(procs := s.procs[p := SwapStore(why)]);
            var taken := s.(core := s.core.(free := false), procs := s.procs[p := SwapExchange(why)]);
            && Enabled(cfg, s, Move(p)) && RaceFree(s, Move(p)) && Apply(cfg, s, Move(p)) == loaded
            && Enabled(cfg, loaded, Move(p)) && RaceFree(loaded, Move(p)) && Apply(cfg, loaded, Move(p)) == taken
            && Enabled(cfg, taken, Move(p)) && RaceFree(taken, Move(p))
            && Apply(cfg, taken, Move(p))
               == s.(core := Exchange(s.core.(free := false)), procs := s.procs[p := SwapPost(why)])
  {
  }

  /** A whole swap, in its three steps. */
  lemma SwapLeads(cfg: Config, s: State, p: nat) returns (acts: seq<Action>)
    requires cfg.Sound() && p < |s.procs| && s.procs[p].SwapLoad? && !Storing(s.procs) && s.core.free
    ensures Leads(cfg, s, acts, ApplyAtomic(cfg, s, Move(p)))
  {
    var why := s.procs[p].why;
    var loaded := s.(procs := s.procs[p := SwapStore(why)]);
    var taken := s.(core := s.core.(free := false), procs := s.procs[p := SwapExchange(why)]);
    LeadsNowhere(cfg, s);
    SwapSteps(cfg, s, p, why);
    hide Leads, Enabled, RaceFree, Apply;
    acts := Step(cfg, s, [], s, Move(p), loaded);
    acts := Step(cfg, s, acts, loaded, Move(p), taken);
    acts := Step(cfg, s, acts, taken, Move(p), ApplyAtomic(cfg, s, Move(p)));
  }

  lemma OtherLeads(cfg: Config, s: State, a: Action) returns (acts: seq<Action>)
    requires cfg.Sound() && NobodyInside(s) && Enabled(cfg, s, a)
    requires !(a.Move? && s.procs[a.p].SwapLoad? && s.core.free)
    ensures Leads(cfg, s, acts, Apply(cfg, s, a))
  {
    LeadsNowhere(cfg, s);
    acts := Step(cfg, s, [], s, a, Apply(cfg, s, a));
  }

  lemma AtomicStepIsRaceFree(cfg: Config, s: State, a: Action) returns (acts: seq<Action>)
    requires cfg.Sound() && NobodyInside(s) && Enabled(cfg, s, a)
    ensures Leads(cfg, s, acts, ApplyAtomic(cfg, s, a))
  {
    assert NobodyInside(s) ==> !Storing(s.procs);
    hide Leads, NobodyInside, Apply, Storing;
    if a.Move? && s.procs[a.p].SwapLoad? && s.core.free {
      acts := SwapLeads(cfg, s, a.p);
    } else {
      acts := OtherLeads(cfg, s, a);
    }
  }

  lemma NobodyEnters(cfg: Config, s: State, a: Action)
    requires cfg.Sound() && NobodyInside(s) && Enabled(cfg, s, a)
    ensures NobodyInside(ApplyAtomic(cfg, s, a))
  {
    hide OpenChunk, FillChunk, Payload, AppendEntry;
    if a.Move? {
      MoveWindow(cfg, s.core, a.p, s.procs[a.p]);
    }
  }

  /** Every stretch of a run with atomic swaps can be taken step by step without a race. */
  lemma {:induction false} AtomicRunIsRaceFree(cfg: Config, ss: seq<State>, acts: seq<Action>, i: nat, j: nat)
    returns (steps: seq<Action>)
    requires IsAtomicRun(cfg, ss, acts) && i <= j <= |acts| && NobodyInside(ss[i])
    ensures Leads(cfg, ss[i], steps, ss[j]) && NobodyInside(ss[j])
    decreases j
  {
    hide Leads, NobodyInside, Enabled, Apply;
    if i == j {
      LeadsNowhere(cfg, ss[i]);
      steps := [];
    } else {
      steps := AtomicRunIsRaceFree(cfg, ss, acts, i, j - 1);
      var s, a := ss[j - 1], acts[j - 1];
      NobodyEnters(cfg, s, a);
      var next := AtomicStepIsRaceFree(cfg, s, a);
      LeadsOn(cfg, ss[i], steps, s, next, ss[j]);
      steps := steps + next;
    }
  }

  lemma StartsOutside(s: State)
    requires Starts(s)
    ensures NobodyInside(s)
  {
  }

  lemma StartsSound(cfg: Config, s: State)
    requires Starts(s)
    ensures Inv(cfg, s)
  {
    var master: Buffer, slave: Buffer, producers: nat :|
      producers > 0 && BufferSize(master) < U32 && BufferSize(slave) < U32
      && s == Start(master, slave, producers);
    StartHasInv(cfg, master, slave, producers);
  }

  lemma AtomicRunKeepsInv(cfg: Config, ss: seq<State>, acts: seq<Action>, i: nat)
    requires IsAtomicRun(cfg, ss, acts) && Starts(ss[0]) && i <= |acts|
    ensures Inv(cfg, ss[i])
  {
    hide Inv, Leads, ApplyAtomic, Starts;
    StartsOutside(ss[0]);
    StartsSound(cfg, ss[0]);
    var steps := AtomicRunIsRaceFree(cfg, ss, acts, 0, i);
    LeadsIsPossible(cfg, ss[0], steps, ss[i]);
  }

  /** With atomic swaps conservation and order need no further condition, for any number of producers. */
  lemma AtomicConservation(cfg: Config, ss: seq<State>, acts: seq<Action>, i: nat)
    requires IsAtomicRun(cfg, ss, acts) && Starts(ss[0]) && i <= |acts|
    ensures var s := ss[i];
            Written(s.core) + (if s.worker.ClearSlave? then [] else s.core.slave.entries) + s.core.master.entries
            == s.core.pushed
  {
    hide Starts, ApplyAtomic;
    AtomicRunKeepsInv(cfg, ss, acts, i);
  }

  lemma AtomicStepKeepsFlushing(cfg: Config, s: State, a: Action, p: nat, mark: nat)
    requires cfg.Sound() && Enabled(cfg, s, a) && p < |s.procs| && Flushing(s.procs[p], mark)
    ensures var s' := ApplyAtomic(cfg, s, a);
            && |s'.procs| == |s.procs| && (s'.procs[p].Idle? || Flushing(s'.procs[p], mark))
            && s.core.pushed <= s'.core.pushed
  {
    hide OpenChunk, FillChunk, Payload, AppendEntry;
    StepKeepsFlushing(cfg, s, a, p, mark);
    StepExtendsPushed(cfg, s, a);
  }

  lemma AtomicFlushBegins(cfg: Config, s: State, p: nat)
    requires cfg.Sound() && Enabled(cfg, s, BeginFlush(p))
    ensures var s' := ApplyAtomic(cfg, s, BeginFlush(p));
            Flushing(s'.procs[p], |s.core.pushed|) && s'.core == s.core
  {
  }

  lemma {:induction false} AtomicFlushCarriesMark(cfg: Config, ss: seq<State>, acts: seq<Action>, i: nat, j: nat, p: nat)
    requires IsAtomicRun(cfg, ss, acts) && i < j <= |acts| && acts[i] == BeginFlush(p)
    requires forall k | i < k <= j :: p < |ss[k].procs| && !ss[k].procs[p].Idle?
    ensures Flushing(ss[j].procs[p], |ss[i].core.pushed|)
    ensures ss[i].core.pushed <= ss[j].core.pushed
    decreases j
  {
    hide ApplyAtomic, Flushing;
    if j == i + 1 {
      AtomicFlushBegins(cfg, ss[i], p);
    } else {
      AtomicFlushCarriesMark(cfg, ss, acts, i, j - 1, p);
      AtomicStepKeepsFlushing(cfg, ss[j - 1], acts[j - 1], p, |ss[i].core.pushed|);
    }
  }

  /** With atomic swaps `Flush` is a barrier in every run, whatever other producers do. */
  lemma AtomicFlushIsBarrier(cfg: Config, ss: seq<State>, acts: seq<Action>, i: nat, j: nat, p: nat)
    requires IsAtomicRun(cfg, ss, acts) && Starts(ss[0])
    requires i < j <= |acts| && acts[i] == BeginFlush(p)
    requires forall k | i < k <= j :: p < |ss[k].procs| && !ss[k].procs[p].Idle?
    requires ss[j].procs[p].FlushDone?
    ensures ss[i].core.pushed <= Written(ss[j].core)
  {
    hide Starts, ApplyAtomic, Enabled;
    AtomicFlushCarriesMark(cfg, ss, acts, i, j, p);
    AtomicRunKeepsInv(cfg, ss, acts, j);
    DoneFlushIsWritten(cfg, ss[j], p, ss[i].core.pushed);
  }

  lemma DoneFlushIsWritten(cfg: Config, s: State, p: nat, early: seq<Entry>)
    requires Inv(cfg, s) && p < |s.procs| && s.procs[p] == FlushDone(|early|) && early <= s.core.pushed
    ensures early <= Written(s.core)
  {
    hide ChunksSound, SizesSound, StrandSound, WindowSound, SignalsSound, HandedOff, BootSound, EntriesOf, AllChunks;
    assert Progress(s, p);
    var rest := Unwritten(s) + s.core.master.entries;
    assert Written(s.core) + rest == Written(s.core) + Unwritten(s) + s.core.master.entries;
    PrefixOfPrefix(early, Written(s.core), s.core.pushed, rest);
  }

  // ---------- one producer ----------

  /** Any state of a run with atomic swaps is reached by a race-free run, from the same start. */
  lemma AtomicStateIsReached(cfg: Config, ss: seq<State>, acts: seq<Action>, i: nat)
    returns (rs: seq<State>, steps: seq<Action>)
    requires IsAtomicRun(cfg, ss, acts) && Starts(ss[0]) && i <= |acts|
    ensures IsRaceFreeRun(cfg, rs, steps) && rs[0] == ss[0] && rs[|steps|] == ss[i]
  {
    hide Leads, ApplyAtomic, Starts;
    StartsOutside(ss[0]);
    steps := AtomicRunIsRaceFree(cfg, ss, acts, 0, i);
    rs := LeadsIsRun(cfg, ss[0], steps, ss[i]);
  }

  lemma StartsSolo(master: Buffer, slave: Buffer)
    requires BufferSize(master) < U32 && BufferSize(slave) < U32
    ensures Starts(Start(master, slave, 1))
  {
  }

  /** With atomic swaps and one producer the session framing needs no further condition. */
  lemma AtomicSessionsAreFramed(cfg: Config, ss: seq<State>, acts: seq<Action>, i: nat, master: Buffer, slave: Buffer)
    requires IsAtomicRun(cfg, ss, acts) && Lawful(cfg.lib) && ss[0] == Start(master, slave, 1) && i <= |acts|
    requires BufferSize(master) < U32 && BufferSize(slave) < U32
    requires |ss[i].procs| == 1 && !Booting(ss[i].procs[0])
    ensures IsSession(cfg, ss[i].core.master.entries)
    ensures FramedOr(cfg, ss[i].core.slave.entries, master.entries, slave.entries)
    ensures ChunksFramed(cfg, AllChunks(ss[i].core.files), master.entries, slave.entries)
    ensures ss[i].core.master.entries != [] ==> ss[i].core.session == Messages(ss[i].core.master.entries)
    ensures var found := |slave.entries| + |master.entries|;
            found <= |ss[i].core.pushed| && Messages(ss[i].core.pushed[found..]) == NonEmpty(ss[i].core.logged)
  {
    hide IsRaceFreeRun, IsAtomicRun, Starts, Start, IsSession, Messages, NonEmpty, AllChunks, EntriesBytes;
    StartsSolo(master, slave);
    var rs, steps := AtomicStateIsReached(cfg, ss, acts, i);
    SessionsAreFramed(cfg, rs, steps, |steps|, master, slave);
    OnlyEmptyMessagesAreDropped(cfg, rs, steps, |steps|, master, slave);
  }

  /**
   * With atomic swaps the round trip holds under every interleaving of one producer and the strand: once `Flush`
   * returns, the files decode to the messages logged, but the empty ones, if and only if none exceeds the cap.
   */
  lemma AtomicRoundTrip(cfg: Config, ss: seq<State>, acts: seq<Action>, i: nat, c1: nat, c2: nat, d: Decoder.Setup)
    requires IsAtomicRun(cfg, ss, acts) && Lawful(cfg.lib) && ss[0] == Start(Buffer([], c1), Buffer([], c2), 1)
    requires i <= |acts| && |ss[i].procs| == 1 && ss[i].procs[0].FlushDone? && EndToEnd.Matches(cfg, d)
    ensures EndToEnd.DecodedFiles(d, ss[i].core.files) == NonEmpty(ss[i].core.logged) <==>
              Small(cfg.lib.capacity, ss[i].core.logged)
    ensures Small(cfg.lib.capacity, ss[i].core.logged) ==>
              EndToEnd.DecodedText(d, ss[i].core.files) == Decoder.Text(d.format, NonEmpty(ss[i].core.logged))
  {
    hide IsRaceFreeRun, IsAtomicRun, Starts, Start, NonEmpty, Small;
    hide EndToEnd.DecodedFiles, EndToEnd.DecodedText, EndToEnd.Matches;
    StartsSolo(Buffer([], c1), Buffer([], c2));
    var rs, steps := AtomicStateIsReached(cfg, ss, acts, i);
    EndToEnd.RoundTrip(cfg, rs, steps, |steps|, d);
  }
}
