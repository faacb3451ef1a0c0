/** Waits on the strand end: every wait is served after a bounded number of strand steps (logger/scheduler/scheduler.h:175). */
module Waits {
  import opened Bytes
  import opened Pipeline
  import opened Handoff
  import opened Races

  /** Strand steps left in the task it is running. */
  function Rank(worker: Worker): nat {
    match worker
    case Resting => 0
    case CheckFlag => 7
    case CheckEmpty => 6
    case ReadSize => 5
    case WriteHeader(_) => 4
    case WriteBody(_) => 3
    case ClearSlave => 2
    case SetFree => 1
  }

  /** Tasks queued ahead of one. */
  function Position(queue: seq<Task>, task: Task): nat {
    if queue == [] || queue[0] == task then 0 else 1 + Position(queue[1..], task)
  }

  /** How many more strand steps a waiting producer may have to see. */
  function Ahead(s: State, p: nat): nat {
    8 * Position(s.core.queue, Signal(p)) + Rank(s.worker)
  }

  lemma {:induction false} AppendKeepsPosition(queue: seq<Task>, task: Task, more: Task)
    requires task in queue
    ensures Position(queue + [more], task) == Position(queue, task)
  {
    assert (queue + [more])[0] == queue[0];
    if queue[0] != task {
      assert (queue + [more])[1..] == queue[1..] + [more];
      AppendKeepsPosition(queue[1..], task, more);
    }
  }

  lemma MoveKeepsAhead(cfg: Config, s: State, q: nat, p: nat)
    requires cfg.Sound() && Enabled(cfg, s, Move(q)) && Signal(p) in s.core.queue
    ensures Ahead(Apply(cfg, s, Move(q)), p) == Ahead(s, p)
  {
    MovePosts(cfg, s.core, q, s.procs[q]);
    AppendKeepsPosition(s.core.queue, Signal(p), CacheTask);
    AppendKeepsPosition(s.core.queue, Signal(p), Signal(q));
  }

  /** What a strand step does to the queue and to whoever waits. */
  lemma WorkPops(cfg: Config, s: State, spare: Bytes)
    requires cfg.Sound() && Enabled(cfg, s, Work(spare))
    ensures var s' := WorkStep(cfg, s, spare);
            if s.worker.Resting? then
              && s'.core.queue == s.core.queue[1..]
              && Rank(s'.worker) == (if s.core.queue[0].CacheTask? then 7 else 0)
            else s'.core.queue == s.core.queue && Rank(s'.worker) < Rank(s.worker)
  {
  }

  lemma WorkServes(cfg: Config, s: State, spare: Bytes, p: nat)
    requires cfg.Sound() && Enabled(cfg, s, Work(spare)) && p < |s.procs| && SignalsSound(s.core.queue, s.procs)
    requires Waiting(s.procs[p]) && Waiting(WorkStep(cfg, s, spare).procs[p])
    ensures Ahead(WorkStep(cfg, s, spare), p) < Ahead(s, p)
  {
    WorkPops(cfg, s, spare);
  }

  lemma StepKeepsSignals(cfg: Config, s: State, a: Action)
    requires cfg.Sound() && Enabled(cfg, s, a) && SignalsSound(s.core.queue, s.procs)
    ensures SignalsSound(Apply(cfg, s, a).core.queue, Apply(cfg, s, a).procs)
  {
    match a {
      case BeginLog(p, m) => QuietMoveKeepsSignals(s.core.queue, s.procs, p, LogStart(m));
      case BeginFlush(p) => QuietMoveKeepsSignals(s.core.queue, s.procs, p, FlushPost(|s.core.pushed|));
      case Move(p) => MoveKeepsSignals(cfg, s, p);
      case Work(spare) => WorkKeepsSignals(cfg, s, spare);
      case PostOther => PostOtherKeepsSignals(s.core.queue, s.procs);
    }
  }

  lemma {:induction false} RunKeepsSignals(cfg: Config, ss: seq<State>, acts: seq<Action>, i: nat)
    requires IsRun(cfg, ss, acts) && Starts(ss[0]) && i <= |acts|
    ensures SignalsSound(ss[i].core.queue, ss[i].procs)
  {
    if i > 0 {
      RunKeepsSignals(cfg, ss, acts, i - 1);
      hide SignalsSound, Apply;
      StepKeepsSignals(cfg, ss[i - 1], acts[i - 1]);
    }
  }

  /** Strand steps taken from `i` to `j`. */
  function WorkSteps(acts: seq<Action>, i: nat, j: nat): (n: nat)
    requires i <= j <= |acts|
  {
    if i == j then 0 else WorkSteps(acts, i, j - 1) + if acts[j - 1].Work? then 1 else 0
  }

  lemma StepBringsCloser(cfg: Config, s: State, a: Action, p: nat)
    requires cfg.Sound() && Enabled(cfg, s, a) && p < |s.procs| && SignalsSound(s.core.queue, s.procs)
    requires p < |Apply(cfg, s, a).procs| && Waiting(s.procs[p]) && Waiting(Apply(cfg, s, a).procs[p])
    ensures Ahead(Apply(cfg, s, a), p) + (if a.Work? then 1 else 0) <= Ahead(s, p)
  {
    match a {
      case Move(q) => MoveKeepsAhead(cfg, s, q, p);
      case Work(spare) => WorkServes(cfg, s, spare, p);
      case PostOther => AppendKeepsPosition(s.core.queue, Signal(p), OtherTask);
      case _ =>
    }
  }

  /**
   * No wait lasts: in every run, racing or not, and whatever the other producers log, flush and post, a producer that
   * waits for the strand finds it enabled throughout, and sees at most as many strand steps as were ahead of its
   * signal when it began.
   */
  lemma {:induction false} WaitIsBounded(cfg: Config, ss: seq<State>, acts: seq<Action>, i: nat, j: nat, p: nat,
                                         spare: Bytes)
    requires IsRun(cfg, ss, acts) && Starts(ss[0]) && i <= j <= |acts| && |spare| == SPARE
    requires forall k | i <= k <= j :: p < |ss[k].procs| && Waiting(ss[k].procs[p])
    ensures Enabled(cfg, ss[j], Work(spare))
    ensures WorkSteps(acts, i, j) + Ahead(ss[j], p) <= Ahead(ss[i], p)
  {
    hide SignalsSound, Apply, Ahead, Starts;
    RunKeepsSignals(cfg, ss, acts, j);
    WaiterFindsWork(cfg, ss[j], p, spare);
    if i < j {
      WaitIsBounded(cfg, ss, acts, i, j - 1, p, spare);
      RunKeepsSignals(cfg, ss, acts, j - 1);
      StepBringsCloser(cfg, ss[j - 1], acts[j - 1], p);
    }
  }

  lemma WaiterFindsWork(cfg: Config, s: State, p: nat, spare: Bytes)
    requires SignalsSound(s.core.queue, s.procs) && p < |s.procs| && Waiting(s.procs[p]) && |spare| == SPARE
    ensures Enabled(cfg, s, Work(spare))
  {
    assert Signal(p) in s.core.queue;
  }
}
