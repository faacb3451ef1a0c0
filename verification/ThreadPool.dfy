/** The executor: a shared FIFO queue and a fixed number of workers (logger/scheduler/thread_pool.h, thread_pool.cc). */
module ThreadPools {

  /** A task with its place in posting order. */
  datatype Job<T> = Job(ticket: nat, task: T)

  datatype Slot<T> = Free | Busy(job: Job<T>)

  /** `posted`, `taken` and `finished` are history: every task posted, taken by a worker, and run to its end. */
  datatype Pool<T> = Pool(
    queue: seq<Job<T>>,
    slots: seq<Slot<T>>,
    posted: seq<T>,
    taken: seq<Job<T>>,
    finished: seq<Job<T>>)

  datatype Action<T> = Post(task: T) | Take(w: nat) | Finish(w: nat)

  predicate Enabled<T>(p: Pool<T>, a: Action<T>) {
    match a
    case Post(_) => true
    case Take(w) => w < |p.slots| && p.slots[w].Free? && p.queue != []
    case Finish(w) => w < |p.slots| && p.slots[w].Busy?
  }

  function Apply<T>(p: Pool<T>, a: Action<T>): Pool<T>
    requires Enabled(p, a)
  {
    match a
    case Post(t) => p.(queue := p.queue + [Job(|p.posted|, t)], posted := p.posted + [t])
    case Take(w) => p.(queue := p.queue[1..], slots := p.slots[w := Busy(p.queue[0])], taken := p.taken + [p.queue[0]])
    case Finish(w) => p.(slots := p.slots[w := Slot.Free], finished := p.finished + [p.slots[w].job])
  }

  function Started<T>(workers: nat): Pool<T> {
    Pool([], seq(workers, _ => Slot.Free), [], [], [])
  }

  ghost predicate IsRun<T(!new)>(ps: seq<Pool<T>>, acts: seq<Action<T>>, workers: nat) {
    && |ps| == |acts| + 1
    && ps[0] == Started(workers)
    && forall i | 0 <= i < |acts| :: Enabled(ps[i], acts[i]) && ps[i + 1] == Apply(ps[i], acts[i])
  }

  // ---------- what every run keeps ----------

  /** The posted tasks with their tickets. */
  function Jobs<T>(posted: seq<T>): (js: seq<Job<T>>)
    ensures |js| == |posted|
  {
    seq(|posted|, i requires 0 <= i < |posted| => Job(i, posted[i]))
  }

  ghost function Running<T>(slots: seq<Slot<T>>): (js: multiset<Job<T>>) {
    if slots == [] then multiset{}
    else Running(slots[..|slots| - 1]) + JobsIn(slots[|slots| - 1])
  }

  ghost function JobsIn<T>(slot: Slot<T>): multiset<Job<T>> {
    if slot.Busy? then multiset{slot.job} else multiset{}
  }

  /** Tasks leave the queue in posting order, and every task taken is running or finished, once. */
  ghost predicate InOrder<T>(p: Pool<T>) {
    && p.taken + p.queue == Jobs(p.posted)
    && multiset(p.finished) + Running(p.slots) == multiset(p.taken)
  }

  lemma {:induction false} RunningUpdate<T>(slots: seq<Slot<T>>, w: nat, slot: Slot<T>)
    requires w < |slots|
    ensures Running(slots[w := slot]) + JobsIn(slots[w]) == Running(slots) + JobsIn(slot)
  {
    hide JobsIn;
    var before, after := slots[..|slots| - 1], slots[w := slot];
    if w < |before| {
      RunningUpdate(before, w, slot);
      assert after[..|after| - 1] == before[w := slot];
      AddToBoth(Running(before[w := slot]), JobsIn(before[w]), Running(before), JobsIn(slot), JobsIn(slots[|slots| - 1]));
    } else {
      assert after[..|after| - 1] == before;
      AddInEitherOrder(Running(before), JobsIn(slot), JobsIn(slots[w]));
    }
  }

  lemma AddInEitherOrder<T>(x: multiset<T>, a: multiset<T>, b: multiset<T>)
    ensures x + a + b == x + b + a
  {
  }

  lemma AddToBoth<T>(x: multiset<T>, a: multiset<T>, y: multiset<T>, b: multiset<T>, more: multiset<T>)
    requires x + a == y + b
    ensures x + more + a == y + more + b
  {
    assert x + more + a == x + a + more && y + more + b == y + b + more;
  }

  lemma {:induction false} NobodyRunning<T>(slots: seq<Slot<T>>)
    requires forall w | 0 <= w < |slots| :: slots[w].Free?
    ensures Running(slots) == multiset{}
  {
    if slots != [] {
      NobodyRunning(slots[..|slots| - 1]);
    }
  }

  lemma StepKeepsOrder<T>(p: Pool<T>, a: Action<T>)
    requires Enabled(p, a) && InOrder(p)
    ensures InOrder(Apply(p, a))
  {
    match a {
      case Post(t) =>
        assert Jobs(p.posted + [t]) == Jobs(p.posted) + [Job(|p.posted|, t)];
        assert p.taken + (p.queue + [Job(|p.posted|, t)]) == p.taken + p.queue + [Job(|p.posted|, t)];
      case Take(w) =>
        assert p.taken + [p.queue[0]] + p.queue[1..] == p.taken + p.queue;
        TakeCounts(p, w);
      case Finish(w) =>
        FinishCounts(p, w);
    }
  }

  lemma TakeCounts<T>(p: Pool<T>, w: nat)
    requires Enabled(p, Take(w)) && multiset(p.finished) + Running(p.slots) == multiset(p.taken)
    ensures multiset(p.finished) + Running(p.slots[w := Busy(p.queue[0])]) == multiset(p.taken + [p.queue[0]])
  {
    RunningUpdate(p.slots, w, Busy(p.queue[0]));
    assert Running(p.slots[w := Busy(p.queue[0])]) == Running(p.slots) + multiset{p.queue[0]};
  }

  lemma FinishCounts<T>(p: Pool<T>, w: nat)
    requires Enabled(p, Finish(w)) && multiset(p.finished) + Running(p.slots) == multiset(p.taken)
    ensures multiset(p.finished + [p.slots[w].job]) + Running(p.slots[w := Slot.Free]) == multiset(p.taken)
  {
    RunningUpdate(p.slots, w, Slot.Free);
    var job, after := p.slots[w].job, Running(p.slots[w := Slot.Free]);
    assert multiset(p.finished + [job]) + after == multiset(p.finished) + (after + multiset{job});
  }

  lemma {:induction false} RunKeepsOrder<T(!new)>(ps: seq<Pool<T>>, acts: seq<Action<T>>, workers: nat, i: nat)
    requires IsRun(ps, acts, workers) && i <= |acts|
    ensures InOrder(ps[i]) && |ps[i].slots| == workers
  {
    hide InOrder;
    if i == 0 {
      StartedInOrder<T>(workers);
    } else {
      RunKeepsOrder(ps, acts, workers, i - 1);
      StepKeepsOrder(ps[i - 1], acts[i - 1]);
    }
  }

  lemma StartedInOrder<T>(workers: nat)
    ensures InOrder<T>(Started(workers))
  {
    var p: Pool<T> := Started(workers);
    NobodyRunning(p.slots);
    assert p.taken + p.queue == Jobs(p.posted);
  }

  /**
   * FIFO with any number of workers: in every state of every run the tasks taken are a prefix of the tasks posted, the
   * queue is the rest, and each task taken is either running or finished, exactly once.
   */
  lemma TakenInPostingOrder<T(!new)>(ps: seq<Pool<T>>, acts: seq<Action<T>>, workers: nat, i: nat)
    requires IsRun(ps, acts, workers) && i <= |acts|
    ensures ps[i].taken + ps[i].queue == Jobs(ps[i].posted)
    ensures multiset(ps[i].finished) + Running(ps[i].slots) == multiset(ps[i].taken)
  {
    RunKeepsOrder(ps, acts, workers, i);
  }

  // ---------- one worker: a strand ----------

  function Current<T>(slot: Slot<T>): seq<Job<T>> {
    if slot.Busy? then [slot.job] else []
  }

  /** Finished, then running, then queued: exactly what was posted, in order. */
  predicate Strand<T(==)>(p: Pool<T>) {
    |p.slots| == 1 && p.finished + Current(p.slots[0]) + p.queue == Jobs(p.posted)
  }

  lemma StepKeepsStrand<T>(p: Pool<T>, a: Action<T>)
    requires Enabled(p, a) && Strand(p)
    ensures Strand(Apply(p, a))
  {
    match a {
      case Post(t) =>
        assert Jobs(p.posted + [t]) == Jobs(p.posted) + [Job(|p.posted|, t)];
        var busy := p.finished + Current(p.slots[0]);
        assert busy + (p.queue + [Job(|p.posted|, t)]) == busy + p.queue + [Job(|p.posted|, t)];
      case Take(w) =>
        assert p.finished + [p.queue[0]] + p.queue[1..] == p.finished + [] + p.queue;
      case Finish(w) =>
        var job := p.slots[0].job;
        assert p.finished + [job] + [] + p.queue == p.finished + [job] + p.queue;
    }
  }

  lemma {:induction false} StrandIsFifo<T(!new)>(ps: seq<Pool<T>>, acts: seq<Action<T>>, i: nat)
    requires IsRun(ps, acts, 1) && i <= |acts|
    ensures Strand(ps[i])
  {
    if i == 0 {
      assert ps[0].finished + Current(ps[0].slots[0]) + ps[0].queue == Jobs(ps[0].posted);
    } else {
      StrandIsFifo(ps, acts, i - 1);
      StepKeepsStrand(ps[i - 1], acts[i - 1]);
    }
  }

  predicate HasFinished<T>(p: Pool<T>, ticket: nat) {
    exists j | 0 <= j < |p.finished| :: p.finished[j].ticket == ticket
  }

  /** Waiting for a task's result waits for every task posted before it. */
  ghost predicate IsBarrier<T>(p: Pool<T>) {
    forall i, ticket: nat | 0 <= i < |p.finished| && ticket < p.finished[i].ticket :: HasFinished(p, ticket)
  }

  lemma StrandIsBarrier<T>(p: Pool<T>)
    requires Strand(p)
    ensures IsBarrier(p)
  {
    var all := Jobs(p.posted);
    forall i, ticket: nat | 0 <= i < |p.finished| && ticket < p.finished[i].ticket
      ensures HasFinished(p, ticket)
    {
      assert p.finished[i] == all[i] && p.finished[ticket] == all[ticket];
    }
  }

  /**
   * The wait that `Flush` rests on, `WAIT_TASKS_COMPLETED`, is a barrier in every run exactly when the executor has at
   * most one worker.
   */
  lemma WaitIsBarrierIffOneWorker<T(!new)>(workers: nat, task: T)
    ensures (forall ps: seq<Pool<T>>, acts: seq<Action<T>> | IsRun(ps, acts, workers) :: IsBarrier(ps[|acts|]))
            <==> workers <= 1
  {
    if workers <= 1 {
      forall ps: seq<Pool<T>>, acts: seq<Action<T>> | IsRun(ps, acts, workers)
        ensures IsBarrier(ps[|acts|])
      {
        if workers == 1 {
          StrandIsFifo(ps, acts, |acts|);
          StrandIsBarrier(ps[|acts|]);
        } else {
          NobodyFinishes(ps, acts, |acts|);
        }
      }
    } else {
      var ps, acts := Overtaking(workers, task);
      assert !IsBarrier(ps[|acts|]);
    }
  }

  lemma {:induction false} NobodyFinishes<T(!new)>(ps: seq<Pool<T>>, acts: seq<Action<T>>, i: nat)
    requires IsRun(ps, acts, 0) && i <= |acts|
    ensures ps[i].finished == [] && ps[i].slots == []
  {
    if i > 0 {
      NobodyFinishes(ps, acts, i - 1);
      assert Enabled(ps[i - 1], acts[i - 1]);
    }
  }

  /** With two workers a later task can finish first. */
  lemma Overtaking<T(!new)>(workers: nat, task: T) returns (ps: seq<Pool<T>>, acts: seq<Action<T>>)
    requires workers > 1
    ensures IsRun(ps, acts, workers) && !IsBarrier(ps[|acts|])
  {
    var p0: Pool<T> := Started(workers);
    acts := [Post(task), Post(task), Take(0), Take(1), Finish(1)];
    var p1 := Apply(p0, acts[0]);
    var p2 := Apply(p1, acts[1]);
    assert p2.queue == [Job(0, task), Job(1, task)];
    var p3 := Apply(p2, acts[2]);
    var p4 := Apply(p3, acts[3]);
    var p5 := Apply(p4, acts[4]);
    ps := [p0, p1, p2, p3, p4, p5];
    assert p5.finished == [Job(1, task)];
    assert p5.finished[0].ticket == 1 && !HasFinished(p5, 0);
  }

  // ---------- the object ----------

  class ThreadPool<T(==)> {
    const threadCount: nat
    var isRunning: bool
    var taskQueue: seq<Job<T>>
    var threads: seq<Slot<T>>
    ghost var posted: seq<T>
    ghost var taken: seq<Job<T>>
    ghost var finished: seq<Job<T>>
    var tickets: nat

    constructor (threadCount: nat)
      ensures this.threadCount == threadCount && !isRunning && Valid()
      ensures View() == Pool([], [], [], [], [])
    {
      this.threadCount, isRunning, taskQueue, threads, tickets := threadCount, false, [], [], 0;
      posted, taken, finished := [], [], [];
    }

    /** The order every run keeps, and with one thread the strand's. */
    ghost predicate Valid()
      reads this
    {
      && tickets == |posted| && InOrder(View())
      && (!isRunning ==> threads == [])
      && (threads == [] ==> taken == [] && finished == [])
      && (|threads| == 1 ==> Strand(View()))
    }

    ghost function View(): Pool<T>
      reads this
    {
      Pool(taskQueue, threads, posted, taken, finished)
    }

    /** Starts the workers, once. */
    method Start()
      requires Valid()
      modifies this`isRunning, this`threads
      ensures Valid() && isRunning
      ensures threads == if old(isRunning) then old(threads) else seq(threadCount, _ => Slot.Free)
    {
      if !isRunning {
        NothingTakenIsQueued(View());
        isRunning := true;
        var i := 0;
        while i < threadCount
          invariant 0 <= i <= threadCount
          invariant threads == seq(i, _ => Slot.Free)
          invariant isRunning
        {
          threads := threads + [Slot.Free];
          i := i + 1;
        }
        IdlePoolIsValid(View());
      }
    }

    /** The task will be taken when everything posted before it has been: it stands behind all that still waits. */
    method AddTask(task: T)
      requires Valid()
      modifies this`taskQueue, this`posted, this`tickets
      ensures Valid() && View() == Apply(old(View()), Post(task))
      ensures posted == old(posted) + [task] && |taken| + |taskQueue| == |posted|
    {
      PostKeepsValid(View(), task);
      taskQueue := taskQueue + [Job(tickets, task)];
      posted := posted + [task];
      tickets := tickets + 1;
    }

    /** The worker's locked section: whoever takes next gets the next task in posting order. */
    method Take(w: nat) returns (task: T)
      requires Valid() && isRunning && Enabled(View(), Action.Take(w))
      modifies this`taskQueue, this`threads, this`taken
      ensures Valid() && View() == Apply(old(View()), Action.Take(w))
      ensures |old(taken)| < |posted| && task == posted[|old(taken)|]
    {
      StepKeepsValid(View(), Action.Take(w));
      NextInLine(View());
      hide InOrder, Strand, Jobs;
      var job := taskQueue[0];
      taskQueue := taskQueue[1..];
      threads := threads[w := Busy(job)];
      taken := taken + [job];
      task := job.task;
    }

    /** The worker has run its task; with one worker the finished tasks are then the first ones posted, in order. */
    method Finish(w: nat)
      requires Valid() && Enabled(View(), Action.Finish(w))
      modifies this`threads, this`finished
      ensures Valid() && View() == Apply(old(View()), Action.Finish(w))
      ensures |threads| == 1 ==> finished == Jobs(posted)[..|finished|] == taken
    {
      StepKeepsValid(View(), Action.Finish(w));
      finished := finished + [threads[w].job];
      threads := threads[w := Slot.Free];
      if |threads| == 1 {
        IdleStrandFinishedAll(View());
      }
    }
  }

  /** The front of the queue is the next task in posting order. */
  lemma NextInLine<T>(p: Pool<T>)
    requires InOrder(p) && p.queue != []
    ensures |p.taken| < |p.posted| && p.queue[0].task == p.posted[|p.taken|]
  {
    assert (p.taken + p.queue)[|p.taken|] == p.queue[0];
  }

  lemma NothingTakenIsQueued<T>(p: Pool<T>)
    requires InOrder(p) && p.taken == []
    ensures p.queue == Jobs(p.posted)
  {
    assert [] + p.queue == p.queue;
  }

  lemma IdlePoolIsValid<T>(p: Pool<T>)
    requires p.taken == [] && p.finished == [] && p.queue == Jobs(p.posted)
    requires forall w | 0 <= w < |p.slots| :: p.slots[w].Free?
    ensures InOrder(p) && (|p.slots| == 1 ==> Strand(p))
  {
    NobodyRunning(p.slots);
    assert p.taken + p.queue == p.queue && p.finished + [] + p.queue == p.queue;
  }

  lemma StepKeepsValid<T>(p: Pool<T>, a: Action<T>)
    requires Enabled(p, a) && InOrder(p) && (|p.slots| == 1 ==> Strand(p))
    ensures InOrder(Apply(p, a)) && (|p.slots| == 1 ==> Strand(Apply(p, a)))
  {
    StepKeepsOrder(p, a);
    if |p.slots| == 1 {
      StepKeepsStrand(p, a);
    }
  }

  lemma PostKeepsValid<T>(p: Pool<T>, task: T)
    requires InOrder(p) && (|p.slots| == 1 ==> Strand(p))
    ensures var p' := Apply(p, Post(task));
            InOrder(p') && (|p.slots| == 1 ==> Strand(p')) && |p'.taken| + |p'.queue| == |p'.posted|
  {
    StepKeepsValid(p, Post(task));
    var p' := Apply(p, Post(task));
    assert |p'.taken + p'.queue| == |Jobs(p'.posted)|;
  }

  /** With one worker at rest, everything taken is finished, in the order posted. */
  lemma IdleStrandFinishedAll<T>(p: Pool<T>)
    requires InOrder(p) && Strand(p) && p.slots[0].Free?
    ensures p.finished == Jobs(p.posted)[..|p.finished|] == p.taken
  {
    NobodyRunning(p.slots);
    assert |multiset(p.finished)| == |multiset(p.taken)|;
    assert p.finished + [] + p.queue == p.finished + p.queue;
    assert p.finished == (p.finished + p.queue)[..|p.finished|];
    assert p.taken == (p.taken + p.queue)[..|p.taken|];
  }

  // ---------- executor tags ----------

  class Scheduler {
    var executors: map<nat, nat>  // tag to number of workers

    constructor ()
      ensures executors == map[]
    {
      executors := map[];
    }

    /**
     * Registers a new executor under the first unused tag from the one asked for on, so no two executors ever share a
     * tag and the ones that exist stay.
     */
    method NewTaskExecutor(wanted: nat, threadCount: nat) returns (tag: nat)
      modifies this
      ensures tag !in old(executors) && wanted <= tag
      ensures forall t | wanted <= t < tag :: t in old(executors)
      ensures executors == old(executors)[tag := threadCount]
    {
      tag := wanted;
      ghost var passed: set<nat> := {};
      while tag in executors
        invariant wanted <= tag && executors == old(executors)
        invariant forall t | wanted <= t < tag :: t in executors
        invariant passed == set t | t in executors.Keys && wanted <= t < tag
        invariant passed <= executors.Keys
        decreases executors.Keys - passed
      {
        passed := passed + {tag};
        tag := tag + 1;
      }
      executors := executors[tag := threadCount];
    }
  }
}
