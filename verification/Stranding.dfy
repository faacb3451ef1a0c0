/** Exactly when a swap made by `Log` can leave a full buffer behind a free flag, with any number of producers. */
module Stranding {
  import opened Bytes
  import opened Layout
  import opened Pipeline
  import opened Handoff
  import opened Schedules
  import opened Races
  import Waits

  /** A stale cache task: queued, or already taken but yet to look at the flag. */
  predicate PendingCache(s: State) {
    s.worker.CheckFlag? || CacheTask in s.core.queue
  }

  /** `Log` has found the buffer full and is about to read a free flag. */
  ghost predicate AboutToSwap(cfg: Config, s: State, p: nat) {
    && Inv(cfg, s) && p < |s.procs| && s.procs[p] == SwapLoad(ByLog)
    && s.core.free && s.core.master.entries != []
  }

  /** There is a producer other than `p` that does not stand between reading the free flag and storing it. */
  ghost predicate HasOther(s: State, p: nat) {
    exists q: nat | q < |s.procs| && q != p :: !s.procs[q].SwapStore?
  }

  /** A call of `Log` that has its message still to push can push it: the buffer stays below 2^32 bytes. */
  ghost predicate PushFits(cfg: Config, master: Buffer, pc: Proc) {
    pc.LogStart? || pc.LogReset? || pc.LogPush? ==>
      forall session: seq<Bytes> :: BufferSize(master) + ITEM_HEADER + |Payload(cfg, session, pc.msg)| < U32
  }

  /** Some schedule inside this one swap puts the entries it was to hand over behind a free flag. */
  ghost predicate CanStrand(cfg: Config, s: State, p: nat)
    requires cfg.Sound()
  {
    exists acts: seq<Action> ::
      && StaysInSwap(cfg, s, p, acts) && Possible(cfg, s, acts) && Stranded(After(cfg, s, acts))
      && s.core.master.entries <= After(cfg, s, acts).core.slave.entries
  }

  // ---------- between the store and the exchange ----------

  /** Producer `p` has taken the flag and has yet to exchange; the slave is empty and `m0` heads the master. */
  ghost predicate Poised(s: State, p: nat, m0: seq<Entry>) {
    && p < |s.procs| && s.procs[p] == SwapExchange(ByLog)
    && !s.core.free && s.core.slave.entries == [] && m0 != [] && m0 <= s.core.master.entries
    && SignalsSound(s.core.queue, s.procs)
    && forall r | 0 <= r < |s.procs| :: !Booting(s.procs[r])
  }

  lemma StaysThen(cfg: Config, s: State, p: nat, acts: seq<Action>, a: Action) returns (longer: seq<Action>)
    requires cfg.Sound() && StaysInSwap(cfg, s, p, acts) && Possible(cfg, s, acts)
    requires Enabled(cfg, After(cfg, s, acts), a)
    requires InLogSwap(After(cfg, s, acts), p) && InLogSwap(Apply(cfg, After(cfg, s, acts), a), p)
    ensures StaysInSwap(cfg, s, p, longer) && Possible(cfg, s, longer)
    ensures After(cfg, s, longer) == Apply(cfg, After(cfg, s, acts), a)
  {
    var t := After(cfg, s, acts);
    assert [a][1..] == [];
    assert StaysInSwap(cfg, Apply(cfg, t, a), p, []);
    assert StaysInSwap(cfg, t, p, [a]);
    One(cfg, t, a);
    StaysCompose(cfg, s, p, acts, [a]);
    longer := acts + [a];
  }

  lemma {:induction false} StaysCompose(cfg: Config, s: State, p: nat, a: seq<Action>, b: seq<Action>)
    requires cfg.Sound() && StaysInSwap(cfg, s, p, a) && Possible(cfg, s, a)
    requires StaysInSwap(cfg, After(cfg, s, a), p, b) && Possible(cfg, After(cfg, s, a), b)
    ensures StaysInSwap(cfg, s, p, a + b) && Possible(cfg, s, a + b)
    ensures After(cfg, s, a + b) == After(cfg, After(cfg, s, a), b)
    decreases |a|
  {
    if a == [] {
      assert a + b == b;
    } else {
      assert (a + b)[0] == a[0] && (a + b)[1..] == a[1..] + b;
      StaysCompose(cfg, Apply(cfg, s, a[0]), p, a[1..], b);
    }
  }

  /** First an action, then the rest. */
  lemma StaysFirst(cfg: Config, s: State, p: nat, a: Action, rest: seq<Action>) returns (acts: seq<Action>)
    requires cfg.Sound() && InLogSwap(s, p) && Enabled(cfg, s, a)
    requires StaysInSwap(cfg, Apply(cfg, s, a), p, rest) && Possible(cfg, Apply(cfg, s, a), rest)
    ensures StaysInSwap(cfg, s, p, acts) && Possible(cfg, s, acts)
    ensures After(cfg, s, acts) == After(cfg, Apply(cfg, s, a), rest)
  {
    acts := [a] + rest;
    assert acts[1..] == rest;
  }

  // ---------- the strand takes tasks of no account ----------

  /** One task that is no cache task is taken off the queue; whoever waited for it goes on. */
  lemma TakeOther(cfg: Config, s: State, p: nat, m0: seq<Entry>)
    requires cfg.Sound() && Poised(s, p, m0) && s.worker.Resting?
    requires s.core.queue != [] && !s.core.queue[0].CacheTask?
    ensures var t := Apply(cfg, s, Work(Unused()));
            && Poised(t, p, m0) && t.worker.Resting? && t.core == s.core.(queue := s.core.queue[1..])
            && |t.procs| == |s.procs| && t.recovered == s.recovered
            && forall q | 0 <= q < |s.procs| ::
                 t.procs[q] == if s.core.queue[0] == Signal(q) then Signalled(s.procs[q]) else s.procs[q]
  {
    hide OpenChunk, FillChunk, EntriesBytes;
    Handoff.WorkKeepsSignals(cfg, s, Unused());
  }

  /** The strand works down the queue to the first cache task. */
  lemma {:induction false} WorkToCacheTask(cfg: Config, s: State, p: nat, m0: seq<Entry>) returns (acts: seq<Action>)
    requires cfg.Sound() && Poised(s, p, m0) && s.worker.Resting? && CacheTask in s.core.queue
    ensures StaysInSwap(cfg, s, p, acts) && Possible(cfg, s, acts)
    ensures var t := After(cfg, s, acts);
            && Poised(t, p, m0) && t.worker.CheckFlag?
            && t.core == s.core.(queue := t.core.queue) && |t.procs| == |s.procs| && t.recovered == s.recovered
    decreases |s.core.queue|
  {
    var a := Work(Unused());
    var t := Apply(cfg, s, a);
    if s.core.queue[0].CacheTask? {
      TakeCacheTask(cfg, s, p, m0);
      acts := StaysFirst(cfg, s, p, a, []);
    } else {
      TakeOther(cfg, s, p, m0);
      acts := WorkToCacheTask(cfg, t, p, m0);
      acts := StaysFirst(cfg, s, p, a, acts);
    }
  }

  lemma TakeCacheTask(cfg: Config, s: State, p: nat, m0: seq<Entry>)
    requires cfg.Sound() && Poised(s, p, m0) && s.worker.Resting? && s.core.queue != [] && s.core.queue[0].CacheTask?
    ensures var t := Apply(cfg, s, Work(Unused()));
            && Poised(t, p, m0) && StaysInSwap(cfg, t, p, []) && Possible(cfg, t, [])
            && t == s.(core := s.core.(queue := s.core.queue[1..]), worker := CheckFlag)
  {
    hide OpenChunk, FillChunk, EntriesBytes;
    Handoff.WorkKeepsSignals(cfg, s, Unused());
  }

  /** The stale task sees the flag taken and the slave empty, frees it, and only then are the buffers exchanged. */
  lemma StrandFromCheckFlag(cfg: Config, s: State, p: nat, m0: seq<Entry>) returns (acts: seq<Action>)
    requires cfg.Sound() && Poised(s, p, m0) && s.worker.CheckFlag?
    ensures StaysInSwap(cfg, s, p, acts) && Possible(cfg, s, acts)
    ensures Stranded(After(cfg, s, acts)) && m0 <= After(cfg, s, acts).core.slave.entries
    ensures After(cfg, s, acts)
         == s.(core := Exchange(s.core.(free := true)), worker := Resting, procs := s.procs[p := SwapPost(ByLog)])
  {
    var w := Work(Unused());
    var s3 := s.(core := s.core.(free := true), worker := Resting);
    acts := [];
    assert StaysInSwap(cfg, s, p, acts) && Possible(cfg, s, acts) && After(cfg, s, acts) == s;
    hide StaysInSwap, Possible, After, EntriesBytes, SignalsSound;
    acts := StaysThen(cfg, s, p, acts, w);
    assert After(cfg, s, acts) == s.(worker := CheckEmpty);
    acts := StaysThen(cfg, s, p, acts, w);
    assert After(cfg, s, acts) == s.(worker := SetFree);
    acts := StaysThen(cfg, s, p, acts, w);
    assert After(cfg, s, acts) == s3;
    acts := StaysThen(cfg, s, p, acts, Move(p));
  }

  // ---------- another producer posts ----------

  /** Steps of its own a producer may have to take before it posts a cache task, with the flag taken. */
  function Rank(pc: Proc): nat {
    match pc
    case FlushPost(_) => 1
    case SwapPost(_) => 1
    case Idle => 2
    case SwapLoad(_) => 2
    case LogRatio => 3
    case FlushDone(_) => 3
    case WaitFirst(_) => 3
    case SignalFirst(_) => 4
    case WaitLast(_) => 4
    case SignalLast(_) => 5
    case LogPush(_) => 4
    case LogReset(_) => 5
    case LogStart(_) => 6
    case _ => 0
  }

  /** Producer `q` can still be driven: the strand is quiet and it is not itself in the middle of a swap. */
  ghost predicate Driving(cfg: Config, s: State, p: nat, q: nat, m0: seq<Entry>) {
    && Poised(s, p, m0) && Quiet(s) && q < |s.procs| && q != p
    && !s.procs[q].SwapStore? && !s.procs[q].SwapExchange?
    && PushFits(cfg, s.core.master, s.procs[q])
  }

  /** Whoever waits, waits for its signal to come up. */
  function Behind(s: State, q: nat): nat
    requires q < |s.procs|
  {
    if Waiting(s.procs[q]) then Waits.Position(s.core.queue, Signal(q)) else 0
  }

  ghost predicate Closer(s: State, t: State, q: nat)
    requires q < |s.procs| && q < |t.procs|
  {
    Rank(t.procs[q]) < Rank(s.procs[q]) || (Rank(t.procs[q]) == Rank(s.procs[q]) && Behind(t, q) < Behind(s, q))
  }

  lemma DriveWait(cfg: Config, s: State, p: nat, q: nat, m0: seq<Entry>)
    requires cfg.Sound() && Driving(cfg, s, p, q, m0) && Waiting(s.procs[q])
    ensures Enabled(cfg, s, Work(Unused()))
    ensures var t := Apply(cfg, s, Work(Unused())); Driving(cfg, t, p, q, m0) && Closer(s, t, q)
  {
    hide OpenChunk, FillChunk, EntriesBytes, Payload;
    assert Signal(q) in s.core.queue;
    var head := s.core.queue[0];
    assert head in s.core.queue;
    TakeOther(cfg, s, p, m0);
    var t := Apply(cfg, s, Work(Unused()));
    assert CacheTask !in t.core.queue by {
      assert forall i | 0 <= i < |t.core.queue| :: t.core.queue[i] == s.core.queue[i + 1];
    }
  }

  /** What a step of `q` leaves as it was, seen from `p`. */
  lemma MoveKeepsPoised(cfg: Config, s: State, p: nat, q: nat, m0: seq<Entry>)
    requires cfg.Sound() && Driving(cfg, s, p, q, m0) && Enabled(cfg, s, Move(q))
    ensures var t := Apply(cfg, s, Move(q)); Poised(t, p, m0) && t.worker.Resting? && |t.procs| == |s.procs|
  {
    hide SignalsSound, EntriesBytes, Payload, PushFits;
    MoveBuffers(cfg, s.core, q, s.procs[q]);
    MoveFlag(cfg, s.core, q, s.procs[q]);
    MoveKeepsSignals(cfg, s, q);
    MoveBoots(cfg, s.core, q, s.procs[q]);
  }

  /** Where a step leads `q` when the flag is taken: to a posted cache task, or one step nearer. */
  lemma MoveRanks(cfg: Config, c: Core, q: nat, pc: Proc)
    requires cfg.Sound() && !c.free && !Waiting(pc) && !pc.Idle? && !Booting(pc)
    requires !pc.SwapStore? && !pc.SwapExchange?
    ensures var (c', pc') := MoveCore(cfg, c, q, pc);
            || c'.queue == c.queue + [CacheTask]
            || ((c'.queue == c.queue || c'.queue == c.queue + [Signal(q)]) && Rank(pc') < Rank(pc)
                && !pc'.SwapStore? && !pc'.SwapExchange?
                && (pc'.LogStart? || pc'.LogReset? || pc'.LogPush? ==>
                      (pc.LogStart? || pc.LogReset?) && pc'.msg == pc.msg && c'.master == c.master))
  {
    hide Payload, AppendEntry, IsFull;
  }

  lemma DriveMove(cfg: Config, s: State, p: nat, q: nat, m0: seq<Entry>)
    requires cfg.Sound() && Driving(cfg, s, p, q, m0) && !Waiting(s.procs[q]) && !s.procs[q].Idle?
    ensures Enabled(cfg, s, Move(q))
    ensures var t := Apply(cfg, s, Move(q));
            && Poised(t, p, m0) && t.worker.Resting? && q < |t.procs|
            && (CacheTask in t.core.queue || (Driving(cfg, t, p, q, m0) && Closer(s, t, q)))
  {
    assert Enabled(cfg, s, Move(q));
    MoveKeepsPoised(cfg, s, p, q, m0);
    MoveRanks(cfg, s.core, q, s.procs[q]);
    var t := Apply(cfg, s, Move(q));
    hide Poised, MoveCore, Payload, BufferSize;
    if t.core.queue == s.core.queue + [CacheTask] {
      assert t.core.queue[|s.core.queue|] == CacheTask;
    }
  }

  lemma DriveIdle(cfg: Config, s: State, p: nat, q: nat, m0: seq<Entry>)
    requires cfg.Sound() && Driving(cfg, s, p, q, m0) && s.procs[q].Idle?
    ensures Enabled(cfg, s, BeginFlush(q))
    ensures var t := Apply(cfg, s, BeginFlush(q)); Driving(cfg, t, p, q, m0) && Closer(s, t, q)
  {
    QuietMoveKeepsSignals(s.core.queue, s.procs, q, FlushPost(|s.core.pushed|));
    hide SignalsSound;
  }

  /** Left to itself with the strand, any other producer comes to post a cache task. */
  lemma {:induction false} DriveToPost(cfg: Config, s: State, p: nat, q: nat, m0: seq<Entry>)
    returns (acts: seq<Action>)
    requires cfg.Sound() && Driving(cfg, s, p, q, m0)
    ensures StaysInSwap(cfg, s, p, acts) && Possible(cfg, s, acts)
    ensures var t := After(cfg, s, acts); Poised(t, p, m0) && t.worker.Resting? && CacheTask in t.core.queue
    decreases Rank(s.procs[q]), Behind(s, q)
  {
    var a;
    if Waiting(s.procs[q]) {
      a := Work(Unused());
      DriveWait(cfg, s, p, q, m0);
    } else if s.procs[q].Idle? {
      a := BeginFlush(q);
      DriveIdle(cfg, s, p, q, m0);
    } else {
      a := Move(q);
      DriveMove(cfg, s, p, q, m0);
    }
    hide Apply, Enabled, SignalsSound, PushFits, Quiet;
    var t := Apply(cfg, s, a);
    if CacheTask in t.core.queue {
      acts := [];
      assert StaysInSwap(cfg, t, p, acts) && Possible(cfg, t, acts) && After(cfg, t, acts) == t;
    } else {
      acts := DriveToPost(cfg, t, p, q, m0);
    }
    acts := StaysFirst(cfg, s, p, a, acts);
  }

  // ---------- the schedule ----------

  /** Two steps of the producer: the flag is read and taken. */
  lemma TakeFlag(cfg: Config, s: State, p: nat) returns (acts: seq<Action>)
    requires cfg.Sound() && AboutToSwap(cfg, s, p)
    ensures StaysInSwap(cfg, s, p, acts) && Possible(cfg, s, acts)
    ensures After(cfg, s, acts) == s.(core := s.core.(free := false), procs := s.procs[p := SwapExchange(ByLog)])
  {
    acts := [];
    assert StaysInSwap(cfg, s, p, acts) && Possible(cfg, s, acts) && After(cfg, s, acts) == s;
    hide StaysInSwap, Possible, After, Inv;
    acts := StaysThen(cfg, s, p, acts, Move(p));
    assert After(cfg, s, acts) == s.(procs := s.procs[p := SwapStore(ByLog)]);
    acts := StaysThen(cfg, s, p, acts, Move(p));
  }

  lemma NobodyBoots(cfg: Config, s: State, p: nat)
    requires AboutToSwap(cfg, s, p)
    ensures forall r | 0 <= r < |s.procs| :: !Booting(s.procs[r])
  {
  }

  /** With the flag taken the swap is poised, and nobody else is past the store. */
  lemma TakenIsPoised(cfg: Config, s: State, p: nat)
    requires AboutToSwap(cfg, s, p)
    ensures var t := s.(core := s.core.(free := false), procs := s.procs[p := SwapExchange(ByLog)]);
            && Poised(t, p, s.core.master.entries) && (t.worker.Resting? || t.worker.CheckFlag?)
            && forall q | 0 <= q < |s.procs| && q != p :: !t.procs[q].SwapExchange?
  {
    NobodyBoots(cfg, s, p);
    QuietMoveKeepsSignals(s.core.queue, s.procs, p, SwapExchange(ByLog));
    assert forall q | 0 <= q < |s.procs| && s.procs[q].SwapExchange? :: Exchanging(s.procs);
    hide SignalsSound, Conserved, ChunksSound, SizesSound, HandedOff, AllProgress, BootSound;
  }

  /** A cache task comes up on the strand: one that was pending, or one another producer is driven to post. */
  lemma DownToCacheTask(cfg: Config, s: State, p: nat, m0: seq<Entry>) returns (acts: seq<Action>)
    requires cfg.Sound() && Poised(s, p, m0) && (s.worker.Resting? || s.worker.CheckFlag?)
    requires PendingCache(s) || exists q: nat :: Driving(cfg, s, p, q, m0)
    ensures StaysInSwap(cfg, s, p, acts) && Possible(cfg, s, acts)
    ensures var t := After(cfg, s, acts); Poised(t, p, m0) && t.worker.CheckFlag?
  {
    if s.worker.CheckFlag? {
      acts := [];
    } else if CacheTask in s.core.queue {
      acts := WorkToCacheTask(cfg, s, p, m0);
    } else {
      var q: nat :| Driving(cfg, s, p, q, m0);
      acts := DriveToPost(cfg, s, p, q, m0);
      hide StaysInSwap, Possible, After, Poised, Driving;
      var next := WorkToCacheTask(cfg, After(cfg, s, acts), p, m0);
      StaysCompose(cfg, s, p, acts, next);
      acts := acts + next;
    }
  }

  /** The schedule that strands the buffer. */
  lemma StrandingSchedule(cfg: Config, s: State, p: nat) returns (acts: seq<Action>)
    requires cfg.Sound() && AboutToSwap(cfg, s, p)
    requires forall q | 0 <= q < |s.procs| && q != p :: PushFits(cfg, s.core.master, s.procs[q])
    requires PendingCache(s) || HasOther(s, p)
    ensures StaysInSwap(cfg, s, p, acts) && Possible(cfg, s, acts) && Stranded(After(cfg, s, acts))
    ensures s.core.master.entries <= After(cfg, s, acts).core.slave.entries
  {
    var m0 := s.core.master.entries;
    acts := TakeFlag(cfg, s, p);
    var t := After(cfg, s, acts);
    TakenIsPoised(cfg, s, p);
    if !PendingCache(s) {
      var q: nat :| q < |s.procs| && q != p && !s.procs[q].SwapStore?;
      assert Driving(cfg, t, p, q, m0);
    }
    hide StaysInSwap, Possible, After, Poised, Driving, Inv, PushFits;
    var down := DownToCacheTask(cfg, t, p, m0);
    StaysCompose(cfg, s, p, acts, down);
    acts := acts + down;
    var last := StrandFromCheckFlag(cfg, After(cfg, s, acts), p, m0);
    StaysCompose(cfg, s, p, acts, last);
    acts := acts + last;
  }

  /** At most one producer stands between reading and storing, so with enough of them there is another. */
  lemma OthersExist(cfg: Config, s: State, p: nat)
    requires AboutToSwap(cfg, s, p) && |s.procs| > if Storing(s.procs) then 2 else 1
    ensures HasOther(s, p)
  {
    var q: nat := if p == 0 then 1 else 0;
    if s.procs[q].SwapStore? {
      assert Storing(s.procs);
      var r: nat := if p != 1 && q != 1 then 1 else 2;
      assert InWindow(s.procs[q]);
      assert r < |s.procs| && r != p && r != q && !InWindow(s.procs[r]);
    }
  }

  /**
   * A swap by `Log` of a buffer that holds something, over a free flag that nobody else has just read, can strand it if
   * and only if a cache task is still pending on the strand or there is another producer, who can always still post
   * one. While somebody else stands between reading the flag and storing it, a pending task or a third producer is
   * enough.
   */
  lemma SwapStrandsIff(cfg: Config, s: State, p: nat)
    requires cfg.Sound() && AboutToSwap(cfg, s, p)
    requires forall q | 0 <= q < |s.procs| && q != p :: PushFits(cfg, s.core.master, s.procs[q])
    ensures !Storing(s.procs) ==> (CanStrand(cfg, s, p) <==> PendingCache(s) || |s.procs| > 1)
    ensures Storing(s.procs) && (PendingCache(s) || |s.procs| > 2) ==> CanStrand(cfg, s, p)
  {
    if PendingCache(s) || |s.procs| > if Storing(s.procs) then 2 else 1 {
      if !PendingCache(s) {
        OthersExist(cfg, s, p);
      }
      var acts := StrandingSchedule(cfg, s, p);
    } else if !Storing(s.procs) {
      forall acts: seq<Action> | StaysInSwap(cfg, s, p, acts) && Possible(cfg, s, acts)
        ensures !Stranded(After(cfg, s, acts))
      {
        QuietSwapIsAtomic(cfg, s, acts);
      }
    }
  }
}
