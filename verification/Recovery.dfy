/** Stopping at any step and starting again over the two mapped files. */
module Recovery {
  import opened Bytes
  import opened Layout
  import opened Pipeline
  import opened Handoff
  import opened Races

  /** The buffer whose mapped file is named after the master: swaps exchange the objects, not the file names. */
  function MasterFile(s: State): Buffer {
    if s.core.exchanged then s.core.slave else s.core.master
  }

  function SlaveFile(s: State): Buffer {
    if s.core.exchanged then s.core.master else s.core.slave
  }

  /** The capacity every mapped file opens with, whatever it grew to before. */
  function FirstCapacity(page: nat): nat
    requires page > 0
  {
    MMap.PageRound(page, MMap.DEFAULT_CAPACITY)
  }

  /** The buffer has not outgrown the mapping that the next run makes of its file. */
  predicate FitsFirst(page: nat, b: Buffer)
    requires page > 0
  {
    MMap.HEADER + BufferSize(b) <= FirstCapacity(page)
  }

  /** The constructor of a new run over the files the old one left, when both fit their first mapping. */
  function Restart(page: nat, s: State, producers: nat): State
    requires page > 0 && producers > 0
  {
    Start(Buffer(MasterFile(s).entries, FirstCapacity(page)), Buffer(SlaveFile(s).entries, FirstCapacity(page)), producers)
  }

  /** How often the buffers have been exchanged. */
  function Exchanges(ss: seq<State>, acts: seq<Action>, i: nat): (n: nat)
    requires i <= |acts| && |ss| == |acts| + 1
  {
    if i == 0 then 0
    else
      var a := acts[i - 1];
      Exchanges(ss, acts, i - 1)
      + if a.Move? && a.p < |ss[i - 1].procs| && ss[i - 1].procs[a.p].SwapExchange? then 1 else 0
  }

  lemma {:induction false} ExchangedIsParity(cfg: Config, ss: seq<State>, acts: seq<Action>, i: nat)
    requires IsRun(cfg, ss, acts) && !ss[0].core.exchanged && i <= |acts|
    ensures ss[i].core.exchanged <==> Exchanges(ss, acts, i) % 2 == 1
  {
    hide Apply, Enabled;
    if i > 0 {
      ExchangedIsParity(cfg, ss, acts, i - 1);
      var s, a := ss[i - 1], acts[i - 1];
      StepExchanges(cfg, s, a);
    }
  }

  lemma StepExchanges(cfg: Config, s: State, a: Action)
    requires cfg.Sound() && Enabled(cfg, s, a)
    ensures Apply(cfg, s, a).core.exchanged
         == (s.core.exchanged != (a.Move? && a.p < |s.procs| && s.procs[a.p].SwapExchange?))
  {
    hide EntriesBytes, AppendEntry, Payload, IsFull, HeaderFor;
  }

  // ---------- what the new run writes ----------

  lemma {:induction false} StepsKeepRecovered(cfg: Config, ss: seq<State>, acts: seq<Action>, i: nat)
    requires IsRun(cfg, ss, acts) && i <= |acts|
    ensures ss[i].recovered == ss[0].recovered && ss[0].core.pushed <= ss[i].core.pushed
  {
    if i > 0 {
      StepsKeepRecovered(cfg, ss, acts, i - 1);
      StepExtendsPushed(cfg, ss[i - 1], acts[i - 1]);
    }
  }

  /**
   * When the constructor has returned and the strand is idle, everything the mapped files held is in the log files,
   * each entry exactly once: the slave file's first, then the master file's, ahead of anything logged since.
   */
  lemma RecoveredIsWritten(cfg: Config, master: Buffer, slave: Buffer, n: nat, ss: seq<State>, acts: seq<Action>, i: nat)
    requires n > 0 && BufferSize(master) < U32 && BufferSize(slave) < U32
    requires IsRaceFreeRun(cfg, ss, acts) && ss[0] == Start(master, slave, n) && i <= |acts|
    requires |ss[i].procs| > 0 && !Booting(ss[i].procs[0])
    requires ss[i].worker.Resting? && ss[i].core.queue == [] && !SomeoneWillPost(ss[i].procs)
    ensures slave.entries + master.entries <= Written(ss[i].core)
    ensures ss[i].core.pushed == slave.entries + master.entries ==>
              && Written(ss[i].core) == slave.entries + master.entries
              && ss[i].core.master.entries == [] && ss[i].core.slave.entries == []
  {
    NoStrandedBuffer(cfg, ss, acts, i);
    StartedRunKeepsInv(cfg, ss, acts, i);
    StepsKeepRecovered(cfg, ss, acts, i);
    PrefixOfPrefix(slave.entries + master.entries, Written(ss[i].core), ss[i].core.pushed, ss[i].core.master.entries);
  }

  /** The state with the constructing producer alone. */
  function Alone(s: State): State
    requires |s.procs| > 0
  {
    s.(procs := s.procs[..1])
  }

  /** While the constructor runs everybody else is idle, and it sees the machine as if it were alone. */
  predicate BootAlone(s: State) {
    && |s.procs| > 0
    && (Booting(s.procs[0]) ==> (forall p | 0 < p < |s.procs| :: s.procs[p].Idle?) && SoloInv(Alone(s)))
  }

  /** While the constructor runs, only it and the strand can step, as they would without the others. */
  lemma BootingStep(cfg: Config, s: State, a: Action)
    requires cfg.Sound() && Enabled(cfg, s, a) && BootAlone(s) && Booting(s.procs[0])
    ensures Enabled(cfg, Alone(s), a) && |Apply(cfg, s, a).procs| == |s.procs|
    ensures Alone(Apply(cfg, s, a)) == Apply(cfg, Alone(s), a)
    ensures forall p | 0 < p < |s.procs| :: Apply(cfg, s, a).procs[p].Idle?
  {
    hide OpenChunk, FillChunk, EntriesBytes;
    var s' := Apply(cfg, s, a);
    if a.Work? && s.worker.Resting? && s.core.queue[0].Signal? {
      assert Alone(s).core.queue[0].waiter < |Alone(s).procs|;
    }
    assert Alone(s').procs == Apply(cfg, Alone(s), a).procs;
  }

  /** Nobody starts constructing again. */
  lemma BootingBefore(cfg: Config, s: State, a: Action)
    requires cfg.Sound() && Enabled(cfg, s, a) && |s.procs| > 0
    ensures |Apply(cfg, s, a).procs| == |s.procs|
    ensures Booting(Apply(cfg, s, a).procs[0]) ==> Booting(s.procs[0])
  {
  }

  lemma {:induction false} RunBootsAlone(cfg: Config, ss: seq<State>, acts: seq<Action>, i: nat)
    requires IsRun(cfg, ss, acts) && Starts(ss[0]) && i <= |acts|
    ensures BootAlone(ss[i])
  {
    if i > 0 {
      RunBootsAlone(cfg, ss, acts, i - 1);
      hide Apply, SoloInv, Booting;
      BootingBefore(cfg, ss[i - 1], acts[i - 1]);
      if Booting(ss[i - 1].procs[0]) {
        BootingStep(cfg, ss[i - 1], acts[i - 1]);
        SoloStepKeeps(cfg, Alone(ss[i - 1]), acts[i - 1]);
      }
    }
  }

  /** With any number of producers, no interleaving with the constructor races: its own swap needs no assumption. */
  lemma BootNeverRaces(cfg: Config, ss: seq<State>, acts: seq<Action>, i: nat)
    requires IsRun(cfg, ss, acts) && Starts(ss[0]) && i < |acts| && |ss[i].procs| > 0 && Booting(ss[i].procs[0])
    ensures RaceFree(ss[i], acts[i])
  {
    RunBootsAlone(cfg, ss, acts, i);
    SoloStepRacesIff(Alone(ss[i]), acts[i]);
    assert Exchanging(ss[i].procs) ==> Exchanging(Alone(ss[i]).procs);
    assert Storing(ss[i].procs) ==> Storing(Alone(ss[i]).procs);
  }

  /** With one producer nothing races until a message is logged: its flushes do not either. */
  lemma FlushesAloneNeverRace(cfg: Config, ss: seq<State>, acts: seq<Action>)
    requires IsRun(cfg, ss, acts) && Starts(ss[0]) && |ss[0].procs| == 1
    requires forall i | 0 <= i < |acts| :: !acts[i].BeginLog?
    ensures IsRaceFreeRun(cfg, ss, acts)
  {
    forall i | 0 <= i < |acts| ensures !LogSwapRaces(ss[i], acts[i]) {
      NeverLogs(cfg, ss, acts, i);
    }
    SoloRunRaceFreeIff(cfg, ss, acts);
  }

  predicate Logging(pc: Proc) {
    || pc.LogStart? || pc.LogReset? || pc.LogPush? || pc.LogRatio?
    || ((SwapPc(pc) || pc.SwapPost? || pc.SignalFirst? || pc.WaitFirst?) && pc.why.ByLog?)
  }

  lemma {:induction false} NeverLogs(cfg: Config, ss: seq<State>, acts: seq<Action>, i: nat)
    requires IsRun(cfg, ss, acts) && Starts(ss[0]) && |ss[0].procs| == 1 && i <= |acts|
    requires forall k | 0 <= k < |acts| :: !acts[k].BeginLog?
    ensures |ss[i].procs| == 1 && !Logging(ss[i].procs[0])
  {
    if i > 0 {
      NeverLogs(cfg, ss, acts, i - 1);
      StepDoesNotLog(cfg, ss[i - 1], acts[i - 1]);
    }
  }

  lemma StepDoesNotLog(cfg: Config, s: State, a: Action)
    requires cfg.Sound() && Enabled(cfg, s, a) && !a.BeginLog? && |s.procs| == 1 && !Logging(s.procs[0])
    ensures |Apply(cfg, s, a).procs| == 1 && !Logging(Apply(cfg, s, a).procs[0])
  {
  }

  // ---------- across the stop ----------

  /** A stop in the middle of `WriteToCache_` leaves an item's header in the master without its payload. */
  datatype Tear = Whole | Torn(e: Entry)

  /** A producer is about to push the entry, so a stop can tear it. */
  ghost predicate CanTear(cfg: Config, s: State, tear: Tear)
    requires cfg.Sound()
  {
    tear.Torn? ==>
      exists p: nat | p < |s.procs| ::
        && s.procs[p].LogPush? && Enabled(cfg, s, Move(p)) && tear.e.payload != []
        && tear.e == Entry(s.procs[p].msg, Payload(cfg, s.core.session, s.procs[p].msg))
  }

  function MasterBytes(s: State, tear: Tear): Bytes {
    EntriesBytes(s.core.master.entries) + if tear.Torn? then ItemHeaderBytes(|tear.e.payload|) else []
  }

  function SlaveBytes(s: State): Bytes {
    EntriesBytes(s.core.slave.entries)
  }

  ghost predicate Holds(page: nat, image: Bytes, bytes: Bytes) {
    MMap.Sound(page, image) && MMap.Contents(image) == bytes
  }

  /** The bytes of the two mapped files, by name, when the process stops in `s`. */
  ghost predicate LeftBehind(page: nat, s: State, tear: Tear, masterImage: Bytes, slaveImage: Bytes) {
    && Holds(page, masterImage, if s.core.exchanged then SlaveBytes(s) else MasterBytes(s, tear))
    && Holds(page, slaveImage, if s.core.exchanged then MasterBytes(s, tear) else SlaveBytes(s))
  }

  /** The next run's mapping of the file is in order and holds these entries, byte for byte. */
  ghost predicate Finds(page: nat, image: Bytes, es: seq<Entry>)
    requires page > 0
  {
    Holds(page, MMap.Opened(page, image), EntriesBytes(es))
  }

  // ---------- bytes determine items ----------

  lemma HeaderDetermines(n: nat, m: nat, x: Bytes, y: Bytes)
    requires n < U32 && m < U32 && ItemHeaderBytes(n) + x == ItemHeaderBytes(m) + y
    ensures n == m && x == y
  {
    var a, b := ItemHeaderBytes(n) + x, ItemHeaderBytes(m) + y;
    assert a[4..8] == LittleEndian(n, 4) && b[4..8] == LittleEndian(m, 4);
    WordRanges();
    FittingRoundTrip(n, 4);
    FittingRoundTrip(m, 4);
    assert a[8..] == x && b[8..] == y;
  }

  lemma Associative(a: Bytes, b: Bytes, c: Bytes)
    ensures a + b + c == a + (b + c)
  {
  }

  lemma {:induction false} FirstItem(es: seq<Entry>)
    requires es != []
    ensures EntriesBytes(es) == ItemBytes(es[0].payload) + EntriesBytes(es[1..])
  {
    hide ItemBytes;
    if |es| == 1 {
      assert es[..0] == [] && es[1..] == [];
    } else {
      var before, rest := es[..|es| - 1], es[1..];
      FirstItem(before);
      assert before[1..] == rest[..|rest| - 1];
      Associative(ItemBytes(es[0].payload), EntriesBytes(before[1..]), ItemBytes(es[|es| - 1].payload));
    }
  }

  function Payloads(es: seq<Entry>): (ps: seq<Bytes>)
    ensures |ps| == |es|
  {
    seq(|es|, i requires 0 <= i < |es| => es[i].payload)
  }

  lemma FirstItems(a: seq<Entry>, b: seq<Entry>, x: Bytes)
    requires a != [] && b != [] && EntriesBytes(a) + x == EntriesBytes(b) && |EntriesBytes(b)| < U32
    ensures a[0].payload == b[0].payload && EntriesBytes(a[1..]) + x == EntriesBytes(b[1..])
  {
    hide ItemBytes, EntriesBytes;
    FirstItem(a);
    FirstItem(b);
    Associative(ItemBytes(a[0].payload), EntriesBytes(a[1..]), x);
    ItemsDetermine(a[0].payload, b[0].payload, EntriesBytes(a[1..]) + x, EntriesBytes(b[1..]));
  }

  lemma ItemsDetermine(p: Bytes, q: Bytes, x: Bytes, y: Bytes)
    requires |p| < U32 && |q| < U32 && ItemBytes(p) + x == ItemBytes(q) + y
    ensures p == q && x == y
  {
    Associative(ItemHeaderBytes(|p|), p, x);
    Associative(ItemHeaderBytes(|q|), q, y);
    HeaderDetermines(|p|, |q|, p + x, q + y);
    assert p == (p + x)[..|p|] && q == (q + y)[..|p|];
    assert x == (p + x)[|p|..] && y == (q + y)[|p|..];
  }

  lemma FirstPayload(es: seq<Entry>)
    requires es != []
    ensures Payloads(es) == [es[0].payload] + Payloads(es[1..])
  {
  }

  /** Items are parsed in one way only. */
  lemma {:induction false} BytesDetermineItems(a: seq<Entry>, b: seq<Entry>)
    requires EntriesBytes(a) == EntriesBytes(b) && |EntriesBytes(b)| < U32
    ensures Payloads(a) == Payloads(b)
  {
    assert a == [] ==> Payloads(a) == [];
    hide Payloads, ItemBytes;
    NonEmptyHasBytes(a);
    NonEmptyHasBytes(b);
    if a != [] {
      assert EntriesBytes(a) + [] == EntriesBytes(a);
      FirstItems(a, b, []);
      assert EntriesBytes(a[1..]) + [] == EntriesBytes(a[1..]);
      FirstItem(b);
      BytesDetermineItems(a[1..], b[1..]);
      FirstPayload(a);
      FirstPayload(b);
    }
  }

  /** The bytes a torn push leaves are no whole number of items. */
  lemma {:induction false} TornIsNotWhole(a: seq<Entry>, n: nat, b: seq<Entry>)
    requires 0 < n < U32 && |EntriesBytes(b)| < U32
    ensures EntriesBytes(a) + ItemHeaderBytes(n) != EntriesBytes(b)
  {
    NonEmptyHasBytes(b);
    if EntriesBytes(a) + ItemHeaderBytes(n) == EntriesBytes(b) {
      FirstItem(b);
      if a == [] {
        var q := b[0].payload;
        assert EntriesBytes(b) == ItemHeaderBytes(|q|) + (q + EntriesBytes(b[1..]));
        assert ItemHeaderBytes(n) + [] == ItemHeaderBytes(n);
        HeaderDetermines(n, |q|, [], q + EntriesBytes(b[1..]));
      } else {
        FirstItems(a, b, ItemHeaderBytes(n));
        TornIsNotWhole(a[1..], n, b[1..]);
      }
    }
  }

  // ---------- what the next run finds ----------

  /** The next run finds the bytes the file held if and only if they fit the first mapping. */
  lemma FindsIff(page: nat, image: Bytes, bytes: Bytes, es: seq<Entry>)
    requires Holds(page, image, bytes)
    ensures Finds(page, image, es) <==> MMap.HEADER + |bytes| <= FirstCapacity(page) && EntriesBytes(es) == bytes
  {
    MMap.ReopenKeepsIffFits(page, image);
  }

  lemma ContentsFit32(page: nat, image: Bytes, bytes: Bytes)
    requires Holds(page, image, bytes)
    ensures |bytes| < U32
  {
    WordRanges();
    SizeFits32(Slice(image, 4, 4));
  }

  lemma SizeFits32(word: Bytes)
    requires |word| == 4
    ensures FromLittleEndian(word) < U32
  {
    var high, higher, highest := word[1..], word[1..][1..], word[1..][1..][1..];
    assert highest[1..] == [] && FromLittleEndian(highest) < 0x100;
    assert FromLittleEndian(higher) < 0x10000;
    assert FromLittleEndian(high) < 0x1000000;
  }

  /** A file the next run makes entries of was not torn, fitted, and gives back as many as it held. */
  lemma FoundIsWhole(page: nat, image: Bytes, held: seq<Entry>, torn: bool, n: nat, es: seq<Entry>)
    requires 0 < n < U32
    requires Holds(page, image, EntriesBytes(held) + if torn then ItemHeaderBytes(n) else [])
    requires Finds(page, image, es)
    ensures !torn && MMap.HEADER + |EntriesBytes(held)| <= FirstCapacity(page) && Payloads(es) == Payloads(held)
  {
    var bytes := EntriesBytes(held) + if torn then ItemHeaderBytes(n) else [];
    FindsIff(page, image, bytes, es);
    ContentsFit32(page, image, bytes);
    if torn {
      TornIsNotWhole(held, n, es);
    } else {
      assert bytes == EntriesBytes(held);
      BytesDetermineItems(es, held);
    }
  }

  lemma TearLength(cfg: Config, s: State, tear: Tear) returns (n: nat)
    requires cfg.Sound() && CanTear(cfg, s, tear)
    ensures 0 < n < U32 && (tear.Torn? ==> n == |tear.e.payload|)
  {
    n := if tear.Torn? then |tear.e.payload| else 1;
  }

  /** Nothing was torn and both buffers fit the mappings the next run makes. */
  predicate Reopens(page: nat, s: State, tear: Tear)
    requires page > 0
  {
    tear.Whole? && FitsFirst(page, s.core.master) && FitsFirst(page, s.core.slave)
  }

  /** What the next run can find, whichever file backs the master. */
  lemma FoundCounts(cfg: Config, s: State, tear: Tear, masterImage: Bytes, slaveImage: Bytes,
                    f: seq<Entry>, g: seq<Entry>)
    requires cfg.Sound() && CanTear(cfg, s, tear) && LeftBehind(cfg.page, s, tear, masterImage, slaveImage)
    requires Finds(cfg.page, slaveImage, f) && Finds(cfg.page, masterImage, g)
    ensures Reopens(cfg.page, s, tear)
    ensures Payloads(f) == Payloads(SlaveFile(s).entries) && Payloads(g) == Payloads(MasterFile(s).entries)
  {
    var n := TearLength(cfg, s, tear);
    var master, slave := s.core.master.entries, s.core.slave.entries;
    assert SlaveBytes(s) == EntriesBytes(slave) + [];
    if s.core.exchanged {
      FoundIsWhole(cfg.page, slaveImage, master, tear.Torn?, n, f);
      FoundIsWhole(cfg.page, masterImage, slave, false, n, g);
    } else {
      FoundIsWhole(cfg.page, slaveImage, slave, false, n, f);
      FoundIsWhole(cfg.page, masterImage, master, tear.Torn?, n, g);
    }
  }

  /** When it reopens, the new run starts exactly from `Restart`. */
  lemma ReopenedIsRestart(page: nat, s: State, tear: Tear, masterImage: Bytes, slaveImage: Bytes)
    requires page > 0 && LeftBehind(page, s, tear, masterImage, slaveImage) && Reopens(page, s, tear)
    ensures Finds(page, slaveImage, SlaveFile(s).entries) && Finds(page, masterImage, MasterFile(s).entries)
    ensures |MMap.Opened(page, slaveImage)| == |MMap.Opened(page, masterImage)| == FirstCapacity(page)
  {
    assert MasterBytes(s, tear) == EntriesBytes(s.core.master.entries);
    MMap.ReopenKeepsIffFits(page, slaveImage);
    MMap.ReopenKeepsIffFits(page, masterImage);
  }

  /** The entries in the files and those the next run finds are together the entries pushed. */
  ghost predicate Conserves(page: nat, s: State, masterImage: Bytes, slaveImage: Bytes)
    requires page > 0
  {
    exists f, g :: Finds(page, slaveImage, f) && Finds(page, masterImage, g)
                   && multiset(Written(s.core)) + multiset(f) + multiset(g) == multiset(s.core.pushed)
  }

  lemma ConservedCounts(s: State)
    requires Conserved(s)
    ensures |Written(s.core)| + |Unwritten(s)| + |s.core.master.entries| == |s.core.pushed|
  {
  }

  lemma UnwrittenIffNotClearing(s: State)
    requires StrandSound(s)
    ensures |Unwritten(s)| == |s.core.slave.entries| <==> !s.worker.ClearSlave?
  {
  }

  lemma CountsAgree(a: seq<Entry>, f: seq<Entry>, g: seq<Entry>, all: seq<Entry>)
    requires multiset(a) + multiset(f) + multiset(g) == multiset(all)
    ensures |a| + |f| + |g| == |all|
  {
    assert |multiset(a) + multiset(f) + multiset(g)| == |a| + |f| + |g|;
  }

  /**
   * A stop, anywhere, loses and doubles nothing if and only if it is not between the append and the clear, tears no
   * item, and both buffers fit the mappings that the next run makes of their files.
   */
  lemma RestartConservesIff(cfg: Config, s: State, tear: Tear, masterImage: Bytes, slaveImage: Bytes)
    requires cfg.Sound() && Inv(cfg, s) && CanTear(cfg, s, tear)
    requires LeftBehind(cfg.page, s, tear, masterImage, slaveImage)
    ensures Conserves(cfg.page, s, masterImage, slaveImage) <==>
              !s.worker.ClearSlave? && Reopens(cfg.page, s, tear)
  {
    UnwrittenIffNotClearing(s);
    ConservedCounts(s);
    if Conserves(cfg.page, s, masterImage, slaveImage) {
      var f, g :| Finds(cfg.page, slaveImage, f) && Finds(cfg.page, masterImage, g)
                  && multiset(Written(s.core)) + multiset(f) + multiset(g) == multiset(s.core.pushed);
      FoundCounts(cfg, s, tear, masterImage, slaveImage, f, g);
      CountsAgree(Written(s.core), f, g, s.core.pushed);
    }
    if !s.worker.ClearSlave? && Reopens(cfg.page, s, tear) {
      ReopenedIsRestart(cfg.page, s, tear, masterImage, slaveImage);
      RestartIsConserved(s);
    }
  }

  lemma RestartIsConserved(s: State)
    requires Conserved(s) && !s.worker.ClearSlave?
    ensures multiset(Written(s.core)) + multiset(SlaveFile(s).entries) + multiset(MasterFile(s).entries)
         == multiset(s.core.pushed)
  {
  }

  // ---------- order ----------

  ghost predicate KeepsOrder(page: nat, s: State, masterImage: Bytes, slaveImage: Bytes)
    requires page > 0
  {
    exists f, g :: Finds(page, slaveImage, f) && Finds(page, masterImage, g)
                   && Written(s.core) + (f + g) == s.core.pushed
  }

  lemma PayloadsConcat(a: seq<Entry>, b: seq<Entry>)
    ensures Payloads(a + b) == Payloads(a) + Payloads(b)
  {
  }

  /** Entries with the same payloads make the same bytes. */
  lemma {:induction false} PayloadsDetermineBytes(a: seq<Entry>, b: seq<Entry>)
    requires Payloads(a) == Payloads(b)
    ensures EntriesBytes(a) == EntriesBytes(b)
  {
    hide Payloads, ItemBytes;
    if a != [] {
      var n := |a| - 1;
      LastPayload(a);
      LastPayload(b);
      PayloadsDetermineBytes(a[..n], b[..n]);
    }
  }

  lemma LastPayload(es: seq<Entry>)
    requires es != []
    ensures var n := |es| - 1; Payloads(es[..n]) == Payloads(es)[..n] && es[n].payload == Payloads(es)[n]
  {
  }

  lemma SplitAlike(a: seq<Bytes>, b: seq<Bytes>, c: seq<Bytes>, d: seq<Bytes>)
    requires a + b == c + d && |a| == |c|
    ensures a == c && b == d
  {
    assert a == (a + b)[..|a|] && c == (c + d)[..|a|];
    assert b == (a + b)[|a|..] && d == (c + d)[|a|..];
  }

  /** Written, then the slave's, then the master's: what remains of the log once the files' part is taken off. */
  lemma RestOfLog(s: State, f: seq<Entry>, g: seq<Entry>)
    requires Conserved(s) && !s.worker.ClearSlave?
    ensures Written(s.core) + (f + g) == s.core.pushed <==> f + g == s.core.slave.entries + s.core.master.entries
  {
    var w, rest := Written(s.core), s.core.slave.entries + s.core.master.entries;
    assert w + s.core.slave.entries + s.core.master.entries == w + rest;
    if w + (f + g) == s.core.pushed {
      assert f + g == (w + (f + g))[|w|..] && rest == (w + rest)[|w|..];
    }
  }

  /** The new run writes the slave's file first; in which order the two buffers' items then follow the log. */
  predicate InLogOrder(s: State) {
    var slave, master := Payloads(s.core.slave.entries), Payloads(s.core.master.entries);
    s.core.exchanged ==> master + slave == slave + master
  }

  lemma OrderKept(page: nat, s: State, masterImage: Bytes, slaveImage: Bytes)
    requires page > 0 && Conserved(s) && !s.worker.ClearSlave? && Reopens(page, s, Whole) && InLogOrder(s)
    requires LeftBehind(page, s, Whole, masterImage, slaveImage)
    ensures KeepsOrder(page, s, masterImage, slaveImage)
  {
    hide Holds, EntriesBytes, InLogOrder, Payloads, LeftBehind, Reopens, Conserved, Written, MasterFile;
    ReopenedIsRestart(page, s, Whole, masterImage, slaveImage);
    var all, n := s.core.slave.entries + s.core.master.entries, |SlaveFile(s).entries|;
    var f, g := all[..n], all[n..];
    assert f + g == all;
    RestOfLog(s, f, g);
    ReadInOrder(s);
  }

  /** Cut where the slave's file ends, the log's rest has the bytes of the two files. */
  lemma ReadInOrder(s: State)
    requires InLogOrder(s)
    ensures var all, n := s.core.slave.entries + s.core.master.entries, |SlaveFile(s).entries|;
            && EntriesBytes(all[..n]) == EntriesBytes(SlaveFile(s).entries)
            && EntriesBytes(all[n..]) == EntriesBytes(MasterFile(s).entries)
  {
    hide EntriesBytes;
    var slave, master := s.core.slave.entries, s.core.master.entries;
    var all, n := slave + master, |SlaveFile(s).entries|;
    var f, g := all[..n], all[n..];
    if s.core.exchanged {
      assert f + g == all;
      PayloadsConcat(slave, master);
      PayloadsConcat(f, g);
      SplitAlike(Payloads(f), Payloads(g), Payloads(master), Payloads(slave));
      PayloadsDetermineBytes(f, master);
      PayloadsDetermineBytes(g, slave);
    } else {
      assert f == slave && g == master;
    }
  }

  /**
   * The log's order survives a stop, anywhere, if and only if the stop loses and doubles nothing and, when an odd
   * number of exchanges has given the buffers each other's files, their items read the same in either order.
   */
  lemma RestartKeepsOrderIff(cfg: Config, s: State, tear: Tear, masterImage: Bytes, slaveImage: Bytes)
    requires cfg.Sound() && Inv(cfg, s) && CanTear(cfg, s, tear)
    requires LeftBehind(cfg.page, s, tear, masterImage, slaveImage)
    ensures KeepsOrder(cfg.page, s, masterImage, slaveImage) <==>
              !s.worker.ClearSlave? && Reopens(cfg.page, s, tear) && InLogOrder(s)
  {
    if KeepsOrder(cfg.page, s, masterImage, slaveImage) {
      var f, g :| Finds(cfg.page, slaveImage, f) && Finds(cfg.page, masterImage, g)
                  && Written(s.core) + (f + g) == s.core.pushed;
      FoundCounts(cfg, s, tear, masterImage, slaveImage, f, g);
      UnwrittenIffNotClearing(s);
      ConservedCounts(s);
      RestOfLog(s, f, g);
      PayloadsConcat(f, g);
      PayloadsConcat(s.core.slave.entries, s.core.master.entries);
    }
    if !s.worker.ClearSlave? && Reopens(cfg.page, s, tear) && InLogOrder(s) {
      OrderKept(cfg.page, s, masterImage, slaveImage);
    }
  }

  predicate Distinct(ps: seq<Bytes>) {
    forall i, j | 0 <= i < j < |ps| :: ps[i] != ps[j]
  }

  /** When no two stored items are alike, that is so exactly after an even number of exchanges or with one buffer empty. */
  lemma LogOrderIffEven(s: State)
    requires Distinct(Payloads(s.core.slave.entries) + Payloads(s.core.master.entries))
    ensures InLogOrder(s) <==> !s.core.exchanged || s.core.slave.entries == [] || s.core.master.entries == []
  {
    var slave, master := Payloads(s.core.slave.entries), Payloads(s.core.master.entries);
    if slave == [] || master == [] {
      assert slave + master == master + slave;
    } else {
      assert (slave + master)[0] == slave[0] && (slave + master)[|slave|] == master[0];
      assert (master + slave)[0] == master[0];
    }
  }

  /**
   * Across a stop that reopens and is not between the append and the clear, and the new run's recovery, the entries in
   * the old and the new log files together are exactly the entries pushed: none is lost and none is written twice.
   */
  lemma RestartLosesNothing(cfg: Config, s: State, cfg': Config, n: nat, ss: seq<State>, acts: seq<Action>, i: nat)
    requires cfg.Sound() && Inv(cfg, s) && !s.worker.ClearSlave? && Reopens(cfg.page, s, Whole) && n > 0
    requires IsRaceFreeRun(cfg', ss, acts) && ss[0] == Restart(cfg.page, s, n) && i <= |acts|
    requires |ss[i].procs| > 0 && !Booting(ss[i].procs[0]) && ss[i].core.pushed == ss[0].core.pushed
    requires ss[i].worker.Resting? && ss[i].core.queue == [] && !SomeoneWillPost(ss[i].procs)
    ensures multiset(Written(s.core)) + multiset(Written(ss[i].core)) == multiset(s.core.pushed)
    ensures ss[i].core.master.entries == [] && ss[i].core.slave.entries == []
  {
    var first := FirstCapacity(cfg.page);
    RecoveredIsWritten(cfg', Buffer(MasterFile(s).entries, first), Buffer(SlaveFile(s).entries, first), n, ss, acts, i);
    RestartIsConserved(s);
  }
}
