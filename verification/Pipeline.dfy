/**
 * EffectiveSink as a step machine (logger/sinks/effective_sink.cc): any number of producers inside `Log` and
 * `Flush`, the constructor's recovery, and the one-thread strand inside `CacheToFile_`, interleaved step by step.
 */
module Pipeline {
  import opened Bytes
  import opened Layout
  import opened Codec
  import MMap

  // ---------- data ----------

  /** One logged message and the encrypted payload stored for it. */
  datatype Entry = Entry(msg: Bytes, payload: Bytes)

  datatype Buffer = Buffer(entries: seq<Entry>, capacity: nat)

  /** A chunk in a log file. `entries` is history: what the body was made from. */
  datatype Chunk = Chunk(header: ChunkHeader, body: Bytes, entries: seq<Entry>)

  datatype Task = CacheTask | Signal(waiter: nat) | OtherTask

  datatype Config = Config(lib: Library, page: nat, clientKey: Bytes, serverKey: Bytes, iv: Bytes, singleSize: nat)
  {
    predicate Sound() {
      page > 0 && |iv| == IV_FIELD && |lib.publicKey(clientKey)| == PUBLIC_KEY
    }

    function Secret(): Bytes {
      lib.agree(clientKey, lib.publicKey(serverKey))
    }
  }

  /** Bytes of the chunk header's key field that the writer never sets. */
  const SPARE: nat := KEY_FIELD - PUBLIC_KEY

  /** What the threads share. `pushed` and `logged` are history; `exchanged` says which file backs the master. */
  datatype Core = Core(
    master: Buffer,
    slave: Buffer,
    free: bool,
    session: seq<Bytes>,
    files: seq<seq<Chunk>>,
    queue: seq<Task>,
    exchanged: bool,
    pushed: seq<Entry>,
    logged: seq<Bytes>)

  datatype Worker =
    | Resting | CheckFlag | CheckEmpty | ReadSize | WriteHeader(n: nat) | WriteBody(n: nat) | ClearSlave | SetFree

  datatype Why = ByLog | ByFlush(mark: nat) | ByBoot(mark: nat)

  /** Where a producer stands. `mark` is how many entries had been pushed when its flush began. */
  datatype Proc =
    | Idle
    | LogStart(msg: Bytes) | LogReset(msg: Bytes) | LogPush(msg: Bytes) | LogRatio
    | FlushPost(mark: nat)
    | BootPost(mark: nat) | BootMaster(mark: nat)
    | SignalFirst(why: Why) | WaitFirst(why: Why)
    | SwapLoad(why: Why) | SwapStore(why: Why) | SwapExchange(why: Why) | SwapPost(why: Why)
    | SignalLast(mark: nat) | WaitLast(mark: nat) | FlushDone(mark: nat)

  datatype State = State(core: Core, worker: Worker, procs: seq<Proc>, recovered: nat)

  // ---------- bytes ----------

  function EntriesBytes(es: seq<Entry>): (bs: Bytes) {
    if es == [] then [] else EntriesBytes(es[..|es| - 1]) + ItemBytes(es[|es| - 1].payload)
  }

  function BufferSize(b: Buffer): nat {
    |EntriesBytes(b.entries)|
  }

  function FileSize(chunks: seq<Chunk>): (n: nat) {
    if chunks == [] then 0 else FileSize(chunks[..|chunks| - 1]) + ChunkSize(chunks[|chunks| - 1])
  }

  function ChunkSize(c: Chunk): nat {
    CHUNK_HEADER + |c.body|
  }

  /** All chunks, file after file in creation order. */
  function AllChunks(files: seq<seq<Chunk>>): (cs: seq<Chunk>) {
    if files == [] then [] else AllChunks(files[..|files| - 1]) + files[|files| - 1]
  }

  /** All entries in the bodies of chunks, in file order. */
  function EntriesOf(chunks: seq<Chunk>): (es: seq<Entry>) {
    if chunks == [] then [] else EntriesOf(chunks[..|chunks| - 1]) + chunks[|chunks| - 1].entries
  }

  function Written(c: Core): seq<Entry> {
    EntriesOf(AllChunks(c.files))
  }

  // ---------- steps on the shared state ----------

  /** The two pushes of `WriteToCache_`: the item header, then the payload. */
  function AppendEntry(page: nat, b: Buffer, e: Entry): Buffer
    requires page > 0
  {
    var size := BufferSize(b);
    var afterHeader := MMap.Grown(page, b.capacity, size + ITEM_HEADER);
    Buffer(b.entries + [e], MMap.Grown(page, afterHeader, size + ITEM_HEADER + |e.payload|))
  }

  /** The locked section of `Log`. A failed compression or encryption stores nothing. */
  function Push(cfg: Config, c: Core, msg: Bytes): Core
    requires cfg.Sound()
  {
    var (z, session) := CompressStep(cfg.lib, c.session, msg);
    var payload := Payload(cfg, c.session, msg);
    if payload == [] then c.(session := session, logged := c.logged + [msg])
    else
      var e := Entry(msg, payload);
      c.(session := session, logged := c.logged + [msg],
         master := AppendEntry(cfg.page, c.master, e), pushed := c.pushed + [e])
  }

  /** The bytes stored for a message logged after `session`; empty when a codec fails. */
  function Payload(cfg: Config, session: seq<Bytes>, msg: Bytes): Bytes {
    var (z, _) := CompressStep(cfg.lib, session, msg);
    if z == [] then [] else cfg.lib.encrypt(cfg.Secret(), cfg.iv, z)
  }

  /** `GetRatio() > 0.8`, in whole numbers. */
  predicate IsFull(b: Buffer) {
    5 * BufferSize(b) > 4 * (b.capacity - MMap.HEADER)
  }

  function Exchange(c: Core): Core {
    c.(master := c.slave, slave := c.master, exchanged := !c.exchanged)
  }

  function Post(c: Core, task: Task): Core {
    c.(queue := c.queue + [task])
  }

  function HeaderFor(cfg: Config, size: nat, spare: Bytes): ChunkHeader {
    ChunkHeader(size, cfg.iv, cfg.lib.publicKey(cfg.clientKey) + spare)
  }

  /** Writes a chunk header: into the current file, or into a new one once that has outgrown its limit. */
  function OpenChunk(cfg: Config, c: Core, size: nat, spare: Bytes): Core {
    var chunk := Chunk(HeaderFor(cfg, size, spare), [], []);
    if c.files == [] || FileSize(c.files[|c.files| - 1]) > cfg.singleSize then c.(files := c.files + [[chunk]])
    else
      var last := |c.files| - 1;
      c.(files := c.files[last := c.files[last] + [chunk]])
  }

  predicate HasChunk(files: seq<seq<Chunk>>) {
    files != [] && files[|files| - 1] != []
  }

  /** Writes `size` bytes of the slave as the body of the chunk opened last. */
  function FillChunk(c: Core, size: nat): Core {
    if !HasChunk(c.files) then c
    else
      var f := |c.files| - 1;
      var k := |c.files[f]| - 1;
      var bytes := EntriesBytes(c.slave.entries);
      var body := if size <= |bytes| then bytes[..size] else bytes;
      c.(files := c.files[f := c.files[f][k := c.files[f][k].(body := body, entries := c.slave.entries)]])
  }

  function ClearedSlave(c: Core): Core {
    c.(slave := c.slave.(entries := []))
  }

  // ---------- the machine ----------

  datatype Action = BeginLog(p: nat, msg: Bytes) | BeginFlush(p: nat) | Move(p: nat) | Work(spare: Bytes) | PostOther

  predicate Booting(pc: Proc) {
    || pc.BootPost? || pc.BootMaster?
    || ((pc.SignalFirst? || pc.WaitFirst? || pc.SwapLoad? || pc.SwapStore? || pc.SwapExchange? || pc.SwapPost?)
        && pc.why.ByBoot?)
  }

  predicate Waiting(pc: Proc) {
    pc.WaitFirst? || pc.WaitLast?
  }

  /** The item header and the mapped buffer's header hold 32-bit sizes. */
  predicate Fits(cfg: Config, c: Core, msg: Bytes) {
    BufferSize(c.master) + ITEM_HEADER + |Payload(cfg, c.session, msg)| < U32
  }

  predicate Enabled(cfg: Config, s: State, a: Action) {
    match a
    case BeginLog(p, _) => p < |s.procs| && s.procs[p].Idle? && !Booting(s.procs[0])
    case BeginFlush(p) => p < |s.procs| && s.procs[p].Idle? && !Booting(s.procs[0])
    case Move(p) =>
      && p < |s.procs| && !s.procs[p].Idle? && !Waiting(s.procs[p])
      && (s.procs[p].LogPush? ==> Fits(cfg, s.core, s.procs[p].msg))
    case Work(spare) => |spare| == SPARE && (s.worker.Resting? ==> s.core.queue != [])
    case PostOther => true
  }

  /** The next step of producer `p`. */
  function MoveCore(cfg: Config, c: Core, p: nat, pc: Proc): (Core, Proc)
    requires cfg.Sound()
  {
    match pc
    case LogStart(m) => (c, if c.master.entries == [] then LogReset(m) else LogPush(m))
    case LogReset(m) => (c.(session := []), LogPush(m))
    case LogPush(m) => (Push(cfg, c, m), if Payload(cfg, c.session, m) == [] then Idle else LogRatio)
    case LogRatio => (c, if IsFull(c.master) then SwapLoad(ByLog) else Idle)
    case FlushPost(k) => (Post(c, CacheTask), SignalFirst(ByFlush(k)))
    case BootPost(k) => (Post(c, CacheTask), BootMaster(k))
    case BootMaster(k) => (c, if c.master.entries == [] then Idle else SignalFirst(ByBoot(k)))
    case SignalFirst(why) => (Post(c, Signal(p)), WaitFirst(why))
    case SwapLoad(why) => (c, if c.free then SwapStore(why) else SwapPost(why))
    case SwapStore(why) => (c.(free := false), SwapExchange(why))
    case SwapExchange(why) => (Exchange(c), SwapPost(why))
    case SwapPost(why) => (Post(c, CacheTask), if why.ByFlush? then SignalLast(why.mark) else Idle)
    case SignalLast(k) => (Post(c, Signal(p)), WaitLast(k))
    case FlushDone(k) => (c, Idle)
    case Idle => (c, pc)
    case WaitFirst(_) => (c, pc)
    case WaitLast(_) => (c, pc)
  }

  /** What a waiter does once its signal has run on the strand. */
  function Signalled(pc: Proc): Proc {
    match pc
    case WaitFirst(why) => SwapLoad(why)
    case WaitLast(k) => FlushDone(k)
    case _ => pc
  }

  /** The next step of the strand. */
  function WorkStep(cfg: Config, s: State, spare: Bytes): State
    requires s.worker.Resting? ==> s.core.queue != []
  {
    var c := s.core;
    match s.worker
    case Resting =>
      var rest := c.(queue := c.queue[1..]);
      (match c.queue[0]
       case CacheTask => s.(core := rest, worker := CheckFlag)
       case Signal(p) =>
         s.(core := rest, procs := if p < |s.procs| then s.procs[p := Signalled(s.procs[p])] else s.procs)
       case OtherTask => s.(core := rest))
    case CheckFlag => s.(worker := if c.free then Resting else CheckEmpty)
    case CheckEmpty => s.(worker := if c.slave.entries == [] then SetFree else ReadSize)
    case ReadSize => s.(worker := WriteHeader(BufferSize(c.slave)))
    case WriteHeader(n) => s.(core := OpenChunk(cfg, c, n, spare), worker := WriteBody(n))
    case WriteBody(n) => s.(core := FillChunk(c, n), worker := ClearSlave)
    case ClearSlave => s.(core := ClearedSlave(c), worker := SetFree)
    case SetFree => s.(core := c.(free := true), worker := Resting)
  }

  function Apply(cfg: Config, s: State, a: Action): State
    requires cfg.Sound() && Enabled(cfg, s, a)
  {
    match a
    case BeginLog(p, msg) => s.(procs := s.procs[p := LogStart(msg)])
    case BeginFlush(p) => s.(procs := s.procs[p := FlushPost(|s.core.pushed|)])
    case Move(p) =>
      var (core, pc) := MoveCore(cfg, s.core, p, s.procs[p]);
      s.(core := core, procs := s.procs[p := pc])
    case Work(spare) => WorkStep(cfg, s, spare)
    case PostOther => s.(core := Post(s.core, OtherTask))
  }

  /**
   * The constructor's state once both mapped files are open and the slave's emptiness has set the flag: `master` and
   * `slave` are what the files already held.
   */
  function Start(master: Buffer, slave: Buffer, producers: nat): State
    requires producers > 0
  {
    var mark := |slave.entries| + |master.entries|;
    var boot := if slave.entries == [] then BootMaster(mark) else BootPost(mark);
    State(
      Core(master, slave, slave.entries == [], [], [], [], false, slave.entries + master.entries, []),
      Resting,
      [boot] + seq(producers - 1, _ => Idle),
      mark)
  }

  ghost predicate IsRun(cfg: Config, ss: seq<State>, acts: seq<Action>) {
    && cfg.Sound()
    && |ss| == |acts| + 1
    && forall i | 0 <= i < |acts| :: Enabled(cfg, ss[i], acts[i]) && ss[i + 1] == Apply(cfg, ss[i], acts[i])
  }

  /** Is some producer between storing the flag and exchanging the buffers? */
  predicate Exchanging(procs: seq<Proc>) {
    exists p | 0 <= p < |procs| :: procs[p].SwapExchange?
  }

  predicate Storing(procs: seq<Proc>) {
    exists p | 0 <= p < |procs| :: procs[p].SwapStore?
  }

  /**
   * `SwapCache_` reads the flag, stores it and exchanges the buffers in three separate steps. A step races with it
   * when the strand looks into the slave after the store and before the exchange, or when a second producer reads
   * the flag between the first one's read and its store. An atomic `SwapCache_` never races.
   */
  predicate RaceFree(s: State, a: Action) {
    && (a.Work? && s.worker.CheckEmpty? ==> !Exchanging(s.procs))
    && (a.Move? && a.p < |s.procs| && s.procs[a.p].SwapLoad? && s.core.free ==> !Storing(s.procs))
  }

  ghost predicate IsRaceFreeRun(cfg: Config, ss: seq<State>, acts: seq<Action>) {
    IsRun(cfg, ss, acts) && forall i | 0 <= i < |acts| :: RaceFree(ss[i], acts[i])
  }

  // ---------- facts about the list functions ----------

  lemma EntriesBytesAppend(es: seq<Entry>, e: Entry)
    ensures EntriesBytes(es + [e]) == EntriesBytes(es) + ItemBytes(e.payload)
  {
    assert (es + [e])[..|es|] == es;
  }

  lemma NonEmptyHasBytes(es: seq<Entry>)
    ensures EntriesBytes(es) == [] <==> es == []
  {
  }

  lemma AllChunksAfterOpen(cfg: Config, c: Core, size: nat, spare: Bytes)
    ensures AllChunks(OpenChunk(cfg, c, size, spare).files)
         == AllChunks(c.files) + [Chunk(HeaderFor(cfg, size, spare), [], [])]
    ensures HasChunk(OpenChunk(cfg, c, size, spare).files)
  {
    var after := OpenChunk(cfg, c, size, spare).files;
    if |after| == |c.files| + 1 {
      assert after[..|after| - 1] == c.files;
    } else {
      assert after[..|after| - 1] == c.files[..|after| - 1];
    }
  }

  lemma AllChunksAfterFill(c: Core, size: nat)
    requires HasChunk(c.files)
    ensures AllChunks(c.files) != []
    ensures var before := AllChunks(c.files);
            var last := before[|before| - 1];
            AllChunks(FillChunk(c, size).files)
            == before[|before| - 1 := last.(body := if size <= BufferSize(c.slave) then EntriesBytes(c.slave.entries)[..size]
                                                    else EntriesBytes(c.slave.entries),
                                            entries := c.slave.entries)]
    ensures HasChunk(FillChunk(c, size).files)
  {
    var after := FillChunk(c, size).files;
    assert after[..|after| - 1] == c.files[..|after| - 1];
  }

  lemma EntriesOfAppend(chunks: seq<Chunk>, c: Chunk)
    ensures EntriesOf(chunks + [c]) == EntriesOf(chunks) + c.entries
  {
    assert (chunks + [c])[..|chunks|] == chunks;
  }

  lemma EntriesOfReplaceLast(chunks: seq<Chunk>, c: Chunk)
    requires chunks != []
    ensures EntriesOf(chunks[|chunks| - 1 := c]) == EntriesOf(chunks[..|chunks| - 1]) + c.entries
  {
    assert chunks[|chunks| - 1 := c] == chunks[..|chunks| - 1] + [c];
    EntriesOfAppend(chunks[..|chunks| - 1], c);
  }
}
