/**
 * The sink as an object (logger/sinks/effective_sink.cc): each method run without interruption, on mapped buffers,
 * file bytes and a task queue, does what the step machine's steps do one after the other.
 */
module EffectiveSinks {
  import opened Bytes
  import opened Layout
  import opened Codec
  import opened MMap
  import opened Pipeline
  import opened Handoff
  import opened EndToEnd

  // ---------- uninterrupted calls as functions of the shared state ----------

  function SwapCore(c: Core): Core {
    if c.free then Pipeline.Exchange(c.(free := false)) else c
  }

  /** A whole call of `Log`. */
  function LogCore(cfg: Config, c: Core, msg: Bytes): Core
    requires cfg.Sound()
  {
    var ready := if c.master.entries == [] then c.(session := []) else c;
    var pushed := Pipeline.Push(cfg, ready, msg);
    if Payload(cfg, ready.session, msg) == [] || !IsFull(pushed.master) then pushed
    else Pipeline.Post(SwapCore(pushed), CacheTask)
  }

  /** A whole run of `CacheToFile_`. */
  function CacheCore(cfg: Config, c: Core, spare: Bytes): Core {
    if c.free then c
    else if c.slave.entries == [] then c.(free := true)
    else
      var size := BufferSize(c.slave);
      ClearedSlave(FillChunk(OpenChunk(cfg, c, size, spare), size)).(free := true)
  }

  /** The strand's next task, run to its end. */
  function AfterTask(cfg: Config, c: Core, spare: Bytes): Core
    requires c.queue != []
  {
    var rest := c.(queue := c.queue[1..]);
    if c.queue[0].CacheTask? then CacheCore(cfg, rest, spare) else rest
  }

  lemma CacheKeepsQueue(cfg: Config, c: Core, spare: Bytes)
    ensures CacheCore(cfg, c, spare).queue == c.queue
  {
    hide HeaderFor, EntriesBytes, FileSize;
  }

  /** All queued tasks, run one after the other. */
  function DrainCore(cfg: Config, c: Core, spare: Bytes): Core
    decreases |c.queue|
  {
    if c.queue == [] then c
    else
      CacheKeepsQueue(cfg, c.(queue := c.queue[1..]), spare);
      DrainCore(cfg, AfterTask(cfg, c, spare), spare)
  }

  /** A whole wait for the strand: the signal it waits for runs last. */
  function WaitCore(cfg: Config, c: Core, spare: Bytes): Core {
    DrainCore(cfg, Pipeline.Post(c, Signal(0)), spare)
  }

  /** A whole call of `Flush`. */
  function FlushCore(cfg: Config, c: Core, spare: Bytes): Core {
    var first := WaitCore(cfg, Pipeline.Post(c, CacheTask), spare);
    WaitCore(cfg, Pipeline.Post(SwapCore(first), CacheTask), spare)
  }

  /** What the constructor does with the contents it found, the flag still free. */
  function RecoverCore(cfg: Config, c: Core, spare: Bytes): Core {
    var taken := if c.slave.entries == [] then c else Pipeline.Post(c.(free := false), CacheTask);
    if c.master.entries == [] then taken
    else Pipeline.Post(SwapCore(WaitCore(cfg, taken, spare)), CacheTask)
  }

  /** The model's files are what is on disk, and every chunk header has its fixed size. */
  predicate OnDisk(files: seq<Bytes>, model: seq<seq<Chunk>>) {
    && |files| == |model|
    && (forall f | 0 <= f < |files| :: files[f] == FileBytes(model[f]) && |files[f]| == FileSize(model[f]))
  }

  lemma FileBytesAppend(chunks: seq<Chunk>, c: Chunk)
    ensures FileBytes(chunks + [c]) == FileBytes(chunks) + ChunkBytes(c)
    ensures FileSize(chunks + [c]) == FileSize(chunks) + ChunkSize(c)
  {
    assert (chunks + [c])[..|chunks|] == chunks;
    assert Parts(chunks + [c]) == Parts(chunks) + [ChunkBytes(c)];
    var parts := Parts(chunks) + [ChunkBytes(c)];
    assert parts[..|parts| - 1] == Parts(chunks);
  }

  /** The file a chunk of the slave goes to, and the bytes of the chunk. */
  lemma WritesOneChunk(cfg: Config, c: Core, spare: Bytes, files: seq<Bytes>)
    requires cfg.Sound() && |spare| == SPARE && OnDisk(files, c.files)
    ensures var size := BufferSize(c.slave);
            var bytes := ChunkHeaderBytes(HeaderFor(cfg, size, spare)) + EntriesBytes(c.slave.entries);
            var after := FillChunk(OpenChunk(cfg, c, size, spare), size).files;
            if files == [] || |files[|files| - 1]| > cfg.singleSize then OnDisk(files + [bytes], after)
            else OnDisk(files[|files| - 1 := files[|files| - 1] + bytes], after)
  {
    var size, last := BufferSize(c.slave), |files| - 1;
    var chunk := Chunk(HeaderFor(cfg, size, spare), EntriesBytes(c.slave.entries), c.slave.entries);
    FilledChunk(cfg, c, spare);
    if files == [] || |files[last]| > cfg.singleSize {
      NewFileOnDisk(files, c.files, chunk);
    } else {
      AppendedOnDisk(files, c.files, chunk);
    }
  }

  lemma NewFileOnDisk(files: seq<Bytes>, model: seq<seq<Chunk>>, c: Chunk)
    requires OnDisk(files, model) && |ChunkBytes(c)| == ChunkSize(c)
    ensures OnDisk(files + [ChunkBytes(c)], model + [[c]])
  {
    FileBytesAppend([], c);
    assert [] + [c] == [c];
  }

  lemma AppendedOnDisk(files: seq<Bytes>, model: seq<seq<Chunk>>, c: Chunk)
    requires OnDisk(files, model) && files != [] && |ChunkBytes(c)| == ChunkSize(c)
    ensures var last := |files| - 1;
            OnDisk(files[last := files[last] + ChunkBytes(c)], model[last := model[last] + [c]])
  {
    hide ChunkBytes, FileBytes;
    FileBytesAppend(model[|files| - 1], c);
  }

  /** Opening and then filling a chunk appends it whole. */
  lemma FilledChunk(cfg: Config, c: Core, spare: Bytes)
    ensures var size := BufferSize(c.slave);
            var chunk := Chunk(HeaderFor(cfg, size, spare), EntriesBytes(c.slave.entries), c.slave.entries);
            var after := FillChunk(OpenChunk(cfg, c, size, spare), size).files;
            var last := |c.files| - 1;
            if c.files == [] || FileSize(c.files[last]) > cfg.singleSize then after == c.files + [[chunk]]
            else after == c.files[last := c.files[last] + [chunk]]
  {
    hide HeaderFor, EntriesBytes, FileSize;
    var size, last := BufferSize(c.slave), |c.files| - 1;
    var bytes := EntriesBytes(c.slave.entries);
    assert bytes[..size] == bytes;
    var head := Chunk(HeaderFor(cfg, size, spare), [], []);
    var chunk := Chunk(HeaderFor(cfg, size, spare), bytes, c.slave.entries);
    assert [head][0 := chunk] == [chunk];
    if c.files != [] {
      assert (c.files[last] + [head])[|c.files[last]| := chunk] == c.files[last] + [chunk];
      assert c.files[last := c.files[last] + [head]][last := c.files[last] + [chunk]] == c.files[last := c.files[last] + [chunk]];
    }
    assert (c.files + [[head]])[|c.files| := [chunk]] == c.files + [[chunk]];
  }

  lemma ChunkLeavesTheRest(cfg: Config, c: Core, size: nat, spare: Bytes)
    ensures FillChunk(OpenChunk(cfg, c, size, spare), size)
         == c.(files := FillChunk(OpenChunk(cfg, c, size, spare), size).files)
  {
  }

  // ---------- what an uninterrupted producer keeps ----------

  /** Between calls a taken flag means a cache task is queued, and nothing is lost. */
  predicate Settled(c: Core) {
    && (c.free ==> c.slave.entries == [])
    && (!c.free ==> CacheTask in c.queue)
    && Written(c) + c.slave.entries + c.master.entries == c.pushed
  }

  lemma PostKeepsSettled(c: Core, task: Task)
    requires Settled(c)
    ensures Settled(Pipeline.Post(c, task))
  {
    assert CacheTask in c.queue ==> CacheTask in c.queue + [task];
  }

  lemma PushKeepsSettled(cfg: Config, c: Core, msg: Bytes)
    requires cfg.Sound() && Settled(c)
    ensures Settled(Pipeline.Push(cfg, c, msg))
  {
    var e := Entry(msg, Payload(cfg, c.session, msg));
    var before := Written(c) + c.slave.entries;
    assert before + (c.master.entries + [e]) == before + c.master.entries + [e];
  }

  lemma SwapAndPostKeepsSettled(c: Core)
    requires Settled(c)
    ensures Settled(Pipeline.Post(SwapCore(c), CacheTask))
    ensures c.free ==> SwapCore(c).master.entries == []
  {
    var after := Pipeline.Post(SwapCore(c), CacheTask);
    assert after.queue[|c.queue|] == CacheTask;
    var written, master := Written(c), c.master.entries;
    assert written + master + [] == written + [] + master;
  }

  lemma LogKeepsSettled(cfg: Config, c: Core, msg: Bytes)
    requires cfg.Sound() && Settled(c)
    ensures Settled(LogCore(cfg, c, msg))
  {
    var ready := if c.master.entries == [] then c.(session := []) else c;
    PushKeepsSettled(cfg, ready, msg);
    SwapAndPostKeepsSettled(Pipeline.Push(cfg, ready, msg));
  }

  /** A cache task run to its end leaves the flag free, the slave empty, and its entries in the files. */
  lemma CacheTaskWrites(cfg: Config, c: Core, spare: Bytes)
    requires c.free ==> c.slave.entries == []
    ensures var after := CacheCore(cfg, c, spare);
            && after.free && after.slave.entries == [] && Written(after) == Written(c) + c.slave.entries
            && after.master == c.master && after.pushed == c.pushed && after.queue == c.queue
  {
    if !c.free && c.slave.entries != [] {
      var size := BufferSize(c.slave);
      var afterHeader := OpenChunk(cfg, c, size, spare);
      AllChunksAfterOpen(cfg, c, size, spare);
      EntriesOfAppend(AllChunks(c.files), Chunk(HeaderFor(cfg, size, spare), [], []));
      FillConserves(afterHeader, size);
      assert Written(c) + [] == Written(c);
    } else {
      assert Written(c) + [] == Written(c);
    }
  }

  lemma RunTaskKeepsSettled(cfg: Config, c: Core, spare: Bytes)
    requires Settled(c) && c.queue != []
    ensures Settled(AfterTask(cfg, c, spare))
  {
    if c.queue[0].CacheTask? {
      CacheTaskWrites(cfg, c.(queue := c.queue[1..]), spare);
      EmptySlaveSettles(c, AfterTask(cfg, c, spare));
    } else {
      assert CacheTask in c.queue ==> CacheTask in c.queue[1..];
    }
  }

  lemma EmptySlaveSettles(c: Core, after: Core)
    requires Settled(c) && after.free && after.slave.entries == []
    requires Written(after) == Written(c) + c.slave.entries && after.master == c.master && after.pushed == c.pushed
    ensures Settled(after)
  {
    var written, slave, master := Written(c), c.slave.entries, c.master.entries;
    assert written + slave + [] + master == written + slave + master;
  }

  lemma AfterTaskKeepsOthers(cfg: Config, c: Core, spare: Bytes)
    requires c.queue != [] && (c.free ==> c.slave.entries == [])
    ensures AfterTask(cfg, c, spare).master == c.master && AfterTask(cfg, c, spare).pushed == c.pushed
    ensures AfterTask(cfg, c, spare).queue == c.queue[1..]
  {
    CacheTaskWrites(cfg, c.(queue := c.queue[1..]), spare);
  }

  lemma EmptyBuffersMeanWritten(c: Core)
    requires Settled(c) && c.slave.entries == [] && c.master.entries == []
    ensures Written(c) == c.pushed
  {
    assert Written(c) + [] + [] == Written(c);
  }

  lemma DrainedIsFree(c: Core)
    requires Settled(c) && c.queue == []
    ensures c.free && c.slave.entries == [] && Written(c) + c.master.entries == c.pushed
  {
    assert Written(c) + [] == Written(c);
  }

  /** With no log file yet, all there is was found. */
  lemma FoundIsConserved(c: Core)
    requires c.files == [] && c.pushed == c.slave.entries + c.master.entries
    ensures Written(c) + c.slave.entries + c.master.entries == c.pushed
  {
    assert [] + c.slave.entries == c.slave.entries;
  }

  // ---------- the object ----------

  /** The two pushes that make an item. */
  method PushItem(buffer: MMapAux, payload: Bytes)
    requires buffer.Valid() && |buffer.Data()| + ITEM_HEADER + |payload| < U32
    modifies buffer, buffer.handle
    ensures buffer.Valid() && (buffer.handle == old(buffer.handle) || fresh(buffer.handle))
    ensures buffer.Data() == old(buffer.Data()) + ItemBytes(payload)
    ensures var size := |old(buffer.Data())|;
            buffer.capacity == Grown(buffer.page, Grown(buffer.page, old(buffer.capacity), size + ITEM_HEADER),
                                     size + ITEM_HEADER + |payload|)
  {
    ghost var before := buffer.Data();
    buffer.Push(ItemHeaderBytes(|payload|));
    buffer.Push(payload);
    assert before + ItemHeaderBytes(|payload|) + payload == before + ItemBytes(payload);
  }

  class EffectiveSink {
    const cfg: Config
    const compress: ZstdCompress
    var master: MMapAux
    var slave: MMapAux
    var free: bool
    var files: seq<Bytes>   // contents of the log files, in creation order
    var queue: seq<Task>    // tasks posted to the strand
    ghost var model: Core

    ghost predicate Valid()
      reads this, compress, master, slave, master.handle, slave.handle
    {
      && cfg.Sound() && compress.lib == cfg.lib
      && master != slave && master.Valid() && slave.Valid() && master.handle != slave.handle
      && master.page == cfg.page && slave.page == cfg.page
      && master.Data() == EntriesBytes(model.master.entries) && master.capacity == model.master.capacity
      && slave.Data() == EntriesBytes(model.slave.entries) && slave.capacity == model.slave.capacity
      && free == model.free && queue == model.queue && compress.session == model.session
      && OnDisk(files, model.files)
    }

    /**
     * Opens the two mapped files and recovers what they hold. `masterFile` and `slaveFile` are their bytes, which must
     * open soundly; the ghost parameters name the entries found.
     */
    constructor (cfg: Config, masterFile: Bytes, slaveFile: Bytes, spare: Bytes,
                 ghost masterEntries: seq<Entry>, ghost slaveEntries: seq<Entry>)
      requires cfg.Sound() && |spare| == SPARE
      requires Sound(cfg.page, Opened(cfg.page, masterFile)) && Sound(cfg.page, Opened(cfg.page, slaveFile))
      requires Contents(Opened(cfg.page, masterFile)) == EntriesBytes(masterEntries)
      requires Contents(Opened(cfg.page, slaveFile)) == EntriesBytes(slaveEntries)
      ensures Valid() && Settled(model) && this.cfg == cfg
      ensures model.master.entries == [] && model.pushed == slaveEntries + masterEntries
      ensures var first := PageRound(cfg.page, DEFAULT_CAPACITY);
              model == RecoverCore(cfg, Core(Buffer(masterEntries, first), Buffer(slaveEntries, first), true, [], [], [],
                                             false, slaveEntries + masterEntries, []), spare)
    {
      this.cfg := cfg;
      compress := new ZstdCompress(cfg.lib);
      var m := new MMapAux(cfg.page, masterFile);
      var s := new MMapAux(cfg.page, slaveFile);
      master, slave, free, files, queue := m, s, true, [], [];
      model := Core(Buffer(masterEntries, m.capacity), Buffer(slaveEntries, s.capacity), true, [], [], [], false,
                    slaveEntries + masterEntries, []);
      new;
      FoundIsConserved(model);
      hide Written, RecoverCore, Settled, EntriesBytes;
      Recover(spare);
    }

    /** What the constructor does with the contents it found. */
    method Recover(spare: Bytes)
      requires Valid() && |spare| == SPARE && model.free && queue == []
      requires Written(model) + model.slave.entries + model.master.entries == model.pushed
      modifies this, master.handle, slave.handle
      ensures Valid() && Settled(model) && model == RecoverCore(cfg, old(model), spare)
      ensures model.master.entries == [] && model.pushed == old(model).pushed
    {
      hide Written, WaitCore, Settled, OnDisk;
      TakeFlagIfSlaveFull();
      NonEmptyHasBytes(model.master.entries);
      var length := master.Length();
      if length != 0 {
        WaitTasksCompleted(spare);
        SwapAndPost();
      }
    }

    method TakeFlagIfSlaveFull()
      requires Valid() && model.free
      requires Written(model) + model.slave.entries + model.master.entries == model.pushed
      modifies this`free, this`queue, this`model
      ensures Valid() && Settled(model)
      ensures model == if old(model).slave.entries == [] then old(model)
                       else Pipeline.Post(old(model).(free := false), CacheTask)
    {
      NonEmptyHasBytes(model.slave.entries);
      var length := slave.Length();
      if length != 0 {
        free := false;
        model := model.(free := false);
        AsyncCacheToFile();
        assert model.queue[|model.queue| - 1] == CacheTask;
      }
    }

    method SwapAndPost()
      requires Valid() && Settled(model)
      modifies this`master, this`slave, this`free, this`queue, this`model
      ensures Valid() && Settled(model) && model.pushed == old(model).pushed
      ensures model == Pipeline.Post(SwapCore(old(model)), CacheTask)
      ensures old(model).free ==> model.master.entries == []
      ensures {master, slave} == {old(master), old(slave)}
    {
      SwapAndPostKeepsSettled(model);
      SwapCache();
      AsyncCacheToFile();
    }

    /** `WriteToCache_`: the item header and the payload, pushed one after the other. */
    method WriteToCache(payload: Bytes, ghost msg: Bytes)
      requires Valid() && |master.Data()| + ITEM_HEADER + |payload| < U32
      modifies this`model, master, master.handle
      ensures Valid() && (master.handle == old(master.handle) || fresh(master.handle))
      ensures model == old(model).(master := AppendEntry(cfg.page, old(model).master, Entry(msg, payload)),
                                   pushed := old(model).pushed + [Entry(msg, payload)])
      ensures master.Data() == old(master.Data()) + ItemBytes(payload)
    {
      hide Grown, EntriesBytes, OnDisk, Size, Sound;
      PushItem(master, payload);
      EntriesBytesAppend(model.master.entries, Entry(msg, payload));
      model := model.(master := AppendEntry(cfg.page, model.master, Entry(msg, payload)),
                      pushed := model.pushed + [Entry(msg, payload)]);
    }

    method SwapCache()
      requires Valid()
      modifies this`master, this`slave, this`free, this`model
      ensures Valid() && model == SwapCore(old(model)) && !free
      ensures if old(free) then master == old(slave) && slave == old(master) else master == old(master) && slave == old(slave)
    {
      if free {
        free := false;
        master, slave := slave, master;
        model := Pipeline.Exchange(model.(free := false));
      }
    }

    method AsyncCacheToFile()
      requires Valid()
      modifies this`queue, this`model
      ensures Valid() && model == Pipeline.Post(old(model), CacheTask) && queue == old(queue) + [CacheTask]
    {
      queue := queue + [CacheTask];
      model := Pipeline.Post(model, CacheTask);
    }

    /** The locked section of `Log`. `stored` is false when a codec failed. */
    method CompressAndStore(msg: Bytes) returns (stored: bool)
      requires Valid() && |master.Data()| + ITEM_HEADER + |Payload(cfg, compress.session, msg)| < U32
      modifies this`model, compress`session, master, master.handle
      ensures Valid() && (master.handle == old(master.handle) || fresh(master.handle))
      ensures model == Pipeline.Push(cfg, old(model), msg)
      ensures stored <==> Payload(cfg, old(model).session, msg) != []
      ensures master.Data() == old(master.Data()) + if stored then ItemBytes(Payload(cfg, old(model).session, msg)) else []
    {
      var z := compress.Compress(msg);
      model := model.(session := compress.session, logged := model.logged + [msg]);
      if |z| == 0 {
        return false;
      }
      var payload := cfg.lib.encrypt(cfg.Secret(), cfg.iv, z);
      if |payload| == 0 {
        return false;
      }
      WriteToCache(payload, msg);
      stored := true;
    }

    method Log(msg: Bytes)
      requires Valid()
      requires var session := if model.master.entries == [] then [] else model.session;
               |master.Data()| + ITEM_HEADER + |Payload(cfg, session, msg)| < U32
      modifies this, compress, master, master.handle
      ensures Valid() && model == LogCore(cfg, old(model), msg) && old(master).Valid()
      ensures var payload := Payload(cfg, if old(model).master.entries == [] then [] else old(model).session, msg);
              var stored := old(master);
              && stored.Data() == old(master.Data()) + (if payload == [] then [] else ItemBytes(payload))
              && HandsOver(payload != [] && 5 * |stored.Data()| > 4 * (stored.capacity - 8))
    {
      hide EntriesBytes, OnDisk, Payload, Sound, Contents;
      NonEmptyHasBytes(model.master.entries);
      var length := master.Length();
      if length == 0 {
        compress.ResetStream();
        model := model.(session := []);
      }
      var stored := CompressAndStore(msg);
      if stored {
        HandOverIfFull();
      }
    }

    /** Either nothing is handed over, or a cache task is posted and, with a free flag, the buffers change places. */
    twostate predicate HandsOver(full: bool)
      reads this
    {
      if full then
        && queue == old(queue) + [CacheTask] && !free
        && (if old(free) then master == old(slave) && slave == old(master)
            else master == old(master) && slave == old(slave))
      else queue == old(queue) && free == old(free) && master == old(master) && slave == old(slave)
    }

    /** The end of `Log`: a buffer past four fifths is swapped and a cache task posted. */
    method HandOverIfFull()
      requires Valid()
      modifies this`master, this`slave, this`free, this`queue, this`model
      ensures Valid()
      ensures old(master).Valid() && HandsOver(5 * |old(master).Data()| > 4 * (old(master).capacity - 8))
      ensures model == if IsFull(old(model).master) then Pipeline.Post(SwapCore(old(model)), CacheTask) else old(model)
    {
      var full := master.IsFull();
      if full {
        SwapCache();
        AsyncCacheToFile();
      }
    }

    /** `CacheToFile_`. `spare` is what the unset bytes of the chunk header happen to be. */
    method CacheToFile(spare: Bytes)
      requires Valid() && |spare| == SPARE
      modifies this`free, this`files, this`model, slave.handle
      ensures Valid() && model == CacheCore(cfg, old(model), spare)
    {
      if free {
        return;
      }
      NonEmptyHasBytes(model.slave.entries);
      var size := slave.Length();
      if size == 0 {
        free := true;
        model := model.(free := true);
        return;
      }
      WriteChunk(size, spare);
      ClearAndFree();
    }

    /** Writes the header and `size` bytes of the slave to the current file, or to a new one. */
    method WriteChunk(size: nat, spare: Bytes)
      requires Valid() && |spare| == SPARE && size == |slave.Data()|
      modifies this`files, this`model
      ensures Valid() && model == FillChunk(OpenChunk(cfg, old(model), size, spare), size)
    {
      hide EntriesBytes, HeaderFor, FillChunk, OpenChunk, OnDisk, ChunkHeaderBytes, FileSize;
      WritesOneChunk(cfg, model, spare, files);
      ChunkLeavesTheRest(cfg, model, size, spare);
      var bytes := ChunkHeaderBytes(HeaderFor(cfg, size, spare)) + slave.handle[MMap.HEADER..MMap.HEADER + size];
      assert slave.handle[MMap.HEADER..MMap.HEADER + size] == slave.Data();
      if files == [] || |files[|files| - 1]| > cfg.singleSize {
        files := files + [bytes];
      } else {
        files := files[|files| - 1 := files[|files| - 1] + bytes];
      }
      model := FillChunk(OpenChunk(cfg, model, size, spare), size);
    }

    method ClearAndFree()
      requires Valid()
      modifies this`free, this`model, slave.handle
      ensures Valid() && model == ClearedSlave(old(model)).(free := true)
    {
      slave.Clear();
      free := true;
      model := ClearedSlave(model).(free := true);
    }

    /** The strand takes the next task and runs it to its end. */
    method RunTask(spare: Bytes)
      requires Valid() && |spare| == SPARE && queue != []
      modifies this`queue, this`free, this`files, this`model, slave.handle
      ensures Valid()
      ensures model == AfterTask(cfg, old(model), spare)
    {
      var task := queue[0];
      queue := queue[1..];
      model := model.(queue := model.queue[1..]);
      if task.CacheTask? {
        CacheToFile(spare);
      }
    }

    /** Posts a task and waits for it: by then the strand has run everything queued before. */
    method WaitTasksCompleted(spare: Bytes)
      requires Valid() && |spare| == SPARE && Settled(model)
      modifies this`queue, this`free, this`files, this`model, slave.handle
      ensures Valid() && Settled(model) && queue == [] && model.free && model.slave.entries == []
      ensures model.master == old(model).master && model.pushed == old(model).pushed
      ensures model == WaitCore(cfg, old(model), spare)
    {
      hide Written, OnDisk, CacheCore, EntriesBytes;
      queue := queue + [Signal(0)];
      PostKeepsSettled(model, Signal(0));
      model := Pipeline.Post(model, Signal(0));
      while queue != []
        invariant Valid() && Settled(model)
        invariant model.master == old(model).master && model.pushed == old(model).pushed
        invariant DrainCore(cfg, model, spare) == WaitCore(cfg, old(model), spare)
        decreases |queue|
      {
        RunTaskKeepsSettled(cfg, model, spare);
        AfterTaskKeepsOthers(cfg, model, spare);
        RunTask(spare);
      }
      DrainedIsFree(model);
    }

    method PostAndWait(spare: Bytes)
      requires Valid() && |spare| == SPARE && Settled(model)
      modifies this`queue, this`free, this`files, this`model, slave.handle
      ensures Valid() && Settled(model) && queue == [] && model.free
      ensures model.master == old(model).master && model.pushed == old(model).pushed
      ensures model == WaitCore(cfg, Pipeline.Post(old(model), CacheTask), spare)
    {
      PostKeepsSettled(model, CacheTask);
      AsyncCacheToFile();
      WaitTasksCompleted(spare);
    }

    /** When `Flush` returns everything pushed is in the files and both buffers are empty. */
    method Flush(spare: Bytes)
      requires Valid() && |spare| == SPARE && Settled(model)
      modifies this, master.handle, slave.handle
      ensures Valid() && Settled(model) && queue == []
      ensures Written(model) == model.pushed == old(model).pushed
      ensures model.master.entries == [] && model.slave.entries == [] && model.free
      ensures model == FlushCore(cfg, old(model), spare)
    {
      PostAndWait(spare);
      SwapAndWait(spare);
    }

    method SwapAndWait(spare: Bytes)
      requires Valid() && |spare| == SPARE && Settled(model) && model.free
      modifies this, master.handle, slave.handle
      ensures Valid() && Settled(model) && queue == []
      ensures Written(model) == model.pushed == old(model).pushed
      ensures model.master.entries == [] && model.slave.entries == [] && model.free
      ensures model == WaitCore(cfg, Pipeline.Post(SwapCore(old(model)), CacheTask), spare)
    {
      SwapAndPost();
      WaitTasksCompleted(spare);
      EmptyBuffersMeanWritten(model);
    }
  }
}
