# FlashLog: verified model

A Dafny 4.11 model of FlashLog's log pipeline, from `EffectiveSink::Log` to the decoder's output text, with proofs of
what the pipeline promises: no logged byte is lost, duplicated or reordered, `Flush` is a barrier, and decoding the log
files gives the messages back. Where the code breaks a promise, the exact condition under which it keeps it is proved.
`dafny verify dfyconfig.toml` checks everything.

## What is modelled

| File | What it is |
|---|---|
| `Bytes`, `Layout` | little-endian numbers; the item and chunk headers, printed and parsed |
| `Codec` | the zstd stream and the AES cipher as library functions with stated laws; the session protocol around them |
| `MMap` | the growable mapped buffer: a class over an array and the file behind it, refined to a byte sequence |
| `Pipeline` | `EffectiveSink` as a step machine: any number of producers inside `Log` and `Flush`, the constructor's recovery, and the strand inside `CacheToFile_`, one shared-memory access a step |
| `Handoff` | the invariant of all race-free runs: conservation and order, exclusive handoff, no stranded buffer, the `Flush` barrier |
| `Sessions` | with one producer, buffers and chunks are whole compressor sessions |
| `Decoder`, `EndToEnd` | the decoder's loops as a class, its exactness on written files, and the round trip |
| `Waits` | no wait on the strand lasts: a bound on the strand steps it can see |
| `FileLimits`, `Rotation`, `Elimination` | file sizes, names of rotated files, removal of old files |
| `Schedules`, `Races`, `Stranding`, `RaceWitness`, `Barrier` | `SwapCache_` is not atomic: when it goes wrong, exactly, with any number of producers, what reachable runs then lose or reorder, and when that costs `Flush` its barrier |
| `Drained` | the calling discipline under which one producer never races: no cache task pending when `Log` is called, as after a `Flush` |
| `HandOver` | when `Log` hands its buffer over, in bytes |
| `AtomicSwap` | the same machine with the swap as one step: every run of it is race-free, and the results hold of it without condition |
| `Recovery`, `NoRemap` | stop and restart at any step, the middle of an item's push included, through the mapping the next run makes; a way of calling the sink under which nothing is remapped either |
| `EffectiveSink`, `Uninterrupted` | the sink as a class on mapped buffers and file bytes; `Log`, `Flush`, `CacheToFile_`, the wait, the swap and the constructor are runs of the step machine |
| `ThreadPool`, `Timers`, `TaskDelays`, `SchedulerTimer` | the executor, executor tags, and the timer, as step machines and as classes |
| `Decimals`, `Pattern` | decimal numbers; the output pattern compiler |

The step machines interleave freely: every step of every thread is one action, and results are about every finite list
of enabled actions. The classes (`MMapAux`, `ZstdCompress`, `Decode`, `EffectiveSink`, `ThreadPool`, `Scheduler`,
`Timer`, `LogFiles`, `LogDirectory`, `DecodeFormatter`) follow the C++ methods, and their contracts name the specification
function or the machine steps that they carry out.

## Where the code and its documentation differ

The model follows the code.

- The repository's README calls the two-buffer scheme lock-free and lossless. `SwapCache_` reads the flag, stores it and
  exchanges the buffers in three separate steps. `Stranding.SwapStrandsIff` shows that a swap made by `Log` over a flag
  that nobody else has just read can leave its buffer behind a free flag if and only if an earlier cache task is still
  pending or there is another producer at all. `RaceWitness.RaceBreaksFlush` gives a run of one producer, from an empty
  start, in which `Flush` returns although logged entries are in no file, and `RaceWitness.RaceReordersLog` one of two
  producers that puts a message into the files ahead of older ones. The conservation and barrier results are therefore
  stated for race-free runs (`Pipeline.RaceFree`). With an atomic swap every run is one and they hold without that
  condition (`AtomicSwaps`, with the framing and the round trip); `Races.SoloRunRaceFreeIff` says exactly which runs of
  one producer are; with one producer and no cache task pending a swap is as good as atomic (`Races.QuietSwapIsAtomic`),
  and with one pending the next `Flush` can miss entries (`Barriers.FlushMissesIff`). `Drained.DrainedRunIsRaceFree` gives
  the condition a caller can keep: one producer that calls `Log` only with no cache task pending never races, whatever it
  logs, and a `Flush` ahead of each `Log` is one way to keep it (`Drained.FlushingFirstDrains`).
- A restart maps every file at the default capacity, whatever it had grown to, and a stop can tear an item between the two
  pushes of `WriteToCache_`. `Recovery.RestartConservesIff` counts both in.
- The sink's own elimination can take away a name that rotation counts on, or the very file being written.
  `Rotation.FreshForeverIff` says exactly which directories keep rotation on new files; `Elimination.AlwaysKeptIff` says
  exactly when the current file survives, and `Rotation.GoneStaysGone` what becomes of the log when it does not.
- The repository's README says every chunk has its own vector and key pair. The code makes one of each for a sink and
  restarts the cipher from the same vector for every item; so does the model.
- The code returns no more of a decompressed message than an output string holds for which 10240 bytes were reserved.
  The round trip is proved to hold if and only if no message is longer than that capacity, which is at least 10240.
- The `MMapAux` constructor asks the size of a path it has moved away, so an existing file is always mapped at the default
  capacity. `MMap.ReopenKeepsIffFits` says exactly when its contents survive that.

## Assumptions

- Codec laws (`Codec.Lawful`): the first output of a fresh zstd stream starts with the magic number of section 3.1.1 of
  RFC 8878 and later ones do not; the decompressor in the matching state inverts the compressor on messages within the
  capacity of its output string and never returns more, and that capacity is the same at every call and at least the
  10240 bytes reserved (`Codec.RESERVED`); the cipher (CBC, section 6.2 of NIST SP 800-38A, padded as in section 6.3 of
  RFC 5652) inverts itself under the same key and the same first 16 bytes of the vector; key agreement is symmetric and
  does not fail. `Codec.LawsAreConsistent` exhibits a library that satisfies them all.
- Integers are little-endian. Buffers stay below 2^32 bytes (`Pipeline.Fits`, `Stranding.PushFits`); `MMap.PushAppends`
  and `MMap.ResizeKeepsPrefix` say what happens beyond.
- A file write is an immediate append, and memory mapping and truncation succeed.
- The clock that stamps and tests timer entries does not go back (`Timers.Enabled`); `high_resolution_clock` need not be
  steady.
- `GetRatio() > 0.8` is the exact test `5 * size > 4 * (capacity - 8)`.

## Model

| member | source | states |
|---|---|---|
| `Bytes.LittleEndianRoundTrip` | logger/sinks/sink.h:12-28 | a number stored in a header field of any width reads back modulo the field's range |
| `Bytes.FourBytes` | logger/sinks/sink.h:12-18 | a 32-bit field is read with its first byte as the least significant one |
| `Layout.ItemReadsBack` | logger/sinks/sink.h:12-18 | an item lying anywhere in a file reads back with the number 0xbe5fba11 at its start, its length four bytes on and its payload eight bytes on |
| `Layout.ChunkHeaderReadsBack` | logger/sinks/sink.h:20-28 | a chunk header lying anywhere in a file reads back with the number 0xdeadbeefdada1100 at its start, the size at 8, the vector at 16 and the key field at 48, whatever its unused bytes hold |
| `Codec.ZstdMagicIff` | logger/compress/zstd_compress.cc:38-57 | an input opens a frame if and only if its first four bytes read 0xFD2FB528 or that number with its bytes reversed |
| `Codec.ZstdCompress.ResetStream` | logger/compress/zstd_compress.cc:22-26 | whatever is compressed next opens a frame, so any decompressor starts afresh on it |
| `Codec.ZstdCompress.Compress` | logger/compress/zstd_compress.cc:59-71 | the output is empty for an empty input alone, opens a frame exactly when it is the session's first, and is the one output the session gains |
| `Codec.ZstdCompress.Decompress` | logger/compress/zstd_compress.cc:38-92 | the stream starts afresh exactly on an input whose first four bytes read one of those two numbers; given a session's next output while in step with it, or its first output in any state, it gives the message back, up to its output string's capacity, and is in step |
| `Codec.FeedKeepsStep` | logger/compress/zstd_compress.cc:59-92 | whatever state the decompressor is in, feeding it one session's outputs leaves it exactly in step with the compressor |
| `Codec.FeedInvertsIffSmall` | logger/compress/zstd_compress.cc:73-92 | from any decompressor state, a session decodes to its own messages if and only if none is longer than the output string's capacity |
| `Codec.LawsAreConsistent` | logger/compress/zstd_compress.cc:38-92 | the assumed laws of the libraries can all hold at once |
| `MMap.PageRoundIsLeast` | logger/mmap/mmap_aux.cc:82-86 | rounding gives the least multiple of the page size that is large enough |
| `MMap.PageRoundIsIdempotent` | logger/mmap/mmap_aux.cc:88-106 | the second rounding, in `Reserve_`, changes nothing |
| `MMap.GrownIsLeast` | logger/mmap/mmap_aux.cc:88-106 | capacity never shrinks, always has room for size and header, and is the least page multiple needed whenever it grows |
| `MMap.PushAppends` | logger/mmap/mmap_aux.cc:31-39 | an append goes through any remap, and keeps the data if and only if the new length is below 2^32; beyond, the length wraps |
| `MMap.ResizeKeepsPrefix` | logger/mmap/mmap_aux.cc:41-47 | for every size asked for, the new length is its low 32 bits and the common prefix is kept, through any remap |
| `MMap.ClearEmpties` | logger/mmap/mmap_aux.cc:49-54 | clearing empties the contents and keeps the capacity |
| `MMap.ReopenKeepsIffFits` | logger/mmap/mmap_aux.cc:13-18 | reopening maps the default capacity and keeps the contents if and only if they fit it |
| `MMap.FreshFileOpensEmpty` | logger/mmap/mmap_aux.cc:13-29 | a file of any length opens empty if and only if its first mapping does not read 0xdeadbeef at its start or reads the size zero behind it; a new file and one too short for the magic number do |
| `MMap.RunRefinesSequence` | logger/mmap/mmap_aux.cc:31-54 | over any run of pushes, clears and non-growing resizes, remaps included, the mapping holds what a plain byte sequence holds |
| `MMap.RunCapacity` | logger/mmap/mmap_aux.cc:82-106 | a run ends with the first capacity or the page multiple that its longest contents needed, whichever is greater |
| `MMap.MMapAux.constructor` | logger/mmap/mmap_aux.cc:13-18 | the buffer maps the file's bytes, cut or padded to the default capacity (524288 bytes with pages that divide it), with a header |
| `MMap.MMapAux.Init` | logger/mmap/mmap_aux.cc:20-29 | a mapping that reads 0xdeadbeef at its start is left alone; any other then reads that, and the size zero behind it, with the rest unchanged |
| `MMap.MMapAux.Reserve` | logger/mmap/mmap_aux.cc:88-97 | either nothing changes, or the file is mapped anew at the rounded capacity with its bytes kept |
| `MMap.MMapAux.TryMap` | logger/mmap/mmap_aux_linux.cc:15-32 | a new mapping of the given length whose bytes are the file's, cut or padded with zeros |
| `MMap.MMapAux.Unmap` | logger/mmap/mmap_aux_linux.cc:35-40 | nothing stays mapped and the file has the mapping's bytes |
| `MMap.MMapAux.EnsureCapacity` | logger/mmap/mmap_aux.cc:99-106 | room for the size and the header, with the bytes kept |
| `MMap.MMapAux.Push` | logger/mmap/mmap_aux.cc:31-39 | the contents grow by exactly the data, below 2^32 |
| `MMap.MMapAux.Resize` | logger/mmap/mmap_aux.cc:41-47 | the contents have the low 32 bits of the size asked for as their length and keep the common prefix |
| `MMap.MMapAux.Clear` | logger/mmap/mmap_aux.cc:49-54 | the contents are empty |
| `MMap.MMapAux.Length` | logger/mmap/mmap_aux.cc:56-61 | the header's size field is the length of the contents |
| `MMap.MMapAux.IsFull` | logger/mmap/mmap_aux.cc:75-80 | whether more than four fifths of the capacity without the header are in use |
| `Handoff.StepKeepsInv` | logger/sinks/effective_sink.cc:69-181 | every race-free step of any producer or of the strand keeps the whole handoff invariant |
| `Handoff.StartHasInv` | logger/sinks/effective_sink.cc:40-54 | the constructor's start, over any recovered contents and any number of producers, has it |
| `Handoff.Conservation` | logger/sinks/effective_sink.cc:126-181 | in every state of every race-free run, file bodies, then the unwritten slave, then the master are exactly the pushed entries in push order |
| `Handoff.ExclusiveHandoff` | logger/sinks/effective_sink.cc:147-181 | from reading the slave's size until the flag is set free, no producer step changes the slave or frees the flag |
| `Handoff.ChunksMatchHeaders` | logger/sinks/effective_sink.cc:158-177 | every written chunk is as long as its header says and holds whole items |
| `Handoff.NoStrandedBuffer` | logger/sinks/effective_sink.cc:133-156 | with the strand idle and no producer between swap and post, the flag is free, the slave empty, and the rest is in the master |
| `Handoff.FlushIsBarrier` | logger/sinks/effective_sink.cc:110-118 | whatever other producers do meanwhile, when a call of `Flush` returns all entries pushed before it are in the files, in order |
| `Handoff.StepExtendsPushed` | logger/sinks/effective_sink.cc:126-131 | no step takes back or reorders what was pushed |
| `Waits.WaitIsBounded` | logger/sinks/effective_sink.cc:110-118 | in every run, racing or not, a producer waiting in `Flush` or the constructor finds the strand enabled throughout and sees at most as many strand steps as were ahead of its signal |
| `Sessions.PushInStep` | logger/sinks/effective_sink.cc:78-97 | in step with the master's session, the locked section stores a message exactly when it is not empty |
| `Sessions.StepKeepsSessions` | logger/sinks/effective_sink.cc:69-181 | every race-free step of one producer or the strand keeps buffers, chunks and live compressor framed |
| `Sessions.SessionsAreFramed` | logger/sinks/effective_sink.cc:74-139 | over any contents found at the start, once the constructor is done: the master's entries form one session from a fresh stream, the slave's and each chunk's do or are what a mapped file held, and the compressor has seen exactly the master's messages whenever it is not empty |
| `Sessions.OnlyEmptyMessagesAreDropped` | logger/sinks/effective_sink.cc:80-94 | the entries pushed past the recovered ones are the messages logged without the empty ones |
| `Sessions.FlushWritesEverything` | logger/sinks/effective_sink.cc:110-118 | when the one producer's `Flush` returns, the files hold everything ever found or pushed, in whole chunks |
| `Sessions.FreshFlushIsFramed` | logger/sinks/effective_sink.cc:110-118 | from empty mapped files every chunk is then a session and the entries pushed are the messages logged without the empty ones |
| `FileLimits.FilesStayLimited` | logger/sinks/effective_sink.cc:166-213 | in every run, racing or not, a file without its last chunk is within `single_size`, and a file is left only once beyond it |
| `FileLimits.OpensIffNameChanges` | logger/sinks/effective_sink.cc:166-213 | a chunk opens a new file exactly when the name to write to changes, in a directory where rotation reaches new names |
| `Decoder.Decode.DecodeItemData` | decode/decode.cc:38-53 | one item is decoded, rendered behind the buffer, and its length returned; a header that does not read 0xbe5fba11 fails |
| `Decoder.Decode.DecodeChunkData` | decode/decode.cc:55-75 | the item loop computes the chunk's messages, the decompressor's state and the text, or the first failure; a header that does not read 0xdeadbeefdada1100 fails |
| `Decoder.Decode.DecodeFileData` | decode/decode.cc:77-93 | the chunk loop computes the file's messages; on a failure exactly the earlier chunks' text has been written, and nothing for a file under 176 bytes |
| `EndToEnd.ItemsFollowEntries` | decode/decode.cc:68-73 | on a written body the item loop stands after k items exactly where the k-th ends, having fed the decompressor their payloads |
| `EndToEnd.ChunkDecodes` | decode/decode.cc:55-75 | a written chunk decodes without failure and ends at its last byte, whatever its unused header bytes are |
| `EndToEnd.DecoderIsExact` | decode/decode.cc:77-93 | on any file of whole chunks, any item sizes and any decompressor state, decoding never fails, stops exactly at the end and yields one message an item |
| `EndToEnd.DamageStopsDecoding` | decode/decode.cc:55-93 | whole chunks followed by a damaged chunk magic or a cut header: decoding fails there and keeps exactly what the whole chunks held |
| `EndToEnd.ChunkInvertsIffSmall` | decode/decode.cc:55-75 | a chunk decodes to its session's messages if and only if none is longer than the output string's capacity |
| `EndToEnd.FilesInvertIffSmall` | decode/decode.cc:38-93 | log files decode, in creation order, to the messages written, under the same condition |
| `EndToEnd.RoundTrip` | logger/sinks/effective_sink.cc:69-181 | under every race-free interleaving of one producer and the strand, after `Flush` the decoded files are exactly the non-empty messages logged, in order, if and only if none is longer than the output string's capacity, at least 10240 bytes; each is then rendered with a newline |
| `HandOvers.RatioStepIff` | logger/sinks/effective_sink.cc:100-124 | in every run the step after a push enters the swap if and only if five times the bytes in the master exceed four times its capacity without the header, and changes nothing else |
| `HandOvers.SwapsOnlyWhenFull` | logger/sinks/effective_sink.cc:100-124 | in every run, with any number of producers, a call of `Log` comes to its swap only from that test over such a buffer |
| `Races.SoloRunRaceFreeIff` | logger/sinks/effective_sink.cc:133-156 | with one producer only a swap made by `Log` can race, and a run is race-free exactly when the strand never looks into the slave between its store and its exchange |
| `Races.QuietSwapIsAtomic` | logger/sinks/effective_sink.cc:133-139 | with one producer and no cache task pending, however the strand interleaves, the swap ends with the shared state that a swap in one step leaves and strands nothing |
| `Races.DoubleSwapReorders` | logger/sinks/effective_sink.cc:133-139 | whenever two producers have both come to read the free flag, they can exchange twice, and what the first logs in between is handed over ahead of everything before it |
| `Stranding.SwapStrandsIff` | logger/sinks/effective_sink.cc:133-156 | with any number of producers, a swap made by `Log`, begun while nobody stands between reading the free flag and storing it, can put its entries behind a free flag if and only if a cache task is pending or there is another producer; begun while somebody does, it can if a task is pending or there is a third producer |
| `Stranding.DriveToPost` | logger/sinks/effective_sink.cc:69-118 | with the flag taken, any other producer, wherever it stands, comes to post a cache task when left alone with the strand |
| `Stranding.StrandFromCheckFlag` | logger/sinks/effective_sink.cc:133-156 | a cache task that runs between the store and the exchange leaves the exchanged buffer behind a free flag |
| `AtomicSwaps.AtomicRunIsRaceFree` | logger/sinks/effective_sink.cc:133-139 | every stretch of every run with atomic swaps is a race-free stretch of the fine-grained machine |
| `AtomicSwaps.AtomicConservation` | logger/sinks/effective_sink.cc:126-181 | with atomic swaps conservation and order hold in every state of every run, for any number of producers |
| `AtomicSwaps.AtomicFlushIsBarrier` | logger/sinks/effective_sink.cc:110-118 | with atomic swaps `Flush` is a barrier in every run |
| `AtomicSwaps.AtomicSessionsAreFramed` | logger/sinks/effective_sink.cc:74-139 | with atomic swaps and one producer, over any contents found at the start: buffers and chunks are sessions or what a mapped file held, and pushes past the recovered ones are the logged messages without empty ones, in every run |
| `AtomicSwaps.AtomicRoundTrip` | logger/sinks/effective_sink.cc:69-181 | with atomic swaps the round trip holds under every interleaving of one producer and the strand, under the cap alone |
| `Drained.DrainedRunIsRaceFree` | logger/sinks/effective_sink.cc:100-156 | a run of one producer, from any contents and with items of any size, that finds no cache task pending whenever it calls `Log` is race-free |
| `Drained.FlushingFirstDrains` | logger/sinks/effective_sink.cc:69-118 | a `Flush` ahead of each `Log` makes every run of one producer such a run, however the calls meet the strand |
| `Drained.DrainedConservation` | logger/sinks/effective_sink.cc:126-181 | so conservation and order hold in all its states |
| `Drained.DrainedFlushIsBarrier` | logger/sinks/effective_sink.cc:110-118 | so `Flush` is a barrier in it |
| `Drained.DrainedRoundTrip` | logger/sinks/effective_sink.cc:69-181 | so from empty files the round trip holds in it, under the cap alone |
| `Barriers.FlushMissesIff` | logger/sinks/effective_sink.cc:110-156 | with one producer about to swap a full buffer, some schedule without a further `Log` ends a `Flush` with pushed entries in no file if and only if an earlier cache task is still pending |
| `RaceWitness.FlushMissesStranded` | logger/sinks/effective_sink.cc:110-118 | with a stranded buffer a whole `Flush` writes nothing and returns with the entries back in the master |
| `RaceWitness.RaceBreaksFlush` | logger/sinks/effective_sink.cc:69-156 | for any message that fills a buffer there is a run of one producer from an empty start at whose end `Flush` returns with pushed entries in no file |
| `RaceWitness.RaceReordersLog` | logger/sinks/effective_sink.cc:69-181 | for any message that fills a buffer and any other message there is a run of two producers from an empty start after which the last message pushed is in the files alone, ahead of the two before it |
| `RaceWitness.ExampleFills` | logger/mmap/mmap_aux.cc:11-18 | with the default capacity, 4096-byte pages and a message of 450000 bytes the hypotheses of these runs hold |
| `Recovery.ExchangedIsParity` | logger/sinks/effective_sink.cc:133-139 | which mapped file backs the master is the parity of the exchanges made |
| `Recovery.RecoveredIsWritten` | logger/sinks/effective_sink.cc:40-54 | once the constructor is done and the strand idle, all the mapped files held is in the log files, once each, slave file first, ahead of anything logged since |
| `Recovery.BootNeverRaces` | logger/sinks/effective_sink.cc:46-54 | with any number of producers, no interleaving with the constructor races |
| `Recovery.FlushesAloneNeverRace` | logger/sinks/effective_sink.cc:46-118 | with one producer nothing races until a message is logged |
| `Recovery.BytesDetermineItems` | logger/sinks/effective_sink.cc:126-131 | buffer bytes are a list of items in one way only |
| `Recovery.TornIsNotWhole` | logger/sinks/effective_sink.cc:126-131 | the bytes that a stop between the two pushes leaves are no list of items at all |
| `Recovery.ReopenedIsRestart` | logger/sinks/effective_sink.cc:40-54 | when nothing is torn and both buffers fit, the next run's mappings hold exactly the old buffers' items, at the default capacity |
| `Recovery.RestartConservesIff` | logger/sinks/effective_sink.cc:176-180 | a stop, anywhere, leaves every pushed entry once, in the files or in what the next run's mappings hold, if and only if it is not between append and clear, tears no item, and both buffers fit the default mapping |
| `Recovery.RestartKeepsOrderIff` | logger/sinks/effective_sink.cc:40-54 | the log's order survives a stop if and only if that holds and, when the buffers have each other's files, their items read the same in either order |
| `Recovery.LogOrderIffEven` | logger/sinks/effective_sink.cc:133-139 | with no two stored items alike that is so exactly after an even number of exchanges or with one buffer empty |
| `Recovery.RestartLosesNothing` | logger/sinks/effective_sink.cc:40-54 | over a stop that reopens and the next run's recovery, old and new files together hold exactly the pushed entries and both buffers end empty |
| `NoRemap.GentleStepKeeps` | logger/sinks/effective_sink.cc:100-139 | the bound on the buffers is kept by every step of a drained, small-item run |
| `NoRemap.GentleRunNeverRemaps` | logger/sinks/effective_sink.cc:100-131 | if the strand is drained before each `Log` and each item takes at most a fifth of either buffer, then over any run no step races and neither mapping grows |
| `EffectiveSinks.EffectiveSink.constructor` | logger/sinks/effective_sink.cc:21-60 | from two sound mapped files the sink starts settled, as the machine's recovery leaves it, with an empty master and the slave file's entries counted before the master file's |
| `EffectiveSinks.EffectiveSink.Recover` | logger/sinks/effective_sink.cc:46-54 | recovery leaves a settled sink with an empty master and nothing lost |
| `EffectiveSinks.EffectiveSink.WriteToCache` | logger/sinks/effective_sink.cc:126-131 | the two pushes append exactly one item to the mapped bytes, at the capacity the machine computes |
| `EffectiveSinks.EffectiveSink.SwapCache` | logger/sinks/effective_sink.cc:133-139 | with the flag free the two buffer objects change places and the flag is taken; else nothing happens |
| `EffectiveSinks.EffectiveSink.AsyncCacheToFile` | logger/sinks/effective_sink.cc:141-145 | one cache task is posted behind all others |
| `EffectiveSinks.EffectiveSink.CompressAndStore` | logger/sinks/effective_sink.cc:78-97 | the locked section is the machine's push step; nothing is stored when a codec fails |
| `EffectiveSinks.EffectiveSink.Log` | logger/sinks/effective_sink.cc:69-104 | a whole call stores one item, or nothing if a codec fails; with at most four fifths of the capacity without the header then in use, or nothing stored, queue, flag and buffers stay; above, a cache task is posted and with a free flag the buffers change places; the machine's effect in all |
| `EffectiveSinks.EffectiveSink.CacheToFile` | logger/sinks/effective_sink.cc:147-181 | a whole task has the machine's effect on flag, slave and file bytes, in all three branches |
| `EffectiveSinks.EffectiveSink.WriteChunk` | logger/sinks/effective_sink.cc:158-177 | header and body go to the current file, or to a new one if that is beyond the limit, as the bytes the decoder reads |
| `EffectiveSinks.EffectiveSink.WaitTasksCompleted` | logger/scheduler/scheduler.h:175 | the strand's queue is run down: flag free, slave empty, master untouched, nothing lost |
| `EffectiveSinks.EffectiveSink.Flush` | logger/sinks/effective_sink.cc:110-118 | undisturbed, afterwards everything pushed is in the files, both buffers are empty and the flag is free |
| `EffectiveSinks.LogKeepsSettled` | logger/sinks/effective_sink.cc:69-104 | an undisturbed `Log` keeps conservation and leaves a taken flag only with a cache task queued |
| `EffectiveSinks.CacheTaskWrites` | logger/sinks/effective_sink.cc:147-181 | a whole cache task moves the slave's entries, and nothing else, into the files |
| `EffectiveSinks.WritesOneChunk` | logger/sinks/effective_sink.cc:166-177 | the bytes appended to the file on disk are those of the machine's new chunk, in the file the machine chose |
| `Uninterrupted.LogIsRun` | logger/sinks/effective_sink.cc:69-104 | a call of the class's `Log` is a race-free run of the machine's producer alone |
| `Uninterrupted.SwapIsRun` | logger/sinks/effective_sink.cc:133-145 | the class's swap and post are such a run, whoever else is inside a call: undisturbed, the fine-grained and the atomic swap agree |
| `Uninterrupted.CacheIsRun` | logger/sinks/effective_sink.cc:147-181 | a run of the class's `CacheToFile` is a run of the machine's strand alone |
| `Uninterrupted.WaitIsRun` | logger/scheduler/scheduler.h:175 | the class's wait is the machine's producer posting a signal and the strand running all that is queued |
| `Uninterrupted.FlushIsRun` | logger/sinks/effective_sink.cc:110-118 | a call of the class's `Flush` is a race-free run of the machine's producer and strand |
| `Uninterrupted.RecoverIsRun` | logger/sinks/effective_sink.cc:40-54 | the class's constructor is a race-free run of the machine's, from the machine's own start |
| `ThreadPools.TakenInPostingOrder` | logger/scheduler/thread_pool.h:66-91 | with any number of workers the tasks taken are a prefix of those posted, the queue is the rest, and each taken task is running or finished once |
| `ThreadPools.StrandIsFifo` | logger/scheduler/thread_pool.cc:28-49 | with one worker, finished, then running, then queued tasks are always the posted ones in order |
| `ThreadPools.WaitIsBarrierIffOneWorker` | logger/scheduler/scheduler.h:175 | waiting for a task waits for all posted before it, in every run, if and only if there is at most one worker |
| `ThreadPools.Overtaking` | logger/scheduler/thread_pool.cc:28-49 | with two or more workers a run exists in which a later task finishes first |
| `ThreadPools.ThreadPool.Start` | logger/scheduler/thread_pool.cc:11-18 | the first start makes the given number of idle workers; a second does nothing |
| `ThreadPools.ThreadPool.AddTask` | logger/scheduler/thread_pool.h:66-74 | the task stands behind all that still waits, so it is taken when everything posted before it has been; the order invariant is kept |
| `ThreadPools.ThreadPool.Take` | logger/scheduler/thread_pool.cc:33-46 | whoever takes gets the next task in posting order, the one after all taken so far |
| `ThreadPools.ThreadPool.Finish` | logger/scheduler/thread_pool.cc:47-48 | with one worker the finished tasks are then the first ones posted, in order, and all that were taken |
| `ThreadPools.Scheduler.NewTaskExecutor` | logger/scheduler/scheduler.cc:7-15 | the new executor gets the first unused tag from the one wanted on, and no other executor is touched |
| `Timers.StepKeepsRepeatInv` | logger/scheduler/scheduler.cc:89-136 | every interleaved step of callers and the timer thread keeps counts, single place and set membership of all repeated tasks |
| `Timers.RepeatedTasksAreCounted` | logger/scheduler/scheduler.cc:89-136 | in every state rounds run plus rounds left are the rounds asked for, at most one queue entry exists an id, and an uncancelled task at rest ran exactly that often and has left the set |
| `Timers.CancelStopsFurtherRuns` | logger/scheduler/scheduler.cc:99-136 | once an id is out of the set no round ever starts again; at most the one already past the check still runs |
| `Timers.DueIsWithinAMicrosecond` | logger/scheduler/scheduler.cc:60-64 | an entry passes the truncated test if and only if its time point is less than a microsecond ahead |
| `Timers.FiresInOrderIff` | logger/scheduler/scheduler.cc:51-123 | over any run, with any delays and any interleaving, the time points fired never decrease if and only if no entry fires after one was pushed that lies before a time point already fired |
| `Timers.DelayBoundIff` | logger/scheduler/scheduler.cc:60-87 | over all runs with posts in one piece, delays from d nanoseconds on keep the order if and only if d is at least 999 |
| `Timers.MicrosecondBoundIff` | logger/scheduler/scheduler.cc:60-87 | with delays of whole microseconds, as the interface takes them, that is if and only if they are at least one microsecond |
| `Timers.FiresInOrder` | logger/scheduler/scheduler.cc:51-87 | with delays of at least 999 nanoseconds and no firing inside a post no push is ever late, so the time points fired over a whole run never decrease |
| `Timers.LatePushFiresOutOfOrder` | logger/scheduler/scheduler.cc:78-87 | a run with long delays whose posts overlap fires out of order, since the clock is read outside the lock |
| `Timers.ShortDelayFiresOutOfOrder` | logger/scheduler/scheduler.cc:60-87 | a run with posts in one piece and a delay of zero fires out of order |
| `TaskDelays.DelaysAreKept` | logger/scheduler/scheduler.cc:89-125 | in every state of every run each queue entry and each round under way of a repeated task has the delay its caller asked for, and each time point is exactly that delay after the clock as read when a round had run |
| `TaskDelays.AskedForOnce` | logger/scheduler/scheduler.cc:89-97 | an id is handed out with one delay only |
| `TaskDelays.RoundsAreSpaced` | logger/scheduler/scheduler.cc:51-125 | two rounds of a task never run closer together than its delay, but for the microsecond the test lets pass, whatever else is posted or cancelled |
| `SchedulerTimers.Timer.PostDelayedTask` | logger/scheduler/scheduler.cc:78-87 | one call queues the task one delay after the clock it read, and is a stretch of a machine run: clock reading, stamp, push |
| `SchedulerTimers.Timer.PostRepeatedTask` | logger/scheduler/scheduler.cc:89-97 | one call registers a fresh id, puts it in the set and carries the first round through, with the next one queued one delay on; it is a stretch of a machine run |
| `SchedulerTimers.Timer.PostRepeatedRound` | logger/scheduler/scheduler.cc:99-125 | one round: at zero left the id is dropped, off the set nothing happens, else the task runs and the next round is queued with one less |
| `SchedulerTimers.Timer.CancelRepeatedTask` | logger/scheduler/scheduler.cc:133-136 | every id handed out is stopped for good from there on, and the counts of all repeated tasks still hold |
| `SchedulerTimers.Timer.RunOnce` | logger/scheduler/scheduler.cc:51-76 | one turn of the loop takes an earliest entry, exactly when some entry is due, and carries out what it stands for; it is a stretch of a machine run |
| `SchedulerTimers.RoundIsRun` | logger/scheduler/scheduler.cc:99-125 | a whole round is a stretch of an ordinary run of the machine, so all run results hold around it |
| `Decimals.DigitsRoundTrip` | logger/sinks/effective_sink.cc:206 | a rendered index reads back as itself |
| `Decimals.TextRoundTrip` | decode/decode_formatter.cc:115-158 | a rendered number reads back with its sign, in the ten digits, with a minus for negative numbers alone |
| `Rotation.ContainsIff` | logger/sinks/effective_sink.cc:200-205 | the stem is looked for anywhere in a name |
| `Rotation.NamesAreDistinct` | logger/sinks/effective_sink.cc:183-206 | a file name determines its second and its index |
| `Rotation.RotationIsFresh` | logger/sinks/effective_sink.cc:190-213 | from an empty directory, over any restarts and removals, a rotation reaches a new file unless a name of its own second has gone away before |
| `Rotation.FreshForeverIff` | logger/sinks/effective_sink.cc:190-213 | all further rotations of a second reach new files, whatever else is written, restarted or removed but that second's names, if and only if every index in use is below the number of names the count finds |
| `Rotation.GoneStaysGone` | logger/sinks/effective_sink.cc:166-213 | once the current file has gone away, every chunk up to the next restart goes to that file, and neither its name nor any other comes into being |
| `Rotation.LeftOnlyBeyondLimit` | logger/sinks/effective_sink.cc:190-210 | over any run the current file is left only by a restart or by a write at a size beyond the limit, and the first rotation of a second makes the name without an index |
| `Rotation.DeletionReusesAName` | logger/sinks/effective_sink.cc:199-206 | after one deletion within the second a run exists that rotates to a file still there |
| `Rotation.LogFiles.CountMatches` | logger/sinks/effective_sink.cc:200-205 | the directory loop counts the names that contain the stem |
| `Rotation.LogFiles.OpenNext` | logger/sinks/effective_sink.cc:166-213 | the four branches by name: no path yet, within the limit (path and directory stay), beyond it with the second's name free, and beyond it with the name taken (the count as index); and so the run's write step |
| `Elimination.LogsCount` | logger/sinks/effective_sink.cc:217-222 | what is collected is every entry whose name is something with ".log" behind it, as often as listed, and no other |
| `Elimination.OwnNames` | logger/sinks/effective_sink.cc:183-206 | every name the sink gives a log file has the extension; the two mapped buffers' names have not |
| `Elimination.SomeOrderExists` | logger/sinks/effective_sink.cc:223-225 | any directory has a newest-first order, so the sort's result exists |
| `Elimination.KeptIsNewestWithinTotal` | logger/sinks/effective_sink.cc:227-236 | all kept files but the oldest add up to less than the limit, every removed file had the limit in newer ones, and nothing kept is older than anything removed |
| `Elimination.NewestSurvivesIff` | logger/sinks/effective_sink.cc:227-236 | the newest file survives if and only if the limit is positive |
| `Elimination.AlwaysKeptIff` | logger/sinks/effective_sink.cc:215-236 | a file listed once, such as the one being written, survives a run, however ties are sorted, if and only if all other files not older than it add up to less than the limit |
| `Elimination.SecondRunIsQuietIff` | logger/sinks/effective_sink.cc:223-236 | a second run removes nothing, however ties are sorted, if and only if each file tied for the oldest could be the one that exceeds the limit |
| `Elimination.SecondRunRemovesNothing` | logger/sinks/effective_sink.cc:215-237 | with distinct write times a second run straight after removes nothing |
| `Elimination.TiedSecondRunRemoves` | logger/sinks/effective_sink.cc:223-236 | with two files of one write time a second run can remove one |
| `Elimination.LogDirectory.CollectLogs` | logger/sinks/effective_sink.cc:217-222 | the loop collects exactly the entries with the extension, in listing order, as often as listed |
| `Elimination.LogDirectory.EliminateFiles` | logger/sinks/effective_sink.cc:215-237 | of the collected files in the sort's order exactly those behind the cut go away; no file without the extension does |
| `Elimination.LogDirectory.RemoveBeyondTotal` | logger/sinks/effective_sink.cc:227-236 | the loop removes exactly the files behind the cut and keeps every other |
| `Pattern.UnparseInvertsParse` | decode/decode_formatter.cc:187-242 | unparsing a compiled pattern gives the pattern without a lone final percent sign; the list is canonical and dropping that sign does not change it |
| `Pattern.ParseInvertsUnparse` | decode/decode_formatter.cc:187-242 | every canonical list of formatters is what its own text compiles to |
| `Pattern.TrimmedIsPattern` | decode/decode_formatter.cc:226-229 | compiling loses nothing of a pattern but possibly one final percent sign |
| `Pattern.EmptyFrom` | decode/decode_formatter.cc:217-242 | the list is empty if and only if the pattern is empty or a lone percent sign |
| `Pattern.RenderFrom` | decode/decode_formatter.cc:43-51 | running a compiled list gives the pattern's character-by-character expansion, for every message |
| `Pattern.SecondsTruncate` | decode/decode_formatter.cc:115-122 | seconds are whole ones toward zero: what is left over is less than a second, on the same side of zero |
| `Pattern.LevelLetters` | decode/decode_formatter.cc:55-74 | levels 0 to 5 are the letters V, D, I, W, E and F, any other is U |
| `Pattern.DecoderLine` | decode/decode.cc:116 | the decoder's own pattern gives level, date, seconds, process, thread, file, function, line and text, in this order and these brackets |
| `Pattern.CombinedIsPattern` | decode/decode_formatter.cc:244-252 | the built-in form is a pattern of milliseconds and places behind the numeric level, with C strings, cut at 1023 characters, and then the text |
| `Pattern.CStringCuts` | decode/decode_formatter.cc:246-248 | a C string is the longest beginning without a NUL |
| `Pattern.DecodeFormatter.SetPattern` | decode/decode_formatter.cc:217-242 | the loop compiles the whole pattern, from any earlier state |
| `Pattern.DecodeFormatter.Format` | decode/decode_formatter.cc:43-51 | after `SetPattern` a message is appended as the pattern expands it, or in the built-in form when there is nothing to expand |

## Left out

- Library code: the insides of zstd, zlib, Crypto++, key agreement, hex coding and protobuf; their laws are assumed as above.
- `MemoryBuffer` and the sinks built on it (simple, protobuf, compress, crypto, async): `MemoryBuffer::Push` copies its data and then zero-fills the same bytes, so no claim about contents holds of them. `MMapSink` is a sequential special case of what is modelled.
- Shutdown: `Timer::Stop` and `ThreadPool::Stop`, tasks dropped at stop, and exceptions thrown by tasks.
- Disk durability, `std::ofstream` buffering, failed `mmap` or `ftruncate`.
- Malformed log files: the decoder reads without bounds checks; the model fails with `PastEnd` where it would read beyond the file, and claims are about files the writer can produce.
- Decodability of messages recovered from an earlier run: they are written under the new run's key, so across restarts only conservation and order of entries is claimed, and the round trip is for runs from empty mapped files; decodability is for one producer because the stream reset is outside the lock.
- Stranding.SwapStrandsIff: gives one direction only for a swap begun while another producer stands between reading the free flag and storing it, and nothing when that one is the only other producer and no cache task is pending, for whether the buffer can then be stranded depends on the sizes of messages yet to be logged; that such a swap can reorder the log is `Races.DoubleSwapReorders`.
- Moved-from callables in repeated tasks: rounds are counted, what a task does is not modelled.
- `EliminateFiles_` as a step of the pipeline: there it is a task without effect on the buffers; its own behaviour is in `Elimination`, and what removals do to rotated names is in `Rotation`.
- 64-bit wrap-around of executor tags and repeated-task ids, and 32-bit wrap-around of rotation indices.
- Console output, log levels and macros, date rendering (a parameter of `Pattern.Render`), unit conversion, build scripts and examples.
- Elimination.LogDirectory.EliminateFiles: takes the result of `std::sort` as a parameter, since the order of ties is unspecified.
