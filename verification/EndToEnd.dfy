/** From a logged message to the decoder's output. */
module EndToEnd {
  import opened Bytes
  import opened Layout
  import opened Codec
  import opened Pipeline
  import opened Handoff
  import opened Sessions
  import opened Decoder
  import opened FileLimits

  // ---------- the bytes of a log file ----------

  function ChunkBytes(c: Chunk): (bs: Bytes) {
    ChunkHeaderBytes(c.header) + c.body
  }

  function Concat(parts: seq<Bytes>): (bs: Bytes) {
    if parts == [] then [] else Concat(parts[..|parts| - 1]) + parts[|parts| - 1]
  }

  function Parts(chunks: seq<Chunk>): (parts: seq<Bytes>)
    ensures |parts| == |chunks|
  {
    seq(|chunks|, i requires 0 <= i < |chunks| => ChunkBytes(chunks[i]))
  }

  function FileBytes(chunks: seq<Chunk>): (bs: Bytes) {
    Concat(Parts(chunks))
  }

  /** What the writer can produce: a whole number of items, small enough for the header fields. */
  predicate WellFormed(c: Chunk) {
    && c.header.Fits()
    && c.body == EntriesBytes(c.entries)
    && c.header.size == |c.body| < U32
  }

  predicate AllWellFormed(chunks: seq<Chunk>) {
    forall k | 0 <= k < |chunks| :: WellFormed(chunks[k])
  }

  lemma {:induction false} EntryInBody(es: seq<Entry>, k: nat)
    requires k < |es|
    ensures HoldsAt(EntriesBytes(es), |EntriesBytes(es[..k])|, ItemBytes(es[k].payload))
    ensures |EntriesBytes(es[..k + 1])| == |EntriesBytes(es[..k])| + ITEM_HEADER + |es[k].payload|
    ensures |EntriesBytes(es[..k + 1])| <= |EntriesBytes(es)|
  {
    var before := es[..|es| - 1];
    assert es[..k + 1][..k] == es[..k];
    if k < |before| {
      EntryInBody(before, k);
      assert before[..k] == es[..k] && before[..k + 1] == es[..k + 1];
      HoldsInLonger(EntriesBytes(before), ItemBytes(es[|es| - 1].payload), |EntriesBytes(es[..k])|, ItemBytes(es[k].payload));
    } else {
      assert es[..k + 1] == es;
    }
  }

  lemma HoldsInLonger(data: Bytes, more: Bytes, at: nat, part: Bytes)
    requires HoldsAt(data, at, part)
    ensures HoldsAt(data + more, at, part)
  {
    assert (data + more)[at..at + |part|] == data[at..at + |part|];
  }

  lemma {:induction false} PartInConcat(parts: seq<Bytes>, k: nat)
    requires k < |parts|
    ensures HoldsAt(Concat(parts), |Concat(parts[..k])|, parts[k])
    ensures |Concat(parts[..k + 1])| == |Concat(parts[..k])| + |parts[k]|
    ensures |Concat(parts[..k + 1])| <= |Concat(parts)|
  {
    var before := parts[..|parts| - 1];
    assert parts[..k + 1][..k] == parts[..k];
    if k < |before| {
      PartInConcat(before, k);
      assert before[..k] == parts[..k] && before[..k + 1] == parts[..k + 1];
      HoldsInLonger(Concat(before), parts[|parts| - 1], |Concat(parts[..k])|, parts[k]);
    } else {
      assert parts[..k + 1] == parts;
    }
  }

  lemma ChunkInFile(chunks: seq<Chunk>, k: nat)
    requires k < |chunks|
    ensures HoldsAt(FileBytes(chunks), |FileBytes(chunks[..k])|, ChunkBytes(chunks[k]))
    ensures |FileBytes(chunks[..k + 1])| == |FileBytes(chunks[..k])| + |ChunkBytes(chunks[k])|
    ensures |FileBytes(chunks[..k + 1])| <= |FileBytes(chunks)|
  {
    PartInConcat(Parts(chunks), k);
    assert Parts(chunks)[..k] == Parts(chunks[..k]) && Parts(chunks)[..k + 1] == Parts(chunks[..k + 1]);
  }

  // ---------- the decoder follows the items ----------

  function Decrypted(d: Setup, secret: Bytes, iv: Bytes, es: seq<Entry>): (zs: seq<Bytes>)
    ensures |zs| == |es|
  {
    if es == [] then []
    else Decrypted(d, secret, iv, es[..|es| - 1]) + [d.lib.decrypt(secret, iv, es[|es| - 1].payload)]
  }

  lemma JoinNothing(r: Result)
    ensures JoinItems([], r) == r
  {
    if r.Ended? {
      assert [] + r.msgs == r.msgs;
    }
  }

  /**
   * On a body the writer produced the loop never reads past the items: after `k` items it stands exactly where the
   * first `k` end, having fed the decompressor their decrypted payloads.
   */
  lemma {:induction false} ItemsFollowEntries(d: Setup, secret: Bytes, iv: Bytes, data: Bytes, base: nat, es: seq<Entry>,
                                              fed: seq<Bytes>, k: nat)
    requires HoldsAt(data, base, EntriesBytes(es)) && |EntriesBytes(es)| < U32 && k <= |es|
    ensures var size := |EntriesBytes(es)|;
            var (msgs, fed') := Feed(d.lib, fed, Decrypted(d, secret, iv, es[..k]));
            Items(d, secret, iv, data, base, 0, size, fed)
            == JoinItems(msgs, Items(d, secret, iv, data, base, |EntriesBytes(es[..k])|, size, fed'))
  {
    if k == 0 {
      JoinNothing(Items(d, secret, iv, data, base, 0, |EntriesBytes(es)|, fed));
    } else {
      hide EntriesBytes, Feed, Decrypted, DecompressStep, HoldsAt, ItemBytes, Items, JoinItems;
      ItemsFollowEntries(d, secret, iv, data, base, es, fed, k - 1);
      var size, offset := |EntriesBytes(es)|, |EntriesBytes(es[..k - 1])|;
      var (msgs, fed') := Feed(d.lib, fed, Decrypted(d, secret, iv, es[..k - 1]));
      ItemsAdvance(d, secret, iv, data, base, es, k - 1, fed', msgs);
      DecryptedAppend(d, secret, iv, es, k - 1, fed);
    }
  }

  lemma ItemsAdvance(d: Setup, secret: Bytes, iv: Bytes, data: Bytes, base: nat, es: seq<Entry>, k: nat,
                     fed: seq<Bytes>, msgs: seq<Bytes>)
    requires HoldsAt(data, base, EntriesBytes(es)) && |EntriesBytes(es)| < U32 && k < |es|
    ensures var size := |EntriesBytes(es)|;
            var (msg, after) := DecompressStep(d.lib, fed, d.lib.decrypt(secret, iv, es[k].payload));
            JoinItems(msgs, Items(d, secret, iv, data, base, |EntriesBytes(es[..k])|, size, fed))
            == JoinItems(msgs + [msg], Items(d, secret, iv, data, base, |EntriesBytes(es[..k + 1])|, size, after))
  {
    hide ItemBytes, HoldsAt, Items, EntriesBytes, DecompressStep;
    EntryPosition(data, base, es, k);
    ItemAdvances(d, secret, iv, data, base, |EntriesBytes(es[..k])|, |EntriesBytes(es)|, fed, msgs, es[k].payload);
  }

  /** Where the `k`-th item of a body lies in the file. */
  lemma EntryPosition(data: Bytes, base: nat, es: seq<Entry>, k: nat)
    requires HoldsAt(data, base, EntriesBytes(es)) && k < |es|
    ensures var offset := |EntriesBytes(es[..k])|;
            && HoldsAt(data, base + offset, ItemBytes(es[k].payload))
            && offset + ITEM_HEADER + |es[k].payload| == |EntriesBytes(es[..k + 1])| <= |EntriesBytes(es)|
  {
    EntryInBody(es, k);
    HoldsWithin(data, base, EntriesBytes(es), |EntriesBytes(es[..k])|, ItemBytes(es[k].payload));
  }

  /** An item found where the loop stands is read whole, decoded, and stepped over. */
  lemma ItemAdvances(d: Setup, secret: Bytes, iv: Bytes, data: Bytes, base: nat, offset: nat, size: nat,
                     fed: seq<Bytes>, msgs: seq<Bytes>, payload: Bytes)
    requires HoldsAt(data, base + offset, ItemBytes(payload)) && |payload| < U32 && offset < size
    ensures var (msg, after) := DecompressStep(d.lib, fed, d.lib.decrypt(secret, iv, payload));
            JoinItems(msgs, Items(d, secret, iv, data, base, offset, size, fed))
            == JoinItems(msgs + [msg], Items(d, secret, iv, data, base, offset + ITEM_HEADER + |payload|, size, after))
  {
    hide Items, JoinItems, DecompressStep, ItemBytes;
    var (msg, after) := DecompressStep(d.lib, fed, d.lib.decrypt(secret, iv, payload));
    assert ItemAt(d, secret, iv, data, base + offset, fed) == GotItem(msg, after, ITEM_HEADER + |payload|) by {
      ItemReadsBack(data, base + offset, payload);
    }
    ItemsStep(d, secret, iv, data, base, offset, size, fed, msgs);
  }

  lemma DecryptedAppend(d: Setup, secret: Bytes, iv: Bytes, es: seq<Entry>, k: nat, fed: seq<Bytes>)
    requires k < |es|
    ensures var (msgs, mid) := Feed(d.lib, fed, Decrypted(d, secret, iv, es[..k]));
            var (msg, after) := DecompressStep(d.lib, mid, d.lib.decrypt(secret, iv, es[k].payload));
            Feed(d.lib, fed, Decrypted(d, secret, iv, es[..k + 1])) == (msgs + [msg], after)
  {
    assert es[..k + 1][..k] == es[..k];
    FeedAppend(d.lib, fed, Decrypted(d, secret, iv, es[..k]), d.lib.decrypt(secret, iv, es[k].payload));
  }

  lemma HoldsWithin(data: Bytes, at: nat, whole: Bytes, from: nat, part: Bytes)
    requires HoldsAt(data, at, whole) && HoldsAt(whole, from, part)
    ensures HoldsAt(data, at + from, part)
  {
    SliceOfSlice(data, at, at + |whole|, from, from + |part|);
  }

  lemma SliceOfSlice(data: Bytes, a: nat, b: nat, from: nat, to: nat)
    requires a <= b <= |data| && from <= to <= b - a
    ensures data[a..b][from..to] == data[a + from..a + to]
  {
    var left, right := data[a..b][from..to], data[a + from..a + to];
    forall i | 0 <= i < |left| ensures left[i] == right[i] {
      assert left[i] == data[a..b][from + i];
    }
  }

  /** A chunk decodes without error and ends exactly at its last byte, whatever its unused header bytes are. */
  lemma ChunkDecodes(d: Setup, data: Bytes, at: nat, c: Chunk, fed: seq<Bytes>)
    requires WellFormed(c) && HoldsAt(data, at, ChunkBytes(c))
    ensures ChunkAt(d, data, at, fed) == FeedChunk(d, fed, c, at)
  {
    HoldsParts(data, at, ChunkHeaderBytes(c.header), c.body);
    ChunkHeaderReadsBack(data, at, c.header);
    var secret, iv := d.lib.agree(d.serverKey, c.header.Key(PUBLIC_KEY)), c.header.Iv(IV_COPIED);
    ItemsFollowEntries(d, secret, iv, data, at + CHUNK_HEADER, c.entries, fed, |c.entries|);
    assert c.entries[..|c.entries|] == c.entries;
    var (msgs, fed') := Feed(d.lib, fed, Decrypted(d, secret, iv, c.entries));
    assert msgs + [] == msgs;
  }

  function FeedChunk(d: Setup, fed: seq<Bytes>, c: Chunk, at: nat): Result {
    var secret := d.lib.agree(d.serverKey, c.header.Key(PUBLIC_KEY));
    var (msgs, after) := Feed(d.lib, fed, Decrypted(d, secret, c.header.Iv(IV_COPIED), c.entries));
    Ended(msgs, after, at + ChunkSize(c))
  }

  /** What feeding the chunks of a file one after the other gives. */
  function FeedChunks(d: Setup, fed: seq<Bytes>, chunks: seq<Chunk>): (seq<Bytes>, seq<Bytes>)
  {
    if chunks == [] then ([], fed)
    else
      var (msgs, mid) := FeedChunks(d, fed, chunks[..|chunks| - 1]);
      var last := FeedChunk(d, mid, chunks[|chunks| - 1], 0);
      (msgs + last.msgs, last.fed)
  }

  /** The chunk loop goes through whole chunks, whatever follows them in the file. */
  lemma {:induction false} ChunksFollow(d: Setup, chunks: seq<Chunk>, rest: Bytes, fed: seq<Bytes>, k: nat)
    requires AllWellFormed(chunks) && k <= |chunks|
    ensures var (data, (msgs, fed')) := (FileBytes(chunks) + rest, FeedChunks(d, fed, chunks[..k]));
            Chunks(d, data, 0, fed) == JoinChunks(msgs, Chunks(d, data, |FileBytes(chunks[..k])|, fed'))
  {
    hide Chunks, FileBytes, FeedChunk, AllWellFormed;
    if k == 0 {
      NothingJoined(Chunks(d, FileBytes(chunks) + rest, 0, fed));
      NoBytes();
      assert chunks[..0] == [];
    } else {
      ChunksFollow(d, chunks, rest, fed, k - 1);
      var (msgs, fed') := FeedChunks(d, fed, chunks[..k - 1]);
      ChunksAdvance(d, chunks, rest, k - 1, fed', msgs);
      assert chunks[..k][..k - 1] == chunks[..k - 1];
    }
  }

  lemma NothingJoined(rest: Result)
    ensures JoinChunks([], rest) == rest
  {
    assert [] + MessagesOf(rest) == MessagesOf(rest);
  }

  lemma NoBytes()
    ensures FileBytes([]) == []
  {
  }

  lemma ChunksAdvance(d: Setup, chunks: seq<Chunk>, rest: Bytes, k: nat, fed: seq<Bytes>, msgs: seq<Bytes>)
    requires AllWellFormed(chunks) && k < |chunks|
    ensures var data := FileBytes(chunks) + rest;
            var r := FeedChunk(d, fed, chunks[k], 0);
            JoinChunks(msgs, Chunks(d, data, |FileBytes(chunks[..k])|, fed))
            == JoinChunks(msgs + r.msgs, Chunks(d, data, |FileBytes(chunks[..k + 1])|, r.fed))
  {
    hide Chunks, FileBytes, FeedChunk, JoinChunks, HoldsAt;
    var at := |FileBytes(chunks[..k])|;
    ChunkInFile(chunks, k);
    HoldsInLonger(FileBytes(chunks), rest, at, ChunkBytes(chunks[k]));
    ChunkAdvances(d, FileBytes(chunks) + rest, at, chunks[k], fed, msgs);
  }

  lemma ChunkAdvances(d: Setup, data: Bytes, at: nat, c: Chunk, fed: seq<Bytes>, msgs: seq<Bytes>)
    requires WellFormed(c) && HoldsAt(data, at, ChunkBytes(c)) && at < |data|
    ensures var r := FeedChunk(d, fed, c, 0);
            JoinChunks(msgs, Chunks(d, data, at, fed))
            == JoinChunks(msgs + r.msgs, Chunks(d, data, at + ChunkSize(c), r.fed))
  {
    hide Chunks, ChunkAt, JoinChunks, WellFormed, HoldsAt, Feed, Decrypted;
    ChunkDecodes(d, data, at, c, fed);
    ChunksStep(d, data, at, fed, msgs);
  }

  /**
   * Decoder exactness: on any file of whole chunks, for any item sizes, any unused header bytes and any state of the
   * decompressor, decoding fails nowhere, stops exactly at the end of the file and yields one message for each item.
   */
  lemma DecoderIsExact(d: Setup, chunks: seq<Chunk>, fed: seq<Bytes>)
    requires chunks != [] && AllWellFormed(chunks)
    ensures DecodeFile(d, FileBytes(chunks), fed)
         == Ended(FeedChunks(d, fed, chunks).0, FeedChunks(d, fed, chunks).1, |FileBytes(chunks)|)
    ensures |FeedChunks(d, fed, chunks).0| == |EntriesOf(chunks)|
  {
    var data := FileBytes(chunks);
    var (msgs, fed') := FeedChunks(d, fed, chunks);
    assert chunks[..|chunks|] == chunks;
    ChunkInFile(chunks, 0);
    assert Chunks(d, data, 0, fed) == JoinChunks(msgs, Ended([], fed', |data|)) by {
      ChunksFollow(d, chunks, [], fed, |chunks|);
      assert data + [] == data;
    }
    assert msgs + [] == msgs;
    FeedChunksCount(d, chunks, fed);
  }

  /**
   * Whole chunks with something else behind them, such as a chunk whose magic number is damaged or a header cut short:
   * decoding fails there, and keeps exactly what the whole chunks held.
   */
  lemma DamageStopsDecoding(d: Setup, chunks: seq<Chunk>, rest: Bytes, fed: seq<Bytes>)
    requires AllWellFormed(chunks) && |FileBytes(chunks) + rest| >= 176 && rest != []
    requires |rest| < 176 || FromLittleEndian(rest[..8]) != 0xdeadbeefdada1100
    ensures DecodeFile(d, FileBytes(chunks) + rest, fed)
         == Failed(FeedChunks(d, fed, chunks).0, if |rest| < 176 then PastEnd else BadMagic)
  {
    var data, at := FileBytes(chunks) + rest, |FileBytes(chunks)|;
    assert chunks[..|chunks|] == chunks;
    hide FileBytes, FeedChunks, AllWellFormed, ChunkAt;
    ChunksFollow(d, chunks, rest, fed, |chunks|);
    var (msgs, fed') := FeedChunks(d, fed, chunks);
    assert msgs + [] == msgs;
    DamagedChunk(d, FileBytes(chunks), rest, fed');
  }

  lemma DamagedChunk(d: Setup, before: Bytes, rest: Bytes, fed: seq<Bytes>)
    requires |rest| < 176 || FromLittleEndian(rest[..8]) != 0xdeadbeefdada1100
    ensures ChunkAt(d, before + rest, |before|, fed) == Failed([], if |rest| < 176 then PastEnd else BadMagic)
  {
    hide FromLittleEndian;
    assert |rest| >= 8 ==> (before + rest)[|before|..|before| + 8] == rest[..8];
  }

  lemma {:induction false} FeedChunksCount(d: Setup, chunks: seq<Chunk>, fed: seq<Bytes>)
    requires AllWellFormed(chunks)
    ensures |FeedChunks(d, fed, chunks).0| == |EntriesOf(chunks)|
  {
    if chunks != [] {
      FeedChunksCount(d, chunks[..|chunks| - 1], fed);
    }
  }

  // ---------- the decoder reverses the writer ----------

  /** The decoder holds the private key whose public half the writer was configured with. */
  ghost predicate Matches(cfg: Config, d: Setup) {
    d.lib == cfg.lib && d.serverKey == cfg.serverKey
  }

  /** Decrypting the payloads of a session under the chunk header's key and vector gives the compressor's outputs. */
  lemma {:induction false} SessionDecrypts(cfg: Config, d: Setup, es: seq<Entry>)
    requires cfg.Sound() && Lawful(cfg.lib) && Matches(cfg, d) && IsSession(cfg, es)
    ensures Decrypted(d, d.lib.agree(d.serverKey, cfg.lib.publicKey(cfg.clientKey)), cfg.iv[..IV_COPIED], es)
         == Outputs(cfg.lib, Messages(es))
  {
    hide Payload, Lawful, Matches, Plain;
    if es != [] {
      var before, e := es[..|es| - 1], es[|es| - 1];
      SessionDecrypts(cfg, d, before);
      SessionIsPlain(cfg, before);
      MessagesAppend(before, e);
      assert before + [e] == es;
      PayloadDecrypts(cfg, d, Messages(before), e.msg);
      assert Messages(es)[..|es| - 1] == Messages(before);
    }
  }

  lemma PayloadDecrypts(cfg: Config, d: Setup, session: seq<Bytes>, m: Bytes)
    requires cfg.Sound() && Lawful(cfg.lib) && Matches(cfg, d) && Plain(session) && m != []
    ensures d.lib.decrypt(d.lib.agree(d.serverKey, cfg.lib.publicKey(cfg.clientKey)), cfg.iv[..IV_COPIED],
                          Payload(cfg, session, m)) == cfg.lib.compress(session, m)
  {
    assert Plain(session + [m]);
    assert cfg.iv[..IV_COPIED][..IV_USED] == cfg.iv[..IV_USED];
  }

  predicate Decodable(cfg: Config, c: Chunk) {
    Complete(cfg, c) && IsSession(cfg, c.entries)
  }

  lemma DecodableIsWellFormed(cfg: Config, c: Chunk)
    requires Decodable(cfg, c)
    ensures WellFormed(c)
    ensures c.header.Iv(IV_COPIED) == cfg.iv[..IV_COPIED]
    ensures c.header.Key(PUBLIC_KEY) == cfg.lib.publicKey(cfg.clientKey)
  {
    var spare := c.header.publicKey[PUBLIC_KEY..];
    assert (cfg.lib.publicKey(cfg.clientKey) + spare)[..PUBLIC_KEY] == cfg.lib.publicKey(cfg.clientKey);
  }

  /** One chunk gives back its session exactly when no message is longer than the decoder's output buffer. */
  lemma ChunkInvertsIffSmall(cfg: Config, d: Setup, c: Chunk, fed: seq<Bytes>)
    requires Lawful(cfg.lib) && Matches(cfg, d) && Decodable(cfg, c)
    ensures FeedChunk(d, fed, c, 0).msgs == Messages(c.entries) <==> Small(cfg.lib.capacity, Messages(c.entries))
    ensures |FeedChunk(d, fed, c, 0).msgs| == |c.entries|
  {
    DecodableIsWellFormed(cfg, c);
    SessionDecrypts(cfg, d, c.entries);
    SessionIsPlain(cfg, c.entries);
    FeedInvertsIffSmall(cfg.lib, fed, Messages(c.entries));
  }

  lemma {:induction false} MessagesConcat(a: seq<Entry>, b: seq<Entry>)
    ensures Messages(a + b) == Messages(a) + Messages(b)
  {
    if b == [] {
      assert a + b == a;
    } else {
      assert (a + b)[..|a + b| - 1] == a + b[..|b| - 1];
      MessagesConcat(a, b[..|b| - 1]);
    }
  }

  lemma EqualHalves(a: seq<Bytes>, b: seq<Bytes>, a': seq<Bytes>, b': seq<Bytes>)
    requires |a| == |a'|
    ensures a + b == a' + b' <==> a == a' && b == b'
  {
    if a + b == a' + b' {
      assert a == (a + b)[..|a|] && b == (a + b)[|a|..];
      assert a' == (a' + b')[..|a|] && b' == (a' + b')[|a|..];
    }
  }

  lemma SmallHalves(n: nat, a: seq<Bytes>, b: seq<Bytes>)
    ensures Small(n, a + b) <==> Small(n, a) && Small(n, b)
  {
    if Small(n, a + b) {
      forall i | 0 <= i < |a| ensures |a[i]| <= n {
        assert (a + b)[i] == a[i];
      }
      forall i | 0 <= i < |b| ensures |b[i]| <= n {
        assert (a + b)[|a| + i] == b[i];
      }
    }
  }

  predicate AllDecodable(cfg: Config, chunks: seq<Chunk>) {
    forall k | 0 <= k < |chunks| :: Decodable(cfg, chunks[k])
  }

  lemma {:induction false} FeedInvertsChunksIffSmall(cfg: Config, d: Setup, chunks: seq<Chunk>, fed: seq<Bytes>)
    requires Lawful(cfg.lib) && Matches(cfg, d) && AllDecodable(cfg, chunks)
    ensures FeedChunks(d, fed, chunks).0 == Messages(EntriesOf(chunks)) <==>
              Small(cfg.lib.capacity, Messages(EntriesOf(chunks)))
    ensures |FeedChunks(d, fed, chunks).0| == |EntriesOf(chunks)|
  {
    if chunks != [] {
      var before, c := chunks[..|chunks| - 1], chunks[|chunks| - 1];
      var (msgs, mid) := FeedChunks(d, fed, before);
      FeedInvertsChunksIffSmall(cfg, d, before, fed);
      ChunkInvertsIffSmall(cfg, d, c, mid);
      MessagesConcat(EntriesOf(before), c.entries);
      EqualHalves(msgs, FeedChunk(d, mid, c, 0).msgs, Messages(EntriesOf(before)), Messages(c.entries));
      SmallHalves(cfg.lib.capacity, Messages(EntriesOf(before)), Messages(c.entries));
    }
  }

  /** The messages decoded from the log files, each file by its own run of the decoder, in creation order. */
  function DecodedFiles(d: Setup, files: seq<seq<Chunk>>): (ms: seq<Bytes>) {
    if files == [] then []
    else DecodedFiles(d, files[..|files| - 1]) + MessagesOf(DecodeFile(d, FileBytes(files[|files| - 1]), []))
  }

  /** What those runs append to the output file. */
  function DecodedText(d: Setup, files: seq<seq<Chunk>>): (t: string) {
    if files == [] then ""
    else DecodedText(d, files[..|files| - 1]) + Text(d.format, MessagesOf(DecodeFile(d, FileBytes(files[|files| - 1]), [])))
  }

  lemma {:induction false} TextOfFiles(d: Setup, files: seq<seq<Chunk>>)
    ensures DecodedText(d, files) == Text(d.format, DecodedFiles(d, files))
  {
    if files != [] {
      TextOfFiles(d, files[..|files| - 1]);
      TextConcat(d.format, DecodedFiles(d, files[..|files| - 1]), MessagesOf(DecodeFile(d, FileBytes(files[|files| - 1]), [])));
    }
  }

  predicate FilesDecodable(cfg: Config, files: seq<seq<Chunk>>) {
    forall f | 0 <= f < |files| :: files[f] != [] && AllDecodable(cfg, files[f])
  }

  lemma AllWellFormedIfDecodable(cfg: Config, chunks: seq<Chunk>)
    requires AllDecodable(cfg, chunks)
    ensures AllWellFormed(chunks)
  {
    forall k | 0 <= k < |chunks| ensures WellFormed(chunks[k]) {
      DecodableIsWellFormed(cfg, chunks[k]);
    }
  }

  lemma {:induction false} EntriesOfConcat(a: seq<Chunk>, b: seq<Chunk>)
    ensures EntriesOf(a + b) == EntriesOf(a) + EntriesOf(b)
  {
    if b == [] {
      assert a + b == a;
    } else {
      assert (a + b)[..|a + b| - 1] == a + b[..|b| - 1];
      EntriesOfConcat(a, b[..|b| - 1]);
    }
  }

  lemma {:induction false} FilesInvertIffSmall(cfg: Config, d: Setup, files: seq<seq<Chunk>>)
    requires Lawful(cfg.lib) && Matches(cfg, d) && FilesDecodable(cfg, files)
    ensures var all := Messages(EntriesOf(AllChunks(files)));
            && (DecodedFiles(d, files) == all <==> Small(cfg.lib.capacity, all))
            && |DecodedFiles(d, files)| == |all|
  {
    if files != [] {
      var before, last := files[..|files| - 1], files[|files| - 1];
      FilesInvertIffSmall(cfg, d, before);
      AllWellFormedIfDecodable(cfg, last);
      DecoderIsExact(d, last, []);
      FeedInvertsChunksIffSmall(cfg, d, last, []);
      EntriesOfConcat(AllChunks(before), last);
      MessagesConcat(EntriesOf(AllChunks(before)), EntriesOf(last));
      EqualHalves(DecodedFiles(d, before), FeedChunks(d, [], last).0,
                  Messages(EntriesOf(AllChunks(before))), Messages(EntriesOf(last)));
      SmallHalves(cfg.lib.capacity, Messages(EntriesOf(AllChunks(before))), Messages(EntriesOf(last)));
    }
  }

  lemma {:induction false} ChunkOfFile(files: seq<seq<Chunk>>, f: nat, k: nat)
    requires f < |files| && k < |files[f]|
    ensures exists i | 0 <= i < |AllChunks(files)| :: AllChunks(files)[i] == files[f][k]
  {
    var before := files[..|files| - 1];
    if f < |before| {
      ChunkOfFile(before, f, k);
      var i :| 0 <= i < |AllChunks(before)| && AllChunks(before)[i] == before[f][k];
      assert AllChunks(files)[i] == files[f][k];
    } else {
      assert AllChunks(files)[|AllChunks(before)| + k] == files[f][k];
    }
  }

  lemma FlushedFilesDecodable(cfg: Config, ss: seq<State>, acts: seq<Action>, i: nat)
    requires IsFreshSoloRun(cfg, ss, acts) && i <= |acts| && |ss[i].procs| == 1 && ss[i].procs[0].FlushDone?
    ensures FilesDecodable(cfg, ss[i].core.files)
  {
    FreshFlushIsFramed(cfg, ss, acts, i);
    FilesStayLimited(cfg, ss, acts, i);
    var files := ss[i].core.files;
    forall f | 0 <= f < |files| ensures files[f] != [] && AllDecodable(cfg, files[f]) {
      assert Limited(cfg, files[f]);
      forall k | 0 <= k < |files[f]| ensures Decodable(cfg, files[f][k]) {
        ChunkOfFile(files, f, k);
      }
    }
  }

  /**
   * The round trip: under every race-free interleaving of one producer with the strand, once `Flush` returns, decoding
   * the log files in creation order yields exactly the messages logged (but the empty ones, which `Log` drops), in
   * order, if and only if no message is longer than the decoder's output buffer; and then the output text is each of
   * them rendered and followed by a newline.
   */
  lemma RoundTrip(cfg: Config, ss: seq<State>, acts: seq<Action>, i: nat, d: Setup)
    requires IsFreshSoloRun(cfg, ss, acts) && i <= |acts| && |ss[i].procs| == 1 && ss[i].procs[0].FlushDone?
    requires Matches(cfg, d)
    ensures DecodedFiles(d, ss[i].core.files) == NonEmpty(ss[i].core.logged) <==>
              Small(cfg.lib.capacity, ss[i].core.logged)
    ensures Small(cfg.lib.capacity, ss[i].core.logged) ==>
              DecodedText(d, ss[i].core.files) == Text(d.format, NonEmpty(ss[i].core.logged))
    ensures (forall k | 0 <= k < |ss[i].core.logged| :: |ss[i].core.logged[k]| <= 10240) ==>
              DecodedFiles(d, ss[i].core.files) == NonEmpty(ss[i].core.logged)
  {
    FlushedFilesDecodable(cfg, ss, acts, i);
    FreshFlushIsFramed(cfg, ss, acts, i);
    FilesInvertIffSmall(cfg, d, ss[i].core.files);
    TextOfFiles(d, ss[i].core.files);
    DroppingEmptyKeepsSmall(cfg.lib.capacity, ss[i].core.logged);
  }

  lemma {:induction false} DroppingEmptyKeepsSmall(n: nat, ms: seq<Bytes>)
    ensures Small(n, NonEmpty(ms)) <==> Small(n, ms)
  {
    if ms != [] {
      var before, m := ms[..|ms| - 1], ms[|ms| - 1];
      DroppingEmptyKeepsSmall(n, before);
      SmallHalves(n, NonEmpty(before), if m == [] then [] else [m]);
      SmallHalves(n, before, [m]);
      assert before + [m] == ms;
    }
  }
}
