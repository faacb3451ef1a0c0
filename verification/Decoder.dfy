/** The decoder: parses chunks and items back and reverses the codecs (decode/decode.cc). */
module Decoder {
  import opened Bytes
  import opened Layout
  import opened Codec

  /** `PastEnd` stands for a read beyond the file, which the original does not check for. */
  datatype Error = TooSmall | BadMagic | PastEnd

  /** `format` parses a serialised message and renders it. */
  datatype Setup = Setup(lib: Library, serverKey: Bytes, format: Bytes -> string)

  datatype ItemResult = GotItem(msg: Bytes, fed: seq<Bytes>, length: nat) | NoItem(itemError: Error)

  /** Messages decoded, the decompressor's state, and either where decoding ended or why it failed. */
  datatype Result = Ended(msgs: seq<Bytes>, fed: seq<Bytes>, at: nat) | Failed(written: seq<Bytes>, error: Error)

  const IV_COPIED: nat := 17

  // ---------- what decoding means ----------

  function ItemAt(d: Setup, secret: Bytes, iv: Bytes, data: Bytes, at: nat, fed: seq<Bytes>): (r: ItemResult)
    ensures r.GotItem? ==> r.length >= ITEM_HEADER
  {
    if at + ITEM_HEADER > |data| then NoItem(PastEnd)
    else if ReadU32(data, at) != ITEM_MAGIC then NoItem(BadMagic)
    else
      var size := ReadU32(data, at + 4);
      if at + ITEM_HEADER + size > |data| then NoItem(PastEnd)
      else
        var plain := d.lib.decrypt(secret, iv, Slice(data, at + ITEM_HEADER, size));
        var (msg, fed') := DecompressStep(d.lib, fed, plain);
        GotItem(msg, fed', ITEM_HEADER + size)
  }

  /** The items of a chunk body of `size` bytes that starts at `base`, from `offset` on. */
  function Items(d: Setup, secret: Bytes, iv: Bytes, data: Bytes, base: nat, offset: nat, size: nat, fed: seq<Bytes>): Result
    decreases size - offset
  {
    if offset >= size then Ended([], fed, offset)
    else
      match ItemAt(d, secret, iv, data, base + offset, fed)
      case NoItem(e) => Failed([], e)
      case GotItem(msg, fed', length) =>
        match Items(d, secret, iv, data, base, offset + length, size, fed')
        case Ended(msgs, fed'', at) => Ended([msg] + msgs, fed'', at)
        case Failed(_, e) => Failed([], e)
  }

  /** The chunk at a position of the file. */
  function ChunkAt(d: Setup, data: Bytes, at: nat, fed: seq<Bytes>): (r: Result)
    ensures r.Ended? ==> r.at >= at + CHUNK_HEADER
  {
    if at + CHUNK_HEADER > |data| then Failed([], PastEnd)
    else if ReadU64(data, at) != CHUNK_MAGIC then Failed([], BadMagic)
    else
      var h := ReadChunkHeader(data, at);
      var secret := d.lib.agree(d.serverKey, h.Key(PUBLIC_KEY));
      match Items(d, secret, h.Iv(IV_COPIED), data, at + CHUNK_HEADER, 0, h.size, fed)
      case Ended(msgs, fed', _) => Ended(msgs, fed', at + CHUNK_HEADER + h.size)
      case Failed(_, e) => Failed([], e)
  }

  /** All chunks from a position to the end of the file. A failure keeps what earlier chunks gave. */
  function Chunks(d: Setup, data: Bytes, at: nat, fed: seq<Bytes>): Result
    decreases |data| - at
  {
    if at >= |data| then Ended([], fed, at)
    else
      match ChunkAt(d, data, at, fed)
      case Failed(_, e) => Failed([], e)
      case Ended(msgs, fed', next) =>
        JoinChunks(msgs, Chunks(d, data, next, fed'))
  }

  function DecodeFile(d: Setup, data: Bytes, fed: seq<Bytes>): Result {
    if |data| < CHUNK_HEADER then Failed([], TooSmall) else Chunks(d, data, 0, fed)
  }

  /** Each message rendered and followed by a newline. */
  function Text(format: Bytes -> string, msgs: seq<Bytes>): (t: string) {
    if msgs == [] then "" else Text(format, msgs[..|msgs| - 1]) + format(msgs[|msgs| - 1]) + "\n"
  }

  function MessagesOf(r: Result): seq<Bytes> {
    if r.Ended? then r.msgs else r.written
  }

  lemma {:induction false} TextConcat(format: Bytes -> string, a: seq<Bytes>, b: seq<Bytes>)
    ensures Text(format, a + b) == Text(format, a) + Text(format, b)
  {
    if b == [] {
      assert a + b == a;
    } else {
      assert (a + b)[..|a + b| - 1] == a + b[..|b| - 1];
      TextConcat(format, a, b[..|b| - 1]);
    }
  }

  lemma TextAppend(format: Bytes -> string, msgs: seq<Bytes>, m: Bytes)
    ensures Text(format, msgs + [m]) == Text(format, msgs) + format(m) + "\n"
  {
    assert (msgs + [m])[..|msgs|] == msgs;
  }

  /** A chunk's result when `msgs` were decoded before `rest`. */
  function JoinItems(msgs: seq<Bytes>, rest: Result): Result {
    if rest.Ended? then rest.(msgs := msgs + rest.msgs) else rest
  }

  function JoinChunks(msgs: seq<Bytes>, rest: Result): Result {
    if rest.Ended? then rest.(msgs := msgs + rest.msgs) else rest.(written := msgs + rest.written)
  }

  lemma ItemsStep(d: Setup, secret: Bytes, iv: Bytes, data: Bytes, base: nat, offset: nat, size: nat,
                  fed: seq<Bytes>, msgs: seq<Bytes>)
    requires offset < size
    ensures var rest := Items(d, secret, iv, data, base, offset, size, fed);
            match ItemAt(d, secret, iv, data, base + offset, fed)
            case NoItem(e) => JoinItems(msgs, rest) == Failed([], e)
            case GotItem(msg, fed', length) =>
              JoinItems(msgs, rest)
              == JoinItems(msgs + [msg], Items(d, secret, iv, data, base, offset + length, size, fed'))
  {
    hide ItemAt;
    match ItemAt(d, secret, iv, data, base + offset, fed) {
      case NoItem(_) =>
      case GotItem(msg, fed', length) =>
        var after := Items(d, secret, iv, data, base, offset + length, size, fed');
        if after.Ended? {
          assert msgs + ([msg] + after.msgs) == msgs + [msg] + after.msgs;
        }
    }
  }

  lemma NoItemsYet(rest: Result)
    ensures JoinItems([], rest) == rest
  {
    if rest.Ended? {
      assert [] + rest.msgs == rest.msgs;
    }
  }

  lemma NoItemsLeft(d: Setup, secret: Bytes, iv: Bytes, data: Bytes, base: nat, offset: nat, size: nat,
                    fed: seq<Bytes>, msgs: seq<Bytes>)
    requires offset >= size
    ensures JoinItems(msgs, Items(d, secret, iv, data, base, offset, size, fed)) == Ended(msgs, fed, offset)
  {
    assert msgs + [] == msgs;
  }

  lemma ChunksStep(d: Setup, data: Bytes, at: nat, fed: seq<Bytes>, msgs: seq<Bytes>)
    requires at < |data|
    ensures var rest := Chunks(d, data, at, fed);
            match ChunkAt(d, data, at, fed)
            case Failed(_, e) => JoinChunks(msgs, rest) == Failed(msgs, e)
            case Ended(more, fed', next) =>
              && next > at
              && JoinChunks(msgs, rest) == JoinChunks(msgs + more, Chunks(d, data, next, fed'))
  {
    match ChunkAt(d, data, at, fed) {
      case Failed(_, _) =>
        assert msgs + [] == msgs;
      case Ended(more, fed', next) =>
        var after := Chunks(d, data, next, fed');
        assert msgs + (more + MessagesOf(after)) == msgs + more + MessagesOf(after);
    }
  }

  // ---------- the program ----------

  class Decode {
    const setup: Setup
    const decompress: ZstdCompress

    constructor (setup: Setup)
      ensures this.setup == setup && fresh(decompress)
      ensures decompress.lib == setup.lib && decompress.fed == []
    {
      this.setup := setup;
      decompress := new ZstdCompress(setup.lib);
    }

    ghost predicate Valid()
      reads this
    {
      decompress.lib == setup.lib
    }

    method DecodeItemData(secret: Bytes, iv: Bytes, data: Bytes, at: nat, buffer: string)
      returns (r: ItemResult, output: string)
      requires Valid()
      modifies decompress`fed
      ensures r == ItemAt(setup, secret, iv, data, at, old(decompress.fed))
      ensures r.GotItem? ==> decompress.fed == r.fed && output == buffer + setup.format(r.msg)
      ensures at + 8 <= |data| && FromLittleEndian(data[at..at + 4]) != 0xbe5fba11 ==> r == NoItem(BadMagic)
    {
      output := buffer;
      if at + ITEM_HEADER > |data| {
        return NoItem(PastEnd), output;
      }
      var magic := ReadU32(data, at);
      if magic != ITEM_MAGIC {
        return NoItem(BadMagic), output;
      }
      var size := ReadU32(data, at + 4);
      if at + ITEM_HEADER + size > |data| {
        return NoItem(PastEnd), output;
      }
      var plain := setup.lib.decrypt(secret, iv, Slice(data, at + ITEM_HEADER, size));
      var msg := decompress.Decompress(plain);
      output := output + setup.format(msg);
      r := GotItem(msg, decompress.fed, ITEM_HEADER + size);
    }

    method DecodeChunkData(data: Bytes, at: nat) returns (r: Result, output: string)
      requires Valid()
      modifies decompress`fed
      ensures r == ChunkAt(setup, data, at, old(decompress.fed))
      ensures r.Ended? ==> decompress.fed == r.fed && output == Text(setup.format, r.msgs)
      ensures at + 176 <= |data| && FromLittleEndian(data[at..at + 8]) != 0xdeadbeefdada1100 ==> r == Failed([], BadMagic)
    {
      hide LittleEndian, FromLittleEndian, Items, ItemAt, JoinItems;
      output := "";
      if at + CHUNK_HEADER > |data| {
        return Failed([], PastEnd), output;
      }
      var magic := ReadU64(data, at);
      if magic != CHUNK_MAGIC {
        return Failed([], BadMagic), output;
      }
      var header := ReadChunkHeader(data, at);
      var iv := header.Iv(IV_COPIED);
      var secret := setup.lib.agree(setup.serverKey, header.Key(PUBLIC_KEY));
      var base := at + CHUNK_HEADER;
      var offset := 0;
      var msgs: seq<Bytes> := [];
      ghost var all := Items(setup, secret, iv, data, base, 0, header.size, decompress.fed);
      NoItemsYet(all);
      while offset < header.size
        invariant output == Text(setup.format, msgs)
        invariant all == JoinItems(msgs, Items(setup, secret, iv, data, base, offset, header.size, decompress.fed))
        decreases header.size - offset
      {
        ItemsStep(setup, secret, iv, data, base, offset, header.size, decompress.fed, msgs);
        var item;
        item, output := DecodeItemData(secret, iv, data, base + offset, output);
        if item.NoItem? {
          return Failed([], item.itemError), output;
        }
        TextAppend(setup.format, msgs, item.msg);
        offset := offset + item.length;
        output := output + "\n";
        msgs := msgs + [item.msg];
      }
      NoItemsLeft(setup, secret, iv, data, base, offset, header.size, decompress.fed, msgs);
      r := Ended(msgs, decompress.fed, base + header.size);
    }

    /** `written` is what reaches the output file: a chunk's text only once the whole chunk is decoded. */
    method DecodeFileData(data: Bytes) returns (r: Result, written: string)
      requires Valid()
      modifies decompress`fed
      ensures r == DecodeFile(setup, data, old(decompress.fed))
      ensures written == Text(setup.format, MessagesOf(r))
      ensures |data| < 176 ==> r == Failed([], TooSmall) && written == ""
    {
      written := "";
      if |data| < CHUNK_HEADER {
        return Failed([], TooSmall), written;
      }
      var offset := 0;
      var msgs: seq<Bytes> := [];
      ghost var all := Chunks(setup, data, 0, decompress.fed);
      while offset < |data|
        invariant written == Text(setup.format, msgs)
        invariant all == JoinChunks(msgs, Chunks(setup, data, offset, decompress.fed))
        decreases |data| - offset
      {
        ChunksStep(setup, data, offset, decompress.fed, msgs);
        var chunk, output := DecodeChunkData(data, offset);
        if chunk.Failed? {
          return Failed(msgs, chunk.error), written;
        }
        written := written + output;
        TextConcat(setup.format, msgs, chunk.msgs);
        msgs := msgs + chunk.msgs;
        offset := chunk.at;
      }
      assert msgs + [] == msgs;
      r := Ended(msgs, decompress.fed, offset);
    }
  }
}
