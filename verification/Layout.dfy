/** The on-disk format: item and chunk headers, and how they are read back (logger/sinks/sink.h). */
module Layout {
  import opened Bytes

  const ITEM_MAGIC: nat := 0xbe5fba11
  const ITEM_HEADER: nat := 8
  const CHUNK_MAGIC: nat := 0xdeadbeefdada1100
  const CHUNK_HEADER: nat := 176
  const IV_FIELD: nat := 32
  const KEY_FIELD: nat := 128
  const U32: nat := 0x1_0000_0000
  const U64: nat := 0x1_0000_0000_0000_0000

  /** What `WriteToCache_` pushes for one payload: the header, then the payload. */
  function ItemHeaderBytes(size: nat): (bs: Bytes)
    ensures |bs| == ITEM_HEADER
  {
    LittleEndian(ITEM_MAGIC, 4) + LittleEndian(size, 4)
  }

  function ItemBytes(payload: Bytes): (bs: Bytes)
    ensures |bs| == ITEM_HEADER + |payload|
  {
    ItemHeaderBytes(|payload|) + payload
  }

  /** `iv` and `publicKey` are the whole 32- and 128-byte fields, unused bytes included. */
  datatype ChunkHeader = ChunkHeader(size: nat, iv: Bytes, publicKey: Bytes)
  {
    predicate Fits() {
      size < U64 && |iv| == IV_FIELD && |publicKey| == KEY_FIELD
    }

    /** The first `n` bytes of a field. */
    function Iv(n: nat): Bytes {
      if n <= |iv| then iv[..n] else iv
    }

    function Key(n: nat): Bytes {
      if n <= |publicKey| then publicKey[..n] else publicKey
    }
  }

  function ChunkHeaderBytes(h: ChunkHeader): (bs: Bytes)
    ensures |bs| == 16 + |h.iv| + |h.publicKey|
  {
    LittleEndian(CHUNK_MAGIC, 8) + LittleEndian(h.size, 8) + h.iv + h.publicKey
  }

  /** Reads fields at a position, as the decoder's casts do. */
  function ReadU32(data: Bytes, at: nat): (n: nat)
    requires at + 4 <= |data|
  {
    FromLittleEndian(Slice(data, at, 4))
  }

  function ReadU64(data: Bytes, at: nat): (n: nat)
    requires at + 8 <= |data|
  {
    FromLittleEndian(Slice(data, at, 8))
  }

  function ReadChunkHeader(data: Bytes, at: nat): (h: ChunkHeader)
    requires at + CHUNK_HEADER <= |data|
  {
    ChunkHeader(ReadU64(data, at + 8), Slice(data, at + 16, IV_FIELD), Slice(data, at + 48, KEY_FIELD))
  }

  /** `data` holds `part` at position `at`. */
  predicate HoldsAt(data: Bytes, at: nat, part: Bytes) {
    at + |part| <= |data| && data[at..at + |part|] == part
  }

  lemma HoldsParts(data: Bytes, at: nat, first: Bytes, second: Bytes)
    requires HoldsAt(data, at, first + second)
    ensures HoldsAt(data, at, first) && HoldsAt(data, at + |first|, second)
  {
    var whole := first + second;
    assert data[at..at + |first|] == whole[..|first|] by {
      assert data[at..at + |whole|][..|first|] == data[at..at + |first|];
    }
    assert data[at + |first|..at + |whole|] == whole[|first|..] by {
      assert data[at..at + |whole|][|first|..] == data[at + |first|..at + |whole|];
    }
  }

  lemma FieldReadsBack(data: Bytes, at: nat, n: nat, width: nat)
    requires HoldsAt(data, at, LittleEndian(n, width)) && n < Range(width)
    ensures at + width <= |data|
    ensures FromLittleEndian(Slice(data, at, width)) == n
  {
    FittingRoundTrip(n, width);
  }

  /** An item written anywhere in a file is read back with its magic, its length and its payload. */
  lemma ItemReadsBack(data: Bytes, at: nat, payload: Bytes)
    requires HoldsAt(data, at, ItemBytes(payload)) && |payload| < U32
    ensures ReadU32(data, at) == ITEM_MAGIC == 0xbe5fba11
    ensures ReadU32(data, at + 4) == |payload|
    ensures data[at + 8..at + 8 + |payload|] == payload
  {
    var magic, size := LittleEndian(ITEM_MAGIC, 4), LittleEndian(|payload|, 4);
    HoldsParts(data, at, ItemHeaderBytes(|payload|), payload);
    HoldsParts(data, at, magic, size);
    WordRanges();
    FieldReadsBack(data, at, ITEM_MAGIC, 4);
    FieldReadsBack(data, at + 4, |payload|, 4);
  }

  /** A chunk header written anywhere in a file is read back field by field, whatever its unused bytes are. */
  lemma ChunkHeaderReadsBack(data: Bytes, at: nat, h: ChunkHeader)
    requires h.Fits() && HoldsAt(data, at, ChunkHeaderBytes(h))
    ensures at + 176 <= |data| && ReadU64(data, at) == CHUNK_MAGIC == 0xdeadbeefdada1100
    ensures ReadU64(data, at + 8) == h.size && data[at + 16..at + 48] == h.iv && data[at + 48..at + 176] == h.publicKey
    ensures ReadChunkHeader(data, at) == h
  {
    var magic, size := LittleEndian(CHUNK_MAGIC, 8), LittleEndian(h.size, 8);
    HoldsParts(data, at, magic + size + h.iv, h.publicKey);
    HoldsParts(data, at, magic + size, h.iv);
    HoldsParts(data, at, magic, size);
    WordRanges();
    FieldReadsBack(data, at, CHUNK_MAGIC, 8);
    FieldReadsBack(data, at + 8, h.size, 8);
  }
}
