/** The growable memory-mapped buffer (logger/mmap/mmap_aux.cc, logger/mmap/mmap_aux_linux.cc). */
module MMap {
  import opened Bytes
  import opened Layout

  const MAGIC: nat := 0xdeadbeef
  const HEADER: nat := 8
  const DEFAULT_CAPACITY: nat := 512 * 1024

  // ---------- page rounding ----------

  /** `GetValidCapacity`: rounds up to a whole number of pages. */
  function PageRound(page: nat, size: nat): (r: nat)
    requires page > 0
  {
    (size + page - 1) / page * page
  }

  lemma PageRoundIsLeast(page: nat, size: nat)
    requires page > 0
    ensures size <= PageRound(page, size) < size + page
    ensures PageRound(page, size) % page == 0
    ensures forall pages: nat :: pages * page >= size ==> PageRound(page, size) <= pages * page
  {
    var q, r := (size + page - 1) / page, (size + page - 1) % page;
    assert size + page - 1 == q * page + r;
    RemainderIsUnique(q * page, page, q, 0);
    forall pages: nat
      ensures pages * page >= size ==> q * page <= pages * page
    {
      if pages < q {
        MultiplesAreApart(pages, q, page);
      } else if q < pages {
        MultiplesAreApart(q, pages, page);
      }
    }
  }

  lemma MultiplesAreApart(a: nat, b: nat, page: nat)
    requires a < b
    ensures a * page + page <= b * page
  {
    MultipleIsLarge(b - a, page);
    assert (b - a) * page == b * page - a * page;
  }

  /** Rounding a whole number of pages changes nothing. */
  lemma PageRoundIsIdempotent(page: nat, size: nat)
    requires page > 0
    ensures PageRound(page, PageRound(page, size)) == PageRound(page, size)
  {
    var r := PageRound(page, size);
    PageRoundIsLeast(page, size);
    PageRoundIsLeast(page, r);
    assert ((size + page - 1) / page) * page >= r;
  }

  lemma WholePagesStay(page: nat, size: nat)
    requires page > 0 && size % page == 0
    ensures PageRound(page, size) == size
  {
    PageRoundIsLeast(page, size);
    assert size / page * page == size;
  }

  lemma WholePagesHold(page: nat, capacity: nat, size: nat)
    requires page > 0 && size <= capacity && capacity % page == 0
    ensures PageRound(page, size) <= capacity
  {
    hide PageRound;
    PageRoundIsLeast(page, size);
    var pages := capacity / page;
    assert pages * page == capacity;
  }

  /** Capacity after `EnsureCapacity_`, which rounds before `Reserve_` rounds again. */
  function Grown(page: nat, capacity: nat, size: nat): (c: nat)
    requires page > 0
  {
    var rounded := PageRound(page, size + HEADER);
    if rounded <= capacity then capacity else Reserved(page, capacity, rounded)
  }

  function Reserved(page: nat, capacity: nat, wanted: nat): (c: nat)
    requires page > 0
  {
    var rounded := PageRound(page, wanted);
    if rounded <= capacity then capacity else rounded
  }

  /** Capacity never shrinks, always leaves room for the header, and is the least page multiple when it grows. */
  lemma GrownIsLeast(page: nat, capacity: nat, size: nat)
    requires page > 0
    ensures Grown(page, capacity, size) >= capacity
    ensures Grown(page, capacity, size) >= size + HEADER
    ensures Grown(page, capacity, size) != capacity ==>
              && capacity < Grown(page, capacity, size) == PageRound(page, size + HEADER)
              && forall pages: nat :: pages * page >= size + HEADER ==> Grown(page, capacity, size) <= pages * page
    ensures size + HEADER <= capacity && capacity % page == 0 ==> Grown(page, capacity, size) == capacity
    ensures capacity % page == 0 ==> Grown(page, capacity, size) % page == 0
  {
    hide PageRound;
    PageRoundIsLeast(page, size + HEADER);
    PageRoundIsIdempotent(page, size + HEADER);
    if size + HEADER <= capacity && capacity % page == 0 {
      WholePagesHold(page, capacity, size + HEADER);
    }
  }

  lemma GrownHasRoom(page: nat, capacity: nat, size: nat)
    requires page > 0
    ensures HEADER + size <= Grown(page, capacity, size)
  {
    GrownIsLeast(page, capacity, size);
  }

  lemma GrownKeepsPages(page: nat, capacity: nat, size: nat)
    requires page > 0 && capacity % page == 0
    ensures Grown(page, capacity, size) % page == 0
  {
    GrownIsLeast(page, capacity, size);
  }

  // ---------- the mapped bytes ----------

  predicate HasMagic(image: Bytes) {
    |image| >= HEADER && ReadU32(image, 0) == MAGIC
  }

  function Size(image: Bytes): (n: nat)
    requires |image| >= HEADER
  {
    ReadU32(image, 4)
  }

  /** A mapping that holds its contents: whole pages, the magic number, and room for the recorded size. */
  predicate Sound(page: nat, image: Bytes) {
    && page > 0
    && HasMagic(image)
    && HEADER + Size(image) <= |image|
    && |image| % page == 0
  }

  function Contents(image: Bytes): (bs: Bytes)
    requires |image| >= HEADER && HEADER + Size(image) <= |image|
    ensures |bs| == Size(image)
  {
    image[HEADER..HEADER + Size(image)]
  }

  /** `data` stored at a position. */
  function Overwrite(image: Bytes, at: nat, data: Bytes): (r: Bytes)
    requires at + |data| <= |image|
    ensures |r| == |image|
  {
    image[..at] + data + image[at + |data|..]
  }

  function WithSize(image: Bytes, n: nat): (r: Bytes)
    requires |image| >= HEADER
    ensures |r| == |image|
  {
    Overwrite(image, 4, LittleEndian(n, 4))
  }

  function Zeros(n: nat): (r: Bytes)
    ensures |r| == n
  {
    seq(n, _ => 0)
  }

  /** The file cut or padded with zeros to the new length, and mapped again. */
  function Remapped(image: Bytes, capacity: nat): (r: Bytes)
    ensures |r| == capacity
  {
    if capacity <= |image| then image[..capacity] else image + Zeros(capacity - |image|)
  }

  function Ensured(page: nat, image: Bytes, size: nat): (r: Bytes)
    requires page > 0
  {
    Remapped(image, Grown(page, |image|, size))
  }

  /** The mapping with room made and the data stored behind the contents, but the old size in its header. */
  function Stored(page: nat, image: Bytes, data: Bytes): (r: Bytes)
    requires Sound(page, image)
    ensures |r| >= HEADER
  {
    var size := Size(image) + |data|;
    GrownIsLeast(page, |image|, size);
    Overwrite(Ensured(page, image, size), HEADER + Size(image), data)
  }

  function Pushed(page: nat, image: Bytes, data: Bytes): (r: Bytes)
    requires Sound(page, image)
  {
    WithSize(Stored(page, image, data), Size(image) + |data|)
  }

  function Resized(page: nat, image: Bytes, size: nat): (r: Bytes)
    requires Sound(page, image)
  {
    GrownIsLeast(page, |image|, size);
    WithSize(Ensured(page, image, size), size)
  }

  function Cleared(page: nat, image: Bytes): (r: Bytes)
    requires Sound(page, image)
  {
    WithSize(image, 0)
  }

  /** The constructor's mapping of an existing file. */
  function Opened(page: nat, file: Bytes): (r: Bytes)
    requires page > 0
  {
    PageRoundIsLeast(page, DEFAULT_CAPACITY);
    var image := Remapped(file, Reserved(page, 0, DEFAULT_CAPACITY));
    if HasMagic(image) then image else WithSize(Overwrite(image, 0, LittleEndian(MAGIC, 4)), 0)
  }

  // ---------- refinement of a byte sequence ----------

  lemma WithSizeReads(image: Bytes, n: nat)
    requires |image| >= HEADER
    ensures Size(WithSize(image, n)) == n % U32
    ensures ReadU32(WithSize(image, n), 0) == ReadU32(image, 0)
    ensures WithSize(image, n)[HEADER..] == image[HEADER..]
  {
    var r, field := WithSize(image, n), LittleEndian(n, 4);
    assert r[4..8] == field;
    WordRanges();
    LittleEndianRoundTrip(n, 4);
    assert r[0..4] == image[0..4];
  }

  lemma RemappedKeepsPrefix(image: Bytes, capacity: nat, upTo: nat)
    requires upTo <= capacity && upTo <= |image|
    ensures Remapped(image, capacity)[..upTo] == image[..upTo]
  {
  }

  lemma SamePrefixSameHeader(image: Bytes, other: Bytes, upTo: nat)
    requires HEADER <= upTo <= |image| && upTo <= |other| && image[..upTo] == other[..upTo]
    ensures ReadU32(image, 0) == ReadU32(other, 0) && ReadU32(image, 4) == ReadU32(other, 4)
    ensures image[HEADER..upTo] == other[HEADER..upTo]
  {
    assert image[0..4] == image[..upTo][0..4] && image[4..8] == image[..upTo][4..8];
    assert other[0..4] == other[..upTo][0..4] && other[4..8] == other[..upTo][4..8];
    assert image[HEADER..upTo] == image[..upTo][HEADER..] == other[..upTo][HEADER..];
  }

  /** The low 32 bits of the length are all the in-place header can hold. */
  function Wrapped(bs: Bytes): (r: Bytes) {
    bs[..|bs| % U32]
  }

  lemma ModuloIsSmall(n: nat)
    ensures n % U32 <= n && n % U32 < U32
    ensures n % U32 == n <==> n < U32
  {
  }

  lemma StoredHolds(page: nat, image: Bytes, data: Bytes)
    requires Sound(page, image)
    ensures var stored, size := Stored(page, image, data), Size(image) + |data|;
            && |stored| == Grown(page, |image|, size) && HEADER + size <= |stored| && |stored| % page == 0
            && HasMagic(stored) && stored[HEADER..HEADER + size] == Contents(image) + data
  {
    hide Grown, FromLittleEndian;
    var size, at := Size(image) + |data|, HEADER + Size(image);
    GrownIsLeast(page, |image|, size);
    var room := Ensured(page, image, size);
    RemappedKeepsPrefix(image, |room|, at);
    var stored := Overwrite(room, at, data);
    assert stored[..at] == image[..at];
    SamePrefixSameHeader(image, stored, at);
    assert stored[HEADER..at + |data|] == stored[HEADER..at] + data;
  }

  /** Appending goes through any remap, and loses data exactly when the length passes 32 bits. */
  lemma PushAppends(page: nat, image: Bytes, data: Bytes)
    requires Sound(page, image)
    ensures Sound(page, Pushed(page, image, data))
    ensures |Pushed(page, image, data)| == Grown(page, |image|, Size(image) + |data|)
    ensures Contents(Pushed(page, image, data)) == Wrapped(Contents(image) + data)
    ensures Contents(Pushed(page, image, data)) == Contents(image) + data <==> Size(image) + |data| < U32
  {
    hide Stored, Grown, PageRound, WithSize, FromLittleEndian, LittleEndian;
    var size, stored := Size(image) + |data|, Stored(page, image, data);
    StoredHolds(page, image, data);
    WithSizeReads(stored, size);
    ModuloIsSmall(size);
    SuffixSlices(Pushed(page, image, data), stored, HEADER + size % U32);
    assert Wrapped(stored[HEADER..HEADER + size]) == stored[HEADER..HEADER + size % U32];
  }

  lemma ResizedIsSound(page: nat, image: Bytes, size: nat)
    requires Sound(page, image)
    ensures Sound(page, Resized(page, image, size))
    ensures |Resized(page, image, size)| == Grown(page, |image|, size)
    ensures Size(Resized(page, image, size)) == size % U32
  {
    hide LittleEndian, FromLittleEndian, PageRound, Contents;
    GrownHasRoom(page, |image|, size);
    GrownKeepsPages(page, |image|, size);
    var room := Ensured(page, image, size);
    WithSizeReads(room, size);
    ModuloIsSmall(size);
    RemappedKeepsPrefix(image, |room|, HEADER);
    SamePrefixSameHeader(image, room, HEADER);
  }

  /**
   * The new length is what 32 bits hold of the size asked for. Shrinking keeps a prefix; growing keeps everything and
   * exposes what the mapping holds beyond it.
   */
  lemma ResizeKeepsPrefix(page: nat, image: Bytes, size: nat)
    requires Sound(page, image)
    ensures Sound(page, Resized(page, image, size))
    ensures |Resized(page, image, size)| == Grown(page, |image|, size)
    ensures |Contents(Resized(page, image, size))| == size % U32
    ensures size % U32 <= Size(image) ==> Contents(Resized(page, image, size)) == Contents(image)[..size % U32]
    ensures size % U32 >= Size(image) ==> Contents(Resized(page, image, size))[..Size(image)] == Contents(image)
  {
    hide Resized, Grown, Sound, LittleEndian, FromLittleEndian, PageRound;
    var n := size % U32;
    ModuloIsSmall(size);
    ResizedIsSound(page, image, size);
    HasRoom(page, image);
    HasRoom(page, Resized(page, image, size));
    if n <= Size(image) {
      ResizedSharesPrefix(page, image, size, HEADER + n);
      assert Contents(image)[..n] == image[HEADER..HEADER + n];
    }
    if n >= Size(image) {
      ResizedSharesPrefix(page, image, size, HEADER + Size(image));
      assert Contents(Resized(page, image, size))[..Size(image)]
          == Resized(page, image, size)[HEADER..HEADER + Size(image)];
    }
  }

  lemma HasRoom(page: nat, image: Bytes)
    requires Sound(page, image)
    ensures HEADER <= |image| && HEADER + Size(image) <= |image|
  {
  }

  lemma ResizedSharesPrefix(page: nat, image: Bytes, size: nat, upTo: nat)
    requires Sound(page, image) && HEADER <= upTo <= HEADER + size && upTo <= |image|
    ensures upTo <= |Resized(page, image, size)|
    ensures Resized(page, image, size)[HEADER..upTo] == image[HEADER..upTo]
  {
    GrownHasRoom(page, |image|, size);
    var room := Ensured(page, image, size);
    RemappedKeepsPrefix(image, |room|, upTo);
    SamePrefixSameHeader(image, room, upTo);
    WithSizeReads(room, size);
    SuffixSlices(WithSize(room, size), room, upTo);
  }

  lemma SuffixSlices(a: Bytes, b: Bytes, upTo: nat)
    requires HEADER <= upTo <= |a| && upTo <= |b| && a[HEADER..] == b[HEADER..]
    ensures a[HEADER..upTo] == b[HEADER..upTo]
  {
    assert a[HEADER..upTo] == a[HEADER..][..upTo - HEADER] == b[HEADER..][..upTo - HEADER];
  }

  /** What marking a mapping as empty makes of its bytes. */
  lemma MarkedInNumbers(image: Bytes)
    requires |image| >= HEADER
    ensures HasMagic(image) <==> FromLittleEndian(image[..4]) == 0xdeadbeef
    ensures var r := WithSize(Overwrite(image, 0, LittleEndian(MAGIC, 4)), 0);
            FromLittleEndian(r[..4]) == 0xdeadbeef && FromLittleEndian(r[4..8]) == 0 && r[8..] == image[8..]
  {
    var marked := Overwrite(image, 0, LittleEndian(MAGIC, 4));
    WordRanges();
    LittleEndianRoundTrip(MAGIC, 4);
    assert image[0..4] == image[..4] && marked[..4] == LittleEndian(MAGIC, 4);
    hide LittleEndian, FromLittleEndian;
    WithSizeReads(marked, 0);
    var r := WithSize(marked, 0);
    assert r[0..4] == r[..4] && marked[0..4] == marked[..4];
  }

  lemma ClearEmpties(page: nat, image: Bytes)
    requires Sound(page, image)
    ensures Sound(page, Cleared(page, image)) && |Cleared(page, image)| == |image|
    ensures Contents(Cleared(page, image)) == []
  {
    WithSizeReads(image, 0);
  }

  /**
   * Reopening the file always maps the default capacity, for the constructor asks the size of a path it has already
   * moved away. The contents survive exactly when they fit that first mapping.
   */
  lemma ReopenKeepsIffFits(page: nat, image: Bytes)
    requires Sound(page, image)
    ensures var first := PageRound(page, DEFAULT_CAPACITY);
            var image' := Opened(page, image);
            && |image'| == first
            && Size(image') == Size(image)
            && (Sound(page, image') <==> HEADER + Size(image) <= first)
            && (Sound(page, image') ==> Contents(image') == Contents(image))
  {
    var first := PageRound(page, DEFAULT_CAPACITY);
    PageRoundIsLeast(page, DEFAULT_CAPACITY);
    var image' := Remapped(image, first);
    var upTo := if HEADER + Size(image) <= first then HEADER + Size(image) else HEADER;
    RemappedKeepsPrefix(image, first, upTo);
    SamePrefixSameHeader(image, image', upTo);
  }

  /**
   * A file opens empty exactly when, padded with zeros or cut to the first mapping, it lacks the magic number or
   * records the size zero. In particular a new file does, and any file too short to hold the magic number.
   */
  lemma FreshFileOpensEmpty(page: nat, file: Bytes)
    requires page > 0
    ensures var image := Remapped(file, PageRound(page, DEFAULT_CAPACITY));
            |image| >= HEADER
            && (Sound(page, Opened(page, file)) && Contents(Opened(page, file)) == []
                <==> FromLittleEndian(image[..4]) != 0xdeadbeef || FromLittleEndian(image[4..8]) == 0)
    ensures |file| < 4 ==> Sound(page, Opened(page, file)) && Contents(Opened(page, file)) == []
  {
    PageRoundIsLeast(page, DEFAULT_CAPACITY);
    var image := Remapped(file, PageRound(page, DEFAULT_CAPACITY));
    if |file| < 4 {
      ShortFileHasNoMagic(image);
    }
    MarkedOpensEmpty(page, image);
  }

  lemma ShortFileHasNoMagic(image: Bytes)
    requires |image| >= HEADER && image[3] == 0
    ensures !HasMagic(image)
  {
    var word := image[0..4];
    var high, higher, highest := word[1..], word[1..][1..], word[1..][1..][1..];
    assert highest == [0] && highest[1..] == [];
    assert FromLittleEndian(highest) == 0;
    assert FromLittleEndian(higher) < 0x100;
    assert FromLittleEndian(high) < 0x10000;
    assert FromLittleEndian(word) < 0x1000000;
  }

  /** `Init_` on a mapping without the magic number. */
  lemma MarkedOpensEmpty(page: nat, image: Bytes)
    requires page > 0 && |image| >= HEADER && |image| % page == 0
    ensures var marked := WithSize(Overwrite(image, 0, LittleEndian(MAGIC, 4)), 0);
            Sound(page, marked) && Contents(marked) == []
  {
    var marked := Overwrite(image, 0, LittleEndian(MAGIC, 4));
    assert marked[0..4] == LittleEndian(MAGIC, 4);
    WordRanges();
    FittingRoundTrip(MAGIC, 4);
    WithSizeReads(marked, 0);
  }

  // ---------- whole runs ----------

  datatype Op = Push(data: Bytes) | Clear | Resize(size: nat)

  function Apply(page: nat, image: Bytes, op: Op): (r: Bytes)
    requires Sound(page, image)
  {
    match op
    case Push(data) => Pushed(page, image, data)
    case Clear => Cleared(page, image)
    case Resize(size) => Resized(page, image, size)
  }

  /** The same operations on a plain byte sequence. */
  function ApplySimple(contents: Bytes, op: Op): (r: Bytes) {
    match op
    case Push(data) => contents + data
    case Clear => []
    case Resize(size) => if size <= |contents| then contents[..size] else contents
  }

  function RunSimple(contents: Bytes, ops: seq<Op>): (r: Bytes)
    decreases |ops|
  {
    if ops == [] then contents else RunSimple(ApplySimple(contents, ops[0]), ops[1..])
  }

  /** The step does not pass the 32-bit length, and does not grow by `Resize`. */
  predicate OpInRange(contents: Bytes, op: Op) {
    && |ApplySimple(contents, op)| < U32
    && (op.Resize? ==> op.size <= |contents|)
  }

  predicate InRange(contents: Bytes, ops: seq<Op>)
    decreases |ops|
  {
    ops == [] || (OpInRange(contents, ops[0]) && InRange(ApplySimple(contents, ops[0]), ops[1..]))
  }

  function Max(a: nat, b: nat): (m: nat) {
    if a < b then b else a
  }

  /** The greatest length the plain sequence reaches during a run. */
  function Peak(contents: Bytes, ops: seq<Op>): (n: nat)
    ensures n >= |contents|
    decreases |ops|
  {
    if ops == [] then |contents| else Max(|contents|, Peak(ApplySimple(contents, ops[0]), ops[1..]))
  }

  lemma GrownIsMaximum(page: nat, capacity: nat, size: nat)
    requires page > 0
    ensures Grown(page, capacity, size) == Max(capacity, PageRound(page, size + HEADER))
  {
    PageRoundIsIdempotent(page, size + HEADER);
  }

  lemma PageRoundIsMonotone(page: nat, a: nat, b: nat)
    requires page > 0 && a <= b
    ensures PageRound(page, a) <= PageRound(page, b)
  {
    PageRoundIsLeast(page, a);
    PageRoundIsLeast(page, b);
    assert (b + page - 1) / page * page >= a;
  }

  lemma RunPushAppends(page: nat, image: Bytes, data: Bytes)
    requires Sound(page, image) && |Contents(image) + data| < U32
    ensures Sound(page, Pushed(page, image, data))
    ensures Contents(Pushed(page, image, data)) == Contents(image) + data
    ensures |Pushed(page, image, data)| == Grown(page, |image|, |Contents(image) + data|)
  {
    PushAppends(page, image, data);
  }

  lemma ApplyRefines(page: nat, image: Bytes, op: Op)
    requires Sound(page, image) && OpInRange(Contents(image), op)
    ensures Sound(page, Apply(page, image, op))
    ensures Contents(Apply(page, image, op)) == ApplySimple(Contents(image), op)
    ensures |Apply(page, image, op)| == Grown(page, |image|, |ApplySimple(Contents(image), op)|)
  {
    hide Pushed, Resized, Cleared, PageRound, FromLittleEndian;
    match op
    case Push(data) =>
      RunPushAppends(page, image, data);
    case Clear =>
      ClearEmpties(page, image);
      GrownIsLeast(page, |image|, 0);
    case Resize(size) => ResizeKeepsPrefix(page, image, size);
  }

  /** The mapping after a list of operations. */
  function Run(page: nat, image: Bytes, ops: seq<Op>): (r: Bytes)
    requires Sound(page, image) && InRange(Contents(image), ops)
    decreases |ops|
  {
    if ops == [] then image
    else
      ApplyRefines(page, image, ops[0]);
      Run(page, Apply(page, image, ops[0]), ops[1..])
  }

  /** Over any run of the three operations, remaps included, the mapping holds what the plain sequence holds. */
  lemma {:induction false} RunRefinesSequence(page: nat, image: Bytes, ops: seq<Op>)
    requires Sound(page, image) && InRange(Contents(image), ops)
    ensures Sound(page, Run(page, image, ops))
    ensures Contents(Run(page, image, ops)) == RunSimple(Contents(image), ops)
    decreases |ops|
  {
    if ops != [] {
      ApplyRefines(page, image, ops[0]);
      RunRefinesSequence(page, Apply(page, image, ops[0]), ops[1..]);
    }
  }

  /** The capacity after a run, grown one step at a time. */
  function CapacityAfter(page: nat, capacity: nat, contents: Bytes, ops: seq<Op>): (c: nat)
    requires page > 0
    decreases |ops|
  {
    if ops == [] then capacity
    else
      var next := ApplySimple(contents, ops[0]);
      CapacityAfter(page, Grown(page, capacity, |next|), next, ops[1..])
  }

  lemma {:induction false} RunTakesCapacity(page: nat, image: Bytes, ops: seq<Op>)
    requires Sound(page, image) && InRange(Contents(image), ops)
    ensures |Run(page, image, ops)| == CapacityAfter(page, |image|, Contents(image), ops)
    decreases |ops|
  {
    if ops != [] {
      ApplyRefines(page, image, ops[0]);
      RunTakesCapacity(page, Apply(page, image, ops[0]), ops[1..]);
    }
  }

  /** Growing step by step ends with the page multiple the longest contents needed, unless the first one sufficed. */
  lemma {:induction false} CapacityFollowsPeak(page: nat, capacity: nat, contents: Bytes, ops: seq<Op>)
    requires page > 0 && PageRound(page, HEADER + |contents|) <= capacity
    ensures CapacityAfter(page, capacity, contents, ops)
         == Max(capacity, PageRound(page, HEADER + Peak(contents, ops)))
    decreases |ops|
  {
    if ops != [] {
      var next := ApplySimple(contents, ops[0]);
      GrownIsMaximum(page, capacity, |next|);
      CapacityFollowsPeak(page, Grown(page, capacity, |next|), next, ops[1..]);
      PeakStep(page, capacity, |contents|, |next|, Peak(next, ops[1..]));
    }
  }

  /**
   * The capacity a run ends with is the first one or, if greater, the page multiple that the longest contents of
   * the run needed.
   */
  lemma RunCapacity(page: nat, image: Bytes, ops: seq<Op>)
    requires Sound(page, image) && InRange(Contents(image), ops)
    ensures |Run(page, image, ops)| == Max(|image|, PageRound(page, HEADER + Peak(Contents(image), ops)))
  {
    RunTakesCapacity(page, image, ops);
    SoundHasRoom(page, image);
    CapacityFollowsPeak(page, |image|, Contents(image), ops);
  }

  lemma SoundHasRoom(page: nat, image: Bytes)
    requires Sound(page, image)
    ensures PageRound(page, HEADER + Size(image)) <= |image|
  {
    GrownIsLeast(page, |image|, Size(image));
    GrownIsMaximum(page, |image|, Size(image));
  }

  lemma PeakStep(page: nat, capacity: nat, now: nat, next: nat, peak: nat)
    requires page > 0 && next <= peak && PageRound(page, HEADER + now) <= capacity
    ensures Max(Max(capacity, PageRound(page, next + HEADER)), PageRound(page, HEADER + peak))
         == Max(capacity, PageRound(page, HEADER + Max(now, peak)))
  {
    PageRoundIsMonotone(page, next + HEADER, HEADER + peak);
    if peak < now {
      PageRoundIsMonotone(page, HEADER + peak, HEADER + now);
    }
  }

  // ---------- the class ----------

  class MMapAux {
    const page: nat
    var capacity: nat
    var handle: array?<Byte>  // the mapping, shared with the file while it exists
    var file: Bytes           // the file's bytes while nothing is mapped

    /** What the file holds, mapped or not. */
    ghost function OnDisk(): Bytes
      reads this, handle
    {
      if handle == null then file else handle[..]
    }

    ghost predicate Valid()
      reads this, handle
    {
      handle != null && handle.Length == capacity && Sound(page, handle[..])
    }

    ghost function Data(): (bs: Bytes)
      requires Valid()
      reads this, handle
    {
      Contents(handle[..])
    }

    /** Opens `existing`, the bytes found at the path. */
    constructor (page: nat, existing: Bytes)
      requires page > 0
      ensures this.page == page
      ensures handle != null && fresh(handle) && handle.Length == capacity
      ensures handle[..] == Opened(page, existing)
      ensures capacity == PageRound(page, DEFAULT_CAPACITY) && (524288 % page == 0 ==> capacity == 524288)
    {
      this.page, capacity, handle, file := page, 0, null, existing;
      new;
      // The path was moved into the member before its size is asked for, so the size found is 0.
      var size := 0;
      var newSize := if size < DEFAULT_CAPACITY then DEFAULT_CAPACITY else size;
      PageRoundIsLeast(page, DEFAULT_CAPACITY);
      if 524288 % page == 0 {
        WholePagesStay(page, 524288);
      }
      Reserve(newSize);
      Init();
    }

    method Init()
      requires handle != null && handle.Length == capacity >= HEADER
      modifies handle
      ensures handle[..] == if HasMagic(old(handle[..])) then old(handle[..])
                            else WithSize(Overwrite(old(handle[..]), 0, LittleEndian(MAGIC, 4)), 0)
      ensures var before := old(handle[..]);
              if FromLittleEndian(before[..4]) == 0xdeadbeef then handle[..] == before
              else FromLittleEndian(handle[..][..4]) == 0xdeadbeef && FromLittleEndian(handle[..][4..8]) == 0
                   && handle[..][8..] == before[8..]
    {
      MarkedInNumbers(handle[..]);
      var magic := LoadU32(handle, 0);
      if magic != MAGIC {
        Store(handle, 0, LittleEndian(MAGIC, 4));
        Store(handle, 4, LittleEndian(0, 4));
      }
    }

    method Reserve(wanted: nat)
      requires page > 0 && (handle == null ==> capacity == 0) && (handle != null ==> handle.Length == capacity)
      modifies this
      ensures capacity == Reserved(page, old(capacity), wanted)
      ensures capacity == old(capacity) ==> handle == old(handle) && file == old(file)
      ensures capacity != old(capacity) ==>
                && handle != null && fresh(handle) && handle.Length == capacity
                && handle[..] == Remapped(old(OnDisk()), capacity)
    {
      var rounded := PageRound(page, wanted);
      if rounded <= capacity {
        return;
      }
      Unmap();
      TryMap(rounded);
      capacity := rounded;
    }

    method Unmap()
      modifies this
      ensures handle == null && file == old(OnDisk()) && capacity == old(capacity)
    {
      if handle != null {
        file := handle[..];
      }
      handle := null;
    }

    method TryMap(length: nat)
      requires handle == null
      modifies this
      ensures handle != null && fresh(handle) && handle.Length == length && capacity == old(capacity)
      ensures handle[..] == Remapped(old(file), length) == file
    {
      var sized := Remapped(file, length);  // ftruncate
      file := sized;
      handle := new Byte[length](i requires 0 <= i < |sized| => sized[i]);
    }

    method EnsureCapacity(size: nat)
      requires Valid()
      modifies this
      ensures handle != null && handle.Length == capacity
      ensures capacity == Grown(page, old(capacity), size)
      ensures handle == old(handle) || fresh(handle)
      ensures handle[..] == Ensured(page, old(handle[..]), size)
    {
      var rounded := PageRound(page, size + HEADER);
      if rounded <= capacity {
        return;
      }
      Reserve(rounded);
    }

    method Push(data: Bytes)
      requires Valid()
      modifies this, handle
      ensures Valid() && (handle == old(handle) || fresh(handle))
      ensures capacity == Grown(page, old(capacity), |old(Data())| + |data|)
      ensures Data() == Wrapped(old(Data()) + data)
      ensures |old(Data())| + |data| < U32 ==> Data() == old(Data()) + data
    {
      ghost var before := handle[..];
      Append(data);
      PushAppends(page, before, data);
    }

    method Append(data: Bytes)
      requires Valid()
      modifies this, handle
      ensures handle != null && handle.Length == capacity && (handle == old(handle) || fresh(handle))
      ensures handle[..] == Pushed(page, old(handle[..]), data)
    {
      hide PageRound, Grown, FromLittleEndian, LittleEndian;
      var size := LoadU32(handle, 4);
      GrownHasRoom(page, capacity, size + |data|);
      EnsureCapacity(size + |data|);
      Store(handle, HEADER + size, data);
      Store(handle, 4, LittleEndian(size + |data|, 4));
    }

    method Resize(size: nat)
      requires Valid()
      modifies this, handle
      ensures Valid() && (handle == old(handle) || fresh(handle))
      ensures |Data()| == size % U32 && capacity == Grown(page, old(capacity), size)
      ensures size % U32 <= |old(Data())| ==> Data() == old(Data())[..size % U32]
      ensures size % U32 >= |old(Data())| ==> Data()[..|old(Data())|] == old(Data())
    {
      ghost var before := handle[..];
      ResizeKeepsPrefix(page, before, size);
      GrownHasRoom(page, |before|, size);
      EnsureCapacity(size);
      Store(handle, 4, LittleEndian(size, 4));
    }

    method Clear()
      requires Valid()
      modifies handle
      ensures Valid() && Data() == []
    {
      ClearEmpties(page, handle[..]);
      Store(handle, 4, LittleEndian(0, 4));
    }

    method Length() returns (n: nat)
      requires Valid()
      ensures n == |Data()|
    {
      n := LoadU32(handle, 4);
    }

    /** Whether `GetRatio() > 0.8`, in whole numbers. */
    method IsFull() returns (full: bool)
      requires Valid()
      ensures full <==> 5 * |Data()| > 4 * (capacity - HEADER)
    {
      var n := LoadU32(handle, 4);
      full := 5 * n > 4 * (capacity - HEADER);
    }
  }

  method LoadU32(a: array<Byte>, at: nat) returns (n: nat)
    requires at + 4 <= a.Length
    ensures n == ReadU32(a[..], at)
  {
    n := FromLittleEndian(a[at..at + 4]);
    assert a[at..at + 4] == a[..][at..at + 4];
  }

  method Store(a: array<Byte>, at: nat, data: Bytes)
    requires at + |data| <= a.Length
    modifies a
    ensures a[..] == Overwrite(old(a[..]), at, data)
  {
    forall i | 0 <= i < |data| {
      a[at + i] := data[i];
    }
  }
}
