/** The stream compressor and the cipher, as the session protocol around two library codecs. */
module Codec {
  import opened Bytes

  /** Bytes the decompressor reserves for its output string. */
  const RESERVED: nat := 10240

  /**
   * The third-party library calls. A codec call may depend on everything fed to its stream since the last
   * reset, so a stream's state is that history: plain messages for the compressor, compressed ones for the
   * decompressor. An empty compressed or encrypted output is the error result. `capacity` is what the
   * string library makes of the reservation: no decompressed message is longer.
   */
  datatype Library = Library(
    compress: (seq<Bytes>, Bytes) -> Bytes,
    decompress: (seq<Bytes>, Bytes) -> Bytes,
    encrypt: (Bytes, Bytes, Bytes) -> Bytes,
    decrypt: (Bytes, Bytes, Bytes) -> Bytes,
    agree: (Bytes, Bytes) -> Bytes,
    publicKey: Bytes -> Bytes,
    capacity: nat)

  const IV_USED: nat := 16
  const PUBLIC_KEY: nat := 65

  /** Does a compressed message open a frame? Both byte orders of the magic number are accepted. */
  predicate IsZstd(data: Bytes) {
    && |data| >= 4
    && (data[..4] == [0x28, 0xb5, 0x2f, 0xfd] || data[..4] == [0xfd, 0x2f, 0xb5, 0x28])
  }

  /**
   * In numbers: the first four bytes, least significant first, are the frame magic of section 3.1.1 of RFC 8878, or that
   * number with its bytes reversed.
   */
  lemma ZstdMagicIff(data: Bytes)
    ensures IsZstd(data) <==> |data| >= 4 && FromLittleEndian(data[..4]) in [0xFD2FB528, 0x28B52FFD]
  {
    if |data| >= 4 {
      FourBytes(data[..4]);
    }
  }

  /** Plain messages of one session: none is empty, for `Compress` drops an empty input. */
  predicate Plain(session: seq<Bytes>) {
    forall i | 0 <= i < |session| :: session[i] != []
  }

  predicate Small(capacity: nat, session: seq<Bytes>) {
    forall i | 0 <= i < |session| :: |session[i]| <= capacity
  }

  /** What a session of the compressor puts out, one output for each message. */
  function Outputs(lib: Library, session: seq<Bytes>): (zs: seq<Bytes>)
    ensures |zs| == |session|
  {
    if session == [] then []
    else
      var before := session[..|session| - 1];
      Outputs(lib, before) + [lib.compress(before, session[|session| - 1])]
  }

  /** A fresh stream opens with the magic number and later outputs do not; the matching decompressor inverts. */
  ghost predicate LawfulCompression(lib: Library) {
    && (forall h, m :: Plain(h + [m]) ==> lib.compress(h, m) != [] && (IsZstd(lib.compress(h, m)) <==> h == []))
    && (forall h, m :: Plain(h + [m]) && Small(lib.capacity, h + [m]) ==>
                         lib.decompress(Outputs(lib, h), lib.compress(h, m)) == m)
    && (forall h, z :: |lib.decompress(h, z)| <= lib.capacity)
    && lib.capacity >= RESERVED
  }

  /** Decryption inverts encryption under the same key and any vector with the same first 16 bytes. */
  ghost predicate LawfulCipher(lib: Library) {
    && (forall k, iv, x :: lib.encrypt(k, iv, x) != [])
    && (forall k, iv, iv', x :: |iv| >= IV_USED && |iv'| >= IV_USED && iv[..IV_USED] == iv'[..IV_USED] ==>
                                  lib.decrypt(k, iv', lib.encrypt(k, iv, x)) == x)
    && (forall a, b :: lib.agree(a, lib.publicKey(b)) == lib.agree(b, lib.publicKey(a)))
    && (forall a :: |lib.publicKey(a)| == PUBLIC_KEY)
  }

  ghost predicate Lawful(lib: Library) {
    LawfulCompression(lib) && LawfulCipher(lib)
  }

  /** `Compress`: the output, and the stream's history afterwards. */
  function CompressStep(lib: Library, session: seq<Bytes>, input: Bytes): (r: (Bytes, seq<Bytes>)) {
    if input == [] then ([], session) else (lib.compress(session, input), session + [input])
  }

  /** `Decompress`: a frame magic resets the stream first. */
  function DecompressStep(lib: Library, fed: seq<Bytes>, data: Bytes): (r: (Bytes, seq<Bytes>)) {
    if data == [] then ([], fed)
    else
      var start := if IsZstd(data) then [] else fed;
      (lib.decompress(start, data), start + [data])
  }

  /** Decompresses a list of inputs one after the other. */
  function Feed(lib: Library, fed: seq<Bytes>, zs: seq<Bytes>): (r: (seq<Bytes>, seq<Bytes>))
    ensures |r.0| == |zs|
  {
    if zs == [] then ([], fed)
    else
      var (outs, mid) := Feed(lib, fed, zs[..|zs| - 1]);
      var (out, after) := DecompressStep(lib, mid, zs[|zs| - 1]);
      (outs + [out], after)
  }

  class ZstdCompress {
    const lib: Library
    var session: seq<Bytes>  // what the compression stream saw since its last reset
    var fed: seq<Bytes>      // what the decompression stream saw since its last reset

    constructor (lib: Library)
      ensures this.lib == lib && session == [] && fed == []
    {
      this.lib, session, fed := lib, [], [];
    }

    /** Whatever is compressed next opens a frame, so any decompressor starts afresh on it. */
    method ResetStream()
      modifies this`session
      ensures session == []
      ensures LawfulCompression(lib) ==> forall m | m != [] :: IsZstd(lib.compress(session, m))
    {
      session := [];
      assert LawfulCompression(lib) ==> forall m | m != [] :: Plain([] + [m]);
    }

    /** The output is empty for an empty input alone, and opens a frame exactly when it is the session's first. */
    method Compress(input: Bytes) returns (output: Bytes)
      modifies this`session
      ensures (output, session) == CompressStep(lib, old(session), input)
      ensures LawfulCompression(lib) && Plain(old(session)) ==>
                && Plain(session)
                && (output == [] <==> input == [])
                && (IsZstd(output) <==> input != [] && old(session) == [])
                && Outputs(lib, session) == Outputs(lib, old(session)) + if output == [] then [] else [output]
    {
      CompressStepFrames(lib, session, input);
      if |input| == 0 {
        return [];
      }
      output := lib.compress(session, input);
      session := session + [input];
    }

    /** Given a session's next output while in step with it, or its first in any state, it gives the message back. */
    method Decompress(data: Bytes) returns (output: Bytes)
      modifies this`fed
      ensures (output, fed) == DecompressStep(lib, old(fed), data)
      ensures LawfulCompression(lib) ==> ReadsBack(lib, old(fed), data, output, fed)
      ensures data == [] ==> output == [] && fed == old(fed)
      ensures data != [] ==>
                var resets := |data| >= 4 && FromLittleEndian(data[..4]) in [0xFD2FB528, 0x28B52FFD];
                fed == (if resets then [data] else old(fed) + [data]) && output == lib.decompress(fed[..|fed| - 1], data)
    {
      ZstdMagicIff(data);
      if LawfulCompression(lib) {
        DecompressStepReadsBack(lib, fed, data);
      }
      if |data| == 0 {
        return [];
      }
      if IsZstd(data) {
        fed := [];
      }
      output := lib.decompress(fed, data);
      fed := fed + [data];
    }
  }

  /** `data` read in state `before` as the output for `m` that follows `session`: the message, and the state in step. */
  ghost predicate ReadsBack(lib: Library, before: seq<Bytes>, data: Bytes, output: Bytes, after: seq<Bytes>) {
    forall session, m | Plain(session + [m]) && data == lib.compress(session, m)
                        && (session == [] || before == Outputs(lib, session)) ::
      after == Outputs(lib, session + [m]) && (Small(lib.capacity, session + [m]) ==> output == m)
  }

  lemma CompressStepFrames(lib: Library, session: seq<Bytes>, input: Bytes)
    ensures var (output, after) := CompressStep(lib, session, input);
            LawfulCompression(lib) && Plain(session) ==>
              && Plain(after)
              && (output == [] <==> input == [])
              && (IsZstd(output) <==> input != [] && session == [])
              && Outputs(lib, after) == Outputs(lib, session) + if output == [] then [] else [output]
  {
    if LawfulCompression(lib) && Plain(session) && input != [] {
      assert Plain(session + [input]);
      assert (session + [input])[..|session|] == session;
    }
  }

  lemma DecompressStepReadsBack(lib: Library, fed: seq<Bytes>, data: Bytes)
    requires LawfulCompression(lib)
    ensures var (output, after) := DecompressStep(lib, fed, data);
            ReadsBack(lib, fed, data, output, after)
  {
    var (output, after) := DecompressStep(lib, fed, data);
    forall session, m | Plain(session + [m]) && data == lib.compress(session, m)
                        && (session == [] || fed == Outputs(lib, session))
      ensures after == Outputs(lib, session + [m]) && (Small(lib.capacity, session + [m]) ==> output == m)
    {
      OutputReadsBack(lib, fed, session, m);
    }
  }

  /** One session's next output, read in step with it, and its first output, read in any state. */
  lemma OutputReadsBack(lib: Library, fed: seq<Bytes>, session: seq<Bytes>, m: Bytes)
    requires LawfulCompression(lib) && Plain(session + [m])
    requires session == [] || fed == Outputs(lib, session)
    ensures var (output, after) := DecompressStep(lib, fed, lib.compress(session, m));
            after == Outputs(lib, session + [m]) && (Small(lib.capacity, session + [m]) ==> output == m)
  {
    assert (session + [m])[..|session|] == session;
  }

  /**
   * Whatever state the decompressor starts in, feeding it the outputs of one session leaves it in step with the
   * compressor, because the first output carries the magic number.
   */
  lemma {:induction false} FeedKeepsStep(lib: Library, fed: seq<Bytes>, session: seq<Bytes>)
    requires LawfulCompression(lib) && Plain(session)
    ensures Feed(lib, fed, Outputs(lib, session)).1 == if session == [] then fed else Outputs(lib, session)
  {
    if session != [] {
      var before, m := session[..|session| - 1], session[|session| - 1];
      assert before + [m] == session;
      FeedKeepsStep(lib, fed, before);
      var zs := Outputs(lib, session);
      assert zs[..|zs| - 1] == Outputs(lib, before);
    }
  }

  /** The decoder's results are the session's messages exactly when every message fits its output buffer. */
  lemma FeedInvertsIffSmall(lib: Library, fed: seq<Bytes>, session: seq<Bytes>)
    requires LawfulCompression(lib) && Plain(session)
    ensures Feed(lib, fed, Outputs(lib, session)).0 == session <==> Small(lib.capacity, session)
  {
    FeedIsBounded(lib, fed, Outputs(lib, session));
    if Small(lib.capacity, session) {
      FeedInverts(lib, fed, session);
    }
  }

  lemma {:induction false} FeedInverts(lib: Library, fed: seq<Bytes>, session: seq<Bytes>)
    requires LawfulCompression(lib) && Plain(session) && Small(lib.capacity, session)
    ensures Feed(lib, fed, Outputs(lib, session)).0 == session
  {
    if session != [] {
      var before, m := session[..|session| - 1], session[|session| - 1];
      assert before + [m] == session;
      FeedInverts(lib, fed, before);
      FeedKeepsStep(lib, fed, before);
      FeedAppend(lib, fed, Outputs(lib, before), lib.compress(before, m));
    }
  }

  lemma {:induction false} FeedIsBounded(lib: Library, fed: seq<Bytes>, zs: seq<Bytes>)
    requires LawfulCompression(lib)
    ensures Small(lib.capacity, Feed(lib, fed, zs).0)
  {
    if zs != [] {
      FeedIsBounded(lib, fed, zs[..|zs| - 1]);
    }
  }

  lemma FeedAppend(lib: Library, fed: seq<Bytes>, zs: seq<Bytes>, z: Bytes)
    ensures var (outs, mid) := Feed(lib, fed, zs);
            var (out, after) := DecompressStep(lib, mid, z);
            Feed(lib, fed, zs + [z]) == (outs + [out], after)
  {
    assert (zs + [z])[..|zs|] == zs;
  }

  /** A library that satisfies every law: the laws are consistent. */
  function ToyLibrary(): (lib: Library) {
    Library(
      (h: seq<Bytes>, m: Bytes) => (if h == [] then [0x28, 0xb5, 0x2f, 0xfd] else [0, 0, 0, 0]) + m,
      (f: seq<Bytes>, z: Bytes) => if 4 <= |z| <= 4 + RESERVED then z[4..] else [],
      (k: Bytes, iv: Bytes, x: Bytes) => x + [1],
      (k: Bytes, iv: Bytes, y: Bytes) => if |y| == 0 then [] else y[..|y| - 1],
      (a: Bytes, b: Bytes) => [],
      (a: Bytes) => seq(PUBLIC_KEY, _ => 0),
      RESERVED)
  }

  lemma LawsAreConsistent()
    ensures Lawful(ToyLibrary())
  {
    var lib := ToyLibrary();
    forall h, m | Plain(h + [m])
      ensures lib.compress(h, m) != [] && (IsZstd(lib.compress(h, m)) <==> h == [])
    {
      var z := lib.compress(h, m);
      assert z[..4] == if h == [] then [0x28, 0xb5, 0x2f, 0xfd] else [0, 0, 0, 0];
      assert z[..4][0] == if h == [] then 0x28 else 0;
    }
    forall h, m | Plain(h + [m]) && Small(lib.capacity, h + [m])
      ensures lib.decompress(Outputs(lib, h), lib.compress(h, m)) == m
    {
      assert (h + [m])[|h|] == m;
    }
  }
}
