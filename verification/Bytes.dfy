/** Bytes and the little-endian integers the writer stores in its headers. */
module Bytes {
  type Byte = x: int | 0 <= x < 256

  type Bytes = seq<Byte>

  /** 256 to the power `width`: the first number that `width` bytes cannot hold. */
  function Range(width: nat): (r: nat)
    ensures r >= 1
  {
    if width == 0 then 1 else 256 * Range(width - 1)
  }

  /** The low `width` bytes of `n`, least significant byte first. */
  function LittleEndian(n: nat, width: nat): (bs: Bytes)
    ensures |bs| == width
  {
    if width == 0 then [] else [n % 256] + LittleEndian(n / 256, width - 1)
  }

  function FromLittleEndian(bs: Bytes): (n: nat)
  {
    if bs == [] then 0 else bs[0] + 256 * FromLittleEndian(bs[1..])
  }

  /** The first byte is the least significant one, and four bytes hold each number below 2^32 in one way. */
  lemma FourBytes(bs: Bytes)
    requires |bs| == 4
    ensures FromLittleEndian(bs)
         == bs[0] as int + 0x100 * (bs[1] as int) + 0x1_0000 * (bs[2] as int) + 0x100_0000 * (bs[3] as int)
  {
    assert bs[1..][1..][1..] == [bs[3]] && FromLittleEndian([bs[3]][1..]) == 0;
    assert FromLittleEndian(bs[1..][1..]) == bs[2] + 256 * FromLittleEndian([bs[3]]);
  }

  /** Storing a number in `width` bytes and reading it back keeps it modulo 256^width. */
  lemma {:induction false} LittleEndianRoundTrip(n: nat, width: nat)
    ensures FromLittleEndian(LittleEndian(n, width)) == n % Range(width)
  {
    if width > 0 {
      LittleEndianRoundTrip(n / 256, width - 1);
      assert LittleEndian(n, width)[1..] == LittleEndian(n / 256, width - 1);
      ModuloSplits(n, Range(width - 1));
    }
  }

  lemma FittingRoundTrip(n: nat, width: nat)
    requires n < Range(width)
    ensures FromLittleEndian(LittleEndian(n, width)) == n
  {
    LittleEndianRoundTrip(n, width);
    RemainderIsUnique(n, Range(width), 0, n);
  }

  lemma ModuloSplits(n: nat, range: nat)
    requires range >= 1
    ensures n % (256 * range) == n % 256 + 256 * (n / 256 % range)
  {
    var q, r := n / 256 / range, n / 256 % range;
    assert n / 256 == q * range + r;
    var low := n % 256 + 256 * r;
    assert n == q * (256 * range) + low by {
      assert n == 256 * (q * range + r) + n % 256;
    }
    assert 0 <= low < 256 * range;
    RemainderIsUnique(n, 256 * range, q, low);
  }

  lemma RemainderIsUnique(n: nat, d: nat, q: nat, r: nat)
    requires n == q * d + r && r < d
    ensures n % d == r
  {
    var q', r' := n / d, n % d;
    assert n == q' * d + r';
    if q < q' {
      assert (q' - q) * d >= d by { MultipleIsLarge(q' - q, d); }
    } else if q' < q {
      assert (q - q') * d >= d by { MultipleIsLarge(q - q', d); }
    }
  }

  lemma MultipleIsLarge(k: nat, d: nat)
    requires k >= 1
    ensures k * d >= d
  {
    assert k * d == d + (k - 1) * d;
  }

  lemma WordRanges()
    ensures Range(4) == 0x1_0000_0000
    ensures Range(8) == 0x1_0000_0000_0000_0000
  {
    assert Range(2) == 65536;
    assert Range(4) == 256 * (256 * Range(2));
    assert Range(6) == 256 * (256 * Range(4));
    assert Range(8) == 256 * (256 * Range(6));
  }

  /** Bytes `from` to `from + count` of `bs`. */
  function Slice(bs: Bytes, from: nat, count: nat): (r: Bytes)
    requires from + count <= |bs|
    ensures |r| == count
  {
    bs[from..from + count]
  }
}
