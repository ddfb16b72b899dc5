/** Fixed-width big-endian integers, as the framing layer reads and writes them. */
module BigEndian {
  type byte = x: int | 0 <= x < 256
  type uint32 = x: int | 0 <= x < 0x1_0000_0000
  type uint64 = x: int | 0 <= x < 0x1_0000_0000_0000_0000

  const MAX_UINT32: nat := 0xFFFF_FFFF

  /** 256 to the power `width`. */
  function Limit(width: nat): (limit: nat)
    ensures limit > 0
  {
    if width == 0 then 1 else 256 * Limit(width - 1)
  }

  lemma Limits()
    ensures Limit(2) == 0x1_0000
    ensures Limit(4) == 0x1_0000_0000
    ensures Limit(8) == 0x1_0000_0000_0000_0000
  {
    assert Limit(1) == 256;
    assert Limit(3) == 256 * Limit(2);
    assert Limit(5) == 256 * Limit(4);
    assert Limit(6) == 256 * Limit(5);
    assert Limit(7) == 256 * Limit(6);
  }

  /** The low `width` bytes of `v`, most significant first. */
  function Put(v: nat, width: nat): (bytes: seq<byte>)
    ensures |bytes| == width
  {
    if width == 0 then [] else Put(v / 256, width - 1) + [v % 256]
  }

  /** The byte at `i` counts 256 to the power of the places behind it. */
  lemma {:induction false} PutAt(v: nat, width: nat, i: nat)
    requires i < width
    ensures Put(v, width)[i] == v / Limit(width - 1 - i) % 256
  {
    if i < width - 1 {
      PutAt(v / 256, width - 1, i);
      DivideTwice(v, Limit(width - 2 - i));
    }
  }

  lemma DivideTwice(v: nat, d: nat)
    requires d > 0
    ensures v / 256 / d == v / (256 * d)
  {
    var q := v / (256 * d);
    var r := v - 256 * d * q;
    assert v / 256 == d * q + r / 256;
    assert 0 <= r / 256 < d;
    QuotientIs(v / 256, d, q);
  }

  lemma QuotientIs(v: nat, d: nat, q: nat)
    requires d > 0 && d * q <= v < d * q + d
    ensures v / d == q
  {
    var k := v / d;
    if k < q {
      AtLeast(d, q - k);
    } else if q < k {
      AtLeast(d, k - q);
    }
  }

  lemma AtLeast(d: nat, n: nat)
    requires n > 0
    ensures d * n >= d
  {}

  function Get(bytes: seq<byte>): (v: nat)
    ensures v < Limit(|bytes|)
  {
    if bytes == [] then 0 else
      var high := Get(bytes[..|bytes| - 1]);
      256 * high + bytes[|bytes| - 1]
  }

  lemma {:induction false} GetPut(v: nat, width: nat)
    requires v < Limit(width)
    ensures Get(Put(v, width)) == v
  {
    if width > 0 {
      GetPut(v / 256, width - 1);
      assert Put(v, width)[..width - 1] == Put(v / 256, width - 1);
    }
  }

  lemma {:induction false} PutGet(bytes: seq<byte>)
    ensures Put(Get(bytes), |bytes|) == bytes
  {
    if bytes != [] {
      var front := bytes[..|bytes| - 1];
      PutGet(front);
      assert Get(bytes) / 256 == Get(front);
      assert bytes == front + [bytes[|bytes| - 1]];
    }
  }
}
