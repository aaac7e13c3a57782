/** Byte buffers: little-endian unsigned integers of a fixed width, in-place
    overwrites of a fixed-size buffer, and one-byte character stores. */
module Bytes {

  /** An unsigned 8-bit value, the element type of an ArrayBuffer or a Buffer. */
  type Byte = b: int | 0 <= b < 256

  /** 256^n, the number of values an n-byte unsigned field can hold. */
  function Pow256(n: nat): (r: nat)
    ensures r >= 1
  {
    if n == 0 then 1 else 256 * Pow256(n - 1)
  }

  /** The n low-order bytes of v, least significant first. Bits above the width are
      dropped, as a typed-array store drops them. */
  function EncodeLE(v: nat, n: nat): (r: seq<Byte>)
    ensures |r| == n
  {
    if n == 0 then [] else [v % 256] + EncodeLE(v / 256, n - 1)
  }

  /** The unsigned value of a little-endian byte string. */
  function DecodeLE(bs: seq<Byte>): (v: nat)
    ensures v < Pow256(|bs|)
  {
    if |bs| == 0 then 0
    else
      var rest := DecodeLE(bs[1..]);
      assert rest <= Pow256(|bs| - 1) - 1;
      assert 256 * rest <= 256 * Pow256(|bs| - 1) - 256;
      bs[0] + 256 * rest
  }

  /** A positive multiple of d is at least d. */
  lemma MulAtLeast(a: nat, d: nat)
    requires a >= 1
    ensures a * d >= d
  {
    assert a * d == (a - 1) * d + d;
  }

  /** Euclidean division is determined by any quotient/remainder pair. */
  lemma DivModUnique(v: nat, d: nat, q: nat, r: nat)
    requires d > 0 && r < d && v == q * d + r
    ensures v / d == q && v % d == r
  {
    var q', r' := v / d, v % d;
    assert v == q' * d + r';
    if q' > q {
      MulAtLeast(q' - q, d);
    } else if q' < q {
      MulAtLeast(q - q', d);
    }
  }

  /** Reducing modulo 256*m splits into the low byte and the rest reduced modulo m. */
  lemma ModSplit(v: nat, m: nat)
    requires m >= 1
    ensures v % (256 * m) == v % 256 + 256 * ((v / 256) % m)
  {
    var q := v / 256;
    var a := q / m;
    var b := q % m;
    assert q == a * m + b;
    assert v == 256 * q + v % 256;
    assert v == a * (256 * m) + (256 * b + v % 256) by {
      assert 256 * q == 256 * (a * m) + 256 * b;
      assert 256 * (a * m) == a * (256 * m);
    }
    assert 256 * b + v % 256 < 256 * m;
    DivModUnique(v, 256 * m, a, 256 * b + v % 256);
  }

  /** Decoding an n-byte store yields the stored value modulo 256^n: the round trip
      is exact whenever the value fits the width. */
  lemma {:induction false} DecodeEncode(v: nat, n: nat)
    ensures DecodeLE(EncodeLE(v, n)) == v % Pow256(n)
    ensures v < Pow256(n) ==> DecodeLE(EncodeLE(v, n)) == v
  {
    if n > 0 {
      var e := EncodeLE(v, n);
      assert e[1..] == EncodeLE(v / 256, n - 1);
      DecodeEncode(v / 256, n - 1);
      ModSplit(v, Pow256(n - 1));
    }
  }

  /** Encoding the decoded value of a byte string at its own width gives the string back. */
  lemma {:induction false} EncodeDecode(bs: seq<Byte>)
    ensures EncodeLE(DecodeLE(bs), |bs|) == bs
  {
    if |bs| > 0 {
      var v := DecodeLE(bs);
      var rest := DecodeLE(bs[1..]);
      DivModUnique(v, 256, rest, bs[0]);
      EncodeDecode(bs[1..]);
      assert EncodeLE(v, |bs|) == [bs[0]] + bs[1..];
    }
  }

  /** A store only sees the value modulo 256^n. */
  lemma EncodeMod(v: nat, n: nat)
    ensures EncodeLE(v % Pow256(n), n) == EncodeLE(v, n)
  {
    DecodeEncode(v, n);
    EncodeDecode(EncodeLE(v, n));
  }

  /** The capacities of the 16- and 32-bit fields. */
  lemma Pow256Values()
    ensures Pow256(2) == 0x1_0000
    ensures Pow256(4) == 0x1_0000_0000
  {
    assert Pow256(1) == 256;
    assert Pow256(3) == 256 * Pow256(2);
  }

  /** A value below the modulus is its own remainder. */
  lemma ModBelow(v: nat, m: nat)
    requires v < m
    ensures v % m == v
  {
    DivModUnique(v, m, 0, v);
  }

  /** A byte string that decodes to v reduced to its width is the encoding of v. */
  lemma DecodedIsEncoding(s: seq<Byte>, v: nat)
    requires DecodeLE(s) == v % Pow256(|s|)
    ensures s == EncodeLE(v, |s|)
  {
    EncodeDecode(s);
    EncodeMod(v, |s|);
  }

  /** A zero-filled buffer of n bytes (`new ArrayBuffer(n)`, `Buffer.alloc(n)`). */
  function Zeros(n: nat): (r: seq<Byte>)
    ensures |r| == n
    ensures forall i :: 0 <= i < n ==> r[i] == 0
  {
    seq(n, i => 0)
  }

  /** `buf` with the bytes starting at `offset` replaced by `bytes`. */
  function Overwrite(buf: seq<Byte>, offset: nat, bytes: seq<Byte>): (r: seq<Byte>)
    requires offset + |bytes| <= |buf|
    ensures |r| == |buf|
    ensures r[offset..offset + |bytes|] == bytes
    ensures forall i :: 0 <= i < |buf| && !(offset <= i < offset + |bytes|) ==> r[i] == buf[i]
  {
    buf[..offset] + bytes + buf[offset + |bytes|..]
  }

  /** The one-byte stores of a string's character codes, each truncated to 8 bits
      (`setUint8(offset + i, str.charCodeAt(i))`). */
  function CharCodes(s: string): (r: seq<Byte>)
    ensures |r| == |s|
    ensures forall i :: 0 <= i < |s| ==> r[i] == (s[i] as int) % 256
  {
    seq(|s|, i requires 0 <= i < |s| => (s[i] as int) % 256)
  }
}
