// Bytes, 32-bit words and in-place copies.

module Bytes {

  type byte = x: int | 0 <= x < 0x100

  type uint32 = x: int | 0 <= x < 0x1_0000_0000

  datatype Option<+T> = None | Some(value: T)

  predicate Distinct<T(==)>(xs: seq<T>) {
    forall i, j | 0 <= i < j < |xs| :: xs[i] != xs[j]
  }

  /** Conversion of a 64-bit count to `uint32_t`: the value modulo 2^32, also for negative counts. */
  function Low32(x: int): uint32 {
    x % 0x1_0000_0000
  }

  /** The memory image of a 32-bit word on a little-endian host. */
  function Encode32(v: uint32): (b: seq<byte>)
    ensures |b| == 4
  {
    [v % 0x100, v / 0x100 % 0x100, v / 0x1_0000 % 0x100, v / 0x100_0000]
  }

  function Decode32(b: seq<byte>): uint32
    requires |b| == 4
  {
    var (b0: int, b1: int, b2: int, b3: int) := (b[0], b[1], b[2], b[3]);
    b0 + 0x100 * b1 + 0x1_0000 * b2 + 0x100_0000 * b3
  }

  lemma DecodeEncode32(v: uint32)
    ensures Decode32(Encode32(v)) == v
  {
    assert v / 0x1_0000 == v / 0x100 / 0x100;
    assert v / 0x100_0000 == v / 0x1_0000 / 0x100;
  }

  lemma EncodeDecode32(b: seq<byte>)
    requires |b| == 4
    ensures Encode32(Decode32(b)) == b
  {
    var v := Decode32(b);
    var b1: int, b2: int, b3: int := b[1], b[2], b[3];
    Digit(b[0], b1 + 0x100 * b2 + 0x1_0000 * b3);
    Digit(b[1], b2 + 0x100 * b3);
    Digit(b[2], b3);
    DivisionInSteps(v);
  }

  lemma Digit(d: byte, q: int)
    ensures (d + 0x100 * q) / 0x100 == q && (d + 0x100 * q) % 0x100 == d
  {
  }

  lemma DivisionInSteps(v: int)
    ensures v / 0x1_0000 == v / 0x100 / 0x100 && v / 0x100_0000 == v / 0x100 / 0x100 / 0x100
  {
  }

  /** Truncating two times and subtracting loses nothing modulo 2^32. */
  lemma Low32Difference(t: int, s: int)
    ensures Low32(t - Low32(s)) == Low32(t - s)
  {
    var k := s / 0x1_0000_0000;
    assert t - Low32(s) == (t - s) + k * 0x1_0000_0000;
    ModShift(t - s, k);
  }

  lemma ModShift(x: int, k: int)
    ensures (x + k * 0x1_0000_0000) % 0x1_0000_0000 == x % 0x1_0000_0000
  {
    var q := x / 0x1_0000_0000;
    assert x + k * 0x1_0000_0000 == x % 0x1_0000_0000 + (q + k) * 0x1_0000_0000;
  }

  /** `s` after `data` is copied over it from offset `at`. */
  function Overwrite(s: seq<byte>, at: nat, data: seq<byte>): (r: seq<byte>)
    requires at + |data| <= |s|
    ensures |r| == |s|
  {
    s[..at] + data + s[at + |data|..]
  }

  lemma OverwriteTake(s: seq<byte>, at: nat, data: seq<byte>)
    requires at + |data| <= |s|
    ensures Overwrite(s, at, data)[..at + |data|] == s[..at] + data
    ensures Overwrite(s, at, data)[..at] == s[..at]
  {
  }

  lemma SliceOfTail(s: seq<byte>, t: seq<byte>, i: nat, j: nat, n: nat)
    requires i <= j <= n <= |s| == |t| && s[i..] == t[i..]
    ensures s[j..n] == t[j..n]
  {
    assert forall k | j <= k < n :: s[k] == s[i..][k - i] && t[k] == t[i..][k - i];
  }

  /** `memcpy` into a caller-supplied buffer. */
  method CopyInto(buffer: array<byte>, at: nat, data: seq<byte>)
    requires at + |data| <= buffer.Length
    modifies buffer
    ensures buffer[..] == Overwrite(old(buffer[..]), at, data)
  {
    forall i | at <= i < at + |data| {
      buffer[i] := data[i - at];
    }
  }
}
