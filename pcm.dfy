/** Sample representations shared by the codec, the mixers and the scheduler,
    and the JavaScript numeric conversions that the audio code relies on. */
module Pcm {

  /** An octet, as stored in a Node.js Buffer. */
  type byte = x: int | 0 <= x < 256

  /** A signed 16-bit linear PCM sample, as held by an Int16Array. */
  type int16 = x: int | -32768 <= x <= 32767

  function Abs(x: int): nat
  {
    if x < 0 then -x else x
  }

  /** 2^k, the value of `1 << k`. */
  function Pow2(k: nat): (p: nat)
    ensures p >= 1
  {
    if k == 0 then 1 else 2 * Pow2(k - 1)
  }

  /** The powers of two the codec uses, evaluated once. */
  lemma Pow2Table()
    ensures Pow2(0) == 1 && Pow2(1) == 2 && Pow2(2) == 4 && Pow2(3) == 8
    ensures Pow2(4) == 16 && Pow2(5) == 32 && Pow2(6) == 64 && Pow2(7) == 128
    ensures Pow2(8) == 256 && Pow2(9) == 512 && Pow2(10) == 1024 && Pow2(11) == 2048
    ensures Pow2(12) == 4096 && Pow2(13) == 8192 && Pow2(14) == 16384 && Pow2(15) == 32768
  {
  }

  /** Saturate an integer into the int16 range, as `if (s > 32767) s = 32767; if (s < -32768) s = -32768;`. */
  function ClampInt(x: int): (r: int16)
    ensures -32768 <= x <= 32767 ==> r == x
    ensures x > 32767 ==> r == 32767
    ensures x < -32768 ==> r == -32768
  {
    if x > 32767 then 32767 else if x < -32768 then -32768 else x
  }

  /** The same saturation on a real-valued (floating) sample. */
  function ClampReal(x: real): (r: real)
    ensures -32768.0 <= r <= 32767.0
    ensures -32768.0 <= x <= 32767.0 ==> r == x
  {
    if x > 32767.0 then 32767.0 else if x < -32768.0 then -32768.0 else x
  }

  /** Truncation toward zero, the first half of storing a number into an Int16Array. */
  function Trunc(x: real): (t: int)
    ensures x >= 0.0 ==> 0 <= t && t as real <= x < t as real + 1.0
    ensures x < 0.0 ==> t <= 0 && t as real - 1.0 < x <= t as real
  {
    if x >= 0.0 then x.Floor else -((-x).Floor)
  }

  /** Wrap an integer modulo 2^16 into the signed 16-bit range. */
  function Wrap16(t: int): (r: int16)
    ensures (r - t) % 65536 == 0
    ensures -32768 <= t <= 32767 ==> r == t
  {
    ((t + 32768) % 65536) - 32768
  }

  /** The ToInt16 conversion of an Int16Array store: truncate, then wrap. */
  function ToInt16(x: real): (r: int16)
    ensures -32769.0 < x < 32768.0 ==> r == Trunc(x)
  {
    Wrap16(Trunc(x))
  }

  /** Math.round: the nearest integer, halves rounded up. */
  function Round(x: real): (r: int)
    ensures x - 0.5 < r as real <= x + 0.5
  {
    (x + 0.5).Floor
  }

  /** Buffer.readInt16LE: the little-endian two's-complement value of two bytes. */
  function ReadInt16LE(buf: seq<byte>, off: int): (r: int16)
    requires 0 <= off && off + 1 < |buf|
    ensures (r - (buf[off] as int + 256 * buf[off + 1] as int)) % 65536 == 0
  {
    var u := buf[off] as int + 256 * buf[off + 1] as int;
    if u >= 32768 then u - 65536 else u
  }

  /** Division is unique: a decomposition x == len * k + r with 0 <= r < len is the one `/` and `%` give. */
  lemma DivModUnique(x: int, len: int, k: int, r: int)
    requires len > 0 && x == len * k + r && 0 <= r < len
    ensures x % len == r && x / len == k
  {
    var q, s := x / len, x % len;
    assert len * q + s == len * k + r;
    assert len * (q - k) == r - s;
    if q > k {
      MulAtLeast(len, q - k);
    } else if q < k {
      MulAtLeast(len, k - q);
    }
  }

  lemma {:induction false} MulAtLeast(a: int, d: int)
    requires a > 0 && d >= 1
    ensures a * d >= a
    decreases d
  {
    if d > 1 {
      MulAtLeast(a, d - 1);
      assert a * d == a * (d - 1) + a;
    }
  }

  lemma {:induction false} Pow2Monotone(a: nat, b: nat)
    requires a <= b
    ensures Pow2(a) <= Pow2(b)
    decreases b
  {
    if a < b {
      Pow2Monotone(a, b - 1);
    }
  }

  lemma {:induction false} Pow2Add(a: nat, b: nat)
    ensures Pow2(a) * Pow2(b) == Pow2(a + b)
    decreases a
  {
    if a > 0 {
      Pow2Add(a - 1, b);
      var x, y, z := Pow2(a - 1), Pow2(b), Pow2(a - 1 + b);
      assert Pow2(a) == 2 * x && Pow2(a + b) == 2 * z;
      Double(x, y, z);
    }
  }

  lemma Double(x: int, y: int, z: int)
    requires x * y == z
    ensures (2 * x) * y == 2 * z
  {
  }
}
