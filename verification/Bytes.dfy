/** Bytes, 32-byte words, machine integers and the small wrappers the other modules share. */
module Bytes {

  type byte = b: int | 0 <= b < 256

  type Bytes = seq<byte>

  /** A 32-byte array: an identifier, a public key or a digest. */
  type Word = w: Bytes | |w| == 32 witness seq(32, _ => 0)

  /** keccak256 and the like: any total function from byte strings to 32-byte digests. */
  type Hash = Bytes -> Word

  const U64_MAX: int := 0xFFFF_FFFF_FFFF_FFFF
  const U128_MAX: int := 0xFFFF_FFFF_FFFF_FFFF_FFFF_FFFF_FFFF_FFFF
  const I64_MAX: int := 0x7FFF_FFFF_FFFF_FFFF

  type u64 = n: int | 0 <= n <= U64_MAX
  type u128 = n: int | 0 <= n <= U128_MAX

  datatype Option<+T> = None | Some(value: T) {
    function GetOr(default: T): T {
      if Some? then value else default
    }
  }

  datatype Result<+T, +E> = Ok(value: T) | Err(error: E)

  function Min(a: int, b: int): int {
    if a < b then a else b
  }

  /** `u64::saturating_add`. */
  function SatAdd64(a: u64, b: u64): u64 {
    if a + b > U64_MAX then U64_MAX else a + b
  }

  /** Rust's derived `Ord` on byte arrays: lexicographic, first byte most significant. */
  predicate LexLeq(a: Bytes, b: Bytes) {
    a == [] || (b != [] && (a[0] < b[0] || (a[0] == b[0] && LexLeq(a[1..], b[1..]))))
  }

  lemma {:induction false} LexTotal(a: Bytes, b: Bytes)
    ensures LexLeq(a, b) || LexLeq(b, a)
  {
    if a != [] && b != [] && a[0] == b[0] {
      LexTotal(a[1..], b[1..]);
    }
  }

  lemma {:induction false} LexAntisymmetric(a: Bytes, b: Bytes)
    requires LexLeq(a, b) && LexLeq(b, a)
    ensures a == b
  {
    if a != [] && b != [] {
      LexAntisymmetric(a[1..], b[1..]);
      assert a == [a[0]] + a[1..] && b == [b[0]] + b[1..];
    }
  }

  lemma {:induction false} LexTransitive(a: Bytes, b: Bytes, c: Bytes)
    requires LexLeq(a, b) && LexLeq(b, c)
    ensures LexLeq(a, c)
  {
    if a != [] && a[0] == b[0] && b[0] == c[0] {
      LexTransitive(a[1..], b[1..], c[1..]);
    }
  }

  /** The big-endian value of a byte string. */
  function BigEndian(b: Bytes): nat {
    if b == [] then 0 else BigEndian(b[..|b| - 1]) * 256 + b[|b| - 1]
  }

  function Pow256(k: nat): nat {
    if k == 0 then 1 else 256 * Pow256(k - 1)
  }

  lemma {:induction false} BigEndianFirst(x: byte, b: Bytes)
    ensures BigEndian([x] + b) == x * Pow256(|b|) + BigEndian(b)
  {
    var all := [x] + b;
    if b == [] {
      assert all[..0] == [];
    } else {
      assert all[..|all| - 1] == [x] + b[..|b| - 1];
      BigEndianFirst(x, b[..|b| - 1]);
    }
  }

  lemma {:induction false} BigEndianBelow(b: Bytes)
    ensures BigEndian(b) < Pow256(|b|)
  {
    if b != [] {
      BigEndianBelow(b[..|b| - 1]);
    }
  }

  /** On byte arrays of one length the order is that of their big-endian values. */
  lemma {:induction false} LexIsBigEndian(a: Bytes, b: Bytes)
    requires |a| == |b|
    ensures LexLeq(a, b) <==> BigEndian(a) <= BigEndian(b)
  {
    if a != [] {
      var x, y, s, t := a[0], b[0], a[1..], b[1..];
      assert a == [x] + s && b == [y] + t;
      BigEndianFirst(x, s);
      BigEndianFirst(y, t);
      BigEndianBelow(s);
      BigEndianBelow(t);
      LexIsBigEndian(s, t);
      if x < y {
        StepUp(x, y, Pow256(|s|));
      } else if y < x {
        StepUp(y, x, Pow256(|s|));
      }
    }
  }

  lemma {:induction false} StepUp(x: nat, y: nat, p: nat)
    requires x < y
    ensures x * p + p <= y * p
  {
    assert (x + 1) * p <= y * p;
  }
}
