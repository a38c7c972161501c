/** Bytes, fixed-width little-endian numbers and the digest the formats rely on.
    Everything the runtime writes to disk, to the wire or into a digest is built
    from these pieces. */
module Bytes {

  type byte = b: nat | b < 256 witness 0

  datatype Option<+T> = None | Some(value: T)

  const TWO16: nat := 0x1_0000
  const TWO32: nat := 0x1_0000_0000
  const TWO63: nat := 0x8000_0000_0000_0000
  const TWO64: nat := 0x1_0000_0000_0000_0000

  // ---------------------------------------------------------------- digests

  /** A SHA-256 value, as an array of 32 bytes. */
  type Digest = d: seq<byte> | |d| == 32 witness seq(32, _ => 0)

  /** The digest function. It is a fixed but arbitrary function: nothing is known
      about it, so every theorem of the project holds for whatever function it is. */
  const Sha256Function: seq<byte> -> Digest

  function Sha256Of(data: seq<byte>): Digest {
    Sha256Function(data)
  }

  /** The digest tells these two inputs apart, unless they are the same input. */
  predicate NoCollision(x: seq<byte>, y: seq<byte>) {
    Sha256Of(x) == Sha256Of(y) ==> x == y
  }

  function Zeros(n: nat): (s: seq<byte>)
    ensures |s| == n && forall i :: 0 <= i < n ==> s[i] == 0
  {
    if n == 0 then [] else [0] + Zeros(n - 1)
  }

  // ---------------------------------------------------------------- little-endian numbers

  function Pow256(width: nat): (p: nat)
    ensures p > 0
  {
    if width == 0 then 1 else 256 * Pow256(width - 1)
  }

  lemma Pow256Values()
    ensures Pow256(1) == 256
    ensures Pow256(2) == TWO16
    ensures Pow256(4) == TWO32
    ensures Pow256(8) == TWO64
  {
    assert Pow256(3) == 0x100_0000;
    assert Pow256(5) == 0x100_0000_0000;
    assert Pow256(6) == 0x1_0000_0000_0000;
    assert Pow256(7) == 0x100_0000_0000_0000;
  }

  /** The low `width` bytes of `n`, least significant first. */
  function LE(n: nat, width: nat): (s: seq<byte>)
    ensures |s| == width
  {
    if width == 0 then [] else [n % 256] + LE(n / 256, width - 1)
  }

  function FromLE(s: seq<byte>): nat {
    if s == [] then 0 else s[0] + 256 * FromLE(s[1..])
  }

  lemma {:induction false} FromLEOfLE(n: nat, width: nat)
    ensures FromLE(LE(n, width)) == n % Pow256(width)
  {
    if width != 0 {
      FromLEOfLE(n / 256, width - 1);
      assert LE(n, width)[1..] == LE(n / 256, width - 1);
      ModSplit(n, Pow256(width - 1));
    }
  }

  lemma ModSplit(n: nat, p: nat)
    requires p > 0
    ensures n % (256 * p) == n % 256 + 256 * ((n / 256) % p)
  {
    var q, r := n / 256 / p, n / 256 % p;
    assert n / 256 == q * p + r;
    assert n == 256 * (n / 256) + n % 256;
    assert n == (256 * p) * q + (n % 256 + 256 * r);
    assert 0 <= n % 256 + 256 * r < 256 * p;
    DivModUnique(n, 256 * p, q, n % 256 + 256 * r);
  }

  lemma MulStep(d: nat, a: nat, b: nat)
    requires a < b
    ensures d * a + d <= d * b
  {
    if b > a + 1 { MulStep(d, a, b - 1); }
    assert d * b == d * (b - 1) + d;
  }

  lemma DivModUnique(n: nat, d: nat, q: nat, r: nat)
    requires r < d && n == d * q + r
    ensures n % d == r && n / d == q
  {
    var q', r' := n / d, n % d;
    assert n == d * q' + r';
    if q' < q {
      MulStep(d, q', q);
    } else if q' > q {
      MulStep(d, q, q');
    }
  }

  lemma {:induction false} LEOfFromLE(s: seq<byte>)
    ensures FromLE(s) < Pow256(|s|)
    ensures LE(FromLE(s), |s|) == s
  {
    if s != [] {
      LEOfFromLE(s[1..]);
      assert FromLE(s) % 256 == s[0] && FromLE(s) / 256 == FromLE(s[1..]);
      assert s == [s[0]] + s[1..];
    }
  }

  /** Two's complement: the cast from a signed to an unsigned 64-bit value. */
  function AsU64(i: int): nat {
    i % TWO64
  }

  function AsI64(u: nat): int {
    if u % TWO64 < TWO63 then u % TWO64 else u % TWO64 - TWO64
  }

  lemma SignedRoundTrip(i: int)
    requires 0 - TWO63 <= i < TWO63
    ensures AsU64(i) < TWO64 && AsI64(AsU64(i)) == i
  {
    assert AsU64(i) == if i < 0 then i + TWO64 else i;
  }

  // ---------------------------------------------------------------- sequences

  lemma Assoc<T>(a: seq<T>, b: seq<T>, c: seq<T>)
    ensures (a + b) + c == a + (b + c)
  {
  }

  lemma SplitAt<T>(a: seq<T>, b: seq<T>)
    ensures (a + b)[..|a|] == a && (a + b)[|a|..] == b
  {
  }
}
