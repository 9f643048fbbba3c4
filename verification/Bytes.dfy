/** Unsigned integers as big-endian bytes (`int.to_bytes`, `int.from_bytes`). */
module Bytes {
  import opened Common

  function Pow256(k: nat): (p: nat)
    ensures p >= 1
  {
    if k == 0 then 1 else 256 * Pow256(k - 1)
  }

  /** The low `k` bytes of `n`, most significant first. */
  function ToBytes(n: nat, k: nat): (b: seq<byte>)
    ensures |b| == k
  {
    if k == 0 then [] else ToBytes(n / 256, k - 1) + [n % 256]
  }

  function FromBytes(b: seq<byte>): (n: nat) {
    if b == [] then 0 else 256 * FromBytes(b[..|b| - 1]) + b[|b| - 1]
  }

  /** As few bytes as hold the number, and at least one. */
  function UintBytes(n: nat): (b: seq<byte>)
    ensures |b| >= 1
  {
    if n < 256 then [n] else UintBytes(n / 256) + [n % 256]
  }

  lemma FromAppend(b: seq<byte>, x: byte)
    ensures FromBytes(b + [x]) == 256 * FromBytes(b) + x
  {
    assert (b + [x])[..|b|] == b;
  }

  lemma {:induction false} FromTo(n: nat, k: nat)
    requires n < Pow256(k)
    ensures FromBytes(ToBytes(n, k)) == n
  {
    if k > 0 {
      FromTo(n / 256, k - 1);
      FromAppend(ToBytes(n / 256, k - 1), n % 256);
    }
  }

  lemma {:induction false} ToFrom(b: seq<byte>)
    ensures FromBytes(b) < Pow256(|b|) && ToBytes(FromBytes(b), |b|) == b
  {
    if b != [] {
      var h, x := b[..|b| - 1], b[|b| - 1];
      ToFrom(h);
      assert b == h + [x];
    }
  }

  lemma {:induction false} FromUint(n: nat)
    ensures FromBytes(UintBytes(n)) == n
  {
    if n < 256 {
      FromAppend([], n);
      assert [] + [n] == [n];
    } else {
      FromUint(n / 256);
      FromAppend(UintBytes(n / 256), n % 256);
    }
  }

  /** It takes no more bytes than any that hold it. */
  lemma {:induction false} UintIsShortest(n: nat, k: nat)
    requires k >= 1 && n < Pow256(k)
    ensures |UintBytes(n)| <= k
  {
    if n >= 256 { UintIsShortest(n / 256, k - 1); }
  }

  /** The first byte tells between which multiples of the highest place the number lies. */
  lemma {:induction false} FirstByte(n: nat, k: nat, low: nat, high: nat)
    requires k >= 1 && high <= 256 && low * Pow256(k - 1) <= n < high * Pow256(k - 1)
    ensures low <= ToBytes(n, k)[0] < high
  {
    if k > 1 {
      Factor(low, Pow256(k - 2));
      Factor(high, Pow256(k - 2));
      FirstByte(n / 256, k - 1, low, high);
      assert ToBytes(n, k)[0] == ToBytes(n / 256, k - 1)[0];
    }
  }

  lemma Factor(a: nat, b: nat)
    ensures a * (256 * b) == 256 * (a * b)
  {}
}
