/** Unsigned integers as little-endian byte strings. */
module LittleEndian {
  import opened Prelude

  function Pow256(k: nat): nat { if k == 0 then 1 else 256 * Pow256(k - 1) }

  // `n.to_bytes(k, "little")`
  function Little(n: nat, k: nat): (r: Bytes)
    ensures |r| == k
  {
    if k == 0 then [] else [n % 256] + Little(n / 256, k - 1)
  }

  // `int.from_bytes(b, "little")`
  function FromLittle(b: Bytes): (n: nat)
    ensures n < Pow256(|b|)
  {
    if b == [] then 0 else b[0] + 256 * FromLittle(b[1..])
  }

  lemma {:induction false} LittleRoundTrip(n: nat, k: nat)
    requires n < Pow256(k)
    ensures FromLittle(Little(n, k)) == n
  {
    if k > 0 {
      LittleRoundTrip(n / 256, k - 1);
      assert Little(n, k)[1..] == Little(n / 256, k - 1);
    }
  }

  lemma LittleInjective(m: nat, n: nat, k: nat)
    requires m < Pow256(k) && n < Pow256(k) && Little(m, k) == Little(n, k)
    ensures m == n
  {
    LittleRoundTrip(m, k);
    LittleRoundTrip(n, k);
  }

  // A number below 256^(k-1) leaves the top byte clear.
  lemma {:induction false} LittleTopByte(n: nat, k: nat)
    requires k > 0 && n < Pow256(k - 1)
    ensures Little(n, k)[k - 1] == 0
  {
    if k > 1 {
      LittleTopByte(n / 256, k - 1);
      assert Little(n, k)[k - 1] == Little(n / 256, k - 1)[k - 2];
    }
  }
}
