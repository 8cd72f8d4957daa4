/** Integers and their bits. */
module Binary {
  /** The lowest k bits of an integer, least significant first. */
  function NatBits(n: nat, k: nat): (s: seq<bool>)
    ensures |s| == k
    decreases k
  {
    if k == 0 then [] else [n % 2 == 1] + NatBits(n / 2, k - 1)
  }

  function NatOf(s: seq<bool>): nat {
    if s == [] then 0 else (if s[0] then 1 else 0) + 2 * NatOf(s[1..])
  }

  lemma {:induction false} NatRoundTrip(s: seq<bool>)
    ensures NatBits(NatOf(s), |s|) == s
    decreases |s|
  {
    if s != [] {
      NatRoundTrip(s[1..]);
      var n := NatOf(s);
      assert n % 2 == (if s[0] then 1 else 0) && n / 2 == NatOf(s[1..]);
    }
  }

  function Pow2(k: nat): nat {
    if k == 0 then 1 else 2 * Pow2(k - 1)
  }

  lemma {:induction false} NatBound(s: seq<bool>)
    ensures NatOf(s) < Pow2(|s|)
    decreases |s|
  {
    if s != [] { NatBound(s[1..]); }
  }
}
