/** Fixed-width little-endian numbers and length-prefixed strings. A string holds
    one byte in each character. */
module Packing {

  function Pow256(width: nat): (n: nat)
    ensures n > 0
  {
    if width == 0 then 1 else 256 * Pow256(width - 1)
  }

  predicate Fits(n: int, width: nat) {
    0 <= n < Pow256(width)
  }

  /** n in width bytes, least significant first; higher digits are dropped. */
  function Pack(n: nat, width: nat): (s: string)
    ensures |s| == width
  {
    if width == 0 then "" else [(n % 256) as char] + Pack(n / 256, width - 1)
  }

  function Unpack(s: string): nat {
    if s == "" then 0 else s[0] as int + 256 * Unpack(s[1..])
  }

  lemma {:induction false} UnpackPack(n: nat, width: nat)
    requires Fits(n, width)
    ensures Unpack(Pack(n, width)) == n
  {
    if width > 0 {
      UnpackPack(n / 256, width - 1);
      assert Pack(n, width)[1..] == Pack(n / 256, width - 1);
    }
  }

  lemma PackInjective(a: nat, b: nat, width: nat)
    requires Fits(a, width) && Fits(b, width) && Pack(a, width) == Pack(b, width)
    ensures a == b
  {
    UnpackPack(a, width);
    UnpackPack(b, width);
  }

  /** Every string preceded by its length in four bytes. */
  function Prefixed(xs: seq<string>): string {
    if xs == [] then "" else Pack(|xs[0]|, 4) + xs[0] + Prefixed(xs[1..])
  }

  predicate Short(xs: seq<string>) {
    forall i | 0 <= i < |xs| :: Fits(|xs[i]|, 4)
  }

  lemma CutEqual(a: string, b: string, c: string, d: string)
    requires a + b == c + d && |a| == |c|
    ensures a == c && b == d
  {
    assert (a + b)[..|a|] == a && (a + b)[|a|..] == b && (c + d)[..|c|] == c && (c + d)[|c|..] == d;
  }

  /** Length prefixes make concatenation reversible. */
  lemma {:induction false} PrefixedInjective(xs: seq<string>, ys: seq<string>)
    requires Short(xs) && Short(ys) && Prefixed(xs) == Prefixed(ys)
    ensures xs == ys
  {
    if xs != [] && ys != [] {
      PrefixedCut(xs);
      PrefixedCut(ys);
      HeadEqual(xs[0], Prefixed(xs[1..]), ys[0], Prefixed(ys[1..]));
      PrefixedInjective(xs[1..], ys[1..]);
      assert xs == [xs[0]] + xs[1..] && ys == [ys[0]] + ys[1..];
    }
  }

  lemma PrefixedCut(xs: seq<string>)
    requires xs != []
    ensures Prefixed(xs) == Pack(|xs[0]|, 4) + (xs[0] + Prefixed(xs[1..]))
  {
  }

  lemma HeadEqual(a: string, b: string, c: string, d: string)
    requires Fits(|a|, 4) && Fits(|c|, 4) && Pack(|a|, 4) + (a + b) == Pack(|c|, 4) + (c + d)
    ensures a == c && b == d
  {
    CutEqual(Pack(|a|, 4), a + b, Pack(|c|, 4), c + d);
    PackInjective(|a|, |c|, 4);
    CutEqual(a, b, c, d);
  }
}
